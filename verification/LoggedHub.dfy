/**
 * The hub and its file log as one system. The two meet in one blocking call: the queue goroutine hands a message's encoding
 * to the log's writer and waits until the writer answers.
 */
module LoggedHub {
  import opened Bytes
  import opened Wire
  import opened Blocks
  import HubModel
  import H = HubLoop
  import D = Dispatch
  import L = LogModel

  /** Both parts, and the steps each of them took. */
  datatype Joint = Joint(hub: H.Sys, log: L.Log, hubTrace: seq<H.Event>, logTrace: seq<L.Event>)

  datatype Event =
    | Hub(he: H.Event)  // any step of the hub but the answer to a log write
    | Log(le: L.Event)  // any step of the log but taking and answering a record
    | Submit            // Write hands the record to the writer
    | Reply             // the writer answers, and Write returns

  /** The queue goroutine holds a message it has to log. */
  ghost predicate MustLog(s: H.Sys) {
    s.d.front.Received? && s.d.front.job.content.content.RelayMessage?
  }

  ghost function Held(s: H.Sys): Message
    requires MustLog(s)
  {
    s.d.front.job.content.content.env.msg
  }

  ghost predicate Enabled(s: Joint, e: Event) {
    match e
    case Hub(he) => H.Enabled(true, s.hub, he) && !(he.Logged? && MustLog(s.hub))
    case Log(le) => !le.Offer? && !le.Store?
    case Submit => MustLog(s.hub) && s.log.writer.WIdle?
    case Reply => MustLog(s.hub) && s.log.writer.WStore? && !WriteRecord(s.log.open, s.log.writer.rec).Panic?
  }

  ghost function HubStep(s: Joint, e: H.Event): Joint {
    s.(hub := H.Next(true, s.hub, e), hubTrace := s.hubTrace + [e])
  }

  ghost function LogStep(s: Joint, e: L.Event): Joint {
    s.(log := L.Next(s.log, e), logTrace := s.logTrace + [e])
  }

  ghost function Next(s: Joint, e: Event): Joint {
    if !Enabled(s, e) then s else
      match e
      case Hub(he) => HubStep(s, he)
      case Log(le) => LogStep(s, le)
      case Submit => LogStep(s, L.Offer(Encode(Held(s.hub))))
      case Reply => LogStep(HubStep(s, H.Logged(WriteRecord(s.log.open, s.log.writer.rec).Written?)), L.Store)
  }

  ghost function Run(s: Joint, evs: seq<Event>): Joint
    decreases |evs|
  {
    if evs == [] then s else Run(Next(s, evs[0]), evs[1..])
  }

  ghost function Start(h: HubModel.Hub, f: seq<byte>): Joint {
    Joint(H.Init(h), L.Open(f), [], [])
  }

  // -------------------------------------------------------------- invariant

  /** The record in the writer's hands is the held message's; what the log accepted is what the dispatcher recorded as logged. */
  ghost predicate Coupled(s: Joint) {
    && (L.InHand(s.log.writer) == [] || (MustLog(s.hub) && L.InHand(s.log.writer) == [Encode(Held(s.hub))]))
    && s.log.accepted == EncodeEach(s.hub.logged)
    && L.OpenShape(s.log)
  }

  /** Each part is where its own machine gets by the steps recorded. */
  ghost predicate Traced(h: HubModel.Hub, f: seq<byte>, s: Joint) {
    s.hub == H.Run(true, H.Init(h), s.hubTrace) && s.log == L.Run(L.Open(f), s.logTrace)
  }

  /** Every record offered is the encoding of a message that entered the hub's queue. */
  ghost predicate OffersEntered(s: Joint) {
    forall e :: e in s.logTrace && e.Offer? ==> OfEntered(s.hub.d.entered, e.rec)
  }

  ghost predicate OfEntered(entered: seq<D.Job<HubModel.Packet>>, rec: seq<byte>) {
    exists j :: j in entered && j.content.content.RelayMessage? && rec == Encode(j.content.content.env.msg)
  }

  ghost predicate Inv(h: HubModel.Hub, f: seq<byte>, s: Joint) {
    Coupled(s) && Traced(h, f, s) && OffersEntered(s)
  }

  // ------------------------------------------------------------------- steps

  lemma {:induction false} HubRunSnoc(s: H.Sys, evs: seq<H.Event>, e: H.Event)
    ensures H.Run(true, s, evs + [e]) == H.Next(true, H.Run(true, s, evs), e)
    decreases |evs|
  {
    hide H.Next;
    if evs == [] {
      var one := [e];
      assert evs + one == one && one[1..] == [];
      assert H.Run(true, H.Next(true, s, e), []) == H.Next(true, s, e);
    } else {
      HubRunSnoc(H.Next(true, s, evs[0]), evs[1..], e);
      assert (evs + [e])[1..] == evs[1..] + [e];
    }
  }

  lemma {:induction false} LogRunSnoc(s: L.Log, evs: seq<L.Event>, e: L.Event)
    ensures L.Run(s, evs + [e]) == L.Next(L.Run(s, evs), e)
    decreases |evs|
  {
    hide L.Next;
    if evs == [] {
      var one := [e];
      assert evs + one == one && one[1..] == [];
      assert L.Run(L.Next(s, e), []) == L.Next(s, e);
    } else {
      LogRunSnoc(L.Next(s, evs[0]), evs[1..], e);
      assert (evs + [e])[1..] == evs[1..] + [e];
    }
  }

  lemma TracedStep(h: HubModel.Hub, f: seq<byte>, s: Joint, e: Event)
    requires Traced(h, f, s)
    ensures Traced(h, f, Next(s, e))
  {
    hide H.Next, L.Next, H.Run, L.Run, H.Init, L.Open, WriteRecord, H.Enabled, Encode;
    if Enabled(s, e) {
      match e
      case Hub(he) => HubRunSnoc(H.Init(h), s.hubTrace, he);
      case Log(le) => LogRunSnoc(L.Open(f), s.logTrace, le);
      case Submit => LogRunSnoc(L.Open(f), s.logTrace, L.Offer(Encode(Held(s.hub))));
      case Reply =>
        HubRunSnoc(H.Init(h), s.hubTrace, H.Logged(WriteRecord(s.log.open, s.log.writer.rec).Written?));
        LogRunSnoc(L.Open(f), s.logTrace, L.Store);
    }
  }

  /** While a message is to be logged, no other step of the hub touches it or the list of logged messages. */
  lemma HubLeavesFront(s: H.Sys, e: H.Event)
    requires H.Enabled(true, s, e)
    ensures var t := H.Next(true, s, e);
            && (MustLog(s) && !e.Logged? ==> MustLog(t) && Held(t) == Held(s))
            && (!(e.Logged? && MustLog(s)) ==> t.logged == s.logged)
            && s.d.entered <= t.d.entered
  {
    hide H.Tables, HubModel.Handle, H.LogTakes;
  }

  /** A step of the log other than taking or answering a record leaves the record in hand and what was accepted alone. */
  lemma LogLeavesRecord(s: L.Log, e: L.Event)
    requires !e.Offer? && !e.Store?
    ensures L.InHand(L.Next(s, e).writer) == L.InHand(s.writer) && L.Next(s, e).accepted == s.accepted
  {
    hide L.AppendDisk, L.GetDisk, Reset, Unpack;
  }

  lemma OfferTakes(s: L.Log, rec: seq<byte>)
    requires s.writer.WIdle?
    ensures var t := L.Next(s, L.Offer(rec)); L.InHand(t.writer) == [rec] && t.accepted == s.accepted
  {
  }

  /** The answer of the log is the one the dispatcher reckons with. */
  lemma ReplyCouples(s: Joint)
    requires Coupled(s) && Enabled(s, Reply)
    ensures Coupled(Next(s, Reply)) && L.InHand(Next(s, Reply).log.writer) == []
    ensures s.hub.d.entered == Next(s, Reply).hub.d.entered
  {
    hide Encode, WriteRecord, L.OpenShape, L.Needed, H.Tables, HubModel.Handle;
    var rec := s.log.writer.rec;
    assert rec == Encode(Held(s.hub));
    var ok := WriteRecord(s.log.open, rec).Written?;
    L.StoreAnswers(s.log);
    Takes(Held(s.hub));
    assert H.Enabled(true, s.hub, H.Logged(ok));
    L.ShapeKept(s.log, L.Store);
    assert EncodeEach(s.hub.logged + [Held(s.hub)]) == EncodeEach(s.hub.logged) + [rec];
    assert s.hub.logged + [] == s.hub.logged;
  }

  lemma Takes(m: Message)
    ensures H.LogTakes(m) <==> L.Needed(|Encode(m)|) <= BLOCK_SIZE - 2
  {
  }

  lemma CoupledStep(s: Joint, e: Event)
    requires Coupled(s)
    ensures Coupled(Next(s, e))
  {
    hide Encode, WriteRecord, L.OpenShape, H.Next, L.Next, H.Enabled;
    if Enabled(s, e) {
      match e
      case Hub(he) => HubLeavesFront(s.hub, he);
      case Log(le) =>
        LogLeavesRecord(s.log, le);
        L.ShapeKept(s.log, le);
      case Submit =>
        OfferTakes(s.log, Encode(Held(s.hub)));
        L.ShapeKept(s.log, L.Offer(Encode(Held(s.hub))));
      case Reply => ReplyCouples(s);
    }
  }

  /** What the queue goroutine holds entered the queue. */
  lemma HeldEntered(h: HubModel.Hub, f: seq<byte>, s: Joint)
    requires Traced(h, f, s) && MustLog(s.hub)
    ensures s.hub.d.front.job in s.hub.d.entered
  {
    HubInv(h, s);
    hide H.Run, L.Run, H.InOrder, H.AllPlain, D.Kept, D.Ahead, D.Tokens;
    var d := s.hub.d;
    var held := [d.front.job];
    assert D.Jobs(d.received) + (held + d.queue) == d.entered;
    assert d.entered[|d.received|] == d.front.job;
  }

  lemma HubInv(h: HubModel.Hub, s: Joint)
    requires s.hub == H.Run(true, H.Init(h), s.hubTrace)
    ensures H.Inv(true, h.(queued := [], replies := []), s.hub)
  {
    hide H.Run, H.Inv, H.Balanced, H.Init;
    H.InitInv(true, h, 0);
    H.RunKeeps(true, h.(queued := [], replies := []), H.Init(h), s.hubTrace, 0);
  }

  lemma EnteredGrows(s: Joint, e: Event)
    requires Coupled(s)
    ensures s.hub.d.entered <= Next(s, e).hub.d.entered
  {
    hide Encode, WriteRecord, H.Next, L.Next, H.Enabled;
    if Enabled(s, e) {
      match e
      case Hub(he) => HubLeavesFront(s.hub, he);
      case Reply => ReplyCouples(s);
      case _ =>
    }
  }

  lemma OffersStep(h: HubModel.Hub, f: seq<byte>, s: Joint, e: Event)
    requires Inv(h, f, s)
    ensures OffersEntered(Next(s, e))
  {
    hide Encode, WriteRecord, H.Next, L.Next, H.Enabled, Traced, OfEntered;
    EnteredGrows(s, e);
    var t := Next(s, e);
    forall le | le in t.logTrace && le.Offer?
      ensures OfEntered(t.hub.d.entered, le.rec)
    {
      if le in s.logTrace {
        OfMore(s.hub.d.entered, t.hub.d.entered, le.rec);
      } else {
        assert e.Submit? && Enabled(s, e) && le.rec == Encode(Held(s.hub));
        HeldEntered(h, f, s);
        HeldIsOf(s.hub);
        OfMore(s.hub.d.entered, t.hub.d.entered, le.rec);
      }
    }
  }

  lemma OfMore(a: seq<D.Job<HubModel.Packet>>, b: seq<D.Job<HubModel.Packet>>, rec: seq<byte>)
    requires OfEntered(a, rec) && a <= b
    ensures OfEntered(b, rec)
  {
    hide Encode;
    var j :| j in a && j.content.content.RelayMessage? && rec == Encode(j.content.content.env.msg);
    assert j in b;
  }

  lemma HeldIsOf(s: H.Sys)
    requires MustLog(s) && s.d.front.job in s.d.entered
    ensures OfEntered(s.d.entered, Encode(Held(s)))
  {
    hide Encode;
  }

  lemma {:induction false} RunKeeps(h: HubModel.Hub, f: seq<byte>, s: Joint, evs: seq<Event>)
    requires Inv(h, f, s)
    ensures Inv(h, f, Run(s, evs))
    decreases |evs|
  {
    hide Next, Coupled, Traced, OffersEntered;
    if evs != [] {
      CoupledStep(s, evs[0]);
      TracedStep(h, f, s, evs[0]);
      OffersStep(h, f, s, evs[0]);
      RunKeeps(h, f, Next(s, evs[0]), evs[1..]);
    }
  }

  lemma StartInv(h: HubModel.Hub, f: seq<byte>)
    ensures Inv(h, f, Start(h, f))
  {
  }

  lemma InvAt(h: HubModel.Hub, f: seq<byte>, evs: seq<Event>)
    ensures Inv(h, f, Run(Start(h, f), evs))
  {
    hide Inv;
    StartInv(h, f);
    RunKeeps(h, f, Start(h, f), evs);
  }

  // ------------------------------------------------------------ main results

  /**
   * Over every run of hub and log together, from any file and for messages of any length: the records the log accepted are
   * the encodings of the messages the hub kept, in the order it handles them.
   */
  lemma LogFollowsHub(h: HubModel.Hub, f: seq<byte>, evs: seq<Event>)
    ensures var s := Run(Start(h, f), evs);
            && s.hub == H.Run(true, H.Init(h), s.hubTrace) && s.log == L.Run(L.Open(f), s.logTrace)
            && s.log.accepted == EncodeEach(H.Messages(D.Kept(s.hub.d.received)))
  {
    hide Run, Start, H.Run, L.Run, H.Messages, D.Kept, L.OpenShape, OffersEntered;
    InvAt(h, f, evs);
    H.LogOrderIsHandlingOrder(h, Run(Start(h, f), evs).hubTrace);
  }

  lemma KeptEntered(h: HubModel.Hub, f: seq<byte>, evs: seq<Event>, m: Message) returns (j: D.Job<HubModel.Packet>)
    requires m in H.Messages(D.Kept(Run(Start(h, f), evs).hub.d.received))
    ensures j in Run(Start(h, f), evs).hub.d.entered && j.content.content.RelayMessage? && j.content.content.env.msg == m
  {
    hide Run, Start, H.Run, L.Run;
    InvAt(h, f, evs);
    var s := Run(Start(h, f), evs);
    HubInv(h, s);
    j := KeptMessage(s.hub.d.received, m);
    hide D.Kept, H.InOrder, H.AllPlain, D.Ahead, D.Tokens;
    var d := s.hub.d;
    assert D.Jobs(d.received) + ((if d.front.Received? then [d.front.job] else []) + d.queue) == d.entered;
  }

  lemma {:induction false} KeptMessage(rs: seq<(D.Job<HubModel.Packet>, bool)>, m: Message) returns (j: D.Job<HubModel.Packet>)
    requires m in H.Messages(D.Kept(rs))
    ensures j in D.Jobs(rs) && j.content.content.RelayMessage? && j.content.content.env.msg == m
  {
    var head := if rs[0].1 then [rs[0].0] else [];
    H.MessagesAppend(head, D.Kept(rs[1..]));
    assert D.Jobs(rs)[0] == rs[0].0;
    if m in H.Messages(D.Kept(rs[1..])) {
      j := KeptMessage(rs[1..], m);
      assert D.Jobs(rs) == [rs[0].0] + D.Jobs(rs[1..]);
    } else {
      j := rs[0].0;
      H.OneMessage(j);
    }
  }

  lemma OfferedEntered(h: HubModel.Hub, f: seq<byte>, evs: seq<Event>, e: L.Event) returns (j: D.Job<HubModel.Packet>)
    requires e in Run(Start(h, f), evs).logTrace && e.Offer?
    ensures j in Run(Start(h, f), evs).hub.d.entered && j.content.content.RelayMessage? && e.rec == Encode(j.content.content.env.msg)
  {
    hide Run, Start, Encode, Coupled, Traced;
    InvAt(h, f, evs);
    var s := Run(Start(h, f), evs);
    assert OfEntered(s.hub.d.entered, e.rec);
    j :| j in s.hub.d.entered && j.content.content.RelayMessage? && e.rec == Encode(j.content.content.env.msg);
  }

  // ------------------------------------------------------------ Write returns

  /** The next step of the writer goroutine on the way to answering the held message. */
  ghost function WriterMove(s: Joint): Event {
    match s.log.writer
    case WIdle => Submit
    case WFlush(_) => Log(L.Append)
    case WReset(_) => Log(L.ResetOpen)
    case WStore(_) => Reply
  }

  ghost function WriterSteps(w: L.WriterPc): nat {
    match w
    case WFlush(None) => 6
    case WReset(None) => 5
    case WIdle => 4
    case WFlush(Some(_)) => 3
    case WReset(Some(_)) => 2
    case WStore(_) => 1
  }

  ghost function LogMove(s: Joint): L.Event
    requires MustLog(s.hub)
  {
    match s.log.writer
    case WIdle => L.Offer(Encode(Held(s.hub)))
    case WFlush(_) => L.Append
    case WReset(_) => L.ResetOpen
    case WStore(_) => L.Store
  }

  /** The log is in a state its own machine reaches, and both parts agree on the message to be logged. */
  ghost predicate Writing(s: Joint, old_: seq<seq<byte>>) {
    L.Inv(s.log) && L.Fifo(s.log, old_) && Coupled(s) && MustLog(s.hub) && |Encode(Held(s.hub))| <= 65533
  }

  /** A step of the writer is possible, and brings it nearer to the answer or is the answer. */
  lemma WriterAdvances(s: Joint, old_: seq<seq<byte>>)
    requires Writing(s, old_)
    ensures Enabled(s, WriterMove(s))
    ensures var t := Next(s, WriterMove(s));
            if s.log.writer.WStore? then !MustLog(t.hub)
            else Writing(t, old_) && WriterSteps(t.log.writer) < WriterSteps(s.log.writer)
  {
    hide Encode, WriteRecord, L.Inv, L.Fifo, L.OpenShape, L.Next, H.Next, Coupled;
    NoPanic(s.log);
    CoupledStep(s, WriterMove(s));
    L.StepKeeps(s.log, LogMove(s), old_);
    if s.log.writer.WStore? { AnswerFrees(s); } else { MoveAdvances(s.log, LogMove(s)); }
  }

  lemma MoveAdvances(s: L.Log, e: L.Event)
    requires L.Inv(s)
    requires match s.writer
             case WIdle => e.Offer?
             case WFlush(_) => e == L.Append
             case WReset(_) => e == L.ResetOpen
             case WStore(_) => false
    ensures WriterSteps(L.Next(s, e).writer) < WriterSteps(s.writer)
  {
    hide L.DiskInv, L.AppendDisk, Unpack, Reset, Holds;
  }

  lemma NoPanic(s: L.Log)
    requires L.Inv(s)
    ensures s.writer.WStore? ==> !WriteRecord(s.open, s.writer.rec).Panic?
  {
    hide L.DiskInv, L.ReaderInv, WriteRecord, Unpack;
    if s.writer.WStore? { WriteAcceptsIff(s.open, Unpack(s.open.buf), s.writer.rec); }
  }

  lemma AnswerFrees(s: Joint)
    requires Coupled(s) && Enabled(s, Reply)
    ensures !MustLog(Next(s, Reply).hub)
  {
    hide Encode, WriteRecord, L.Next, L.OpenShape, L.Needed;
    L.StoreAnswers(s.log);
    Takes(Held(s.hub));
    assert s.log.writer.rec == Encode(Held(s.hub));
  }

  ghost predicate AllEnabled(s: Joint, evs: seq<Event>)
    decreases |evs|
  {
    evs == [] || (Enabled(s, evs[0]) && AllEnabled(Next(s, evs[0]), evs[1..]))
  }

  lemma {:induction false} WriterAnswers(s: Joint, old_: seq<seq<byte>>) returns (evs: seq<Event>)
    requires Writing(s, old_)
    ensures AllEnabled(s, evs) && |evs| <= WriterSteps(s.log.writer) && !MustLog(Run(s, evs).hub)
    decreases WriterSteps(s.log.writer)
  {
    hide Writing, Enabled, Next;
    WriterAdvances(s, old_);
    var e := WriterMove(s);
    var rest: seq<Event> := [];
    if !s.log.writer.WStore? { rest := WriterAnswers(Next(s, e), old_); }
    evs := [e] + rest;
    assert evs[1..] == rest;
  }

  lemma LogReaches(f: seq<byte>, evs: seq<L.Event>) returns (old_: seq<seq<byte>>)
    requires L.GoodFile(f) && forall e :: e in evs ==> L.Admissible(e)
    ensures var s := L.Run(L.Open(f), evs); L.Inv(s) && L.Fifo(s, old_)
  {
    L.OpenEstablishes(f);
    old_ := L.Records(L.UnreadOf(f));
    hide L.Inv, L.Fifo, L.Open, L.Records, L.GoodFile;
    L.LogRefinesFifo(L.Open(f), evs, old_);
  }

  /**
   * Write always returns: at any moment of a run over a good file at which the queue goroutine holds a message to log, and
   * all messages that entered fit the log's length field, the log's writer alone gets to its answer within six steps.
   */
  lemma WriteReturns(h: HubModel.Hub, f: seq<byte>, evs: seq<Event>) returns (more: seq<Event>)
    requires L.GoodFile(f)
    requires var s := Run(Start(h, f), evs);
             && MustLog(s.hub)
             && forall j :: j in s.hub.d.entered && j.content.content.RelayMessage? ==> |Encode(j.content.content.env.msg)| <= 65533
    ensures var s := Run(Start(h, f), evs);
            AllEnabled(s, more) && |more| <= 6 && !MustLog(Run(s, more).hub)
  {
    hide Start, Encode, Coupled, L.Inv, L.GoodFile, L.UnreadOf, L.Records, AllEnabled;
    InvAt(h, f, evs);
    var s := Run(Start(h, f), evs);
    hide Run;
    forall e | e in s.logTrace
      ensures L.Admissible(e)
    {
      if e.Offer? {
        var j := OfferedEntered(h, f, evs, e);
      }
    }
    HeldEntered(h, f, s);
    var old_ := LogReaches(f, s.logTrace);
    more := WriterAnswers(s, old_);
  }
}
