/**
 * The hub as it runs: the token queue of Dispatch around the handlers of HubModel and the message log in front of them.
 * A handler that sends into its own hub's queue waits there for room like any other sender.
 */
module HubLoop {
  import opened Bytes
  import opened Wire
  import opened HubModel
  import opened HubFacts
  import Addresses
  import Blocks
  import D = Dispatch

  datatype Sys = Sys(
    d: D.State<Packet>,
    h: Hub,
    handled: seq<(Packet, Choice)>,  // what the handler took so far, in order
    toSend: seq<Packet>,             // what the running handler still has to put on the queue
    owed: seq<Reply>,                // what it answers before it ends
    replies: seq<Reply>,             // answers of the handlers
    errors: seq<Reply>,              // answers of the queue goroutine after a failed log write
    logged: seq<Message>             // what the log took, in order
  )

  datatype Event =
    | Arrive(p: Packet)
    | Receive
    | Logged(ok: bool)
    | Refuse
    | Pass
    | Begin(ch: Choice)
    | SelfSend
    | Finish
    | TakeDone

  ghost function JobOf(p: Packet): D.Job<Packet> { D.Job(p, p.resp.Some?) }

  /** The log takes this message: the 16-bit sum of its length and two fits an empty block (LogModel.StoreAnswers). */
  ghost predicate LogTakes(m: Message) {
    (|Encode(m)| + 2) % 0x1_0000 <= Blocks.BLOCK_SIZE - 2
  }

  /** What the log answers: without a log, or for other packets than messages, there is no write to fail. */
  ghost predicate LogSays(hasLog: bool, p: Packet, ok: bool) {
    ok <==> (hasLog && p.content.RelayMessage? ==> LogTakes(p.content.env.msg))
  }

  /** The dispatcher's step behind an event. */
  ghost function Inner(s: Sys, e: Event): D.Event<Packet> {
    match e
    case Arrive(p) => D.Enqueue(JobOf(p))
    case Receive => D.Receive
    case Logged(ok) => D.Logged(ok)
    case Refuse => D.Answer
    case Pass => D.Pass
    case Begin(_) => D.Take
    case SelfSend => if s.toSend == [] then D.Receive else D.Enqueue(JobOf(s.toSend[0]))
    case Finish => D.Finish
    case TakeDone => D.TakeDone
  }

  ghost predicate Enabled(hasLog: bool, s: Sys, e: Event) {
    && D.Enabled(s.d, Inner(s, e))
    && match e
       case Logged(ok) => LogSays(hasLog, s.d.front.job.content, ok)
       case SelfSend => s.d.running.Some? && s.toSend != []
       case Finish => s.toSend == []
       case _ => true
  }

  /** A handled packet's effect on the tables of the hub. */
  ghost function Tables(h: Hub, p: Packet, ch: Choice): Hub {
    Handle(h.(queued := [], replies := []), p, ch).(queued := [], replies := [])
  }

  ghost function BeginStep(s: Sys, ch: Choice): Sys
    requires s.d.relay != []
  {
    var p := s.d.relay[0].content;
    var r := Handle(s.h.(queued := [], replies := []), p, ch);
    s.(d := D.Next(s.d, D.Take), h := Tables(s.h, p, ch),
       handled := s.handled + [(p, ch)], toSend := r.queued, owed := r.replies)
  }

  ghost function Next(hasLog: bool, s: Sys, e: Event): Sys {
    if !Enabled(hasLog, s, e) then s
    else
      var d := D.Next(s.d, Inner(s, e));
      match e
      case Logged(ok) =>
        var p := s.d.front.job.content;
        s.(d := d, logged := s.logged + (if hasLog && ok && p.content.RelayMessage? then [p.content.env.msg] else []))
      case Refuse =>
        var p := s.d.front.job.content;
        s.(d := d, errors := s.errors + (if p.resp.Some? then [Reply(p.resp.value, STATUS_EXCEPTION, false)] else []))
      case Begin(ch) => BeginStep(s, ch)
      case SelfSend => s.(d := d, toSend := s.toSend[1..])
      case Finish => s.(d := d, replies := s.replies + s.owed, owed := [])
      case _ => s.(d := d)
  }

  ghost function Run(hasLog: bool, s: Sys, evs: seq<Event>): Sys
    decreases |evs|
  {
    if evs == [] then s else Run(hasLog, Next(hasLog, s, evs[0]), evs[1..])
  }

  ghost function Init(h: Hub): Sys {
    Sys(D.Init<Packet>(), h.(queued := [], replies := []), [], [], [], [], [], [])
  }

  // ---------------------------------------------------------------- counting

  ghost function Asks(p: Packet, r: nat): nat {
    if p.resp == Some(r) then 1 else 0
  }

  ghost function CountJobs(js: seq<D.Job<Packet>>, r: nat): nat {
    if js == [] then 0 else Asks(js[0].content, r) + CountJobs(js[1..], r)
  }

  ghost function CountReplies(rs: seq<Reply>, r: nat): nat {
    if rs == [] then 0 else (if rs[0].resp == r then 1 else 0) + CountReplies(rs[1..], r)
  }

  /** The received packets whose log write failed. */
  ghost function Failed(rs: seq<(D.Job<Packet>, bool)>): seq<D.Job<Packet>> {
    if rs == [] then [] else (if rs[0].1 then [] else [rs[0].0]) + Failed(rs[1..])
  }

  lemma {:induction false} CountJobsAppend(a: seq<D.Job<Packet>>, b: seq<D.Job<Packet>>, r: nat)
    ensures CountJobs(a + b, r) == CountJobs(a, r) + CountJobs(b, r)
    decreases |a|
  {
    if a == [] {
      assert a + b == b;
    } else {
      CountJobsAppend(a[1..], b, r);
      assert (a + b)[1..] == a[1..] + b;
    }
  }

  lemma {:induction false} CountRepliesAppend(a: seq<Reply>, b: seq<Reply>, r: nat)
    ensures CountReplies(a + b, r) == CountReplies(a, r) + CountReplies(b, r)
    decreases |a|
  {
    if a == [] {
      assert a + b == b;
    } else {
      CountRepliesAppend(a[1..], b, r);
      assert (a + b)[1..] == a[1..] + b;
    }
  }

  lemma CountOneReply(a: Reply, r: nat)
    ensures CountReplies([a], r) == if a.resp == r then 1 else 0
  {
    var one := [a];
    assert one[1..] == [];
  }

  lemma CountOneJob(j: D.Job<Packet>, r: nat)
    ensures CountJobs([j], r) == Asks(j.content, r)
  {
    var one := [j];
    assert one[1..] == [];
  }

  lemma {:induction false} FailedAppend(a: seq<(D.Job<Packet>, bool)>, j: D.Job<Packet>, ok: bool)
    ensures Failed(a + [(j, ok)]) == Failed(a) + (if ok then [] else [j])
    decreases |a|
  {
    var one := [(j, ok)];
    assert one[1..] == [];
    if a == [] {
      assert a + one == one;
    } else {
      FailedAppend(a[1..], j, ok);
      assert (a + one)[1..] == a[1..] + one;
      var head := if a[0].1 then [] else [a[0].0];
      assert head + (Failed(a[1..]) + (if ok then [] else [j])) == (head + Failed(a[1..])) + (if ok then [] else [j]);
    }
  }

  /** Whoever was received was kept or refused. */
  lemma {:induction false} KeptOrFailed(rs: seq<(D.Job<Packet>, bool)>, r: nat)
    ensures CountJobs(D.Jobs(rs), r) == CountJobs(D.Kept(rs), r) + CountJobs(Failed(rs), r)
    decreases |rs|
  {
    if rs != [] {
      var t := rs[1..];
      KeptOrFailed(t, r);
      assert D.Jobs(rs) == [rs[0].0] + D.Jobs(t);
      CountJobsAppend([rs[0].0], D.Jobs(t), r);
      CountOneJob(rs[0].0, r);
      CountJobsAppend(if rs[0].1 then [rs[0].0] else [], D.Kept(t), r);
      CountJobsAppend(if rs[0].1 then [] else [rs[0].0], Failed(t), r);
    }
  }

  /** The messages among these packets, in order. */
  ghost function Messages(js: seq<D.Job<Packet>>): seq<Message> {
    if js == [] then []
    else (if js[0].content.content.RelayMessage? then [js[0].content.content.env.msg] else []) + Messages(js[1..])
  }

  lemma {:induction false} MessagesAppend(a: seq<D.Job<Packet>>, b: seq<D.Job<Packet>>)
    ensures Messages(a + b) == Messages(a) + Messages(b)
    decreases |a|
  {
    if a == [] {
      assert a + b == b;
    } else {
      var t := a[1..];
      MessagesAppend(t, b);
      assert (a + b)[1..] == t + b;
      var head := if a[0].content.content.RelayMessage? then [a[0].content.content.env.msg] else [];
      assert head + (Messages(t) + Messages(b)) == (head + Messages(t)) + Messages(b);
    }
  }

  /** The tables after these packets, handled one at a time. */
  ghost function AfterAll(h: Hub, ps: seq<(Packet, Choice)>): Hub {
    if ps == [] then h else Tables(AfterAll(h, ps[..|ps| - 1]), ps[|ps| - 1].0, ps[|ps| - 1].1)
  }

  ghost function Taken(ps: seq<(Packet, Choice)>): (js: seq<D.Job<Packet>>)
    ensures |js| == |ps|
  {
    seq(|ps|, i requires 0 <= i < |ps| => JobOf(ps[i].0))
  }

  // --------------------------------------------------------------- invariant

  ghost predicate Plain(j: D.Job<Packet>) {
    j == JobOf(j.content)
  }

  /** Whether a packet waits for an answer is written on it. */
  ghost predicate AllPlain(d: D.State<Packet>) {
    && (forall j :: j in d.queue ==> Plain(j))
    && (forall j :: j in d.pending ==> Plain(j))
    && (forall j :: j in d.relay ==> Plain(j))
    && (d.running.Some? ==> Plain(d.running.value))
    && (!d.front.Selecting? ==> Plain(d.front.job))
  }

  /** Every answer so far, on channel r, is owed to one packet that was finished or refused. */
  ghost predicate Balanced(s: Sys, r: nat) {
    && CountReplies(s.replies, r) == CountJobs(s.d.processed, r)
    && CountReplies(s.owed, r) == CountJobs(D.One(s.d.running), r)
    && CountReplies(s.errors, r) + (if s.d.front.Refused? then Asks(s.d.front.job.content, r) else 0)
       == CountJobs(Failed(s.d.received), r)
  }

  ghost predicate InOrder(hasLog: bool, h0: Hub, s: Sys) {
    && Taken(s.handled) == s.d.processed + D.One(s.d.running)
    && s.h == AfterAll(h0, s.handled)
    && (hasLog ==> s.logged == Messages(D.Kept(s.d.received)))
    && (s.d.running.None? ==> s.toSend == [])
  }

  ghost predicate Inv(hasLog: bool, h0: Hub, s: Sys) {
    D.Inv(s.d) && AllPlain(s.d) && InOrder(hasLog, h0, s)
  }

  // ------------------------------------------------------------------- steps

  lemma InnerStep(hasLog: bool, s: Sys, e: Event)
    requires Enabled(hasLog, s, e)
    ensures Next(hasLog, s, e).d == D.Next(s.d, Inner(s, e))
  {
    hide D.Next, Tables, Handle, LogSays;
  }

  lemma PlainStep(s: D.State<Packet>, e: D.Event<Packet>)
    requires AllPlain(s) && (e.Enqueue? ==> Plain(e.job))
    ensures AllPlain(D.Next(s, e))
  {
    hide Plain;
  }

  lemma OrderStep(hasLog: bool, h0: Hub, s: Sys, e: Event)
    requires Inv(hasLog, h0, s) && Enabled(hasLog, s, e)
    ensures InOrder(hasLog, h0, Next(hasLog, s, e))
  {
    hide D.Kept, D.Inv, Messages, AfterAll, Taken, Handle, Tables, LogSays;
    match e
    case Logged(ok) => LogOrderStep(hasLog, h0, s, ok);
    case Begin(ch) => BeginOrder(hasLog, h0, s, ch);
    case Finish =>
      assert s.d.processed + D.One(s.d.running) == (s.d.processed + D.One(s.d.running)) + [];
    case _ =>
  }

  lemma BeginOrder(hasLog: bool, h0: Hub, s: Sys, ch: Choice)
    requires Inv(hasLog, h0, s) && Enabled(hasLog, s, Begin(ch))
    ensures InOrder(hasLog, h0, BeginStep(s, ch))
  {
    hide D.Kept, D.Inv, Messages, Handle, Tables, LogSays;
    var p := s.d.relay[0].content;
    var one := [(p, ch)];
    assert Plain(s.d.relay[0]);
    assert Taken(s.handled + one) == Taken(s.handled) + [JobOf(p)];
    assert s.d.processed + [] == s.d.processed;
    assert (s.handled + one)[..|s.handled|] == s.handled;
  }

  lemma LogOrderStep(hasLog: bool, h0: Hub, s: Sys, ok: bool)
    requires Inv(hasLog, h0, s) && Enabled(hasLog, s, Logged(ok))
    ensures InOrder(hasLog, h0, Next(hasLog, s, Logged(ok)))
  {
    hide D.Inv, AfterAll, Taken, Handle, Tables, LogSays, D.Kept, Messages;
    var job := s.d.front.job;
    D.KeptAppend(s.d.received, [(job, ok)]);
    D.KeptOne(job, ok);
    MessagesAppend(D.Kept(s.d.received), D.Kept([(job, ok)]));
    OneMessage(job);
    assert s.logged + [] == s.logged;
    NoMessage();
  }

  lemma NoMessage()
    ensures Messages([]) == []
  {
  }

  lemma OneMessage(j: D.Job<Packet>)
    ensures Messages([j]) == if j.content.content.RelayMessage? then [j.content.content.env.msg] else []
  {
    var one := [j];
    assert one[1..] == [];
  }

  lemma StepKeeps(hasLog: bool, h0: Hub, s: Sys, e: Event)
    requires Inv(hasLog, h0, s)
    ensures Inv(hasLog, h0, Next(hasLog, s, e))
  {
    hide D.Inv, D.Next, InOrder, AllPlain, Tables, Handle;
    if Enabled(hasLog, s, e) {
      InnerStep(hasLog, s, e);
      D.StepKeeps(s.d, Inner(s, e));
      PlainStep(s.d, Inner(s, e));
      OrderStep(hasLog, h0, s, e);
    }
  }

  lemma OwedOnce(h: Hub, p: Packet, ch: Choice, r: nat)
    requires h.replies == []
    ensures CountReplies(Handle(h, p, ch).replies, r) == Asks(p, r)
  {
    hide Handle;
    HandleReplies(h, p, ch);
    if p.resp.Some? {
      var rs := Handle(h, p, ch).replies;
      assert rs == [rs[0]];
      CountOneReply(rs[0], r);
    }
  }

  lemma BalanceStep(hasLog: bool, h0: Hub, s: Sys, e: Event, r: nat)
    requires Inv(hasLog, h0, s) && Balanced(s, r) && Enabled(hasLog, s, e)
    ensures Balanced(Next(hasLog, s, e), r)
  {
    hide D.Inv, InOrder, Tables, Handle, LogSays, CountJobs, CountReplies, Failed;
    match e
    case Logged(ok) => FailedAppendCount(s.d.received, s.d.front.job, ok, r);
    case Refuse =>
      var resp := s.d.front.job.content.resp;
      if resp.Some? {
        CountRepliesAppend(s.errors, [Reply(resp.value, STATUS_EXCEPTION, false)], r);
        CountOneReply(Reply(resp.value, STATUS_EXCEPTION, false), r);
      }
    case Begin(ch) =>
      OwedOnce(s.h.(queued := [], replies := []), s.d.relay[0].content, ch, r);
      CountOneJob(s.d.relay[0], r);
    case Finish =>
      CountRepliesAppend(s.replies, s.owed, r);
      CountJobsAppend(s.d.processed, [s.d.running.value], r);
      NothingCounts(r);
    case _ =>
  }

  lemma NothingCounts(r: nat)
    ensures CountReplies([], r) == 0 && CountJobs([], r) == 0
  {
  }

  lemma FailedAppendCount(rs: seq<(D.Job<Packet>, bool)>, j: D.Job<Packet>, ok: bool, r: nat)
    ensures CountJobs(Failed(rs + [(j, ok)]), r) == CountJobs(Failed(rs), r) + (if ok then 0 else Asks(j.content, r))
  {
    hide Failed;
    FailedAppend(rs, j, ok);
    CountJobsAppend(Failed(rs), if ok then [] else [j], r);
    CountOneJob(j, r);
  }

  lemma {:induction false} RunKeeps(hasLog: bool, h0: Hub, s: Sys, evs: seq<Event>, r: nat)
    requires Inv(hasLog, h0, s) && Balanced(s, r)
    ensures Inv(hasLog, h0, Run(hasLog, s, evs)) && Balanced(Run(hasLog, s, evs), r)
    decreases |evs|
  {
    hide Inv, Balanced, Enabled;
    if evs != [] {
      StepKeeps(hasLog, h0, s, evs[0]);
      if Enabled(hasLog, s, evs[0]) { BalanceStep(hasLog, h0, s, evs[0], r); } else { BlockedStep(hasLog, s, evs[0]); }
      RunKeeps(hasLog, h0, Next(hasLog, s, evs[0]), evs[1..], r);
    }
  }

  lemma BlockedStep(hasLog: bool, s: Sys, e: Event)
    requires !Enabled(hasLog, s, e)
    ensures Next(hasLog, s, e) == s
  {
  }

  lemma InitInv(hasLog: bool, h: Hub, r: nat)
    ensures Inv(hasLog, h.(queued := [], replies := []), Init(h)) && Balanced(Init(h), r)
  {
  }

  // ------------------------------------------------------------ main results

  /** Packets with response channel r that nobody has answered: on the queue, with the queue goroutine, or ahead of it. */
  ghost function Inside(s: Sys, r: nat): nat {
    CountJobs(s.d.queue, r)
    + (if s.d.front.Received? || s.d.front.Refused? then Asks(s.d.front.job.content, r) else 0)
    + CountJobs(D.Ahead(s.d), r)
  }

  ghost function Answers(s: Sys, r: nat): nat {
    CountReplies(s.replies, r) + CountReplies(s.errors, r)
  }

  /**
   * Over every run, whatever is enqueued and whatever the log refuses: the answers given on a channel and the packets
   * with that channel still inside add up to the packets that entered with it. A channel is made for one packet, so it
   * is answered exactly once, by the handler or by the queue goroutine, and a caller that still waits has exactly one
   * packet in the system.
   */
  lemma AnsweredExactlyOnce(hasLog: bool, h: Hub, evs: seq<Event>, r: nat)
    ensures var s := Run(hasLog, Init(h), evs); Answers(s, r) + Inside(s, r) == CountJobs(s.d.entered, r)
  {
    hide Inv, Balanced, Run, Inside, Answers;
    InitInv(hasLog, h, r);
    RunKeeps(hasLog, h.(queued := [], replies := []), Init(h), evs, r);
    EnteredSum(hasLog, h.(queued := [], replies := []), Run(hasLog, Init(h), evs), r);
  }

  /** The statuses given so far: 200 by the handlers, 100 after a failed log write. */
  ghost predicate StatusesOk(s: Sys) {
    && (forall a :: a in s.replies || a in s.owed ==> a.status == 200)
    && (forall a :: a in s.errors ==> a.status == 100 && !a.notFound)
  }

  lemma StatusStep(hasLog: bool, s: Sys, e: Event)
    requires StatusesOk(s)
    ensures StatusesOk(Next(hasLog, s, e))
  {
    hide Handle, Tables, LogSays, D.Next;
    if e.Begin? && s.d.relay != [] {
      HandleReplies(s.h.(queued := [], replies := []), s.d.relay[0].content, e.ch);
    }
  }

  lemma {:induction false} RunStatuses(hasLog: bool, s: Sys, evs: seq<Event>)
    requires StatusesOk(s)
    ensures StatusesOk(Run(hasLog, s, evs))
    decreases |evs|
  {
    hide StatusesOk, Next;
    if evs != [] {
      StatusStep(hasLog, s, evs[0]);
      RunStatuses(hasLog, Next(hasLog, s, evs[0]), evs[1..]);
    }
  }

  /**
   * Over every run, what a channel is told: status 200 once for each of its packets that was handled, status 100 once for each
   * that the log refused, and nothing else.
   */
  lemma AnswersSay(hasLog: bool, h: Hub, evs: seq<Event>, r: nat)
    ensures var s := Run(hasLog, Init(h), evs);
            && (forall a :: a in s.replies ==> a.status == 200) && (forall a :: a in s.errors ==> a.status == 100 && !a.notFound)
            && CountReplies(s.replies, r) == CountJobs(s.d.processed, r)
            && CountReplies(s.errors, r) + (if s.d.front.Refused? then Asks(s.d.front.job.content, r) else 0)
               == CountJobs(Failed(s.d.received), r)
  {
    hide Inv, Run, CountReplies, CountJobs, Failed, Asks;
    InitInv(hasLog, h, r);
    RunKeeps(hasLog, h.(queued := [], replies := []), Init(h), evs, r);
    RunStatuses(hasLog, Init(h), evs);
  }

  // ---------------------------------------------------- a hub's own packets

  ghost function JobsOf(ps: seq<Packet>): (js: seq<D.Job<Packet>>)
    ensures |js| == |ps|
  {
    seq(|ps|, i requires 0 <= i < |ps| => JobOf(ps[i]))
  }

  /** What the handlers of these packets made for the hub's own queue, in order. */
  ghost function Made(h0: Hub, ps: seq<(Packet, Choice)>): seq<Packet> {
    if ps == [] then []
    else
      var n := |ps| - 1;
      Made(h0, ps[..n]) + Handle(AfterAll(h0, ps[..n]).(queued := [], replies := []), ps[n].0, ps[n].1).queued
  }

  /** What the step put on the queue from inside the hub. */
  ghost function EnteredBy(hasLog: bool, s: Sys, e: Event): seq<D.Job<Packet>> {
    var after := Next(hasLog, s, e).d.entered;
    if e.SelfSend? && |s.d.entered| <= |after| then after[|s.d.entered|..] else []
  }

  ghost function SelfEntered(hasLog: bool, s: Sys, evs: seq<Event>): seq<D.Job<Packet>>
    decreases |evs|
  {
    if evs == [] then [] else EnteredBy(hasLog, s, evs[0]) + SelfEntered(hasLog, Next(hasLog, s, evs[0]), evs[1..])
  }

  lemma OwnStep(hasLog: bool, h0: Hub, s: Sys, e: Event, sofar: seq<D.Job<Packet>>)
    requires Inv(hasLog, h0, s) && sofar + JobsOf(s.toSend) == JobsOf(Made(h0, s.handled))
    ensures var t := Next(hasLog, s, e); (sofar + EnteredBy(hasLog, s, e)) + JobsOf(t.toSend) == JobsOf(Made(h0, t.handled))
  {
    hide D.Inv, AllPlain, Handle, Tables, LogSays, AfterAll, Made, D.Kept, Messages;
    assert sofar + [] == sofar;
    if Enabled(hasLog, s, e) {
      match e
      case Begin(ch) => BeginMakes(hasLog, h0, s, ch);
      case SelfSend => SendMoves(hasLog, s, sofar);
      case _ =>
    }
  }

  lemma SendMoves(hasLog: bool, s: Sys, sofar: seq<D.Job<Packet>>)
    requires Enabled(hasLog, s, SelfSend)
    ensures var t := Next(hasLog, s, SelfSend);
            && t.handled == s.handled
            && (sofar + EnteredBy(hasLog, s, SelfSend)) + JobsOf(t.toSend) == sofar + JobsOf(s.toSend)
  {
    hide LogSays;
    var p := s.toSend[0];
    assert s.toSend == [p] + s.toSend[1..];
    assert EnteredBy(hasLog, s, SelfSend) == [JobOf(p)];
    assert JobsOf(s.toSend) == [JobOf(p)] + JobsOf(s.toSend[1..]);
    assert (sofar + [JobOf(p)]) + JobsOf(s.toSend[1..]) == sofar + ([JobOf(p)] + JobsOf(s.toSend[1..]));
  }

  lemma BeginMakes(hasLog: bool, h0: Hub, s: Sys, ch: Choice)
    requires InOrder(hasLog, h0, s) && Enabled(hasLog, s, Begin(ch))
    ensures var t := Next(hasLog, s, Begin(ch));
            s.toSend == [] && JobsOf(Made(h0, t.handled)) == JobsOf(Made(h0, s.handled)) + JobsOf(t.toSend)
  {
    hide Handle, Tables, AfterAll, LogSays, Taken, Messages;
    var one := (s.d.relay[0].content, ch);
    assert (s.handled + [one])[..|s.handled|] == s.handled;
    var t := Next(hasLog, s, Begin(ch));
    assert Made(h0, t.handled) == Made(h0, s.handled) + t.toSend;
  }

  lemma {:induction false} OwnRun(hasLog: bool, h0: Hub, s: Sys, evs: seq<Event>, sofar: seq<D.Job<Packet>>)
    requires Inv(hasLog, h0, s) && sofar + JobsOf(s.toSend) == JobsOf(Made(h0, s.handled))
    ensures var t := Run(hasLog, s, evs); (sofar + SelfEntered(hasLog, s, evs)) + JobsOf(t.toSend) == JobsOf(Made(h0, t.handled))
    decreases |evs|
  {
    hide Inv, Next, Made, JobsOf, EnteredBy;
    if evs == [] {
      assert sofar + [] == sofar;
    } else {
      OwnStep(hasLog, h0, s, evs[0], sofar);
      StepKeeps(hasLog, h0, s, evs[0]);
      var more := EnteredBy(hasLog, s, evs[0]);
      var n := Next(hasLog, s, evs[0]);
      OwnRun(hasLog, h0, n, evs[1..], sofar + more);
      assert (sofar + more) + SelfEntered(hasLog, n, evs[1..]) == sofar + (more + SelfEntered(hasLog, n, evs[1..]));
    }
  }

  /**
   * Over every run, what a hub sends itself gets onto its own queue: the packets the handlers made for it, in order, are those
   * that entered from inside, followed by those the running handler still has to send.
   */
  lemma OwnPacketsEnter(hasLog: bool, h: Hub, evs: seq<Event>)
    ensures var s := Run(hasLog, Init(h), evs);
            SelfEntered(hasLog, Init(h), evs) + JobsOf(s.toSend) == JobsOf(Made(h.(queued := [], replies := []), s.handled))
  {
    hide Run, Inv, SelfEntered;
    var h0 := h.(queued := [], replies := []);
    InitInv(hasLog, h, 0);
    assert Init(h).toSend == [] && Init(h).handled == [] && Made(h0, []) == [];
    OwnRun(hasLog, h0, Init(h), evs, []);
    assert [] + SelfEntered(hasLog, Init(h), evs) == SelfEntered(hasLog, Init(h), evs);
  }

  lemma EnteredSum(hasLog: bool, h0: Hub, s: Sys, r: nat)
    requires Inv(hasLog, h0, s) && Balanced(s, r)
    ensures Answers(s, r) + Inside(s, r) == CountJobs(s.d.entered, r)
  {
    hide InOrder, AllPlain, CountJobs, CountReplies, Failed, D.Kept, D.Jobs, D.Ahead, D.Tokens;
    var held := if s.d.front.Received? then [s.d.front.job] else [];
    CountJobsAppend(D.Jobs(s.d.received), held + s.d.queue, r);
    CountJobsAppend(held, s.d.queue, r);
    if s.d.front.Received? { CountOneJob(s.d.front.job, r); } else { NothingCounts(r); }
    KeptOrFailed(s.d.received, r);
    CountJobsAppend(s.d.processed, D.Ahead(s.d), r);
  }

  /**
   * The hub's tables are what the kept packets make of them, handled one at a time in the order they entered; and what
   * the log holds are the messages of the kept packets in that same order.
   */
  lemma LogOrderIsHandlingOrder(h: Hub, evs: seq<Event>)
    ensures var s := Run(true, Init(h), evs);
            && s.h == AfterAll(h.(queued := [], replies := []), s.handled)
            && Taken(s.handled) <= D.Kept(s.d.received)
            && s.logged == Messages(D.Kept(s.d.received))
            && Messages(Taken(s.handled)) <= s.logged
  {
    hide Balanced, Run, AfterAll, Messages, Taken, Inv, D.Kept, Init;
    var h0 := h.(queued := [], replies := []);
    InitInv(true, h, 0);
    RunKeeps(true, h0, Init(h), evs, 0);
    HandledOfKept(h0, Run(true, Init(h), evs));
  }

  lemma HandledOfKept(h0: Hub, s: Sys)
    requires Inv(true, h0, s)
    ensures s.h == AfterAll(h0, s.handled)
    ensures Taken(s.handled) <= D.Kept(s.d.received)
    ensures s.logged == Messages(D.Kept(s.d.received)) && Messages(Taken(s.handled)) <= s.logged
  {
    hide AllPlain, AfterAll, Messages, Taken, D.Kept, D.Jobs, D.Tokens;
    var running := D.One(s.d.running);
    var rest := s.d.relay + (s.d.pending + (if s.d.front.Passing? then [s.d.front.job] else []));
    assert D.Ahead(s.d) == running + rest;
    assert s.d.processed + (running + rest) == (s.d.processed + running) + rest;
    hide D.Ahead, D.Inv;
    MessagesAppend(Taken(s.handled), rest);
  }

  /** A step one of the hub's own goroutines can take. */
  ghost function Move(hasLog: bool, s: Sys): Event {
    if s.d.front.Received? then
      var c := s.d.front.job.content.content;
      Logged(hasLog && c.RelayMessage? ==> LogTakes(c.env.msg))
    else if s.d.front.Refused? && s.d.front.job.answers then Refuse
    else if s.d.front.Passing? then Pass
    else if s.d.running.Some? then
      if s.toSend == [] then Finish else if s.d.queue == [] then SelfSend else Receive
    else if s.d.relay != [] then Begin(Choice(0, [], []))
    else if s.d.done > 0 then TakeDone
    else Receive
  }

  /**
   * The hub cannot deadlock on itself: unless there is nothing left to do, or the log refused a packet that has no
   * response channel, one of its goroutines can move, even when the handler itself waits for room on the full queue.
   */
  lemma NoDeadlock(hasLog: bool, h0: Hub, s: Sys)
    requires Inv(hasLog, h0, s) && !D.Quiescent(s.d) && !D.Stalled(s.d)
    ensures !Move(hasLog, s).Arrive? && Enabled(hasLog, s, Move(hasLog, s))
  {
    hide AllPlain, InOrder, D.Ahead, D.Kept, D.Jobs, Encode;
    assert s.d.running.None? ==> s.toSend == [] by { NothingToSend(hasLog, h0, s); }
  }

  lemma NothingToSend(hasLog: bool, h0: Hub, s: Sys)
    requires InOrder(hasLog, h0, s)
    ensures s.d.running.None? ==> s.toSend == []
  {
    hide Taken, AfterAll, D.Kept, Messages;
  }

  lemma OfflineLength(header: Header, gone: Addresses.Addr, notice: byte, targets: seq<Addresses.Addr>)
    ensures |Encode(Message(header, Offline(gone, notice, targets)))| == 109 + 32 * |targets|
  {
  }

  /**
   * The Offline packet a hub queues to itself has no response channel. With a log, it stops the hub for good exactly when
   * the 16-bit sum of its length and two exceeds 4094. Up to 2044 targets that means more than 124 of them; from 2045 on the
   * sum wraps around, and some of the longer packets are taken again, though not intact.
   */
  lemma BigOwnOfflineStalls(h0: Hub, s: Sys, gone: Addresses.Addr, notice: byte, targets: seq<Addresses.Addr>, ok: bool)
    requires Inv(true, h0, s) && s.d.front.Received?
    requires s.d.front.job.content
          == Packet(h0.self, RelayMessage(System(h0.self, h0.self, Offline(gone, notice, targets))), None)
    requires Enabled(true, s, Logged(ok))
    ensures D.Stalled(Next(true, s, Logged(ok)).d) <==> (111 + 32 * |targets|) % 0x1_0000 > 4094
    ensures |targets| <= 2044 ==> (D.Stalled(Next(true, s, Logged(ok)).d) <==> |targets| > 124)
  {
    hide D.Inv, InOrder, Encode;
    var env := System(h0.self, h0.self, Offline(gone, notice, targets));
    OfflineLength(env.msg.header, gone, notice, targets);
    assert Plain(s.d.front.job);
  }
}
