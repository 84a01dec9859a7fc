/**
 * One connected peer: callers of PushMessage and Close, the reader, the writer with its ping ticker and the
 * queue goroutine, racing on the connected word by compare-and-swap (peer/peer.go).
 */
module PeerConn {
  import opened Bytes
  import D = Dispatch

  /** What travels through outQueue and sendQueue. */
  datatype Out = Msg(id: nat) | ClosePacket

  type Job = D.Job<Out>

  /** A goroutine's way through connectionClosed. */
  datatype Shut =
    | Alive
    | Failed      // its read or ping failed; about to swap 1 for 2
    | Signalling  // won the swap; about to send on connclosed
    | Notifying   // about to run OnDisconnect
    | Gone

  /** The writer's way through closeConnect. */
  datatype Closing = NotClosing | SocketClosed | Closed

  /** Where the writer stands with the message it took: about to write it, about to answer its caller, about to pass the token. */
  datatype Writing = Unwritten | HasOutcome(ok: bool) | Answered

  datatype Winner = Nobody | ByClose | ByReader | ByPing

  datatype Who = Reader | Pinger

  datatype Peer = Peer(
    connected: int,          // 1 connected, 2 closing, 0 closed
    queues: D.State<Out>,    // outQueue, pendingMsgs, sendQueue, sendDone and the message being written
    pushing: seq<Job>,       // PushMessage calls past their check, not yet queued
    closers: nat,            // Close calls past their check
    closeSending: bool,      // the Close that won, about to queue its packet
    reader: Shut,
    pinger: Shut,            // the writer goroutine leaving because a ping failed
    closing: Closing,        // the writer goroutine leaving because of a close packet
    queueGone: bool,         // the queue goroutine left its loop
    signalled: nat,          // sends on connclosed, capacity 1
    consumed: nat,           // receives from it
    disconnects: nat,        // OnDisconnect calls
    socketCloses: nat,       // conn.Close calls
    writing: Writing,        // the writer's way through one message
    written: seq<(Job, bool)>, // messages handed to the socket, with the outcome
    results: seq<(Job, bool)>, // sends on the done channels of callers
    winner: Winner           // who swapped 1 for 2
  )

  datatype Event =
    | PushCall(job: Job)
    | PushSend(k: nat)
    | CloseCall
    | CloseSwap
    | CloseSend
    | Fail(who: Who)
    | Swap(who: Who)
    | Signal(who: Who)
    | Notify(who: Who)
    | Queue(e: D.Event<Out>)
    | Wrote(ok: bool)
    | Tell
    | SendDone
    | CloseConn
    | CloseSignal
    | QueueExit

  function Start(): Peer {
    Peer(1, D.Init<Out>(), [], 0, false, Alive, Alive, NotClosing, false, 0, 0, 0, 0, Unwritten, [], [], Nobody)
  }

  function Stage(s: Peer, who: Who): Shut {
    if who == Reader then s.reader else s.pinger
  }

  function SetStage(s: Peer, who: Who, st: Shut): Peer {
    if who == Reader then s.(reader := st) else s.(pinger := st)
  }

  predicate WriterAlive(s: Peer) {
    s.pinger.Alive? && s.closing.NotClosing?
  }

  /** The goroutine of the event is at that point and its channel operation does not block. */
  predicate Enabled(s: Peer, e: Event) {
    match e
    case PushCall(job) => s.connected == 1 && job.content.Msg?
    case PushSend(k) => k < |s.pushing| && D.Enabled(s.queues, D.Enqueue(s.pushing[k]))
    case CloseCall => s.connected == 1
    case CloseSwap => s.closers > 0
    case CloseSend => s.closeSending && D.Enabled(s.queues, D.Enqueue(D.Job(ClosePacket, true)))
    case Fail(who) => Stage(s, who).Alive? && (who == Pinger ==> WriterAlive(s) && s.queues.running.None?)
    case Swap(who) => Stage(s, who).Failed?
    case Signal(who) => Stage(s, who).Signalling? && s.signalled == s.consumed
    case Notify(who) => Stage(s, who).Notifying?
    case Queue(qe) =>
      && D.Enabled(s.queues, qe)
      && (match qe
          case Take => WriterAlive(s)
          case Logged(ok) => ok && !s.queueGone
          case Receive => !s.queueGone
          case Pass => !s.queueGone
          case TakeDone => !s.queueGone
          case _ => false)
    case Wrote(_) => WriterAlive(s) && s.writing.Unwritten? && s.queues.running.Some? && s.queues.running.value.content.Msg?
    case Tell => s.writing.HasOutcome? && s.queues.running.Some?
    case SendDone => s.writing.Answered? && D.Enabled(s.queues, D.Finish)
    case CloseConn => WriterAlive(s) && s.queues.running.Some? && s.queues.running.value.content.ClosePacket?
    case CloseSignal => s.closing.SocketClosed? && s.signalled == s.consumed
    case QueueExit => !s.queueGone && s.queues.front.Selecting? && s.consumed < s.signalled
  }

  /** One step; a blocked or misplaced event changes nothing. */
  function Next(s: Peer, e: Event): Peer {
    if !Enabled(s, e) then s else
      match e
      case PushCall(job) => s.(pushing := s.pushing + [job])
      case PushSend(k) => s.(queues := D.Next(s.queues, D.Enqueue(s.pushing[k])), pushing := s.pushing[..k] + s.pushing[k + 1..])
      case CloseCall => s.(closers := s.closers + 1)
      case CloseSwap =>
        if s.connected == 1
        then s.(closers := s.closers - 1, connected := 2, winner := ByClose, closeSending := true)
        else s.(closers := s.closers - 1)
      case CloseSend => s.(queues := D.Next(s.queues, D.Enqueue(D.Job(ClosePacket, true))), closeSending := false)
      case Fail(who) => SetStage(s, who, Failed)
      case Swap(who) =>
        if s.connected == 1
        then SetStage(s.(connected := 2, winner := if who == Reader then ByReader else ByPing), who, Signalling)
        else SetStage(s, who, Gone)
      case Signal(who) => SetStage(s.(signalled := s.signalled + 1), who, Notifying)
      case Notify(who) => SetStage(s.(disconnects := s.disconnects + 1), who, Gone)
      case Queue(qe) => s.(queues := D.Next(s.queues, qe))
      case Wrote(ok) => s.(writing := HasOutcome(ok), written := s.written + [(s.queues.running.value, ok)])
      case Tell =>
        var job := s.queues.running.value;
        s.(writing := Answered, results := s.results + (if job.answers then [(job, s.writing.ok)] else []))
      case SendDone => s.(queues := D.Next(s.queues, D.Finish), writing := Unwritten)
      case CloseConn =>
        // closeConnect swaps 2 for 0; if that failed it would return without closing
        if s.connected == 2 then s.(connected := 0, socketCloses := s.socketCloses + 1, closing := SocketClosed)
        else s.(closing := Closed)
      case CloseSignal => s.(signalled := s.signalled + 1, closing := Closed)
      case QueueExit => s.(queueGone := true, consumed := s.consumed + 1)
  }

  function Run(s: Peer, evs: seq<Event>): Peer
    decreases |evs|
  {
    if evs == [] then s else Run(Next(s, evs[0]), evs[1..])
  }

  // -------------------------------------------------------------- invariant

  /** The stages a goroutine can be in, given whether it won the swap, and the signals and calls it made. */
  predicate StageInv(st: Shut, won: bool) {
    if won then st.Signalling? || st.Notifying? || st.Gone?
    else st.Alive? || st.Failed? || st.Gone?
  }

  function SignalsOf(st: Shut, won: bool): nat {
    if won && (st.Notifying? || st.Gone?) then 1 else 0
  }

  function CallsOf(st: Shut, won: bool): nat {
    if won && st.Gone? then 1 else 0
  }

  predicate RaceInv(s: Peer) {
    && s.connected in {0, 1, 2}
    && (s.connected == 1 <==> s.winner == Nobody)
    && (s.connected == 0 <==> s.closing != NotClosing)
    && StageInv(s.reader, s.winner == ByReader)
    && StageInv(s.pinger, s.winner == ByPing)
    && (s.closeSending ==> s.winner == ByClose && s.closing.NotClosing?)
    && (s.closing != NotClosing ==> s.winner == ByClose && s.pinger.Alive?)
    && s.signalled == SignalsOf(s.reader, s.winner == ByReader) + SignalsOf(s.pinger, s.winner == ByPing)
                    + (if s.closing.Closed? then 1 else 0)
    && s.disconnects == CallsOf(s.reader, s.winner == ByReader) + CallsOf(s.pinger, s.winner == ByPing)
    && s.socketCloses == (if s.closing.NotClosing? then 0 else 1)
    && s.consumed == (if s.queueGone then 1 else 0) <= s.signalled
  }

  function IsClose(j: Job): bool { j.content.ClosePacket? }

  function CountClose(js: seq<Job>): nat {
    if js == [] then 0 else (if IsClose(js[0]) then 1 else 0) + CountClose(js[1..])
  }

  /** Those written for a caller that passed a done channel. */
  function Asked(ws: seq<(Job, bool)>): seq<(Job, bool)> {
    if ws == [] then []
    else
      var n := |ws| - 1;
      Asked(ws[..n]) + (if ws[n].0.answers then [ws[n]] else [])
  }

  /** The messages whose outcome was passed on: all that were written, but for the one being answered. */
  function Told(s: Peer): seq<(Job, bool)>
    requires s.writing.HasOutcome? ==> s.written != []
  {
    if s.writing.HasOutcome? then s.written[..|s.written| - 1] else s.written
  }

  /** The message at the writer was written exactly when the writer is past that point; every outcome is passed on once. */
  predicate WritingInv(s: Peer) {
    && (!s.writing.Unwritten? ==> s.queues.running.Some? && s.queues.running.value.content.Msg?)
    && D.Jobs(s.written) == s.queues.processed + (if s.writing.Unwritten? then [] else D.One(s.queues.running))
    && (s.writing.HasOutcome? ==> s.written != [] && s.written[|s.written| - 1].1 == s.writing.ok)
    && s.results == Asked(Told(s))
  }

  ghost predicate QueueInv(s: Peer) {
    && D.Inv(s.queues)
    && D.Kept(s.queues.received) == D.Jobs(s.queues.received)
    && !s.queues.front.Refused?
    && (forall j :: j in s.pushing ==> j.content.Msg?)
    && CountClose(s.queues.entered) == (if s.winner == ByClose && !s.closeSending then 1 else 0)
    && WritingInv(s)
    && CountClose(s.queues.processed) == 0
    && (s.closing != NotClosing ==> s.queues.running == Some(D.Job(ClosePacket, true)))
    && (forall j :: j in s.queues.entered && IsClose(j) ==> j == D.Job(ClosePacket, true))
  }

  ghost predicate Inv(s: Peer) {
    RaceInv(s) && QueueInv(s)
  }

  // --------------------------------------------------------------- the steps

  lemma {:induction false} CountCloseAppend(a: seq<Job>, b: seq<Job>)
    ensures CountClose(a + b) == CountClose(a) + CountClose(b)
    decreases |a|
  {
    if a == [] {
      assert a + b == b;
    } else {
      CountCloseAppend(a[1..], b);
      assert (a + b)[1..] == a[1..] + b;
    }
  }

  lemma CountCloseOne(j: Job)
    ensures CountClose([j]) == if IsClose(j) then 1 else 0
  {
    var js := [j];
    assert js[1..] == [];
  }

  /** Everything that entered, in order: written, being written, on the way, still to be received. */
  lemma EntryOrder(s: Peer)
    requires QueueInv(s)
    ensures var q := s.queues;
            q.entered == q.processed + (D.Ahead(q) + ((if q.front.Received? then [q.front.job] else []) + q.queue))
  {
    hide D.Ahead, D.Kept, D.Jobs;
    var q := s.queues;
    var tail := (if q.front.Received? then [q.front.job] else []) + q.queue;
    assert q.entered == (q.processed + D.Ahead(q)) + tail;
    assert (q.processed + D.Ahead(q)) + tail == q.processed + (D.Ahead(q) + tail);
  }

  lemma RunningEntered(s: Peer)
    requires QueueInv(s) && s.queues.running.Some?
    ensures s.queues.running.value in s.queues.entered
    ensures |s.queues.processed| < |s.queues.entered|
    ensures s.queues.entered[|s.queues.processed|] == s.queues.running.value
    ensures s.queues.entered[..|s.queues.processed|] == s.queues.processed
  {
    hide D.Kept, D.Jobs;
    EntryOrder(s);
  }

  lemma RaceStep(s: Peer, e: Event)
    requires RaceInv(s) && (e == CloseConn && Enabled(s, e) ==> s.connected == 2 && s.winner == ByClose && !s.closeSending)
    ensures RaceInv(Next(s, e))
  {
    hide D.Next, D.Enabled, Asked;
    if e.Fail? || e.Swap? || e.Signal? || e.Notify? {
      ShutRace(s, e);
    } else {
      hide StageInv, SignalsOf, CallsOf;
    }
  }

  lemma ShutRace(s: Peer, e: Event)
    requires RaceInv(s) && (e.Fail? || e.Swap? || e.Signal? || e.Notify?)
    ensures RaceInv(Next(s, e))
  {
    hide D.Next, D.Enabled;
  }

  lemma {:induction false} CloseMember(js: seq<Job>, i: nat)
    requires i < |js| && IsClose(js[i])
    ensures CountClose(js) >= 1
  {
    if i > 0 {
      CloseMember(js[1..], i - 1);
    }
  }

  lemma EnqueueStep(s: Peer, e: Event, job: Job)
    requires Inv(s) && Enabled(s, e)
    requires (e.PushSend? && job == s.pushing[e.k]) || (e.CloseSend? && job == D.Job(ClosePacket, true))
    ensures QueueInv(Next(s, e))
  {
    hide D.Kept, D.Jobs, D.Inv, CountClose, D.Ahead, WritingInv, StageInv, SignalsOf, CallsOf;
    D.StepKeeps(s.queues, D.Enqueue(job));
    SameWriting(s, Next(s, e));
    CountCloseAppend(s.queues.entered, [job]);
    CountCloseOne(job);
    assert e.PushSend? ==> job in s.pushing;
  }

  lemma InnerStep(s: Peer, qe: D.Event<Out>)
    requires Inv(s) && Enabled(s, Queue(qe))
    ensures QueueInv(Next(s, Queue(qe)))
  {
    hide D.Inv, CountClose, D.Ahead, WritingInv, RaceInv;
    D.StepKeeps(s.queues, qe);
    InnerKept(s, qe);
    InnerWriting(s, qe);
    InnerParts(s, qe);
    hide D.Next, D.Kept, D.Jobs;
  }

  lemma InnerParts(s: Peer, qe: D.Event<Out>)
    requires Inv(s) && Enabled(s, Queue(qe))
    ensures var t := D.Next(s.queues, qe);
            && !t.front.Refused? && t.entered == s.queues.entered && t.processed == s.queues.processed
            && (s.queues.running.Some? ==> t.running == s.queues.running)
  {
    hide D.Inv, CountClose, D.Ahead, WritingInv, RaceInv, D.Kept, D.Jobs;
  }

  lemma InnerKept(s: Peer, qe: D.Event<Out>)
    requires Inv(s) && Enabled(s, Queue(qe))
    ensures var t := D.Next(s.queues, qe); D.Kept(t.received) == D.Jobs(t.received)
  {
    hide D.Inv, CountClose, D.Ahead, WritingInv, RaceInv, D.Kept, D.Jobs;
    var q := s.queues;
    if qe.Logged? {
      var one := [(q.front.job, true)];
      D.KeptAppend(q.received, one);
      D.KeptOne(q.front.job, true);
      D.JobsAppend(q.received, q.front.job, true);
    }
  }

  lemma InnerWriting(s: Peer, qe: D.Event<Out>)
    requires Inv(s) && Enabled(s, Queue(qe))
    ensures WritingInv(Next(s, Queue(qe)))
  {
    hide D.Inv, CountClose, D.Ahead, RaceInv, D.Kept, D.Jobs, Asked;
  }

  lemma AskedSnoc(ws: seq<(Job, bool)>, w: (Job, bool))
    ensures Asked(ws + [w]) == Asked(ws) + (if w.0.answers then [w] else [])
  {
    assert (ws + [w])[..|ws|] == ws;
  }

  lemma WroteStep(s: Peer, ok: bool)
    requires Inv(s) && Enabled(s, Wrote(ok))
    ensures QueueInv(Next(s, Wrote(ok)))
  {
    hide D.Kept, D.Inv, CountClose, D.Ahead, Asked;
    D.JobsAppend(s.written, s.queues.running.value, ok);
    assert s.queues.processed + [] == s.queues.processed;
    var t := Next(s, Wrote(ok));
    assert t.written[..|t.written| - 1] == s.written;
  }

  lemma TellStep(s: Peer)
    requires Inv(s) && Enabled(s, Tell)
    ensures QueueInv(Next(s, Tell))
  {
    hide D.Kept, D.Inv, CountClose, D.Ahead, Asked;
    var n := |s.written| - 1;
    LastWritten(s);
    assert s.written == s.written[..n] + [s.written[n]];
    AskedSnoc(s.written[..n], s.written[n]);
    assert s.results + [] == s.results;
  }

  /** The last entry of the written list is the message at the writer. */
  lemma LastWritten(s: Peer)
    requires WritingInv(s) && s.writing.HasOutcome?
    ensures s.written != [] && s.written[|s.written| - 1] == (s.queues.running.value, s.writing.ok)
  {
    hide Asked;
    var n := |s.written| - 1;
    assert D.Jobs(s.written)[n] == s.queues.running.value;
  }

  lemma SendDoneStep(s: Peer)
    requires Inv(s) && Enabled(s, SendDone)
    ensures QueueInv(Next(s, SendDone))
  {
    hide D.Kept, D.Jobs, D.Inv, CountClose, D.Ahead, Asked;
    var q := s.queues;
    D.StepKeeps(q, D.Finish);
    CountCloseAppend(q.processed, [q.running.value]);
    CountCloseOne(q.running.value);
    assert (q.processed + [q.running.value]) + [] == q.processed + [q.running.value];
  }

  lemma CloseConnStep(s: Peer)
    requires Inv(s) && Enabled(s, CloseConn)
    ensures QueueInv(Next(s, CloseConn))
  {
    hide D.Kept, D.Jobs, D.Inv, CountClose, D.Ahead;
    RunningEntered(s);
  }

  lemma StepKeeps(s: Peer, e: Event)
    requires Inv(s)
    ensures Inv(Next(s, e))
  {
    hide RaceInv, QueueInv, D.Next;
    if e == CloseConn && Enabled(s, e) { WonByClose(s); }
    RaceStep(s, e);
    QueueStep(s, e);
  }

  lemma QueueStep(s: Peer, e: Event)
    requires Inv(s)
    ensures QueueInv(Next(s, e))
  {
    hide D.Kept, D.Jobs, D.Inv, CountClose, D.Ahead, RaceInv, WritingInv, QueueInv, D.Next;
    if Enabled(s, e) {
      match e
      case PushSend(k) => EnqueueStep(s, e, s.pushing[k]);
      case CloseSend => EnqueueStep(s, e, D.Job(ClosePacket, true));
      case Queue(qe) => InnerStep(s, qe);
      case Wrote(ok) => WroteStep(s, ok);
      case Tell => TellStep(s);
      case SendDone => SendDoneStep(s);
      case CloseConn => CloseConnStep(s);
      case _ => SwapStep(s, e);
    }
  }

  /** A close packet at the writer means Close won the swap and nobody closed the socket yet. */
  lemma WonByClose(s: Peer)
    requires Inv(s) && Enabled(s, CloseConn)
    ensures s.connected == 2 && s.winner == ByClose && !s.closeSending
  {
    hide D.Kept, D.Jobs, D.Inv, CountClose, WritingInv;
    RunningEntered(s);
    CloseMember(s.queues.entered, |s.queues.processed|);
  }

  /** The steps that leave the queues and the writer alone. */
  lemma SwapStep(s: Peer, e: Event)
    requires Inv(s)
    requires !e.PushSend? && !e.CloseSend? && !e.Queue? && !e.Wrote? && !e.Tell? && !e.SendDone? && !e.CloseConn?
    ensures QueueInv(Next(s, e))
  {
    hide D.Kept, D.Jobs, D.Inv, CountClose, D.Ahead, D.Next, Asked, WritingInv, RaceInv;
    SameWriting(s, Next(s, e));
    CloseCount(s, e);
  }

  lemma SameWriting(s: Peer, t: Peer)
    requires WritingInv(s)
    requires t.queues.processed == s.queues.processed && t.queues.running == s.queues.running
    requires t.writing == s.writing && t.written == s.written && t.results == s.results
    ensures WritingInv(t)
  {
    hide D.Jobs, Asked;
  }

  /** Who won, and whether its packet is still to be queued, change together. */
  lemma CloseCount(s: Peer, e: Event)
    requires Inv(s)
    requires !e.PushSend? && !e.CloseSend? && !e.Queue? && !e.Wrote? && !e.Tell? && !e.SendDone? && !e.CloseConn?
    ensures var t := Next(s, e);
            && t.queues == s.queues && t.writing == s.writing && t.written == s.written && t.results == s.results
            && (t.winner == ByClose && !t.closeSending <==> s.winner == ByClose && !s.closeSending)
            && (t.closing != NotClosing ==> s.closing != NotClosing)
            && (forall j :: j in t.pushing ==> j in s.pushing || j.content.Msg?)
  {
    hide QueueInv, D.Next, D.Enabled, StageInv, SignalsOf, CallsOf;
    if e.Fail? || e.Swap? || e.Signal? || e.Notify? {
      ShutCount(s, e);
    } else {
      hide SetStage, Stage;
    }
  }

  lemma ShutCount(s: Peer, e: Event)
    requires RaceInv(s) && (e.Fail? || e.Swap? || e.Signal? || e.Notify?)
    ensures var t := Next(s, e);
            && t == s.(connected := t.connected, winner := t.winner, reader := t.reader, pinger := t.pinger,
                       signalled := t.signalled, disconnects := t.disconnects)
            && (t.winner == ByClose <==> s.winner == ByClose)
  {
    hide D.Next, D.Enabled, StageInv, SignalsOf, CallsOf;
  }

  // ------------------------------------------------------------ main results

  lemma {:induction false} Safety(s: Peer, evs: seq<Event>)
    requires Inv(s)
    ensures Inv(Run(s, evs))
    decreases |evs|
  {
    hide Inv, Next;
    if evs != [] {
      StepKeeps(s, evs[0]);
      Safety(Next(s, evs[0]), evs[1..]);
    }
  }

  /**
   * Over all interleavings from a connected peer: connclosed is signalled at most once, OnDisconnect runs at most
   * once and never when Close won the swap, the socket is actively closed at most once and only when Close
   * won it, so never both; and no signal ever finds the channel full.
   */
  lemma ShutdownRaces(evs: seq<Event>)
    ensures var s := Run(Start(), evs);
            && s.signalled <= 1 && s.disconnects <= 1 && s.socketCloses <= 1
            && (s.disconnects == 1 ==> s.winner == ByReader || s.winner == ByPing)
            && (s.socketCloses == 1 ==> s.winner == ByClose)
            && (s.winner == Nobody ==> s.signalled == 0)
            && (s.reader.Signalling? || s.pinger.Signalling? || s.closing.SocketClosed? ==> s.signalled == s.consumed == 0)
  {
    hide Next, QueueInv;
    StartInv();
    Safety(Start(), evs);
  }

  lemma StartInv()
    ensures Inv(Start())
  {
  }

  /**
   * Messages reach the socket in the order they entered outQueue, one at a time, none skipped. The callers that passed a done
   * channel have been sent the outcomes of these writes, each exactly once and in order, but for a last one being sent.
   */
  lemma WriterOrder(evs: seq<Event>)
    ensures var s := Run(Start(), evs);
            && |s.written| <= |s.queues.entered|
            && D.Jobs(s.written) == s.queues.entered[..|s.written|]
            && (s.writing.HasOutcome? ==> s.written != [])
            && s.results == Asked(Told(s))
  {
    hide Next, D.Ahead, D.Kept, D.Jobs, Asked, QueueInv, RaceInv;
    StartInv();
    Safety(Start(), evs);
    WrittenFirst(Run(Start(), evs));
  }

  lemma WrittenFirst(s: Peer)
    requires QueueInv(s)
    ensures |s.written| <= |s.queues.entered| && D.Jobs(s.written) == s.queues.entered[..|s.written|]
    ensures (s.writing.HasOutcome? ==> s.written != []) && s.results == Asked(Told(s))
  {
    hide D.Kept, D.Jobs, Asked;
    EntryOrder(s);
    var w := if s.writing.Unwritten? then [] else D.One(s.queues.running);
    assert s.queues.entered[..|s.queues.processed + w|] == s.queues.processed + w;
  }

  /** When the socket is closed, exactly the messages queued before the close packet have been attempted. */
  lemma CloseAfterEverythingBefore(evs: seq<Event>)
    ensures var s := Run(Start(), evs);
            s.socketCloses == 1 ==>
              && |s.written| < |s.queues.entered|
              && s.queues.entered[|s.written|].content == ClosePacket
              && s.queues.entered[..|s.written|] == D.Jobs(s.written)
              && (forall j :: j in s.queues.entered[..|s.written|] ==> j.content.Msg?)
  {
    hide Next, D.Ahead, D.Kept, D.Jobs, D.Inv;
    StartInv();
    Safety(Start(), evs);
    var s := Run(Start(), evs);
    if s.socketCloses == 1 {
      RunningEntered(s);
      forall j | j in s.queues.processed
        ensures j.content.Msg?
      {
        var i :| 0 <= i < |s.queues.processed| && s.queues.processed[i] == j;
        if IsClose(j) {
          CloseMember(s.queues.processed, i);
        }
      }
    }
  }

  /** The step towards closing the socket that some goroutine can take. */
  function Move(s: Peer): Event {
    var q := s.queues;
    if q.front.Received? then Queue(D.Logged(true))
    else if q.front.Passing? then Queue(D.Pass)
    else if s.writing.HasOutcome? then Tell
    else if s.writing.Answered? then SendDone
    else if q.running.Some? then (if IsClose(q.running.value) then CloseConn else Wrote(true))
    else if q.relay != [] then Queue(D.Take)
    else if q.done > 0 then Queue(D.TakeDone)
    else if q.queue != [] then Queue(D.Receive)
    else CloseSend
  }

  /** Once Close has won, and unless a ping fails, some goroutine can always take a further step until the socket is closed. */
  lemma CloseGoesThrough(s: Peer)
    requires Inv(s) && s.winner == ByClose && s.pinger.Alive? && s.socketCloses == 0
    ensures Enabled(s, Move(s)) && !Move(s).Fail?
  {
    hide D.Kept, D.Jobs, Asked, RaceInv, WritingInv, D.Inv;
    StillRunning(s);
    D.SendsNeverBlock(s.queues);
    if Move(s).CloseSend? {
      NothingPending(s.queues);
      NothingInside(s);
    }
  }

  lemma NothingPending(q: D.State<Out>)
    requires D.Inv(q) && q.relay == [] && q.running.None? && q.done == 0
    ensures q.pending == []
  {
    hide D.Kept, D.Jobs, D.Ahead;
  }

  /** Until the socket is closed, the writer and the queue goroutine are there, and what is at the writer is not written twice. */
  lemma StillRunning(s: Peer)
    requires Inv(s) && s.winner == ByClose && s.pinger.Alive? && s.socketCloses == 0
    ensures WriterAlive(s) && !s.queueGone && s.connected == 2
    ensures !s.writing.Unwritten? ==> s.queues.running.Some? && s.queues.running.value.content.Msg?
  {
    hide D.Kept, D.Jobs, Asked, D.Inv, CountClose;
  }

  function Rank(st: Shut): nat {
    match st
    case Alive => 4
    case Failed => 3
    case Signalling => 2
    case Notifying => 1
    case Gone => 0
  }

  /** How many steps are left at most on a peer that is no longer connected. */
  function StepsLeft(s: Peer): nat {
    4 * D.Work(s.queues)
    + (match s.writing case Unwritten => 2 case HasOutcome(_) => 1 case Answered => 0)
    + 29 * |s.pushing| + s.closers + (if s.closeSending then 29 else 0)
    + Rank(s.reader) + Rank(s.pinger)
    + (match s.closing case NotClosing => 2 case SocketClosed => 1 case Closed => 0)
    + (if s.queueGone then 0 else 1)
  }

  lemma StepsDecrease(s: Peer, e: Event)
    requires s.connected != 1 && Enabled(s, e)
    ensures StepsLeft(Next(s, e)) < StepsLeft(s) && Next(s, e).connected != 1 && Next(s, e).winner == s.winner
  {
    hide D.Work, D.Enabled, D.Next, Rank;
    match e
    case PushSend(k) => EnqueueWork(s.queues, s.pushing[k]);
    case CloseSend => EnqueueWork(s.queues, D.Job(ClosePacket, true));
    case Queue(qe) => D.WorkDecreases(s.queues, qe);
    case SendDone => D.WorkDecreases(s.queues, D.Finish);
    case _ => OtherStepsDecrease(s, e);
  }

  lemma OtherStepsDecrease(s: Peer, e: Event)
    requires s.connected != 1 && Enabled(s, e) && !e.PushSend? && !e.CloseSend? && !e.Queue? && !e.SendDone?
    ensures StepsLeft(Next(s, e)) < StepsLeft(s) && Next(s, e).connected != 1 && Next(s, e).winner == s.winner
  {
    hide D.Work, D.Enabled, D.Next;
    if e.Fail? || e.Swap? || e.Signal? || e.Notify? {
      ShutDecreases(s, e);
    } else {
      hide Rank;
    }
  }

  lemma ShutDecreases(s: Peer, e: Event)
    requires s.connected != 1 && Enabled(s, e) && (e.Fail? || e.Swap? || e.Signal? || e.Notify?)
    ensures var t := Next(s, e);
            && Rank(t.reader) + Rank(t.pinger) < Rank(s.reader) + Rank(s.pinger)
            && t == s.(reader := t.reader, pinger := t.pinger, signalled := t.signalled, disconnects := t.disconnects)
  {
    hide D.Next, D.Enabled;
  }

  lemma EnqueueWork(q: D.State<Out>, job: Job)
    requires D.Enabled(q, D.Enqueue(job))
    ensures D.Work(D.Next(q, D.Enqueue(job))) == D.Work(q) + 7
  {
  }

  predicate AllEnabled(s: Peer, evs: seq<Event>)
    decreases |evs|
  {
    evs == [] || (Enabled(s, evs[0]) && AllEnabled(Next(s, evs[0]), evs[1..]))
  }

  lemma {:induction false} StepsBound(s: Peer, evs: seq<Event>)
    requires s.connected != 1 && AllEnabled(s, evs)
    ensures |evs| + StepsLeft(Run(s, evs)) <= StepsLeft(s) && Run(s, evs).winner == s.winner
    decreases |evs|
  {
    hide StepsLeft, Enabled, Next;
    if evs != [] {
      StepsDecrease(s, evs[0]);
      StepsBound(Next(s, evs[0]), evs[1..]);
    }
  }

  /** Nothing but a failing read or ping could happen any more. */
  ghost predicate Settled(s: Peer) {
    forall e: Event :: !e.Fail? ==> !Enabled(s, e)
  }

  /** A queue goroutine that cannot move any more has left its loop, if there was a signal for it. */
  lemma SettledQueue(s: Peer)
    requires Inv(s) && Settled(s) && s.signalled == 1
    ensures s.queueGone
  {
    hide D.Kept, D.Jobs, Asked, WritingInv, D.Inv, StageInv, SignalsOf, CallsOf;
    D.SendsNeverBlock(s.queues);
    assert !Enabled(s, QueueExit) && !Enabled(s, Queue(D.Logged(true))) && !Enabled(s, Queue(D.Pass));
  }

  /**
   * Once Close has won, every schedule ends within StepsLeft(s) steps, and one in which no ping failed ends with the socket
   * closed exactly once, the signal sent, the queue goroutine gone and OnDisconnect never run.
   */
  lemma CloseCompletes(s: Peer, evs: seq<Event>)
    requires Inv(s) && s.winner == ByClose && AllEnabled(s, evs)
    ensures |evs| <= StepsLeft(s)
    ensures var t := Run(s, evs);
            t.pinger.Alive? && Settled(t) ==> t.socketCloses == 1 && t.signalled == 1 && t.queueGone && t.disconnects == 0
  {
    assert s.connected != 1;
    hide StepsLeft, Enabled, Next, QueueInv, Settled;
    StepsBound(s, evs);
    Safety(s, evs);
    var t := Run(s, evs);
    if t.pinger.Alive? && Settled(t) {
      SettledClosed(t);
      CloseSignalled(t);
      SettledQueue(t);
    }
  }

  lemma SettledClosed(s: Peer)
    requires Inv(s) && s.winner == ByClose && s.pinger.Alive? && Settled(s)
    ensures s.socketCloses == 1
  {
    hide Enabled, QueueInv;
    if s.socketCloses == 0 { CloseGoesThrough(s); }
  }

  lemma CloseSignalled(s: Peer)
    requires RaceInv(s) && s.winner == ByClose && s.socketCloses == 1 && Settled(s)
    ensures s.signalled == 1 && s.disconnects == 0
  {
    assert !Enabled(s, CloseSignal);
  }

  /**
   * A connection lost to a failed read or ping: every schedule ends within StepsLeft(s) steps, and it ends with OnDisconnect run
   * exactly once, the signal sent and the queue goroutine gone; the socket is not closed from this side.
   */
  lemma LossCompletes(s: Peer, evs: seq<Event>)
    requires Inv(s) && (s.winner == ByReader || s.winner == ByPing) && AllEnabled(s, evs)
    ensures |evs| <= StepsLeft(s)
    ensures var t := Run(s, evs);
            Settled(t) ==> t.disconnects == 1 && t.signalled == 1 && t.queueGone && t.socketCloses == 0
  {
    assert s.connected != 1;
    hide StepsLeft, Enabled, Next, QueueInv, Settled;
    StepsBound(s, evs);
    Safety(s, evs);
    var t := Run(s, evs);
    if Settled(t) {
      LossSignalled(t, if t.winner == ByReader then Reader else Pinger);
      SettledQueue(t);
    }
  }

  lemma LossSignalled(s: Peer, who: Who)
    requires RaceInv(s) && s.winner == (if who == Reader then ByReader else ByPing) && Settled(s)
    ensures s.signalled == 1 && s.disconnects == 1 && s.socketCloses == 0
  {
    assert !Enabled(s, Signal(who)) && !Enabled(s, Notify(who));
  }

  /** A reader whose read failed on a connected peer settles who lost the connection with its next step. */
  lemma FailedReadIsNoticed(s: Peer)
    requires Inv(s) && s.reader.Alive?
    ensures Enabled(s, Fail(Reader)) && Enabled(Next(s, Fail(Reader)), Swap(Reader))
    ensures var t := Next(Next(s, Fail(Reader)), Swap(Reader));
            t.winner == (if s.connected == 1 then ByReader else s.winner) && t.connected != 1
  {
    hide QueueInv;
  }

  /** Nothing but new calls and a failing read or ping could happen any more. */
  ghost predicate Idle(s: Peer) {
    forall e: Event :: !e.Fail? && !e.PushCall? && !e.CloseCall? ==> !Enabled(s, e)
  }

  /**
   * On a peer that stays connected nothing that was pushed gets stuck: when nothing but new calls or a failure is left to
   * happen, every call has queued its message, every message has been handed to the socket, in order, and every caller that
   * asked has its outcome.
   */
  lemma IdleMeansWritten(s: Peer)
    requires Inv(s) && s.connected == 1 && s.reader.Alive? && s.pinger.Alive? && Idle(s)
    ensures s.pushing == [] && s.closers == 0
    ensures D.Jobs(s.written) == s.queues.entered && s.results == Asked(s.written)
  {
    IdleQueue(s);
    NothingInside(s);
    IdlePushes(s);
  }

  lemma IdlePushes(s: Peer)
    requires Idle(s) && s.queues.queue == []
    ensures s.pushing == [] && s.closers == 0
  {
    hide D.Next;
    assert !Enabled(s, PushSend(0)) && !Enabled(s, CloseSwap);
  }

  lemma ConnectedRuns(s: Peer)
    requires RaceInv(s) && s.connected == 1 && s.pinger.Alive?
    ensures WriterAlive(s) && !s.queueGone && s.winner == Nobody
  {
  }

  /** As with Close: as long as something is inside, some goroutine can move it. */
  lemma IdleQueue(s: Peer)
    requires Inv(s) && s.connected == 1 && s.reader.Alive? && s.pinger.Alive? && Idle(s)
    ensures D.Quiescent(s.queues) && s.writing.Unwritten?
  {
    hide D.Kept, D.Jobs, Asked, D.Inv, CountClose, SignalsOf, CallsOf;
    D.SendsNeverBlock(s.queues);
    var q := s.queues;
    ConnectedRuns(s);
    hide RaceInv;
    assert !Enabled(s, Queue(D.Logged(true))) && !Enabled(s, Queue(D.Pass)) && !Enabled(s, Tell) && !Enabled(s, SendDone);
    assert !Enabled(s, Wrote(true)) && !Enabled(s, CloseConn);
    assert !Enabled(s, Queue(D.Take)) && !Enabled(s, Queue(D.TakeDone)) && !Enabled(s, Queue(D.Receive));
    if q.relay == [] && q.running.None? && q.done == 0 { NothingPending(q); }
  }

  lemma NothingInside(s: Peer)
    requires QueueInv(s) && D.Quiescent(s.queues)
    ensures s.queues.entered == s.queues.processed
  {
    hide D.Kept, D.Jobs;
    EntryOrder(s);
    assert s.queues.processed + ([] + ([] + [])) == s.queues.processed;
  }

  /** A failed ping after Close has won: the writer leaves, the close packet is never taken, nothing closes the socket. */
  lemma PingFailureStrandsClose()
    ensures var s := Run(Start(), [CloseCall, CloseSwap, Fail(Pinger), Swap(Pinger)]);
            s.winner == ByClose && s.pinger == Gone && s.connected == 2
    ensures forall evs :: Run(Run(Start(), [CloseCall, CloseSwap, Fail(Pinger), Swap(Pinger)]), evs).socketCloses == 0
  {
    var s0 := Start();
    var s1 := Next(s0, CloseCall);
    var s2 := Next(s1, CloseSwap);
    var s3 := Next(s2, Fail(Pinger));
    var s4 := Next(s3, Swap(Pinger));
    var e4: seq<Event> := [CloseCall, CloseSwap, Fail(Pinger), Swap(Pinger)];
    var e3, e2, e1 := e4[1..], e4[2..], e4[3..];
    assert e3[1..] == e2 && e2[1..] == e1 && e1[1..] == [];
    assert Run(s0, e4) == Run(s1, e3) == Run(s2, e2) == Run(s3, e1) == Run(s4, []) == s4;
    forall evs
      ensures Run(s4, evs).socketCloses == 0
    {
      StrandedStays(s4, evs);
    }
  }

  lemma {:induction false} StrandedStays(s: Peer, evs: seq<Event>)
    requires s.pinger.Gone? && s.closing.NotClosing? && s.socketCloses == 0
    ensures Run(s, evs).socketCloses == 0
    decreases |evs|
  {
    if evs != [] {
      StrandedStays(Next(s, evs[0]), evs[1..]);
    }
  }

  // --------------------------------------------------------------- the class

  /**
   * The fields the shutdown paths change. Each method is one such path run without interference; between its steps
   * other goroutines may run, which is what the state machine above covers.
   */
  class Connection {
    var connected: int
    var outQueue: seq<Job>    // capacity 1
    var connclosed: nat       // signals sent
    var disconnects: nat      // OnDisconnect calls
    var socketCloses: nat
    ghost var state: Peer     // these fields and where every goroutine stands

    ghost predicate Valid()
      reads this
    {
      && Inv(state)
      && state.connected == connected && state.queues.queue == outQueue && state.signalled == connclosed
      && state.disconnects == disconnects && state.socketCloses == socketCloses
    }

    /** SetConnection on a new peer. */
    constructor ()
      ensures Valid() && state == Start()
    {
      connected, outQueue, connclosed, disconnects, socketCloses := 1, [], 0, 0, 0;
      state := Start();
      new;
      StartInv();
    }

    method CompareAndSwap(from: int, to: int) returns (swapped: bool)
      modifies this`connected
      ensures swapped <==> old(connected) == from
      ensures connected == if swapped then to else old(connected)
    {
      swapped := connected == from;
      if swapped {
        connected := to;
      }
    }

    /** Close: the connected test, the swap, and the send of the close packet, which waits while the queue is full. */
    method Close() returns (won: bool, waits: bool)
      requires Valid()
      modifies this
      ensures Valid() && (won <==> old(connected) == 1)
      ensures state == if won then Next(Next(Next(old(state), CloseCall), CloseSwap), CloseSend) else old(state)
      ensures waits <==> won && old(outQueue) != []
      ensures won && !waits ==> state.queues.entered == old(state.queues.entered) + [D.Job(ClosePacket, true)]
      ensures waits ==> state.closeSending
    {
      hide QueueInv;
      if connected != 1 {
        return false, false;
      }
      StepKeeps(state, CloseCall);
      state := Next(state, CloseCall);
      StepKeeps(state, CloseSwap);
      state := Next(state, CloseSwap);
      won := CompareAndSwap(1, 2);
      waits := |outQueue| >= 1;
      if !waits {
        outQueue := outQueue + [D.Job(ClosePacket, true)];
      }
      StepKeeps(state, CloseSend);
      state := Next(state, CloseSend);
    }

    /** connectionClosed, run by the reader or by the writer after a failed ping. */
    method ConnectionClosed(who: Who)
      requires Valid() && Stage(state, who).Failed?
      modifies this
      ensures Valid()
      ensures state == if old(connected) == 1 then Next(Next(Next(old(state), Swap(who)), Signal(who)), Notify(who))
                                              else Next(old(state), Swap(who))
    {
      hide QueueInv, D.Next;
      StepKeeps(state, Swap(who));
      state := Next(state, Swap(who));
      var won := CompareAndSwap(1, 2);
      if !won {
        return;
      }
      SignalFindsRoom(state, who);
      StepKeeps(state, Signal(who));
      state := Next(state, Signal(who));
      connclosed := connclosed + 1;
      StepKeeps(state, Notify(who));
      state := Next(state, Notify(who));
      disconnects := disconnects + 1;
    }

    /** closeConnect, run by the writer for the close packet. The swap cannot fail there. */
    method CloseConnect()
      requires Valid() && Enabled(state, CloseConn)
      modifies this
      ensures Valid() && connected == 0 && socketCloses == old(socketCloses) + 1
      ensures state == Next(Next(old(state), CloseConn), CloseSignal)
    {
      CloseConnBoth(state);
      hide Inv, Enabled, Next;
      var won := CompareAndSwap(2, 0);
      assert won;
      socketCloses := socketCloses + 1;
      connclosed := connclosed + 1;
      state := Next(Next(state, CloseConn), CloseSignal);
    }
  }

  /** After closing the socket the signal finds room. */
  lemma SignalRoom(s: Peer)
    requires Inv(s) && Enabled(s, CloseConn)
    ensures var t := Next(s, CloseConn);
            && t.connected == 0 && t.closing.SocketClosed? && Enabled(t, CloseSignal)
            && t.signalled == s.signalled && t.disconnects == s.disconnects && t.socketCloses == s.socketCloses + 1
            && t.queues == s.queues
  {
    WonByClose(s);
    hide QueueInv, D.Next, D.Enabled;
  }

  /** The swap of closeConnect finds the word at 2, and the signal after it finds room. */
  lemma CloseConnBoth(s: Peer)
    requires Inv(s) && Enabled(s, CloseConn)
    ensures s.connected == 2
    ensures var t := Next(Next(s, CloseConn), CloseSignal);
            && Inv(t) && t.connected == 0 && t.queues == s.queues
            && t.signalled == s.signalled + 1 && t.disconnects == s.disconnects && t.socketCloses == s.socketCloses + 1
  {
    WonByClose(s);
    SignalRoom(s);
    StepKeeps(s, CloseConn);
    StepKeeps(Next(s, CloseConn), CloseSignal);
    hide QueueInv, RaceInv, D.Next, D.Enabled;
  }

  lemma SignalFindsRoom(s: Peer, who: Who)
    requires Inv(s) && Stage(s, who).Signalling?
    ensures Enabled(s, Signal(who))
  {
    hide QueueInv;
  }
}
