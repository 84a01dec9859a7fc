/**
 * The token-passing queue that feeds one handler goroutine from a channel without ever blocking on it.
 * The hub's dispatcher (hub/hub.go packetQueueHandler and packetHandler) and the writer of a peer
 * (peer/peer.go packetQueueHandler and packetHandler) are both this protocol.
 */
module Dispatch {
  import opened Bytes

  /** A queued item; answers: somebody waits on its response channel. */
  datatype Job<+T> = Job(content: T, answers: bool)

  /** What the queue goroutine holds between taking an item from the channel and its next select. */
  datatype Front<+T> =
    | Selecting
    | Received(job: Job<T>)   // log write in progress
    | Refused(job: Job<T>)    // log write failed, sending the error response
    | Passing(job: Job<T>)    // in queuePacket

  datatype State<T> = State(
    queue: seq<Job<T>>,      // packetQueue / outQueue, capacity 1
    front: Front<T>,
    pending: seq<Job<T>>,    // pendingMsgs
    waiting: bool,
    relay: seq<Job<T>>,      // packetRelay / sendQueue, capacity 1
    running: Option<Job<T>>, // what the handler goroutine works on
    done: nat,               // tokens in packetRelayDone / sendDone, capacity 1
    entered: seq<Job<T>>,            // everything ever put on the queue
    received: seq<(Job<T>, bool)>,   // everything taken off it, with the outcome of its log write
    processed: seq<Job<T>>           // everything the handler finished
  )

  datatype Event<T> =
    | Enqueue(job: Job<T>)
    | Receive
    | Logged(ok: bool)
    | Answer
    | Pass
    | Take
    | Finish
    | TakeDone

  function Init<T>(): State<T> {
    State([], Selecting, [], false, [], None, 0, [], [], [])
  }

  /** The goroutine of the event is at that point and its channel operation does not block. */
  predicate Enabled<T>(s: State<T>, e: Event<T>) {
    match e
    case Enqueue(_) => |s.queue| < 1
    case Receive => s.front.Selecting? && s.queue != []
    case Logged(_) => s.front.Received?
    case Answer => s.front.Refused? && s.front.job.answers
    case Pass => s.front.Passing? && (s.waiting || |s.relay| < 1)
    case Take => s.running.None? && s.relay != []
    case Finish => s.running.Some? && s.done < 1
    case TakeDone => s.front.Selecting? && s.done > 0 && (s.pending == [] || |s.relay| < 1)
  }

  /** One step; a blocked operation changes nothing. */
  function Next<T>(s: State<T>, e: Event<T>): State<T> {
    if !Enabled(s, e) then s else
      match e
      case Enqueue(job) => s.(queue := s.queue + [job], entered := s.entered + [job])
      case Receive => s.(queue := s.queue[1..], front := Received(s.queue[0]))
      case Logged(ok) =>
        s.(front := if ok then Passing(s.front.job) else Refused(s.front.job),
           received := s.received + [(s.front.job, ok)])
      case Answer => s.(front := Selecting)
      case Pass =>
        if s.waiting then s.(front := Selecting, pending := s.pending + [s.front.job])
        else s.(front := Selecting, relay := s.relay + [s.front.job], waiting := true)
      case Take => s.(relay := s.relay[1..], running := Some(s.relay[0]))
      case Finish => s.(running := None, done := s.done + 1, processed := s.processed + [s.running.value])
      case TakeDone =>
        if s.pending == [] then s.(done := s.done - 1, waiting := false)
        else s.(done := s.done - 1, pending := s.pending[1..], relay := s.relay + [s.pending[0]])
  }

  function Run<T>(s: State<T>, evs: seq<Event<T>>): State<T>
    decreases |evs|
  {
    if evs == [] then s else Run(Next(s, evs[0]), evs[1..])
  }

  // -------------------------------------------------------------- invariant

  /** The received items whose log write succeeded, in order. */
  function Kept<T>(rs: seq<(Job<T>, bool)>): seq<Job<T>> {
    if rs == [] then [] else (if rs[0].1 then [rs[0].0] else []) + Kept(rs[1..])
  }

  function Jobs<T>(rs: seq<(Job<T>, bool)>): (js: seq<Job<T>>)
    ensures |js| == |rs|
  {
    seq(|rs|, i requires 0 <= i < |rs| => rs[i].0)
  }

  function One<T>(o: Option<Job<T>>): seq<Job<T>> {
    if o.Some? then [o.value] else []
  }

  function Tokens<T>(s: State<T>): nat {
    |s.relay| + |One(s.running)| + s.done
  }

  /** What was kept and has not been finished: with the handler, on the relay, pending, being passed. */
  function Ahead<T>(s: State<T>): seq<Job<T>> {
    One(s.running) + (s.relay + (s.pending + (if s.front.Passing? then [s.front.job] else [])))
  }

  ghost predicate Inv<T>(s: State<T>) {
    && |s.queue| <= 1
    && Tokens(s) == (if s.waiting then 1 else 0)
    && (s.pending != [] ==> s.waiting)
    && s.processed + Ahead(s) == Kept(s.received)
    && Jobs(s.received) + ((if s.front.Received? then [s.front.job] else []) + s.queue) == s.entered
  }

  lemma {:induction false} KeptAppend<T>(a: seq<(Job<T>, bool)>, b: seq<(Job<T>, bool)>)
    ensures Kept(a + b) == Kept(a) + Kept(b)
    decreases |a|
  {
    if a == [] {
      assert a + b == b;
    } else {
      var t := a[1..];
      KeptAppend(t, b);
      assert a + b == [a[0]] + (t + b);
      assert ([a[0]] + (t + b))[1..] == t + b;
      var head := if a[0].1 then [a[0].0] else [];
      assert head + (Kept(t) + Kept(b)) == (head + Kept(t)) + Kept(b);
    }
  }

  lemma KeptOne<T>(job: Job<T>, ok: bool)
    ensures Kept([(job, ok)]) == if ok then [job] else []
  {
    var one := [(job, ok)];
    assert one[1..] == [];
  }

  lemma LoggedOrder<T>(s: State<T>, ok: bool)
    requires Inv(s) && s.front.Received?
    ensures var t := Next(s, Logged(ok)); t.processed + Ahead(t) == Kept(t.received)
  {
    hide Kept, Jobs;
    var job := s.front.job;
    var one := [(job, ok)];
    KeptAppend(s.received, one);
    KeptOne(job, ok);
    var t := Next(s, Logged(ok));
    assert Ahead(t) == Ahead(s) + Kept(one);
    assert t.processed + (Ahead(s) + Kept(one)) == (s.processed + Ahead(s)) + Kept(one);
  }

  /** Handing an item along inside keeps the order of what is ahead. */
  lemma AheadStep<T>(s: State<T>, e: Event<T>)
    requires Inv(s) && (e.Pass? || e.Take? || e.TakeDone?)
    ensures Ahead(Next(s, e)) == Ahead(s)
  {
    hide Kept, Jobs;
    var t := Next(s, e);
    var passing := if s.front.Passing? then [s.front.job] else [];
    if Enabled(s, e) {
      match e
      case Pass =>
        if s.waiting {
          assert s.pending + passing == t.pending + [];
        } else {
          assert s.relay + (s.pending + passing) == t.relay + (t.pending + []);
        }
      case Take => assert One(t.running) + t.relay == One(s.running) + s.relay;
      case TakeDone =>
        if s.pending != [] {
          assert s.relay + (s.pending + passing) == t.relay + (t.pending + passing);
        }
    }
  }

  lemma OrderStep<T>(s: State<T>, e: Event<T>)
    requires Inv(s)
    ensures Next(s, e).processed + Ahead(Next(s, e)) == Kept(Next(s, e).received)
  {
    hide Kept, Jobs;
    var t := Next(s, e);
    match e
    case Logged(ok) => if s.front.Received? { LoggedOrder(s, ok); }
    case Finish =>
      if Enabled(s, e) {
        assert s.processed + (One(s.running) + Ahead(t)) == (s.processed + One(s.running)) + Ahead(t);
        assert Ahead(s) == One(s.running) + Ahead(t);
      }
    case Pass => AheadStep(s, e);
    case Take => AheadStep(s, e);
    case TakeDone => AheadStep(s, e);
    case _ =>
  }

  lemma JobsAppend<T>(rs: seq<(Job<T>, bool)>, job: Job<T>, ok: bool)
    ensures Jobs(rs + [(job, ok)]) == Jobs(rs) + [job]
  {
  }

  lemma EntryStep<T>(s: State<T>, e: Event<T>)
    requires Inv(s)
    ensures var t := Next(s, e);
            Jobs(t.received) + ((if t.front.Received? then [t.front.job] else []) + t.queue) == t.entered
  {
    hide Ahead, Kept, Jobs;
    var t := Next(s, e);
    match e
    case Enqueue(job) =>
      var held := if s.front.Received? then [s.front.job] else [];
      assert Jobs(s.received) + (held + (s.queue + [job])) == (Jobs(s.received) + (held + s.queue)) + [job];
    case Receive => assert s.front.Selecting? && s.queue != [] ==> [s.queue[0]] + s.queue[1..] == [] + s.queue;
    case Logged(ok) =>
      if s.front.Received? {
        JobsAppend(s.received, s.front.job, ok);
        assert (Jobs(s.received) + [s.front.job]) + ([] + s.queue) == Jobs(s.received) + ([s.front.job] + s.queue);
      }
    case _ =>
  }

  lemma StepKeeps<T>(s: State<T>, e: Event<T>)
    requires Inv(s)
    ensures Inv(Next(s, e))
  {
    hide Ahead, Kept, Jobs;
    OrderStep(s, e);
    EntryStep(s, e);
  }

  // ------------------------------------------------------------ main results

  /**
   * Over every run: at most one token exists and it exists exactly while waiting; the pending list is used
   * only then; items are handed over one at a time in the order they entered, except those whose log write failed.
   */
  lemma {:induction false} Safety<T>(evs: seq<Event<T>>, s: State<T>)
    requires Inv(s)
    ensures Inv(Run(s, evs))
    decreases |evs|
  {
    if evs != [] {
      StepKeeps(s, evs[0]);
      Safety(evs[1..], Next(s, evs[0]));
    }
  }

  lemma InitInv<T>()
    ensures Inv(Init<T>())
  {
  }

  /** The sends on the relay and on the done channel find room whenever a goroutine reaches them. */
  lemma SendsNeverBlock<T>(s: State<T>)
    requires Inv(s)
    ensures s.front.Passing? ==> Enabled(s, Pass)
    ensures s.front.Selecting? && s.done > 0 ==> Enabled(s, TakeDone)
    ensures s.running.Some? ==> Enabled(s, Finish)
  {
  }

  /** Nothing left to do inside. */
  predicate Quiescent<T>(s: State<T>) {
    && s.queue == [] && s.front.Selecting? && s.pending == [] && s.relay == [] && s.running.None? && s.done == 0
  }

  /** The queue goroutine sends an error response on a nil channel. */
  predicate Stalled<T>(s: State<T>) {
    s.front.Refused? && !s.front.job.answers
  }

  /** The step some goroutine can take next. */
  function Move<T>(s: State<T>): Event<T> {
    if s.front.Received? then Logged(true)
    else if s.front.Refused? && s.front.job.answers then Answer
    else if s.front.Passing? then Pass
    else if s.running.Some? then Finish
    else if s.relay != [] then Take
    else if s.done > 0 then TakeDone
    else Receive
  }

  /** No deadlock: unless everything is drained or a refused item had no response channel, some goroutine can move. */
  lemma Progress<T>(s: State<T>)
    requires Inv(s) && !Quiescent(s) && !Stalled(s)
    ensures !Move(s).Enqueue? && Enabled(s, Move(s))
  {
    hide Ahead, Kept, Jobs;
  }

  /** A stall is for good: nothing is taken off the queue any more, whatever happens. */
  lemma {:induction false} StallIsForGood<T>(s: State<T>, evs: seq<Event<T>>)
    requires Stalled(s)
    ensures Run(s, evs).front == s.front && Run(s, evs).received == s.received
    decreases |evs|
  {
    if evs != [] {
      StallIsForGood(Next(s, evs[0]), evs[1..]);
    }
  }

  /** A stall arises exactly when the log refuses an item nobody waits for. */
  lemma StallOrigin<T>(s: State<T>, e: Event<T>)
    requires !Stalled(s)
    ensures Stalled(Next(s, e)) <==> e == Logged(false) && s.front.Received? && !s.front.job.answers
  {
  }

  /** How many steps the items inside still need at most. */
  function Work<T>(s: State<T>): nat {
    7 * |s.queue|
    + (match s.front case Selecting => 0 case Received(_) => 6 case Refused(_) => 5 case Passing(_) => 5)
    + 4 * |s.pending| + 3 * |s.relay| + 2 * |One(s.running)| + s.done
  }

  lemma WorkDecreases<T>(s: State<T>, e: Event<T>)
    requires Enabled(s, e) && !e.Enqueue?
    ensures Work(Next(s, e)) < Work(s)
  {
  }

  predicate AllEnabled<T>(s: State<T>, evs: seq<Event<T>>)
    decreases |evs|
  {
    evs == [] || (!evs[0].Enqueue? && Enabled(s, evs[0]) && AllEnabled(Next(s, evs[0]), evs[1..]))
  }

  /** Without new items every schedule ends within Work(s) steps. */
  lemma {:induction false} Drains<T>(s: State<T>, evs: seq<Event<T>>)
    requires AllEnabled(s, evs)
    ensures |evs| + Work(Run(s, evs)) <= Work(s)
    decreases |evs|
  {
    hide Work, Enabled;
    if evs != [] {
      WorkDecreases(s, evs[0]);
      Drains(Next(s, evs[0]), evs[1..]);
    }
  }

  /** Once drained, everything that entered was received, and everything kept was processed, in order. */
  lemma DrainedMeansDone<T>(s: State<T>)
    requires Inv(s) && Quiescent(s)
    ensures Jobs(s.received) == s.entered && s.processed == Kept(s.received) && !s.waiting
  {
    assert s.processed + [] == s.processed;
    assert Jobs(s.received) + ([] + []) == Jobs(s.received);
  }

  /** The queue goroutine's own steps that make room on the queue while the handler is busy. */
  function MakeRoom<T>(s: State<T>, ok: bool): seq<Event<T>> {
    match s.front
    case Selecting => [Receive]
    case Refused(_) => [Answer, Receive]
    case Passing(_) => [Pass, Receive]
    case Received(_) => [Logged(ok), if ok then Pass else Answer, Receive]
  }

  lemma RunTwo<T>(s: State<T>, a: Event<T>, b: Event<T>)
    ensures Run(s, [a, b]) == Next(Next(s, a), b)
  {
    var evs := [a, b];
    assert evs[1..] == [b] && [b][1..] == [];
    assert Run(Next(s, a), [b]) == Run(Next(Next(s, a), b), []);
  }

  lemma RunThree<T>(s: State<T>, a: Event<T>, b: Event<T>, c: Event<T>)
    ensures Run(s, [a, b, c]) == Next(Next(Next(s, a), b), c)
  {
    var evs := [a, b, c];
    assert evs[1..] == [b, c];
    RunTwo(Next(s, a), b, c);
  }

  /**
   * A handler that itself sends into the full queue is not deadlocked: the queue goroutine alone frees it, whatever
   * the log answers, as long as it can deliver the answer.
   */
  lemma HandlerSendProceeds<T>(s: State<T>, ok: bool)
    requires Inv(s) && s.running.Some? && s.queue != [] && !Stalled(s)
    requires s.front.Received? && !ok ==> s.front.job.answers
    ensures var t := Run(s, MakeRoom(s, ok)); t.queue == [] && t.running == s.running && t.processed == s.processed
  {
    hide Ahead, Kept, Jobs;
    assert s.waiting;
    match s.front
    case Selecting =>
      var evs: seq<Event<T>> := [Receive];
      assert evs[1..] == [];
      assert Run(s, evs) == Next(s, Receive);
    case Refused(_) => RunTwo(s, Answer, Receive);
    case Passing(_) => RunTwo(s, Pass, Receive);
    case Received(_) => RunThree(s, Logged(ok), if ok then Pass else Answer, Receive);
  }

  // -------------------------------------------------------------- the class

  /** The local state of the queue goroutine and the channels around it. */
  class Dispatcher<T> {
    var queue: seq<Job<T>>
    var relay: seq<Job<T>>
    var done: nat
    var pending: seq<Job<T>>
    var waiting: bool
    ghost var front: Front<T>
    ghost var running: Option<Job<T>>
    ghost var entered: seq<Job<T>>
    ghost var received: seq<(Job<T>, bool)>
    ghost var processed: seq<Job<T>>

    ghost function View(): State<T>
      reads this
    {
      State(queue, front, pending, waiting, relay, running, done, entered, received, processed)
    }

    constructor ()
      ensures View() == Init()
    {
      queue, relay, done, pending, waiting := [], [], 0, [], false;
      front, running, entered, received, processed := Selecting, None, [], [], [];
    }

    /** The queue case of the select: receive, log, and hand over or hold back; the log's outcome is given. */
    method OnPacket(ok: bool) returns (failed: Option<Job<T>>)
      requires Inv(View()) && Enabled(View(), Receive)
      modifies this
      ensures Inv(View())
      ensures ok ==> failed.None? && View() == Next(Next(Next(old(View()), Receive), Logged(true)), Pass)
      ensures !ok ==> failed == Some(old(queue)[0]) && View() == Next(Next(old(View()), Receive), Logged(false))
    {
      hide Ahead, Kept, Jobs;
      StepKeeps(View(), Receive);
      var packet := queue[0];
      queue := queue[1..];
      front := Received(packet);
      StepKeeps(View(), Logged(ok));
      received := received + [(packet, ok)];
      if !ok {
        front := Refused(packet);
        return Some(packet);
      }
      front := Passing(packet);
      SendsNeverBlock(View());
      StepKeeps(View(), Pass);
      if !waiting {
        relay := relay + [packet];
      } else {
        pending := pending + [packet];
      }
      waiting := true;
      front := Selecting;
      failed := None;
    }

    /** The done case of the select: pass the token on to the first pending item, or drop it. */
    method OnDone()
      requires Inv(View()) && front.Selecting? && done > 0
      modifies this
      ensures Inv(View()) && View() == Next(old(View()), TakeDone)
    {
      SendsNeverBlock(View());
      StepKeeps(View(), TakeDone);
      done := done - 1;
      if pending == [] {
        waiting := false;
        return;
      }
      var val := pending[0];
      pending := pending[1..];
      relay := relay + [val];
    }
  }
}
