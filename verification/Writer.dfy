/** The group-commit writer as a transition system. A step runs from one `await` to the next;
    requests, shutdown and the retention job may run between any two of them. */
module Writer {
  import opened Events
  import opened Tables
  import opened Bisection

  datatype Request = Request(id: nat, events: seq<Event>)

  datatype Limits = Limits(maxQueued: nat, maxBatch: nat)

  datatype Submission = Queued | CompletedEmpty | QueueFull | WriterStopped

  /** The deque, its event count, the wake-up flag and the shutdown flag. */
  datatype Queue = Queue(pending: seq<Request>, queuedEvents: int, hasWork: bool, stopping: bool)

  datatype Counters = Counters(committedSeq: nat, totalInserted: int, totalDuplicates: int, totalBatches: int)

  function Size(rs: seq<Request>): nat {
    if rs == [] then 0 else |rs[0].events| + Size(rs[1..])
  }

  function EventsOf(rs: seq<Request>): seq<Event> {
    if rs == [] then [] else rs[0].events + EventsOf(rs[1..])
  }

  function Submit(lim: Limits, q: Queue, r: Request): (Queue, Submission) {
    if q.stopping then (q, WriterStopped)
    else if r.events == [] then (q, CompletedEmpty)
    else if q.queuedEvents + |r.events| > lim.maxQueued then (q, QueueFull)
    else (Queue(q.pending + [r], q.queuedEvents + |r.events|, true, q.stopping), Queued)
  }

  /** How many requests follow once `size` events are taken: whole requests that still fit. */
  function Following(pending: seq<Request>, size: nat, maxBatch: nat): (n: nat)
    ensures n <= |pending|
    decreases |pending|
  {
    if pending == [] || size + |pending[0].events| > maxBatch then 0
    else 1 + Following(pending[1..], size + |pending[0].events|, maxBatch)
  }

  function BatchLength(pending: seq<Request>, maxBatch: nat): (n: nat)
    requires pending != []
    ensures 0 < n <= |pending|
  {
    1 + Following(pending[1..], |pending[0].events|, maxBatch)
  }

  function RecordCommit(c: Counters, received: nat, inserted: nat, maxSeq: Option<nat>): Counters {
    Counters(
      if maxSeq.Some? && maxSeq.value > c.committedSeq then maxSeq.value else c.committedSeq,
      c.totalInserted + inserted,
      c.totalDuplicates + received - inserted,
      c.totalBatches + 1)
  }

  // ---- Queue arithmetic --------------------------------------------------------------------

  lemma {:induction false} SizeConcat(a: seq<Request>, b: seq<Request>)
    ensures Size(a + b) == Size(a) + Size(b)
  {
    if a == [] {
      assert a + b == b;
    } else {
      assert (a + b)[0] == a[0] && (a + b)[1..] == a[1..] + b;
      SizeConcat(a[1..], b);
    }
  }

  lemma {:induction false} EventsConcat(a: seq<Request>, b: seq<Request>)
    ensures EventsOf(a + b) == EventsOf(a) + EventsOf(b)
  {
    if a == [] {
      assert a + b == b;
    } else {
      assert (a + b)[0] == a[0] && (a + b)[1..] == a[1..] + b;
      EventsConcat(a[1..], b);
    }
  }

  lemma {:induction false} EventsSize(rs: seq<Request>)
    ensures |EventsOf(rs)| == Size(rs)
  {
    if rs != [] {
      EventsSize(rs[1..]);
    }
  }

  /** Taking `m` whole requests after `size` events: they fit, and one more would not. */
  lemma {:induction false} FollowingMaximal(pending: seq<Request>, size: nat, maxBatch: nat)
    ensures var n := Following(pending, size, maxBatch);
            && (n > 0 ==> size + Size(pending[..n]) <= maxBatch)
            && (n < |pending| ==> size + Size(pending[..n + 1]) > maxBatch)
    decreases |pending|
  {
    if pending != [] {
      var first := |pending[0].events|;
      if size + first <= maxBatch {
        FollowingMaximal(pending[1..], size + first, maxBatch);
        var n := Following(pending[1..], size + first, maxBatch);
        assert pending[..n + 1] == [pending[0]] + pending[1..][..n];
        SizeConcat([pending[0]], pending[1..][..n]);
        if n + 1 < |pending| {
          assert pending[..n + 2] == [pending[0]] + pending[1..][..n + 1];
          SizeConcat([pending[0]], pending[1..][..n + 1]);
        }
        assert Size([pending[0]]) == first + Size([]);
      } else {
        assert pending[..1] == [pending[0]] && Size([pending[0]]) == first + Size([]);
      }
    }
  }

  /** A batch is a maximal prefix of whole requests: within the cap unless it is one request,
      and the next request would exceed the cap. */
  lemma BatchIsMaximalPrefix(pending: seq<Request>, maxBatch: nat)
    requires pending != []
    ensures var n := BatchLength(pending, maxBatch);
            && (n == 1 || Size(pending[..n]) <= maxBatch)
            && (n < |pending| ==> Size(pending[..n + 1]) > maxBatch)
  {
    var first, rest := |pending[0].events|, pending[1..];
    var m := Following(rest, first, maxBatch);
    FollowingMaximal(rest, first, maxBatch);
    assert pending[..m + 1] == [pending[0]] + rest[..m];
    SizeConcat([pending[0]], rest[..m]);
    if m + 1 < |pending| {
      assert pending[..m + 2] == [pending[0]] + rest[..m + 1];
      SizeConcat([pending[0]], rest[..m + 1]);
    }
    assert Size([pending[0]]) == first + Size([]);
    hide Following, Size;
  }

  // ---- The transition system ---------------------------------------------------------------

  /** Where the loop task stands: about to run from the top of the loop, waiting on the cleared
      flag, inside `_write_until_success`, returned, or cancelled by a shutdown timeout. */
  datatype Phase = AtTop | Parked | Writing(items: seq<Request>) | Exited | TimedOut(items: seq<Request>)

  /** A completed request and the watermark its response can report. */
  datatype Receipt = Receipt(request: Request, through: nat)

  /** `accepted`, `receipts`, `failed` and `started` are history. `started` is the log of the
      process start. */
  datatype State = State(
    queue: Queue,
    counters: Counters,
    phase: Phase,
    machine: Machine,
    accepted: seq<Request>,
    receipts: seq<Receipt>,
    failed: seq<Request>,
    started: seq<Row>)

  datatype Action =
    | DoSubmit(request: Request)
    | DoTurn
    | DoStatement(link: Link)
    | DoFinish
    | DoMaintain(store: Store)
    | DoStop
    | DoTimeout

  function Initial(store: Store): State {
    State(Queue([], 0, false, false), Counters(0, 0, 0, 0), AtTop,
          Machine(store, Open(store, [], []), []), [], [], [], store.log)
  }

  /** From the top of the loop to its next `await`. */
  function Top(lim: Limits, s: State): State {
    if s.queue.pending == [] then
      if s.queue.stopping then s.(phase := Exited)
      else s.(phase := Parked, queue := s.queue.(hasWork := false))
    else
      var n := BatchLength(s.queue.pending, lim.maxBatch);
      var items := s.queue.pending[..n];
      s.(phase := Writing(items),
         queue := s.queue.(pending := s.queue.pending[n..]),
         machine := Machine(s.machine.store, Open(s.machine.store, s.machine.dead, EventsOf(items)), s.machine.dead))
  }

  function Receipts(items: seq<Request>, through: nat): (rs: seq<Receipt>)
    ensures |rs| == |items|
    ensures forall i :: 0 <= i < |items| ==> rs[i] == Receipt(items[i], through)
  {
    seq(|items|, i requires 0 <= i < |items| => Receipt(items[i], through))
  }

  function Requests(rs: seq<Receipt>): (items: seq<Request>)
    ensures |rs| == |items|
    ensures forall i :: 0 <= i < |items| ==> items[i] == rs[i].request
  {
    seq(|rs|, i requires 0 <= i < |rs| => rs[i].request)
  }

  /** The batch is written: counters first, then the futures, in order. */
  function Complete(s: State): State
    requires s.phase.Writing?
  {
    var w := s.machine.work;
    var c := RecordCommit(s.counters, |w.batch|, w.tally.inserted, w.tally.maxSeq);
    s.(queue := s.queue.(queuedEvents := s.queue.queuedEvents - |w.batch|),
       counters := c,
       phase := AtTop,
       receipts := s.receipts + Receipts(s.phase.items, c.committedSeq))
  }

  /** What the retention job may do to the tables between two statements. */
  ghost predicate Maintained(t: Store, t': Store) {
    Sound(t') && t'.log == t.log && t'.nextSeq == t.nextSeq
  }

  ghost predicate Enabled(s: State, a: Action) {
    match a
    case DoSubmit(r) => true
    case DoTurn => s.phase.AtTop? || (s.phase.Parked? && s.queue.hasWork)
    case DoStatement(link) =>
      s.phase.Writing? && s.machine.work.todo != []
    case DoFinish => s.phase.Writing? && s.machine.work.todo == []
    case DoMaintain(t) => Maintained(s.machine.store, t)
    case DoStop => true
    case DoTimeout => s.queue.stopping && !s.phase.Exited? && !s.phase.TimedOut?
  }

  /** A statement is issued before retention has passed an event of its batch. */
  ghost predicate OnTime(s: State, a: Action) {
    a.DoStatement? ==> Timely(s.machine.store, s.machine.work.batch)
  }

  function Step(refused: Filter, lim: Limits, s: State, a: Action): State {
    match a
    case DoSubmit(r) =>
      var (q, outcome) := Submit(lim, s.queue, r);
      s.(queue := q, accepted := if outcome.Queued? then s.accepted + [r] else s.accepted)
    case DoTurn => Top(lim, s)
    case DoStatement(link) =>
      if s.machine.work.todo == [] then s else s.(machine := Statement(refused, s.machine, link))
    case DoFinish => if s.phase.Writing? then Top(lim, Complete(s)) else s
    case DoMaintain(t) => s.(machine := s.machine.(store := t))
    case DoStop => s.(queue := s.queue.(stopping := true, hasWork := true))
    case DoTimeout =>
      s.(phase := TimedOut(if s.phase.Writing? then s.phase.items else []), failed := s.failed + s.queue.pending)
  }

  /** Requests whose events are being written, or were when the loop was cancelled. */
  function InFlight(p: Phase): seq<Request> {
    if p.Writing? || p.TimedOut? then p.items else []
  }

  // ---- Queue safety ------------------------------------------------------------------------

  ghost predicate QueueInv(lim: Limits, s: State) {
    && s.queue.queuedEvents == Size(InFlight(s.phase)) + Size(s.queue.pending)
    && s.queue.queuedEvents <= lim.maxQueued
    && (forall i :: 0 <= i < |s.queue.pending| ==> s.queue.pending[i].events != [])
    && (s.phase.Writing? ==> s.phase.items != [] && s.phase.items[0].events != [])
    && (s.phase.Writing? ==> s.machine.work.batch == EventsOf(s.phase.items))
  }

  /** Completion is in submission order, and nothing accepted is forgotten. */
  ghost predicate FifoInv(s: State) {
    s.accepted == Requests(s.receipts) + InFlight(s.phase) + s.queue.pending
  }

  /** The loop never sleeps on a cleared flag while there is something to do. */
  ghost predicate AwakeInv(s: State) {
    && (s.phase.Parked? && !s.queue.hasWork ==> s.queue.pending == [] && !s.queue.stopping)
    && (s.phase.Exited? ==> s.queue.stopping && s.queue.pending == [])
  }

  lemma TakeKeepsSize(lim: Limits, s: State)
    requires QueueInv(lim, s) && InFlight(s.phase) == [] && s.queue.pending != []
    ensures QueueInv(lim, Top(lim, s))
  {
    var n := BatchLength(s.queue.pending, lim.maxBatch);
    assert s.queue.pending == s.queue.pending[..n] + s.queue.pending[n..];
    SizeConcat(s.queue.pending[..n], s.queue.pending[n..]);
    assert Size([]) == 0;
    hide Size, EventsOf, BatchLength;
  }

  lemma TakeKeepsFifo(lim: Limits, s: State)
    requires FifoInv(s) && InFlight(s.phase) == [] && s.queue.pending != []
    ensures FifoInv(Top(lim, s))
  {
    var n := BatchLength(s.queue.pending, lim.maxBatch);
    var done, a, b := Requests(s.receipts), s.queue.pending[..n], s.queue.pending[n..];
    hide Size, EventsOf, BatchLength, Requests;
    assert s.queue.pending == a + b;
    assert done + [] + (a + b) == done + a + b;
  }

  lemma TopKeepsQueue(lim: Limits, s: State)
    requires QueueInv(lim, s) && FifoInv(s) && InFlight(s.phase) == []
    ensures QueueInv(lim, Top(lim, s)) && FifoInv(Top(lim, s)) && AwakeInv(Top(lim, s))
  {
    hide Size, EventsOf, BatchLength, Requests;
    if s.queue.pending != [] {
      TakeKeepsSize(lim, s);
      TakeKeepsFifo(lim, s);
      hide QueueInv, FifoInv;
    }
  }

  lemma CompleteKeepsQueue(lim: Limits, s: State)
    requires QueueInv(lim, s) && FifoInv(s) && s.phase.Writing?
    ensures QueueInv(lim, Complete(s)) && FifoInv(Complete(s)) && InFlight(Complete(s).phase) == []
  {
    EventsSize(s.phase.items);
    var c := Complete(s);
    var added := Receipts(s.phase.items, c.counters.committedSeq);
    assert Requests(s.receipts + added) == Requests(s.receipts) + s.phase.items;
    assert c.accepted == Requests(c.receipts) + [] + c.queue.pending;
    assert Size([]) == 0;
    hide Size, EventsOf, RecordCommit;
  }

  lemma SubmitKeepsQueue(lim: Limits, s: State, r: Request, s': State)
    requires QueueInv(lim, s) && FifoInv(s) && AwakeInv(s)
    requires !s.queue.stopping && r.events != [] && s.queue.queuedEvents + |r.events| <= lim.maxQueued
    requires s' == s.(queue := Queue(s.queue.pending + [r], s.queue.queuedEvents + |r.events|, true, s.queue.stopping),
                      accepted := s.accepted + [r])
    ensures QueueInv(lim, s') && FifoInv(s') && AwakeInv(s')
  {
    SizeConcat(s.queue.pending, [r]);
    assert Size([r]) == |r.events| + Size([]);
    var before := Requests(s.receipts) + InFlight(s.phase);
    assert before + s.queue.pending + [r] == before + (s.queue.pending + [r]);
    hide Size, EventsOf;
  }

  /** Every step keeps the queue accounting, the order, and the wake-up discipline. */
  lemma QueueKept(refused: Filter, lim: Limits, s: State, a: Action)
    requires QueueInv(lim, s) && FifoInv(s) && AwakeInv(s) && Enabled(s, a)
    ensures var s' := Step(refused, lim, s, a); QueueInv(lim, s') && FifoInv(s') && AwakeInv(s')
  {
    match a
    case DoSubmit(r) =>
      if !s.queue.stopping && r.events != [] && s.queue.queuedEvents + |r.events| <= lim.maxQueued {
        SubmitKeepsQueue(lim, s, r, Step(refused, lim, s, a));
      }
    case DoTurn => TopKeepsQueue(lim, s);
    case DoStatement(link) =>
      StatementFrame(refused, s.machine, link);
      hide Size, EventsOf, Statement;
    case DoFinish =>
      CompleteKeepsQueue(lim, s);
      hide Size, EventsOf;
      TopKeepsQueue(lim, Complete(s));
    case DoMaintain(t) =>
    case DoStop =>
    case DoTimeout =>
  }
}
