/** Whole runs of the writer: every accepted event is counted exactly once, in the order the
    requests were accepted, and nothing accepted is forgotten. */
module ExactlyOnce {
  import opened Events
  import opened Rollup
  import opened Tables
  import opened Bisection
  import opened Writer

  function Run(refused: Filter, lim: Limits, s: State, actions: seq<Action>): State
    decreases |actions|
  {
    if actions == [] then s else Run(refused, lim, Step(refused, lim, s, actions[0]), actions[1..])
  }

  ghost predicate Legal(refused: Filter, lim: Limits, s: State, actions: seq<Action>)
    decreases |actions|
  {
    actions != [] ==>
      Enabled(s, actions[0]) && Legal(refused, lim, Step(refused, lim, s, actions[0]), actions[1..])
  }

  /** Every statement of the run is issued before retention has passed an event of its batch. Without
      retention that is always so, and otherwise when the batch was validated recently enough. */
  ghost predicate Prompt(refused: Filter, lim: Limits, s: State, actions: seq<Action>)
    decreases |actions|
  {
    actions != [] ==>
      OnTime(s, actions[0]) && Prompt(refused, lim, Step(refused, lim, s, actions[0]), actions[1..])
  }

  // ---- The content of the history ---------------------------------------------------------

  /** `started`, then the acceptable events of `es` whose keys were not there, each once. */
  function Expected(refused: Filter, started: seq<Row>, es: seq<Event>): seq<Event> {
    var base := Contents(started);
    base + News(Keys(base), Good(refused, es))
  }

  function Completed(s: State): seq<Event> {
    EventsOf(Requests(s.receipts))
  }

  lemma ExpectedConcat(refused: Filter, started: seq<Row>, a: seq<Event>, b: seq<Event>)
    ensures var c := Expected(refused, started, a);
            Expected(refused, started, a + b) == c + News(Keys(c), Good(refused, b))
  {
    var base := Contents(started);
    var ga, gb := Good(refused, a), Good(refused, b);
    GoodConcat(refused, a, b);
    NewsConcat(Keys(base), ga, gb);
    NewsKeys(Keys(base), ga);
    KeysConcat(base, News(Keys(base), ga));
    hide Good, News, Keys, Contents;
    Associate(base, News(Keys(base), ga), News(Keys(base) + Keys(ga), gb));
  }

  lemma ExpectedKeys(refused: Filter, started: seq<Row>, es: seq<Event>, e: Event)
    requires e in es && !refused(e)
    ensures KeyOf(e) in Keys(Expected(refused, started, es))
  {
    var base := Contents(started);
    FilterMembers(refused, es);
    NewsKeys(Keys(base), Good(refused, es));
    KeysConcat(base, News(Keys(base), Good(refused, es)));
    assert KeyOf(e) in Keys(Good(refused, es));
  }

  /** What the tables hold, phase by phase. */
  ghost predicate DataInv(refused: Filter, s: State) {
    && Sound(s.machine.store)
    && s.started <= s.machine.store.log
    && (match s.phase
        case Writing(items) =>
          WorkInv(refused, Expected(refused, s.started, Completed(s)), s.machine)
        case TimedOut(items) =>
          exists k: nat :: k <= |EventsOf(items)|
            && Contents(s.machine.store.log) == Expected(refused, s.started, Completed(s) + EventsOf(items)[..k])
        case _ =>
          Contents(s.machine.store.log) == Expected(refused, s.started, Completed(s)))
  }

  /** The dead letters are refused events, and every refused event of a completed request is
      among them. */
  ghost predicate DeadInv(refused: Filter, s: State) {
    && (forall e :: e in s.machine.dead ==> refused(e))
    && (forall e :: e in Completed(s) && refused(e) ==> e in s.machine.dead)
  }

  lemma TopKeepsData(refused: Filter, lim: Limits, s: State)
    requires QueueInv(lim, s)
    requires DataInv(refused, s) && DeadInv(refused, s) && (s.phase.AtTop? || s.phase.Parked?)
    ensures DataInv(refused, Top(lim, s)) && DeadInv(refused, Top(lim, s))
  {
    if s.queue.pending != [] {
      var items := s.queue.pending[..BatchLength(s.queue.pending, lim.maxBatch)];
      assert EventsOf(items) != [] by {
        assert items[0] == s.queue.pending[0];
      }
      OpenInv(refused, s.machine.store, s.machine.dead, EventsOf(items));
    }
    hide Sound, Expected, WorkInv, EventsOf, Open, BatchLength;
  }

  lemma CompletedAfter(s: State)
    requires s.phase.Writing?
    ensures Completed(Complete(s)) == Completed(s) + EventsOf(s.phase.items)
  {
    var c := Complete(s);
    var added := Receipts(s.phase.items, c.counters.committedSeq);
    assert Requests(s.receipts + added) == Requests(s.receipts) + s.phase.items;
    EventsConcat(Requests(s.receipts), s.phase.items);
  }

  lemma CompleteKeepsData(refused: Filter, lim: Limits, s: State)
    requires QueueInv(lim, s)
    requires DataInv(refused, s) && DeadInv(refused, s) && s.phase.Writing? && s.machine.work.todo == []
    ensures DataInv(refused, Complete(s)) && DeadInv(refused, Complete(s))
  {
    var batch := s.machine.work.batch;
    CompletedAfter(s);
    FinishedBatch(refused, Expected(refused, s.started, Completed(s)), s.machine);
    ExpectedConcat(refused, s.started, Completed(s), batch);
    FilterMembers(refused, batch);
    assert forall e :: e in AttemptDead(s.machine) ==> e in s.machine.dead;
    hide Sound, Expected, WorkInv, Good, Bad, News, EventsOf, RecordCommit, AttemptDead;
  }

  lemma StatementDead(refused: Filter, m: Machine, link: Link)
    requires m.work.todo != [] && (forall e :: e in m.dead ==> refused(e))
    ensures forall e :: e in Statement(refused, m, link).dead ==> refused(e)
  {
    var chunk := m.work.todo[0];
    assert |chunk| == 1 ==> chunk == [chunk[0]];
    hide InsertBatch, Advance, Restart, Split, MaxSeq;
  }

  lemma StatementKeepsData(refused: Filter, s: State, link: Link)
    requires DataInv(refused, s) && DeadInv(refused, s) && Enabled(s, DoStatement(link)) && OnTime(s, DoStatement(link))
    ensures var s' := s.(machine := Statement(refused, s.machine, link));
            DataInv(refused, s') && DeadInv(refused, s')
  {
    StatementKeeps(refused, Expected(refused, s.started, Completed(s)), s.machine, link);
    StatementFrame(refused, s.machine, link);
    StatementDead(refused, s.machine, link);
    var m := Statement(refused, s.machine, link);
    assert Sound(m.store);
    hide Sound, Expected, Statement, LogCounts, DeadCounts, WorkShape, Absorbed, Timely;
  }

  lemma MaintainKeepsData(refused: Filter, s: State, t: Store)
    requires DataInv(refused, s) && DeadInv(refused, s) && Maintained(s.machine.store, t)
    ensures var s' := s.(machine := s.machine.(store := t));
            DataInv(refused, s') && DeadInv(refused, s')
  {
    hide Sound, Expected, WorkShape, LogCounts, DeadCounts, Absorbed;
    if s.phase.Writing? {
      var base := Expected(refused, s.started, Completed(s));
      var k: nat :| |s.machine.work.behind| <= k && Absorbed(refused, base, s.machine.store.log, s.machine.work.batch, k);
    }
  }

  lemma TimeoutKeepsData(refused: Filter, lim: Limits, s: State)
    requires QueueInv(lim, s)
    requires DataInv(refused, s) && DeadInv(refused, s) && Enabled(s, DoTimeout)
    ensures var s' := Step(refused, lim, s, DoTimeout);
            DataInv(refused, s') && DeadInv(refused, s')
  {
    var done := Completed(s);
    if s.phase.Writing? {
      var base, batch := Expected(refused, s.started, done), s.machine.work.batch;
      var k: nat :| |s.machine.work.behind| <= k && Absorbed(refused, base, s.machine.store.log, batch, k);
      ExpectedConcat(refused, s.started, done, batch[..k]);
      assert k <= |EventsOf(s.phase.items)|;
    } else {
      assert EventsOf([])[..0] == [] && done + [] == done;
    }
  }

  ghost predicate Inv(refused: Filter, lim: Limits, s: State) {
    QueueInv(lim, s) && FifoInv(s) && AwakeInv(s) && DataInv(refused, s) && DeadInv(refused, s)
  }

  lemma StepKeepsInv(refused: Filter, lim: Limits, s: State, a: Action)
    requires Inv(refused, lim, s) && Enabled(s, a) && OnTime(s, a)
    ensures Inv(refused, lim, Step(refused, lim, s, a))
  {
    QueueKept(refused, lim, s, a);
    hide QueueInv, FifoInv, AwakeInv;
    match a
    case DoSubmit(r) => SubmitKeepsData(refused, lim, s, r);
    case DoTurn => TopKeepsData(refused, lim, s);
    case DoStatement(link) => StatementKeepsData(refused, s, link);
    case DoFinish => FinishKeepsData(refused, lim, s);
    case DoMaintain(t) => MaintainKeepsData(refused, s, t);
    case DoStop => hide Sound, WorkInv, Expected;
    case DoTimeout => TimeoutKeepsData(refused, lim, s);
  }

  lemma SubmitKeepsData(refused: Filter, lim: Limits, s: State, r: Request)
    requires DataInv(refused, s) && DeadInv(refused, s)
    ensures var s' := Step(refused, lim, s, DoSubmit(r)); DataInv(refused, s') && DeadInv(refused, s')
  {
    hide Sound, WorkInv, Expected, EventsOf;
  }

  lemma FinishKeepsData(refused: Filter, lim: Limits, s: State)
    requires QueueInv(lim, s) && FifoInv(s)
    requires DataInv(refused, s) && DeadInv(refused, s) && s.phase.Writing? && s.machine.work.todo == []
    ensures var s' := Step(refused, lim, s, DoFinish); DataInv(refused, s') && DeadInv(refused, s')
  {
    CompleteKeepsData(refused, lim, s);
    CompleteKeepsQueue(lim, s);
    var c := Complete(s);
    assert c.phase.AtTop?;
    hide DataInv, DeadInv, QueueInv, FifoInv, Complete;
    TopKeepsData(refused, lim, c);
  }

  lemma InitialInv(refused: Filter, lim: Limits, store: Store)
    requires Sound(store)
    ensures Inv(refused, lim, Initial(store))
  {
    var s := Initial(store);
    assert Completed(s) == [] && Requests([]) + [] + [] == [];
    var base := Contents(store.log);
    assert Expected(refused, store.log, []) == base + [] == base;
    hide Sound, Expected;
  }

  lemma {:induction false} RunKeepsInv(refused: Filter, lim: Limits, s: State, actions: seq<Action>)
    requires Inv(refused, lim, s) && Legal(refused, lim, s, actions) && Prompt(refused, lim, s, actions)
    ensures Inv(refused, lim, Run(refused, lim, s, actions))
    decreases |actions|
  {
    if actions != [] {
      StepKeepsInv(refused, lim, s, actions[0]);
      hide Inv, Enabled, OnTime, Step;
      RunKeepsInv(refused, lim, Step(refused, lim, s, actions[0]), actions[1..]);
    }
  }

  lemma {:induction false} RunKeepsStart(refused: Filter, lim: Limits, s: State, actions: seq<Action>)
    ensures Run(refused, lim, s, actions).started == s.started
    decreases |actions|
  {
    if actions != [] {
      var s' := Step(refused, lim, s, actions[0]);
      assert s'.started == s.started;
      hide Step;
      RunKeepsStart(refused, lim, s', actions[1..]);
    }
  }

  // ---- Main results ------------------------------------------------------------------------

  /** Exactly-once counting, for every run whose statements retention has not overtaken: submissions,
      group commits, bisections, lost requests, lost replies, replayed halves, retention and shutdown
      in any order. When no batch is in flight the history is what was there at the start followed by
      the first occurrence of every acceptable event of the completed requests, in the order those
      requests were accepted; no key occurs twice; and every bucket retention has not touched is the
      recompute over that history. */
  lemma RunCountsExactlyOnce(refused: Filter, lim: Limits, store: Store, actions: seq<Action>)
    requires Sound(store) && Legal(refused, lim, Initial(store), actions) && Prompt(refused, lim, Initial(store), actions)
    ensures var s := Run(refused, lim, Initial(store), actions);
            && Sound(s.machine.store)
            && DistinctKeys(Contents(s.machine.store.log))
            && Agrees(s.machine.store.minute, Minute, Contents(s.machine.store.log), s.machine.store.minuteHorizon)
            && Agrees(s.machine.store.hour, Hour, Contents(s.machine.store.log), s.machine.store.hourHorizon)
            && (!s.phase.Writing? && !s.phase.TimedOut? ==>
                Contents(s.machine.store.log) == Expected(refused, store.log, Completed(s)))
  {
    InitialInv(refused, lim, store);
    RunKeepsInv(refused, lim, Initial(store), actions);
    RunKeepsStart(refused, lim, Initial(store), actions);
    SoundTables(Run(refused, lim, Initial(store), actions).machine.store);
    hide Sound, Expected, Run, QueueInv, AwakeInv, DeadInv, WorkInv;
  }

  lemma SoundTables(t: Store)
    requires Sound(t)
    ensures DistinctKeys(Contents(t.log))
    ensures Agrees(t.minute, Minute, Contents(t.log), t.minuteHorizon) && Agrees(t.hour, Hour, Contents(t.log), t.hourHorizon)
  {
    hide Agrees, DistinctKeys, Contents, Routed, LiveSinceHorizon, Ordered;
  }

  /** No cutoff has ever been applied, and the events table holds everything ever inserted. */
  ghost predicate Untouched(t: Store) {
    t.rawHorizon.Never? && t.minuteHorizon.Never? && t.hourHorizon.Never? && t.rows == t.log
  }

  lemma StatementKeepsUntouched(refused: Filter, m: Machine, link: Link)
    requires Untouched(m.store) && m.work.todo != []
    ensures Untouched(Statement(refused, m, link).store)
  {
    hide Inserted, GroupBy, Upsert, AllAccepted, MaxSeq;
  }

  /** Without retention every statement is on time. */
  lemma {:induction false} RunKeepsUntouched(refused: Filter, lim: Limits, s: State, actions: seq<Action>)
    requires Untouched(s.machine.store) && Legal(refused, lim, s, actions)
    requires forall i :: 0 <= i < |actions| ==> !actions[i].DoMaintain?
    ensures Untouched(Run(refused, lim, s, actions).machine.store) && Prompt(refused, lim, s, actions)
    decreases |actions|
  {
    if actions != [] {
      var s' := Step(refused, lim, s, actions[0]);
      assert OnTime(s, actions[0]);
      assert Untouched(s'.machine.store) by {
        if actions[0].DoStatement? {
          StatementKeepsUntouched(refused, s.machine, actions[0].link);
        }
        hide Untouched, Statement, EventsOf;
      }
      hide Step, Untouched, OnTime, Enabled;
      RunKeepsUntouched(refused, lim, s', actions[1..]);
    }
  }

  /** Without retention both tables are, at every moment of every run that starts from right tables,
      exactly the from-scratch grouping over the events table. */
  lemma TablesEqualRebuild(refused: Filter, lim: Limits, store: Store, actions: seq<Action>)
    requires Sound(store) && Untouched(store) && Legal(refused, lim, Initial(store), actions)
    requires forall i :: 0 <= i < |actions| ==> !actions[i].DoMaintain?
    ensures var t := Run(refused, lim, Initial(store), actions).machine.store;
            && t.minute == GroupBy(Minute, Contents(t.rows))
            && t.hour == GroupBy(Hour, Contents(t.rows))
            && t.rows == t.log
  {
    RunKeepsUntouched(refused, lim, Initial(store), actions);
    RunCountsExactlyOnce(refused, lim, store, actions);
    var t := Run(refused, lim, Initial(store), actions).machine.store;
    hide Run, Legal, Prompt, GroupBy, Sound, Contents, Expected, DistinctKeys;
    SameTables(t.minute, GroupBy(Minute, Contents(t.log)));
    SameTables(t.hour, GroupBy(Hour, Contents(t.log)));
  }

  /** Queue safety, for every run: the counter is what is pending and in flight and never exceeds the
      cap; requests complete in the order they were accepted and none is forgotten; the loop neither
      sleeps on a cleared flag with work to do nor exits before it has drained; and inserted plus
      duplicate events are the events of the completed requests. */
  lemma RunKeepsQueueSafe(refused: Filter, lim: Limits, store: Store, actions: seq<Action>)
    requires Legal(refused, lim, Initial(store), actions)
    ensures var s := Run(refused, lim, Initial(store), actions);
            && s.queue.queuedEvents == Size(InFlight(s.phase)) + Size(s.queue.pending) <= lim.maxQueued
            && s.accepted == Requests(s.receipts) + InFlight(s.phase) + s.queue.pending
            && (s.phase.Parked? && !s.queue.hasWork ==> s.queue.pending == [] && !s.queue.stopping)
            && (s.phase.Exited? ==> s.queue.stopping && s.queue.pending == [])
            && s.counters.totalInserted + s.counters.totalDuplicates == Size(Requests(s.receipts))
  {
    assert Requests([]) + [] + [] == [] && Requests([]) == [];
    RunKeepsQueue(refused, lim, Initial(store), actions);
    hide Run, Size;
  }

  /** The counters account for every event of every completed request. */
  ghost predicate Balanced(s: State) {
    s.counters.totalInserted + s.counters.totalDuplicates == Size(Requests(s.receipts))
  }

  lemma CompleteKeepsBalance(s: State)
    requires Balanced(s) && s.phase.Writing? && s.machine.work.batch == EventsOf(s.phase.items)
    ensures Balanced(Complete(s))
  {
    EventsSize(s.phase.items);
    var through := Complete(s).counters.committedSeq;
    assert Requests(s.receipts + Receipts(s.phase.items, through)) == Requests(s.receipts) + s.phase.items;
    hide Size, EventsOf;
    SizeConcat(Requests(s.receipts), s.phase.items);
  }

  lemma StepKeepsBalance(refused: Filter, lim: Limits, s: State, a: Action)
    requires QueueInv(lim, s) && Balanced(s) && Enabled(s, a)
    ensures Balanced(Step(refused, lim, s, a))
  {
    if a.DoFinish? {
      CompleteKeepsBalance(s);
      hide Complete;
    }
    hide Size, EventsOf, Statement, BatchLength;
  }

  lemma {:induction false} RunKeepsQueue(refused: Filter, lim: Limits, s: State, actions: seq<Action>)
    requires QueueInv(lim, s) && FifoInv(s) && AwakeInv(s) && Balanced(s) && Legal(refused, lim, s, actions)
    ensures var s' := Run(refused, lim, s, actions); QueueInv(lim, s') && FifoInv(s') && AwakeInv(s') && Balanced(s')
    decreases |actions|
  {
    if actions != [] {
      QueueKept(refused, lim, s, actions[0]);
      StepKeepsBalance(refused, lim, s, actions[0]);
      hide QueueInv, FifoInv, AwakeInv, Balanced, Enabled, Step;
      RunKeepsQueue(refused, lim, Step(refused, lim, s, actions[0]), actions[1..]);
    }
  }

  /** A future completes without error only after each of its events is stored or dead-lettered. */
  lemma CompletedMeansStoredOrDead(refused: Filter, lim: Limits, s: State, i: nat, e: Event)
    requires Inv(refused, lim, s) && i < |s.receipts| && e in s.receipts[i].request.events
    ensures !refused(e) ==> KeyOf(e) in Keys(Contents(s.machine.store.log))
    ensures refused(e) ==> e in s.machine.dead
  {
    InCompleted(s, i, e);
    if !refused(e) {
      match s.phase
      case Writing(items) =>
        var base := Expected(refused, s.started, Completed(s));
        var k: nat :| |s.machine.work.behind| <= k && Absorbed(refused, base, s.machine.store.log, s.machine.work.batch, k);
        ExpectedKeys(refused, s.started, Completed(s), e);
        KeysConcat(base, News(Keys(base), Good(refused, s.machine.work.batch[..k])));
      case TimedOut(items) =>
        var k: nat :| k <= |EventsOf(items)|
          && Contents(s.machine.store.log) == Expected(refused, s.started, Completed(s) + EventsOf(items)[..k]);
        ExpectedKeys(refused, s.started, Completed(s) + EventsOf(items)[..k], e);
      case _ =>
        ExpectedKeys(refused, s.started, Completed(s), e);
    }
  }

  lemma InCompleted(s: State, i: nat, e: Event)
    requires i < |s.receipts| && e in s.receipts[i].request.events
    ensures e in Completed(s)
  {
    InEventsOf(Requests(s.receipts), i, e);
  }

  lemma {:induction false} InEventsOf(rs: seq<Request>, i: nat, e: Event)
    requires i < |rs| && e in rs[i].events
    ensures e in EventsOf(rs)
  {
    if i > 0 {
      InEventsOf(rs[1..], i - 1, e);
    }
  }
}
