/** The writer beside a clock, the validator and the retention job. Requests are stamped with the time
    of their validation; retention acts by the clock. Writing within the allowed delay is what keeps
    retention from overtaking a statement. */
module Timed {
  import opened Events
  import opened Rollup
  import opened Tables
  import opened Bisection
  import opened Writer
  import opened ExactlyOnce
  import R = Retention

  /** `stamps[i]` is history: when the i-th accepted request was validated. */
  datatype World = World(clock: int, writer: State, stamps: seq<int>)

  datatype Move =
    | Tick(duration: nat)
    | Ingest(request: Request)
    | Serve(action: Action)
    | Maintain(job: R.Action)

  function BoundsAt(cfg: R.Config, clock: int): TimeBounds {
    TimeBounds(clock, cfg.maxFutureSkew, cfg.maxAge)
  }

  ghost predicate Valid(cfg: R.Config, clock: int, es: seq<Event>) {
    forall e :: e in es ==> WithinTimeBounds(e.occurredAt, BoundsAt(cfg, clock))
  }

  function Ledger(w: World): R.Ledger {
    R.Ledger(w.clock, w.writer.machine.store)
  }

  /** The requests in flight were validated at most `delay` ago. */
  ghost predicate InTime(cfg: R.Config, w: World) {
    forall i :: |w.writer.receipts| <= i < |w.writer.receipts| + |InFlight(w.writer.phase)| && i < |w.stamps|
      ==> w.clock <= w.stamps[i] + cfg.delay
  }

  ghost predicate TimedEnabled(cfg: R.Config, w: World, x: Move) {
    match x
    case Tick(_) => true
    case Ingest(r) => Valid(cfg, w.clock, r.events)
    case Serve(a) =>
      && !a.DoSubmit? && !a.DoMaintain? && Enabled(w.writer, a)
      && (a.DoStatement? ==> InTime(cfg, w))
    case Maintain(job) => !job.Tick? && !job.Write? && R.Enabled(cfg, Ledger(w), job)
  }

  /** The writer's action a move stands for; the clock is not the writer's business. */
  function Seen(cfg: R.Config, w: World, x: Move): seq<Action> {
    match x
    case Tick(_) => []
    case Ingest(r) => [DoSubmit(r)]
    case Serve(a) => [a]
    case Maintain(job) => [DoMaintain(R.Step(cfg, Ledger(w), job).store)]
  }

  function Stamped(lim: Limits, w: World, x: Move): seq<int> {
    if x.Ingest? && Submit(lim, w.writer.queue, x.request).1.Queued? then w.stamps + [w.clock] else w.stamps
  }

  function TimedStep(cfg: R.Config, refused: Filter, lim: Limits, w: World, x: Move): World {
    World(
      if x.Tick? then w.clock + x.duration else w.clock,
      Run(refused, lim, w.writer, Seen(cfg, w, x)),
      Stamped(lim, w, x))
  }

  function TimedRun(cfg: R.Config, refused: Filter, lim: Limits, w: World, xs: seq<Move>): World
    decreases |xs|
  {
    if xs == [] then w else TimedRun(cfg, refused, lim, TimedStep(cfg, refused, lim, w, xs[0]), xs[1..])
  }

  ghost predicate TimedLegal(cfg: R.Config, refused: Filter, lim: Limits, w: World, xs: seq<Move>)
    decreases |xs|
  {
    xs != [] ==>
      TimedEnabled(cfg, w, xs[0]) && TimedLegal(cfg, refused, lim, TimedStep(cfg, refused, lim, w, xs[0]), xs[1..])
  }

  // ---- Invariant -------------------------------------------------------------------------------

  /** Every accepted request was valid when it was stamped, and the clock has not gone back since. */
  ghost predicate StampInv(cfg: R.Config, w: World) {
    && |w.stamps| == |w.writer.accepted|
    && forall i :: 0 <= i < |w.stamps| ==> w.stamps[i] <= w.clock && Valid(cfg, w.stamps[i], w.writer.accepted[i].events)
  }

  ghost predicate TimedInv(cfg: R.Config, refused: Filter, lim: Limits, w: World) {
    && Inv(refused, lim, w.writer)
    && StampInv(cfg, w)
    && R.HorizonInv(cfg, Ledger(w))
  }

  lemma {:induction false} InSomeRequest(rs: seq<Request>, e: Event)
    requires e in EventsOf(rs)
    ensures exists i :: 0 <= i < |rs| && e in rs[i].events
  {
    if e in rs[0].events {
    } else {
      InSomeRequest(rs[1..], e);
      var i :| 0 <= i < |rs[1..]| && e in rs[1..][i].events;
      assert e in rs[i + 1].events;
    }
  }

  /** What is written in time, retention cannot have reached. */
  lemma InTimeIsOnTime(cfg: R.Config, lim: Limits, w: World, link: Link)
    requires cfg.delay <= R.Days(cfg.rawDays) - cfg.maxAge
    requires FifoInv(w.writer) && QueueInv(lim, w.writer) && StampInv(cfg, w) && R.HorizonInv(cfg, Ledger(w))
    requires w.writer.phase.Writing? && InTime(cfg, w)
    ensures OnTime(w.writer, DoStatement(link))
  {
    var s := w.writer;
    var items := s.phase.items;
    forall e | e in s.machine.work.batch ensures Kept(s.machine.store.rawHorizon, e.occurredAt) {
      InSomeRequest(items, e);
      var j :| 0 <= j < |items| && e in items[j].events;
      var i := |s.receipts| + j;
      assert s.accepted[i] == (Requests(s.receipts) + items + s.queue.pending)[i] == items[j];
      assert w.clock <= w.stamps[i] + cfg.delay && Valid(cfg, w.stamps[i], s.accepted[i].events);
      hide R.Days, EventsOf, Size;
      assert w.clock - R.Days(cfg.rawDays) <= e.occurredAt;
    }
  }

  lemma MaintainIsMaintained(cfg: R.Config, lim: Limits, w: World, job: R.Action)
    requires Sound(w.writer.machine.store) && R.HorizonInv(cfg, Ledger(w))
    requires cfg.delay <= R.Days(cfg.rawDays) - cfg.maxAge
    requires !job.Tick? && !job.Write? && R.Enabled(cfg, Ledger(w), job)
    ensures Maintained(w.writer.machine.store, R.Step(cfg, Ledger(w), job).store)
    ensures R.HorizonInv(cfg, R.Step(cfg, Ledger(w), job)) && R.Step(cfg, Ledger(w), job).clock == w.clock
  {
    R.StepKeepsSound(cfg, Ledger(w), job);
    R.StepKeepsHorizon(cfg, Ledger(w), job);
    hide Sound, R.HorizonInv, R.Enabled, R.Without, R.RowsOfDays, R.Refuses, Raise, R.Days;
  }

  lemma OneAction(refused: Filter, lim: Limits, s: State, a: Action)
    ensures Run(refused, lim, s, [a]) == Step(refused, lim, s, a)
    ensures Legal(refused, lim, s, [a]) <==> Enabled(s, a)
    ensures Prompt(refused, lim, s, [a]) <==> OnTime(s, a)
  {
    assert [a][1..] == [];
    var s' := Step(refused, lim, s, a);
    hide Step, Enabled, OnTime;
    assert Run(refused, lim, s', []) == s' && Legal(refused, lim, s', []) && Prompt(refused, lim, s', []);
  }

  /** Accepted requests are only appended, and only by a submission that is queued. */
  lemma StepAccepts(refused: Filter, lim: Limits, s: State, a: Action)
    ensures Step(refused, lim, s, a).accepted
         == s.accepted + if a.DoSubmit? && Submit(lim, s.queue, a.request).1.Queued? then [a.request] else []
    ensures !a.DoMaintain? && !a.DoStatement? ==>
              Step(refused, lim, s, a).machine.store == s.machine.store
  {
    hide Statement, BatchLength, EventsOf;
  }

  lemma StatementKeepsHorizon(cfg: R.Config, refused: Filter, m: Machine, link: Link, clock: int)
    requires m.work.todo != [] && R.HorizonInv(cfg, R.Ledger(clock, m.store))
    ensures R.HorizonInv(cfg, R.Ledger(clock, Statement(refused, m, link).store))
  {
    StatementFrame(refused, m, link);
    hide Statement, R.Days;
  }

  /** What the writer sees of a move is one of its own steps, and on time. */
  lemma MoveIsPrompt(cfg: R.Config, refused: Filter, lim: Limits, w: World, x: Move)
    requires cfg.delay <= R.Days(cfg.rawDays) - cfg.maxAge
    requires TimedInv(cfg, refused, lim, w) && TimedEnabled(cfg, w, x)
    ensures Legal(refused, lim, w.writer, Seen(cfg, w, x)) && Prompt(refused, lim, w.writer, Seen(cfg, w, x))
    ensures Inv(refused, lim, TimedStep(cfg, refused, lim, w, x).writer)
  {
    if !x.Tick? {
      var a := Seen(cfg, w, x)[0];
      assert Enabled(w.writer, a) && OnTime(w.writer, a) by {
        if x.Maintain? {
          assert Sound(w.writer.machine.store);
          MaintainIsMaintained(cfg, lim, w, x.job);
        } else if a.DoStatement? {
          InTimeIsOnTime(cfg, lim, w, a.link);
        }
        hide Inv, StampInv, R.HorizonInv, R.Step, InTime, Sound, Timely;
      }
      OneAction(refused, lim, w.writer, a);
      hide Inv, StampInv, Enabled, OnTime, Step, R.HorizonInv, R.Step;
      StepKeepsInv(refused, lim, w.writer, a);
    }
  }

  lemma MoveKeepsStamps(cfg: R.Config, refused: Filter, lim: Limits, w: World, x: Move)
    requires StampInv(cfg, w) && TimedEnabled(cfg, w, x)
    ensures StampInv(cfg, TimedStep(cfg, refused, lim, w, x))
  {
    if !x.Tick? {
      var a := Seen(cfg, w, x)[0];
      OneAction(refused, lim, w.writer, a);
      StepAccepts(refused, lim, w.writer, a);
    }
    hide Run, Step, Submit, Valid, R.Step, R.Enabled, Enabled;
  }

  lemma MoveKeepsHorizon(cfg: R.Config, refused: Filter, lim: Limits, w: World, x: Move)
    requires cfg.delay <= R.Days(cfg.rawDays) - cfg.maxAge
    requires TimedInv(cfg, refused, lim, w) && TimedEnabled(cfg, w, x)
    ensures R.HorizonInv(cfg, Ledger(TimedStep(cfg, refused, lim, w, x)))
  {
    match x {
      case Tick(_) =>
        hide Inv, StampInv, R.Days;
      case Maintain(job) =>
        assert Sound(w.writer.machine.store);
        MaintainIsMaintained(cfg, lim, w, job);
        OneAction(refused, lim, w.writer, Seen(cfg, w, x)[0]);
        hide Inv, StampInv, R.HorizonInv, R.Step, Run, Maintained;
      case Ingest(r) =>
        OneAction(refused, lim, w.writer, DoSubmit(r));
        StepAccepts(refused, lim, w.writer, DoSubmit(r));
        hide Inv, StampInv, R.HorizonInv, Run;
      case Serve(a) =>
        OneAction(refused, lim, w.writer, a);
        StepAccepts(refused, lim, w.writer, a);
        if a.DoStatement? {
          StatementKeepsHorizon(cfg, refused, w.writer.machine, a.link, w.clock);
        }
        hide Inv, StampInv, R.HorizonInv, Run, Statement, EventsOf, BatchLength;
    }
  }

  lemma MoveKeepsInv(cfg: R.Config, refused: Filter, lim: Limits, w: World, x: Move)
    requires cfg.delay <= R.Days(cfg.rawDays) - cfg.maxAge
    requires TimedInv(cfg, refused, lim, w) && TimedEnabled(cfg, w, x)
    ensures TimedInv(cfg, refused, lim, TimedStep(cfg, refused, lim, w, x))
  {
    MoveIsPrompt(cfg, refused, lim, w, x);
    MoveKeepsStamps(cfg, refused, lim, w, x);
    MoveKeepsHorizon(cfg, refused, lim, w, x);
    hide Inv, StampInv, R.HorizonInv, TimedStep, TimedEnabled, Seen, Legal, Prompt;
  }

  // ---- Timed runs are prompt runs of the writer --------------------------------------------------

  /** What the writer sees of a run. */
  function SeenRun(cfg: R.Config, refused: Filter, lim: Limits, w: World, xs: seq<Move>): seq<Action>
    decreases |xs|
  {
    if xs == [] then []
    else Seen(cfg, w, xs[0]) + SeenRun(cfg, refused, lim, TimedStep(cfg, refused, lim, w, xs[0]), xs[1..])
  }

  lemma {:induction false} RunConcat(refused: Filter, lim: Limits, s: State, a: seq<Action>, b: seq<Action>)
    ensures Run(refused, lim, s, a + b) == Run(refused, lim, Run(refused, lim, s, a), b)
    ensures Legal(refused, lim, s, a + b) <==> Legal(refused, lim, s, a) && Legal(refused, lim, Run(refused, lim, s, a), b)
    ensures Prompt(refused, lim, s, a + b) <==> Prompt(refused, lim, s, a) && Prompt(refused, lim, Run(refused, lim, s, a), b)
    decreases |a|
  {
    if a == [] {
      assert a + b == b;
    } else {
      assert (a + b)[0] == a[0] && (a + b)[1..] == a[1..] + b;
      hide Step, Enabled, OnTime;
      RunConcat(refused, lim, Step(refused, lim, s, a[0]), a[1..], b);
    }
  }

  /** Retention never overtakes a statement when batches are written within the allowed delay, so
      everything proved of prompt runs of the writer holds of every timed run. */
  lemma {:induction false} TimedRunsArePrompt(cfg: R.Config, refused: Filter, lim: Limits, w: World, xs: seq<Move>)
    requires cfg.delay <= R.Days(cfg.rawDays) - cfg.maxAge
    requires TimedInv(cfg, refused, lim, w) && TimedLegal(cfg, refused, lim, w, xs)
    ensures var actions := SeenRun(cfg, refused, lim, w, xs);
            && Legal(refused, lim, w.writer, actions) && Prompt(refused, lim, w.writer, actions)
            && TimedRun(cfg, refused, lim, w, xs).writer == Run(refused, lim, w.writer, actions)
    ensures TimedInv(cfg, refused, lim, TimedRun(cfg, refused, lim, w, xs))
    decreases |xs|
  {
    if xs != [] {
      var w' := TimedStep(cfg, refused, lim, w, xs[0]);
      MoveIsPrompt(cfg, refused, lim, w, xs[0]);
      MoveKeepsInv(cfg, refused, lim, w, xs[0]);
      assert w'.writer == Run(refused, lim, w.writer, Seen(cfg, w, xs[0]));
      hide TimedInv, TimedEnabled, TimedStep, Seen, Run, Legal, Prompt;
      TimedRunsArePrompt(cfg, refused, lim, w', xs[1..]);
      RunConcat(refused, lim, w.writer, Seen(cfg, w, xs[0]), SeenRun(cfg, refused, lim, w', xs[1..]));
    }
  }

  function Elapsed(xs: seq<Move>): nat {
    if xs == [] then 0 else (if xs[0].Tick? then xs[0].duration else 0) + Elapsed(xs[1..])
  }

  /** The clock of a run is where it began and what has passed since; it only ever moves on its own. */
  lemma {:induction false} ClockRuns(cfg: R.Config, refused: Filter, lim: Limits, w: World, xs: seq<Move>)
    ensures TimedRun(cfg, refused, lim, w, xs).clock == w.clock + Elapsed(xs)
    decreases |xs|
  {
    if xs != [] {
      var w' := TimedStep(cfg, refused, lim, w, xs[0]);
      assert w'.clock == w.clock + if xs[0].Tick? then xs[0].duration else 0;
      hide TimedStep;
      ClockRuns(cfg, refused, lim, w', xs[1..]);
    }
  }

  function Begin(clock: int, store: Store): World {
    World(clock, Writer.Initial(store), [])
  }

  lemma BeginIsInv(cfg: R.Config, refused: Filter, lim: Limits, clock: int, store: Store)
    requires Sound(store) && R.HorizonInv(cfg, R.Ledger(clock, store))
    ensures TimedInv(cfg, refused, lim, Begin(clock, store))
  {
    InitialInv(refused, lim, store);
    hide Inv, R.HorizonInv;
  }

  /** Exactly-once counting with the clock: for every run of validated requests, writes within the delay,
      failures, retention steps at any time, and shutdown. */
  lemma TimedRunCountsExactlyOnce(cfg: R.Config, refused: Filter, lim: Limits, clock: int, store: Store, xs: seq<Move>)
    requires cfg.delay <= R.Days(cfg.rawDays) - cfg.maxAge
    requires Sound(store) && R.HorizonInv(cfg, R.Ledger(clock, store))
    requires TimedLegal(cfg, refused, lim, Begin(clock, store), xs)
    ensures var s := TimedRun(cfg, refused, lim, Begin(clock, store), xs).writer;
            && DistinctKeys(Contents(s.machine.store.log))
            && Agrees(s.machine.store.minute, Minute, Contents(s.machine.store.log), s.machine.store.minuteHorizon)
            && Agrees(s.machine.store.hour, Hour, Contents(s.machine.store.log), s.machine.store.hourHorizon)
            && (!s.phase.Writing? && !s.phase.TimedOut? ==>
                Contents(s.machine.store.log) == Expected(refused, store.log, Completed(s)))
            && TimedRun(cfg, refused, lim, Begin(clock, store), xs).clock == clock + Elapsed(xs)
  {
    ClockRuns(cfg, refused, lim, Begin(clock, store), xs);
    BeginIsInv(cfg, refused, lim, clock, store);
    TimedRunsArePrompt(cfg, refused, lim, Begin(clock, store), xs);
    RunCountsExactlyOnce(refused, lim, store, SeenRun(cfg, refused, lim, Begin(clock, store), xs));
    hide TimedInv, TimedRun, TimedLegal, SeenRun, Run, Legal, Prompt, Expected, Sound, Elapsed;
  }
}
