/** Retention and daily partitions against the accepted-age window. Raw rows are the
    deduplication index: the question is whether dropping them can let a key in again. */
module Retention {
  import opened Events
  import opened Rollup
  import opened Tables

  // ---- Single maintenance statements -------------------------------------------------------

  function Without(rows: seq<Row>, gone: set<Row>): seq<Row> {
    if rows == [] then []
    else if rows[0] in gone then Without(rows[1..], gone)
    else [rows[0]] + Without(rows[1..], gone)
  }

  lemma {:induction false} WithoutMembers(rows: seq<Row>, gone: set<Row>)
    ensures forall r :: r in Without(rows, gone) <==> r in rows && r !in gone
  {
    if rows != [] {
      WithoutMembers(rows[1..], gone);
      assert forall r :: r in rows <==> r == rows[0] || r in rows[1..];
    }
  }

  /** `CREATE TABLE IF NOT EXISTS ... PARTITION OF`: refused while the default partition holds a
      row of that day. */
  predicate Refuses(t: Store, day: int) {
    exists r :: r in t.rows && r.place.Default? && DayOf(r.event.occurredAt) == day
  }

  function CreatePartition(t: Store, day: int): Store {
    if day in t.partitions || Refuses(t, day) then t else t.(partitions := t.partitions + {day})
  }

  function RowsOfDays(rows: seq<Row>, days: set<int>): set<Row> {
    set r | r in rows && r.place.Daily? && r.place.day in days
  }

  function DropPartitions(t: Store, days: set<int>, cutoff: int): Store {
    t.(rows := Without(t.rows, RowsOfDays(t.rows, days)),
       partitions := t.partitions - days,
       rawHorizon := Raise(t.rawHorizon, cutoff))
  }

  function ExpiredDays(partitions: set<int>, cutoff: int): set<int> {
    set d | d in partitions && DayStart(d + 1) <= cutoff
  }

  function ExpiredDefaultRows(rows: seq<Row>, cutoff: int): set<Row> {
    set r | r in rows && r.place.Default? && r.event.occurredAt < cutoff
  }

  function DeleteDefaultRows(t: Store, gone: set<Row>, cutoff: int): Store {
    t.(rows := Without(t.rows, gone), rawHorizon := Raise(t.rawHorizon, cutoff))
  }

  function ExpiredCells(table: Table, cutoff: int): set<Cell> {
    set c | c in table && c.bucket < cutoff
  }

  function DeleteMinuteCells(t: Store, gone: set<Cell>, cutoff: int): Store {
    t.(minute := t.minute - gone, minuteHorizon := Raise(t.minuteHorizon, cutoff))
  }

  function DeleteHourCells(t: Store, gone: set<Cell>, cutoff: int): Store {
    t.(hour := t.hour - gone, hourHorizon := Raise(t.hourHorizon, cutoff))
  }

  // ---- Each of them keeps the tables sound -------------------------------------------------

  lemma CreateSound(t: Store, day: int)
    requires Sound(t)
    ensures Sound(CreatePartition(t, day))
  {
    if day !in t.partitions && !Refuses(t, day) {
      assert Routed(t.(partitions := t.partitions + {day}));
      assert LiveSinceHorizon(t.(partitions := t.partitions + {day}));
    }
    hide Ordered, Agrees, LiveSinceHorizon, Routed, DistinctKeys, Refuses;
  }

  lemma RemovalStaysLive(t: Store, gone: set<Row>, cutoff: int)
    requires LiveSinceHorizon(t)
    requires forall r :: r in gone ==> r.event.occurredAt < cutoff
    ensures LiveSinceHorizon(t.(rows := Without(t.rows, gone), rawHorizon := Raise(t.rawHorizon, cutoff)))
  {
    WithoutMembers(t.rows, gone);
  }

  lemma DropSound(t: Store, days: set<int>, cutoff: int)
    requires Sound(t) && (forall d :: d in days ==> DayStart(d + 1) <= cutoff)
    ensures Sound(DropPartitions(t, days, cutoff))
  {
    var gone := RowsOfDays(t.rows, days);
    forall r | r in gone ensures r.event.occurredAt < cutoff {
      DayBounds(r.event.occurredAt, r.place.day);
    }
    var t' := DropPartitions(t, days, cutoff);
    assert LiveSinceHorizon(t') by {
      RemovalStaysLive(t, gone, cutoff);
    }
    assert Routed(t') by {
      WithoutMembers(t.rows, gone);
    }
    hide Ordered, Agrees, LiveSinceHorizon, Routed, DistinctKeys;
  }

  lemma DeleteRowsSound(t: Store, gone: set<Row>, cutoff: int)
    requires Sound(t) && gone <= ExpiredDefaultRows(t.rows, cutoff)
    ensures Sound(DeleteDefaultRows(t, gone, cutoff))
  {
    var t' := DeleteDefaultRows(t, gone, cutoff);
    assert LiveSinceHorizon(t') by {
      RemovalStaysLive(t, gone, cutoff);
    }
    assert Routed(t') by {
      WithoutMembers(t.rows, gone);
    }
    hide Ordered, Agrees, LiveSinceHorizon, Routed, DistinctKeys;
  }

  lemma DeleteMinuteSound(t: Store, gone: set<Cell>, cutoff: int)
    requires Sound(t) && gone <= ExpiredCells(t.minute, cutoff)
    ensures Sound(DeleteMinuteCells(t, gone, cutoff))
  {
    assert Agrees(t.minute - gone, Minute, Contents(t.log), Raise(t.minuteHorizon, cutoff)) by {
      hide GroupBy;
    }
    hide Ordered, Agrees, LiveSinceHorizon, Routed, DistinctKeys;
  }

  lemma DeleteHourSound(t: Store, gone: set<Cell>, cutoff: int)
    requires Sound(t) && gone <= ExpiredCells(t.hour, cutoff)
    ensures Sound(DeleteHourCells(t, gone, cutoff))
  {
    assert Agrees(t.hour - gone, Hour, Contents(t.log), Raise(t.hourHorizon, cutoff)) by {
      hide GroupBy;
    }
    hide Ordered, Agrees, LiveSinceHorizon, Routed, DistinctKeys;
  }

  // ---- Ingestion and retention interleaved -------------------------------------------------

  /** An event and the server time at which it was validated. */
  datatype Validated = Validated(event: Event, at: int)

  /** `delay` bounds the time from validating an event to the statement that writes it. */
  datatype Config = Config(rawDays: nat, minuteDays: nat, hourDays: nat, maxAge: nat, maxFutureSkew: nat, delay: nat)

  datatype Ledger = Ledger(clock: int, store: Store)

  /** `asOf` is the time a retention run took at its start; the clock may be past it. */
  datatype Action =
    | Tick(duration: nat)
    | Write(chunk: seq<Validated>, burn: nat)
    | Create(day: int)
    | Drop(day: int, asOf: int)
    | DeleteRows(rows: set<Row>, asOf: int)
    | DeleteMinute(cells: set<Cell>, asOf: int)
    | DeleteHour(cells: set<Cell>, asOf: int)

  function Days(n: nat): int {
    n * DAY
  }

  function EventsIn(chunk: seq<Validated>): (es: seq<Event>)
    ensures |es| == |chunk|
    ensures forall i :: 0 <= i < |chunk| ==> es[i] == chunk[i].event
  {
    seq(|chunk|, i requires 0 <= i < |chunk| => chunk[i].event)
  }

  ghost predicate WrittenInTime(cfg: Config, clock: int, v: Validated) {
    && v.at <= clock <= v.at + cfg.delay
    && WithinTimeBounds(v.event.occurredAt, TimeBounds(v.at, cfg.maxFutureSkew, cfg.maxAge))
  }

  ghost predicate Enabled(cfg: Config, s: Ledger, a: Action) {
    match a
    case Tick(_) => true
    case Write(chunk, _) => forall i :: 0 <= i < |chunk| ==> WrittenInTime(cfg, s.clock, chunk[i])
    case Create(_) => true
    case Drop(day, asOf) => asOf <= s.clock && DayStart(day + 1) <= asOf - Days(cfg.rawDays)
    case DeleteRows(rows, asOf) => asOf <= s.clock && rows <= ExpiredDefaultRows(s.store.rows, asOf - Days(cfg.rawDays))
    case DeleteMinute(cells, asOf) => asOf <= s.clock && cells <= ExpiredCells(s.store.minute, asOf - Days(cfg.minuteDays))
    case DeleteHour(cells, asOf) => asOf <= s.clock && cells <= ExpiredCells(s.store.hour, asOf - Days(cfg.hourDays))
  }

  function Step(cfg: Config, s: Ledger, a: Action): Ledger {
    match a
    case Tick(d) => s.(clock := s.clock + d)
    case Write(chunk, burn) =>
      s.(store := InsertBatch(s.store.(nextSeq := s.store.nextSeq + burn), EventsIn(chunk)))
    case Create(day) => s.(store := CreatePartition(s.store, day))
    case Drop(day, asOf) => s.(store := DropPartitions(s.store, {day}, asOf - Days(cfg.rawDays)))
    case DeleteRows(rows, asOf) => s.(store := DeleteDefaultRows(s.store, rows, asOf - Days(cfg.rawDays)))
    case DeleteMinute(cells, asOf) => s.(store := DeleteMinuteCells(s.store, cells, asOf - Days(cfg.minuteDays)))
    case DeleteHour(cells, asOf) => s.(store := DeleteHourCells(s.store, cells, asOf - Days(cfg.hourDays)))
  }

  function Run(cfg: Config, s: Ledger, actions: seq<Action>): Ledger
    decreases |actions|
  {
    if actions == [] then s else Run(cfg, Step(cfg, s, actions[0]), actions[1..])
  }

  ghost predicate Legal(cfg: Config, s: Ledger, actions: seq<Action>)
    decreases |actions|
  {
    actions != [] ==> Enabled(cfg, s, actions[0]) && Legal(cfg, Step(cfg, s, actions[0]), actions[1..])
  }

  /** Nothing is removed before it is `rawDays` old by the present clock. */
  ghost predicate HorizonInv(cfg: Config, s: Ledger) {
    forall t :: s.clock - Days(cfg.rawDays) <= t ==> Kept(s.store.rawHorizon, t)
  }

  lemma StepKeepsHorizon(cfg: Config, s: Ledger, a: Action)
    requires HorizonInv(cfg, s) && Enabled(cfg, s, a)
    ensures HorizonInv(cfg, Step(cfg, s, a))
  {
    hide InsertBatch, CreatePartition, Without, RowsOfDays, WrittenInTime, ExpiredDefaultRows, ExpiredCells, DayStart;
    match a
    case Write(chunk, burn) =>
      assert Step(cfg, s, a).store.rawHorizon == s.store.rawHorizon by {
        WriteKeepsHorizon(s.store.(nextSeq := s.store.nextSeq + burn), EventsIn(chunk));
      }
    case Create(day) =>
      CreateKeepsHorizon(s.store, day);
    case _ =>
  }

  lemma WriteKeepsHorizon(t: Store, chunk: seq<Event>)
    ensures InsertBatch(t, chunk).rawHorizon == t.rawHorizon
  {
    hide Inserted;
  }

  lemma CreateKeepsHorizon(t: Store, day: int)
    ensures CreatePartition(t, day).rawHorizon == t.rawHorizon
  {
    hide Refuses;
  }

  /** Events written in time are younger than anything retention removed. */
  lemma WrittenInTimeIsTimely(cfg: Config, s: Ledger, chunk: seq<Validated>)
    requires HorizonInv(cfg, s) && cfg.delay <= Days(cfg.rawDays) - cfg.maxAge
    requires forall i :: 0 <= i < |chunk| ==> WrittenInTime(cfg, s.clock, chunk[i])
    ensures Timely(s.store, EventsIn(chunk))
  {
    forall e | e in EventsIn(chunk) ensures Kept(s.store.rawHorizon, e.occurredAt) {
      var i :| 0 <= i < |chunk| && EventsIn(chunk)[i] == e;
      assert WrittenInTime(cfg, s.clock, chunk[i]);
      assert s.clock - Days(cfg.rawDays) <= e.occurredAt;
    }
  }

  lemma WriteKeepsSound(cfg: Config, s: Ledger, chunk: seq<Validated>, burn: nat)
    requires cfg.delay <= Days(cfg.rawDays) - cfg.maxAge
    requires Sound(s.store) && HorizonInv(cfg, s) && Enabled(cfg, s, Write(chunk, burn))
    ensures Sound(Step(cfg, s, Write(chunk, burn)).store)
  {
    assert forall i :: 0 <= i < |chunk| ==> WrittenInTime(cfg, s.clock, chunk[i]);
    var burnt := s.store.(nextSeq := s.store.nextSeq + burn);
    assert Step(cfg, s, Write(chunk, burn)).store == InsertBatch(burnt, EventsIn(chunk)) by {
      hide InsertBatch;
    }
    hide *;
    WrittenInTimeIsTimely(cfg, s, chunk);
    BurnSound(s.store, burn);
    BurnTimely(s.store, EventsIn(chunk), burn);
    InsertBatchSound(burnt, EventsIn(chunk));
  }

  lemma BurnTimely(t: Store, chunk: seq<Event>, burn: nat)
    requires Timely(t, chunk)
    ensures Timely(t.(nextSeq := t.nextSeq + burn), chunk)
  {
  }

  lemma BurnSound(t: Store, burn: nat)
    requires Sound(t)
    ensures Sound(t.(nextSeq := t.nextSeq + burn))
  {
    hide Agrees, DistinctKeys;
  }

  lemma StepKeepsSound(cfg: Config, s: Ledger, a: Action)
    requires cfg.delay <= Days(cfg.rawDays) - cfg.maxAge
    requires Sound(s.store) && HorizonInv(cfg, s) && Enabled(cfg, s, a)
    ensures Sound(Step(cfg, s, a).store)
  {
    hide Sound, HorizonInv, InsertBatch, WrittenInTime, Days;
    match a
    case Tick(_) =>
    case Write(chunk, burn) => WriteKeepsSound(cfg, s, chunk, burn);
    case Create(day) => CreateSound(s.store, day);
    case Drop(day, asOf) => DropSound(s.store, {day}, asOf - Days(cfg.rawDays));
    case DeleteRows(rows, asOf) => DeleteRowsSound(s.store, rows, asOf - Days(cfg.rawDays));
    case DeleteMinute(cells, asOf) => DeleteMinuteSound(s.store, cells, asOf - Days(cfg.minuteDays));
    case DeleteHour(cells, asOf) => DeleteHourSound(s.store, cells, asOf - Days(cfg.hourDays));
  }

  lemma {:induction false} RunKeepsSound(cfg: Config, s: Ledger, actions: seq<Action>)
    requires cfg.delay <= Days(cfg.rawDays) - cfg.maxAge
    requires Sound(s.store) && HorizonInv(cfg, s) && Legal(cfg, s, actions)
    ensures Sound(Run(cfg, s, actions).store)
    decreases |actions|
  {
    if actions != [] {
      StepKeepsSound(cfg, s, actions[0]);
      StepKeepsHorizon(cfg, s, actions[0]);
      hide Sound, HorizonInv, Enabled, Step;
      RunKeepsSound(cfg, Step(cfg, s, actions[0]), actions[1..]);
    }
  }

  lemma EmptySound(clock: int)
    ensures Sound(Empty())
  {
    forall c: Cell ensures c !in GroupBy(Minute, []) && c !in GroupBy(Hour, []) {
      CellPresent(Minute, [], c);
      CellPresent(Hour, [], c);
    }
  }

  // ---- Main result --------------------------------------------------------------------------

  ghost predicate NeverTwice(cfg: Config) {
    forall clock: int, actions: seq<Action> :: Legal(cfg, Ledger(clock, Empty()), actions) ==>
      DistinctKeys(Contents(Run(cfg, Ledger(clock, Empty()), actions).store.log))
  }

  /** Retention never reopens deduplication, and every bucket no cutoff has passed is the recompute
      over every event ever inserted: for all runs in which events reach the database within the
      margin between raw retention and the accepted age. */
  lemma RetentionIsSafe(cfg: Config, clock: int, actions: seq<Action>)
    requires cfg.delay <= Days(cfg.rawDays) - cfg.maxAge
    requires Legal(cfg, Ledger(clock, Empty()), actions)
    ensures var t := Run(cfg, Ledger(clock, Empty()), actions).store;
            && DistinctKeys(Contents(t.log))
            && Routed(t)
            && Agrees(t.minute, Minute, Contents(t.log), t.minuteHorizon)
            && Agrees(t.hour, Hour, Contents(t.log), t.hourHorizon)
  {
    EmptySound(clock);
    var s := Ledger(clock, Empty());
    assert HorizonInv(cfg, s);
    RunKeepsSound(cfg, s, actions);
    hide Run, Legal, HorizonInv, Agrees, DistinctKeys, Routed, LiveSinceHorizon, Ordered;
  }

  /** The run that counts an event twice when the delay exceeds the margin. The partition of day 0 exists;
      an event of that day's last instant is written, the partition is dropped as soon as it may be,
      and then the copy is written that was validated just in time. */
  function LateRun(cfg: Config, e: Event): seq<Action> {
    var again := cfg.maxAge + cfg.delay;
    [Create(0), Write([Validated(e, LAST)], 0), Tick(again), Drop(0, LAST + again), Write([Validated(e, LAST + cfg.maxAge)], 0)]
  }

  /** The last instant of day 0. */
  const LAST: int := DAY - 1

  lemma LateWrites(t: Store, e: Event, place: Place)
    requires t.rows == [] && place == Route(t.partitions, e)
    ensures var row := Row(t.nextSeq, e, place); var t' := InsertBatch(t, [e]);
            && t'.rows == [row] && t'.log == t.log + [row] && t'.nextSeq == t.nextSeq + 1 && t'.partitions == t.partitions
  {
    var row := Row(t.nextSeq, e, place);
    assert [e][1..] == [];
    assert Inserted([] + [row], t.partitions, t.nextSeq + 1, [e][1..]) == [];
    assert Inserted([], t.partitions, t.nextSeq, [e]) == [row];
    hide Inserted, GroupBy, Upsert, Conflicts, Route;
  }

  lemma PartitionDropped(t: Store, row: Row, cutoff: int)
    requires t.rows == [row] && row.place == Daily(0) && t.partitions == {0}
    ensures var t' := DropPartitions(t, {0}, cutoff);
            t'.rows == [] && t'.partitions == {} && t'.log == t.log && t'.nextSeq == t.nextSeq
  {
    assert RowsOfDays([row], {0}) == {row};
    assert [row][1..] == [];
    assert Without([row], {row}) == Without([row][1..], {row});
    hide Raise;
  }

  lemma LateRunStates(cfg: Config, e: Event, s1: Ledger, s2: Ledger, s3: Ledger, s4: Ledger, s5: Ledger)
    requires e.occurredAt == LAST
    requires s1 == Step(cfg, Ledger(LAST, Empty()), Create(0))
    requires s2 == Step(cfg, s1, Write([Validated(e, LAST)], 0))
    requires s3 == s2.(clock := LAST + cfg.maxAge + cfg.delay)
    requires s4 == Step(cfg, s3, Drop(0, s3.clock))
    requires s5 == Step(cfg, s4, Write([Validated(e, LAST + cfg.maxAge)], 0))
    ensures s1.clock == s2.clock == LAST && s4.clock == s3.clock
    ensures s5.store.log == [Row(1, e, Daily(0)), Row(2, e, Default)]
  {
    hide Days, Raise, InsertBatch, DropPartitions;
    assert EventsIn([Validated(e, LAST)]) == [e] && EventsIn([Validated(e, LAST + cfg.maxAge)]) == [e];
    assert s1.store == Empty().(partitions := {0});
    assert s1.store.(nextSeq := s1.store.nextSeq + 0) == s1.store && s4.store.(nextSeq := s4.store.nextSeq + 0) == s4.store;
    LateWrites(s1.store, e, Daily(0));
    PartitionDropped(s2.store, Row(1, e, Daily(0)), s3.clock - Days(cfg.rawDays));
    LateWrites(s4.store, e, Default);
  }

  lemma LateStepsEnabled(cfg: Config, e: Event, s1: Ledger, s3: Ledger, s4: Ledger)
    requires cfg.delay > Days(cfg.rawDays) - cfg.maxAge && e.occurredAt == LAST
    requires s1.clock == LAST && s3.clock == LAST + cfg.maxAge + cfg.delay && s4.clock == s3.clock
    ensures Enabled(cfg, s1, Write([Validated(e, LAST)], 0))
    ensures Enabled(cfg, s3, Drop(0, s3.clock))
    ensures Enabled(cfg, s4, Write([Validated(e, LAST + cfg.maxAge)], 0))
  {
    hide Days;
    assert DayStart(1) == LAST + 1;
  }

  lemma LastStep(cfg: Config, s: Ledger, a: Action)
    ensures Run(cfg, s, [a]) == Step(cfg, s, a) && (Legal(cfg, s, [a]) <==> Enabled(cfg, s, a))
  {
    assert [a][1..] == [];
    var s' := Step(cfg, s, a);
    hide Step, Enabled;
    assert Run(cfg, s', []) == s' && Legal(cfg, s', []);
  }

  lemma FiveSteps(cfg: Config, s0: Ledger, a: Action, b: Action, c: Action, d: Action, e: Action)
    ensures var s1 := Step(cfg, s0, a); var s2 := Step(cfg, s1, b); var s3 := Step(cfg, s2, c); var s4 := Step(cfg, s3, d);
            && Run(cfg, s0, [a, b, c, d, e]) == Step(cfg, s4, e)
            && (Enabled(cfg, s0, a) && Enabled(cfg, s1, b) && Enabled(cfg, s2, c) && Enabled(cfg, s3, d) && Enabled(cfg, s4, e)
                ==> Legal(cfg, s0, [a, b, c, d, e]))
  {
    hide *;
    var s1 := Step(cfg, s0, a);
    var s2 := Step(cfg, s1, b);
    var s3 := Step(cfg, s2, c);
    var s4 := Step(cfg, s3, d);
    LastStep(cfg, s4, e);
    assert [d] + [e] == [d, e];
    OneStep(cfg, s3, d, [e]);
    assert [c] + [d, e] == [c, d, e];
    OneStep(cfg, s2, c, [d, e]);
    assert [b] + [c, d, e] == [b, c, d, e];
    OneStep(cfg, s1, b, [c, d, e]);
    assert [a] + [b, c, d, e] == [a, b, c, d, e];
    OneStep(cfg, s0, a, [b, c, d, e]);
  }

  lemma LateRunCountsTwice(cfg: Config, e: Event)
    requires cfg.delay > Days(cfg.rawDays) - cfg.maxAge && e.occurredAt == LAST
    ensures var s := Ledger(LAST, Empty());
            && Legal(cfg, s, LateRun(cfg, e))
            && Run(cfg, s, LateRun(cfg, e)).store.log == [Row(1, e, Daily(0)), Row(2, e, Default)]
  {
    var again := cfg.maxAge + cfg.delay;
    var a0, a1, a2 := Create(0), Write([Validated(e, LAST)], 0), Tick(again);
    var a3, a4 := Drop(0, LAST + again), Write([Validated(e, LAST + cfg.maxAge)], 0);
    var s0 := Ledger(LAST, Empty());
    var s1 := Step(cfg, s0, a0);
    var s2 := Step(cfg, s1, a1);
    var s3 := Step(cfg, s2, a2);
    var s4 := Step(cfg, s3, a3);
    assert s3 == s2.(clock := s2.clock + again) && s2.clock == s1.clock == LAST;
    LateRunStates(cfg, e, s1, s2, s3, s4, Step(cfg, s4, a4));
    LateStepsEnabled(cfg, e, s1, s3, s4);
    FiveSteps(cfg, s0, a0, a1, a2, a3, a4);
    assert Enabled(cfg, s0, a0) && Enabled(cfg, s2, a2);
    hide Step, Days, Legal, Run;
  }

  lemma OneStep(cfg: Config, s: Ledger, a: Action, more: seq<Action>)
    ensures Run(cfg, s, [a] + more) == Run(cfg, Step(cfg, s, a), more)
    ensures Legal(cfg, s, [a] + more) <==> Enabled(cfg, s, a) && Legal(cfg, Step(cfg, s, a), more)
  {
    assert ([a] + more)[1..] == more;
    hide Step, Enabled;
  }

  /** Exactly when deduplication survives retention: no run inserts a key twice if and only if the
      validation-to-write delay is at most raw retention minus the accepted age. */
  lemma NeverTwiceExactly(cfg: Config)
    ensures NeverTwice(cfg) <==> cfg.delay <= Days(cfg.rawDays) - cfg.maxAge
  {
    if cfg.delay <= Days(cfg.rawDays) - cfg.maxAge {
      forall clock: int, actions: seq<Action> | Legal(cfg, Ledger(clock, Empty()), actions)
        ensures DistinctKeys(Contents(Run(cfg, Ledger(clock, Empty()), actions).store.log))
      {
        RetentionIsSafe(cfg, clock, actions);
      }
    } else {
      var e := Event(0, 0, Placed, LAST, 1, 0, 0, 0, 0);
      LateRunCountsTwice(cfg, e);
      var es := Contents([Row(1, e, Daily(0)), Row(2, e, Default)]);
      assert KeyOf(es[0]) == KeyOf(es[1]);
    }
    hide Run, Legal, LateRun;
  }
}
