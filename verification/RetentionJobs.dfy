/** One retention run as a whole: its result, when a second run does nothing, and when the
    partitions it prepares cover every event the validator accepts. */
module RetentionJobs {
  import opened Events
  import opened Rollup
  import opened Tables
  import opened Retention
  import opened Writer
  import opened BatchWriting
  import B = Bisection
  import E = ExactlyOnce

  datatype Policy = Policy(rawDays: nat, minuteDays: nat, hourDays: nat, batchSize: nat, daysBack: nat, daysAhead: nat)

  datatype Result = Result(created: nat, dropped: nat, defaultRows: nat, minuteCells: nat, hourCells: nat)

  const NOTHING: Result := Result(0, 0, 0, 0, 0)

  predicate Creates(t: Store, day: int) {
    day !in t.partitions && !Refuses(t, day)
  }

  /** The days of `[first, first + n)` whose partition a run creates. */
  function Creatable(t: Store, first: int, n: nat): set<int> {
    set d | first <= d < first + n && Creates(t, d)
  }

  function EnsureWindow(t: Store, first: int, n: nat): Store {
    t.(partitions := t.partitions + Creatable(t, first, n))
  }

  function WindowStart(p: Policy, now: int): int {
    DayOf(now) - p.daysBack
  }

  function WindowLength(p: Policy): nat {
    p.daysBack + p.daysAhead + 1
  }

  function AfterPreparing(p: Policy, t: Store, now: int): Store {
    EnsureWindow(t, WindowStart(p, now), WindowLength(p))
  }

  function AfterDrops(t: Store, cutoff: int): Store {
    if ExpiredDays(t.partitions, cutoff) == {} then t
    else DropPartitions(t, ExpiredDays(t.partitions, cutoff), cutoff)
  }

  function AfterPurge(t: Store, cutoff: int): Store {
    DeleteDefaultRows(t, ExpiredDefaultRows(t.rows, cutoff), cutoff)
  }

  /** The order matters: a partition is prepared before the rows that stand in its way are deleted. */
  function RunOnce(p: Policy, t: Store, now: int): (Store, Result) {
    var raw := now - Days(p.rawDays);
    var t1 := AfterPreparing(p, t, now);
    var t2 := AfterDrops(t1, raw);
    var t3 := AfterPurge(t2, raw);
    var minute := ExpiredCells(t3.minute, now - Days(p.minuteDays));
    var t4 := DeleteMinuteCells(t3, minute, now - Days(p.minuteDays));
    var hour := ExpiredCells(t4.hour, now - Days(p.hourDays));
    var t5 := DeleteHourCells(t4, hour, now - Days(p.hourDays));
    (t5, Result(|Creatable(t, WindowStart(p, now), WindowLength(p))|,
                |ExpiredDays(t1.partitions, raw)|,
                |ExpiredDefaultRows(t2.rows, raw)|,
                |minute|, |hour|))
  }

  // ---- What a run leaves, written out ----------------------------------------------------------

  /** The day is in the window around `today` and its partition is neither there nor refused for rows
      that the default partition holds. */
  ghost predicate ToCreate(p: Policy, t: Store, today: int, d: int) {
    && d !in t.partitions
    && today - p.daysBack <= d <= today + p.daysAhead
    && forall r :: r in t.rows && r.place.Default? ==> !(d * DAY <= r.event.occurredAt < (d + 1) * DAY)
  }

  ghost predicate OfWindow(today: int, now: int) {
    today * DAY <= now < (today + 1) * DAY
  }

  lemma CreatableMeans(p: Policy, t: Store, today: int, now: int, d: int)
    requires OfWindow(today, now)
    ensures d in Creatable(t, WindowStart(p, now), WindowLength(p)) <==> ToCreate(p, t, today, d)
  {
    DayBounds(now, today);
    forall r | r in t.rows ensures DayOf(r.event.occurredAt) == d <==> d * DAY <= r.event.occurredAt < (d + 1) * DAY {
      DayBounds(r.event.occurredAt, d);
    }
    hide DayOf;
  }

  /** The partitions a run leaves: those that were there or had to be created, except for days that ended
      before the raw retention began. */
  lemma RunLeavesPartitions(p: Policy, t: Store, today: int, now: int, d: int)
    requires OfWindow(today, now)
    ensures d in RunOnce(p, t, now).0.partitions
            <==> (d in t.partitions || ToCreate(p, t, today, d)) && now - p.rawDays * DAY < (d + 1) * DAY
  {
    AfterRunPartitions(p, t, now);
    CreatableMeans(p, t, today, now, d);
    hide RunOnce, Creatable, WindowStart, WindowLength, ToCreate;
  }

  /** The rows a run leaves: in the default partition those within the raw retention, elsewhere those of
      the partitions that stay. */
  lemma RunLeavesRows(p: Policy, t: Store, now: int, r: Row)
    requires Routed(t)
    ensures r in RunOnce(p, t, now).0.rows <==>
            && r in t.rows
            && match r.place
               case Default => now - p.rawDays * DAY <= r.event.occurredAt
               case Daily(d) => now - p.rawDays * DAY < (d + 1) * DAY
  {
    AfterRunRows(p, t, now);
    hide RunOnce, Creatable, WindowStart, WindowLength;
  }

  /** The buckets a run leaves, in both tables: those within the retention of the table, unchanged. */
  lemma RunLeavesCells(p: Policy, t: Store, now: int, c: Cell)
    ensures var t' := RunOnce(p, t, now).0;
            && (c in t'.minute <==> c in t.minute && now - p.minuteDays * DAY <= c.bucket)
            && (c in t'.minute ==> t'.minute[c] == t.minute[c])
            && (c in t'.hour <==> c in t.hour && now - p.hourDays * DAY <= c.bucket)
            && (c in t'.hour ==> t'.hour[c] == t.hour[c])
  {
    hide Creatable, WindowStart, WindowLength, Raise, Without, ExpiredDays, ExpiredDefaultRows, RowsOfDays;
  }

  /** What a run reports: how many partitions it created and dropped, and how many rows and buckets it
      deleted beside them. */
  lemma RunReports(p: Policy, t: Store, today: int, now: int, created: set<int>, dropped: set<int>, rows: set<Row>,
                   minute: set<Cell>, hour: set<Cell>)
    requires OfWindow(today, now)
    requires forall d :: d in created <==> ToCreate(p, t, today, d)
    requires forall d :: d in dropped <==> (d in t.partitions || d in created) && (d + 1) * DAY <= now - p.rawDays * DAY
    requires forall r :: r in rows <==> r in t.rows && r.place.Default? && r.event.occurredAt < now - p.rawDays * DAY
    requires forall c :: c in minute <==> c in t.minute && c.bucket < now - p.minuteDays * DAY
    requires forall c :: c in hour <==> c in t.hour && c.bucket < now - p.hourDays * DAY
    ensures RunOnce(p, t, now).1 == Result(|created|, |dropped|, |rows|, |minute|, |hour|)
  {
    var raw := now - Days(p.rawDays);
    var creatable := Creatable(t, WindowStart(p, now), WindowLength(p));
    forall d ensures d in creatable <==> d in created {
      CreatableMeans(p, t, today, now, d);
    }
    assert creatable == created;
    assert dropped == ExpiredDays(t.partitions + created, raw);
    assert minute == ExpiredCells(t.minute, now - Days(p.minuteDays));
    assert hour == ExpiredCells(t.hour, now - Days(p.hourDays));
    assert rows == ExpiredDefaultRows(t.rows, raw);
    hide *;
    ReportsFrom(p, t, now, raw);
  }

  lemma ReportsFrom(p: Policy, t: Store, now: int, raw: int)
    requires raw == now - Days(p.rawDays)
    ensures var created := Creatable(t, WindowStart(p, now), WindowLength(p));
            RunOnce(p, t, now).1 == Result(
              |created|,
              |ExpiredDays(t.partitions + created, raw)|,
              |ExpiredDefaultRows(t.rows, raw)|,
              |ExpiredCells(t.minute, now - Days(p.minuteDays))|,
              |ExpiredCells(t.hour, now - Days(p.hourDays))|)
  {
    var t1 := AfterPreparing(p, t, now);
    DropsKeepDefaultRows(t1, raw);
    hide Creatable, WindowStart, WindowLength, ExpiredDays, ExpiredDefaultRows, ExpiredCells, Without, RowsOfDays,
      Raise, Days;
  }

  /** Dropping partitions leaves the default partition alone. */
  lemma DropsKeepDefaultRows(t: Store, cutoff: int)
    ensures ExpiredDefaultRows(AfterDrops(t, cutoff).rows, cutoff) == ExpiredDefaultRows(t.rows, cutoff)
  {
    WithoutMembers(t.rows, RowsOfDays(t.rows, ExpiredDays(t.partitions, cutoff)));
    hide Without, ExpiredDays, Raise;
  }

  // ---- A second run at the same time -------------------------------------------------------

  ghost predicate Idempotent(p: Policy) {
    forall t: Store, now: int :: Routed(t) ==> RunOnce(p, RunOnce(p, t, now).0, now).1 == NOTHING
  }

  /** The partitions a run leaves. */
  lemma AfterRunPartitions(p: Policy, t: Store, now: int)
    ensures var w := t.partitions + Creatable(t, WindowStart(p, now), WindowLength(p));
            RunOnce(p, t, now).0.partitions == w - ExpiredDays(w, now - Days(p.rawDays))
  {
    hide Creatable, Days, DayStart, WindowStart, WindowLength, Raise, Without, RowsOfDays;
  }

  /** The rows a run leaves, and the cells it leaves none of. */
  lemma AfterRunRows(p: Policy, t: Store, now: int)
    ensures var raw := now - Days(p.rawDays); var t' := RunOnce(p, t, now).0;
            var w := t.partitions + Creatable(t, WindowStart(p, now), WindowLength(p));
            && ExpiredCells(t'.minute, now - Days(p.minuteDays)) == {}
            && ExpiredCells(t'.hour, now - Days(p.hourDays)) == {}
            && (forall r :: r in t'.rows <==>
                  r in t.rows && !(r.place.Default? && r.event.occurredAt < raw)
                  && !(r.place.Daily? && r.place.day in ExpiredDays(w, raw)))
  {
    var raw := now - Days(p.rawDays);
    var t1 := AfterPreparing(p, t, now);
    var t2 := AfterDrops(t1, raw);
    WithoutMembers(t1.rows, RowsOfDays(t1.rows, ExpiredDays(t1.partitions, raw)));
    WithoutMembers(t2.rows, ExpiredDefaultRows(t2.rows, raw));
    hide Creatable, Days, DayStart, WindowStart, WindowLength, Raise, Without;
  }

  /** Days the window holds lie wholly after the cutoff when fewer days are prepared than kept. */
  lemma WindowIsKept(p: Policy, now: int, day: int)
    requires p.daysBack < p.rawDays && WindowStart(p, now) <= day
    ensures now - Days(p.rawDays) < DayStart(day)
  {
    DayBounds(now, DayOf(now));
    assert DayStart(day) >= DayStart(DayOf(now) + 1 - p.rawDays);
    assert DayStart(DayOf(now) + 1 - p.rawDays) == DayStart(DayOf(now) + 1) - Days(p.rawDays);
  }

  lemma NothingToCreateAgain(p: Policy, t: Store, now: int, day: int)
    requires p.daysBack < p.rawDays
    requires WindowStart(p, now) <= day < WindowStart(p, now) + WindowLength(p)
    ensures !Creates(RunOnce(p, t, now).0, day)
  {
    WindowIsKept(p, now, day);
    if Refuses(t, day) && day !in t.partitions {
      AfterRunRows(p, t, now);
      hide RunOnce, Days, WindowStart, WindowLength, Creatable, ExpiredDays, DayStart, Refuses;
      StillRefused(t, RunOnce(p, t, now).0, day, now - Days(p.rawDays));
    } else {
      PreparedDayStays(p, t, now, day);
    }
  }

  lemma PreparedDayStays(p: Policy, t: Store, now: int, day: int)
    requires now - Days(p.rawDays) < DayStart(day)
    requires day in t.partitions || day in Creatable(t, WindowStart(p, now), WindowLength(p))
    ensures day in RunOnce(p, t, now).0.partitions
  {
    hide RunOnce, Days, WindowStart, WindowLength, Creatable, DayStart, ExpiredDays;
    AfterRunPartitions(p, t, now);
    StaysPrepared(t.partitions + Creatable(t, WindowStart(p, now), WindowLength(p)), now - Days(p.rawDays), day);
  }

  lemma StaysPrepared(days: set<int>, cutoff: int, day: int)
    requires day in days && cutoff < DayStart(day)
    ensures day in days - ExpiredDays(days, cutoff)
  {
    assert DayStart(day) < DayStart(day + 1);
  }

  lemma StillRefused(t: Store, t': Store, day: int, cutoff: int)
    requires Refuses(t, day) && cutoff < DayStart(day)
    requires forall r :: r in t.rows && r.place.Default? && r.event.occurredAt >= cutoff ==> r in t'.rows
    ensures Refuses(t', day)
  {
    var r :| r in t.rows && r.place.Default? && DayOf(r.event.occurredAt) == day;
    DayBounds(r.event.occurredAt, day);
    assert r in t'.rows;
  }

  lemma SecondRunIsIdle(p: Policy, t: Store, now: int)
    requires p.daysBack < p.rawDays
    ensures RunOnce(p, RunOnce(p, t, now).0, now).1 == NOTHING
  {
    var t' := RunOnce(p, t, now).0;
    var first, n, raw := WindowStart(p, now), WindowLength(p), now - Days(p.rawDays);
    forall d | first <= d < first + n ensures !Creates(t', d) {
      NothingToCreateAgain(p, t, now, d);
    }
    assert Creatable(t', first, n) == {};
    assert ExpiredDays(t'.partitions, raw) == {} by {
      AfterRunPartitions(p, t, now);
      hide RunOnce, Creatable, WindowStart, WindowLength, DayStart;
    }
    AfterRunRows(p, t, now);
    hide RunOnce, Creatable, WindowStart, WindowLength, ExpiredDays, ExpiredCells, Days;
    assert ExpiredDefaultRows(t'.rows, raw) == {};
    IdleResult(p, t', now);
  }

  lemma IdleResult(p: Policy, t: Store, now: int)
    requires Creatable(t, WindowStart(p, now), WindowLength(p)) == {}
    requires ExpiredDays(t.partitions, now - Days(p.rawDays)) == {}
    requires ExpiredDefaultRows(t.rows, now - Days(p.rawDays)) == {}
    requires ExpiredCells(t.minute, now - Days(p.minuteDays)) == {}
    requires ExpiredCells(t.hour, now - Days(p.hourDays)) == {}
    ensures RunOnce(p, t, now).1 == NOTHING
  {
    var raw := now - Days(p.rawDays);
    var t1 := AfterPreparing(p, t, now);
    assert t1.partitions == t.partitions;
    var t2 := AfterDrops(t1, raw);
    assert RowsOfDays(t.rows, {}) == {};
    WithoutMembers(t.rows, {});
    assert forall r :: r in t2.rows <==> r in t.rows;
    assert ExpiredDefaultRows(t2.rows, raw) == ExpiredDefaultRows(t.rows, raw);
    hide Days, Creatable, WindowStart, WindowLength, Raise, Without;
  }

  /** At noon of day 0, with one expired row in the default partition on the day of the cutoff: the
      first run cannot create that day, but deletes the row, and the second run creates it. */
  lemma SecondRunCreates(p: Policy)
    requires p.daysBack >= p.rawDays
    ensures exists t, now :: Routed(t) && RunOnce(p, RunOnce(p, t, now).0, now).1 != NOTHING
  {
    var day: int := -(p.rawDays as int);
    var now: int := DAY / 2;
    var e := Event(0, 0, Placed, DayStart(day), 1, 0, 0, 0, 0);
    var row := Row(1, e, Default);
    var t := Empty().(rows := [row], log := [row], nextSeq := 2);
    DayBounds(e.occurredAt, day);
    assert Routed(t);
    assert DayOf(now) == 0;
    assert DayStart(day) == -Days(p.rawDays);
    assert Refuses(t, day) by {
      assert row in t.rows;
    }
    var t' := RunOnce(p, t, now).0;
    AfterRunPartitions(p, t, now);
    AfterRunRows(p, t, now);
    assert !Refuses(t', day) && day !in t'.partitions;
    var S := Creatable(t', WindowStart(p, now), WindowLength(p));
    assert day in S;
    assert RunOnce(p, t', now).1.created == |S|;
    assert |S| != 0;
  }

  /** A second run at the same time creates, drops and deletes nothing, from every state of the
      tables, if and only if fewer days back are prepared than raw rows are kept. */
  lemma IdempotentExactly(p: Policy)
    ensures Idempotent(p) <==> p.daysBack < p.rawDays
  {
    hide RunOnce, Routed;
    if p.daysBack < p.rawDays {
      forall t: Store, now: int | Routed(t) ensures RunOnce(p, RunOnce(p, t, now).0, now).1 == NOTHING {
        SecondRunIsIdle(p, t, now);
      }
    } else {
      SecondRunCreates(p);
    }
  }

  // ---- Coverage of the accepted days -------------------------------------------------------

  /** Every event accepted within a day of a run lies in the window that run prepared. */
  ghost predicate WindowCovers(age: int, skew: int, back: int, ahead: int) {
    forall run: int, v: int, at: int ::
      run <= v <= run + DAY && WithinTimeBounds(at, TimeBounds(v, skew, age))
      ==> DayOf(run) - back <= DayOf(at) <= DayOf(run) + ahead
  }

  lemma DayBefore(t: int, day: int)
    ensures t < DayStart(day) <==> DayOf(t) < day
  {
    assert t == DAY * (t / DAY) + t % DAY;
  }

  lemma ShiftDays(t: int, n: int)
    ensures DayOf(t + n * DAY) == DayOf(t) + n
  {
    DayBounds(t, DayOf(t));
    assert DayStart(DayOf(t) + n) == DayStart(DayOf(t)) + n * DAY;
    assert DayStart(DayOf(t) + n + 1) == DayStart(DayOf(t) + 1) + n * DAY;
    DayBounds(t + n * DAY, DayOf(t) + n);
  }

  /** With a daily run, two days ahead and `maxAge / DAY` days back, the prepared partitions cover
      every accepted event if and only if the maximum age is a whole number of days and clocks may be
      ahead by at most one. */
  lemma CoverageExactly(age: nat, skew: nat)
    ensures WindowCovers(age, skew, age / DAY, 2) <==> age % DAY == 0 && skew <= DAY
  {
    var back := age / DAY;
    assert age == back * DAY + age % DAY;
    if age % DAY != 0 {
      var at: int := -(age as int);
      assert WithinTimeBounds(at, TimeBounds(0, skew, age));
      assert at < DayStart(-back);
      DayBefore(at, -back);
      assert DayOf(0) - back > DayOf(at);
    } else if skew > DAY {
      var run: int := DAY - 1;
      var at: int := run + DAY + skew;
      assert WithinTimeBounds(at, TimeBounds(run + DAY, skew, age));
      assert DayOf(run) == 0 && at >= 3 * DAY;
      DayMonotone(3 * DAY, at);
      assert DayOf(at) > DayOf(run) + 2;
    } else {
      forall run: int, v: int, at: int | run <= v <= run + DAY && WithinTimeBounds(at, TimeBounds(v, skew, age))
        ensures DayOf(run) - back <= DayOf(at) <= DayOf(run) + 2
      {
        ShiftDays(run, -back);
        ShiftDays(run, 2);
        DayMonotone(run - back * DAY, at);
        DayMonotone(at, run + 2 * DAY);
      }
    }
  }

  /** The writer itself never touches the partitions. */
  lemma {:induction false} WritingKeepsPartitions(refused: B.Filter, lim: Limits, s: State, actions: seq<Writer.Action>)
    requires forall a :: a in actions ==> !a.DoMaintain?
    ensures E.Run(refused, lim, s, actions).machine.store.partitions == s.machine.store.partitions
    decreases |actions|
  {
    if actions != [] {
      assert actions[0] in actions;
      if actions[0].DoStatement? && s.machine.work.todo != [] {
        B.StatementFrame(refused, s.machine, actions[0].link);
      }
      WritingKeepsPartitions(refused, lim, Writer.Step(refused, lim, s, actions[0]), actions[1..]);
      hide B.Statement, RecordCommit;
    }
  }

  /** So, unless a creation is refused, every event accepted between two daily runs is routed to the
      partition of its own day, whenever the writer gets to it before the next run. */
  lemma AcceptedEventHasPartition(p: Policy, t: Store, run: int, v: int, e: Event, age: nat, skew: nat,
                                  refused: B.Filter, lim: Limits, s: State, actions: seq<Writer.Action>)
    requires age % DAY == 0 && p.daysBack == age / DAY && p.daysAhead == 2 && skew <= DAY
    requires Days(p.rawDays) > age
    requires run <= v <= run + DAY && WithinTimeBounds(e.occurredAt, TimeBounds(v, skew, age))
    requires forall d :: WindowStart(p, run) <= d < WindowStart(p, run) + WindowLength(p) ==> !Refuses(t, d)
    requires s.machine.store == RunOnce(p, t, run).0 && forall a :: a in actions ==> !a.DoMaintain?
    ensures Route(E.Run(refused, lim, s, actions).machine.store.partitions, e) == Daily(DayOf(e.occurredAt))
  {
    var day := DayOf(e.occurredAt);
    assert DayOf(run) - p.daysBack <= day <= DayOf(run) + 2 by {
      CoverageExactly(age, skew);
    }
    assert p.daysBack < p.rawDays by {
      assert age == p.daysBack * DAY;
      assert Days(p.daysBack) < Days(p.rawDays);
    }
    WindowIsKept(p, run, day);
    assert day in t.partitions || day in Creatable(t, WindowStart(p, run), WindowLength(p));
    hide RunOnce, Days, Creatable, WindowStart, WindowLength, DayStart, WithinTimeBounds, Refuses, E.Run;
    PreparedDayStays(p, t, run, day);
    WritingKeepsPartitions(refused, lim, s, actions);
  }

  // ---- Every statement of a run is maintenance as the writer understands it ---------------

  /** The run as its five statements, each acting on the result of the one before. */
  lemma RunUnfolds(p: Policy, t: Store, now: int, raw: int, t1: Store, t2: Store, t3: Store, t4: Store)
    requires raw == now - Days(p.rawDays)
    requires t1 == AfterPreparing(p, t, now) && t2 == AfterDrops(t1, raw) && t3 == AfterPurge(t2, raw)
    requires t4 == DeleteMinuteCells(t3, ExpiredCells(t3.minute, now - Days(p.minuteDays)), now - Days(p.minuteDays))
    ensures RunOnce(p, t, now).0
         == DeleteHourCells(t4, ExpiredCells(t4.hour, now - Days(p.hourDays)), now - Days(p.hourDays))
    ensures RunOnce(p, t, now).0.log == t.log && RunOnce(p, t, now).0.nextSeq == t.nextSeq
  {
    hide Days, Creatable, Without, Raise, ExpiredCells, ExpiredDays, ExpiredDefaultRows;
  }

  lemma PartitionsSound(p: Policy, t: Store, now: int, raw: int)
    requires Sound(t)
    ensures Sound(AfterDrops(AfterPreparing(p, t, now), raw))
  {
    PreparedSound(t, WindowStart(p, now), WindowLength(p));
    var t1 := AfterPreparing(p, t, now);
    assert forall d :: d in ExpiredDays(t1.partitions, raw) ==> DayStart(d + 1) <= raw;
    hide Sound, EnsureWindow, DayStart, DropPartitions, WindowStart, WindowLength;
    if ExpiredDays(t1.partitions, raw) != {} {
      DropSound(t1, ExpiredDays(t1.partitions, raw), raw);
    }
  }

  lemma RawRowsSound(p: Policy, t: Store, now: int, raw: int)
    requires Sound(t)
    ensures Sound(AfterPurge(AfterDrops(AfterPreparing(p, t, now), raw), raw))
  {
    var t2 := AfterDrops(AfterPreparing(p, t, now), raw);
    hide Sound, AfterPreparing, AfterDrops, ExpiredDefaultRows, DeleteDefaultRows;
    PartitionsSound(p, t, now, raw);
    DeleteRowsSound(t2, ExpiredDefaultRows(t2.rows, raw), raw);
  }

  lemma CellsSound(t: Store, minute: int, hour: int)
    requires Sound(t)
    ensures var t' := DeleteMinuteCells(t, ExpiredCells(t.minute, minute), minute);
            Sound(DeleteHourCells(t', ExpiredCells(t'.hour, hour), hour))
  {
    var t' := DeleteMinuteCells(t, ExpiredCells(t.minute, minute), minute);
    hide Sound, ExpiredCells, DeleteMinuteCells, DeleteHourCells;
    DeleteMinuteSound(t, ExpiredCells(t.minute, minute), minute);
    DeleteHourSound(t', ExpiredCells(t'.hour, hour), hour);
  }

  lemma RunIsMaintenance(p: Policy, t: Store, now: int)
    requires Sound(t)
    ensures Maintained(t, RunOnce(p, t, now).0)
  {
    var raw, minute, hour := now - Days(p.rawDays), now - Days(p.minuteDays), now - Days(p.hourDays);
    hide Sound, RunOnce, Days, AfterPreparing, AfterDrops, AfterPurge, ExpiredCells, DeleteMinuteCells, DeleteHourCells;
    var t1 := AfterPreparing(p, t, now);
    var t2 := AfterDrops(t1, raw);
    var t3 := AfterPurge(t2, raw);
    var t4 := DeleteMinuteCells(t3, ExpiredCells(t3.minute, minute), minute);
    RunUnfolds(p, t, now, raw, t1, t2, t3, t4);
    RawRowsSound(p, t, now, raw);
    CellsSound(t3, minute, hour);
  }

  lemma PreparedSound(t: Store, first: int, n: nat)
    requires Sound(t)
    ensures Sound(EnsureWindow(t, first, n))
  {
    var t' := EnsureWindow(t, first, n);
    assert Routed(t') && LiveSinceHorizon(t');
    hide Ordered, Agrees, LiveSinceHorizon, Routed, DistinctKeys, Creatable;
  }

  // ---- The job as an object -----------------------------------------------------------------

  lemma {:induction false} WithoutTwice(rows: seq<Row>, a: set<Row>, b: set<Row>)
    ensures Without(Without(rows, a), b) == Without(rows, a + b)
  {
    if rows != [] {
      WithoutTwice(rows[1..], a, b);
    }
  }

  lemma RaiseTwice(h: Horizon, cutoff: int)
    ensures Raise(Raise(h, cutoff), cutoff) == Raise(h, cutoff)
  {
  }

  /** Dropping one more day after `done`. */
  lemma DropOneMore(t: Store, done: set<int>, day: int, cutoff: int)
    requires day !in done
    ensures DropPartitions(DropPartitions(t, done, cutoff), {day}, cutoff) == DropPartitions(t, done + {day}, cutoff)
  {
    var t1 := DropPartitions(t, done, cutoff);
    WithoutMembers(t.rows, RowsOfDays(t.rows, done));
    assert RowsOfDays(t1.rows, {day}) == RowsOfDays(t.rows, {day});
    assert RowsOfDays(t.rows, done) + RowsOfDays(t.rows, {day}) == RowsOfDays(t.rows, done + {day});
    WithoutTwice(t.rows, RowsOfDays(t.rows, done), RowsOfDays(t.rows, {day}));
    RaiseTwice(t.rawHorizon, cutoff);
    assert t.partitions - done - {day} == t.partitions - (done + {day});
    hide Without, RowsOfDays, Raise;
  }

  lemma EmptyWindow(t: Store, first: int)
    ensures Creatable(t, first, 0) == {} && EnsureWindow(t, first, 0) == t
  {
    assert Creatable(t, first, 0) == {} && t.partitions + {} == t.partitions;
  }

  lemma CreatableStep(t: Store, first: int, n: nat)
    ensures var day := first + n; var t1 := EnsureWindow(t, first, n);
            && (Creates(t1, day) <==> Creates(t, day))
            && |Creatable(t, first, n + 1)| == |Creatable(t, first, n)| + (if Creates(t, day) then 1 else 0)
            && CreatePartition(t1, day) == EnsureWindow(t, first, n + 1)
  {
    var day, t1 := first + n, EnsureWindow(t, first, n);
    assert Refuses(t1, day) <==> Refuses(t, day);
    var a, b := Creatable(t, first, n), Creatable(t, first, n + 1);
    assert day !in a;
    if Creates(t, day) {
      assert b == a + {day};
      assert t.partitions + (a + {day}) == t1.partitions + {day};
    } else {
      assert b == a;
    }
    hide Refuses;
  }

  function Cells(u: Unit, t: Store): Table {
    if u.Minute? then t.minute else t.hour
  }

  function DeleteCells(u: Unit, t: Store, victims: set<Cell>, cutoff: int): Store {
    if u.Minute? then DeleteMinuteCells(t, victims, cutoff) else DeleteHourCells(t, victims, cutoff)
  }

  class RetentionJob {
    const db: Database
    const policy: Policy

    constructor (db: Database, policy: Policy)
      ensures this.db == db && this.policy == policy
    {
      this.db, this.policy := db, policy;
    }

    /** One run, statement by statement: the tables and the reported counts are those of the
        specification, so everything proved about it holds of this method. */
    method Run(now: int) returns (result: Result)
      requires policy.batchSize > 0
      modifies db`store
      ensures (db.store, result) == RunOnce(policy, old(db.store), now)
    {
      hide EnsureWindow, Creatable, AfterDrops, ExpiredDays, AfterPurge, ExpiredDefaultRows, ExpiredCells,
        DeleteMinuteCells, DeleteHourCells, Days;
      var raw := now - Days(policy.rawDays);
      var created := EnsureDailyPartitions(DayOf(now));
      var dropped := DropExpiredPartitions(raw);
      var rows := DeleteBefore(raw);
      var minute := DeleteCellsBefore(Minute, now - Days(policy.minuteDays));
      var hour := DeleteCellsBefore(Hour, now - Days(policy.hourDays));
      result := Result(created, dropped, rows, minute, hour);
    }

    /** Creates the missing partitions of the window around `today`. */
    method EnsureDailyPartitions(today: int) returns (created: nat)
      modifies db`store
      ensures db.store == EnsureWindow(old(db.store), today - policy.daysBack, WindowLength(policy))
      ensures created == |Creatable(old(db.store), today - policy.daysBack, WindowLength(policy))|
    {
      hide Creatable, Creates, EnsureWindow, CreatePartition;
      ghost var t := db.store;
      var first := today - policy.daysBack;
      created := 0;
      EmptyWindow(t, first);
      for offset := 0 to WindowLength(policy)
        invariant db.store == EnsureWindow(t, first, offset)
        invariant created == |Creatable(t, first, offset)|
      {
        var day := first + offset;
        CreatableStep(t, first, offset);
        if Creates(db.store, day) {
          created := created + 1;
        }
        db.store := CreatePartition(db.store, day);
      }
    }

    /** Drops the days that end at or before the cutoff, one after the other. */
    method DropExpiredPartitions(cutoff: int) returns (dropped: nat)
      modifies db`store
      ensures db.store == AfterDrops(old(db.store), cutoff)
      ensures dropped == |ExpiredDays(old(db.store).partitions, cutoff)|
    {
      ghost var t := db.store;
      var expired := ExpiredDays(db.store.partitions, cutoff);
      var todo := expired;
      ghost var done: set<int> := {};
      dropped := 0;
      while todo != {}
        invariant done !! todo && done + todo == expired
        invariant db.store == if done == {} then t else DropPartitions(t, done, cutoff)
        invariant dropped + |todo| == |expired|
        decreases |todo|
      {
        var day :| day in todo;
        if done == {} {
          assert done + {day} == {day};
        } else {
          DropOneMore(t, done, day, cutoff);
        }
        db.store := DropPartitions(db.store, {day}, cutoff);
        todo, done, dropped := todo - {day}, done + {day}, dropped + 1;
      }
      assert done == expired;
    }

    /** `DELETE ... LIMIT`: some of the expired rows, at most a batch, all if they fit. */
    method DeleteSome<T(==)>(expired: set<T>) returns (victims: set<T>)
      ensures victims <= expired
      ensures |victims| == if |expired| < policy.batchSize then |expired| else policy.batchSize
    {
      victims := {};
      while victims != expired && |victims| < policy.batchSize
        invariant victims <= expired && |victims| <= policy.batchSize
        decreases |expired - victims|
      {
        var r :| r in expired - victims;
        assert expired - (victims + {r}) < expired - victims;
        Smaller(expired - (victims + {r}), expired - victims);
        victims := victims + {r};
      }
      Subset(victims, expired);
    }

    /** One `DELETE` statement. */
    method DeleteBatch(cutoff: int) returns (count: nat, ghost victims: set<Row>)
      modifies db`store
      ensures victims <= ExpiredDefaultRows(old(db.store).rows, cutoff) && count == |victims|
      ensures count < policy.batchSize ==> victims == ExpiredDefaultRows(old(db.store).rows, cutoff)
      ensures db.store == DeleteDefaultRows(old(db.store), victims, cutoff)
    {
      var expired := ExpiredDefaultRows(db.store.rows, cutoff);
      var chosen := DeleteSome(expired);
      Subset(chosen, expired);
      db.store := DeleteDefaultRows(db.store, chosen, cutoff);
      count, victims := |chosen|, chosen;
    }

    /** Deletes the expired rows of the default partition in batches, until a short one. */
    method DeleteBefore(cutoff: int) returns (total: nat)
      requires policy.batchSize > 0
      modifies db`store
      ensures db.store == AfterPurge(old(db.store), cutoff)
      ensures total == |ExpiredDefaultRows(old(db.store).rows, cutoff)|
    {
      hide ExpiredDefaultRows, DeleteDefaultRows;
      ghost var t := db.store;
      ghost var all := ExpiredDefaultRows(t.rows, cutoff);
      var count;
      ghost var victims: set<Row>;
      count, victims := DeleteBatch(cutoff);
      ghost var gone := victims;
      total := count;
      while count >= policy.batchSize
        invariant gone <= all && total == |gone|
        invariant db.store == DeleteDefaultRows(t, gone, cutoff)
        invariant count < policy.batchSize ==> gone == all
        decreases |all - gone|, count
      {
        count, victims := DeleteBatch(cutoff);
        BatchStep(t, all, gone, victims, cutoff);
        gone, total := gone + victims, total + count;
      }
    }

    lemma BatchStep(t: Store, all: set<Row>, gone: set<Row>, victims: set<Row>, cutoff: int)
      requires all == ExpiredDefaultRows(t.rows, cutoff) && gone <= all
      requires victims <= ExpiredDefaultRows(DeleteDefaultRows(t, gone, cutoff).rows, cutoff)
      ensures gone + victims <= all && |gone + victims| == |gone| + |victims|
      ensures |all - (gone + victims)| == |all - gone| - |victims|
      ensures DeleteDefaultRows(DeleteDefaultRows(t, gone, cutoff), victims, cutoff) == DeleteDefaultRows(t, gone + victims, cutoff)
      ensures victims == ExpiredDefaultRows(DeleteDefaultRows(t, gone, cutoff).rows, cutoff) ==> gone + victims == all
    {
      DeletedSoFar(t, gone, cutoff);
      DeleteMore(t, gone, victims, cutoff);
      hide ExpiredDefaultRows, DeleteDefaultRows;
      OneMoreBatch(all, gone, victims);
    }

    lemma OneMoreBatch<T>(all: set<T>, gone: set<T>, victims: set<T>)
      requires gone <= all && victims <= all - gone
      ensures gone + victims <= all && |gone + victims| == |gone| + |victims|
      ensures |all - (gone + victims)| == |all - gone| - |victims|
      ensures victims == all - gone ==> gone + victims == all
    {
      Disjoint(gone, victims);
      assert all - (gone + victims) == (all - gone) - victims;
      Shrinks(all - gone, victims);
    }

    /** The same loop over the minute or the hour buckets, whose rows are cells. */
    method DeleteCellsBefore(u: Unit, cutoff: int) returns (total: nat)
      requires policy.batchSize > 0
      modifies db`store
      ensures db.store == DeleteCells(u, old(db.store), ExpiredCells(Cells(u, old(db.store)), cutoff), cutoff)
      ensures total == |ExpiredCells(Cells(u, old(db.store)), cutoff)|
    {
      hide ExpiredCells, DeleteCells, Cells;
      ghost var t := db.store;
      ghost var all := ExpiredCells(Cells(u, t), cutoff);
      var victims := DeleteSome(ExpiredCells(Cells(u, db.store), cutoff));
      db.store := DeleteCells(u, db.store, victims, cutoff);
      ghost var gone := victims;
      Subset(victims, all);
      total := |victims|;
      while |victims| >= policy.batchSize
        invariant gone <= all && total == |gone|
        invariant db.store == DeleteCells(u, t, gone, cutoff)
        invariant |victims| < policy.batchSize ==> gone == all
        decreases |all - gone|, |victims|
      {
        CellBatches(u, t, gone, cutoff);
        victims := DeleteSome(ExpiredCells(Cells(u, db.store), cutoff));
        Subset(victims, all - gone);
        OneMoreBatch(all, gone, victims);
        db.store := DeleteCells(u, db.store, victims, cutoff);
        gone, total := gone + victims, total + |victims|;
      }
    }

    lemma CellBatches(u: Unit, t: Store, gone: set<Cell>, cutoff: int)
      requires gone <= ExpiredCells(Cells(u, t), cutoff)
      ensures var t' := DeleteCells(u, t, gone, cutoff);
              && ExpiredCells(Cells(u, t'), cutoff) == ExpiredCells(Cells(u, t), cutoff) - gone
              && forall victims :: DeleteCells(u, t', victims, cutoff) == DeleteCells(u, t, gone + victims, cutoff)
    {
      forall victims: set<Cell>
        ensures DeleteCells(u, DeleteCells(u, t, gone, cutoff), victims, cutoff) == DeleteCells(u, t, gone + victims, cutoff)
      {
        RaiseTwice(if u.Minute? then t.minuteHorizon else t.hourHorizon, cutoff);
        assert Cells(u, t) - gone - victims == Cells(u, t) - (gone + victims);
      }
    }

    lemma DeletedSoFar(t: Store, gone: set<Row>, cutoff: int)
      requires gone <= ExpiredDefaultRows(t.rows, cutoff)
      ensures ExpiredDefaultRows(DeleteDefaultRows(t, gone, cutoff).rows, cutoff) == ExpiredDefaultRows(t.rows, cutoff) - gone
    {
      WithoutMembers(t.rows, gone);
    }

    lemma DeleteMore(t: Store, gone: set<Row>, victims: set<Row>, cutoff: int)
      ensures DeleteDefaultRows(DeleteDefaultRows(t, gone, cutoff), victims, cutoff) == DeleteDefaultRows(t, gone + victims, cutoff)
    {
      WithoutTwice(t.rows, gone, victims);
      RaiseTwice(t.rawHorizon, cutoff);
      hide Without, Raise;
    }

    lemma Shrinks<T>(a: set<T>, b: set<T>)
      requires b <= a
      ensures |a - b| == |a| - |b|
    {
      Disjoint(a - b, b);
      assert a - b + b == a;
    }

    lemma Smaller<T>(a: set<T>, b: set<T>)
      requires a < b
      ensures |a| < |b|
    {
      assert b == a + (b - a) && a !! (b - a);
    }

    lemma Subset<T>(a: set<T>, b: set<T>)
      requires a <= b
      ensures |a| <= |b|
      ensures |a| == |b| ==> a == b
    {
      assert b == a + (b - a) && a !! (b - a);
    }

    lemma Disjoint<T>(a: set<T>, b: set<T>)
      requires a !! b
      ensures |a + b| == |a| + |b|
    {
    }
  }
}
