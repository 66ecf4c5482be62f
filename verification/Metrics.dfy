/** Dashboard metrics from the aggregate tables. Every number of a snapshot is compared with one
    independent reference: a tally over the raw events whose minute lies in the window. */
module Metrics {
  import opened Events
  import opened Rollup
  import opened Tables

  /** The starts of the first minute compared with, the first minute shown, and the minute in progress. */
  datatype Window = Window(previousStart: int, start: int, current: int)

  function EndingAt(now: int, minutes: nat): Window {
    var current := Floor(MINUTE, now);
    var start := current - (minutes - 1) * MINUTE;
    Window(start - minutes * MINUTE, start, current)
  }

  datatype SeriesRow = SeriesRow(bucket: int, eventType: EventType, totals: Totals)

  datatype BreakdownRow = BreakdownRow(dimension: Dimension, value: Label, eventType: EventType, totals: Totals)

  datatype Kpis = Kpis(revenue: int, orders: int, paid: int, shipped: int, cancelled: int,
                       averageOrder: Option<real>, cancellationRate: Option<real>)

  datatype SeriesPoint = SeriesPoint(bucket: int, revenue: int, orders: int, cancelled: int)

  datatype RankedItem = RankedItem(name: Label, revenue: int, orders: int)

  function Value(m: Metric, x: Totals): int {
    if m.Count? then x.count else x.amount
  }

  // ---- The reference -------------------------------------------------------------------------

  /** An event of type `t` in the minutes from `first` to `last`, both included. */
  predicate Counted(e: Event, t: EventType, first: int, last: int) {
    e.eventType == t && first <= e.occurredAt < last + MINUTE
  }

  function Picked(es: seq<Event>, d: Dimension, name: Label, t: EventType, first: int, last: int): seq<Event> {
    if es == [] then []
    else
      var rest := Picked(es[1..], d, name, t, first, last);
      if InField(es[0], d, name) && Counted(es[0], t, first, last) then [es[0]] + rest else rest
  }

  /** How many raw events carry a name, and what their amounts add up to. */
  function TallyOf(m: Metric, es: seq<Event>, d: Dimension, name: Label, t: EventType, first: int, last: int): int {
    var picked := Picked(es, d, name, t, first, last);
    if m.Count? then |picked| else Money(picked)
  }

  /** The same over all names. */
  function Tally(m: Metric, es: seq<Event>, t: EventType, first: int, last: int): int {
    TallyOf(m, es, All, NO_VALUE, t, first, last)
  }

  lemma {:induction false} MeasureIsTallyOf(
    m: Metric, d: Dimension, es: seq<Event>, cells: set<Cell>, f: Dimension, name: Label, t: EventType, first: int, last: int)
    requires forall e :: e in es ==> (CellOf(Minute, d, e) in cells <==> InField(e, f, name) && Counted(e, t, first, last))
    ensures Measure(m, Minute, d, es, cells) == TallyOf(m, es, f, name, t, first, last)
    decreases |es|
  {
    if es != [] {
      assert es[0] in es;
      MeasureIsTallyOf(m, d, es[1..], cells, f, name, t, first, last);
      hide CellOf, InField, Counted;
    }
  }

  lemma MeasureIsTally(m: Metric, d: Dimension, es: seq<Event>, cells: set<Cell>, t: EventType, first: int, last: int)
    requires forall e :: e in es ==> (CellOf(Minute, d, e) in cells <==> Counted(e, t, first, last))
    ensures Measure(m, Minute, d, es, cells) == Tally(m, es, t, first, last)
  {
    assert forall e: Event :: InField(e, All, NO_VALUE);
    hide CellOf, InField, Counted, Measure;
    MeasureIsTallyOf(m, d, es, cells, All, NO_VALUE, t, first, last);
  }

  /** From the start of a minute to the end of a minute. */
  ghost predicate Aligned(first: int, last: int) {
    first % MINUTE == 0 && last % MINUTE == 0
  }

  /** Then an event is counted by its minute bucket. */
  lemma CountedByBucket(e: Event, t: EventType, first: int, last: int)
    requires Aligned(first, last)
    ensures Counted(e, t, first, last) <==> e.eventType == t && first <= Floor(MINUTE, e.occurredAt) <= last
  {
    var at := e.occurredAt;
    assert at == MINUTE * (at / MINUTE) + at % MINUTE;
    assert first == MINUTE * (first / MINUTE) && last == MINUTE * (last / MINUTE);
  }

  /** The rollup is right from `first` on. */
  ghost predicate RightSince(table: Table, es: seq<Event>, first: int) {
    forall c: Cell :: c.bucket >= first ==> SameCell(table, GroupBy(Minute, es), c)
  }

  /** The minute table that retention leaves is right for every window it still keeps. */
  lemma KeptIsRight(table: Table, es: seq<Event>, h: Horizon, first: int)
    requires Agrees(table, Minute, es, h) && Kept(h, first)
    ensures RightSince(table, es, first)
  {
    hide GroupBy;
  }

  lemma KeptHoursAreRight(table: Table, es: seq<Event>, h: Horizon, first: int)
    requires Agrees(table, Hour, es, h) && Kept(h, first)
    ensures HoursRightSince(table, es, first)
  {
    hide GroupBy;
  }

  lemma RightCell(table: Table, es: seq<Event>, first: int, c: Cell)
    requires RightSince(table, es, first) && c.bucket >= first
    ensures c in table <==> Touched(Minute, es, c)
    ensures c in table ==> forall m: Metric :: Value(m, table[c]) == Measure(m, Minute, c.dimension, es, {c})
  {
    assert SameCell(table, GroupBy(Minute, es), c);
    CellPresent(Minute, es, c);
    hide Measure, Touched, CellsOf;
  }

  // ---- Windows -------------------------------------------------------------------------------

  predicate InCurrent(w: Window, bucket: int) {
    w.start <= bucket <= w.current
  }

  predicate InPrevious(w: Window, bucket: int) {
    w.previousStart <= bucket < w.start
  }

  /** The two windows are adjacent, disjoint and equally long, and end with the current minute: the
      bucket that is `k` minutes old lies in the current window exactly for `k < minutes`, in the
      previous one exactly for `minutes <= k < 2 * minutes`. */
  lemma WindowsAreAdjacent(now: int, minutes: nat, k: nat)
    ensures var w := EndingAt(now, minutes); var bucket := Floor(MINUTE, now) - k * MINUTE;
            && (InCurrent(w, bucket) <==> k < minutes)
            && (InPrevious(w, bucket) <==> minutes <= k < 2 * minutes)
            && w.current <= now < w.current + MINUTE
            && w.start - w.previousStart == w.current + MINUTE - w.start
  {
  }

  // ---- Sums by event type ----------------------------------------------------------------------

  function AllCell(bucket: int, t: EventType): Cell {
    Cell(All, bucket, NO_VALUE, t)
  }

  /** The rows of the `all` dimension with a bucket from `first` to `last`, each once, in any order. */
  ghost predicate ListsSeries(rows: seq<SeriesRow>, table: Table, first: int, last: int) {
    && DistinctSeries(rows)
    && (forall r :: r in rows ==>
          first <= r.bucket <= last && AllCell(r.bucket, r.eventType) in table && table[AllCell(r.bucket, r.eventType)] == r.totals)
    && (forall b, t :: first <= b <= last && AllCell(b, t) in table ==> SeriesRow(b, t, table[AllCell(b, t)]) in rows)
  }

  function SumOf(m: Metric, rows: seq<SeriesRow>, t: EventType): int
    decreases |rows|
  {
    if rows == [] then 0
    else
      var last := rows[|rows| - 1];
      SumOf(m, rows[..|rows| - 1], t) + if last.eventType == t then Value(m, last.totals) else 0
  }

  function Got(totals: map<EventType, Totals>, t: EventType): Totals {
    if t in totals then totals[t] else Totals(0, 0)
  }

  method SumByEventType(rows: seq<SeriesRow>) returns (totals: map<EventType, Totals>)
    ensures forall t: EventType :: Got(totals, t) == Totals(SumOf(Count, rows, t), SumOf(Amount, rows, t))
  {
    totals := map[];
    for i := 0 to |rows|
      invariant forall t: EventType :: Got(totals, t) == Totals(SumOf(Count, rows[..i], t), SumOf(Amount, rows[..i], t))
    {
      var row, before := rows[i], Got(totals, rows[i].eventType);
      assert rows[..i + 1][..i] == rows[..i];
      totals := totals[row.eventType := Totals(before.count + row.totals.count, before.amount + row.totals.amount)];
    }
    assert rows[..|rows|] == rows;
  }

  function CellsOfType(rows: seq<SeriesRow>, t: EventType): set<Cell> {
    set r | r in rows && r.eventType == t :: AllCell(r.bucket, r.eventType)
  }

  ghost predicate DistinctSeries(rows: seq<SeriesRow>) {
    forall i, j :: 0 <= i < j < |rows| ==> AllCell(rows[i].bucket, rows[i].eventType) != AllCell(rows[j].bucket, rows[j].eventType)
  }

  ghost predicate CarriesMeasure(m: Metric, r: SeriesRow, es: seq<Event>) {
    Value(m, r.totals) == Measure(m, Minute, All, es, {AllCell(r.bucket, r.eventType)})
  }

  lemma CellsOfTypeStep(before: seq<SeriesRow>, last: SeriesRow, t: EventType)
    requires DistinctSeries(before + [last])
    ensures DistinctSeries(before)
    ensures var cell := AllCell(last.bucket, last.eventType);
            if last.eventType == t
            then CellsOfType(before + [last], t) == CellsOfType(before, t) + {cell} && cell !in CellsOfType(before, t)
            else CellsOfType(before + [last], t) == CellsOfType(before, t)
  {
    var rows := before + [last];
    assert forall i :: 0 <= i < |before| ==> rows[i] == before[i];
    assert rows[|before|] == last;
    forall r | r in before ensures AllCell(r.bucket, r.eventType) != AllCell(last.bucket, last.eventType) {
      var i :| 0 <= i < |before| && before[i] == r;
      assert AllCell(rows[i].bucket, rows[i].eventType) != AllCell(rows[|before|].bucket, rows[|before|].eventType);
    }
    assert forall r :: r in rows <==> r in before || r == last;
  }

  lemma {:induction false} SumOfIsMeasure(m: Metric, rows: seq<SeriesRow>, t: EventType, es: seq<Event>)
    requires DistinctSeries(rows) && (forall r :: r in rows ==> CarriesMeasure(m, r, es))
    ensures SumOf(m, rows, t) == Measure(m, Minute, All, es, CellsOfType(rows, t))
    decreases |rows|
  {
    if rows == [] {
      assert CellsOfType(rows, t) == {};
      MeasureUntouched(m, Minute, All, es, {});
    } else {
      var n := |rows| - 1;
      var before, last := rows[..n], rows[n];
      assert rows == before + [last] && last in rows;
      hide Measure, CellsOfType, DistinctSeries;
      CellsOfTypeStep(before, last, t);
      SumOfIsMeasure(m, before, t, es);
      if last.eventType == t {
        MeasureUnion(m, Minute, All, es, CellsOfType(before, t), {AllCell(last.bucket, t)});
      }
    }
  }

  /** The totals of the listed rows are the tally over the raw events. */
  lemma SeriesSumIsTally(m: Metric, rows: seq<SeriesRow>, t: EventType, table: Table, es: seq<Event>, first: int, last: int)
    requires Aligned(first, last) && ListsSeries(rows, table, first, last) && RightSince(table, es, first)
    ensures SumOf(m, rows, t) == Tally(m, es, t, first, last)
  {
    forall r | r in rows ensures CarriesMeasure(m, r, es) {
      RightCell(table, es, first, AllCell(r.bucket, r.eventType));
    }
    SumOfIsMeasure(m, rows, t, es);
    var cells := CellsOfType(rows, t);
    forall e | e in es ensures CellOf(Minute, All, e) in cells <==> Counted(e, t, first, last) {
      CountedIsListed(rows, t, table, es, first, last, e);
    }
    MeasureIsTally(m, All, es, cells, t, first, last);
  }

  lemma CountedIsListed(rows: seq<SeriesRow>, t: EventType, table: Table, es: seq<Event>, first: int, last: int, e: Event)
    requires Aligned(first, last) && ListsSeries(rows, table, first, last) && RightSince(table, es, first) && e in es
    ensures CellOf(Minute, All, e) in CellsOfType(rows, t) <==> Counted(e, t, first, last)
  {
    CountedByBucket(e, t, first, last);
    hide Counted;
    var c := CellOf(Minute, All, e);
    assert c == AllCell(c.bucket, e.eventType);
    if Counted(e, t, first, last) {
      RightCell(table, es, first, c);
      assert SeriesRow(c.bucket, t, table[c]) in rows;
    }
  }

  // ---- Key figures -------------------------------------------------------------------------------

  function ComputeKpis(totals: map<EventType, Totals>): Kpis {
    var placed, paid, cancelled := Got(totals, Placed).count, Got(totals, Paid), Got(totals, Cancelled).count;
    Kpis(paid.amount, placed, paid.count, Got(totals, Shipped).count, cancelled,
         if paid.count != 0 then Some(paid.amount as real / paid.count as real) else None,
         if placed != 0 then Some(cancelled as real / placed as real) else None)
  }

  /** The key figures of a window, from the raw events. */
  function KpisOf(es: seq<Event>, first: int, last: int): Kpis {
    var placed, paid := Tally(Count, es, Placed, first, last), Tally(Count, es, Paid, first, last);
    var revenue, cancelled := Tally(Amount, es, Paid, first, last), Tally(Count, es, Cancelled, first, last);
    Kpis(revenue, placed, paid, Tally(Count, es, Shipped, first, last), cancelled,
         if paid != 0 then Some(revenue as real / paid as real) else None,
         if placed != 0 then Some(cancelled as real / placed as real) else None)
  }

  lemma KpisAreTallies(rows: seq<SeriesRow>, totals: map<EventType, Totals>, table: Table, es: seq<Event>, first: int, last: int)
    requires Aligned(first, last) && ListsSeries(rows, table, first, last) && RightSince(table, es, first)
    requires forall t: EventType :: Got(totals, t) == Totals(SumOf(Count, rows, t), SumOf(Amount, rows, t))
    ensures ComputeKpis(totals) == KpisOf(es, first, last)
  {
    forall m: Metric, t: EventType ensures SumOf(m, rows, t) == Tally(m, es, t, first, last) {
      SeriesSumIsTally(m, rows, t, table, es, first, last);
    }
    hide ListsSeries, RightSince, SumOf, Tally;
  }

  // ---- Dense series --------------------------------------------------------------------------------

  /** The last row of a bucket and type, as dictionary assignment leaves it; zero without one. */
  function RowOf(rows: seq<SeriesRow>, bucket: int, t: EventType): Totals
    decreases |rows|
  {
    if rows == [] then Totals(0, 0)
    else
      var last := rows[|rows| - 1];
      if last.bucket == bucket && last.eventType == t then last.totals else RowOf(rows[..|rows| - 1], bucket, t)
  }

  function PointOf(rows: seq<SeriesRow>, bucket: int): SeriesPoint {
    SeriesPoint(bucket, RowOf(rows, bucket, Paid).amount, RowOf(rows, bucket, Placed).count, RowOf(rows, bucket, Cancelled).count)
  }

  /** How many buckets a series from `start` to `end` has, both included. */
  function Points(start: int, end: int, step: int): nat
    requires step > 0
  {
    if start > end then 0 else (end - start) / step + 1
  }

  /** One point per bucket, without gaps; a bucket without rows is a point of zeros. */
  method DenseSeries(rows: seq<SeriesRow>, start: int, end: int, step: int) returns (points: seq<SeriesPoint>)
    requires step > 0
    ensures |points| == Points(start, end, step)
    ensures forall i :: 0 <= i < |points| ==> points[i] == PointOf(rows, start + i * step)
  {
    var byBucket: map<(int, EventType), Totals> := map[];
    for i := 0 to |rows|
      invariant forall b: int, t: EventType ::
                  RowOf(rows[..i], b, t) == if (b, t) in byBucket then byBucket[(b, t)] else Totals(0, 0)
    {
      assert rows[..i + 1][..i] == rows[..i];
      byBucket := byBucket[(rows[i].bucket, rows[i].eventType) := rows[i].totals];
    }
    assert rows[..|rows|] == rows;
    hide RowOf;
    points := [];
    var bucket := start;
    while bucket <= end
      invariant bucket == start + |points| * step
      invariant bucket <= end + step || points == []
      invariant forall i :: 0 <= i < |points| ==> points[i] == PointOf(rows, start + i * step)
      decreases end - bucket
    {
      var paid := if (bucket, Paid) in byBucket then byBucket[(bucket, Paid)] else Totals(0, 0);
      var placed := if (bucket, Placed) in byBucket then byBucket[(bucket, Placed)] else Totals(0, 0);
      var cancelled := if (bucket, Cancelled) in byBucket then byBucket[(bucket, Cancelled)] else Totals(0, 0);
      points := points + [SeriesPoint(bucket, paid.amount, placed.count, cancelled.count)];
      NextBucket(|points|, step);
      bucket := bucket + step;
    }
    PointCount(start, end, step, |points|);
  }

  lemma NextBucket(n: nat, step: int)
    ensures n > 0 ==> n * step == (n - 1) * step + step
  {
  }

  lemma PointCount(start: int, end: int, step: int, n: nat)
    requires step > 0 && start + n * step > end && (start + n * step <= end + step || n == 0)
    ensures n == Points(start, end, step)
  {
    if start <= end {
      var q, r := (end - start) / step, (end - start) % step;
      assert end - start == q * step + r;
      assert (n - 1) * step == n * step - step;
      assert (n - 1 - q) * step == (n - 1) * step - q * step;
      assert (q + 1 - n) * step == q * step + step - n * step;
      Sign(n - 1 - q, step);
      Sign(q + 1 - n, step);
    }
  }

  /** `d * step` below `step` means that `d` is not positive. */
  lemma Sign(d: int, step: int)
    requires step > 0 && d * step < step
    ensures d <= 0
  {
  }

  // ---- The series adds up to the key figures -------------------------------------------------------

  datatype Column = Revenue | Orders | CancelledOrders

  function ColumnOf(p: SeriesPoint, c: Column): int {
    match c
    case Revenue => p.revenue
    case Orders => p.orders
    case CancelledOrders => p.cancelled
  }

  function MetricOf(c: Column): Metric {
    if c.Revenue? then Amount else Count
  }

  function TypeOf(c: Column): EventType {
    match c
    case Revenue => Paid
    case Orders => Placed
    case CancelledOrders => Cancelled
  }

  function ColumnSum(points: seq<SeriesPoint>, c: Column): int
    decreases |points|
  {
    if points == [] then 0 else ColumnSum(points[..|points| - 1], c) + ColumnOf(points[|points| - 1], c)
  }

  lemma {:induction false} RowOfMeaning(rows: seq<SeriesRow>, bucket: int, t: EventType)
    ensures SeriesRow(bucket, t, RowOf(rows, bucket, t)) in rows
         || (RowOf(rows, bucket, t) == Totals(0, 0) && forall r :: r in rows ==> r.bucket != bucket || r.eventType != t)
    decreases |rows|
  {
    if rows != [] {
      var n := |rows| - 1;
      RowOfMeaning(rows[..n], bucket, t);
      assert rows == rows[..n] + [rows[n]];
    }
  }

  lemma RowOfIsLookup(
    m: Metric, rows: seq<SeriesRow>, table: Table, u: Unit, es: seq<Event>, first: int, last: int, bucket: int, t: EventType)
    requires ListsSeries(rows, table, first, last) && first <= bucket <= last
    requires SameCell(table, GroupBy(u, es), AllCell(bucket, t))
    ensures Value(m, RowOf(rows, bucket, t)) == Lookup(m, GroupBy(u, es), AllCell(bucket, t))
  {
    RowOfMeaning(rows, bucket, t);
    hide DistinctSeries, RowOf, GroupBy;
  }

  lemma MinuteRowIsLookup(m: Metric, rows: seq<SeriesRow>, table: Table, es: seq<Event>, first: int, last: int, bucket: int, t: EventType)
    requires ListsSeries(rows, table, first, last) && RightSince(table, es, first) && first <= bucket <= last
    ensures Value(m, RowOf(rows, bucket, t)) == Lookup(m, GroupBy(Minute, es), AllCell(bucket, t))
  {
    assert SameCell(table, GroupBy(Minute, es), AllCell(bucket, t));
    hide ListsSeries, RowOf, GroupBy, Lookup;
    RowOfIsLookup(m, rows, table, Minute, es, first, last, bucket, t);
  }

  lemma PointColumn(rows: seq<SeriesRow>, bucket: int, c: Column)
    ensures ColumnOf(PointOf(rows, bucket), c) == Value(MetricOf(c), RowOf(rows, bucket, TypeOf(c)))
  {
  }

  lemma AlignedBucket(e: Event, t: EventType, first: int, n: nat)
    requires first % MINUTE == 0
    ensures CellOf(Minute, All, e) in MinuteCells(AllCell(first, t), n) <==> Counted(e, t, first, first + (n - 1) * MINUTE)
  {
    var b := Floor(MINUTE, e.occurredAt);
    var x := CellOf(Minute, All, e);
    InMinuteCells(AllCell(first, t), n, x);
    assert Aligned(first, first + (n - 1) * MINUTE);
    CountedByBucket(e, t, first, first + (n - 1) * MINUTE);
    hide Counted;
    if Counted(e, t, first, first + (n - 1) * MINUTE) {
      var i := (b - first) / MINUTE;
      assert b == first + i * MINUTE;
      assert x == MinuteCell(AllCell(first, t), i);
    }
  }

  /** The minute rows from `first` on add up to the tally of those minutes. */
  lemma MinutesAreTally(m: Metric, es: seq<Event>, t: EventType, first: int, n: nat)
    requires first % MINUTE == 0
    ensures MinuteSum(m, GroupBy(Minute, es), AllCell(first, t), n) == Tally(m, es, t, first, first + (n - 1) * MINUTE)
  {
    var last, cell := first + (n - 1) * MINUTE, AllCell(first, t);
    MinuteSumIsMeasure(m, es, cell, n);
    forall e | e in es ensures CellOf(Minute, All, e) in MinuteCells(cell, n) <==> Counted(e, t, first, last) {
      AlignedBucket(e, t, first, n);
    }
    MeasureIsTally(m, All, es, MinuteCells(cell, n), t, first, last);
  }

  /** A point of the per-minute series is the tally of its minute. */
  lemma MinutePointIsTally(c: Column, rows: seq<SeriesRow>, table: Table, es: seq<Event>, first: int, last: int, bucket: int)
    requires ListsSeries(rows, table, first, last) && RightSince(table, es, first)
    requires first <= bucket <= last && bucket % MINUTE == 0
    ensures ColumnOf(PointOf(rows, bucket), c) == Tally(MetricOf(c), es, TypeOf(c), bucket, bucket)
  {
    var cell := AllCell(bucket, TypeOf(c));
    assert MinuteSum(MetricOf(c), GroupBy(Minute, es), cell, 1) == Lookup(MetricOf(c), GroupBy(Minute, es), cell) by {
      assert MinuteCell(cell, 0) == cell;
      hide GroupBy, Lookup, MetricOf, TypeOf;
    }
    hide ListsSeries, RightSince, GroupBy, Lookup, RowOf, Value, PointOf, ColumnOf, MetricOf, TypeOf, MinuteSum, Tally;
    PointColumn(rows, bucket, c);
    MinuteRowIsLookup(MetricOf(c), rows, table, es, first, last, bucket, TypeOf(c));
    MinutesAreTally(MetricOf(c), es, TypeOf(c), bucket, 1);
  }

  /** The end of the hour that starts at `bucket`: its last minute. */
  function LastMinute(bucket: int): int {
    bucket + 59 * MINUTE
  }

  /** The hour table is right from `first` on. */
  ghost predicate HoursRightSince(table: Table, es: seq<Event>, first: int) {
    forall c: Cell :: c.bucket >= first ==> SameCell(table, GroupBy(Hour, es), c)
  }

  /** A point of the hourly series is the tally of the sixty minutes of its hour. */
  lemma HourPointIsTally(c: Column, rows: seq<SeriesRow>, table: Table, es: seq<Event>, first: int, last: int, bucket: int)
    requires ListsSeries(rows, table, first, last) && HoursRightSince(table, es, first)
    requires first <= bucket <= last && bucket % HOUR == 0
    ensures ColumnOf(PointOf(rows, bucket), c) == Tally(MetricOf(c), es, TypeOf(c), bucket, LastMinute(bucket))
  {
    assert SameCell(table, GroupBy(Hour, es), AllCell(bucket, TypeOf(c)));
    assert bucket % MINUTE == 0;
    hide ListsSeries, HoursRightSince, GroupBy, Lookup, RowOf, Value, PointOf, ColumnOf, MetricOf, TypeOf, SameCell,
      MinuteSum, Tally;
    PointColumn(rows, bucket, c);
    RowOfIsLookup(MetricOf(c), rows, table, Hour, es, first, last, bucket, TypeOf(c));
    HourIsSumOfMinutes(MetricOf(c), es, AllCell(bucket, TypeOf(c)));
    MinutesAreTally(MetricOf(c), es, TypeOf(c), bucket, 60);
  }

  // ---- A series adds up ----------------------------------------------------------------------------

  /** Tallies of adjacent stretches of time add up. */
  lemma {:induction false} TallySplits(m: Metric, es: seq<Event>, t: EventType, first: int, middle: int, last: int)
    requires first <= middle <= last + MINUTE
    ensures Tally(m, es, t, first, last) == Tally(m, es, t, first, middle - MINUTE) + Tally(m, es, t, middle, last)
    decreases |es|
  {
    if es != [] {
      TallySplits(m, es[1..], t, first, middle, last);
    }
  }

  lemma {:induction false} EmptyStretch(m: Metric, es: seq<Event>, t: EventType, first: int)
    ensures Tally(m, es, t, first, first - MINUTE) == 0
    decreases |es|
  {
    if es != [] {
      EmptyStretch(m, es[1..], t, first);
    }
  }

  /** The start of the bucket `i` places after `first`. */
  function Bucket(first: int, width: int, i: int): int {
    first + i * width
  }

  lemma BucketStep(first: int, width: int, i: nat)
    ensures Bucket(first, width, 0) == first && Bucket(first, width, i + 1) == Bucket(first, width, i) + width
    ensures width >= 0 ==> first <= Bucket(first, width, i)
  {
    assert (i + 1) * width == i * width + width;
  }

  /** The point is the tally of the time from `bucket` to the end of minute `last`. */
  ghost predicate PointIs(p: SeriesPoint, es: seq<Event>, bucket: int, last: int) {
    && p.bucket == bucket
    && p.revenue == Tally(Amount, es, Paid, bucket, last)
    && p.orders == Tally(Count, es, Placed, bucket, last)
    && p.cancelled == Tally(Count, es, Cancelled, bucket, last)
  }

  lemma PointColumnIs(p: SeriesPoint, es: seq<Event>, bucket: int, last: int, c: Column)
    requires PointIs(p, es, bucket, last)
    ensures ColumnOf(p, c) == Tally(MetricOf(c), es, TypeOf(c), bucket, last)
  {
    hide Tally;
  }

  lemma PointIsFrom(rows: seq<SeriesRow>, bucket: int, es: seq<Event>, last: int)
    requires forall c: Column :: ColumnOf(PointOf(rows, bucket), c) == Tally(MetricOf(c), es, TypeOf(c), bucket, last)
    ensures PointIs(PointOf(rows, bucket), es, bucket, last)
  {
    var p := PointOf(rows, bucket);
    assert ColumnOf(p, Revenue) == p.revenue && ColumnOf(p, Orders) == p.orders && ColumnOf(p, CancelledOrders) == p.cancelled;
    hide Tally, RowOf;
  }

  /** Points that are the tallies of adjacent buckets add up to the tally of the whole time. */
  lemma {:induction false} SeriesAddsUp(c: Column, points: seq<SeriesPoint>, es: seq<Event>, first: int, width: int)
    requires width >= MINUTE
    requires forall i :: 0 <= i < |points| ==>
               PointIs(points[i], es, Bucket(first, width, i), Bucket(first, width, i + 1) - MINUTE)
    ensures ColumnSum(points, c) == Tally(MetricOf(c), es, TypeOf(c), first, Bucket(first, width, |points|) - MINUTE)
    decreases |points|
  {
    hide Tally, ColumnOf, MetricOf, TypeOf, Bucket, PointIs;
    BucketStep(first, width, 0);
    if points == [] {
      EmptyStretch(MetricOf(c), es, TypeOf(c), first);
    } else {
      var n := |points| - 1;
      SeriesAddsUp(c, points[..n], es, first, width);
      BucketStep(first, width, n);
      PointColumnIs(points[n], es, Bucket(first, width, n), Bucket(first, width, n + 1) - MINUTE, c);
      TallySplits(MetricOf(c), es, TypeOf(c), first, Bucket(first, width, n), Bucket(first, width, n + 1) - MINUTE);
    }
  }

  // ---- Breakdowns --------------------------------------------------------------------------------

  ghost function Pick(cells: set<Cell>): (c: Cell)
    requires cells != {}
    ensures c in cells
  {
    var c :| c in cells; c
  }

  /** `sum(...)` over some rows of the table. */
  ghost function SumCells(m: Metric, table: Table, cells: set<Cell>): int
    decreases |cells|
  {
    if cells == {} then 0
    else var c := Pick(cells); Lookup(m, table, c) + SumCells(m, table, cells - {c})
  }

  lemma {:induction false} SumCellsIsMeasure(m: Metric, table: Table, es: seq<Event>, first: int, d: Dimension, cells: set<Cell>)
    requires RightSince(table, es, first) && (forall c :: c in cells ==> c.dimension == d && c.bucket >= first)
    ensures SumCells(m, table, cells) == Measure(m, Minute, d, es, cells)
    decreases |cells|
  {
    if cells == {} {
      MeasureUntouched(m, Minute, d, es, {});
    } else {
      var c := Pick(cells);
      var rest := cells - {c};
      SumCellsIsMeasure(m, table, es, first, d, rest);
      assert SameCell(table, GroupBy(Minute, es), c);
      LookupIsMeasure(m, Minute, es, c);
      assert rest + {c} == cells;
      hide Measure, GroupBy, RightSince;
      MeasureUnion(m, Minute, d, es, rest, {c});
    }
  }

  /** The group a breakdown row stands for. */
  ghost function GroupCells(table: Table, d: Dimension, value: Label, t: EventType, first: int, last: int): set<Cell> {
    set c | c in table && c.dimension == d && c.value == value && c.eventType == t && first <= c.bucket <= last
  }

  ghost predicate RowIsGroup(r: BreakdownRow, table: Table, first: int, last: int) {
    forall m: Metric :: Value(m, r.totals) == SumCells(m, table, GroupCells(table, r.dimension, r.value, r.eventType, first, last))
  }

  predicate SameGroup(r: BreakdownRow, d: Dimension, value: Label, t: EventType) {
    r.dimension == d && r.value == value && r.eventType == t
  }

  ghost predicate DistinctGroups(rows: seq<BreakdownRow>) {
    forall i, j :: 0 <= i < j < |rows| ==> !SameGroup(rows[i], rows[j].dimension, rows[j].value, rows[j].eventType)
  }

  /** `GROUP BY dimension, dim_value, event_type` over the buckets from `first` to `last`. */
  ghost predicate ListsBreakdown(rows: seq<BreakdownRow>, table: Table, first: int, last: int) {
    && DistinctGroups(rows)
    && AllGroups(rows, table, first, last)
    && (forall r :: r in rows ==> GroupCells(table, r.dimension, r.value, r.eventType, first, last) != {})
    && (forall c :: c in table && !c.dimension.All? && first <= c.bucket <= last ==>
          exists r :: r in rows && SameGroup(r, c.dimension, c.value, c.eventType))
  }

  /** Sum over the rows of one dimension and type. */
  function DimensionSum(m: Metric, rows: seq<BreakdownRow>, d: Dimension, t: EventType): int
    decreases |rows|
  {
    if rows == [] then 0
    else
      var last := rows[|rows| - 1];
      DimensionSum(m, rows[..|rows| - 1], d, t) + if last.dimension == d && last.eventType == t then Value(m, last.totals) else 0
  }

  predicate Listed(rows: seq<BreakdownRow>, d: Dimension, value: Label, t: EventType) {
    exists i :: 0 <= i < |rows| && SameGroup(rows[i], d, value, t)
  }

  ghost function DimensionCells(table: Table, rows: seq<BreakdownRow>, d: Dimension, t: EventType, first: int, last: int): set<Cell> {
    set c | c in table && c.dimension == d && c.eventType == t && first <= c.bucket <= last && Listed(rows, d, c.value, t)
  }

  lemma ListedStep(before: seq<BreakdownRow>, last: BreakdownRow, d: Dimension, value: Label, t: EventType)
    ensures Listed(before + [last], d, value, t) <==> Listed(before, d, value, t) || SameGroup(last, d, value, t)
  {
    var rows := before + [last];
    if Listed(before, d, value, t) {
      var i :| 0 <= i < |before| && SameGroup(before[i], d, value, t);
      assert SameGroup(rows[i], d, value, t);
    }
    if SameGroup(last, d, value, t) {
      assert SameGroup(rows[|before|], d, value, t);
    }
  }

  lemma DimensionCellsStep(table: Table, before: seq<BreakdownRow>, last: BreakdownRow, d: Dimension, t: EventType, first: int, end: int)
    requires DistinctGroups(before + [last])
    ensures DistinctGroups(before)
    ensures var cells := DimensionCells(table, before, d, t, first, end);
            var more := GroupCells(table, d, last.value, t, first, end);
            if last.dimension == d && last.eventType == t
            then DimensionCells(table, before + [last], d, t, first, end) == cells + more && cells !! more
            else DimensionCells(table, before + [last], d, t, first, end) == cells
  {
    var rows := before + [last];
    assert forall i :: 0 <= i < |before| ==> rows[i] == before[i];
    assert rows[|before|] == last;
    forall value: Label ensures Listed(rows, d, value, t) <==> Listed(before, d, value, t) || SameGroup(last, d, value, t) {
      ListedStep(before, last, d, value, t);
    }
    assert !Listed(before, last.dimension, last.value, last.eventType);
    hide Listed, DistinctGroups;
  }

  lemma RowIsMeasure(m: Metric, r: BreakdownRow, table: Table, es: seq<Event>, first: int, last: int)
    requires RowIsGroup(r, table, first, last) && RightSince(table, es, first)
    ensures Value(m, r.totals) == Measure(m, Minute, r.dimension, es, GroupCells(table, r.dimension, r.value, r.eventType, first, last))
  {
    SumCellsIsMeasure(m, table, es, first, r.dimension, GroupCells(table, r.dimension, r.value, r.eventType, first, last));
    hide Measure, SumCells;
  }

  ghost predicate AllGroups(rows: seq<BreakdownRow>, table: Table, first: int, last: int) {
    forall r :: r in rows ==> RowIsGroup(r, table, first, last)
  }

  lemma AllGroupsStep(before: seq<BreakdownRow>, row: BreakdownRow, table: Table, first: int, last: int)
    requires AllGroups(before + [row], table, first, last)
    ensures AllGroups(before, table, first, last) && RowIsGroup(row, table, first, last)
  {
    assert row in before + [row];
    hide RowIsGroup;
  }

  lemma DimensionSumStep(m: Metric, before: seq<BreakdownRow>, row: BreakdownRow, d: Dimension, t: EventType)
    ensures DimensionSum(m, before + [row], d, t)
         == DimensionSum(m, before, d, t) + if row.dimension == d && row.eventType == t then Value(m, row.totals) else 0
  {
    assert (before + [row])[..|before|] == before;
  }

  lemma {:induction false} DimensionSumIsMeasure(
    m: Metric, rows: seq<BreakdownRow>, d: Dimension, t: EventType, table: Table, es: seq<Event>, first: int, last: int)
    requires DistinctGroups(rows) && AllGroups(rows, table, first, last) && RightSince(table, es, first)
    ensures DimensionSum(m, rows, d, t) == Measure(m, Minute, d, es, DimensionCells(table, rows, d, t, first, last))
    decreases |rows|
  {
    if rows == [] {
      assert DimensionCells(table, rows, d, t, first, last) == {};
      MeasureUntouched(m, Minute, d, es, {});
    } else {
      hide *;
      var n := |rows| - 1;
      var before, row := rows[..n], rows[n];
      assert rows == before + [row];
      AllGroupsStep(before, row, table, first, last);
      DimensionSumStep(m, before, row, d, t);
      DimensionCellsStep(table, before, row, d, t, first, last);
      DimensionSumIsMeasure(m, before, d, t, table, es, first, last);
      if row.dimension == d && row.eventType == t {
        RowIsMeasure(m, row, table, es, first, last);
        MeasureUnion(m, Minute, d, es, DimensionCells(table, before, d, t, first, last),
                     GroupCells(table, d, row.value, t, first, last));
      }
    }
  }

  lemma CountedInDimension(rows: seq<BreakdownRow>, d: Dimension, t: EventType, table: Table, es: seq<Event>, first: int, last: int, e: Event)
    requires Aligned(first, last) && ListsBreakdown(rows, table, first, last) && RightSince(table, es, first) && e in es && !d.All?
    ensures CellOf(Minute, d, e) in DimensionCells(table, rows, d, t, first, last) <==> Counted(e, t, first, last)
  {
    CountedByBucket(e, t, first, last);
    hide Counted;
    var c := CellOf(Minute, d, e);
    if Counted(e, t, first, last) {
      RightCell(table, es, first, c);
      assert Touched(Minute, es, c);
      assert c in table && c.dimension == d && c.eventType == t;
      hide RightSince, CellOf, DistinctGroups, AllGroups;
      var r :| r in rows && SameGroup(r, c.dimension, c.value, c.eventType);
      var i :| 0 <= i < |rows| && rows[i] == r;
      assert SameGroup(rows[i], d, c.value, t);
    }
  }

  /** Each of the three breakdowns adds up to the same tally. */
  lemma BreakdownAddsUp(m: Metric, rows: seq<BreakdownRow>, d: Dimension, t: EventType, table: Table, es: seq<Event>, first: int, last: int)
    requires Aligned(first, last) && ListsBreakdown(rows, table, first, last) && RightSince(table, es, first) && !d.All?
    ensures DimensionSum(m, rows, d, t) == Tally(m, es, t, first, last)
  {
    DimensionSumIsMeasure(m, rows, d, t, table, es, first, last);
    var cells := DimensionCells(table, rows, d, t, first, last);
    forall e | e in es ensures CellOf(Minute, d, e) in cells <==> Counted(e, t, first, last) {
      CountedInDimension(rows, d, t, table, es, first, last, e);
    }
    MeasureIsTally(m, d, es, cells, t, first, last);
  }

  /** The rows of a group add up to the raw events that carry its name in the field of its dimension. */
  lemma GroupIsTally(m: Metric, d: Dimension, name: Label, t: EventType, table: Table, es: seq<Event>, first: int, last: int)
    requires Aligned(first, last) && RightSince(table, es, first) && !d.All?
    ensures SumCells(m, table, GroupCells(table, d, name, t, first, last)) == TallyOf(m, es, d, name, t, first, last)
  {
    var cells := GroupCells(table, d, name, t, first, last);
    SumCellsIsMeasure(m, table, es, first, d, cells);
    forall e | e in es ensures CellOf(Minute, d, e) in cells <==> InField(e, d, name) && Counted(e, t, first, last) {
      CountedByBucket(e, t, first, last);
      hide Counted;
      if Counted(e, t, first, last) {
        RightCell(table, es, first, CellOf(Minute, d, e));
      }
    }
    hide SumCells, Measure, RightSince, CellOf, InField, Counted, TallyOf;
    MeasureIsTallyOf(m, d, es, cells, d, name, t, first, last);
  }

  /** A breakdown row says what the raw events with its name add up to. */
  lemma RowIsTally(m: Metric, r: BreakdownRow, rows: seq<BreakdownRow>, table: Table, es: seq<Event>, first: int, last: int)
    requires Aligned(first, last) && ListsBreakdown(rows, table, first, last) && RightSince(table, es, first)
    requires r in rows && !r.dimension.All?
    ensures Value(m, r.totals) == TallyOf(m, es, r.dimension, r.value, r.eventType, first, last)
  {
    assert RowIsGroup(r, table, first, last);
    hide TallyOf, SumCells, RightSince;
    GroupIsTally(m, r.dimension, r.value, r.eventType, table, es, first, last);
  }

  lemma {:induction false} PickedMembers(es: seq<Event>, d: Dimension, name: Label, t: EventType, first: int, last: int, e: Event)
    ensures e in Picked(es, d, name, t, first, last) <==> e in es && InField(e, d, name) && Counted(e, t, first, last)
    decreases |es|
  {
    if es != [] {
      hide InField, Counted;
      PickedMembers(es[1..], d, name, t, first, last, e);
    }
  }

  // ---- Rankings ------------------------------------------------------------------------------------

  /** Sum over the rows of one name. */
  function NameSum(m: Metric, rows: seq<BreakdownRow>, d: Dimension, name: Label, t: EventType): int
    decreases |rows|
  {
    if rows == [] then 0
    else
      var last := rows[|rows| - 1];
      NameSum(m, rows[..|rows| - 1], d, name, t) + if SameGroup(last, d, name, t) then Value(m, last.totals) else 0
  }

  /** Names a ranking mentions: those with a paid or a placed row. */
  predicate Mentioned(rows: seq<BreakdownRow>, d: Dimension, name: Label) {
    Listed(rows, d, name, Paid) || Listed(rows, d, name, Placed)
  }

  function ItemOf(rows: seq<BreakdownRow>, d: Dimension, name: Label): RankedItem {
    RankedItem(name, NameSum(Amount, rows, d, name, Paid), NameSum(Count, rows, d, name, Placed))
  }

  /** Higher revenue first; at equal revenue more orders first; then the smaller name. */
  predicate Before(a: RankedItem, b: RankedItem) {
    || a.revenue > b.revenue
    || (a.revenue == b.revenue && a.orders > b.orders)
    || (a.revenue == b.revenue && a.orders == b.orders && a.name < b.name)
  }

  ghost predicate Ranked(items: seq<RankedItem>) {
    forall i, j :: 0 <= i < j < |items| ==> Before(items[i], items[j])
  }

  lemma NothingRanked()
    ensures Ranked([])
  {
  }

  /** Where `x` belongs in a ranking that does not have its name yet. */
  method InsertRanked(items: seq<RankedItem>, x: RankedItem) returns (r: seq<RankedItem>)
    requires Ranked(items) && forall y :: y in items ==> y.name != x.name
    ensures Ranked(r) && multiset(r) == multiset(items) + multiset{x}
  {
    var i := 0;
    while i < |items| && Before(items[i], x)
      invariant 0 <= i <= |items|
      invariant forall j :: 0 <= j < i ==> Before(items[j], x)
    {
      i := i + 1;
    }
    r := items[..i] + [x] + items[i..];
    assert items == items[..i] + items[i..];
    forall j | i <= j < |items| ensures Before(x, items[j]) {
      assert items[j] in items && items[i] in items;
    }
  }

  function SumFor(sums: map<Label, int>, name: Label): int {
    if name in sums then sums[name] else 0
  }

  /** The dictionary the loop has built from `rows`. */
  ghost predicate Sums(sums: map<Label, int>, m: Metric, rows: seq<BreakdownRow>, d: Dimension, t: EventType) {
    forall n: Label :: (n in sums <==> Listed(rows, d, n, t)) && SumFor(sums, n) == NameSum(m, rows, d, n, t)
  }

  function Added(sums: map<Label, int>, m: Metric, row: BreakdownRow, d: Dimension, t: EventType): map<Label, int> {
    if row.dimension == d && row.eventType == t then sums[row.value := SumFor(sums, row.value) + Value(m, row.totals)] else sums
  }

  lemma AddedSums(sums: map<Label, int>, m: Metric, before: seq<BreakdownRow>, row: BreakdownRow, d: Dimension, t: EventType)
    requires Sums(sums, m, before, d, t)
    ensures Sums(Added(sums, m, row, d, t), m, before + [row], d, t)
  {
    assert (before + [row])[..|before|] == before;
    forall n: Label ensures Listed(before + [row], d, n, t) <==> Listed(before, d, n, t) || SameGroup(row, d, n, t) {
      ListedStep(before, row, d, n, t);
    }
    hide Listed;
  }

  lemma NoSums(m: Metric, d: Dimension, t: EventType)
    ensures Sums(map[], m, [], d, t)
  {
  }

  /** Items of one dimension in order of rank: one per mentioned name, with the name's own sums. */
  method RankDimension(rows: seq<BreakdownRow>, d: Dimension) returns (items: seq<RankedItem>)
    ensures Ranked(items)
    ensures forall x :: x in items <==> Mentioned(rows, d, x.name) && x == ItemOf(rows, d, x.name)
  {
    hide Sums, Mentioned, ItemOf, Ranked;
    var revenue: map<Label, int>, orders: map<Label, int> := map[], map[];
    NoSums(Amount, d, Paid);
    NoSums(Count, d, Placed);
    for i := 0 to |rows|
      invariant Sums(revenue, Amount, rows[..i], d, Paid)
      invariant Sums(orders, Count, rows[..i], d, Placed)
    {
      var row := rows[i];
      AddedSums(revenue, Amount, rows[..i], row, d, Paid);
      AddedSums(orders, Count, rows[..i], row, d, Placed);
      assert rows[..i] + [row] == rows[..i + 1];
      if row.dimension == d {
        if row.eventType == Paid {
          revenue := revenue[row.value := SumFor(revenue, row.value) + row.totals.amount];
        } else if row.eventType == Placed {
          orders := orders[row.value := SumFor(orders, row.value) + row.totals.count];
        }
      }
    }
    assert rows[..|rows|] == rows;
    items := SortNames(rows, d, revenue, orders);
  }

  method SortNames(rows: seq<BreakdownRow>, d: Dimension, revenue: map<Label, int>, orders: map<Label, int>) returns (items: seq<RankedItem>)
    requires Sums(revenue, Amount, rows, d, Paid) && Sums(orders, Count, rows, d, Placed)
    ensures Ranked(items)
    ensures forall x :: x in items <==> Mentioned(rows, d, x.name) && x == ItemOf(rows, d, x.name)
  {
    hide NameSum, Listed, Ranked, SumFor;
    var todo := revenue.Keys + orders.Keys;
    ghost var all := todo;
    items := [];
    NothingRanked();
    while todo != {}
      invariant todo <= all
      invariant Ranked(items)
      invariant forall x :: x in items <==> x.name in all - todo && x == ItemOf(rows, d, x.name)
      decreases |todo|
    {
      var n :| n in todo;
      var x := RankedItem(n, SumFor(revenue, n), SumFor(orders, n));
      assert x == ItemOf(rows, d, n);
      var more := InsertRanked(items, x);
      SameMembers(more, items, x);
      items, todo := more, todo - {n};
    }
  }

  lemma SameMembers(r: seq<RankedItem>, items: seq<RankedItem>, x: RankedItem)
    requires multiset(r) == multiset(items) + multiset{x}
    ensures forall y :: y in r <==> y in items || y == x
  {
    forall y: RankedItem ensures y in r <==> y in items || y == x {
      assert y in r <==> y in multiset(r);
      assert y in items <==> y in multiset(items);
    }
  }

  // ---- A ranking adds up to its dimension ----------------------------------------------------------

  ghost predicate DistinctNames(items: seq<RankedItem>) {
    forall i, j :: 0 <= i < j < |items| ==> items[i].name != items[j].name
  }

  predicate Names(items: seq<RankedItem>, name: Label) {
    exists i :: 0 <= i < |items| && items[i].name == name
  }

  /** The sums of all listed names. */
  function NamesTotal(m: Metric, rows: seq<BreakdownRow>, d: Dimension, t: EventType, items: seq<RankedItem>): int
    decreases |items|
  {
    if items == [] then 0
    else NamesTotal(m, rows, d, t, items[..|items| - 1]) + NameSum(m, rows, d, items[|items| - 1].name, t)
  }

  lemma {:induction false} OneMoreRow(m: Metric, before: seq<BreakdownRow>, row: BreakdownRow, d: Dimension, t: EventType, items: seq<RankedItem>)
    requires DistinctNames(items)
    ensures NamesTotal(m, before + [row], d, t, items) == NamesTotal(m, before, d, t, items)
         + if row.dimension == d && row.eventType == t && Names(items, row.value) then Value(m, row.totals) else 0
    decreases |items|
  {
    if items != [] {
      var n := |items| - 1;
      OneMoreRow(m, before, row, d, t, items[..n]);
      assert (before + [row])[..|before|] == before;
      assert Names(items, row.value) <==> Names(items[..n], row.value) || items[n].name == row.value;
      assert items[n].name == row.value ==> !Names(items[..n], row.value);
      hide Names, DistinctNames, Value;
    }
  }

  lemma {:induction false} AllNamesCounted(m: Metric, rows: seq<BreakdownRow>, d: Dimension, t: EventType, items: seq<RankedItem>)
    requires DistinctNames(items)
    requires forall r :: r in rows && r.dimension == d && r.eventType == t ==> Names(items, r.value)
    ensures NamesTotal(m, rows, d, t, items) == DimensionSum(m, rows, d, t)
    decreases |rows|
  {
    if rows == [] {
      NoRows(m, d, t, items);
    } else {
      var n := |rows| - 1;
      assert rows == rows[..n] + [rows[n]] && rows[n] in rows;
      hide Names, DistinctNames, NamesTotal, Value;
      AllNamesCounted(m, rows[..n], d, t, items);
      OneMoreRow(m, rows[..n], rows[n], d, t, items);
    }
  }

  lemma {:induction false} NoRows(m: Metric, d: Dimension, t: EventType, items: seq<RankedItem>)
    ensures NamesTotal(m, [], d, t, items) == 0
    decreases |items|
  {
    if items != [] {
      NoRows(m, d, t, items[..|items| - 1]);
    }
  }

  function RevenueSum(items: seq<RankedItem>): int
    decreases |items|
  {
    if items == [] then 0 else RevenueSum(items[..|items| - 1]) + items[|items| - 1].revenue
  }

  function OrdersSum(items: seq<RankedItem>): int
    decreases |items|
  {
    if items == [] then 0 else OrdersSum(items[..|items| - 1]) + items[|items| - 1].orders
  }

  lemma {:induction false} ItemsAreSums(rows: seq<BreakdownRow>, d: Dimension, items: seq<RankedItem>)
    requires forall i :: 0 <= i < |items| ==> items[i] == ItemOf(rows, d, items[i].name)
    ensures RevenueSum(items) == NamesTotal(Amount, rows, d, Paid, items)
    ensures OrdersSum(items) == NamesTotal(Count, rows, d, Placed, items)
    decreases |items|
  {
    if items != [] {
      ItemsAreSums(rows, d, items[..|items| - 1]);
    }
  }

  ghost predicate IsRanking(items: seq<RankedItem>, rows: seq<BreakdownRow>, d: Dimension) {
    && Ranked(items)
    && forall x :: x in items <==> Mentioned(rows, d, x.name) && x == ItemOf(rows, d, x.name)
  }

  lemma RankingNames(items: seq<RankedItem>, rows: seq<BreakdownRow>, d: Dimension)
    requires IsRanking(items, rows, d)
    ensures DistinctNames(items)
    ensures forall i :: 0 <= i < |items| ==> items[i] == ItemOf(rows, d, items[i].name)
    ensures forall n: Label :: Mentioned(rows, d, n) ==> Names(items, n)
  {
    forall i | 0 <= i < |items| ensures items[i] == ItemOf(rows, d, items[i].name) {
      assert items[i] in items;
    }
    forall i, j | 0 <= i < j < |items| ensures items[i].name != items[j].name {
      assert Before(items[i], items[j]);
      assert !Before(items[i], items[i]);
      assert items[i] == ItemOf(rows, d, items[i].name) && items[j] == ItemOf(rows, d, items[j].name);
      hide ItemOf, Before;
    }
    forall n: Label | Mentioned(rows, d, n) ensures Names(items, n) {
      assert ItemOf(rows, d, n) in items;
      hide Mentioned, NameSum, Ranked;
    }
  }

  /** However the items are ordered, their revenues and orders are those of the dimension. */
  lemma RankingAddsUp(items: seq<RankedItem>, rows: seq<BreakdownRow>, d: Dimension)
    requires IsRanking(items, rows, d)
    ensures RevenueSum(items) == DimensionSum(Amount, rows, d, Paid)
    ensures OrdersSum(items) == DimensionSum(Count, rows, d, Placed)
  {
    RankingNames(items, rows, d);
    forall r | r in rows && r.dimension == d && (r.eventType == Paid || r.eventType == Placed) ensures Names(items, r.value) {
      var i :| 0 <= i < |rows| && rows[i] == r;
      assert SameGroup(rows[i], d, r.value, r.eventType);
      assert Mentioned(rows, d, r.value);
    }
    hide IsRanking, Names, DistinctNames, ItemOf, NamesTotal, DimensionSum;
    ItemsAreSums(rows, d, items);
    AllNamesCounted(Amount, rows, d, Paid, items);
    AllNamesCounted(Count, rows, d, Placed, items);
  }

  // ---- Items are tallies ---------------------------------------------------------------------------

  lemma NameSumStep(m: Metric, before: seq<BreakdownRow>, last: BreakdownRow, d: Dimension, name: Label, t: EventType)
    ensures NameSum(m, before + [last], d, name, t)
         == NameSum(m, before, d, name, t) + if SameGroup(last, d, name, t) then Value(m, last.totals) else 0
  {
    assert (before + [last])[..|before|] == before;
  }

  lemma NoSecondRow(before: seq<BreakdownRow>, last: BreakdownRow, d: Dimension, name: Label, t: EventType)
    requires DistinctGroups(before + [last])
    ensures DistinctGroups(before) && (SameGroup(last, d, name, t) ==> !Listed(before, d, name, t))
  {
    var rows := before + [last];
    assert forall i :: 0 <= i < |before| ==> rows[i] == before[i];
    assert rows[|before|] == last;
  }

  /** What the one row of a group says; zero without one. */
  ghost predicate SumIsRow(sum: int, m: Metric, rows: seq<BreakdownRow>, d: Dimension, name: Label, t: EventType) {
    if Listed(rows, d, name, t) then exists r :: r in rows && SameGroup(r, d, name, t) && sum == Value(m, r.totals) else sum == 0
  }

  /** Each group has one row, so the sum over its rows is that row's. */
  lemma {:induction false} NameSumMeaning(m: Metric, rows: seq<BreakdownRow>, d: Dimension, name: Label, t: EventType)
    requires DistinctGroups(rows)
    ensures SumIsRow(NameSum(m, rows, d, name, t), m, rows, d, name, t)
    decreases |rows|
  {
    if rows != [] {
      var n := |rows| - 1;
      var before, last := rows[..n], rows[n];
      assert rows == before + [last] && last in rows;
      hide Listed, DistinctGroups, Value, NameSum, SameGroup;
      NoSecondRow(before, last, d, name, t);
      NameSumMeaning(m, before, d, name, t);
      ListedStep(before, last, d, name, t);
      NameSumStep(m, before, last, d, name, t);
    }
  }

  lemma CellIsListed(c: Cell, rows: seq<BreakdownRow>, table: Table, first: int, last: int)
    requires ListsBreakdown(rows, table, first, last) && c in table && !c.dimension.All? && first <= c.bucket <= last
    ensures Listed(rows, c.dimension, c.value, c.eventType)
  {
    var r :| r in rows && SameGroup(r, c.dimension, c.value, c.eventType);
    var i :| 0 <= i < |rows| && rows[i] == r;
    assert SameGroup(rows[i], c.dimension, c.value, c.eventType);
  }

  lemma NameSumIsTally(
    m: Metric, rows: seq<BreakdownRow>, d: Dimension, name: Label, t: EventType, table: Table, es: seq<Event>, first: int, last: int)
    requires Aligned(first, last) && ListsBreakdown(rows, table, first, last) && RightSince(table, es, first) && !d.All?
    ensures NameSum(m, rows, d, name, t) == TallyOf(m, es, d, name, t, first, last)
  {
    NameSumMeaning(m, rows, d, name, t);
    GroupIsTally(m, d, name, t, table, es, first, last);
    var cells := GroupCells(table, d, name, t, first, last);
    forall c | c in cells ensures Listed(rows, d, name, t) {
      CellIsListed(c, rows, table, first, last);
    }
    assert SumCells(m, table, {}) == 0;
    hide TallyOf, NameSum, RightSince, DistinctGroups, Listed;
    if Listed(rows, d, name, t) {
      var r :| r in rows && SameGroup(r, d, name, t) && NameSum(m, rows, d, name, t) == Value(m, r.totals);
      assert RowIsGroup(r, table, first, last);
    } else {
      assert cells == {};
    }
  }

  /** A name is listed exactly if some event of the window carries it. */
  lemma ListedMeansCarried(rows: seq<BreakdownRow>, d: Dimension, name: Label, t: EventType, table: Table, es: seq<Event>, first: int, last: int)
    requires Aligned(first, last) && ListsBreakdown(rows, table, first, last) && RightSince(table, es, first) && !d.All?
    ensures Listed(rows, d, name, t) <==> exists e :: e in es && InField(e, d, name) && Counted(e, t, first, last)
  {
    if Listed(rows, d, name, t) {
      var i :| 0 <= i < |rows| && SameGroup(rows[i], d, name, t);
      assert rows[i] in rows;
      var c :| c in GroupCells(table, d, name, t, first, last);
      RightCell(table, es, first, c);
      var e :| e in es && CellOf(Minute, d, e) == c;
      CountedByBucket(e, t, first, last);
      assert InField(e, d, name) && Counted(e, t, first, last);
    }
    if e :| e in es && InField(e, d, name) && Counted(e, t, first, last) {
      CountedByBucket(e, t, first, last);
      var c := CellOf(Minute, d, e);
      RightCell(table, es, first, c);
      CellIsListed(c, rows, table, first, last);
    }
  }

  /** Some event of the window that is shown in a ranking carries the name. */
  ghost predicate Carried(es: seq<Event>, d: Dimension, name: Label, first: int, last: int) {
    exists e :: e in es && InField(e, d, name) && (Counted(e, Paid, first, last) || Counted(e, Placed, first, last))
  }

  /** Larger revenue first, then more orders, then the smaller name; names exactly those of the raw
      events; and every item with what the events of its own name add up to. */
  ghost predicate RankingIs(items: seq<RankedItem>, es: seq<Event>, d: Dimension, first: int, last: int) {
    && (forall i, j :: 0 <= i < j < |items| ==>
          || items[i].revenue > items[j].revenue
          || (items[i].revenue == items[j].revenue && items[i].orders > items[j].orders)
          || (items[i].revenue == items[j].revenue && items[i].orders == items[j].orders && items[i].name < items[j].name))
    && (forall n: Label :: Names(items, n) <==> Carried(es, d, n, first, last))
    && (forall x :: x in items ==>
          && x.revenue == TallyOf(Amount, es, d, x.name, Paid, first, last)
          && x.orders == TallyOf(Count, es, d, x.name, Placed, first, last))
  }

  lemma MentionedMeansCarried(rows: seq<BreakdownRow>, d: Dimension, name: Label, table: Table, es: seq<Event>, first: int, last: int)
    requires Aligned(first, last) && ListsBreakdown(rows, table, first, last) && RightSince(table, es, first) && !d.All?
    ensures Mentioned(rows, d, name) <==> Carried(es, d, name, first, last)
  {
    ListedMeansCarried(rows, d, name, Paid, table, es, first, last);
    ListedMeansCarried(rows, d, name, Placed, table, es, first, last);
    hide Listed, InField, Counted, ListsBreakdown, RightSince;
  }

  /** A ranking of right rows ranks the names by their own raw events. */
  lemma RankingIsRight(items: seq<RankedItem>, rows: seq<BreakdownRow>, d: Dimension, table: Table, es: seq<Event>, first: int, last: int)
    requires IsRanking(items, rows, d) && Aligned(first, last) && ListsBreakdown(rows, table, first, last) && RightSince(table, es, first)
    requires !d.All?
    ensures RankingIs(items, es, d, first, last)
  {
    RankingNames(items, rows, d);
    hide ListsBreakdown, RightSince, NameSum, TallyOf, Mentioned, Carried;
    forall n: Label ensures Names(items, n) <==> Carried(es, d, n, first, last) {
      MentionedMeansCarried(rows, d, n, table, es, first, last);
      if Names(items, n) {
        var i :| 0 <= i < |items| && items[i].name == n;
        assert items[i] in items;
      }
    }
    forall x | x in items
      ensures x.revenue == TallyOf(Amount, es, d, x.name, Paid, first, last)
      ensures x.orders == TallyOf(Count, es, d, x.name, Placed, first, last)
    {
      NameSumIsTally(Amount, rows, d, x.name, Paid, table, es, first, last);
      NameSumIsTally(Count, rows, d, x.name, Placed, table, es, first, last);
    }
    assert forall i, j :: 0 <= i < j < |items| ==> Before(items[i], items[j]);
  }

  // ---- The whole snapshot --------------------------------------------------------------------------

  datatype SnapshotMessage = SnapshotMessage(
    kpis: Kpis,
    previousKpis: Kpis,
    perMinute: seq<SeriesPoint>,
    perHour: seq<SeriesPoint>,
    byStatus: seq<int>,
    categories: seq<RankedItem>,
    cities: seq<RankedItem>,
    payments: seq<RankedItem>)

  function RowsFrom(rows: seq<SeriesRow>, start: int): seq<SeriesRow>
    decreases |rows|
  {
    if rows == [] then []
    else
      var before := RowsFrom(rows[..|rows| - 1], start);
      if rows[|rows| - 1].bucket >= start then before + [rows[|rows| - 1]] else before
  }

  function RowsBefore(rows: seq<SeriesRow>, start: int): seq<SeriesRow>
    decreases |rows|
  {
    if rows == [] then []
    else
      var before := RowsBefore(rows[..|rows| - 1], start);
      if rows[|rows| - 1].bucket < start then before + [rows[|rows| - 1]] else before
  }

  lemma {:induction false} SplitRows(rows: seq<SeriesRow>, start: int)
    requires DistinctSeries(rows)
    ensures DistinctSeries(RowsFrom(rows, start)) && DistinctSeries(RowsBefore(rows, start))
    ensures forall r :: r in RowsFrom(rows, start) <==> r in rows && r.bucket >= start
    ensures forall r :: r in RowsBefore(rows, start) <==> r in rows && r.bucket < start
    decreases |rows|
  {
    if rows != [] {
      var n := |rows| - 1;
      var before, last := rows[..n], rows[n];
      assert rows == before + [last];
      assert forall i :: 0 <= i < n ==> before[i] == rows[i];
      assert DistinctSeries(before);
      SplitRows(before, start);
      assert forall r :: r in before ==> AllCell(r.bucket, r.eventType) != AllCell(last.bucket, last.eventType);
      OneMoreDistinct(RowsFrom(before, start), last, before);
      OneMoreDistinct(RowsBefore(before, start), last, before);
      hide DistinctSeries;
    }
  }

  lemma OneMoreDistinct(kept: seq<SeriesRow>, last: SeriesRow, before: seq<SeriesRow>)
    requires DistinctSeries(kept) && (forall r :: r in kept ==> r in before)
    requires forall r :: r in before ==> AllCell(r.bucket, r.eventType) != AllCell(last.bucket, last.eventType)
    ensures DistinctSeries(kept + [last])
  {
    assert forall i :: 0 <= i < |kept| ==> kept[i] in kept;
  }

  /** Splitting the rows of both windows at the start of the current one lists each window. */
  lemma SplitLists(rows: seq<SeriesRow>, table: Table, w: Window)
    requires ListsSeries(rows, table, w.previousStart, w.current)
    requires w.start % MINUTE == 0 && w.previousStart <= w.start <= w.current + MINUTE
    requires forall b, t :: AllCell(b, t) in table && w.previousStart <= b <= w.current ==> b % MINUTE == 0
    ensures ListsSeries(RowsFrom(rows, w.start), table, w.start, w.current)
    ensures ListsSeries(RowsBefore(rows, w.start), table, w.previousStart, w.start - MINUTE)
  {
    SplitRows(rows, w.start);
    hide DistinctSeries, RowsFrom, RowsBefore;
    var later, earlier := RowsFrom(rows, w.start), RowsBefore(rows, w.start);
    forall r | r in earlier ensures r.bucket <= w.start - MINUTE {
      assert AllCell(r.bucket, r.eventType) in table;
    }
  }

  /** Everything a snapshot says, each part on its own. */
  ghost predicate IsSnapshot(
    s: SnapshotMessage, w: Window, minuteRows: seq<SeriesRow>, hourRows: seq<SeriesRow>, hourStart: int, hourEnd: int,
    breakdown: seq<BreakdownRow>)
  {
    && s.kpis == ComputeKpis(TotalsOf(RowsFrom(minuteRows, w.start)))
    && s.previousKpis == ComputeKpis(TotalsOf(RowsBefore(minuteRows, w.start)))
    && IsSeries(s.perMinute, RowsFrom(minuteRows, w.start), w.start, w.current, MINUTE)
    && IsSeries(s.perHour, hourRows, hourStart, hourEnd, HOUR)
    && s.byStatus == [s.kpis.orders, s.kpis.paid, s.kpis.shipped, s.kpis.cancelled]
    && IsRanking(s.categories, breakdown, ByCategory)
    && IsRanking(s.cities, breakdown, ByCity)
    && IsRanking(s.payments, breakdown, ByPayment)
  }

  ghost predicate IsSeries(points: seq<SeriesPoint>, rows: seq<SeriesRow>, start: int, end: int, step: int)
    requires step > 0
  {
    && |points| == Points(start, end, step)
    && forall i :: 0 <= i < |points| ==> points[i] == PointOf(rows, start + i * step)
  }

  ghost function TotalsOf(rows: seq<SeriesRow>): map<EventType, Totals> {
    map[Placed := Totals(SumOf(Count, rows, Placed), SumOf(Amount, rows, Placed)),
        Paid := Totals(SumOf(Count, rows, Paid), SumOf(Amount, rows, Paid)),
        Shipped := Totals(SumOf(Count, rows, Shipped), SumOf(Amount, rows, Shipped)),
        Cancelled := Totals(SumOf(Count, rows, Cancelled), SumOf(Amount, rows, Cancelled))]
  }

  method BuildSnapshot(
    w: Window, minuteRows: seq<SeriesRow>, hourRows: seq<SeriesRow>, hourStart: int, hourEnd: int, breakdown: seq<BreakdownRow>)
    returns (s: SnapshotMessage)
    ensures IsSnapshot(s, w, minuteRows, hourRows, hourStart, hourEnd, breakdown)
  {
    hide SumOf, PointOf, Points, Ranked, Mentioned, ItemOf, RowsFrom, RowsBefore;
    var current, previous := RowsFrom(minuteRows, w.start), RowsBefore(minuteRows, w.start);
    var totals := SumByEventType(current);
    var before := SumByEventType(previous);
    var perMinute := DenseSeries(current, w.start, w.current, MINUTE);
    var perHour := DenseSeries(hourRows, hourStart, hourEnd, HOUR);
    var categories := RankDimension(breakdown, ByCategory);
    var cities := RankDimension(breakdown, ByCity);
    var payments := RankDimension(breakdown, ByPayment);
    s := SnapshotMessage(
      ComputeKpis(totals), ComputeKpis(before), perMinute, perHour,
      [Got(totals, Placed).count, Got(totals, Paid).count, Got(totals, Shipped).count, Got(totals, Cancelled).count],
      categories, cities, payments);
  }

  /** All buckets of a recomputed table are minutes. */
  lemma BucketsAreMinutes(table: Table, es: seq<Event>, first: int, c: Cell)
    requires RightSince(table, es, first) && c in table && c.bucket >= first
    ensures c.bucket % MINUTE == 0
  {
    RightCell(table, es, first, c);
    var e :| e in es && CellOf(Minute, c.dimension, e) == c;
    hide RightSince;
  }

  /** What the queries of one read transaction return, from a rollup that is right for both windows. */
  ghost predicate Queried(w: Window, minuteRows: seq<SeriesRow>, breakdown: seq<BreakdownRow>, table: Table, es: seq<Event>) {
    && RightSince(table, es, w.previousStart)
    && ListsSeries(minuteRows, table, w.previousStart, w.current)
    && ListsBreakdown(breakdown, table, w.start, w.current)
  }

  lemma RightLater(table: Table, es: seq<Event>, first: int, later: int)
    requires RightSince(table, es, first) && first <= later
    ensures RightSince(table, es, later)
  {
    hide GroupBy;
  }

  lemma QueriedWindows(w: Window, minuteRows: seq<SeriesRow>, breakdown: seq<BreakdownRow>, table: Table, es: seq<Event>)
    requires Queried(w, minuteRows, breakdown, table, es)
    requires w.start % MINUTE == 0 && w.previousStart <= w.start <= w.current + MINUTE
    ensures RightSince(table, es, w.start)
    ensures ListsSeries(RowsFrom(minuteRows, w.start), table, w.start, w.current)
    ensures ListsSeries(RowsBefore(minuteRows, w.start), table, w.previousStart, w.start - MINUTE)
  {
    RightLater(table, es, w.previousStart, w.start);
    forall b, t | AllCell(b, t) in table && w.previousStart <= b <= w.current ensures b % MINUTE == 0 {
      BucketsAreMinutes(table, es, w.previousStart, AllCell(b, t));
    }
    hide RightSince, ListsSeries, ListsBreakdown, RowsFrom, RowsBefore;
    SplitLists(minuteRows, table, w);
  }

  ghost predicate Minutes(w: Window, minutes: nat) {
    && w.start % MINUTE == 0 && w.previousStart <= w.start <= w.current
    && w.previousStart == w.start - minutes * MINUTE && w.current == w.start + (minutes - 1) * MINUTE
  }

  lemma MinutesAligned(w: Window, minutes: nat)
    requires Minutes(w, minutes)
    ensures Aligned(w.start, w.current) && Aligned(w.previousStart, w.start - MINUTE)
  {
  }

  lemma KpisAreConsistent(
    s: SnapshotMessage, w: Window, minutes: nat, minuteRows: seq<SeriesRow>, hourRows: seq<SeriesRow>, hourStart: int, hourEnd: int,
    breakdown: seq<BreakdownRow>, table: Table, es: seq<Event>)
    requires IsSnapshot(s, w, minuteRows, hourRows, hourStart, hourEnd, breakdown)
    requires Minutes(w, minutes) && Queried(w, minuteRows, breakdown, table, es)
    ensures s.kpis == KpisOf(es, w.start, w.current)
    ensures s.previousKpis == KpisOf(es, w.previousStart, w.start - MINUTE)
  {
    var current, previous := RowsFrom(minuteRows, w.start), RowsBefore(minuteRows, w.start);
    QueriedWindows(w, minuteRows, breakdown, table, es);
    MinutesAligned(w, minutes);
    hide EndingAt, Minutes, ListsSeries, ListsBreakdown, RightSince, TotalsOf, ComputeKpis, KpisOf, Tally, SumOf,
      IsRanking, IsSeries, RowsFrom, RowsBefore, RevenueSum, OrdersSum, Aligned;
    TotalsAreSums(current);
    TotalsAreSums(previous);
    KpisAreTallies(current, TotalsOf(current), table, es, w.start, w.current);
    KpisAreTallies(previous, TotalsOf(previous), table, es, w.previousStart, w.start - MINUTE);
  }

  /** Each minute point is the tally of its minute. */
  lemma MinutesAreTallies(points: seq<SeriesPoint>, rows: seq<SeriesRow>, start: int, table: Table, es: seq<Event>)
    requires start % MINUTE == 0 && (forall i :: 0 <= i < |points| ==> points[i] == PointOf(rows, Bucket(start, MINUTE, i)))
    requires ListsSeries(rows, table, start, start + (|points| - 1) * MINUTE) && RightSince(table, es, start)
    ensures forall i :: 0 <= i < |points| ==> PointIs(points[i], es, Bucket(start, MINUTE, i), Bucket(start, MINUTE, i))
  {
    hide PointOf, ColumnOf, MetricOf, TypeOf, Tally, ListsSeries, RightSince, PointIs;
    forall i | 0 <= i < |points| ensures PointIs(points[i], es, Bucket(start, MINUTE, i), Bucket(start, MINUTE, i)) {
      var b := Bucket(start, MINUTE, i);
      forall c: Column ensures ColumnOf(PointOf(rows, b), c) == Tally(MetricOf(c), es, TypeOf(c), b, b) {
        MinutePointIsTally(c, rows, table, es, start, start + (|points| - 1) * MINUTE, b);
      }
      PointIsFrom(rows, b, es, b);
    }
  }

  lemma MinutePoints(w: Window, minutes: nat)
    requires minutes > 0 && Minutes(w, minutes)
    ensures Points(w.start, w.current, MINUTE) == minutes
  {
  }

  /** The minute series of a snapshot: per point, and each column in all. */
  ghost predicate SeriesIs(points: seq<SeriesPoint>, es: seq<Event>, start: int, width: int, n: nat) {
    && |points| == n
    && (forall i :: 0 <= i < n ==>
          PointIs(points[i], es, Bucket(start, width, i), Bucket(start, width, i + 1) - MINUTE))
    && forall c: Column :: ColumnSum(points, c) == Tally(MetricOf(c), es, TypeOf(c), start, Bucket(start, width, n) - MINUTE)
  }

  lemma SeriesIsFrom(points: seq<SeriesPoint>, es: seq<Event>, start: int, width: int, n: nat)
    requires width >= MINUTE && |points| == n
    requires forall i :: 0 <= i < n ==> PointIs(points[i], es, Bucket(start, width, i), Bucket(start, width, i + 1) - MINUTE)
    ensures SeriesIs(points, es, start, width, n)
  {
    hide PointIs, Bucket, Tally, ColumnSum, MetricOf, TypeOf;
    forall c: Column ensures ColumnSum(points, c) == Tally(MetricOf(c), es, TypeOf(c), start, Bucket(start, width, n) - MINUTE) {
      SeriesAddsUp(c, points, es, start, width);
    }
  }

  lemma SeriesIsConsistent(
    s: SnapshotMessage, w: Window, minutes: nat, minuteRows: seq<SeriesRow>, hourRows: seq<SeriesRow>, hourStart: int, hourEnd: int,
    breakdown: seq<BreakdownRow>, table: Table, es: seq<Event>)
    requires minutes > 0 && IsSnapshot(s, w, minuteRows, hourRows, hourStart, hourEnd, breakdown)
    requires Minutes(w, minutes) && Queried(w, minuteRows, breakdown, table, es)
    ensures SeriesIs(s.perMinute, es, w.start, MINUTE, minutes)
  {
    QueriedWindows(w, minuteRows, breakdown, table, es);
    MinutePoints(w, minutes);
    assert IsSeries(s.perMinute, RowsFrom(minuteRows, w.start), w.start, w.current, MINUTE);
    assert w.start % MINUTE == 0 && w.current == w.start + (minutes - 1) * MINUTE;
    hide *;
    MinuteSeries(s.perMinute, RowsFrom(minuteRows, w.start), w.start, minutes, table, es);
  }

  lemma MinuteSeries(points: seq<SeriesPoint>, rows: seq<SeriesRow>, start: int, minutes: nat, table: Table, es: seq<Event>)
    requires start % MINUTE == 0 && Points(start, start + (minutes - 1) * MINUTE, MINUTE) == minutes
    requires IsSeries(points, rows, start, start + (minutes - 1) * MINUTE, MINUTE)
    requires ListsSeries(rows, table, start, start + (minutes - 1) * MINUTE) && RightSince(table, es, start)
    ensures SeriesIs(points, es, start, MINUTE, minutes)
  {
    hide PointOf, PointIs, Points, ListsSeries, RightSince, SeriesIs;
    assert forall i :: 0 <= i < minutes ==> points[i] == PointOf(rows, Bucket(start, MINUTE, i));
    MinutesAreTallies(points, rows, start, table, es);
    assert forall i: int :: Bucket(start, MINUTE, i + 1) - MINUTE == Bucket(start, MINUTE, i);
    SeriesIsFrom(points, es, start, MINUTE, minutes);
  }

  /** The three rankings, name by name and in all. */
  ghost predicate RankingsAre(s: SnapshotMessage, es: seq<Event>, first: int, last: int) {
    && RankingIs(s.categories, es, ByCategory, first, last)
    && RankingIs(s.cities, es, ByCity, first, last)
    && RankingIs(s.payments, es, ByPayment, first, last)
    && RevenueSum(s.categories) == RevenueSum(s.cities) == RevenueSum(s.payments) == KpisOf(es, first, last).revenue
    && OrdersSum(s.categories) == OrdersSum(s.cities) == OrdersSum(s.payments) == KpisOf(es, first, last).orders
  }

  lemma RankingsAreConsistent(
    s: SnapshotMessage, w: Window, minutes: nat, minuteRows: seq<SeriesRow>, hourRows: seq<SeriesRow>, hourStart: int, hourEnd: int,
    breakdown: seq<BreakdownRow>, table: Table, es: seq<Event>)
    requires IsSnapshot(s, w, minuteRows, hourRows, hourStart, hourEnd, breakdown)
    requires Minutes(w, minutes) && Queried(w, minuteRows, breakdown, table, es)
    ensures RankingsAre(s, es, w.start, w.current)
  {
    QueriedWindows(w, minuteRows, breakdown, table, es);
    MinutesAligned(w, minutes);
    hide EndingAt, Minutes, ListsSeries, ListsBreakdown, RightSince, TotalsOf, ComputeKpis, KpisOf, Tally, SumOf,
      IsRanking, IsSeries, RowsFrom, RowsBefore, RevenueSum, OrdersSum, RankingIs, Aligned;
    RankingIsTally(s.categories, breakdown, ByCategory, table, es, w.start, w.current);
    RankingIsTally(s.cities, breakdown, ByCity, table, es, w.start, w.current);
    RankingIsTally(s.payments, breakdown, ByPayment, table, es, w.start, w.current);
    RankingIsRight(s.categories, breakdown, ByCategory, table, es, w.start, w.current);
    RankingIsRight(s.cities, breakdown, ByCity, table, es, w.start, w.current);
    RankingIsRight(s.payments, breakdown, ByPayment, table, es, w.start, w.current);
  }

  function HourEnd(now: int): int {
    Floor(HOUR, now)
  }

  function HourStart(now: int, hours: nat): int {
    HourEnd(now) - (hours - 1) * HOUR
  }

  ghost predicate HoursQueried(hourRows: seq<SeriesRow>, start: int, end: int, table: Table, es: seq<Event>) {
    HoursRightSince(table, es, start) && ListsSeries(hourRows, table, start, end)
  }

  /** The bucket is the `k`-th before the one that contains `now`. */
  ghost predicate Aged(bucket: int, width: int, now: int, k: int)
    requires width > 0
  {
    bucket % width == 0 && bucket + k * width <= now < bucket + k * width + width
  }

  lemma MinuteAges(now: int, minutes: nat)
    requires minutes > 0
    ensures var w := EndingAt(now, minutes);
            && Minutes(w, minutes)
            && forall i :: 0 <= i < minutes ==> Aged(Bucket(w.start, MINUTE, i), MINUTE, now, minutes - 1 - i)
  {
  }

  /** The hourly series ends with the present hour: the hour that is `k` hours old is shown exactly for
      `k < hours`. */
  lemma HourAges(now: int, hours: nat)
    requires hours > 0
    ensures var start, end := HourStart(now, hours), HourEnd(now);
            && start % HOUR == 0 && start <= end && Points(start, end, HOUR) == hours
            && end == start + (hours - 1) * HOUR
            && (forall i :: 0 <= i < hours ==> Aged(Bucket(start, HOUR, i), HOUR, now, hours - 1 - i))
            && (forall b, k: nat :: Aged(b, HOUR, now, k) ==> (start <= b <= end <==> k < hours))
  {
    forall b, k: nat | Aged(b, HOUR, now, k) ensures b == HourEnd(now) - k * HOUR {
      SameHour(b + k * HOUR, now);
    }
  }

  lemma SameHour(b: int, now: int)
    requires b % HOUR == 0 && b <= now < b + HOUR
    ensures b == Floor(HOUR, now)
  {
  }

  lemma HourInside(start: int, n: nat, i: nat)
    requires start % HOUR == 0 && i < n
    ensures (start + i * HOUR) % HOUR == 0 && start <= start + i * HOUR <= start + (n - 1) * HOUR
  {
  }

  /** Each hourly point is the tally of its hour. */
  lemma HoursAreTallies(points: seq<SeriesPoint>, rows: seq<SeriesRow>, start: int, table: Table, es: seq<Event>)
    requires start % HOUR == 0 && (forall i :: 0 <= i < |points| ==> points[i] == PointOf(rows, Bucket(start, HOUR, i)))
    requires HoursQueried(rows, start, start + (|points| - 1) * HOUR, table, es)
    ensures forall i :: 0 <= i < |points| ==> PointIs(points[i], es, Bucket(start, HOUR, i), LastMinute(Bucket(start, HOUR, i)))
  {
    hide PointOf, ColumnOf, MetricOf, TypeOf, Tally, ListsSeries, HoursRightSince, PointIs;
    forall i | 0 <= i < |points| ensures PointIs(points[i], es, Bucket(start, HOUR, i), LastMinute(Bucket(start, HOUR, i))) {
      var b := Bucket(start, HOUR, i);
      HourInside(start, |points|, i);
      forall c: Column ensures ColumnOf(PointOf(rows, b), c) == Tally(MetricOf(c), es, TypeOf(c), b, LastMinute(b)) {
        HourPointIsTally(c, rows, table, es, start, start + (|points| - 1) * HOUR, b);
      }
      PointIsFrom(rows, b, es, LastMinute(b));
    }
  }

  lemma HoursAreConsistent(points: seq<SeriesPoint>, hourRows: seq<SeriesRow>, now: int, hours: nat, table: Table, es: seq<Event>)
    requires hours > 0 && IsSeries(points, hourRows, HourStart(now, hours), HourEnd(now), HOUR)
    requires HoursQueried(hourRows, HourStart(now, hours), HourEnd(now), table, es)
    ensures SeriesIs(points, es, HourStart(now, hours), HOUR, hours)
  {
    HourAges(now, hours);
    var start := HourStart(now, hours);
    hide HourStart, HourEnd, Points, PointOf, PointIs, HoursQueried, Aged;
    assert forall i :: 0 <= i < hours ==> points[i] == PointOf(hourRows, Bucket(start, HOUR, i));
    HoursAreTallies(points, hourRows, start, table, es);
    assert forall i: int :: Bucket(start, HOUR, i + 1) - MINUTE == LastMinute(Bucket(start, HOUR, i));
    SeriesIsFrom(points, es, start, HOUR, hours);
  }

  /** The points show the last `n` buckets up to the one that contains `now`, each with the tally of its
      own time, and every column adds up to the tally of all of them. */
  ghost predicate SeriesUpTo(points: seq<SeriesPoint>, es: seq<Event>, now: int, width: int, n: nat)
    requires width > 0
  {
    && |points| == n
    && (forall i :: 0 <= i < n ==>
          && Aged(points[i].bucket, width, now, n - 1 - i)
          && PointIs(points[i], es, points[i].bucket, points[i].bucket + width - MINUTE))
    && (n > 0 ==> forall c: Column ::
          ColumnSum(points, c) == Tally(MetricOf(c), es, TypeOf(c), points[0].bucket, points[n - 1].bucket + width - MINUTE))
  }

  lemma SeriesEndsNow(points: seq<SeriesPoint>, es: seq<Event>, start: int, now: int, width: int, n: nat)
    requires width >= MINUTE && n > 0 && SeriesIs(points, es, start, width, n)
    requires forall i :: 0 <= i < n ==> Aged(Bucket(start, width, i), width, now, n - 1 - i)
    ensures SeriesUpTo(points, es, now, width, n)
    ensures points[0].bucket == start && points[n - 1].bucket == Bucket(start, width, n - 1)
  {
    hide Aged, Bucket, Tally, ColumnSum, MetricOf, TypeOf;
    forall i: nat | i < n ensures points[i].bucket == Bucket(start, width, i) {
      BucketStep(start, width, i);
    }
    forall i: nat | i < n ensures PointIs(points[i], es, points[i].bucket, points[i].bucket + width - MINUTE) {
      BucketStep(start, width, i);
    }
    BucketStep(start, width, 0);
    BucketStep(start, width, n - 1);
  }

  /** What a snapshot says, against the raw events: its series end with the present minute and the present
      hour, and its key figures and rankings are those of exactly the minutes shown. */
  ghost predicate ConsistentSnapshot(s: SnapshotMessage, now: int, minutes: nat, hours: nat, es: seq<Event>) {
    && minutes > 0
    && SeriesUpTo(s.perMinute, es, now, MINUTE, minutes)
    && SeriesUpTo(s.perHour, es, now, HOUR, hours)
    && (var first, last := s.perMinute[0].bucket, s.perMinute[minutes - 1].bucket;
        && s.kpis == KpisOf(es, first, last)
        && s.previousKpis == KpisOf(es, first - minutes * MINUTE, first - MINUTE)
        && RankingsAre(s, es, first, last))
    && s.byStatus == [s.kpis.orders, s.kpis.paid, s.kpis.shipped, s.kpis.cancelled]
  }

  /** A snapshot cannot contradict itself. When both rollups are right for its windows, every point of
      both series is the tally over the raw events of its own minute or hour, up to the present ones; the
      key figures are the tallies of the minutes shown and of as many before; and every ranked item has
      what the raw events with its name in that field add up to, in order of rank, none missing. */
  lemma SnapshotIsConsistent(
    s: SnapshotMessage, now: int, minutes: nat, hours: nat, minuteRows: seq<SeriesRow>, hourRows: seq<SeriesRow>,
    breakdown: seq<BreakdownRow>, minute: Table, hour: Table, es: seq<Event>)
    requires minutes > 0 && hours > 0
    requires IsSnapshot(s, EndingAt(now, minutes), minuteRows, hourRows, HourStart(now, hours), HourEnd(now), breakdown)
    requires Queried(EndingAt(now, minutes), minuteRows, breakdown, minute, es)
    requires HoursQueried(hourRows, HourStart(now, hours), HourEnd(now), hour, es)
    ensures ConsistentSnapshot(s, now, minutes, hours, es)
  {
    var w := EndingAt(now, minutes);
    assert IsSeries(s.perHour, hourRows, HourStart(now, hours), HourEnd(now), HOUR);
    assert s.byStatus == [s.kpis.orders, s.kpis.paid, s.kpis.shipped, s.kpis.cancelled];
    hide *;
    MinuteAges(now, minutes);
    HourAges(now, hours);
    KpisAreConsistent(s, w, minutes, minuteRows, hourRows, HourStart(now, hours), HourEnd(now), breakdown, minute, es);
    SeriesIsConsistent(s, w, minutes, minuteRows, hourRows, HourStart(now, hours), HourEnd(now), breakdown, minute, es);
    RankingsAreConsistent(s, w, minutes, minuteRows, hourRows, HourStart(now, hours), HourEnd(now), breakdown, minute, es);
    HoursAreConsistent(s.perHour, hourRows, now, hours, hour, es);
    SeriesEndsNow(s.perMinute, es, w.start, now, MINUTE, minutes);
    SeriesEndsNow(s.perHour, es, HourStart(now, hours), now, HOUR, hours);
    AllConsistent(s, now, minutes, hours, es, w);
  }

  lemma AllConsistent(s: SnapshotMessage, now: int, minutes: nat, hours: nat, es: seq<Event>, w: Window)
    requires minutes > 0 && Minutes(w, minutes)
    requires SeriesUpTo(s.perMinute, es, now, MINUTE, minutes) && SeriesUpTo(s.perHour, es, now, HOUR, hours)
    requires s.perMinute[0].bucket == w.start && s.perMinute[minutes - 1].bucket == Bucket(w.start, MINUTE, minutes - 1)
    requires s.kpis == KpisOf(es, w.start, w.current) && s.previousKpis == KpisOf(es, w.previousStart, w.start - MINUTE)
    requires RankingsAre(s, es, w.start, w.current)
    requires s.byStatus == [s.kpis.orders, s.kpis.paid, s.kpis.shipped, s.kpis.cancelled]
    ensures ConsistentSnapshot(s, now, minutes, hours, es)
  {
    hide KpisOf, RankingsAre, PointIs, Tally, ColumnSum, Aged;
  }

  /** What the read transaction of a snapshot returns from the tables. */
  ghost predicate Reads(
    t: Store, now: int, minutes: nat, hours: nat, minuteRows: seq<SeriesRow>, hourRows: seq<SeriesRow>, breakdown: seq<BreakdownRow>)
  {
    var w := EndingAt(now, minutes);
    && ListsSeries(minuteRows, t.minute, w.previousStart, w.current)
    && ListsBreakdown(breakdown, t.minute, w.start, w.current)
    && ListsSeries(hourRows, t.hour, HourStart(now, hours), HourEnd(now))
  }

  /** Read from sound tables whose retention has not reached its windows, a snapshot is consistent with
      everything that was ever inserted. */
  lemma StoredSnapshotIsConsistent(
    s: SnapshotMessage, t: Store, now: int, minutes: nat, hours: nat, minuteRows: seq<SeriesRow>, hourRows: seq<SeriesRow>,
    breakdown: seq<BreakdownRow>)
    requires minutes > 0 && hours > 0 && Sound(t)
    requires Kept(t.minuteHorizon, EndingAt(now, minutes).previousStart) && Kept(t.hourHorizon, HourStart(now, hours))
    requires Reads(t, now, minutes, hours, minuteRows, hourRows, breakdown)
    requires IsSnapshot(s, EndingAt(now, minutes), minuteRows, hourRows, HourStart(now, hours), HourEnd(now), breakdown)
    ensures ConsistentSnapshot(s, now, minutes, hours, Contents(t.log))
  {
    assert Agrees(t.minute, Minute, Contents(t.log), t.minuteHorizon) && Agrees(t.hour, Hour, Contents(t.log), t.hourHorizon);
    hide Sound, Agrees, IsSnapshot, ListsSeries, ListsBreakdown, EndingAt, ConsistentSnapshot, HourStart, HourEnd, Kept,
      RightSince, HoursRightSince;
    KeptIsRight(t.minute, Contents(t.log), t.minuteHorizon, EndingAt(now, minutes).previousStart);
    KeptHoursAreRight(t.hour, Contents(t.log), t.hourHorizon, HourStart(now, hours));
    SnapshotIsConsistent(s, now, minutes, hours, minuteRows, hourRows, breakdown, t.minute, t.hour, Contents(t.log));
  }

  lemma TotalsAreSums(rows: seq<SeriesRow>)
    ensures forall t: EventType :: Got(TotalsOf(rows), t) == Totals(SumOf(Count, rows, t), SumOf(Amount, rows, t))
  {
  }

  lemma RankingIsTally(items: seq<RankedItem>, rows: seq<BreakdownRow>, d: Dimension, table: Table, es: seq<Event>, first: int, last: int)
    requires IsRanking(items, rows, d) && Aligned(first, last) && ListsBreakdown(rows, table, first, last)
    requires RightSince(table, es, first) && !d.All?
    ensures RevenueSum(items) == KpisOf(es, first, last).revenue && OrdersSum(items) == KpisOf(es, first, last).orders
  {
    RankingAddsUp(items, rows, d);
    BreakdownAddsUp(Amount, rows, d, Paid, table, es, first, last);
    BreakdownAddsUp(Count, rows, d, Placed, table, es, first, last);
    hide IsRanking, ListsBreakdown, RightSince, RevenueSum, OrdersSum, DimensionSum;
  }
}