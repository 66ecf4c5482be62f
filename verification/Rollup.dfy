/** The grouping that fills `agg_minute` and `agg_hour`: one cell per dimension, bucket,
    dimension value and event type. `GroupBy` is the recompute from raw events; `Upsert` is the
    incremental `ON CONFLICT DO UPDATE SET count = count + EXCLUDED.count`. */
module Rollup {
  import opened Events

  datatype Unit = Minute | Hour

  datatype Dimension = All | ByCategory | ByCity | ByPayment

  datatype Cell = Cell(dimension: Dimension, bucket: int, value: Label, eventType: EventType)

  datatype Totals = Totals(count: int, amount: int)

  /** The two columns a row sums up. */
  datatype Metric = Count | Amount

  type Table = map<Cell, Totals>

  /** The empty text that stands for "no value" in the dimension `All`. */
  const NO_VALUE: Label := 0

  function Width(u: Unit): (w: int)
    ensures w > 0
  {
    match u
    case Minute => MINUTE
    case Hour => HOUR
  }

  function CellOf(u: Unit, d: Dimension, e: Event): Cell {
    var value := match d
      case All => NO_VALUE
      case ByCategory => e.category
      case ByCity => e.city
      case ByPayment => e.paymentMethod;
    Cell(d, Floor(Width(u), e.occurredAt), value, e.eventType)
  }

  function CellsOf(u: Unit, es: seq<Event>): set<Cell> {
    set e, d: Dimension | e in es :: CellOf(u, d, e)
  }

  /** What one event adds to a column, if it is covered at all. */
  function Share(m: Metric, covered: bool, e: Event): int {
    if !covered then 0 else if m.Count? then 1 else e.amount
  }

  /** Sum of a column over the events whose cell in dimension `d` lies in `cells`. */
  function Measure(m: Metric, u: Unit, d: Dimension, es: seq<Event>, cells: set<Cell>): int {
    if es == [] then 0
    else Share(m, CellOf(u, d, es[0]) in cells, es[0]) + Measure(m, u, d, es[1..], cells)
  }

  function Group(u: Unit, es: seq<Event>, c: Cell): Totals {
    Totals(Measure(Count, u, c.dimension, es, {c}), Measure(Amount, u, c.dimension, es, {c}))
  }

  function GroupBy(u: Unit, es: seq<Event>): Table {
    map c | c in CellsOf(u, es) :: Group(u, es, c)
  }

  function Upsert(table: Table, delta: Table): Table {
    map c | c in table.Keys + delta.Keys ::
      if c !in delta then table[c]
      else if c !in table then delta[c]
      else Totals(table[c].count + delta[c].count, table[c].amount + delta[c].amount)
  }

  /** What a query that sums a column over one cell sees; a missing row counts as zero. */
  function Lookup(m: Metric, table: Table, c: Cell): int {
    if c !in table then 0 else if m.Count? then table[c].count else table[c].amount
  }

  // ---- What a row says, event by event ------------------------------------------------------

  /** The event carries the name in the field a dimension is about. */
  predicate InField(e: Event, d: Dimension, name: Label) {
    match d
    case All => true
    case ByCategory => e.category == name
    case ByCity => e.city == name
    case ByPayment => e.paymentMethod == name
  }

  /** The event belongs to the row: by its own field, its type, and the time the bucket covers. */
  predicate Belongs(u: Unit, c: Cell, e: Event) {
    && InField(e, c.dimension, c.value) && (c.dimension.All? ==> c.value == NO_VALUE)
    && e.eventType == c.eventType
    && c.bucket % Width(u) == 0 && c.bucket <= e.occurredAt < c.bucket + Width(u)
  }

  function Belonging(u: Unit, c: Cell, es: seq<Event>): seq<Event> {
    if es == [] then []
    else if Belongs(u, c, es[0]) then [es[0]] + Belonging(u, c, es[1..])
    else Belonging(u, c, es[1..])
  }

  function Money(es: seq<Event>): int {
    if es == [] then 0 else es[0].amount + Money(es[1..])
  }

  lemma BelongsMeansCell(u: Unit, c: Cell, e: Event)
    ensures CellOf(u, c.dimension, e) == c <==> Belongs(u, c, e)
  {
    MinuteOf(e.occurredAt, c.bucket);
    HourOf(e.occurredAt, c.bucket);
    hide Floor;
  }

  lemma MinuteOf(t: int, bucket: int)
    ensures Floor(MINUTE, t) == bucket <==> bucket % MINUTE == 0 && bucket <= t < bucket + MINUTE
  {
  }

  lemma HourOf(t: int, bucket: int)
    ensures Floor(HOUR, t) == bucket <==> bucket % HOUR == 0 && bucket <= t < bucket + HOUR
  {
  }

  lemma {:induction false} MeasureIsBelonging(m: Metric, u: Unit, es: seq<Event>, c: Cell)
    ensures Measure(m, u, c.dimension, es, {c}) == if m.Count? then |Belonging(u, c, es)| else Money(Belonging(u, c, es))
  {
    if es != [] {
      BelongsMeansCell(u, c, es[0]);
      MeasureIsBelonging(m, u, es[1..], c);
      hide CellOf, Belongs;
    }
  }

  /** The recompute, row by row: a row exists exactly if some event belongs to it, and it holds their
      number and the sum of their amounts. */
  lemma RecomputeIsTally(u: Unit, es: seq<Event>, c: Cell)
    ensures c in GroupBy(u, es) <==> exists e :: e in es && Belongs(u, c, e)
    ensures c in GroupBy(u, es) ==>
              GroupBy(u, es)[c] == Totals(|Belonging(u, c, es)|, Money(Belonging(u, c, es)))
  {
    CellPresent(u, es, c);
    forall e | e in es ensures CellOf(u, c.dimension, e) == c <==> Belongs(u, c, e) {
      BelongsMeansCell(u, c, e);
    }
    MeasureIsBelonging(Count, u, es, c);
    MeasureIsBelonging(Amount, u, es, c);
    hide CellOf, Belongs, Measure, Belonging, CellsOf;
  }

  // ---- Measure is additive in the events and in the cells ---------------------------------

  lemma {:induction false} MeasureConcat(m: Metric, u: Unit, d: Dimension, a: seq<Event>, b: seq<Event>, cells: set<Cell>)
    ensures Measure(m, u, d, a + b, cells) == Measure(m, u, d, a, cells) + Measure(m, u, d, b, cells)
  {
    if a == [] {
      assert a + b == b;
    } else {
      assert (a + b)[0] == a[0] && (a + b)[1..] == a[1..] + b;
      MeasureConcat(m, u, d, a[1..], b, cells);
    }
  }

  lemma {:induction false} MeasureUnion(m: Metric, u: Unit, d: Dimension, es: seq<Event>, s: set<Cell>, t: set<Cell>)
    requires s !! t
    ensures Measure(m, u, d, es, s + t) == Measure(m, u, d, es, s) + Measure(m, u, d, es, t)
  {
    if es != [] {
      MeasureUnion(m, u, d, es[1..], s, t);
    }
  }

  lemma {:induction false} MeasureUntouched(m: Metric, u: Unit, d: Dimension, es: seq<Event>, cells: set<Cell>)
    requires forall e :: e in es ==> CellOf(u, d, e) !in cells
    ensures Measure(m, u, d, es, cells) == 0
  {
    if es != [] {
      assert es[0] in es;
      MeasureUntouched(m, u, d, es[1..], cells);
    }
  }

  /** Two ways of sorting events into cells measure the same when they pick the same events. */
  lemma {:induction false} MeasureSame(
    m: Metric, u: Unit, d: Dimension, s: set<Cell>, u': Unit, d': Dimension, s': set<Cell>, es: seq<Event>)
    requires forall e :: e in es ==> (CellOf(u, d, e) in s <==> CellOf(u', d', e) in s')
    ensures Measure(m, u, d, es, s) == Measure(m, u', d', es, s')
    decreases |es|
  {
    if es != [] {
      assert es[0] in es;
      MeasureSame(m, u, d, s, u', d', s', es[1..]);
    }
  }

  ghost predicate Touched(u: Unit, es: seq<Event>, c: Cell) {
    exists e :: e in es && CellOf(u, c.dimension, e) == c
  }

  lemma TouchedConcat(u: Unit, a: seq<Event>, b: seq<Event>, c: Cell)
    ensures Touched(u, a + b, c) <==> Touched(u, a, c) || Touched(u, b, c)
  {
    assert forall e :: e in a + b <==> e in a || e in b;
  }

  /** A cell has a row exactly when some event falls into it. */
  lemma CellPresent(u: Unit, es: seq<Event>, c: Cell)
    ensures c in GroupBy(u, es) <==> Touched(u, es, c)
  {
    if c in GroupBy(u, es) {
      var e, d: Dimension :| e in es && c == CellOf(u, d, e);
      assert d == c.dimension;
    }
  }

  lemma LookupIsMeasure(m: Metric, u: Unit, es: seq<Event>, c: Cell)
    ensures Lookup(m, GroupBy(u, es), c) == Measure(m, u, c.dimension, es, {c})
  {
    CellPresent(u, es, c);
    if c !in GroupBy(u, es) {
      MeasureUntouched(m, u, c.dimension, es, {c});
    }
  }

  /** `table` and `other` hold the same row, or both none, for cell `c`. */
  ghost predicate SameCell(table: Table, other: Table, c: Cell) {
    && (c in table <==> c in other)
    && (c in table ==> table[c] == other[c])
  }

  /** One cell of the incremental table equals the same cell of the recompute, presence and
      totals alike. */
  lemma UpsertCell(u: Unit, table: Table, a: seq<Event>, b: seq<Event>, c: Cell)
    requires SameCell(table, GroupBy(u, a), c)
    ensures SameCell(Upsert(table, GroupBy(u, b)), GroupBy(u, a + b), c)
  {
    CellPresent(u, a, c);
    CellPresent(u, b, c);
    CellPresent(u, a + b, c);
    TouchedConcat(u, a, b, c);
    forall m: Metric
      ensures Measure(m, u, c.dimension, a + b, {c}) == Lookup(m, GroupBy(u, a), c) + Lookup(m, GroupBy(u, b), c)
    {
      MeasureConcat(m, u, c.dimension, a, b, {c});
      LookupIsMeasure(m, u, a, c);
      LookupIsMeasure(m, u, b, c);
    }
    hide Touched, Measure, CellsOf;
    var x, y := Measure(Count, u, c.dimension, a + b, {c}), Measure(Amount, u, c.dimension, a + b, {c});
  }

  /** The incremental form refines the recompute: adding the groups of the new rows to the
      groups of the old ones is grouping them all. */
  lemma IncrementalEqualsRebuild(u: Unit, a: seq<Event>, b: seq<Event>)
    ensures Upsert(GroupBy(u, a), GroupBy(u, b)) == GroupBy(u, a + b)
  {
    var up, all := Upsert(GroupBy(u, a), GroupBy(u, b)), GroupBy(u, a + b);
    forall c: Cell ensures SameCell(up, all, c) {
      UpsertCell(u, GroupBy(u, a), a, b, c);
    }
    hide Upsert, GroupBy;
    SameTables(up, all);
  }

  lemma SameTables(a: Table, b: Table)
    requires forall c :: SameCell(a, b, c)
    ensures a == b
  {
    forall c ensures c in a.Keys <==> c in b.Keys {
      assert SameCell(a, b, c);
    }
    assert a.Keys == b.Keys;
    assert forall c :: c in a ==> SameCell(a, b, c);
  }

  // ---- An hour is its sixty minutes --------------------------------------------------------

  function MinuteCell(c: Cell, i: nat): Cell {
    c.(bucket := c.bucket + i * MINUTE)
  }

  function MinuteCells(c: Cell, n: nat): set<Cell> {
    if n == 0 then {} else MinuteCells(c, n - 1) + {MinuteCell(c, n - 1)}
  }

  /** Sum of the first `n` minute rows of the hour that starts at `c.bucket`. */
  function MinuteSum(m: Metric, table: Table, c: Cell, n: nat): int {
    if n == 0 then 0 else MinuteSum(m, table, c, n - 1) + Lookup(m, table, MinuteCell(c, n - 1))
  }

  lemma {:induction false} InMinuteCells(c: Cell, n: nat, x: Cell)
    ensures x in MinuteCells(c, n) <==> exists i: nat :: i < n && x == MinuteCell(c, i)
  {
    if n > 0 {
      InMinuteCells(c, n - 1, x);
    }
  }

  lemma LastMinuteIsNew(c: Cell, n: nat)
    ensures MinuteCell(c, n) !in MinuteCells(c, n)
  {
    InMinuteCells(c, n, MinuteCell(c, n));
    assert forall i: nat | i < n :: c.bucket + i * MINUTE < c.bucket + n * MINUTE;
  }

  lemma {:induction false} MinuteSumIsMeasure(m: Metric, es: seq<Event>, c: Cell, n: nat)
    ensures MinuteSum(m, GroupBy(Minute, es), c, n) == Measure(m, Minute, c.dimension, es, MinuteCells(c, n))
    decreases n
  {
    if n == 0 {
      MeasureUntouched(m, Minute, c.dimension, es, {});
    } else {
      var last, before := MinuteCell(c, n - 1), MinuteCells(c, n - 1);
      MinuteSumIsMeasure(m, es, c, n - 1);
      LookupIsMeasure(m, Minute, es, last);
      LastMinuteIsNew(c, n - 1);
      MeasureUnion(m, Minute, c.dimension, es, before, {last});
      hide Measure, GroupBy, Lookup;
    }
  }

  lemma FloorInside(t: int, bucket: int)
    requires bucket % HOUR == 0
    ensures Floor(HOUR, t) == bucket <==>
            exists i: nat :: i < 60 && Floor(MINUTE, t) == bucket + i * MINUTE
  {
    var h, m := bucket / HOUR, t / MINUTE;
    assert Floor(MINUTE, t) == MINUTE * m && Floor(HOUR, t) == HOUR * (t / HOUR);
    assert bucket == HOUR * h;
    assert t / HOUR == m / 60;
    if t / HOUR == h {
      assert Floor(MINUTE, t) == bucket + (m % 60) * MINUTE;
    }
  }

  lemma HourCellIsMinuteCells(e: Event, c: Cell)
    requires c.bucket % HOUR == 0
    ensures CellOf(Hour, c.dimension, e) == c <==> CellOf(Minute, c.dimension, e) in MinuteCells(c, 60)
  {
    FloorInside(e.occurredAt, c.bucket);
    var x := CellOf(Minute, c.dimension, e);
    InMinuteCells(c, 60, x);
    if CellOf(Hour, c.dimension, e) == c {
      var i: nat :| i < 60 && Floor(MINUTE, e.occurredAt) == c.bucket + i * MINUTE;
      assert x == MinuteCell(c, i);
    }
    if x in MinuteCells(c, 60) {
      var i: nat :| i < 60 && x == MinuteCell(c, i);
      assert Floor(MINUTE, e.occurredAt) == c.bucket + i * MINUTE;
    }
  }

  /** Every hour row is the sum of its sixty minute rows, in every dimension. */
  lemma HourIsSumOfMinutes(m: Metric, es: seq<Event>, c: Cell)
    requires c.bucket % HOUR == 0
    ensures Lookup(m, GroupBy(Hour, es), c) == MinuteSum(m, GroupBy(Minute, es), c, 60)
  {
    LookupIsMeasure(m, Hour, es, c);
    MinuteSumIsMeasure(m, es, c, 60);
    forall e | e in es
      ensures CellOf(Hour, c.dimension, e) in {c} <==> CellOf(Minute, c.dimension, e) in MinuteCells(c, 60)
    {
      HourCellIsMinuteCells(e, c);
    }
    MeasureSame(m, Hour, c.dimension, {c}, Minute, c.dimension, MinuteCells(c, 60), es);
    hide Measure, GroupBy, MinuteSum, CellOf, MinuteCells;
  }
}
