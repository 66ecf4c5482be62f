/** The windows the alert evaluator reads: rates include the minute in progress, revenue compares two
    periods of complete minutes. */
module AlertInputs {
  import opened Events
  import opened Rollup
  import opened Metrics
  import opened Rules

  datatype Windows = Windows(minute: int, recentStart: int, currentStart: int, previousStart: int)

  function WindowsAt(now: int, minutes: nat): Windows {
    var minute := Floor(MINUTE, now);
    var currentStart := minute - minutes * MINUTE;
    Windows(minute, currentStart + MINUTE, currentStart, currentStart - minutes * MINUTE)
  }

  /** `sum(...) FILTER (...)` over the `all` rows of one type with `first <= bucket <= last`. */
  ghost function Filtered(m: Metric, table: Table, t: EventType, first: int, last: int): int {
    SumCells(m, table, GroupCells(table, All, NO_VALUE, t, first, last))
  }

  /** ... and with `first <= bucket < end`. */
  ghost function FilteredBelow(m: Metric, table: Table, t: EventType, first: int, end: int): int {
    SumCells(m, table, set c | c in GroupCells(table, All, NO_VALUE, t, first, end) && c.bucket < end)
  }

  datatype OrderInputs = OrderInputs(placed: int, cancelled: int, revenueCurrent: int, revenuePrevious: int)

  ghost function ReadOrders(table: Table, w: Windows): OrderInputs {
    OrderInputs(
      Filtered(Count, table, Placed, w.recentStart, w.minute),
      Filtered(Count, table, Cancelled, w.recentStart, w.minute),
      FilteredBelow(Amount, table, Paid, w.currentStart, w.minute),
      FilteredBelow(Amount, table, Paid, w.previousStart, w.currentStart))
  }

  lemma SumIsTally(m: Metric, table: Table, es: seq<Event>, cells: set<Cell>, t: EventType, first: int, last: int)
    requires RightSince(table, es, first) && Aligned(first, last)
    requires forall c :: c in cells <==>
               c in table && c.dimension.All? && c.value == NO_VALUE && c.eventType == t && first <= c.bucket <= last
    ensures SumCells(m, table, cells) == Tally(m, es, t, first, last)
  {
    SumCellsIsMeasure(m, table, es, first, All, cells);
    forall e | e in es ensures CellOf(Minute, All, e) in cells <==> Counted(e, t, first, last) {
      CountedByBucket(e, t, first, last);
      hide Counted;
      if Counted(e, t, first, last) {
        RightCell(table, es, first, CellOf(Minute, All, e));
      }
    }
    hide SumCells, Measure, RightSince;
    MeasureIsTally(m, All, es, cells, t, first, last);
  }

  lemma FilteredIsTally(m: Metric, table: Table, es: seq<Event>, t: EventType, first: int, last: int)
    requires RightSince(table, es, first) && Aligned(first, last)
    ensures Filtered(m, table, t, first, last) == Tally(m, es, t, first, last)
  {
    SumIsTally(m, table, es, GroupCells(table, All, NO_VALUE, t, first, last), t, first, last);
    hide SumCells, Tally;
  }

  /** Below the start of a minute means up to the minute before it. */
  lemma BelowIsTally(m: Metric, table: Table, es: seq<Event>, t: EventType, first: int, end: int)
    requires RightSince(table, es, first) && Aligned(first, end)
    ensures FilteredBelow(m, table, t, first, end) == Tally(m, es, t, first, end - MINUTE)
  {
    var cells := set c | c in GroupCells(table, All, NO_VALUE, t, first, end) && c.bucket < end;
    forall c | c in cells ensures c.bucket <= end - MINUTE {
      BucketsAreMinutes(table, es, first, c);
    }
    SumIsTally(m, table, es, cells, t, first, end - MINUTE);
  }

  /** With a right rollup the evaluator judges the raw events: orders and cancellations of the last
      minutes up to the present one, paid amounts of the complete minutes before it, and of equally many
      minutes before those. */
  lemma InputsAreTallies(table: Table, es: seq<Event>, now: int, minutes: nat, present: int)
    requires present % MINUTE == 0 && present <= now < present + MINUTE
    requires RightSince(table, es, present - 2 * minutes * MINUTE)
    ensures ReadOrders(table, WindowsAt(now, minutes)) == OrderInputs(
              Tally(Count, es, Placed, present - (minutes - 1) * MINUTE, present),
              Tally(Count, es, Cancelled, present - (minutes - 1) * MINUTE, present),
              Tally(Amount, es, Paid, present - minutes * MINUTE, present - MINUTE),
              Tally(Amount, es, Paid, present - 2 * minutes * MINUTE, present - (minutes + 1) * MINUTE))
  {
    var w := WindowsAt(now, minutes);
    WindowsShape(now, minutes, present);
    hide *;
    RightLater(table, es, w.previousStart, w.recentStart);
    RightLater(table, es, w.previousStart, w.currentStart);
    FilteredIsTally(Count, table, es, Placed, w.recentStart, w.minute);
    FilteredIsTally(Count, table, es, Cancelled, w.recentStart, w.minute);
    BelowIsTally(Amount, table, es, Paid, w.currentStart, w.minute);
    BelowIsTally(Amount, table, es, Paid, w.previousStart, w.currentStart);
    OrdersRead(table, w);
  }

  /** An evaluation: the minute in progress, the rollup it read and the events behind it. */
  datatype Observation = Observation(now: int, present: int, table: Table, es: seq<Event>)

  /** The inputs about orders are what the evaluation read. */
  ghost predicate Observed(i: Inputs, o: Observation, minutes: nat) {
    && o.present % MINUTE == 0 && o.present <= o.now < o.present + MINUTE
    && RightSince(o.table, o.es, o.present - 2 * minutes * MINUTE)
    && ReadOrders(o.table, WindowsAt(o.now, minutes)) == OrderInputs(i.placed, i.cancelled, i.revenueCurrent, i.revenuePrevious)
  }

  /** The raw events breach the rule: of the last `minutes` minutes for the cancellation rate, of the
      last complete ones against as many before for the revenue drop. */
  ghost predicate EventsBreach(r: Rule, i: Inputs, o: Observation, minutes: nat) {
    match r
    case CancellationRate(threshold, _, minimum) =>
      var placed := Tally(Count, o.es, Placed, o.present - (minutes - 1) * MINUTE, o.present);
      var cancelled := Tally(Count, o.es, Cancelled, o.present - (minutes - 1) * MINUTE, o.present);
      placed >= minimum && cancelled as real >= Times(threshold, placed as real)
    case RevenueDrop(threshold, _, minimum) =>
      var current := Tally(Amount, o.es, Paid, o.present - minutes * MINUTE, o.present - MINUTE);
      var previous := Tally(Amount, o.es, Paid, o.present - 2 * minutes * MINUTE, o.present - (minutes + 1) * MINUTE);
      previous >= minimum && current as real <= Times(1.0 - threshold, previous as real)
    case _ => HasData(r, i) && Breach(r, i)
  }

  ghost predicate EventsRecover(r: Rule, i: Inputs, o: Observation, minutes: nat) {
    match r
    case CancellationRate(_, resolveBelow, minimum) =>
      var placed := Tally(Count, o.es, Placed, o.present - (minutes - 1) * MINUTE, o.present);
      var cancelled := Tally(Count, o.es, Cancelled, o.present - (minutes - 1) * MINUTE, o.present);
      placed >= minimum && (cancelled as real) < Times(resolveBelow, placed as real)
    case RevenueDrop(_, resolveBelow, minimum) =>
      var current := Tally(Amount, o.es, Paid, o.present - minutes * MINUTE, o.present - MINUTE);
      var previous := Tally(Amount, o.es, Paid, o.present - 2 * minutes * MINUTE, o.present - (minutes + 1) * MINUTE);
      previous >= minimum && current as real > Times(1.0 - resolveBelow, previous as real)
    case _ => HasData(r, i) && Recovery(r, i)
  }

  lemma ObservedMeans(r: Rule, i: Inputs, o: Observation, minutes: nat)
    requires Observed(i, o, minutes)
    ensures HasData(r, i) && Breach(r, i) <==> EventsBreach(r, i, o, minutes)
    ensures HasData(r, i) && Recovery(r, i) <==> EventsRecover(r, i, o, minutes)
  {
    InputsAreTallies(o.table, o.es, o.now, minutes, o.present);
    hide Tally, RightSince, ReadOrders, Times, WindowsAt;
  }

  /** The last `n` evaluations, none from before the last transition, saw events that breach the rule. */
  ghost predicate LastEventsBreach(r: Rule, inputs: seq<Inputs>, os: seq<Observation>, minutes: nat, since: nat, n: int)
    requires |os| == |inputs|
  {
    && |inputs| - n >= since
    && forall k :: 0 <= k < |inputs| && |inputs| - n <= k ==> EventsBreach(r, inputs[k], os[k], minutes)
  }

  ghost predicate LastEventsRecover(r: Rule, inputs: seq<Inputs>, os: seq<Observation>, minutes: nat, since: nat, n: int)
    requires |os| == |inputs|
  {
    && |inputs| - n >= since
    && forall k :: 0 <= k < |inputs| && |inputs| - n <= k ==> EventsRecover(r, inputs[k], os[k], minutes)
  }

  /** Alerts follow the events: at the last of a series of evaluations over right rollups, an alert that
      does not fire fires exactly if the raw events of as many evaluations as required breach its rule,
      and one that fires resolves exactly if as many recover. */
  lemma AlertsFollowEvents(c: Counts, r: Rule, firing: bool, inputs: seq<Inputs>, os: seq<Observation>, es: seq<Evaluation>, minutes: nat)
    requires c.fireAfter >= 1 && c.resolveAfter >= 1 && Evaluations(r, inputs, es) && inputs != []
    requires |os| == |inputs| && forall k :: 0 <= k < |inputs| ==> Observed(inputs[k], os[k], minutes)
    ensures var n := |es| - 1; var h := Replay(c, firing, es[..n]);
            Rules.Step(c, h.tracker, es[n]).1 ==
              if !h.tracker.firing then
                if LastEventsBreach(r, inputs, os, minutes, h.since, c.fireAfter) then Some(Fire) else None
              else
                if LastEventsRecover(r, inputs, os, minutes, h.since, c.resolveAfter) then Some(Resolve) else None
  {
    var n := |es| - 1;
    hide Rules.Step, Replay, Evaluate;
    AlertMeans(c, r, firing, inputs[..n], es[..n], inputs[n], es[n]);
    assert inputs[..n] + [inputs[n]] == inputs;
    forall k | 0 <= k < |inputs|
      ensures HasData(r, inputs[k]) && Breach(r, inputs[k]) <==> EventsBreach(r, inputs[k], os[k], minutes)
      ensures HasData(r, inputs[k]) && Recovery(r, inputs[k]) <==> EventsRecover(r, inputs[k], os[k], minutes)
    {
      ObservedMeans(r, inputs[k], os[k], minutes);
    }
    hide EventsBreach, EventsRecover, HasData, Breach, Recovery, Observed;
  }

  lemma OrdersRead(table: Table, w: Windows)
    ensures ReadOrders(table, w) == OrderInputs(
              Filtered(Count, table, Placed, w.recentStart, w.minute),
              Filtered(Count, table, Cancelled, w.recentStart, w.minute),
              FilteredBelow(Amount, table, Paid, w.currentStart, w.minute),
              FilteredBelow(Amount, table, Paid, w.previousStart, w.currentStart))
  {
    hide Filtered, FilteredBelow;
  }

  lemma WindowsShape(now: int, minutes: nat, present: int)
    requires present % MINUTE == 0 && present <= now < present + MINUTE
    ensures var w := WindowsAt(now, minutes);
            && w.minute == present && Aligned(w.recentStart, w.minute) && Aligned(w.currentStart, w.minute)
            && Aligned(w.previousStart, w.currentStart)
            && w.recentStart == present - (minutes - 1) * MINUTE
            && w.currentStart == present - minutes * MINUTE
            && w.currentStart - MINUTE == present - (minutes + 1) * MINUTE
            && w.previousStart == present - 2 * minutes * MINUTE
            && w.previousStart <= w.currentStart <= w.recentStart
  {
  }
}
