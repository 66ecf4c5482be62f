/** Alert rules: what one evaluation says, and the tracker that changes state only after several
    consecutive evaluations agree. */
module Rules {
  import opened Events

  /** Money is in centimes, rates are exact. */
  datatype Inputs = Inputs(
    placed: nat,
    cancelled: nat,
    accepted: nat,
    rejected: nat,
    revenueCurrent: nat,
    revenuePrevious: nat,
    silence: Option<real>)

  datatype Evaluation = Evaluation(value: Option<real>, breached: bool, recovered: bool)

  datatype Rule =
    | CancellationRate(threshold: real, resolveBelow: real, minimum: int)
    | RevenueDrop(threshold: real, resolveBelow: real, minimum: int)
    | DeadLetterRate(threshold: real, resolveBelow: real, minimum: int)
    | IngestionStalled(threshold: real)

  const NO_DATA: Evaluation := Evaluation(None, false, false)

  function Judge(value: real, threshold: real, resolveBelow: real): Evaluation {
    Evaluation(Some(value), value >= threshold, value < resolveBelow)
  }

  /** `None` when the division raises. */
  function Evaluate(r: Rule, i: Inputs): Option<Evaluation> {
    match r
    case CancellationRate(threshold, resolveBelow, minimum) =>
      if i.placed < minimum then Some(NO_DATA)
      else if i.placed == 0 then None
      else Some(Judge(i.cancelled as real / i.placed as real, threshold, resolveBelow))
    case RevenueDrop(threshold, resolveBelow, minimum) =>
      if i.revenuePrevious < minimum then Some(NO_DATA)
      else if i.revenuePrevious == 0 then None
      else Some(Judge(1.0 - i.revenueCurrent as real / i.revenuePrevious as real, threshold, resolveBelow))
    case DeadLetterRate(threshold, resolveBelow, minimum) =>
      if i.accepted + i.rejected < minimum then Some(NO_DATA)
      else if i.accepted + i.rejected == 0 then None
      else Some(Judge(i.rejected as real / (i.accepted + i.rejected) as real, threshold, resolveBelow))
    case IngestionStalled(threshold) =>
      if i.silence.None? then Some(NO_DATA) else Some(Judge(i.silence.value, threshold, threshold))
  }

  function ResolveBelow(r: Rule): real {
    if r.IngestionStalled? then r.threshold else r.resolveBelow
  }

  /** An evaluation never raises, whatever the inputs, exactly when the minimum volume is positive. */
  lemma EvaluateRaisesExactly(r: Rule)
    ensures (forall i: Inputs :: Evaluate(r, i).Some?) <==> r.IngestionStalled? || r.minimum > 0
  {
    if !r.IngestionStalled? && r.minimum <= 0 {
      assert Evaluate(r, Inputs(0, 0, 0, 0, 0, 0, None)).None?;
    }
  }

  // ---- What an evaluation says, by products -----------------------------------------------------

  /** Enough happened for the rule to judge. */
  ghost predicate HasData(r: Rule, i: Inputs) {
    match r
    case CancellationRate(_, _, minimum) => i.placed >= minimum
    case RevenueDrop(_, _, minimum) => i.revenuePrevious >= minimum
    case DeadLetterRate(_, _, minimum) => i.accepted + i.rejected >= minimum
    case IngestionStalled(_) => i.silence.Some?
  }

  function Times(x: real, y: real): real {
    x * y
  }

  /** What is bad enough to fire. */
  ghost predicate Breach(r: Rule, i: Inputs)
    requires HasData(r, i)
  {
    match r
    case CancellationRate(threshold, _, _) => i.cancelled as real >= Times(threshold, i.placed as real)
    case RevenueDrop(threshold, _, _) => i.revenueCurrent as real <= Times(1.0 - threshold, i.revenuePrevious as real)
    case DeadLetterRate(threshold, _, _) => i.rejected as real >= Times(threshold, (i.accepted + i.rejected) as real)
    case IngestionStalled(threshold) => i.silence.value >= threshold
  }

  /** What is good enough to resolve. */
  ghost predicate Recovery(r: Rule, i: Inputs)
    requires HasData(r, i)
  {
    match r
    case CancellationRate(_, resolveBelow, _) => (i.cancelled as real) < Times(resolveBelow, i.placed as real)
    case RevenueDrop(_, resolveBelow, _) => i.revenueCurrent as real > Times(1.0 - resolveBelow, i.revenuePrevious as real)
    case DeadLetterRate(_, resolveBelow, _) => (i.rejected as real) < Times(resolveBelow, (i.accepted + i.rejected) as real)
    case IngestionStalled(threshold) => i.silence.value < threshold
  }

  lemma Quotient(a: real, b: real, t: real)
    requires b > 0.0
    ensures a / b >= t <==> a >= t * b
    ensures 1.0 - a / b >= t <==> a <= (1.0 - t) * b
  {
    var q := a / b;
    assert a == q * b;
    Scaled(q, t, b);
    Scaled(1.0 - t, q, b);
  }

  lemma Scaled(x: real, y: real, b: real)
    requires b > 0.0
    ensures x >= y <==> x * b >= y * b
  {
    if x >= y {
      assert (x - y) * b >= 0.0;
    } else {
      assert (y - x) * b > 0.0;
    }
  }

  lemma JudgedRatio(a: real, b: real, threshold: real, resolveBelow: real)
    requires b > 0.0
    ensures var e := Judge(a / b, threshold, resolveBelow);
            e.value.Some? && (e.breached <==> a >= Times(threshold, b)) && (e.recovered <==> a < Times(resolveBelow, b))
    ensures var e := Judge(1.0 - a / b, threshold, resolveBelow);
            e.value.Some? && (e.breached <==> a <= Times(1.0 - threshold, b)) && (e.recovered <==> a > Times(1.0 - resolveBelow, b))
  {
    Quotient(a, b, threshold);
    Quotient(a, b, resolveBelow);
  }

  /** Unless it divides by zero, an evaluation has a value exactly with data, and is breached or
      recovered exactly by the inequality of its rule. */
  lemma EvaluationMeans(r: Rule, i: Inputs)
    requires Evaluate(r, i).Some?
    ensures var e := Evaluate(r, i).value;
            && (e.value.Some? <==> HasData(r, i))
            && (e.breached <==> HasData(r, i) && Breach(r, i))
            && (e.recovered <==> HasData(r, i) && Recovery(r, i))
  {
    match r
    case CancellationRate(threshold, resolveBelow, minimum) =>
      if i.placed > 0 {
        JudgedRatio(i.cancelled as real, i.placed as real, threshold, resolveBelow);
      }
      hide Judge, Times;
    case RevenueDrop(threshold, resolveBelow, minimum) =>
      if i.revenuePrevious > 0 {
        JudgedRatio(i.revenueCurrent as real, i.revenuePrevious as real, threshold, resolveBelow);
      }
      hide Judge, Times;
    case DeadLetterRate(threshold, resolveBelow, minimum) =>
      if i.accepted + i.rejected > 0 {
        JudgedRatio(i.rejected as real, (i.accepted + i.rejected) as real, threshold, resolveBelow);
      }
      hide Judge, Times;
    case IngestionStalled(threshold) =>
  }

  datatype Transition = Fire | Resolve

  datatype Counts = Counts(fireAfter: int, resolveAfter: int)

  datatype Tracker = Tracker(firing: bool, streak: int)

  /** The evaluation has data and meets the condition that would leave the current state. */
  predicate Met(e: Evaluation, firing: bool) {
    e.value.Some? && if firing then e.recovered else e.breached
  }

  function Needed(c: Counts, firing: bool): int {
    if firing then c.resolveAfter else c.fireAfter
  }

  function Step(c: Counts, t: Tracker, e: Evaluation): (Tracker, Option<Transition>) {
    if e.value.None? then (t.(streak := 0), None)
    else
      var streak := if (if t.firing then e.recovered else e.breached) then t.streak + 1 else 0;
      if streak < Needed(c, t.firing) then (t.(streak := streak), None)
      else (Tracker(!t.firing, 0), Some(if t.firing then Resolve else Fire))
  }

  /** A tracker after a history of evaluations, and where in it the last transition was. */
  datatype History = History(tracker: Tracker, since: nat, transitions: seq<Transition>)

  function Replay(c: Counts, firing: bool, es: seq<Evaluation>): History
    decreases |es|
  {
    if es == [] then History(Tracker(firing, 0), 0, [])
    else
      var before := Replay(c, firing, es[..|es| - 1]);
      var (tracker, transition) := Step(c, before.tracker, es[|es| - 1]);
      if transition.None? then before.(tracker := tracker)
      else History(tracker, |es|, before.transitions + [transition.value])
  }

  // ---- What a tracker means ------------------------------------------------------------------

  /** The last `n` evaluations, all of them after the previous transition, meet the condition. */
  ghost predicate LastMet(es: seq<Evaluation>, since: nat, n: int, firing: bool) {
    && |es| - n >= since
    && forall i :: 0 <= i < |es| && |es| - n <= i ==> Met(es[i], firing)
  }

  /** On the next evaluation `e` the tracker changes state iff enough evaluations in a row agree. */
  ghost predicate StepMeans(c: Counts, h: History, es: seq<Evaluation>, e: Evaluation) {
    Step(c, h.tracker, e).1 ==
      if LastMet(es + [e], h.since, Needed(c, h.tracker.firing), h.tracker.firing)
      then Some(if h.tracker.firing then Resolve else Fire)
      else None
  }

  ghost predicate TrackerMeans(c: Counts) {
    forall firing: bool, es: seq<Evaluation>, e: Evaluation :: StepMeans(c, Replay(c, firing, es), es, e)
  }

  /** The streak is the longest run of agreeing evaluations since the last transition. */
  ghost predicate StreakInv(c: Counts, h: History, es: seq<Evaluation>) {
    var t := h.tracker;
    && h.since <= |es|
    && 0 <= t.streak <= |es| - h.since
    && t.streak < Needed(c, t.firing)
    && (forall i :: |es| - t.streak <= i < |es| ==> Met(es[i], t.firing))
    && (t.streak < |es| - h.since ==> !Met(es[|es| - t.streak - 1], t.firing))
  }

  lemma {:induction false} ReplayKeepsStreak(c: Counts, firing: bool, es: seq<Evaluation>)
    requires c.fireAfter >= 1 && c.resolveAfter >= 1
    ensures StreakInv(c, Replay(c, firing, es), es)
    decreases |es|
  {
    if es != [] {
      var before := es[..|es| - 1];
      ReplayKeepsStreak(c, firing, before);
      StreakStep(c, Replay(c, firing, before), before, es[|es| - 1]);
      assert es == before + [es[|es| - 1]];
    }
  }

  lemma StreakStep(c: Counts, h: History, es: seq<Evaluation>, e: Evaluation)
    requires c.fireAfter >= 1 && c.resolveAfter >= 1 && StreakInv(c, h, es)
    ensures var (t, transition) := Step(c, h.tracker, e);
            StreakInv(c, if transition.None? then h.(tracker := t) else History(t, |es| + 1, h.transitions + [transition.value]), es + [e])
    ensures StepMeans(c, h, es, e)
  {
    var t, needed := h.tracker, Needed(c, h.tracker.firing);
    var es' := es + [e];
    var k := t.streak + 1;
    assert forall i :: 0 <= i < |es| ==> es'[i] == es[i];
    if Met(e, t.firing) {
      if k < needed {
        if |es'| - needed >= h.since {
          assert !Met(es'[|es| - t.streak - 1], t.firing);
        }
      }
    } else {
      assert !Met(es'[|es|], t.firing);
    }
  }

  /** The tracker means what its documentation says, for every history, if and only if both counts
      are positive. */
  lemma TrackerMeansExactly(c: Counts)
    ensures TrackerMeans(c) <==> c.fireAfter >= 1 && c.resolveAfter >= 1
  {
    if c.fireAfter >= 1 && c.resolveAfter >= 1 {
      forall firing: bool, es: seq<Evaluation>, e: Evaluation ensures StepMeans(c, Replay(c, firing, es), es, e) {
        ReplayKeepsStreak(c, firing, es);
        StreakStep(c, Replay(c, firing, es), es, e);
      }
    } else {
      // Without data nothing changes, although the last zero evaluations trivially agree.
      var firing := c.resolveAfter < 1;
      assert [] + [NO_DATA] == [NO_DATA];
      assert LastMet([NO_DATA], 0, Needed(c, firing), firing);
      assert !StepMeans(c, Replay(c, firing, []), [], NO_DATA);
    }
  }

  // ---- The tracker, in terms of what the rule reads ---------------------------------------------

  /** The evaluations of a rule over a history of inputs. */
  ghost predicate Evaluations(r: Rule, inputs: seq<Inputs>, es: seq<Evaluation>) {
    && |es| == |inputs|
    && forall k :: 0 <= k < |inputs| ==> Evaluate(r, inputs[k]) == Some(es[k])
  }

  /** The last `n` inputs, all after the transition at `since`, breach the rule. */
  ghost predicate LastBreach(r: Rule, inputs: seq<Inputs>, since: nat, n: int) {
    && |inputs| - n >= since
    && forall k :: 0 <= k < |inputs| && |inputs| - n <= k ==> HasData(r, inputs[k]) && Breach(r, inputs[k])
  }

  ghost predicate LastRecover(r: Rule, inputs: seq<Inputs>, since: nat, n: int) {
    && |inputs| - n >= since
    && forall k :: 0 <= k < |inputs| && |inputs| - n <= k ==> HasData(r, inputs[k]) && Recovery(r, inputs[k])
  }

  lemma MetMeans(r: Rule, inputs: seq<Inputs>, es: seq<Evaluation>, since: nat, n: int)
    requires Evaluations(r, inputs, es)
    ensures LastMet(es, since, n, false) <==> LastBreach(r, inputs, since, n)
    ensures LastMet(es, since, n, true) <==> LastRecover(r, inputs, since, n)
  {
    forall k | 0 <= k < |inputs|
      ensures Met(es[k], false) <==> HasData(r, inputs[k]) && Breach(r, inputs[k])
      ensures Met(es[k], true) <==> HasData(r, inputs[k]) && Recovery(r, inputs[k])
    {
      EvaluationMeans(r, inputs[k]);
    }
    hide HasData, Breach, Recovery, Evaluate, Met;
  }

  /** On every input an alert that does not fire fires exactly if that input and the ones before it, as
      many as required and none from before the last transition, breach the rule; one that fires
      resolves exactly if as many recover. */
  lemma AlertMeans(c: Counts, r: Rule, firing: bool, inputs: seq<Inputs>, es: seq<Evaluation>, i: Inputs, e: Evaluation)
    requires c.fireAfter >= 1 && c.resolveAfter >= 1
    requires Evaluations(r, inputs, es) && Evaluate(r, i) == Some(e)
    ensures var h := Replay(c, firing, es);
            Step(c, h.tracker, e).1 ==
              if !h.tracker.firing then if LastBreach(r, inputs + [i], h.since, c.fireAfter) then Some(Fire) else None
              else if LastRecover(r, inputs + [i], h.since, c.resolveAfter) then Some(Resolve) else None
  {
    var h := Replay(c, firing, es);
    ReplayKeepsStreak(c, firing, es);
    StreakStep(c, h, es, e);
    hide Replay, Evaluate, Step, LastBreach, LastRecover, LastMet;
    assert Evaluations(r, inputs + [i], es + [e]);
    MetMeans(r, inputs + [i], es + [e], h.since, c.fireAfter);
    MetMeans(r, inputs + [i], es + [e], h.since, c.resolveAfter);
  }

  // ---- Transitions alternate and are rare ------------------------------------------------------

  ghost predicate Alternates(ts: seq<Transition>, firing: bool) {
    forall i :: 0 <= i < |ts| ==> ts[i] == if firing == (i % 2 == 0) then Resolve else Fire
  }

  /** How many evaluations the first `k` transitions use up, at least. */
  function Used(c: Counts, firing: bool, k: nat): int {
    if k == 0 then 0 else Used(c, firing, k - 1) + Needed(c, firing == (k % 2 == 1))
  }

  lemma {:induction false} UsedPairs(c: Counts, firing: bool, k: nat)
    requires c.fireAfter >= 1 && c.resolveAfter >= 1
    ensures 2 * Used(c, firing, k) >= (k - 1) * (c.fireAfter + c.resolveAfter)
    decreases k
  {
    if k >= 2 {
      UsedPairs(c, firing, k - 2);
      assert Used(c, firing, k) == Used(c, firing, k - 2) + c.fireAfter + c.resolveAfter;
      assert (k - 1) * (c.fireAfter + c.resolveAfter)
          == (k - 3) * (c.fireAfter + c.resolveAfter) + 2 * (c.fireAfter + c.resolveAfter);
    } else if k == 0 {
      assert -1 * (c.fireAfter + c.resolveAfter) <= 0;
    }
  }

  lemma {:induction false} ReplayTransitions(c: Counts, firing: bool, es: seq<Evaluation>)
    requires c.fireAfter >= 1 && c.resolveAfter >= 1
    ensures var h := Replay(c, firing, es);
            && Alternates(h.transitions, firing)
            && h.tracker.firing == (firing == (|h.transitions| % 2 == 0))
            && h.tracker.streak >= 0
            && Used(c, firing, |h.transitions|) + h.tracker.streak <= |es|
    decreases |es|
  {
    if es != [] {
      ReplayTransitions(c, firing, es[..|es| - 1]);
    }
  }

  /** Transitions alternate, and `n` evaluations cause at most `2n / (fireAfter + resolveAfter) + 1`. */
  lemma TransitionsAreRare(c: Counts, firing: bool, es: seq<Evaluation>)
    requires c.fireAfter >= 1 && c.resolveAfter >= 1
    ensures var ts := Replay(c, firing, es).transitions;
            && Alternates(ts, firing)
            && |ts| <= 2 * |es| / (c.fireAfter + c.resolveAfter) + 1
  {
    var k, w := |Replay(c, firing, es).transitions|, c.fireAfter + c.resolveAfter;
    ReplayTransitions(c, firing, es);
    UsedPairs(c, firing, k);
    hide Replay, Used;
    assert (k - 1) * w <= 2 * |es|;
    AtMost(k - 1, w, 2 * |es|);
  }

  lemma AtMost(a: int, w: int, b: int)
    requires w > 0 && a * w <= b
    ensures a <= b / w
  {
    var q := b / w;
    assert b < w * q + w;
    assert (q + 1 - a) * w == q * w + w - a * w;
    PositiveFactor(q + 1 - a, w);
  }

  lemma PositiveFactor(d: int, w: int)
    requires w > 0 && d * w > 0
    ensures d > 0
  {
  }

  /** A value between the two thresholds only restarts the count. */
  lemma BandChangesNothing(c: Counts, r: Rule, i: Inputs, t: Tracker)
    requires c.fireAfter >= 1 && c.resolveAfter >= 1 && InBand(r, i)
    ensures Step(c, t, Evaluate(r, i).value) == (t.(streak := 0), None)
  {
  }

  ghost predicate InBand(r: Rule, i: Inputs) {
    && Evaluate(r, i).Some? && Evaluate(r, i).value.value.Some?
    && ResolveBelow(r) <= Evaluate(r, i).value.value.value < r.threshold
  }

  /** Hysteresis: after any history, an alert stays as it is for as long as its value stays between the
      two thresholds. */
  lemma {:induction false} BandHoldsState(c: Counts, r: Rule, firing: bool, before: seq<Evaluation>, band: seq<Inputs>, es: seq<Evaluation>)
    requires c.fireAfter >= 1 && c.resolveAfter >= 1 && |es| == |band|
    requires forall k :: 0 <= k < |band| ==> InBand(r, band[k]) && es[k] == Evaluate(r, band[k]).value
    ensures var h, h' := Replay(c, firing, before), Replay(c, firing, before + es);
            && h'.transitions == h.transitions && h'.tracker.firing == h.tracker.firing
            && (band != [] ==> h'.tracker.streak == 0)
    decreases |band|
  {
    if band == [] {
      assert before + es == before;
    } else {
      var n := |band| - 1;
      BandHoldsState(c, r, firing, before, band[..n], es[..n]);
      assert (before + es)[..|before + es| - 1] == before + es[..n];
      BandChangesNothing(c, r, band[n], Replay(c, firing, before + es[..n]).tracker);
      hide InBand, Evaluate;
    }
  }

  class RuleTracker {
    const fireAfter: int
    const resolveAfter: int
    var firing: bool
    var streak: int

    ghost function State(): Tracker
      reads this
    {
      Tracker(firing, streak)
    }

    constructor (fireAfter: int, resolveAfter: int)
      ensures this.fireAfter == fireAfter && this.resolveAfter == resolveAfter
      ensures State() == Tracker(false, 0)
    {
      this.fireAfter, this.resolveAfter := fireAfter, resolveAfter;
      firing, streak := false, 0;
    }

    method Advance(e: Evaluation) returns (transition: Option<Transition>)
      modifies this
      ensures (State(), transition) == Step(Counts(fireAfter, resolveAfter), old(State()), e)
    {
      if e.value.None? {
        streak := 0;
        return None;
      }
      var condition := if firing then e.recovered else e.breached;
      streak := if condition then streak + 1 else 0;
      var needed := if firing then resolveAfter else fireAfter;
      if streak < needed {
        return None;
      }
      streak := 0;
      firing := !firing;
      return Some(if firing then Fire else Resolve);
    }
  }
}
