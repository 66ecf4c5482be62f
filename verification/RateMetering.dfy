/** A rate over the recent past from a running total, and the naive sum it stands for. */
module RateMetering {
  /** Time is in milliseconds of a monotonic clock. */
  datatype Sample = Sample(at: int, count: nat)

  function Sum(xs: seq<Sample>): nat
    decreases |xs|
  {
    if xs == [] then 0 else Sum(xs[..|xs| - 1]) + xs[|xs| - 1].count
  }

  /** The naive form: everything ever added at or after `horizon`. */
  function Recent(history: seq<Sample>, horizon: int): seq<Sample>
    decreases |history|
  {
    if history == [] then []
    else
      var before := Recent(history[..|history| - 1], horizon);
      if history[|history| - 1].at < horizon then before else before + [history[|history| - 1]]
  }

  ghost predicate Ordered(xs: seq<Sample>) {
    forall i, j :: 0 <= i < j < |xs| ==> xs[i].at <= xs[j].at
  }

  /** How many samples at the front lie before the horizon. */
  function Stale(xs: seq<Sample>, horizon: int): (n: nat)
    ensures n <= |xs|
  {
    if xs == [] || xs[0].at >= horizon then 0 else 1 + Stale(xs[1..], horizon)
  }

  lemma {:induction false} SumSplit(xs: seq<Sample>, ys: seq<Sample>)
    ensures Sum(xs + ys) == Sum(xs) + Sum(ys)
    decreases |ys|
  {
    if ys == [] {
      assert xs + ys == xs;
    } else {
      assert (xs + ys)[..|xs + ys| - 1] == xs + ys[..|ys| - 1];
      SumSplit(xs, ys[..|ys| - 1]);
    }
  }

  lemma SumMore(xs: seq<Sample>, x: Sample)
    ensures Sum(xs + [x]) == Sum(xs) + x.count
  {
    assert (xs + [x])[..|xs|] == xs;
  }

  lemma RecentMore(history: seq<Sample>, x: Sample, horizon: int)
    ensures Recent(history + [x], horizon) == Recent(history, horizon) + (if x.at < horizon then [] else [x])
  {
    assert (history + [x])[..|history|] == history;
  }

  lemma SumHead(xs: seq<Sample>)
    requires xs != []
    ensures Sum(xs) == xs[0].count + Sum(xs[1..])
  {
    assert xs == [xs[0]] + xs[1..];
    SumSplit([xs[0]], xs[1..]);
    assert Sum([xs[0]]) == Sum([]) + xs[0].count;
  }

  lemma {:induction false} RecentMembers(history: seq<Sample>, horizon: int)
    requires Ordered(history)
    ensures Ordered(Recent(history, horizon))
    ensures forall x :: x in Recent(history, horizon) ==> x in history && x.at >= horizon
    decreases |history|
  {
    if history != [] {
      var n := |history| - 1;
      var before, last := history[..n], history[n];
      RecentMembers(before, horizon);
      var r := Recent(before, horizon);
      forall i | 0 <= i < |r| ensures r[i].at <= last.at {
        assert r[i] in before;
        var j :| 0 <= j < n && before[j] == r[i];
      }
      assert forall x :: x in before ==> x in history;
    }
  }

  /** A later horizon only removes a prefix of what an earlier one kept. */
  lemma {:induction false} LaterHorizon(history: seq<Sample>, horizon: int, later: int)
    requires Ordered(history) && horizon <= later
    ensures Recent(history, later) == Recent(Recent(history, horizon), later)
    decreases |history|
  {
    if history != [] {
      var n := |history| - 1;
      LaterHorizon(history[..n], horizon, later);
      var r := Recent(history[..n], horizon);
      assert (r + [history[n]])[..|r|] == r;
    }
  }

  lemma {:induction false} PruneIsRecent(xs: seq<Sample>, horizon: int)
    requires Ordered(xs)
    ensures xs[Stale(xs, horizon)..] == Recent(xs, horizon)
    decreases |xs|
  {
    if xs != [] {
      var n := |xs| - 1;
      var k := Stale(xs, horizon);
      PruneIsRecent(xs[..n], horizon);
      StalePrefix(xs, horizon);
      if xs[n].at < horizon {
        assert forall i :: 0 <= i < |xs| ==> xs[i].at < horizon;
        AllStale(xs, horizon);
        AllStale(xs[..n], horizon);
      } else {
        assert xs[k..] == xs[..n][k..] + [xs[n]];
      }
    }
  }

  lemma {:induction false} AllStale(xs: seq<Sample>, horizon: int)
    requires forall i :: 0 <= i < |xs| ==> xs[i].at < horizon
    ensures Stale(xs, horizon) == |xs|
  {
    if xs != [] {
      AllStale(xs[1..], horizon);
    }
  }

  /** Unless the last sample is stale too, it does not change how many are. */
  lemma {:induction false} StalePrefix(xs: seq<Sample>, horizon: int)
    requires xs != []
    ensures xs[|xs| - 1].at >= horizon ==> Stale(xs, horizon) == Stale(xs[..|xs| - 1], horizon) <= |xs| - 1
    decreases |xs|
  {
    if |xs| > 1 {
      StalePrefix(xs[1..], horizon);
      assert xs[1..][..|xs| - 2] == xs[..|xs| - 1][1..];
    }
  }

  function Max(a: int, b: int): int {
    if a > b then a else b
  }

  function Min(a: int, b: int): int {
    if a < b then a else b
  }

  class RateMeter {
    const window: int
    const started: int
    var samples: seq<Sample>
    var total: int
    /** Everything ever added, the last time the clock was read, and the last horizon pruned to. */
    ghost var history: seq<Sample>
    ghost var clock: int
    ghost var horizon: int

    ghost predicate Valid()
      reads this
    {
      && window > 0
      && Ordered(history) && (forall x :: x in history ==> started <= x.at <= clock)
      && started <= clock && horizon <= clock - window
      && samples == Recent(history, horizon)
      && total == Sum(samples)
    }

    constructor (window: int, now: int)
      requires window > 0
      ensures Valid() && this.window == window && started == now && history == [] && clock == now
    {
      this.window, started := window, now;
      samples, total, history, clock, horizon := [], 0, [], now, now - window;
    }

    method Add(count: nat, now: int)
      requires Valid() && now >= clock
      modifies this
      ensures Valid() && clock == now && history == old(history) + [Sample(now, count)]
      ensures samples == Recent(history, now - window) && total == Sum(Recent(history, now - window))
    {
      hide Sum, Recent;
      var x := Sample(now, count);
      RecentMore(history, x, horizon);
      SumMore(samples, x);
      samples, total := samples + [x], total + count;
      history, clock := history + [x], now;
      Prune(now);
    }

    /** Events per second of the observed part of the window, from the full history. */
    ghost function NaiveRate(now: int): real
      requires window > 0
      reads this
    {
      1000.0 * Sum(Recent(history, now - window)) as real / Min(window, Max(now - started, 1000)) as real
    }

    /** The meter reads what a naive sum over its whole history would, at every time. */
    method Rate(now: int) returns (rate: real)
      requires Valid() && now >= clock
      modifies this
      ensures Valid() && clock == now && history == old(history)
      ensures rate == NaiveRate(now)
    {
      clock := now;
      Prune(now);
      var observed := Min(window, Max(now - started, 1000));
      rate := 1000.0 * total as real / observed as real;
    }

    method Prune(now: int)
      requires window > 0 && clock == now
      requires Ordered(history) && horizon <= now - window && samples == Recent(history, horizon) && total == Sum(samples)
      modifies this`samples, this`total, this`horizon
      ensures horizon == now - window && samples == Recent(history, horizon) && total == Sum(samples)
    {
      hide Sum, Recent, Ordered;
      ghost var all, before := samples, horizon;
      RecentMembers(history, horizon);
      ghost var k := 0;
      while samples != [] && samples[0].at < now - window
        invariant k <= |all| && samples == all[k..] && total == Sum(samples) && horizon == before
        invariant Stale(all, now - window) == k + Stale(samples, now - window)
      {
        SumHead(samples);
        total := total - samples[0].count;
        samples := samples[1..];
        k := k + 1;
      }
      PruneIsRecent(all, now - window);
      LaterHorizon(history, horizon, now - window);
      horizon := now - window;
    }
  }
}
