/** The newest-first feed: duplicates are removed and the result is cut to a limit at every merge. */
module FeedMerging {
  import opened Events

  function Reversed(xs: seq<Event>): (r: seq<Event>)
    decreases |xs|
  {
    if xs == [] then [] else [xs[|xs| - 1]] + Reversed(xs[..|xs| - 1])
  }

  function Ids(xs: seq<Event>): set<nat> {
    set e | e in xs :: e.id
  }

  /** First occurrences, in order. */
  function Dedup(xs: seq<Event>): seq<Event>
    decreases |xs|
  {
    if xs == [] then []
    else
      var before := Dedup(xs[..|xs| - 1]);
      if xs[|xs| - 1].id in Ids(xs[..|xs| - 1]) then before else before + [xs[|xs| - 1]]
  }

  /** The loop tests for equality after it has added an item: a limit below one never stops it. */
  function Cut(xs: seq<Event>, limit: int): seq<Event> {
    if 1 <= limit < |xs| then xs[..limit] else xs
  }

  function Merged(current: seq<Event>, incoming: seq<Event>, limit: int): seq<Event> {
    Cut(Dedup(Reversed(incoming) + current), limit)
  }

  ghost predicate DistinctIds(xs: seq<Event>) {
    forall i, j :: 0 <= i < j < |xs| ==> xs[i].id != xs[j].id
  }

  /** What is left of `xs` without the given ids. */
  function Keep(xs: seq<Event>, ids: set<nat>): seq<Event>
    decreases |xs|
  {
    if xs == [] then []
    else
      var before := Keep(xs[..|xs| - 1], ids);
      if xs[|xs| - 1].id in ids then before else before + [xs[|xs| - 1]]
  }

  /** `mergeFeed`. */
  method MergeFeed(current: seq<Event>, incoming: seq<Event>, limit: int) returns (merged: seq<Event>)
    ensures merged == Merged(current, incoming, limit)
  {
    hide Dedup, Ids, Reversed;
    var all := Reversed(incoming) + current;
    var seen: set<nat> := {};
    merged := [];
    NoItems();
    assert all[..0] == [];
    var i := 0;
    while i < |all|
      invariant 0 <= i <= |all|
      invariant merged == Dedup(all[..i]) && seen == Ids(all[..i])
      invariant |merged| < limit || limit < 1
    {
      var event := all[i];
      DedupStep(all[..i], event);
      assert all[..i + 1] == all[..i] + [event];
      if event.id !in seen {
        merged := merged + [event];
        if |merged| == limit {
          PrefixOfDedup(all[..i + 1], all);
          return;
        }
      }
      seen := seen + {event.id};
      i := i + 1;
    }
    assert all[..i] == all;
  }

  lemma NoItems()
    ensures Dedup([]) == [] && Ids([]) == {}
  {
  }

  lemma DedupStep(before: seq<Event>, last: Event)
    ensures Ids(before + [last]) == Ids(before) + {last.id}
    ensures Dedup(before + [last]) == Dedup(before) + (if last.id in Ids(before) then [] else [last])
  {
    assert (before + [last])[..|before|] == before;
    assert forall e :: e in before + [last] <==> e in before || e == last;
  }

  // ---- Dedup and Keep ------------------------------------------------------------------------

  lemma {:induction false} PrefixOfDedup(p: seq<Event>, xs: seq<Event>)
    requires p <= xs
    ensures Dedup(p) <= Dedup(xs)
    decreases |xs|
  {
    if |p| < |xs| {
      assert p <= xs[..|xs| - 1];
      PrefixOfDedup(p, xs[..|xs| - 1]);
    } else {
      assert p == xs;
    }
  }

  lemma {:induction false} PrefixOfKeep(p: seq<Event>, xs: seq<Event>, ids: set<nat>)
    requires p <= xs
    ensures Keep(p, ids) <= Keep(xs, ids)
    decreases |xs|
  {
    if |p| < |xs| {
      assert p <= xs[..|xs| - 1];
      PrefixOfKeep(p, xs[..|xs| - 1], ids);
    } else {
      assert p == xs;
    }
  }

  lemma IdsMore(before: seq<Event>, last: Event)
    ensures Ids(before + [last]) == Ids(before) + {last.id}
  {
    assert forall e :: e in before + [last] <==> e in before || e == last;
  }

  lemma OneMoreDistinct(d: seq<Event>, last: Event)
    requires DistinctIds(d) && last.id !in Ids(d)
    ensures DistinctIds(d + [last])
  {
    assert forall i :: 0 <= i < |d| ==> d[i].id in Ids(d);
  }

  lemma {:induction false} DedupMembers(xs: seq<Event>)
    ensures forall e :: e in Dedup(xs) ==> e in xs
    decreases |xs|
  {
    if xs != [] {
      var before, last := xs[..|xs| - 1], xs[|xs| - 1];
      DedupMembers(before);
      assert xs == before + [last];
    }
  }

  lemma {:induction false} DedupIds(xs: seq<Event>)
    ensures Ids(Dedup(xs)) == Ids(xs) && DistinctIds(Dedup(xs)) && |Dedup(xs)| == |Ids(xs)|
    decreases |xs|
  {
    if xs != [] {
      var before, last := xs[..|xs| - 1], xs[|xs| - 1];
      assert xs == before + [last];
      hide *;
      DedupIds(before);
      DedupStep(before, last);
      IdsMore(Dedup(before), last);
      if last.id !in Ids(before) {
        OneMoreDistinct(Dedup(before), last);
      } else {
        assert Ids(before) + {last.id} == Ids(before);
      }
    }
  }

  lemma {:induction false} DedupOfDistinct(xs: seq<Event>)
    requires DistinctIds(xs)
    ensures Dedup(xs) == xs
    decreases |xs|
  {
    if xs != [] {
      var n := |xs| - 1;
      DedupOfDistinct(xs[..n]);
      assert xs[n].id !in Ids(xs[..n]);
      assert xs == xs[..n] + [xs[n]];
    }
  }

  lemma IdsConcat(a: seq<Event>, b: seq<Event>)
    ensures Ids(a + b) == Ids(a) + Ids(b)
  {
    assert forall e :: e in a + b <==> e in a || e in b;
  }

  /** Later items count only if neither batch has their id yet. */
  lemma {:induction false} DedupConcat(a: seq<Event>, b: seq<Event>)
    ensures Dedup(a + b) == Dedup(a) + Keep(Dedup(b), Ids(a))
    decreases |b|
  {
    if b == [] {
      assert a + b == a;
    } else {
      var n := |b| - 1;
      var before, last := b[..n], b[n];
      assert (a + b)[..|a + b| - 1] == a + before && (a + b)[|a + b| - 1] == last;
      DedupConcat(a, before);
      IdsConcat(a, before);
      hide Ids;
      if last.id !in Ids(before) {
        assert (Dedup(before) + [last])[..|Dedup(before)|] == Dedup(before);
      }
    }
  }

  /** Every item left out has an id of its own. */
  lemma {:induction false} KeepLosesFew(xs: seq<Event>, ids: set<nat>)
    requires DistinctIds(xs)
    ensures |xs| - |Keep(xs, ids)| <= |ids|
    decreases |xs|
  {
    if xs != [] {
      var n := |xs| - 1;
      var before, last := xs[..n], xs[n];
      if last.id in ids {
        KeepLosesFew(before, ids - {last.id});
        KeepIgnores(before, ids, last.id);
      } else {
        KeepLosesFew(before, ids);
      }
    }
  }

  lemma {:induction false} KeepIgnores(xs: seq<Event>, ids: set<nat>, id: nat)
    requires forall i :: 0 <= i < |xs| ==> xs[i].id != id
    ensures Keep(xs, ids) == Keep(xs, ids - {id})
    decreases |xs|
  {
    if xs != [] {
      KeepIgnores(xs[..|xs| - 1], ids, id);
    }
  }

  // ---- Merging is compositional ------------------------------------------------------------------

  /** Cutting what lies behind `xs` beforehand does not change the cut result. */
  lemma CutBehind(xs: seq<Event>, ys: seq<Event>, limit: int)
    requires DistinctIds(ys)
    ensures Cut(Dedup(xs) + Keep(Cut(ys, limit), Ids(xs)), limit) == Cut(Dedup(xs) + Keep(ys, Ids(xs)), limit)
  {
    if 1 <= limit < |ys| {
      var front := ys[..limit];
      var short, long := Keep(front, Ids(xs)), Keep(ys, Ids(xs));
      PrefixOfKeep(front, ys, Ids(xs));
      KeepLosesFew(front, Ids(xs));
      DedupIds(xs);
      assert |Dedup(xs)| + |short| >= limit;
      assert (Dedup(xs) + short)[..limit] == (Dedup(xs) + long)[..limit];
    }
  }

  lemma {:induction false} ReversedConcat(a: seq<Event>, b: seq<Event>)
    ensures Reversed(a + b) == Reversed(b) + Reversed(a)
    decreases |b|
  {
    if b == [] {
      assert a + b == a;
    } else {
      assert (a + b)[..|a + b| - 1] == a + b[..|b| - 1] && (a + b)[|a + b| - 1] == b[|b| - 1];
      ReversedConcat(a, b[..|b| - 1]);
    }
  }

  /** Merging `a` and then `b` equals merging `a` followed by `b` at once, for every limit, although
      each merge cuts its result. */
  lemma MergeIsCompositional(current: seq<Event>, a: seq<Event>, b: seq<Event>, limit: int)
    ensures Merged(Merged(current, a, limit), b, limit) == Merged(current, a + b, limit)
  {
    var xs, ys := Reversed(b), Reversed(a) + current;
    ReversedConcat(a, b);
    assert Reversed(a + b) + current == xs + ys;
    DedupConcat(xs, ys);
    DedupIds(ys);
    var once := Cut(Dedup(ys), limit);
    assert DistinctIds(once);
    DedupConcat(xs, once);
    DedupOfDistinct(once);
    hide Dedup, Keep, Reversed, Ids;
    CutBehind(xs, Dedup(ys), limit);
  }

  /** No id twice, at most `limit` items, all of them given, and every id present unless cut. */
  lemma MergeIsClean(current: seq<Event>, incoming: seq<Event>, limit: int)
    ensures var m := Merged(current, incoming, limit);
            && DistinctIds(m)
            && (limit >= 1 ==> |m| <= limit)
            && m <= Dedup(Reversed(incoming) + current)
            && (forall e :: e in m ==> e in Reversed(incoming) + current)
            && (limit < 1 || |m| < limit ==> Ids(m) == Ids(Reversed(incoming) + current))
  {
    DedupIds(Reversed(incoming) + current);
    DedupMembers(Reversed(incoming) + current);
    hide Dedup, Reversed;
  }
}
