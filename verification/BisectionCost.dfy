/** Bisection on an undisturbed connection: it is filtering, and it is cheap. */
module BisectionCost {
  import opened Events
  import opened Tables
  import opened Bisection

  /** Statements spent on one chunk when no connection fails. */
  function Cost(refused: Filter, chunk: seq<Event>): nat
    decreases |chunk|
  {
    if AllAccepted(refused, chunk) || |chunk| <= 1 then 1
    else 1 + Cost(refused, chunk[..|chunk| / 2]) + Cost(refused, chunk[|chunk| / 2..])
  }

  function Pending(refused: Filter, todo: seq<seq<Event>>): nat {
    if todo == [] then 0 else Cost(refused, todo[0]) + Pending(refused, todo[1..])
  }

  function CeilLog2(n: nat): nat {
    if n <= 1 then 0 else 1 + CeilLog2((n + 1) / 2)
  }

  function Pow2(k: nat): nat {
    if k == 0 then 1 else 2 * Pow2(k - 1)
  }

  lemma {:induction false} CeilLog2Meaning(n: nat)
    requires n >= 1
    ensures n <= Pow2(CeilLog2(n))
    ensures n > 1 ==> Pow2(CeilLog2(n) - 1) < n
  {
    if n > 1 {
      CeilLog2Meaning((n + 1) / 2);
    }
  }

  lemma {:induction false} CeilLog2Monotone(a: nat, b: nat)
    requires a <= b
    ensures CeilLog2(a) <= CeilLog2(b)
  {
    if a > 1 {
      CeilLog2Monotone((a + 1) / 2, (b + 1) / 2);
    }
  }

  /** At most `1 + 2 b ceil(log2 n)` statements for `b` refused rows among `n`. */
  lemma {:induction false} CostBound(refused: Filter, chunk: seq<Event>)
    requires chunk != []
    ensures Cost(refused, chunk) <= Bound(|Bad(refused, chunk)|, CeilLog2(|chunk|))
    decreases |chunk|
  {
    if AllAccepted(refused, chunk) || |chunk| <= 1 {
      BoundPositive(|Bad(refused, chunk)|, CeilLog2(|chunk|));
    } else {
      var l, r := chunk[..|chunk| / 2], chunk[|chunk| / 2..];
      CostOfHalves(refused, chunk, l, r);
      assert l != [] && r != [];
      hide Cost, Bad, Bound, CeilLog2, AllAccepted;
      CostBound(refused, l);
      CostBound(refused, r);
      LogOfHalves(|chunk|, |l|, |r|);
      BoundStep(Cost(refused, l), Cost(refused, r), |Bad(refused, l)|, |Bad(refused, r)|,
                CeilLog2(|l|), CeilLog2(|r|), CeilLog2(|chunk|));
    }
  }

  lemma CostOfHalves(refused: Filter, chunk: seq<Event>, l: seq<Event>, r: seq<Event>)
    requires !AllAccepted(refused, chunk) && |chunk| > 1
    requires l == chunk[..|chunk| / 2] && r == chunk[|chunk| / 2..]
    ensures Cost(refused, chunk) == 1 + Cost(refused, l) + Cost(refused, r)
    ensures |Bad(refused, chunk)| == |Bad(refused, l)| + |Bad(refused, r)| >= 1
  {
    assert chunk == l + r;
    SomeBad(refused, chunk, l, r);
  }

  lemma LogOfHalves(n: nat, l: nat, r: nat)
    requires n > 1 && l == n / 2 && r == n - n / 2
    ensures CeilLog2(l) <= CeilLog2(n) - 1 && CeilLog2(r) <= CeilLog2(n) - 1
  {
    CeilLog2Monotone(l, (n + 1) / 2);
    CeilLog2Monotone(r, (n + 1) / 2);
  }

  lemma BoundPositive(b: nat, log2: nat)
    ensures Bound(b, log2) >= 1
  {
  }

  lemma SomeBad(refused: Filter, chunk: seq<Event>, l: seq<Event>, r: seq<Event>)
    requires chunk == l + r && !AllAccepted(refused, chunk)
    ensures |Bad(refused, chunk)| == |Bad(refused, l)| + |Bad(refused, r)| >= 1
  {
    BadConcat(refused, l, r);
    FilterMembers(refused, chunk);
    var e :| e in chunk && refused(e);
    assert e in Bad(refused, chunk);
  }

  function Bound(b: nat, log2: nat): nat {
    1 + 2 * (b * log2)
  }

  lemma BoundStep(cl: nat, cr: nat, bl: nat, br: nat, ll: nat, lr: nat, L: nat)
    requires cl <= Bound(bl, ll) && cr <= Bound(br, lr)
    requires ll <= L - 1 && lr <= L - 1 && bl + br >= 1
    ensures 1 + cl + cr <= Bound(bl + br, L)
  {
    MulMono(bl, ll, L - 1);
    MulMono(br, lr, L - 1);
    Distribute(bl, br, L);
    var p, q, u, v, w := bl * ll, br * lr, bl * (L - 1), br * (L - 1), (bl + br) * L;
    assert p <= u && q <= v && u + v == w - (bl + br);
    assert cl <= 1 + 2 * p && cr <= 1 + 2 * q;
    assert Bound(bl + br, L) == 1 + 2 * w;
  }

  lemma MulMono(x: nat, y: nat, z: nat)
    requires y <= z
    ensures x * y <= x * z
  {
  }

  lemma Distribute(bl: nat, br: nat, L: int)
    ensures bl * (L - 1) + br * (L - 1) == (bl + br) * L - (bl + br)
  {
  }

  /** An undisturbed statement uses up exactly one unit of the cost, and starts nothing again. */
  lemma CleanStep(refused: Filter, m: Machine, link: Link)
    requires m.work.todo != [] && link.kind.Clean? && m.work.todo[0] != []
    ensures var m' := Statement(refused, m, link);
            && Pending(refused, m'.work.todo) == Pending(refused, m.work.todo) - 1
            && m'.work.tally.logSince == m.work.tally.logSince
            && m'.work.tally.deadSince == m.work.tally.deadSince
  {
    var chunk, rest := m.work.todo[0], m.work.todo[1..];
    var t := m.store.(nextSeq := m.store.nextSeq + link.burn);
    if AllAccepted(refused, chunk) {
      CommittedStep(refused, m, link, InsertBatch(t, chunk));
      hide InsertBatch, MaxSeq, AllAccepted, Statement;
    } else {
      IneffectiveStep(refused, m, link, t);
      hide Statement, AllAccepted;
      if |chunk| != 1 {
        var a, b := chunk[..|chunk| / 2], chunk[|chunk| / 2..];
        PendingSplit(refused, a, b, rest);
      }
    }
  }

  lemma PendingSplit(refused: Filter, a: seq<Event>, b: seq<Event>, rest: seq<seq<Event>>)
    ensures Pending(refused, [a, b] + rest) == Cost(refused, a) + Cost(refused, b) + Pending(refused, rest)
  {
    assert ([a, b] + rest)[1..] == [b] + rest;
    assert ([b] + rest)[1..] == rest;
    hide Cost;
  }

  ghost predicate AllClean(links: seq<Link>) {
    forall i :: 0 <= i < |links| ==> links[i].kind.Clean?
  }

  lemma {:induction false} CleanDrive(refused: Filter, base: seq<Event>, m: Machine, links: seq<Link>)
    requires WorkInv(refused, base, m) && Timely(m.store, m.work.batch) && AllClean(links)
    requires |links| <= Pending(refused, m.work.todo)
    ensures var m' := Drive(refused, m, links);
            && Pending(refused, m'.work.todo) == Pending(refused, m.work.todo) - |links|
            && m'.work.tally.logSince == m.work.tally.logSince
            && m'.work.tally.deadSince == m.work.tally.deadSince
            && m.dead <= m'.dead && m.store.log <= m'.store.log
    decreases |links|
  {
    if links != [] {
      assert m.work.todo != [];
      assert m.work.todo[0] != [] by {
        hide Sound, LogCounts, DeadCounts;
      }
      CleanStep(refused, m, links[0]);
      StatementKeeps(refused, base, m, links[0]);
      StatementFrame(refused, m, links[0]);
      hide WorkInv, Statement, Pending;
      CleanDrive(refused, base, Statement(refused, m, links[0]), links[1..]);
    }
  }

  /** Bisection equals filtering: exactly `Cost` statements run, the history grows by the
      acceptable new events, each refused row is dead-lettered exactly once and in order, and the
      batch reports the rows it added and the largest of their sequence numbers. */
  lemma BisectionIsFiltering(refused: Filter, store: Store, dead: seq<Event>, batch: seq<Event>, links: seq<Link>)
    requires Sound(store) && batch != [] && Timely(store, batch) && AllClean(links)
    requires |links| == Cost(refused, batch)
    ensures Cost(refused, batch) <= 1 + 2 * (|Bad(refused, batch)| * CeilLog2(|batch|))
    ensures var m := Drive(refused, Machine(store, Open(store, dead, batch), dead), links);
            && m.work.todo == []
            && Sound(m.store)
            && Contents(m.store.log) == Contents(store.log) + News(Keys(Contents(store.log)), Good(refused, batch))
            && m.dead == dead + Bad(refused, batch)
            && m.work.tally.inserted == |News(Keys(Contents(store.log)), Good(refused, batch))|
            && |store.log| <= |m.store.log|
            && m.work.tally.maxSeq == MaxSeqFrom(m.store.log, |store.log|)
  {
    CostBound(refused, batch);
    FilteringDone(refused, store, dead, batch, links);
    BatchExactlyOnce(refused, store, dead, batch, links);
    var m := Drive(refused, Machine(store, Open(store, dead, batch), dead), links);
    DeadSplit(m, dead);
    var es := Contents(store.log);
    hide Sound, Cost, News, Drive, Bad, Good, Keys, CeilLog2, AttemptDead, MaxSeqFrom;
  }

  lemma DeadSplit(m: Machine, dead: seq<Event>)
    requires dead <= m.dead && m.work.tally.deadSince == |dead|
    ensures m.dead == dead + AttemptDead(m)
  {
  }

  lemma FilteringDone(refused: Filter, store: Store, dead: seq<Event>, batch: seq<Event>, links: seq<Link>)
    requires Sound(store) && batch != [] && Timely(store, batch) && AllClean(links)
    requires |links| == Cost(refused, batch)
    ensures var m := Drive(refused, Machine(store, Open(store, dead, batch), dead), links);
            && m.work.todo == []
            && m.work.tally.logSince == |store.log| <= |m.store.log|
            && m.work.tally.deadSince == |dead| && dead <= m.dead
            && m.work.tally.inserted == |m.store.log| - |store.log|
            && m.work.tally.maxSeq == MaxSeqFrom(m.store.log, |store.log|)
  {
    OpenInv(refused, store, dead, batch);
    var base, m0 := Contents(store.log), Machine(store, Open(store, dead, batch), dead);
    CostPositive(refused, []);
    assert Pending(refused, [batch]) == Cost(refused, batch) + Pending(refused, []) by {
      assert [batch][1..] == [];
    }
    CleanDrive(refused, base, m0, links);
    DriveKeeps(refused, base, m0, links);
    CostPositive(refused, Drive(refused, m0, links).work.todo);
    hide Sound, Cost, Contents, Absorbed, WorkShape, DeadCounts, Drive, MaxSeqFrom;
  }

  lemma CostPositive(refused: Filter, todo: seq<seq<Event>>)
    ensures Pending(refused, todo) == 0 <==> todo == []
  {
  }
}
