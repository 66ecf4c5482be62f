/** Writing one batch: a statement per chunk, halves on data errors, the whole batch again on
    connection errors. The pending calls of the recursive code are kept as the list `todo`, so
    that one step is one statement and other tasks can run between two of them. */
module Bisection {
  import opened Events
  import opened Rollup
  import opened Tables

  /** What happens to the connection around one statement: nothing, the request never reaches
      the database, or the statement commits (or is refused) but the reply is lost. */
  datatype LinkKind = Clean | LostRequest | LostReply

  /** `burn`: sequence values skipped before the statement (identity columns leave gaps). */
  datatype Link = Link(kind: LinkKind, burn: nat)

  datatype Reply = Done(inserted: nat, maxSeq: Option<nat>) | Refused | Broken

  /** `inserted` and `maxSeq` of the current attempt; the other fields are history: the lengths
      of the event log and of the dead-letter list when the batch and the attempt began. */
  datatype Tally = Tally(
    inserted: nat,
    maxSeq: Option<nat>,
    logOpened: nat,
    logSince: nat,
    deadOpened: nat,
    deadSince: nat)

  /** Progress on the batch in flight: `behind` is what the current attempt has dealt with. */
  datatype Work = Work(batch: seq<Event>, behind: seq<Event>, todo: seq<seq<Event>>, tally: Tally)

  datatype Machine = Machine(store: Store, work: Work, dead: seq<Event>)

  type Filter = Event -> bool

  function Larger(a: Option<nat>, b: Option<nat>): Option<nat> {
    if a.None? then b else if b.None? || b.value <= a.value then a else b
  }

  /** SQL `max(seq)`: no row gives no value. */
  function MaxSeq(rows: seq<Row>): Option<nat> {
    if rows == [] then None else Larger(Some(rows[0].seqNo), MaxSeq(rows[1..]))
  }

  function MaxSeqFrom(log: seq<Row>, since: nat): Option<nat>
    requires since <= |log|
  {
    MaxSeq(log[since..])
  }

  predicate AllAccepted(refused: Filter, chunk: seq<Event>) {
    forall e :: e in chunk ==> !refused(e)
  }

  function Good(refused: Filter, es: seq<Event>): seq<Event> {
    if es == [] then []
    else if refused(es[0]) then Good(refused, es[1..])
    else [es[0]] + Good(refused, es[1..])
  }

  function Bad(refused: Filter, es: seq<Event>): seq<Event> {
    if es == [] then []
    else if refused(es[0]) then [es[0]] + Bad(refused, es[1..])
    else Bad(refused, es[1..])
  }

  /** One statement against the database, as its caller sees it. */
  function Execute(refused: Filter, store: Store, chunk: seq<Event>, link: Link): (Store, Reply) {
    var t := store.(nextSeq := store.nextSeq + link.burn);
    if link.kind.LostRequest? then (t, Broken)
    else if !AllAccepted(refused, chunk) then (t, if link.kind.LostReply? then Broken else Refused)
    else
      var t' := InsertBatch(t, chunk);
      (t', if link.kind.LostReply? then Broken
           else Done(|t'.log| - |t.log|, MaxSeq(t'.log[|t.log|..])))
  }

  function Open(store: Store, dead: seq<Event>, batch: seq<Event>): Work {
    Work(batch, [], [batch], Tally(0, None, |store.log|, |store.log|, |dead|, |dead|))
  }

  /** The retry loop starts the whole batch again. */
  function Restart(w: Work, store: Store, dead: seq<Event>): Work {
    Work(w.batch, [], [w.batch],
         w.tally.(inserted := 0, maxSeq := None, logSince := |store.log|, deadSince := |dead|))
  }

  function Gain(y: Tally, n: nat, s: Option<nat>): Tally {
    y.(inserted := y.inserted + n, maxSeq := Larger(y.maxSeq, s))
  }

  function Advance(w: Work, n: nat, s: Option<nat>): Work
    requires w.todo != []
  {
    Work(w.batch, w.behind + w.todo[0], w.todo[1..], Gain(w.tally, n, s))
  }

  function Split(w: Work): Work
    requires w.todo != []
  {
    var chunk := w.todo[0];
    var middle := |chunk| / 2;
    Work(w.batch, w.behind, [chunk[..middle], chunk[middle..]] + w.todo[1..], w.tally)
  }

  function Statement(refused: Filter, m: Machine, link: Link): Machine
    requires m.work.todo != []
  {
    var chunk := m.work.todo[0];
    var (t, reply) := Execute(refused, m.store, chunk, link);
    match reply
    case Done(n, s) => Machine(t, Advance(m.work, n, s), m.dead)
    case Broken => Machine(t, Restart(m.work, t, m.dead), m.dead)
    case Refused =>
      if |chunk| == 1 then Machine(t, Advance(m.work, 0, None), m.dead + chunk)
      else Machine(t, Split(m.work), m.dead)
  }

  /** Dead letters of the current attempt. */
  function AttemptDead(m: Machine): seq<Event> {
    if m.work.tally.deadSince <= |m.dead| then m.dead[m.work.tally.deadSince..] else []
  }

  function Flatten(todo: seq<seq<Event>>): seq<Event> {
    if todo == [] then [] else todo[0] + Flatten(todo[1..])
  }

  // ---- Filters -----------------------------------------------------------------------------

  lemma {:induction false} GoodConcat(refused: Filter, a: seq<Event>, b: seq<Event>)
    ensures Good(refused, a + b) == Good(refused, a) + Good(refused, b)
  {
    if a == [] {
      assert a + b == b;
    } else {
      assert (a + b)[0] == a[0] && (a + b)[1..] == a[1..] + b;
      GoodConcat(refused, a[1..], b);
    }
  }

  lemma {:induction false} BadConcat(refused: Filter, a: seq<Event>, b: seq<Event>)
    ensures Bad(refused, a + b) == Bad(refused, a) + Bad(refused, b)
  {
    if a == [] {
      assert a + b == b;
    } else {
      assert (a + b)[0] == a[0] && (a + b)[1..] == a[1..] + b;
      BadConcat(refused, a[1..], b);
    }
  }

  lemma {:induction false} FilterMembers(refused: Filter, es: seq<Event>)
    ensures forall e :: e in Good(refused, es) <==> e in es && !refused(e)
    ensures forall e :: e in Bad(refused, es) <==> e in es && refused(e)
  {
    if es != [] {
      FilterMembers(refused, es[1..]);
      assert forall e :: e in es <==> e == es[0] || e in es[1..];
    }
  }

  lemma {:induction false} FilterAccepted(refused: Filter, es: seq<Event>)
    requires AllAccepted(refused, es)
    ensures Good(refused, es) == es && Bad(refused, es) == []
  {
    if es != [] {
      assert es[0] in es && forall e :: e in es[1..] ==> e in es;
      FilterAccepted(refused, es[1..]);
    }
  }

  lemma {:induction false} MaxSeqConcat(a: seq<Row>, b: seq<Row>)
    ensures MaxSeq(a + b) == Larger(MaxSeq(a), MaxSeq(b))
  {
    if a == [] {
      assert a + b == b;
    } else {
      assert (a + b)[0] == a[0] && (a + b)[1..] == a[1..] + b;
      MaxSeqConcat(a[1..], b);
    }
  }

  lemma MaxSeqFromConcat(log: seq<Row>, added: seq<Row>, since: nat)
    requires since <= |log|
    ensures MaxSeqFrom(log + added, since) == Larger(MaxSeqFrom(log, since), MaxSeq(added))
  {
    assert (log + added)[since..] == log[since..] + added;
    MaxSeqConcat(log[since..], added);
  }

  // ---- Invariant of the work in progress ---------------------------------------------------

  /** The history holds `base` and then the acceptable events of the first `k` events of the
      batch whose keys were not there, however often statements were repeated. */
  ghost predicate Absorbed(refused: Filter, base: seq<Event>, log: seq<Row>, batch: seq<Event>, k: nat) {
    && k <= |batch|
    && Contents(log) == base + News(Keys(base), Good(refused, batch[..k]))
  }

  ghost predicate WorkShape(w: Work) {
    && w.batch != []
    && w.batch == w.behind + Flatten(w.todo)
    && forall i :: 0 <= i < |w.todo| ==> w.todo[i] != []
  }

  /** `inserted` and `maxSeq` speak of the rows of the current attempt only; the dead letters of
      the current attempt are the refused events behind it. */
  ghost predicate LogCounts(log: seq<Row>, y: Tally) {
    && y.logOpened <= y.logSince <= |log|
    && y.inserted == |log| - y.logSince
    && y.maxSeq == MaxSeqFrom(log, y.logSince)
  }

  ghost predicate DeadCounts(refused: Filter, batch: seq<Event>, behind: seq<Event>, y: Tally, dead: seq<Event>) {
    && y.deadOpened <= y.deadSince <= |dead|
    && dead[y.deadSince..] == Bad(refused, behind)
    && (forall i :: y.deadOpened <= i < |dead| ==> dead[i] in batch && refused(dead[i]))
  }

  ghost predicate WorkCounts(refused: Filter, log: seq<Row>, w: Work, dead: seq<Event>) {
    LogCounts(log, w.tally) && DeadCounts(refused, w.batch, w.behind, w.tally, dead)
  }

  ghost predicate WorkInv(refused: Filter, base: seq<Event>, m: Machine) {
    && WorkShape(m.work)
    && WorkCounts(refused, m.store.log, m.work, m.dead)
    && Sound(m.store)
    && exists k: nat :: |m.work.behind| <= k && Absorbed(refused, base, m.store.log, m.work.batch, k)
  }

  lemma FlattenWhole(batch: seq<Event>)
    ensures Flatten([batch]) == batch && [] + batch == batch
  {
    assert Flatten([batch]) == batch + Flatten([]);
  }

  lemma OpenInv(refused: Filter, store: Store, dead: seq<Event>, batch: seq<Event>)
    requires Sound(store) && batch != []
    ensures WorkInv(refused, Contents(store.log), Machine(store, Open(store, dead, batch), dead))
  {
    FlattenWhole(batch);
    assert store.log[|store.log|..] == [] && dead[|dead|..] == [];
    assert Absorbed(refused, Contents(store.log), store.log, batch, 0) by {
      assert batch[..0] == [];
      assert Contents(store.log) + [] == Contents(store.log);
    }
    hide Sound, Absorbed, Contents;
  }

  lemma GoodOfPart(refused: Filter, es: seq<Event>, i: nat, j: nat)
    requires i <= j <= |es|
    ensures Keys(Good(refused, es[i..j])) <= Keys(Good(refused, es))
  {
    FilterMembers(refused, es[i..j]);
    FilterMembers(refused, es);
    assert forall e :: e in es[i..j] ==> e in es;
  }

  lemma GoodAdjacent(refused: Filter, es: seq<Event>, i: nat, j: nat, k: nat)
    requires i <= j <= k <= |es|
    ensures Good(refused, es[i..k]) == Good(refused, es[i..j]) + Good(refused, es[j..k])
  {
    assert es[i..k] == es[i..j] + es[j..k];
    GoodConcat(refused, es[i..j], es[j..k]);
  }

  /** Repeating or extending: writing `batch[pos..end]` when the first `k` events are already
      absorbed leaves the first `max(k, end)` absorbed. */
  lemma AbsorbChunk(refused: Filter, base: seq<Event>, c: seq<Event>, batch: seq<Event>, pos: nat, end: nat, k: nat)
    requires pos <= k <= |batch| && pos <= end <= |batch|
    requires c == base + News(Keys(base), Good(refused, batch[..k]))
    ensures c + News(Keys(c), Good(refused, batch[pos..end]))
         == base + News(Keys(base), Good(refused, batch[..if k < end then end else k]))
  {
    var cut := if end < k then end else k;
    var last := if k < end then end else k;
    var done := Good(refused, batch[..k]);
    var again, beyond := Good(refused, batch[pos..cut]), Good(refused, batch[cut..end]);
    NewsKeys(Keys(base), done);
    KeysConcat(base, News(Keys(base), done));
    GoodAdjacent(refused, batch, pos, cut, end);
    GoodAdjacent(refused, batch, 0, k, last);
    assert batch[0..k] == batch[..k];
    assert batch[0..last] == batch[..last];
    assert beyond == Good(refused, batch[k..last]) by {
      assert batch[cut..end] == batch[k..last];
    }
    assert Keys(again) <= Keys(done) by {
      GoodOfPart(refused, batch[..k], pos, cut);
      assert batch[..k][pos..cut] == batch[pos..cut];
    }
    NewsReplay(Keys(base), done, again, beyond);
    hide Good, News, Keys;
    Associate(base, News(Keys(base), done), News(Keys(base) + Keys(done), again + beyond));
  }

  lemma Associate(a: seq<Event>, b: seq<Event>, c: seq<Event>)
    ensures a + b + c == a + (b + c)
  {
  }

  /** A statement that takes effect advances the absorbed prefix past its chunk. */
  lemma ChunkAbsorbed(refused: Filter, base: seq<Event>, m: Machine, burn: nat, t: Store)
    requires WorkInv(refused, base, m) && m.work.todo != []
    requires Timely(m.store, m.work.batch)
    requires AllAccepted(refused, m.work.todo[0])
    requires t == InsertBatch(m.store.(nextSeq := m.store.nextSeq + burn), m.work.todo[0])
    ensures Sound(t) && m.store.log <= t.log
    ensures exists k: nat :: |m.work.behind + m.work.todo[0]| <= k && Absorbed(refused, base, t.log, m.work.batch, k)
  {
    var w, chunk := m.work, m.work.todo[0];
    var pos, end := |w.behind|, |w.behind + w.todo[0]|;
    assert w.batch[pos..end] == chunk && Timely(m.store, chunk) by {
      assert w.batch == w.behind + (chunk + Flatten(w.todo[1..]));
      assert forall e :: e in chunk ==> e in w.batch;
    }
    var s := m.store.(nextSeq := m.store.nextSeq + burn);
    assert Sound(s);
    InsertBatchSound(s, chunk);
    FilterAccepted(refused, chunk);
    var k: nat :| pos <= k && Absorbed(refused, base, m.store.log, w.batch, k);
    AbsorbChunk(refused, base, Contents(m.store.log), w.batch, pos, end, k);
    var k': nat := if k < end then end else k;
    assert Absorbed(refused, base, t.log, w.batch, k') by {
      hide Sound;
    }
  }

  /** Moving past the first chunk: what is behind grows by it. */
  lemma AdvanceShape(w: Work, n: nat, s: Option<nat>)
    requires WorkShape(w) && w.todo != []
    ensures WorkShape(Advance(w, n, s))
  {
    var rest := w.todo[1..];
    assert w.behind + (w.todo[0] + Flatten(rest)) == (w.behind + w.todo[0]) + Flatten(rest);
  }

  lemma BadPastAccepted(refused: Filter, behind: seq<Event>, chunk: seq<Event>)
    requires AllAccepted(refused, chunk)
    ensures Bad(refused, behind + chunk) == Bad(refused, behind)
  {
    BadConcat(refused, behind, chunk);
    FilterAccepted(refused, chunk);
    hide Bad, Good;
  }

  /** The counters after a successful chunk. */
  lemma DoneCounts(log: seq<Row>, added: seq<Row>, y: Tally)
    requires LogCounts(log, y)
    ensures LogCounts(log + added, Gain(y, |added|, MaxSeq(added)))
  {
    MaxSeqFromConcat(log, added, y.logSince);
    hide MaxSeq, MaxSeqFrom, Larger;
  }

  /** A refused single row goes to the dead letters and nowhere else. */
  lemma RefusedCounts(
    refused: Filter, batch: seq<Event>, behind: seq<Event>, e: Event, y: Tally, dead: seq<Event>)
    requires DeadCounts(refused, batch, behind, y, dead)
    requires refused(e) && e in batch
    ensures DeadCounts(refused, batch, behind + [e], Gain(y, 0, None), dead + [e])
  {
    BadConcat(refused, behind, [e]);
    assert Bad(refused, [e]) == [e];
    assert (dead + [e])[y.deadSince..] == dead[y.deadSince..] + [e];
    hide Bad;
  }

  lemma GoodPastRefused(refused: Filter, w: Work)
    requires WorkShape(w) && w.todo != [] && |w.todo[0]| == 1 && refused(w.todo[0][0])
    ensures |w.behind| < |w.batch|
    ensures Good(refused, w.batch[..|w.behind| + 1]) == Good(refused, w.batch[..|w.behind|])
  {
    var chunk, pos := w.todo[0], |w.behind|;
    assert w.batch == w.behind + (chunk + Flatten(w.todo[1..]));
    assert w.batch[..pos + 1] == w.batch[..pos] + chunk;
    GoodConcat(refused, w.batch[..pos], chunk);
    assert chunk[1..] == [] && Good(refused, chunk) == [];
  }

  /** Halving a refused chunk moves nothing. */
  lemma SplitShape(w: Work)
    requires WorkShape(w) && w.todo != [] && |w.todo[0]| != 1
    ensures WorkShape(Split(w))
  {
    var chunk, rest := w.todo[0], w.todo[1..];
    var middle := |chunk| / 2;
    var a, b := chunk[..middle], chunk[middle..];
    assert ([a, b] + rest)[1..] == [b] + rest && ([b] + rest)[1..] == rest;
    assert Flatten([a, b] + rest) == a + (b + Flatten(rest));
    assert a + (b + Flatten(rest)) == chunk + Flatten(rest) by {
      assert a + b == chunk;
      assert a + (b + Flatten(rest)) == (a + b) + Flatten(rest);
    }
  }

  /** A broken statement restarts the batch; what it may have stored stays absorbed. */
  lemma BrokenKeeps(refused: Filter, base: seq<Event>, m: Machine, t: Store, k: nat)
    requires WorkShape(m.work) && WorkCounts(refused, m.store.log, m.work, m.dead)
    requires Sound(t) && m.store.log <= t.log
    requires Absorbed(refused, base, t.log, m.work.batch, k)
    ensures WorkInv(refused, base, Machine(t, Restart(m.work, t, m.dead), m.dead))
  {
    FlattenWhole(m.work.batch);
    assert m.dead[|m.dead|..] == [] && t.log[|t.log|..] == [];
    hide Sound, Absorbed;
  }

  lemma DoneKeeps(refused: Filter, base: seq<Event>, m: Machine, t: Store, k: nat)
    requires WorkShape(m.work) && WorkCounts(refused, m.store.log, m.work, m.dead) && m.work.todo != []
    requires AllAccepted(refused, m.work.todo[0])
    requires Sound(t) && m.store.log <= t.log
    requires |m.work.behind + m.work.todo[0]| <= k && Absorbed(refused, base, t.log, m.work.batch, k)
    ensures WorkInv(refused, base, Machine(t, Advance(m.work, |t.log| - |m.store.log|, MaxSeq(t.log[|m.store.log|..])), m.dead))
  {
    var added := t.log[|m.store.log|..];
    assert t.log == m.store.log + added;
    AdvanceShape(m.work, |added|, MaxSeq(added));
    DoneCounts(m.store.log, added, m.work.tally);
    BadPastAccepted(refused, m.work.behind, m.work.todo[0]);
    hide Sound, Absorbed, WorkShape, LogCounts, MaxSeq, Bad;
    DoneDead(refused, m.work, Gain(m.work.tally, |added|, MaxSeq(added)), m.dead);
    hide DeadCounts;
  }

  lemma DoneDead(refused: Filter, w: Work, gained: Tally, dead: seq<Event>)
    requires w.todo != [] && DeadCounts(refused, w.batch, w.behind, w.tally, dead)
    requires gained.deadOpened == w.tally.deadOpened && gained.deadSince == w.tally.deadSince
    requires Bad(refused, w.behind + w.todo[0]) == Bad(refused, w.behind)
    ensures DeadCounts(refused, w.batch, w.behind + w.todo[0], gained, dead)
  {
    hide Bad;
  }

  lemma CommittedStep(refused: Filter, m: Machine, link: Link, t: Store)
    requires m.work.todo != []
    requires !link.kind.LostRequest? && AllAccepted(refused, m.work.todo[0])
    requires t == InsertBatch(m.store.(nextSeq := m.store.nextSeq + link.burn), m.work.todo[0])
    ensures Statement(refused, m, link)
            == if link.kind.LostReply? then Machine(t, Restart(m.work, t, m.dead), m.dead)
               else Machine(t, Advance(m.work, |t.log| - |m.store.log|, MaxSeq(t.log[|m.store.log|..])), m.dead)
  {
    hide InsertBatch, Advance, Restart, MaxSeq;
  }

  lemma CommittedKeeps(refused: Filter, base: seq<Event>, m: Machine, link: Link)
    requires WorkInv(refused, base, m) && m.work.todo != []
    requires Timely(m.store, m.work.batch)
    requires !link.kind.LostRequest? && AllAccepted(refused, m.work.todo[0])
    ensures WorkInv(refused, base, Statement(refused, m, link))
  {
    var t := InsertBatch(m.store.(nextSeq := m.store.nextSeq + link.burn), m.work.todo[0]);
    CommittedStep(refused, m, link, t);
    ChunkAbsorbed(refused, base, m, link.burn, t);
    hide Statement, InsertBatch, Sound, Absorbed, Restart, WorkShape, LogCounts, DeadCounts, Advance, MaxSeq;
    var k: nat :| |m.work.behind + m.work.todo[0]| <= k && Absorbed(refused, base, t.log, m.work.batch, k);
    if link.kind.Clean? {
      DoneKeeps(refused, base, m, t, k);
    } else {
      BrokenKeeps(refused, base, m, t, k);
    }
  }

  lemma RefusedKeeps(refused: Filter, base: seq<Event>, m: Machine, t: Store, k: nat)
    requires WorkShape(m.work) && WorkCounts(refused, m.store.log, m.work, m.dead) && m.work.todo != []
    requires |m.work.todo[0]| == 1 && refused(m.work.todo[0][0])
    requires Sound(t) && t.log == m.store.log
    requires |m.work.behind| <= k && Absorbed(refused, base, t.log, m.work.batch, k)
    ensures WorkInv(refused, base, Machine(t, Advance(m.work, 0, None), m.dead + m.work.todo[0]))
  {
    AdvanceShape(m.work, 0, None);
    var w := m.work;
    assert w.todo[0] == [w.todo[0][0]] && w.todo[0][0] in w.batch by {
      assert w.batch == w.behind + (w.todo[0] + Flatten(w.todo[1..]));
      assert w.batch[|w.behind|] == w.todo[0][0];
    }
    RefusedCounts(refused, w.batch, w.behind, w.todo[0][0], w.tally, m.dead);
    GoodPastRefused(refused, m.work);
    var k': nat := if k == |m.work.behind| then k + 1 else k;
    assert Absorbed(refused, base, t.log, m.work.batch, k') by {
      hide Sound, WorkShape, LogCounts, DeadCounts;
    }
    hide Sound, Absorbed, WorkShape, LogCounts, DeadCounts;
  }

  lemma SplitKeeps(refused: Filter, base: seq<Event>, m: Machine, t: Store, k: nat)
    requires WorkShape(m.work) && WorkCounts(refused, m.store.log, m.work, m.dead) && m.work.todo != []
    requires |m.work.todo[0]| != 1
    requires Sound(t) && t.log == m.store.log
    requires |m.work.behind| <= k && Absorbed(refused, base, t.log, m.work.batch, k)
    ensures WorkInv(refused, base, Machine(t, Split(m.work), m.dead))
  {
    SplitShape(m.work);
    assert WorkCounts(refused, t.log, Split(m.work), m.dead) by {
      hide Sound, Absorbed, WorkShape;
    }
    hide Sound, Absorbed, WorkShape, LogCounts, DeadCounts;
  }

  lemma IneffectiveStep(refused: Filter, m: Machine, link: Link, t: Store)
    requires m.work.todo != []
    requires link.kind.LostRequest? || !AllAccepted(refused, m.work.todo[0])
    requires t == m.store.(nextSeq := m.store.nextSeq + link.burn)
    ensures Statement(refused, m, link)
            == if !link.kind.Clean? then Machine(t, Restart(m.work, t, m.dead), m.dead)
               else if |m.work.todo[0]| == 1 then Machine(t, Advance(m.work, 0, None), m.dead + m.work.todo[0])
               else Machine(t, Split(m.work), m.dead)
  {
    hide InsertBatch, Advance, Restart, Split, MaxSeq;
  }

  /** The parts of the invariant around a statement that changes nothing but the sequence. */
  lemma Parts(refused: Filter, base: seq<Event>, m: Machine, burn: nat, t: Store) returns (k: nat)
    requires WorkInv(refused, base, m) && t == m.store.(nextSeq := m.store.nextSeq + burn)
    ensures WorkShape(m.work) && WorkCounts(refused, m.store.log, m.work, m.dead)
    ensures Sound(t) && t.log == m.store.log
    ensures |m.work.behind| <= k && Absorbed(refused, base, t.log, m.work.batch, k)
  {
    assert Sound(t);
    hide Sound, WorkShape, WorkCounts, Absorbed;
    k :| |m.work.behind| <= k && Absorbed(refused, base, m.store.log, m.work.batch, k);
  }

  lemma LostKeeps(refused: Filter, base: seq<Event>, m: Machine, burn: nat, t: Store)
    requires WorkInv(refused, base, m) && t == m.store.(nextSeq := m.store.nextSeq + burn)
    ensures WorkInv(refused, base, Machine(t, Restart(m.work, t, m.dead), m.dead))
  {
    var k := Parts(refused, base, m, burn, t);
    hide WorkInv, Sound, WorkShape, WorkCounts, Absorbed, Restart;
    BrokenKeeps(refused, base, m, t, k);
  }

  lemma OneRefusedKeeps(refused: Filter, base: seq<Event>, m: Machine, burn: nat, t: Store)
    requires WorkInv(refused, base, m) && t == m.store.(nextSeq := m.store.nextSeq + burn)
    requires m.work.todo != [] && |m.work.todo[0]| == 1 && !AllAccepted(refused, m.work.todo[0])
    ensures WorkInv(refused, base, Machine(t, Advance(m.work, 0, None), m.dead + m.work.todo[0]))
  {
    var k := Parts(refused, base, m, burn, t);
    hide WorkInv, Sound, WorkShape, WorkCounts, Absorbed, Advance;
    RefusedKeeps(refused, base, m, t, k);
  }

  lemma SeveralRefusedKeeps(refused: Filter, base: seq<Event>, m: Machine, burn: nat, t: Store)
    requires WorkInv(refused, base, m) && t == m.store.(nextSeq := m.store.nextSeq + burn)
    requires m.work.todo != [] && |m.work.todo[0]| != 1
    ensures WorkInv(refused, base, Machine(t, Split(m.work), m.dead))
  {
    var k := Parts(refused, base, m, burn, t);
    hide WorkInv, Sound, WorkShape, WorkCounts, Absorbed, Split;
    SplitKeeps(refused, base, m, t, k);
  }

  lemma IneffectiveKeeps(refused: Filter, base: seq<Event>, m: Machine, link: Link)
    requires WorkInv(refused, base, m) && m.work.todo != []
    requires link.kind.LostRequest? || !AllAccepted(refused, m.work.todo[0])
    ensures WorkInv(refused, base, Statement(refused, m, link))
  {
    var t := m.store.(nextSeq := m.store.nextSeq + link.burn);
    IneffectiveStep(refused, m, link, t);
    hide WorkInv, Statement, Restart, Advance, Split, AllAccepted;
    if !link.kind.Clean? {
      LostKeeps(refused, base, m, link.burn, t);
    } else if |m.work.todo[0]| == 1 {
      OneRefusedKeeps(refused, base, m, link.burn, t);
    } else {
      SeveralRefusedKeeps(refused, base, m, link.burn, t);
    }
  }

  /** Every statement, whatever becomes of it, keeps the invariant. */
  lemma StatementKeeps(refused: Filter, base: seq<Event>, m: Machine, link: Link)
    requires WorkInv(refused, base, m) && m.work.todo != []
    requires Timely(m.store, m.work.batch)
    ensures WorkInv(refused, base, Statement(refused, m, link))
  {
    if !link.kind.LostRequest? && AllAccepted(refused, m.work.todo[0]) {
      CommittedKeeps(refused, base, m, link);
    } else {
      IneffectiveKeeps(refused, base, m, link);
    }
  }

  // ---- The batch as a whole ---------------------------------------------------------------

  /** Statements one after the other until the batch is done or the script ends. */
  function Drive(refused: Filter, m: Machine, links: seq<Link>): Machine
    decreases |links|
  {
    if links == [] || m.work.todo == [] then m
    else Drive(refused, Statement(refused, m, links[0]), links[1..])
  }

  lemma {:induction false} DriveConcat(refused: Filter, m: Machine, a: seq<Link>, b: seq<Link>)
    ensures Drive(refused, m, a + b) == Drive(refused, Drive(refused, m, a), b)
    decreases |a|
  {
    if a == [] {
      assert a + b == b;
    } else if m.work.todo == [] {
    } else {
      assert (a + b)[0] == a[0] && (a + b)[1..] == a[1..] + b;
      DriveConcat(refused, Statement(refused, m, a[0]), a[1..], b);
      hide Statement;
    }
  }

  lemma StatementFrame(refused: Filter, m: Machine, link: Link)
    requires m.work.todo != []
    ensures var m' := Statement(refused, m, link);
            && m'.store.rawHorizon == m.store.rawHorizon
            && m'.store.partitions == m.store.partitions
            && m'.work.batch == m.work.batch
            && m'.work.tally.logOpened == m.work.tally.logOpened
            && m'.work.tally.deadOpened == m.work.tally.deadOpened
            && m.store.log <= m'.store.log && m.dead <= m'.dead
  {
  }

  lemma {:induction false} DriveKeeps(refused: Filter, base: seq<Event>, m: Machine, links: seq<Link>)
    requires WorkInv(refused, base, m) && Timely(m.store, m.work.batch)
    ensures WorkInv(refused, base, Drive(refused, m, links))
    ensures Drive(refused, m, links).work.batch == m.work.batch
    decreases |links|
  {
    if links != [] && m.work.todo != [] {
      StatementKeeps(refused, base, m, links[0]);
      StatementFrame(refused, m, links[0]);
      DriveKeeps(refused, base, Statement(refused, m, links[0]), links[1..]);
    }
  }

  /** What is true when a batch is through. */
  lemma FinishedBatch(refused: Filter, base: seq<Event>, m: Machine)
    requires WorkInv(refused, base, m) && m.work.todo == []
    ensures Contents(m.store.log) == base + News(Keys(base), Good(refused, m.work.batch))
    ensures AttemptDead(m) == Bad(refused, m.work.batch)
  {
    var w := m.work;
    assert w.behind == w.batch by {
      assert Flatten(w.todo) == [] && w.behind + [] == w.behind;
    }
    hide Sound, LogCounts;
    var k: nat :| |w.behind| <= k && Absorbed(refused, base, m.store.log, w.batch, k);
    assert w.batch[..k] == w.batch;
  }

  /** Exactly once, for every script of connection failures: whatever was lost, repeated or half
      done in between, once the batch is through, the history has grown by the acceptable events
      whose key was new, each once and in order, and the aggregates are the recompute. */
  lemma BatchExactlyOnce(refused: Filter, store: Store, dead: seq<Event>, batch: seq<Event>, links: seq<Link>)
    requires Sound(store) && batch != [] && Timely(store, batch)
    requires Drive(refused, Machine(store, Open(store, dead, batch), dead), links).work.todo == []
    ensures var m := Drive(refused, Machine(store, Open(store, dead, batch), dead), links);
            && Sound(m.store)
            && Contents(m.store.log) == Contents(store.log) + News(Keys(Contents(store.log)), Good(refused, batch))
            && AttemptDead(m) == Bad(refused, batch)
  {
    OpenInv(refused, store, dead, batch);
    var m0 := Machine(store, Open(store, dead, batch), dead);
    DriveKeeps(refused, Contents(store.log), m0, links);
    FinishedBatch(refused, Contents(store.log), Drive(refused, m0, links));
    hide Sound, Contents, News, Drive, WorkShape, LogCounts, DeadCounts, Absorbed, Bad, AttemptDead;
  }
}
