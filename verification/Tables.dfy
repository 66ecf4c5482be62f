/** The database as the pipeline uses it: one SQL statement is one atomic step. `rows` is the
    `events` table with the partition each row sits in; `log` is a history variable, every row
    ever inserted, which no retention step removes. */
module Tables {
  import opened Events
  import opened Rollup

  datatype Place = Daily(day: int) | Default

  datatype Row = Row(seqNo: nat, event: Event, place: Place)

  /** How far retention has cut: everything before the cutoff may be gone. */
  datatype Horizon = Never | Before(cutoff: int)

  datatype Store = Store(
    rows: seq<Row>,
    log: seq<Row>,
    partitions: set<int>,
    nextSeq: nat,
    minute: Table,
    hour: Table,
    accepted: nat,
    duplicates: nat,
    rawHorizon: Horizon,
    minuteHorizon: Horizon,
    hourHorizon: Horizon)

  function Kept(h: Horizon, t: int): bool {
    h.Before? ==> h.cutoff <= t
  }

  function Raise(h: Horizon, cutoff: int): (r: Horizon)
    ensures forall t :: Kept(r, t) <==> Kept(h, t) && cutoff <= t
  {
    if h.Before? && h.cutoff > cutoff then h else Before(cutoff)
  }

  function Contents(rows: seq<Row>): (es: seq<Event>)
    ensures |es| == |rows|
    ensures forall i :: 0 <= i < |rows| ==> es[i] == rows[i].event
  {
    seq(|rows|, i requires 0 <= i < |rows| => rows[i].event)
  }

  function Empty(): Store {
    Store([], [], {}, 1, map[], map[], 0, 0, Never, Never, Never)
  }

  // ---- The INSERT ... ON CONFLICT DO NOTHING of one batch ---------------------------------

  function Route(partitions: set<int>, e: Event): Place {
    if DayOf(e.occurredAt) in partitions then Daily(DayOf(e.occurredAt)) else Default
  }

  /** A unique index of a partitioned table only sees the partition a row is routed to. */
  predicate Conflicts(rows: seq<Row>, key: Key, place: Place) {
    exists r :: r in rows && KeyOf(r.event) == key && r.place == place
  }

  /** The rows `RETURNING` yields. Every input row draws a sequence value, kept or not. */
  function Inserted(rows: seq<Row>, partitions: set<int>, nextSeq: nat, chunk: seq<Event>): (added: seq<Row>)
    ensures |added| <= |chunk|
    decreases |chunk|
  {
    if chunk == [] then []
    else
      var row := Row(nextSeq, chunk[0], Route(partitions, chunk[0]));
      if Conflicts(rows, KeyOf(row.event), row.place) then
        Inserted(rows, partitions, nextSeq + 1, chunk[1..])
      else
        [row] + Inserted(rows + [row], partitions, nextSeq + 1, chunk[1..])
  }

  /** The whole statement: event rows, both rollups of what it added, counters. */
  function InsertBatch(t: Store, chunk: seq<Event>): Store {
    var added := Inserted(t.rows, t.partitions, t.nextSeq, chunk);
    t.(rows := t.rows + added,
       log := t.log + added,
       nextSeq := t.nextSeq + |chunk|,
       minute := Upsert(t.minute, GroupBy(Minute, Contents(added))),
       hour := Upsert(t.hour, GroupBy(Hour, Contents(added))),
       accepted := t.accepted + |added|,
       duplicates := t.duplicates + |chunk| - |added|)
  }

  // ---- What every step keeps ---------------------------------------------------------------

  /** A stored row sits exactly where a retry of it would be routed. */
  ghost predicate Routed(t: Store) {
    forall r :: r in t.rows ==> r.place == Route(t.partitions, r.event)
  }

  /** Only rows before the horizon may have left the live table. */
  ghost predicate LiveSinceHorizon(t: Store) {
    && (forall r :: r in t.rows ==> r in t.log)
    && (forall r :: r in t.log && Kept(t.rawHorizon, r.event.occurredAt) ==> r in t.rows)
  }

  /** Sequence numbers grow in commit order and lie below the next value. */
  ghost predicate Ordered(log: seq<Row>, nextSeq: nat) {
    && (forall i, j :: 0 <= i < j < |log| ==> log[i].seqNo < log[j].seqNo)
    && (forall i :: 0 <= i < |log| ==> 0 < log[i].seqNo < nextSeq)
  }

  /** Buckets that were never below a cutoff hold exactly the recompute over all events. */
  ghost predicate Agrees(table: Table, u: Unit, es: seq<Event>, h: Horizon) {
    forall c: Cell :: Kept(h, c.bucket) ==> SameCell(table, GroupBy(u, es), c)
  }

  ghost predicate Sound(t: Store) {
    && Routed(t)
    && LiveSinceHorizon(t)
    && t.nextSeq > 0
    && Ordered(t.log, t.nextSeq)
    && DistinctKeys(Contents(t.log))
    && Agrees(t.minute, Minute, Contents(t.log), t.minuteHorizon)
    && Agrees(t.hour, Hour, Contents(t.log), t.hourHorizon)
    && t.accepted == |t.log|
  }

  /** No event of the chunk is older than what retention may already have removed. */
  ghost predicate Timely(t: Store, chunk: seq<Event>) {
    forall e :: e in chunk ==> Kept(t.rawHorizon, e.occurredAt)
  }

  // ---- The statement keeps it, and inserts exactly the news -------------------------------

  /** For an event retention cannot have removed, the partition-local conflict check decides
      whether its key was ever inserted. */
  lemma ConflictIsKnown(rows: seq<Row>, log: seq<Row>, partitions: set<int>, h: Horizon, e: Event)
    requires forall r :: r in rows ==> r.place == Route(partitions, r.event)
    requires forall r :: r in rows ==> r in log
    requires forall r :: r in log && Kept(h, r.event.occurredAt) ==> r in rows
    requires Kept(h, e.occurredAt)
    ensures Conflicts(rows, KeyOf(e), Route(partitions, e)) <==> KeyOf(e) in Keys(Contents(log))
  {
    var es := Contents(log);
    if Conflicts(rows, KeyOf(e), Route(partitions, e)) {
      var r :| r in rows && KeyOf(r.event) == KeyOf(e);
      var i :| 0 <= i < |log| && log[i] == r;
      assert es[i] == r.event && es[i] in es;
    }
    if KeyOf(e) in Keys(es) {
      var x :| x in es && KeyOf(x) == KeyOf(e);
      var i :| 0 <= i < |es| && es[i] == x;
      assert log[i] in log && log[i] in rows;
    }
  }

  lemma ContentsConcat(a: seq<Row>, b: seq<Row>)
    ensures Contents(a + b) == Contents(a) + Contents(b)
  {
  }

  lemma {:induction false} InsertedIsNews(
    rows: seq<Row>, log: seq<Row>, partitions: set<int>, h: Horizon, nextSeq: nat, chunk: seq<Event>)
    requires forall r :: r in rows ==> r.place == Route(partitions, r.event)
    requires forall r :: r in rows ==> r in log
    requires forall r :: r in log && Kept(h, r.event.occurredAt) ==> r in rows
    requires forall e :: e in chunk ==> Kept(h, e.occurredAt)
    ensures Contents(Inserted(rows, partitions, nextSeq, chunk)) == News(Keys(Contents(log)), chunk)
    decreases |chunk|
  {
    if chunk != [] {
      var e := chunk[0];
      var row := Row(nextSeq, e, Route(partitions, e));
      assert e in chunk;
      ConflictIsKnown(rows, log, partitions, h, e);
      if Conflicts(rows, KeyOf(e), row.place) {
        InsertedIsNews(rows, log, partitions, h, nextSeq + 1, chunk[1..]);
      } else {
        InsertedIsNews(rows + [row], log + [row], partitions, h, nextSeq + 1, chunk[1..]);
        ContentsConcat(log, [row]);
        KeysConcat(Contents(log), [e]);
        assert Contents([row]) == [e] && Keys([e]) == {KeyOf(e)};
        ContentsConcat([row], Inserted(rows + [row], partitions, nextSeq + 1, chunk[1..]));
      }
    }
  }

  lemma {:induction false} InsertedShape(rows: seq<Row>, partitions: set<int>, nextSeq: nat, chunk: seq<Event>)
    ensures var added := Inserted(rows, partitions, nextSeq, chunk);
            && (forall i, j :: 0 <= i < j < |added| ==> added[i].seqNo < added[j].seqNo)
            && (forall i :: 0 <= i < |added| ==> nextSeq <= added[i].seqNo < nextSeq + |chunk|)
            && (forall r :: r in added ==> r.place == Route(partitions, r.event) && r.event in chunk)
    decreases |chunk|
  {
    if chunk != [] {
      var row := Row(nextSeq, chunk[0], Route(partitions, chunk[0]));
      if Conflicts(rows, KeyOf(row.event), row.place) {
        InsertedShape(rows, partitions, nextSeq + 1, chunk[1..]);
      } else {
        InsertedShape(rows + [row], partitions, nextSeq + 1, chunk[1..]);
      }
    }
  }

  lemma AgreesAfter(table: Table, u: Unit, a: seq<Event>, b: seq<Event>, h: Horizon)
    requires Agrees(table, u, a, h)
    ensures Agrees(Upsert(table, GroupBy(u, b)), u, a + b, h)
  {
    forall c: Cell | Kept(h, c.bucket)
      ensures SameCell(Upsert(table, GroupBy(u, b)), GroupBy(u, a + b), c)
    {
      UpsertCell(u, table, a, b, c);
    }
  }

  lemma DistinctConcat(a: seq<Event>, b: seq<Event>)
    requires DistinctKeys(a) && DistinctKeys(b) && Keys(a) !! Keys(b)
    ensures DistinctKeys(a + b)
  {
    forall i, j | 0 <= i < j < |a + b| ensures KeyOf((a + b)[i]) != KeyOf((a + b)[j]) {
      if i < |a| <= j {
        assert KeyOf(a[i]) in Keys(a) && KeyOf(b[j - |a|]) in Keys(b);
      }
    }
  }

  /** The statement appends exactly the events whose key was never inserted, each once and in
      order, to the history, and its aggregates stay the recompute. */
  lemma InsertBatchSound(t: Store, chunk: seq<Event>)
    requires Sound(t) && Timely(t, chunk)
    ensures Sound(InsertBatch(t, chunk))
    ensures Contents(InsertBatch(t, chunk).log)
         == Contents(t.log) + News(Keys(Contents(t.log)), chunk)
  {
    var added := Inserted(t.rows, t.partitions, t.nextSeq, chunk);
    var es := Contents(t.log);
    InsertedIsNews(t.rows, t.log, t.partitions, t.rawHorizon, t.nextSeq, chunk);
    InsertedShape(t.rows, t.partitions, t.nextSeq, chunk);
    ContentsConcat(t.log, added);
    NewsKeys(Keys(es), chunk);
    NewsDistinct(Keys(es), chunk);
    DistinctConcat(es, Contents(added));
    AgreesAfter(t.minute, Minute, es, Contents(added), t.minuteHorizon);
    AgreesAfter(t.hour, Hour, es, Contents(added), t.hourHorizon);
  }

  /** The ingest counters move by the news and by everything else in the batch; every row of the batch, kept
      or not, uses up a sequence value. */
  lemma StatementCounts(t: Store, chunk: seq<Event>)
    requires Sound(t) && Timely(t, chunk)
    ensures InsertBatch(t, chunk).accepted == t.accepted + |News(Keys(Contents(t.log)), chunk)|
    ensures InsertBatch(t, chunk).accepted + InsertBatch(t, chunk).duplicates == t.accepted + t.duplicates + |chunk|
    ensures InsertBatch(t, chunk).nextSeq == t.nextSeq + |chunk|
  {
    InsertedIsNews(t.rows, t.log, t.partitions, t.rawHorizon, t.nextSeq, chunk);
    hide Inserted, GroupBy, Upsert;
  }
}
