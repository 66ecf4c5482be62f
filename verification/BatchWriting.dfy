/** The writer and its database connection as objects. Each method is proved against the step
    functions: a queue method against its function on the queue, a write against the run of
    statements it performs. */
module BatchWriting {
  import opened Events
  import opened Tables
  import opened Bisection
  import opened BisectionCost
  import opened Writer

  const CLEAN: Link := Link(Clean, 0)

  function NextLink(ls: seq<Link>): Link {
    if ls == [] then CLEAN else ls[0]
  }

  function RestLinks(ls: seq<Link>): seq<Link> {
    if ls == [] then [] else ls[1..]
  }

  /** The first `n` links of a script that stays clean once it has run out. */
  function Taken(ls: seq<Link>, n: nat): seq<Link> {
    if n == 0 then [] else [NextLink(ls)] + Taken(RestLinks(ls), n - 1)
  }

  function Dropped(ls: seq<Link>, n: nat): seq<Link> {
    if n == 0 then ls else Dropped(RestLinks(ls), n - 1)
  }

  lemma {:induction false} TakenConcat(ls: seq<Link>, m: nat, n: nat)
    ensures Taken(ls, m + n) == Taken(ls, m) + Taken(Dropped(ls, m), n)
    ensures Dropped(ls, m + n) == Dropped(Dropped(ls, m), n)
    decreases m
  {
    if m > 0 {
      TakenConcat(RestLinks(ls), m - 1, n);
    }
  }

  class Database {
    const refused: Filter
    var store: Store
    /** What the connection is going to do, one entry per statement. */
    var links: seq<Link>

    constructor (refused: Filter, store: Store, links: seq<Link>)
      ensures this.refused == refused && this.store == store && this.links == links
    {
      this.refused, this.store, this.links := refused, store, links;
    }

    method InsertEvents(chunk: seq<Event>) returns (reply: Reply)
      modifies this
      ensures (store, reply) == Execute(refused, old(store), chunk, NextLink(old(links)))
      ensures links == RestLinks(old(links))
    {
      var link := NextLink(links);
      links := RestLinks(links);
      var (t, r) := Execute(refused, store, chunk, link);
      store, reply := t, r;
    }
  }

  /** Ghost view of a write: from `before`, the statements over `used` lead to `after`. */
  ghost predicate Wrote(
    refused: Filter, before: Machine, script: seq<Link>, used: seq<Link>, after: Machine, rest: seq<Link>)
  {
    && Drive(refused, before, used) == after
    && used == Taken(script, |used|) && rest == Dropped(script, |used|)
  }

  lemma WroteThen(
    refused: Filter, a: Machine, b: Machine, c: Machine, s0: seq<Link>, s1: seq<Link>, s2: seq<Link>, u: seq<Link>, v: seq<Link>)
    requires Wrote(refused, a, s0, u, b, s1) && Wrote(refused, b, s1, v, c, s2)
    ensures Wrote(refused, a, s0, u + v, c, s2)
  {
    DriveConcat(refused, a, u, v);
    TakenConcat(s0, |u|, |v|);
    hide Drive, Taken, Dropped;
  }

  lemma WroteOne(refused: Filter, m: Machine, s: seq<Link>)
    requires m.work.todo != []
    ensures Wrote(refused, m, s, [NextLink(s)], Statement(refused, m, NextLink(s)), RestLinks(s))
  {
    assert [NextLink(s)][1..] == [];
    assert Drive(refused, m, [NextLink(s)]) == Drive(refused, Statement(refused, m, NextLink(s)), []);
    assert Taken(s, 1) == [NextLink(s)] + Taken(RestLinks(s), 0);
    assert Dropped(s, 1) == Dropped(RestLinks(s), 0);
    hide Statement;
  }

  lemma LargerAssociative(a: Option<nat>, b: Option<nat>, c: Option<nat>)
    ensures Larger(Larger(a, b), c) == Larger(a, Larger(b, c))
  {
  }

  /** Writing both halves one after the other is writing the chunk. */
  lemma HalvesMakeWhole(w: Work, n: nat, s: Option<nat>, n': nat, s': Option<nat>)
    requires w.todo != []
    ensures Split(w).todo != [] && Advance(Split(w), n, s).todo != []
    ensures Advance(Advance(Split(w), n, s), n', s') == Advance(w, n + n', Larger(s, s'))
  {
    var chunk, rest := w.todo[0], w.todo[1..];
    var a, b := chunk[..|chunk| / 2], chunk[|chunk| / 2..];
    assert ([a, b] + rest)[1..] == [b] + rest && ([b] + rest)[1..] == rest;
    assert (w.behind + a) + b == w.behind + chunk;
    LargerAssociative(w.tally.maxSeq, s, s');
    hide Larger;
  }

  lemma RestartForgets(w: Work, n: nat, s: Option<nat>, t: Store, dead: seq<Event>)
    requires w.todo != []
    ensures Restart(Split(w), t, dead) == Restart(w, t, dead)
    ensures Restart(Advance(w, n, s), t, dead) == Restart(w, t, dead)
  {
  }

  lemma AllCleanConcat(a: seq<Link>, b: seq<Link>)
    ensures AllClean(a + b) <==> AllClean(a) && AllClean(b)
  {
    if AllClean(a + b) {
      assert forall i :: 0 <= i < |a| ==> a[i] == (a + b)[i];
      assert forall i :: 0 <= i < |b| ==> b[i] == (a + b)[|a| + i];
    }
  }

  /** One attempt at the first chunk of `m.work`, over the links `used`, ended in `store` and
      `dead` with this result. */
  ghost predicate Attempt(
    refused: Filter, m: Machine, script: seq<Link>, used: seq<Link>,
    store: Store, dead: seq<Event>, rest: seq<Link>, ok: bool, inserted: nat, maxSeq: Option<nat>)
    requires m.work.todo != []
  {
    && Wrote(refused, m, script, used,
             Machine(store, if ok then Advance(m.work, inserted, maxSeq) else Restart(m.work, store, dead), dead), rest)
    && (if ok then |rest| <= |script| else |rest| < |script|)
    && (AllClean(used) ==> ok && |used| == Cost(refused, m.work.todo[0]))
  }

  /** A statement that is not to be split settles the attempt. */
  lemma AttemptSettled(refused: Filter, m: Machine, script: seq<Link>, store: Store, reply: Reply)
    requires m.work.todo != [] && m.work.todo[0] != []
    requires (store, reply) == Execute(refused, m.store, m.work.todo[0], NextLink(script))
    requires reply.Refused? ==> |m.work.todo[0]| == 1
    ensures match reply
            case Done(n, s) => Attempt(refused, m, script, [NextLink(script)], store, m.dead, RestLinks(script), true, n, s)
            case Broken => Attempt(refused, m, script, [NextLink(script)], store, m.dead, RestLinks(script), false, 0, None)
            case Refused => Attempt(refused, m, script, [NextLink(script)], store, m.dead + m.work.todo[0], RestLinks(script), true, 0, None)
  {
    WroteOne(refused, m, script);
    assert [NextLink(script)][0] == NextLink(script);
    hide InsertBatch, MaxSeq, Wrote, Advance, Restart;
  }

  /** A refused chunk: the statement, then the left half; a failure there fails the chunk. */
  lemma AttemptLeft(
    refused: Filter, m: Machine, script: seq<Link>, t: Store, used: seq<Link>,
    store: Store, dead: seq<Event>, rest: seq<Link>, ok: bool, n: nat, s: Option<nat>)
    requires m.work.todo != [] && |m.work.todo[0]| > 1
    requires (t, Refused) == Execute(refused, m.store, m.work.todo[0], NextLink(script))
    requires Split(m.work).todo != []
    requires Attempt(refused, Machine(t, Split(m.work), m.dead), RestLinks(script), used, store, dead, rest, ok, n, s)
    ensures !ok ==> Attempt(refused, m, script, [NextLink(script)] + used, store, dead, rest, false, 0, None)
    ensures ok ==> Wrote(refused, m, script, [NextLink(script)] + used,
                         Machine(store, Advance(Split(m.work), n, s), dead), rest)
  {
    WroteOne(refused, m, script);
    assert Statement(refused, m, NextLink(script)) == Machine(t, Split(m.work), m.dead) by {
      hide InsertBatch, Split, MaxSeq;
    }
    AllCleanConcat([NextLink(script)], used);
    RestartForgets(m.work, 0, None, store, dead);
    var middle := Machine(t, Split(m.work), m.dead);
    var end := Machine(store, if ok then Advance(Split(m.work), n, s) else Restart(m.work, store, dead), dead);
    hide Execute, Statement, Wrote, Advance, Restart, Split, Cost, AllClean;
    WroteThen(refused, m, middle, end, script, RestLinks(script), rest, [NextLink(script)], used);
  }

  /** Both halves together are an attempt at the chunk. */
  lemma AttemptRight(
    refused: Filter, m: Machine, script: seq<Link>, usedL: seq<Link>, t: Store, deadL: seq<Event>, middle: seq<Link>, n: nat, s: Option<nat>,
    usedR: seq<Link>, store: Store, dead: seq<Event>, rest: seq<Link>, ok: bool, n': nat, s': Option<nat>)
    requires m.work.todo != [] && |m.work.todo[0]| > 1 && !AllAccepted(refused, m.work.todo[0])
    requires Split(m.work).todo != [] && Advance(Split(m.work), n, s).todo != []
    requires Wrote(refused, m, script, usedL, Machine(t, Advance(Split(m.work), n, s), deadL), middle)
    requires AllClean(usedL) ==> |usedL| == 1 + Cost(refused, Split(m.work).todo[0])
    requires |middle| <= |script|
    requires Attempt(refused, Machine(t, Advance(Split(m.work), n, s), deadL), middle, usedR, store, dead, rest, ok, n', s')
    ensures Attempt(refused, m, script, usedL + usedR, store, dead, rest, ok, n + n', Larger(s, s'))
  {
    HalvesMakeWhole(m.work, n, s, n', s');
    RestartForgets(m.work, n, s, store, dead);
    RestartForgets(Split(m.work), n, s, store, dead);
    AllCleanConcat(usedL, usedR);
    var chunk := m.work.todo[0];
    assert Cost(refused, chunk) == 1 + Cost(refused, Split(m.work).todo[0]) + Cost(refused, Advance(Split(m.work), n, s).todo[0]);
    var before := Machine(t, Advance(Split(m.work), n, s), deadL);
    var end := Machine(store, if ok then Advance(m.work, n + n', Larger(s, s')) else Restart(m.work, store, dead), dead);
    hide Wrote, Advance, Restart, Split, Cost, AllClean, Larger;
    WroteThen(refused, m, before, end, script, middle, rest, usedL, usedR);
  }

  /** The acceptable new events of `events` were appended to the history, each once and in order,
      and every refused one was dead-lettered. */
  ghost predicate Delivered(refused: Filter, before: Store, events: seq<Event>, after: Store, dead: seq<Event>) {
    Sound(before) && Timely(before, events) ==>
      && Sound(after)
      && Contents(after.log) == Contents(before.log) + News(Keys(Contents(before.log)), Good(refused, events))
      && (forall e :: e in events && refused(e) ==> e in dead)
  }

  lemma WroteDelivers(
    refused: Filter, before: Store, dead: seq<Event>, events: seq<Event>, script: seq<Link>, used: seq<Link>,
    after: Store, w: Work, dead': seq<Event>, rest: seq<Link>)
    requires events != [] && w.todo == []
    requires Wrote(refused, Machine(before, Open(before, dead, events), dead), script, used, Machine(after, w, dead'), rest)
    ensures Delivered(refused, before, events, after, dead')
  {
    if Sound(before) && Timely(before, events) {
      BatchExactlyOnce(refused, before, dead, events, used);
      FilterMembers(refused, events);
      var m := Machine(after, w, dead');
      assert forall e :: e in AttemptDead(m) ==> e in dead';
    }
    hide Sound, Timely, Contents, Drive, Good, News, Keys, Bad, AttemptDead;
  }

  class BatchWriter {
    const db: Database
    const lim: Limits
    var pending: seq<Request>
    var queuedEvents: int
    var hasWork: bool
    var stopping: bool
    var committedSeq: nat
    var totalInserted: int
    var totalDuplicates: int
    var totalBatches: int
    /** Events handed to the dead-letter writer. */
    var dead: seq<Event>

    constructor (db: Database, lim: Limits)
      ensures this.db == db && this.lim == lim
      ensures QueueState() == Queue([], 0, false, false) && CountersState() == Counters(0, 0, 0, 0) && dead == []
    {
      this.db, this.lim := db, lim;
      pending, queuedEvents, hasWork, stopping := [], 0, false, false;
      committedSeq, totalInserted, totalDuplicates, totalBatches := 0, 0, 0, 0;
      dead := [];
    }

    function QueueState(): Queue
      reads this
    {
      Queue(pending, queuedEvents, hasWork, stopping)
    }

    function CountersState(): Counters
      reads this
    {
      Counters(committedSeq, totalInserted, totalDuplicates, totalBatches)
    }

    ghost function Now(w: Work): Machine
      reads this, db
    {
      Machine(db.store, w, dead)
    }

    method Submit(r: Request) returns (outcome: Submission)
      modifies this`pending, this`queuedEvents, this`hasWork
      ensures (QueueState(), outcome) == Writer.Submit(lim, old(QueueState()), r)
    {
      if stopping {
        return WriterStopped;
      }
      if r.events == [] {
        return CompletedEmpty;
      }
      if queuedEvents + |r.events| > lim.maxQueued {
        return QueueFull;
      }
      pending := pending + [r];
      queuedEvents := queuedEvents + |r.events|;
      hasWork := true;
      outcome := Queued;
    }

    /** Pops whole requests until the next one would exceed the cap; at least one. */
    method TakeBatch() returns (items: seq<Request>)
      requires pending != []
      modifies this`pending
      ensures items == old(pending)[..BatchLength(old(pending), lim.maxBatch)]
      ensures pending == old(pending)[BatchLength(old(pending), lim.maxBatch)..]
    {
      ghost var start := pending;
      items := [pending[0]];
      pending := pending[1..];
      var size: nat := |items[0].events|;
      while pending != [] && size + |pending[0].events| <= lim.maxBatch
        invariant items + pending == start && items != []
        invariant |items| + Following(pending, size, lim.maxBatch) == BatchLength(start, lim.maxBatch)
        decreases |pending|
      {
        var item := pending[0];
        pending := pending[1..];
        items := items + [item];
        size := size + |item.events|;
      }
    }

    /** One attempt at `events`, the first chunk of `w.todo`: the run of statements it performs
        is the run of the transition system, and on a clean connection it costs what `Cost` says. */
    method WriteIsolatingBadRows(events: seq<Event>, ghost w: Work)
      returns (ok: bool, inserted: nat, maxSeq: Option<nat>, ghost used: seq<Link>)
      requires events != [] && w.todo != [] && w.todo[0] == events
      modifies this`dead, db
      ensures Attempt(db.refused, old(Now(w)), old(db.links), used, db.store, dead, db.links, ok, inserted, maxSeq)
      decreases |events|
    {
      ghost var script, m := db.links, Now(w);
      var reply := db.InsertEvents(events);
      used := [NextLink(script)];
      if !reply.Refused? || |events| == 1 {
        AttemptSettled(db.refused, m, script, db.store, reply);
        match reply {
          case Done(n, s) => ok, inserted, maxSeq := true, n, s;
          case Broken => ok, inserted, maxSeq := false, 0, None;
          case Refused =>
            dead := dead + events;
            ok, inserted, maxSeq := true, 0, None;
        }
      } else {
        var middle := |events| / 2;
        ghost var t := db.store;
        HalvesMakeWhole(w, 0, None, 0, None);
        var n, s;
        ghost var usedLeft: seq<Link>;
        ghost var usedRight: seq<Link>;
        ok, n, s, usedLeft := WriteIsolatingBadRows(events[..middle], Split(w));
        AttemptLeft(db.refused, m, script, t, usedLeft, db.store, dead, db.links, ok, n, s);
        used := used + usedLeft;
        if !ok {
          inserted, maxSeq := 0, None;
        } else {
          ghost var tl, deadL, rest := db.store, dead, db.links;
          HalvesMakeWhole(w, n, s, 0, None);
          var n', s';
          ok, n', s', usedRight := WriteIsolatingBadRows(events[middle..], Advance(Split(w), n, s));
          AllCleanConcat([NextLink(script)], usedLeft);
          AttemptRight(db.refused, m, script, used, tl, deadL, rest, n, s, usedRight, db.store, dead, db.links, ok, n', s');
          used := used + usedRight;
          inserted, maxSeq := n + n', Larger(s, s');
        }
      }
    }

    /** Retries the whole batch until an attempt goes through; the script of failures is finite. */
    method WriteUntilSuccess(events: seq<Event>)
      returns (inserted: nat, maxSeq: Option<nat>, ghost used: seq<Link>, ghost w: Work)
      requires events != []
      modifies this`dead, db
      ensures Wrote(db.refused, old(Now(Open(db.store, dead, events))), old(db.links), used, Now(w), db.links)
      ensures w.todo == [] && w.batch == events && inserted == w.tally.inserted && maxSeq == w.tally.maxSeq
    {
      w, used := Open(db.store, dead, events), [];
      ghost var m, script := Now(w), db.links;
      var ok := false;
      inserted, maxSeq := 0, None;
      while !ok
        invariant Wrote(db.refused, m, script, used, Now(w), db.links)
        invariant w.batch == events
        invariant !ok ==> w.todo == [events] && w.tally.inserted == 0 && w.tally.maxSeq == None
        invariant ok ==> w.todo == [] && inserted == w.tally.inserted && maxSeq == w.tally.maxSeq
        decreases !ok, |db.links|
      {
        ghost var before, rest := Now(w), db.links;
        ghost var u: seq<Link>;
        ok, inserted, maxSeq, u := WriteIsolatingBadRows(events, w);
        w := if ok then Advance(w, inserted, maxSeq) else Restart(w, db.store, dead);
        WroteThen(db.refused, m, before, Now(w), script, rest, db.links, used, u);
        used := used + u;
      }
    }

    method RecordCommit(received: nat, inserted: nat, maxSeq: Option<nat>)
      modifies this`committedSeq, this`totalInserted, this`totalDuplicates, this`totalBatches
      ensures CountersState() == Writer.RecordCommit(old(CountersState()), received, inserted, maxSeq)
    {
      if maxSeq.Some? && maxSeq.value > committedSeq {
        committedSeq := maxSeq.value;
      }
      totalInserted := totalInserted + inserted;
      totalDuplicates := totalDuplicates + received - inserted;
      totalBatches := totalBatches + 1;
    }

    /** One turn of the loop with work pending: the requests whose futures complete are the
        maximal prefix, and their acceptable events are in the history exactly once afterwards,
        whatever the connection did. */
    method WriteNextBatch() returns (items: seq<Request>, ghost used: seq<Link>, ghost w: Work)
      requires pending != [] && pending[0].events != []
      modifies this, db
      ensures items == old(pending)[..BatchLength(old(pending), lim.maxBatch)]
      ensures pending == old(pending)[BatchLength(old(pending), lim.maxBatch)..]
      ensures queuedEvents == old(queuedEvents) - |EventsOf(items)|
      ensures hasWork == old(hasWork) && stopping == old(stopping)
      ensures Wrote(db.refused, old(Now(Open(db.store, dead, EventsOf(items)))), old(db.links), used, Now(w), db.links)
      ensures CountersState()
           == Writer.RecordCommit(old(CountersState()), |EventsOf(items)|, w.tally.inserted, w.tally.maxSeq)
      ensures Delivered(db.refused, old(db.store), EventsOf(items), db.store, dead)
    {
      items := TakeBatch();
      assert items[0] == old(pending)[0];
      var events := CollectEvents(items);
      var inserted, maxSeq;
      inserted, maxSeq, used, w := WriteUntilSuccess(events);
      WroteDelivers(db.refused, old(db.store), old(dead), events, old(db.links), used, db.store, w, dead, db.links);
      queuedEvents := queuedEvents - |events|;
      RecordCommit(|events|, inserted, maxSeq);
    }

    static method CollectEvents(items: seq<Request>) returns (events: seq<Event>)
      ensures events == EventsOf(items)
    {
      events := [];
      for i := 0 to |items|
        invariant events == EventsOf(items[..i])
      {
        assert items[..i + 1] == items[..i] + [items[i]];
        EventsConcat(items[..i], [items[i]]);
        assert EventsOf([items[i]]) == items[i].events + EventsOf([]);
        events := events + items[i].events;
      }
      assert items[..|items|] == items;
    }
  }
}
