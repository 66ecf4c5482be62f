/** The committed watermark, the responses that report it and the snapshots labelled with it. */
module Watermark {
  import opened Events
  import opened Tables
  import opened Bisection
  import opened Writer
  import opened ExactlyOnce

  // ---- Sequence numbers of one batch -------------------------------------------------------

  lemma {:induction false} MaxSeqIsLast(rows: seq<Row>)
    requires forall i, j :: 0 <= i < j < |rows| ==> rows[i].seqNo < rows[j].seqNo
    ensures rows == [] ==> MaxSeq(rows) == None
    ensures rows != [] ==> MaxSeq(rows) == Some(rows[|rows| - 1].seqNo)
  {
    if |rows| > 1 {
      MaxSeqIsLast(rows[1..]);
    } else if |rows| == 1 {
      assert rows[1..] == [];
    }
  }

  lemma MaxSeqFromIsLast(log: seq<Row>, nextSeq: nat, since: nat)
    requires Ordered(log, nextSeq) && since <= |log|
    ensures since == |log| ==> MaxSeqFrom(log, since) == None
    ensures since < |log| ==> MaxSeqFrom(log, since) == Some(log[|log| - 1].seqNo)
  {
    MaxSeqIsLast(log[since..]);
  }

  /** Rows `lo..hi` of the log are at or below the watermark. */
  ghost predicate CoveredUpTo(log: seq<Row>, lo: nat, hi: nat, seqNo: nat) {
    forall i :: lo <= i < hi && i < |log| ==> log[i].seqNo <= seqNo
  }

  /** No failed attempt stored rows, or the last attempt stored some. */
  predicate Whole(m: Machine) {
    m.work.tally.logOpened == m.work.tally.logSince || m.work.tally.logSince < |m.store.log|
  }

  lemma TallyCovers(log: seq<Row>, nextSeq: nat, y: Tally, c: Counters, received: nat)
    requires Ordered(log, nextSeq) && LogCounts(log, y)
    requires forall i :: y.logOpened <= i < |log| ==> c.committedSeq < log[i].seqNo
    ensures CoveredUpTo(log, y.logOpened, |log|, RecordCommit(c, received, y.inserted, y.maxSeq).committedSeq)
            <==> y.logOpened == y.logSince || y.logSince < |log|
  {
    MaxSeqFromIsLast(log, nextSeq, y.logSince);
    hide MaxSeqFrom;
    if y.logOpened < |log| {
      assert c.committedSeq < log[|log| - 1].seqNo;
    }
  }

  // ---- When the watermark covers a batch, in terms of its failures -----------------------------

  /** How many rows were stored by attempts that failed later: what an attempt had inserted when one of
      its statements failed, and what that statement itself stored. */
  function FailedRows(refused: Filter, m: Machine, links: seq<Link>): int
    decreases |links|
  {
    if links == [] || m.work.todo == [] then 0
    else
      var m' := Statement(refused, m, links[0]);
      FailedRows(refused, m', links[1..])
      + if links[0].kind.Clean? then 0 else m.work.tally.inserted + |m'.store.log| - |m.store.log|
  }

  /** A statement succeeds, or fails in an attempt that has stored nothing. */
  predicate Harmless(refused: Filter, m: Machine, link: Link)
    requires m.work.todo != []
  {
    link.kind.Clean? || (m.work.tally.inserted == 0 && |Statement(refused, m, link).store.log| == |m.store.log|)
  }

  predicate AllHarmless(refused: Filter, m: Machine, links: seq<Link>)
    decreases |links|
  {
    links == [] || m.work.todo == [] ||
    (Harmless(refused, m, links[0]) && AllHarmless(refused, Statement(refused, m, links[0]), links[1..]))
  }

  /** Which failures are harmless: those in an attempt that has stored nothing, whose request was lost, or
      whose rows the database refuses, or whose keys it all knew. */
  lemma HarmlessExactly(refused: Filter, m: Machine, link: Link)
    requires m.work.todo != [] && Sound(m.store) && Timely(m.store, m.work.todo[0])
    ensures Harmless(refused, m, link) <==>
            || link.kind.Clean?
            || (m.work.tally.inserted == 0
                && (|| link.kind.LostRequest?
                    || !AllAccepted(refused, m.work.todo[0])
                    || News(Keys(Contents(m.store.log)), m.work.todo[0]) == []))
  {
    var t := m.store.(nextSeq := m.store.nextSeq + link.burn);
    if !link.kind.LostRequest? && AllAccepted(refused, m.work.todo[0]) {
      assert Sound(t) && Timely(t, m.work.todo[0]);
      InsertBatchSound(t, m.work.todo[0]);
      var t' := InsertBatch(t, m.work.todo[0]);
      CommittedStep(refused, m, link, t');
      assert |t'.log| == |Contents(t'.log)| && |t.log| == |Contents(t.log)|;
    } else {
      IneffectiveStep(refused, m, link, t);
    }
    hide Statement, InsertBatch, Sound, Timely, News, Keys, AllAccepted, Advance, Split, MaxSeq;
  }

  lemma {:induction false} FailedRowsAreHarm(refused: Filter, m: Machine, links: seq<Link>)
    ensures FailedRows(refused, m, links) >= 0
    ensures FailedRows(refused, m, links) == 0 <==> AllHarmless(refused, m, links)
    decreases |links|
  {
    if links != [] && m.work.todo != [] {
      StatementFrame(refused, m, links[0]);
      hide Statement;
      FailedRowsAreHarm(refused, Statement(refused, m, links[0]), links[1..]);
    }
  }

  /** One statement moves the start of the attempt past what the failed attempt stored. */
  lemma StatementSince(refused: Filter, m: Machine, link: Link)
    requires m.work.todo != [] && m.work.tally.inserted == |m.store.log| - m.work.tally.logSince
    ensures var m' := Statement(refused, m, link);
            && m'.work.tally.logOpened == m.work.tally.logOpened
            && m'.work.tally.logSince == m.work.tally.logSince
               + if link.kind.Clean? then 0 else m.work.tally.inserted + |m'.store.log| - |m.store.log|
  {
    hide InsertBatch, MaxSeq, AllAccepted;
  }

  lemma {:induction false} DriveSince(refused: Filter, base: seq<Event>, m: Machine, links: seq<Link>)
    requires WorkInv(refused, base, m) && Timely(m.store, m.work.batch)
    ensures var m' := Drive(refused, m, links);
            && m'.work.tally.logOpened == m.work.tally.logOpened
            && m'.work.tally.logSince == m.work.tally.logSince + FailedRows(refused, m, links)
    decreases |links|
  {
    if links != [] && m.work.todo != [] {
      StatementKeeps(refused, base, m, links[0]);
      StatementFrame(refused, m, links[0]);
      assert LogCounts(m.store.log, m.work.tally);
      StatementSince(refused, m, links[0]);
      hide WorkInv, Statement, LogCounts;
      DriveSince(refused, base, Statement(refused, m, links[0]), links[1..]);
    }
  }

  lemma {:induction false} DriveAppends(refused: Filter, m: Machine, links: seq<Link>)
    ensures var t, t' := m.store, Drive(refused, m, links).store;
            && t.log <= t'.log && t.nextSeq <= t'.nextSeq
            && forall i :: |t.log| <= i < |t'.log| ==> t.nextSeq <= t'.log[i].seqNo
    decreases |links|
  {
    if links != [] && m.work.todo != [] {
      StatementAppends(refused, m, links[0]);
      hide Statement;
      var m1 := Statement(refused, m, links[0]);
      DriveAppends(refused, m1, links[1..]);
      var log, log' := m1.store.log, Drive(refused, m1, links[1..]).store.log;
      assert forall i :: 0 <= i < |log| ==> log'[i] == log[i];
    }
  }

  /** The same in terms of how the last attempt went: its rows all lie at or below the recorded sequence
      number if and only if no failed attempt had stored a row, or the last one inserted some itself. */
  lemma CoveredByLastAttempt(
    refused: Filter, store: Store, dead: seq<Event>, batch: seq<Event>, links: seq<Link>, c: Counters)
    requires Sound(store) && batch != [] && Timely(store, batch) && c.committedSeq < store.nextSeq
    requires Drive(refused, Machine(store, Open(store, dead, batch), dead), links).work.todo == []
    ensures var m0 := Machine(store, Open(store, dead, batch), dead);
            var m := Drive(refused, m0, links);
            var c' := RecordCommit(c, |batch|, m.work.tally.inserted, m.work.tally.maxSeq);
            && (CoveredUpTo(m.store.log, |store.log|, |m.store.log|, c'.committedSeq)
                <==> FailedRows(refused, m0, links) == 0 || m.work.tally.inserted > 0)
            && m.work.tally.inserted == |m.store.log| - |store.log| - FailedRows(refused, m0, links)
  {
    var m0 := Machine(store, Open(store, dead, batch), dead);
    var m := Drive(refused, m0, links);
    OpenInv(refused, store, dead, batch);
    DriveKeeps(refused, Contents(store.log), m0, links);
    DriveSince(refused, Contents(store.log), m0, links);
    DriveAppends(refused, m0, links);
    assert Ordered(m.store.log, m.store.nextSeq) && LogCounts(m.store.log, m.work.tally);
    hide WorkInv, Sound, Drive, FailedRows, Ordered, RecordCommit, CoveredUpTo, MaxSeqFrom;
    TallyCovers(m.store.log, m.store.nextSeq, m.work.tally, c, |batch|);
  }

  /** Exactly when the watermark covers a batch, for every script of failures that ends with the batch
      written: its rows all lie at or below the recorded sequence number if and only if the failed
      attempts stored no row, or fewer rows than the batch has acceptable events with new keys. */
  lemma WatermarkCoversExactly(
    refused: Filter, store: Store, dead: seq<Event>, batch: seq<Event>, links: seq<Link>, c: Counters)
    requires Sound(store) && batch != [] && Timely(store, batch) && c.committedSeq < store.nextSeq
    requires Drive(refused, Machine(store, Open(store, dead, batch), dead), links).work.todo == []
    ensures var m0 := Machine(store, Open(store, dead, batch), dead);
            var m := Drive(refused, m0, links);
            var c' := RecordCommit(c, |batch|, m.work.tally.inserted, m.work.tally.maxSeq);
            CoveredUpTo(m.store.log, |store.log|, |m.store.log|, c'.committedSeq)
            <==> FailedRows(refused, m0, links) == 0
                 || FailedRows(refused, m0, links) < |News(Keys(Contents(store.log)), Good(refused, batch))|
  {
    CoveredByLastAttempt(refused, store, dead, batch, links, c);
    BatchExactlyOnce(refused, store, dead, batch, links);
    var log := Drive(refused, Machine(store, Open(store, dead, batch), dead), links).store.log;
    assert |Contents(log)| == |log| && |Contents(store.log)| == |store.log|;
    hide Sound, Drive, FailedRows, RecordCommit, CoveredUpTo, News, Good, AttemptDead, Bad;
  }

  /** A concrete batch that is not covered: its one statement loses the reply, and the replay finds
      nothing to insert, so the row is stored but the watermark still reads zero. */
  lemma LostReplyLags(e: Event)
    ensures var refused: Filter := x => false;
            var m0 := Machine(Empty(), Open(Empty(), [], [e]), []);
            var m := Drive(refused, m0, [Link(LostReply, 0), Link(Clean, 0)]);
            && m.work.todo == [] && m.store.log == [Row(1, e, Default)] && m.work.tally.maxSeq == None
            && RecordCommit(Counters(0, 0, 0, 0), 1, m.work.tally.inserted, m.work.tally.maxSeq).committedSeq == 0
  {
    var refused: Filter := x => false;
    var t0 := Empty();
    var row := Row(1, e, Default);
    assert Inserted([], {}, 1, [e]) == [row] by {
      assert [e][1..] == [];
      assert Inserted([] + [row], {}, 2, [e][1..]) == [];
    }
    var t1 := InsertBatch(t0, [e]);
    assert t1.log == [row] && t1.rows == [row] && t1.partitions == {} && t1.nextSeq == 2;
    assert row in t1.rows && Conflicts(t1.rows, KeyOf(e), Default);
    assert Inserted([row], {}, 2, [e]) == [] by {
      assert [e][1..] == [];
    }
    var t2 := InsertBatch(t1, [e]);
    assert t2.log == [row] + [] == [row];
    var m0 := Machine(t0, Open(t0, [], [e]), []);
    CommittedStep(refused, m0, Link(LostReply, 0), t1);
    var m1 := Statement(refused, m0, Link(LostReply, 0));
    CommittedStep(refused, m1, Link(Clean, 0), t2);
    var m2 := Statement(refused, m1, Link(Clean, 0));
    assert t2.log[|t1.log|..] == [];
    assert Drive(refused, m2, []) == m2;
    assert [Link(LostReply, 0), Link(Clean, 0)][1..] == [Link(Clean, 0)];
    assert [Link(Clean, 0)][1..] == [];
    hide Statement, InsertBatch;
    assert Drive(refused, m1, [Link(Clean, 0)]) == m2;
  }

  // ---- Over runs --------------------------------------------------------------------------

  /** Rows up to here belong to completed batches. */
  function SettledLength(s: State): nat {
    if s.phase.Writing? then s.machine.work.tally.logOpened else |s.machine.store.log|
  }

  /** The watermark was given out by the sequence; rows of the batch in flight lie above it. */
  ghost predicate AheadInv(s: State) {
    && s.counters.committedSeq < s.machine.store.nextSeq
    && (s.phase.Writing? ==>
        s.machine.work.tally.logOpened <= |s.machine.store.log|
        && forall i :: s.machine.work.tally.logOpened <= i < |s.machine.store.log|
             ==> s.counters.committedSeq < s.machine.store.log[i].seqNo)
  }

  /** The row of a key is known from before the start, or lies at or below `through`. */
  ghost predicate Visible(s: State, key: Key, through: nat) {
    exists i :: 0 <= i < |s.machine.store.log| && KeyOf(s.machine.store.log[i].event) == key
             && (i < |s.started| || s.machine.store.log[i].seqNo <= through)
  }

  ghost predicate ReceiptInv(refused: Filter, s: State) {
    && (!s.phase.TimedOut? ==>
        CoveredUpTo(s.machine.store.log, |s.started|, SettledLength(s), s.counters.committedSeq))
    && (forall i, e :: 0 <= i < |s.receipts| && e in s.receipts[i].request.events && !refused(e)
          ==> Visible(s, KeyOf(e), s.receipts[i].through))
  }

  lemma StatementAppends(refused: Filter, m: Machine, link: Link)
    requires m.work.todo != []
    ensures var m' := Statement(refused, m, link);
            && m.store.log <= m'.store.log && m.store.nextSeq <= m'.store.nextSeq
            && m'.work.tally.logOpened == m.work.tally.logOpened
            && forall i :: |m.store.log| <= i < |m'.store.log| ==> m.store.nextSeq <= m'.store.log[i].seqNo
  {
    var t := m.store.(nextSeq := m.store.nextSeq + link.burn);
    if !link.kind.LostRequest? && AllAccepted(refused, m.work.todo[0]) {
      var t' := InsertBatch(t, m.work.todo[0]);
      InsertAppends(t, m.work.todo[0]);
      CommittedStep(refused, m, link, t');
    } else {
      IneffectiveStep(refused, m, link, t);
    }
    hide Statement, InsertBatch, MaxSeq, AllAccepted;
  }

  lemma InsertAppends(t: Store, chunk: seq<Event>)
    ensures var t' := InsertBatch(t, chunk);
            && t.log <= t'.log && t.nextSeq <= t'.nextSeq
            && forall i :: |t.log| <= i < |t'.log| ==> t.nextSeq <= t'.log[i].seqNo
  {
    InsertedShape(t.rows, t.partitions, t.nextSeq, chunk);
    hide Inserted;
  }

  /** The watermark stays below every row that is still to come, whatever fails. */
  lemma StepKeepsAhead(refused: Filter, lim: Limits, s: State, a: Action)
    requires Inv(refused, lim, s) && Enabled(s, a) && AheadInv(s)
    ensures AheadInv(Step(refused, lim, s, a))
  {
    hide QueueInv, FifoInv, AwakeInv, DeadInv;
    match a
    case DoStatement(link) =>
      StatementAppends(refused, s.machine, link);
      hide Sound, WorkInv, Statement, Expected;
    case DoFinish =>
      CompleteStaysBelow(refused, s);
      hide Sound, WorkInv, Expected, EventsOf;
    case _ =>
      hide Sound, WorkInv, Expected, EventsOf;
  }

  lemma CompleteStaysBelow(refused: Filter, s: State)
    requires DataInv(refused, s) && AheadInv(s) && s.phase.Writing?
    ensures Complete(s).counters.committedSeq < s.machine.store.nextSeq
  {
    var m := s.machine;
    assert Ordered(m.store.log, m.store.nextSeq) && LogCounts(m.store.log, m.work.tally);
    hide Sound, WorkInv, Expected;
    MaxSeqFromIsLast(m.store.log, m.store.nextSeq, m.work.tally.logSince);
    hide Ordered, MaxSeqFrom;
    if m.work.tally.logSince < |m.store.log| {
      LastBelowNext(m.store.log, m.store.nextSeq);
    }
  }

  lemma LastBelowNext(log: seq<Row>, nextSeq: nat)
    requires Ordered(log, nextSeq) && log != []
    ensures log[|log| - 1].seqNo < nextSeq
  {
  }

  lemma VisibleStays(s: State, s': State, key: Key, through: nat)
    requires Visible(s, key, through)
    requires s.machine.store.log <= s'.machine.store.log && s'.started == s.started
    ensures Visible(s', key, through)
  {
    var log, log' := s.machine.store.log, s'.machine.store.log;
    var i :| 0 <= i < |log| && KeyOf(log[i].event) == key && (i < |s.started| || log[i].seqNo <= through);
    assert log'[i] == log[i];
  }

  /** Steps that complete nothing keep the receipts true. */
  lemma QuietStepKeepsReceipts(refused: Filter, s: State, s': State)
    requires ReceiptInv(refused, s)
    requires s.machine.store.log <= s'.machine.store.log
    requires s'.started == s.started && s'.receipts == s.receipts && s'.counters == s.counters
    requires !s'.phase.TimedOut? ==> !s.phase.TimedOut? && SettledLength(s') == SettledLength(s) <= |s.machine.store.log|
    ensures ReceiptInv(refused, s')
  {
    forall i, e | 0 <= i < |s'.receipts| && e in s'.receipts[i].request.events && !refused(e)
      ensures Visible(s', KeyOf(e), s'.receipts[i].through)
    {
      VisibleStays(s, s', KeyOf(e), s.receipts[i].through);
    }
    hide Visible;
  }

  lemma CoverageJoins(log: seq<Row>, lo: nat, mid: nat, before: nat, now: nat)
    requires CoveredUpTo(log, lo, mid, before) && before <= now && mid <= |log|
    requires CoveredUpTo(log, mid, |log|, now)
    ensures CoveredUpTo(log, lo, |log|, now)
  {
  }

  /** A stored event of a covered log is visible at the watermark. */
  lemma StoredIsVisible(s: State, key: Key, through: nat)
    requires CoveredUpTo(s.machine.store.log, |s.started|, |s.machine.store.log|, through)
    requires key in Keys(Contents(s.machine.store.log))
    ensures Visible(s, key, through)
  {
    var log := s.machine.store.log;
    var e :| e in Contents(log) && KeyOf(e) == key;
    var i :| 0 <= i < |log| && Contents(log)[i] == e;
    assert log[i].event == e;
  }

  lemma CompleteKeepsReceipts(refused: Filter, lim: Limits, s: State)
    requires Inv(refused, lim, s) && AheadInv(s) && ReceiptInv(refused, s)
    requires s.phase.Writing? && s.machine.work.todo == [] && Whole(s.machine)
    ensures ReceiptInv(refused, Complete(s))
  {
    var c, log := Complete(s), s.machine.store.log;
    var through := c.counters.committedSeq;
    assert Ordered(log, s.machine.store.nextSeq) && LogCounts(log, s.machine.work.tally);
    TallyCovers(log, s.machine.store.nextSeq, s.machine.work.tally, s.counters, |s.machine.work.batch|);
    CoverageJoins(log, |s.started|, s.machine.work.tally.logOpened, s.counters.committedSeq, through);
    CompleteKeepsQueue(lim, s);
    CompleteKeepsData(refused, lim, s);
    hide CoveredUpTo, Visible, WorkInv, Expected, Sound, RecordCommit, QueueInv, FifoInv, AwakeInv;
    forall i, e | 0 <= i < |c.receipts| && e in c.receipts[i].request.events && !refused(e)
      ensures Visible(c, KeyOf(e), c.receipts[i].through)
    {
      if i < |s.receipts| {
        VisibleStays(s, c, KeyOf(e), s.receipts[i].through);
      } else {
        InCompleted(c, i, e);
        ExpectedKeys(refused, c.started, Completed(c), e);
        StoredIsVisible(c, KeyOf(e), through);
      }
    }
  }

  /** No attempt at the batch in flight has stored rows and then failed. */
  ghost predicate Unspoilt(s: State) {
    s.phase.Writing? ==> s.machine.work.tally.logOpened == s.machine.work.tally.logSince
  }

  /** If the step is a statement that fails, its attempt has stored nothing. */
  predicate Gentle(refused: Filter, s: State, a: Action) {
    a.DoStatement? && s.machine.work.todo != [] ==> Harmless(refused, s.machine, a.link)
  }

  ghost predicate SeqInv(refused: Filter, lim: Limits, s: State) {
    Inv(refused, lim, s) && AheadInv(s) && ReceiptInv(refused, s) && Unspoilt(s)
  }

  lemma StepKeepsUnspoilt(refused: Filter, lim: Limits, s: State, a: Action)
    requires Inv(refused, lim, s) && Unspoilt(s) && Enabled(s, a) && Gentle(refused, s, a)
    ensures Unspoilt(Step(refused, lim, s, a))
  {
    if a.DoStatement? {
      assert LogCounts(s.machine.store.log, s.machine.work.tally);
      StatementSince(refused, s.machine, a.link);
    }
    hide Inv, Statement, EventsOf, BatchLength;
  }

  lemma SettledBound(refused: Filter, lim: Limits, s: State)
    requires Inv(refused, lim, s)
    ensures SettledLength(s) <= |s.machine.store.log|
  {
    hide Sound, Expected;
  }

  lemma StepKeepsReceipts(refused: Filter, lim: Limits, s: State, a: Action)
    requires SeqInv(refused, lim, s) && Enabled(s, a)
    ensures ReceiptInv(refused, Step(refused, lim, s, a))
  {
    SettledBound(refused, lim, s);
    hide Inv, AheadInv, ReceiptInv, Sound, EventsOf;
    match a
    case DoStatement(link) =>
      StatementAppends(refused, s.machine, link);
      hide Statement;
      QuietStepKeepsReceipts(refused, s, Step(refused, lim, s, a));
    case DoFinish =>
      CompleteKeepsReceipts(refused, lim, s);
      QuietStepKeepsReceipts(refused, Complete(s), Top(lim, Complete(s)));
    case _ =>
      QuietStepKeepsReceipts(refused, s, Step(refused, lim, s, a));
  }

  /** Receipts stay true as long as no attempt fails after it has stored rows. */
  lemma StepKeepsSeq(refused: Filter, lim: Limits, s: State, a: Action)
    requires SeqInv(refused, lim, s) && Enabled(s, a) && OnTime(s, a) && Gentle(refused, s, a)
    ensures SeqInv(refused, lim, Step(refused, lim, s, a))
  {
    StepKeepsInv(refused, lim, s, a);
    StepKeepsAhead(refused, lim, s, a);
    StepKeepsReceipts(refused, lim, s, a);
    StepKeepsUnspoilt(refused, lim, s, a);
    hide Inv, AheadInv, ReceiptInv, Unspoilt, Step, Enabled, OnTime, Gentle;
  }

  lemma InitialSeq(refused: Filter, lim: Limits, store: Store)
    requires Sound(store)
    ensures SeqInv(refused, lim, Initial(store))
  {
    InitialInv(refused, lim, store);
    hide Inv;
  }
}
