/** Snapshots pushed to the dashboards, built beside the running writer. Several builds may be in
    flight: the broadcaster loop's and the ones the REST endpoint starts. */
module Snapshots {
  import opened Events
  import opened Rollup
  import opened Tables
  import opened Bisection
  import opened Writer
  import opened ExactlyOnce
  import opened Watermark
  import WP = WriterPromises

  /** `mark` is history: how many rows had been inserted when the watermark was read. */
  datatype Build = Build(through: nat, mark: nat)

  /** `view` is history: all rows inserted when the read transaction began. */
  datatype Snapshot = Snapshot(through: nat, minute: Table, horizon: Horizon, view: seq<Row>)

  datatype Pipeline = Pipeline(writer: State, builds: seq<Build>, snapshots: seq<Snapshot>)

  datatype Move = WriterStep(action: Action) | BeginBuild | QueryBuild(index: nat)

  ghost predicate PipelineEnabled(p: Pipeline, x: Move) {
    match x
    case WriterStep(a) => Enabled(p.writer, a) && OnTime(p.writer, a)
    case BeginBuild => true
    case QueryBuild(i) => i < |p.builds|
  }

  /** `broadcast_once`: read the watermark first, then query. A build stays listed once it has
      been queried, which only allows more runs. */
  function PipelineStep(refused: Filter, lim: Limits, p: Pipeline, x: Move): Pipeline {
    match x
    case WriterStep(a) => p.(writer := Step(refused, lim, p.writer, a))
    case BeginBuild =>
      p.(builds := p.builds + [Build(p.writer.counters.committedSeq, |p.writer.machine.store.log|)])
    case QueryBuild(i) =>
      if i >= |p.builds| then p
      else
        var t := p.writer.machine.store;
        p.(snapshots := p.snapshots + [Snapshot(p.builds[i].through, t.minute, t.minuteHorizon, t.log)])
  }

  /** Rows from `mark` on lie above `through`, and the initial rows lie before `mark`. */
  ghost predicate Above(s: State, through: nat, mark: nat) {
    && |s.started| <= mark <= |s.machine.store.log|
    && through < s.machine.store.nextSeq
    && forall i :: mark <= i < |s.machine.store.log| ==> through < s.machine.store.log[i].seqNo
  }

  ghost predicate SnapshotOk(s: State, sn: Snapshot) {
    && sn.view <= s.machine.store.log
    && Above(s, sn.through, |sn.view|)
    && Agrees(sn.minute, Minute, Contents(sn.view), sn.horizon)
  }

  ghost predicate PipelineInv(refused: Filter, lim: Limits, p: Pipeline) {
    && Inv(refused, lim, p.writer) && AheadInv(p.writer)
    && (forall i :: 0 <= i < |p.builds| ==> Above(p.writer, p.builds[i].through, p.builds[i].mark))
    && (forall i :: 0 <= i < |p.snapshots| ==> SnapshotOk(p.writer, p.snapshots[i]))
  }

  /** The log only grows, and only above the sequence values already given out. */
  ghost predicate Appends(s: State, s': State) {
    var t, t' := s.machine.store, s'.machine.store;
    && s'.started == s.started
    && t.log <= t'.log && t.nextSeq <= t'.nextSeq
    && forall i :: |t.log| <= i < |t'.log| ==> t.nextSeq <= t'.log[i].seqNo
  }

  lemma StepAppends(refused: Filter, lim: Limits, s: State, a: Action)
    requires Enabled(s, a)
    ensures Appends(s, Step(refused, lim, s, a))
  {
    if a.DoStatement? {
      StatementAppends(refused, s.machine, a.link);
      hide Statement;
    }
    hide Sound, EventsOf, RecordCommit;
  }

  lemma AboveStays(s: State, s': State, through: nat, mark: nat)
    requires Above(s, through, mark) && Appends(s, s')
    ensures Above(s', through, mark)
  {
    var log, log' := s.machine.store.log, s'.machine.store.log;
    forall i | mark <= i < |log'| ensures through < log'[i].seqNo {
      if i < |log| {
        assert log'[i] == log[i];
      }
    }
  }

  lemma ViewsStay(p: Pipeline, s': State)
    requires Appends(p.writer, s')
    requires forall i :: 0 <= i < |p.builds| ==> Above(p.writer, p.builds[i].through, p.builds[i].mark)
    requires forall i :: 0 <= i < |p.snapshots| ==> SnapshotOk(p.writer, p.snapshots[i])
    ensures forall i :: 0 <= i < |p.builds| ==> Above(s', p.builds[i].through, p.builds[i].mark)
    ensures forall i :: 0 <= i < |p.snapshots| ==> SnapshotOk(s', p.snapshots[i])
  {
    hide Above, Agrees;
    forall i | 0 <= i < |p.builds| ensures Above(s', p.builds[i].through, p.builds[i].mark) {
      AboveStays(p.writer, s', p.builds[i].through, p.builds[i].mark);
    }
    forall i | 0 <= i < |p.snapshots| ensures SnapshotOk(s', p.snapshots[i]) {
      AboveStays(p.writer, s', p.snapshots[i].through, |p.snapshots[i].view|);
    }
  }

  lemma WriterStepKeeps(refused: Filter, lim: Limits, p: Pipeline, a: Action)
    requires PipelineInv(refused, lim, p) && Enabled(p.writer, a) && OnTime(p.writer, a)
    ensures PipelineInv(refused, lim, p.(writer := Step(refused, lim, p.writer, a)))
  {
    StepKeepsInv(refused, lim, p.writer, a);
    StepKeepsAhead(refused, lim, p.writer, a);
    StepAppends(refused, lim, p.writer, a);
    hide Inv, AheadInv, Enabled, OnTime, Step, Above, SnapshotOk, Appends;
    ViewsStay(p, Step(refused, lim, p.writer, a));
  }

  lemma BeginKeeps(refused: Filter, lim: Limits, p: Pipeline)
    requires PipelineInv(refused, lim, p)
    ensures PipelineInv(refused, lim, PipelineStep(refused, lim, p, BeginBuild))
  {
    BeginIsAbove(refused, lim, p.writer);
    hide Inv, AheadInv, Above, SnapshotOk;
  }

  lemma QueryKeeps(refused: Filter, lim: Limits, p: Pipeline, i: nat)
    requires PipelineInv(refused, lim, p) && i < |p.builds|
    ensures PipelineInv(refused, lim, PipelineStep(refused, lim, p, QueryBuild(i)))
  {
    QueryIsOk(refused, lim, p.writer, p.builds[i]);
    hide Inv, AheadInv, Above, SnapshotOk;
  }

  lemma PipelineStepKeeps(refused: Filter, lim: Limits, p: Pipeline, x: Move)
    requires PipelineInv(refused, lim, p) && PipelineEnabled(p, x)
    ensures PipelineInv(refused, lim, PipelineStep(refused, lim, p, x))
  {
    hide PipelineInv;
    match x
    case WriterStep(a) => WriterStepKeeps(refused, lim, p, a);
    case BeginBuild => BeginKeeps(refused, lim, p);
    case QueryBuild(i) => QueryKeeps(refused, lim, p, i);
  }

  lemma BeginIsAbove(refused: Filter, lim: Limits, s: State)
    requires Inv(refused, lim, s) && AheadInv(s)
    ensures Above(s, s.counters.committedSeq, |s.machine.store.log|)
  {
    hide Sound, WorkInv, Expected, QueueInv, FifoInv;
  }

  lemma QueryIsOk(refused: Filter, lim: Limits, s: State, b: Build)
    requires Inv(refused, lim, s) && Above(s, b.through, b.mark)
    ensures var t := s.machine.store; SnapshotOk(s, Snapshot(b.through, t.minute, t.minuteHorizon, t.log))
  {
    assert Sound(s.machine.store) by {
      hide Expected, WorkShape, LogCounts, DeadCounts, Absorbed;
    }
    hide Inv, Agrees;
  }

  // ---- Runs --------------------------------------------------------------------------------

  function PipelineRun(refused: Filter, lim: Limits, p: Pipeline, xs: seq<Move>): Pipeline
    decreases |xs|
  {
    if xs == [] then p else PipelineRun(refused, lim, PipelineStep(refused, lim, p, xs[0]), xs[1..])
  }

  ghost predicate PipelineLegal(refused: Filter, lim: Limits, p: Pipeline, xs: seq<Move>)
    decreases |xs|
  {
    xs != [] ==>
      PipelineEnabled(p, xs[0]) && PipelineLegal(refused, lim, PipelineStep(refused, lim, p, xs[0]), xs[1..])
  }

  lemma {:induction false} PipelineRunKeeps(refused: Filter, lim: Limits, p: Pipeline, xs: seq<Move>)
    requires PipelineInv(refused, lim, p) && PipelineLegal(refused, lim, p, xs)
    ensures PipelineInv(refused, lim, PipelineRun(refused, lim, p, xs))
    decreases |xs|
  {
    if xs != [] {
      PipelineStepKeeps(refused, lim, p, xs[0]);
      hide PipelineInv, PipelineEnabled, PipelineStep;
      PipelineRunKeeps(refused, lim, PipelineStep(refused, lim, p, xs[0]), xs[1..]);
    }
  }

  /** The failures of a run happen before their attempt has stored a row. */
  ghost predicate GentleRun(refused: Filter, lim: Limits, p: Pipeline, xs: seq<Move>)
    decreases |xs|
  {
    xs != [] ==>
      && (xs[0].WriterStep? ==> Gentle(refused, p.writer, xs[0].action))
      && GentleRun(refused, lim, PipelineStep(refused, lim, p, xs[0]), xs[1..])
  }

  lemma {:induction false} GentleRunKeepsReceipts(refused: Filter, lim: Limits, p: Pipeline, xs: seq<Move>)
    requires SeqInv(refused, lim, p.writer) && PipelineLegal(refused, lim, p, xs) && GentleRun(refused, lim, p, xs)
    ensures SeqInv(refused, lim, PipelineRun(refused, lim, p, xs).writer)
    decreases |xs|
  {
    if xs != [] {
      if xs[0].WriterStep? {
        StepKeepsSeq(refused, lim, p.writer, xs[0].action);
      }
      hide SeqInv, Enabled, OnTime, Gentle, Step;
      GentleRunKeepsReceipts(refused, lim, PipelineStep(refused, lim, p, xs[0]), xs[1..]);
    }
  }

  /** Watermark safety of snapshots, whatever fails, in every run whose statements retention has not
      overtaken: a snapshot labelled `through` shows every row with a sequence number up to `through`,
      now and for ever after, and its minute table is the recompute over the rows it shows. */
  lemma SnapshotsShowTheirWatermark(refused: Filter, lim: Limits, store: Store, xs: seq<Move>, k: nat)
    requires Sound(store)
    requires PipelineLegal(refused, lim, Pipeline(Initial(store), [], []), xs)
    requires k < |PipelineRun(refused, lim, Pipeline(Initial(store), [], []), xs).snapshots|
    ensures var p := PipelineRun(refused, lim, Pipeline(Initial(store), [], []), xs);
            var sn, log := p.snapshots[k], p.writer.machine.store.log;
            && sn.view <= log
            && (forall i :: 0 <= i < |log| && log[i].seqNo <= sn.through ==> i < |sn.view|)
            && Agrees(sn.minute, Minute, Contents(sn.view), sn.horizon)
  {
    var p0 := Pipeline(Initial(store), [], []);
    InitialSeq(refused, lim, store);
    PipelineRunKeeps(refused, lim, p0, xs);
    var p := PipelineRun(refused, lim, p0, xs);
    assert SnapshotOk(p.writer, p.snapshots[k]);
    hide PipelineInv, PipelineRun, PipelineLegal, SnapshotOk;
    ViewIsComplete(p.writer, p.snapshots[k]);
  }

  /** Watermark safety of responses: if moreover no attempt fails after it has stored rows, a snapshot
      labelled at or above the number a response reported includes every acceptable event of that
      request. */
  lemma ReportedEventsAreInSnapshots(
    refused: Filter, lim: Limits, store: Store, xs: seq<Move>, k: nat, r: nat, e: Event)
    requires Sound(store)
    requires PipelineLegal(refused, lim, Pipeline(Initial(store), [], []), xs)
    requires GentleRun(refused, lim, Pipeline(Initial(store), [], []), xs)
    requires k < |PipelineRun(refused, lim, Pipeline(Initial(store), [], []), xs).snapshots|
    requires r < |PipelineRun(refused, lim, Pipeline(Initial(store), [], []), xs).writer.receipts|
    ensures var p := PipelineRun(refused, lim, Pipeline(Initial(store), [], []), xs);
            var sn, receipt := p.snapshots[k], p.writer.receipts[r];
            receipt.through <= sn.through && e in receipt.request.events && !refused(e) ==>
              KeyOf(e) in Keys(Contents(sn.view))
  {
    var p0 := Pipeline(Initial(store), [], []);
    InitialSeq(refused, lim, store);
    PipelineRunKeeps(refused, lim, p0, xs);
    GentleRunKeepsReceipts(refused, lim, p0, xs);
    var p := PipelineRun(refused, lim, p0, xs);
    var sn, receipt := p.snapshots[k], p.writer.receipts[r];
    assert SnapshotOk(p.writer, sn) && ReceiptInv(refused, p.writer);
    hide PipelineInv, PipelineRun, PipelineLegal, GentleRun, SnapshotOk, ReceiptInv;
    if receipt.through <= sn.through && e in receipt.request.events && !refused(e) {
      ReceiptSays(refused, p.writer, r, e);
      VisibleInView(p.writer, sn, KeyOf(e), receipt.through);
    }
  }

  lemma {:induction false} PipelineConcat(refused: Filter, lim: Limits, p: Pipeline, a: seq<Move>, b: seq<Move>)
    ensures PipelineRun(refused, lim, p, a + b) == PipelineRun(refused, lim, PipelineRun(refused, lim, p, a), b)
    ensures PipelineLegal(refused, lim, p, a + b) <==>
              PipelineLegal(refused, lim, p, a) && PipelineLegal(refused, lim, PipelineRun(refused, lim, p, a), b)
    decreases |a|
  {
    if a == [] {
      assert a + b == b;
    } else {
      assert (a + b)[0] == a[0] && (a + b)[1..] == a[1..] + b;
      hide PipelineStep, PipelineEnabled;
      PipelineConcat(refused, lim, PipelineStep(refused, lim, p, a[0]), a[1..], b);
    }
  }

  /** Builds and receipts are only appended. */
  lemma {:induction false} PipelineGrows(refused: Filter, lim: Limits, p: Pipeline, xs: seq<Move>)
    ensures var p' := PipelineRun(refused, lim, p, xs);
            p.builds <= p'.builds && p.writer.receipts <= p'.writer.receipts
    decreases |xs|
  {
    if xs != [] {
      var p' := PipelineStep(refused, lim, p, xs[0]);
      assert p.builds <= p'.builds && p.writer.receipts <= p'.writer.receipts by {
        hide Statement, EventsOf, BatchLength;
      }
      hide PipelineStep;
      PipelineGrows(refused, lim, p', xs[1..]);
    }
  }

  ghost predicate MarkedInv(refused: Filter, lim: Limits, s: State) {
    Inv(refused, lim, s) && AheadInv(s) && WP.MarkInv(s) && WP.OpenedInv(s)
  }

  lemma {:induction false} PipelineKeepsMark(refused: Filter, lim: Limits, p: Pipeline, xs: seq<Move>)
    requires MarkedInv(refused, lim, p.writer) && PipelineLegal(refused, lim, p, xs)
    ensures MarkedInv(refused, lim, PipelineRun(refused, lim, p, xs).writer)
    decreases |xs|
  {
    if xs != [] {
      var s := p.writer;
      if xs[0].WriterStep? {
        StepKeepsInv(refused, lim, s, xs[0].action);
        StepKeepsAhead(refused, lim, s, xs[0].action);
        WP.StepKeepsMark(refused, lim, s, xs[0].action);
        WP.StepKeepsOpened(refused, lim, s, xs[0].action);
      }
      hide Inv, AheadInv, WP.MarkInv, WP.OpenedInv, Enabled, OnTime, Step;
      PipelineKeepsMark(refused, lim, PipelineStep(refused, lim, p, xs[0]), xs[1..]);
    }
  }

  /** A build that begins now is labelled at least as high as every response so far. */
  lemma LabelIsFresh(refused: Filter, lim: Limits, store: Store, before: seq<Move>, r: nat)
    requires Sound(store) && PipelineLegal(refused, lim, Pipeline(Initial(store), [], []), before)
    requires r < |PipelineRun(refused, lim, Pipeline(Initial(store), [], []), before).writer.receipts|
    ensures var p := PipelineRun(refused, lim, Pipeline(Initial(store), [], []), before);
            var p' := PipelineStep(refused, lim, p, BeginBuild);
            && |p'.builds| == |p.builds| + 1
            && p'.builds[|p.builds|].through >= p.writer.receipts[r].through
            && p'.writer == p.writer
  {
    InitialSeq(refused, lim, store);
    PipelineKeepsMark(refused, lim, Pipeline(Initial(store), [], []), before);
    hide Inv, PipelineRun, PipelineLegal, Sound;
  }

  /** A dashboard that asks after a response has arrived sees what was reported: in runs whose failures
      strike before their attempt has stored a row, a build begun after request `r` was completed shows
      every acceptable event of it, whatever happens between its beginning and its query. */
  lemma LaterBuildsShowReported(
    refused: Filter, lim: Limits, store: Store, before: seq<Move>, between: seq<Move>, r: nat, e: Event)
    requires Sound(store)
    requires var p0 := Pipeline(Initial(store), [], []); var i := |PipelineRun(refused, lim, p0, before).builds|;
             var xs := before + ([BeginBuild] + (between + [QueryBuild(i)]));
             && PipelineLegal(refused, lim, p0, xs) && GentleRun(refused, lim, p0, xs)
             && r < |PipelineRun(refused, lim, p0, before).writer.receipts|
             && e in PipelineRun(refused, lim, p0, before).writer.receipts[r].request.events && !refused(e)
    ensures var p0 := Pipeline(Initial(store), [], []); var i := |PipelineRun(refused, lim, p0, before).builds|;
            var p := PipelineRun(refused, lim, p0, before + ([BeginBuild] + (between + [QueryBuild(i)])));
            p.snapshots != [] && KeyOf(e) in Keys(Contents(p.snapshots[|p.snapshots| - 1].view))
  {
    var p0 := Pipeline(Initial(store), [], []);
    var p1 := PipelineRun(refused, lim, p0, before);
    var i := |p1.builds|;
    var xs := before + ([BeginBuild] + (between + [QueryBuild(i)]));
    var p2 := PipelineStep(refused, lim, p1, BeginBuild);
    var p3 := PipelineRun(refused, lim, p2, between);
    var p := PipelineRun(refused, lim, p0, xs);
    PipelineConcat(refused, lim, p0, before, [BeginBuild] + (between + [QueryBuild(i)]));
    LabelIsFresh(refused, lim, store, before, r);
    PipelineGrows(refused, lim, p2, between);
    PipelineConcat(refused, lim, p2, between, [QueryBuild(i)]);
    FirstMove(refused, lim, p1, BeginBuild, between + [QueryBuild(i)]);
    FirstMove(refused, lim, p3, QueryBuild(i), []);
    assert [QueryBuild(i)] + [] == [QueryBuild(i)];
    assert PipelineRun(refused, lim, PipelineStep(refused, lim, p3, QueryBuild(i)), []) == PipelineStep(refused, lim, p3, QueryBuild(i));
    assert p == PipelineStep(refused, lim, p3, QueryBuild(i));
    hide PipelineRun, PipelineLegal, GentleRun, Sound, Inv;
    assert p3.builds[i] == p2.builds[i];
    var last := |p.snapshots| - 1;
    assert p.snapshots[last].through == p3.builds[i].through;
    assert p.writer.receipts[r] == p1.writer.receipts[r];
    ReportedEventsAreInSnapshots(refused, lim, store, xs, last, r, e);
  }

  lemma FirstMove(refused: Filter, lim: Limits, p: Pipeline, x: Move, xs: seq<Move>)
    ensures PipelineRun(refused, lim, p, [x] + xs) == PipelineRun(refused, lim, PipelineStep(refused, lim, p, x), xs)
  {
    assert ([x] + xs)[0] == x && ([x] + xs)[1..] == xs;
    hide PipelineStep;
  }

  lemma ReceiptSays(refused: Filter, s: State, r: nat, e: Event)
    requires ReceiptInv(refused, s) && r < |s.receipts| && e in s.receipts[r].request.events && !refused(e)
    ensures Visible(s, KeyOf(e), s.receipts[r].through)
  {
  }

  lemma ViewIsComplete(s: State, sn: Snapshot)
    requires SnapshotOk(s, sn)
    ensures sn.view <= s.machine.store.log
    ensures forall i :: 0 <= i < |s.machine.store.log| && s.machine.store.log[i].seqNo <= sn.through ==> i < |sn.view|
    ensures Agrees(sn.minute, Minute, Contents(sn.view), sn.horizon)
  {
    hide Agrees;
  }

  lemma VisibleInView(s: State, sn: Snapshot, key: Key, through: nat)
    requires SnapshotOk(s, sn) && Visible(s, key, through) && through <= sn.through
    ensures key in Keys(Contents(sn.view))
  {
    var log := s.machine.store.log;
    var i :| 0 <= i < |log| && KeyOf(log[i].event) == key && (i < |s.started| || log[i].seqNo <= through);
    hide Agrees;
    assert i < |sn.view| && sn.view[i] == log[i];
    assert Contents(sn.view)[i] == log[i].event && Contents(sn.view)[i] in Contents(sn.view);
  }
}
