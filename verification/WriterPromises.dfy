/** What callers of the writer can rely on over whole runs, in terms of their requests, of the fields of
    events, and of the rows in the table. */
module WriterPromises {
  import opened Events
  import opened Tables
  import opened Bisection
  import opened BisectionCost
  import opened Writer
  import opened ExactlyOnce
  import opened Watermark

  // ---- Submissions ---------------------------------------------------------------------------------

  /** The accepted requests without a receipt, oldest first. */
  function Outstanding(s: State): seq<Request> {
    if |s.receipts| <= |s.accepted| then s.accepted[|s.receipts|..] else []
  }

  lemma OutstandingIsQueued(lim: Limits, s: State)
    requires QueueInv(lim, s) && FifoInv(s)
    ensures Outstanding(s) == InFlight(s.phase) + s.queue.pending
    ensures Size(Outstanding(s)) == s.queue.queuedEvents
  {
    assert s.accepted == Requests(s.receipts) + (InFlight(s.phase) + s.queue.pending);
    SizeConcat(InFlight(s.phase), s.queue.pending);
    hide Size;
  }

  lemma {:induction false} StoppingExactly(refused: Filter, lim: Limits, s: State, actions: seq<Action>)
    ensures Run(refused, lim, s, actions).queue.stopping <==> s.queue.stopping || DoStop in actions
    decreases |actions|
  {
    if actions != [] {
      var s' := Step(refused, lim, s, actions[0]);
      assert s'.queue.stopping <==> s.queue.stopping || actions[0].DoStop? by {
        hide Statement, EventsOf, BatchLength;
      }
      hide Step;
      StoppingExactly(refused, lim, s', actions[1..]);
    }
  }

  lemma SubmitOutcome(refused: Filter, lim: Limits, s: State, r: Request)
    requires FifoInv(s)
    ensures var s' := Step(refused, lim, s, DoSubmit(r)); var outcome := Submit(lim, s.queue, r).1;
            var fits := s.queue.queuedEvents + |r.events| <= lim.maxQueued;
            && (outcome.WriterStopped? <==> s.queue.stopping)
            && (outcome.CompletedEmpty? <==> !s.queue.stopping && r.events == [])
            && (outcome.QueueFull? <==> !s.queue.stopping && r.events != [] && !fits)
            && (outcome.Queued? <==> !s.queue.stopping && r.events != [] && fits)
            && s'.accepted == s.accepted + (if outcome.Queued? then [r] else [])
            && Outstanding(s') == Outstanding(s) + (if outcome.Queued? then [r] else [])
            && (outcome.Queued? ==> s'.queue.hasWork)
  {
    assert |s.accepted| == |Requests(s.receipts)| + |InFlight(s.phase)| + |s.queue.pending|;
    hide FifoInv;
  }

  /** The answer to a submission, after every run: refused as stopped exactly after a stop, completed at
      once if it is empty, and otherwise queued exactly if it fits the cap beside what was accepted and is
      not completed. Only a queued request is accepted, behind the others, and it wakes the loop. */
  lemma SubmissionExactly(refused: Filter, lim: Limits, store: Store, actions: seq<Action>, r: Request)
    requires Legal(refused, lim, Initial(store), actions)
    ensures var s := Run(refused, lim, Initial(store), actions); var s' := Step(refused, lim, s, DoSubmit(r));
            var outcome, stopped := Submit(lim, s.queue, r).1, DoStop in actions;
            var fits := Size(Outstanding(s)) + |r.events| <= lim.maxQueued;
            && (outcome.WriterStopped? <==> stopped)
            && (outcome.CompletedEmpty? <==> !stopped && r.events == [])
            && (outcome.QueueFull? <==> !stopped && r.events != [] && !fits)
            && (outcome.Queued? <==> !stopped && r.events != [] && fits)
            && s'.accepted == s.accepted + (if outcome.Queued? then [r] else [])
            && Outstanding(s') == Outstanding(s) + (if outcome.Queued? then [r] else [])
            && (outcome.Queued? ==> s'.queue.hasWork)
  {
    var s := Run(refused, lim, Initial(store), actions);
    StoppingExactly(refused, lim, Initial(store), actions);
    RunIsQueueSafe(refused, lim, store, actions);
    hide *;
    OutstandingIsQueued(lim, s);
    SubmitOutcome(refused, lim, s, r);
  }

  lemma RunIsQueueSafe(refused: Filter, lim: Limits, store: Store, actions: seq<Action>)
    requires Legal(refused, lim, Initial(store), actions)
    ensures var s := Run(refused, lim, Initial(store), actions);
            QueueInv(lim, s) && FifoInv(s) && AwakeInv(s) && !Initial(store).queue.stopping
  {
    assert Requests([]) + [] + [] == [] && Requests([]) == [];
    RunKeepsQueue(refused, lim, Initial(store), actions);
    hide Run, Size;
  }

  // ---- Shutdown ------------------------------------------------------------------------------------

  ghost predicate FailedInv(s: State) {
    && s.failed == (if s.phase.TimedOut? then s.queue.pending else [])
    && (s.phase.TimedOut? ==> s.queue.stopping)
  }

  lemma {:induction false} RunKeepsFailed(refused: Filter, lim: Limits, s: State, actions: seq<Action>)
    requires FailedInv(s) && Legal(refused, lim, s, actions)
    ensures FailedInv(Run(refused, lim, s, actions))
    decreases |actions|
  {
    if actions != [] {
      var s' := Step(refused, lim, s, actions[0]);
      assert FailedInv(s') by {
        hide Statement, EventsOf, BatchLength, Size;
      }
      hide Step, Enabled, FailedInv;
      RunKeepsFailed(refused, lim, s', actions[1..]);
    }
  }

  /** What a shutdown leaves behind: a loop that has returned has completed every accepted request; after
      a timeout the queued requests have failed, those of the batch in flight are neither completed nor
      failed, and no request ever fails otherwise. */
  lemma ShutdownLosesExactly(refused: Filter, lim: Limits, store: Store, actions: seq<Action>)
    requires Legal(refused, lim, Initial(store), actions)
    ensures var s := Run(refused, lim, Initial(store), actions);
            && (s.phase.Exited? ==> Requests(s.receipts) == s.accepted)
            && (s.phase.TimedOut? ==> Requests(s.receipts) + s.phase.items + s.failed == s.accepted)
            && (!s.phase.TimedOut? ==> s.failed == [])
            && (s.phase.Exited? || s.phase.TimedOut? ==> DoStop in actions)
  {
    var s := Run(refused, lim, Initial(store), actions);
    StoppingExactly(refused, lim, Initial(store), actions);
    RunKeepsFailed(refused, lim, Initial(store), actions);
    RunIsQueueSafe(refused, lim, store, actions);
    hide Run, Size, QueueInv;
    assert s.phase.Exited? ==> Requests(s.receipts) + [] + [] == Requests(s.receipts);
  }

  // ---- Grouping ------------------------------------------------------------------------------------

  /** Whenever the loop comes to its top with requests waiting, it takes the oldest of them: as many whole
      requests as the size cap allows, and one even if it is above the cap. */
  lemma BatchesAreMaximal(refused: Filter, lim: Limits, s: State, a: Action)
    requires (a.DoTurn? || (a.DoFinish? && s.phase.Writing?)) && s.queue.pending != []
    ensures var s' := Step(refused, lim, s, a);
            && s'.phase.Writing? && s'.phase.items != []
            && s'.phase.items + s'.queue.pending == s.queue.pending
            && (|s'.phase.items| == 1 || Size(s'.phase.items) <= lim.maxBatch)
            && (s'.queue.pending != [] ==> Size(s'.phase.items + [s'.queue.pending[0]]) > lim.maxBatch)
            && s'.machine.work.batch == EventsOf(s'.phase.items) && s'.machine.work.todo == [EventsOf(s'.phase.items)]
  {
    var pending := s.queue.pending;
    var n := BatchLength(pending, lim.maxBatch);
    BatchIsMaximalPrefix(pending, lim.maxBatch);
    if n < |pending| {
      assert pending[..n] + [pending[n..][0]] == pending[..n + 1];
    }
    hide Size, EventsOf, BatchLength, RecordCommit;
  }

  // ---- Progress ------------------------------------------------------------------------------------

  /** What the loop does while no connection fails. */
  predicate Undisturbed(a: Action) {
    a.DoTurn? || a.DoFinish? || (a.DoStatement? && a.link.kind.Clean?)
  }

  function Stage(s: State): nat {
    match s.phase
    case AtTop => 2
    case Parked => if s.queue.hasWork then 2 else 0
    case Writing(_) => 1
    case _ => 0
  }

  function Todo(refused: Filter, s: State): nat {
    if s.phase.Writing? then Pending(refused, s.machine.work.todo) else 0
  }

  ghost predicate CanFinish(s: State) {
    !s.phase.TimedOut? && Timely(s.machine.store, EventsOf(Outstanding(s)))
  }

  function NextAction(s: State): Action {
    if !s.phase.Writing? then DoTurn else if s.machine.work.todo == [] then DoFinish else DoStatement(Link(Clean, 0))
  }

  /** Left alone, the loop goes on until it parks or exits, one step closer with every step. */
  lemma NextStepIsCloser(refused: Filter, lim: Limits, s: State)
    requires Inv(refused, lim, s) && CanFinish(s) && Stage(s) > 0
    ensures var a := NextAction(s); var s' := Step(refused, lim, s, a);
            && Undisturbed(a) && Enabled(s, a) && OnTime(s, a)
            && s'.accepted == s.accepted && s'.queue.stopping == s.queue.stopping && CanFinish(s')
            && |Outstanding(s')| <= |Outstanding(s)|
            && (|Outstanding(s')| == |Outstanding(s)| ==>
                  Stage(s') < Stage(s) || (Stage(s') == Stage(s) && Todo(refused, s') < Todo(refused, s)))
  {
    OutstandingIsQueued(lim, s);
    EventsConcat(InFlight(s.phase), s.queue.pending);
    if s.phase.Writing? {
      assert EventsOf(s.phase.items) == s.machine.work.batch;
      if s.machine.work.todo == [] {
        FinishIsCloser(refused, lim, s);
      } else {
        StatementIsCloser(refused, lim, s);
      }
    } else {
      TurnIsCloser(refused, lim, s);
    }
  }

  lemma TurnIsCloser(refused: Filter, lim: Limits, s: State)
    requires FifoInv(s) && CanFinish(s) && Stage(s) == 2
    ensures var s' := Step(refused, lim, s, DoTurn);
            && s'.accepted == s.accepted && s'.queue.stopping == s.queue.stopping && CanFinish(s')
            && Outstanding(s') == Outstanding(s) && Stage(s') < Stage(s)
  {
    hide EventsOf, BatchLength, FifoInv;
  }

  lemma StatementIsCloser(refused: Filter, lim: Limits, s: State)
    requires Inv(refused, lim, s) && CanFinish(s) && s.phase.Writing? && s.machine.work.todo != []
    requires forall e :: e in s.machine.work.batch ==> e in EventsOf(Outstanding(s))
    ensures var a := DoStatement(Link(Clean, 0)); var s' := Step(refused, lim, s, a);
            && OnTime(s, a) && CanFinish(s') && Stage(s') == Stage(s)
            && s'.accepted == s.accepted && s'.queue == s.queue
            && Outstanding(s') == Outstanding(s) && Todo(refused, s') < Todo(refused, s)
  {
    assert s.machine.work.todo[0] != [] by {
      hide Sound, LogCounts, DeadCounts, Expected;
    }
    CleanStep(refused, s.machine, Link(Clean, 0));
    StatementFrame(refused, s.machine, Link(Clean, 0));
    hide Inv, Statement, EventsOf, Pending;
  }

  lemma FinishIsCloser(refused: Filter, lim: Limits, s: State)
    requires QueueInv(lim, s) && FifoInv(s) && CanFinish(s) && s.phase.Writing? && s.machine.work.todo == []
    ensures var s' := Step(refused, lim, s, DoFinish);
            && CanFinish(s') && s'.accepted == s.accepted && s'.queue.stopping == s.queue.stopping
            && |Outstanding(s')| < |Outstanding(s)|
  {
    var c, s' := Complete(s), Step(refused, lim, s, DoFinish);
    var n := |s.receipts| + |s.phase.items|;
    assert s.phase.items != [] && n <= |s.accepted|;
    hide QueueInv, FifoInv;
    assert |c.receipts| == n && c.accepted == s.accepted && c.phase.AtTop? && c.queue.stopping == s.queue.stopping;
    assert c.machine == s.machine;
    hide Complete;
    assert s'.receipts == c.receipts && s'.accepted == c.accepted && s'.machine.store == c.machine.store by {
      hide EventsOf, BatchLength;
    }
    assert s.accepted[|s.receipts|..] == s.accepted[|s.receipts|..n] + s.accepted[n..];
    EventsConcat(s.accepted[|s.receipts|..n], s.accepted[n..]);
    hide EventsOf, Step;
  }

  /** Nothing accepted waits for ever: from every reachable state in which the loop has not been cancelled
      and retention has not passed the events waiting, it completes every accepted request once
      connections stay up, and then sleeps, or has returned if it was told to stop. */
  lemma {:induction false} AcceptedRequestsComplete(refused: Filter, lim: Limits, s: State) returns (rest: seq<Action>)
    requires Inv(refused, lim, s) && !s.phase.TimedOut?
    requires Timely(s.machine.store, EventsOf(Outstanding(s)))
    ensures Legal(refused, lim, s, rest) && forall a :: a in rest ==> Undisturbed(a)
    ensures var s' := Run(refused, lim, s, rest);
            && s'.accepted == s.accepted == Requests(s'.receipts)
            && s'.phase == if s.queue.stopping then Exited else Parked
    decreases |Outstanding(s)|, Stage(s), Todo(refused, s)
  {
    if Stage(s) > 0 {
      var a := NextAction(s);
      var s' := Step(refused, lim, s, a);
      NextStepIsCloser(refused, lim, s);
      StepKeepsInv(refused, lim, s, a);
      hide Inv, Step, Timely, Undisturbed, Enabled, Outstanding, Stage, Todo, NextAction;
      var more := AcceptedRequestsComplete(refused, lim, s');
      rest := [a] + more;
      assert rest[0] == a && rest[1..] == more;
    } else {
      rest := [];
      assert Requests(s.receipts) + [] + [] == Requests(s.receipts);
      hide DataInv, DeadInv, QueueInv;
    }
  }

  // ---- What is in the table ------------------------------------------------------------------------

  predicate SameIdentity(a: Event, b: Event) {
    a.id == b.id && a.occurredAt == b.occurredAt
  }

  lemma NewRowsWereAccepted(refused: Filter, started: seq<Row>, es: seq<Event>, log: seq<Row>, i: nat)
    requires started <= log && |started| <= i < |log|
    requires Contents(log) == Expected(refused, started, es)
    ensures log[i].event in es && !refused(log[i].event)
  {
    var base := Contents(started);
    var news := News(Keys(base), Good(refused, es));
    NewsDistinct(Keys(base), Good(refused, es));
    FilterMembers(refused, es);
    hide News, Good, Keys;
    assert Contents(log)[i] == news[i - |base|];
    assert news[i - |base|] in news;
  }

  /** The completed events and what the batch in flight has stored so far. */
  lemma LogIsExpected(refused: Filter, lim: Limits, s: State) returns (k: nat)
    requires Inv(refused, lim, s)
    ensures k <= |EventsOf(InFlight(s.phase))|
    ensures Contents(s.machine.store.log) == Expected(refused, s.started, Completed(s) + EventsOf(InFlight(s.phase))[..k])
  {
    hide QueueInv, FifoInv, AwakeInv, DeadInv, Sound, WorkShape, LogCounts, DeadCounts;
    match s.phase {
      case Writing(items) =>
        assert s.machine.work.batch == EventsOf(items) by {
          assert QueueInv(lim, s);
          BatchOfItems(lim, s);
        }
        var base := Expected(refused, s.started, Completed(s));
        k :| |s.machine.work.behind| <= k && Absorbed(refused, base, s.machine.store.log, s.machine.work.batch, k);
        ExpectedConcat(refused, s.started, Completed(s), s.machine.work.batch[..k]);
      case TimedOut(items) =>
        k :| k <= |EventsOf(items)|
          && Contents(s.machine.store.log) == Expected(refused, s.started, Completed(s) + EventsOf(items)[..k]);
      case _ =>
        k := 0;
        assert Completed(s) + EventsOf([])[..0] == Completed(s);
    }
  }

  lemma BatchOfItems(lim: Limits, s: State)
    requires QueueInv(lim, s) && s.phase.Writing?
    ensures s.machine.work.batch == EventsOf(s.phase.items)
  {
  }

  lemma AcceptedEvents(lim: Limits, s: State, k: nat)
    requires FifoInv(s) && k <= |EventsOf(InFlight(s.phase))|
    ensures forall e :: e in Completed(s) + EventsOf(InFlight(s.phase))[..k] ==> e in EventsOf(s.accepted)
  {
    var done, flight := Requests(s.receipts), InFlight(s.phase);
    EventsConcat(done, flight);
    EventsConcat(done + flight, s.queue.pending);
    hide EventsOf;
  }

  /** The table, event by event, for every run whose statements are on time: an acceptable event of a
      completed request has a row with its id and its instant; no two rows share both; and a row that was
      not there at the start is an accepted, acceptable event, whole. */
  lemma StoredExactlyOnce(refused: Filter, lim: Limits, store: Store, actions: seq<Action>)
    requires Sound(store) && Legal(refused, lim, Initial(store), actions) && Prompt(refused, lim, Initial(store), actions)
    ensures var s := Run(refused, lim, Initial(store), actions); var log := s.machine.store.log;
            && (forall n, e :: 0 <= n < |s.receipts| && e in s.receipts[n].request.events && !refused(e) ==>
                  exists i :: 0 <= i < |log| && SameIdentity(log[i].event, e))
            && (forall i, j :: 0 <= i < j < |log| ==> !SameIdentity(log[i].event, log[j].event))
            && store.log <= log
            && (forall i :: |store.log| <= i < |log| ==> log[i].event in EventsOf(s.accepted) && !refused(log[i].event))
  {
    var s := Run(refused, lim, Initial(store), actions);
    InitialInv(refused, lim, store);
    RunKeepsInv(refused, lim, Initial(store), actions);
    RunKeepsStart(refused, lim, Initial(store), actions);
    RunCountsExactlyOnce(refused, lim, store, actions);
    StoredOf(refused, lim, s);
    NothingElseIsStored(refused, lim, s);
    hide Run, Legal, Prompt, Sound, Inv, Expected;
    RowsDiffer(s.machine.store.log);
  }

  lemma RowsDiffer(log: seq<Row>)
    requires DistinctKeys(Contents(log))
    ensures forall i, j :: 0 <= i < j < |log| ==> !SameIdentity(log[i].event, log[j].event)
  {
    forall i, j | 0 <= i < j < |log| ensures !SameIdentity(log[i].event, log[j].event) {
      assert KeyOf(Contents(log)[i]) != KeyOf(Contents(log)[j]);
    }
  }

  lemma StoredOf(refused: Filter, lim: Limits, s: State)
    requires Inv(refused, lim, s)
    ensures forall n, e :: 0 <= n < |s.receipts| && e in s.receipts[n].request.events && !refused(e) ==>
              exists i :: 0 <= i < |s.machine.store.log| && SameIdentity(s.machine.store.log[i].event, e)
  {
    var log := s.machine.store.log;
    forall n, e | 0 <= n < |s.receipts| && e in s.receipts[n].request.events && !refused(e)
      ensures exists i :: 0 <= i < |log| && SameIdentity(log[i].event, e)
    {
      CompletedMeansStoredOrDead(refused, lim, s, n, e);
      hide Inv;
      var x :| x in Contents(log) && KeyOf(x) == KeyOf(e);
      var i :| 0 <= i < |log| && Contents(log)[i] == x;
      assert SameIdentity(log[i].event, e);
    }
  }

  lemma NothingElseIsStored(refused: Filter, lim: Limits, s: State)
    requires Inv(refused, lim, s)
    ensures s.started <= s.machine.store.log
    ensures forall i :: |s.started| <= i < |s.machine.store.log| ==>
              s.machine.store.log[i].event in EventsOf(s.accepted) && !refused(s.machine.store.log[i].event)
  {
    var log := s.machine.store.log;
    var k := LogIsExpected(refused, lim, s);
    AcceptedEvents(lim, s, k);
    assert s.started <= log by {
      hide Sound, WorkInv, Expected;
    }
    hide Inv, EventsOf, Expected;
    var es := Completed(s) + EventsOf(InFlight(s.phase))[..k];
    forall i | |s.started| <= i < |log| ensures log[i].event in EventsOf(s.accepted) && !refused(log[i].event) {
      NewRowsWereAccepted(refused, s.started, es, log, i);
    }
  }

  /** The event at `i` is acceptable, and neither a row of the start nor an acceptable event before it has
      its identity. */
  ghost predicate FirstAt(refused: Filter, started: seq<Event>, es: seq<Event>, i: int) {
    && 0 <= i < |es| && !refused(es[i])
    && (forall e :: e in started ==> !SameIdentity(e, es[i]))
    && (forall j :: 0 <= j < i && !refused(es[j]) ==> !SameIdentity(es[j], es[i]))
  }

  /** The positions of the first occurrences, in order. */
  ghost predicate Positions(refused: Filter, started: seq<Event>, es: seq<Event>, ps: seq<nat>) {
    && (forall a, b :: 0 <= a < b < |ps| ==> ps[a] < ps[b])
    && (forall i :: i in ps <==> FirstAt(refused, started, es, i))
  }

  lemma UnknownKey(refused: Filter, base: seq<Event>, es: seq<Event>, last: Event)
    requires !refused(last)
    ensures KeyOf(last) !in Keys(base) + Keys(Good(refused, es)) <==> FirstAt(refused, base, es + [last], |es|)
  {
    FilterMembers(refused, es);
    var all := es + [last];
    forall j | 0 <= j < |es| && !refused(es[j]) && SameIdentity(es[j], last)
      ensures KeyOf(last) in Keys(Good(refused, es))
    {
      assert es[j] in Good(refused, es) && KeyOf(es[j]) == KeyOf(last);
    }
    if KeyOf(last) in Keys(Good(refused, es)) {
      var e :| e in Good(refused, es) && KeyOf(e) == KeyOf(last);
      var j :| 0 <= j < |es| && es[j] == e;
      assert SameIdentity(all[j], all[|es|]);
    }
    hide Good;
  }

  /** One more event adds its position if it is a first occurrence. */
  lemma OneMorePosition(refused: Filter, base: seq<Event>, es: seq<Event>, last: Event, ps: seq<nat>)
    requires Positions(refused, base, es, ps)
    ensures Positions(refused, base, es + [last],
                      if FirstAt(refused, base, es + [last], |es|) then ps + [|es|] else ps)
  {
    var all := es + [last];
    forall i: int | i < |es| ensures FirstAt(refused, base, all, i) <==> FirstAt(refused, base, es, i) {
      assert forall j :: 0 <= j < |es| ==> all[j] == es[j];
    }
    forall a | 0 <= a < |ps| ensures ps[a] < |es| {
      assert ps[a] in ps;
    }
    hide FirstAt;
  }

  /** `picked` is what stands at the positions. */
  ghost predicate StandAt(es: seq<Event>, ps: seq<nat>, picked: seq<Event>) {
    |picked| == |ps| && forall k :: 0 <= k < |ps| ==> ps[k] < |es| && picked[k] == es[ps[k]]
  }

  lemma OneMoreStands(es: seq<Event>, last: Event, ps: seq<nat>, picked: seq<Event>)
    requires StandAt(es, ps, picked)
    ensures StandAt(es + [last], ps, picked) && StandAt(es + [last], ps + [|es|], picked + [last])
  {
  }

  lemma NothingFirst(refused: Filter, base: seq<Event>)
    ensures Positions(refused, base, [], []) && StandAt([], [], News(Keys(base), Good(refused, [])))
  {
  }

  lemma OneMoreFirst(refused: Filter, base: seq<Event>, es: seq<Event>, last: Event, ps: seq<nat>)
    requires Positions(refused, base, es, ps) && StandAt(es, ps, News(Keys(base), Good(refused, es)))
    ensures var all := es + [last];
            var ps' := if FirstAt(refused, base, all, |es|) then ps + [|es|] else ps;
            Positions(refused, base, all, ps') && StandAt(all, ps', News(Keys(base), Good(refused, all)))
  {
    var all, news := es + [last], News(Keys(base), Good(refused, es));
    assert FirstAt(refused, base, all, |es|) ==> !refused(all[|es|]);
    assert all[|es|] == last;
    hide News, Good, Positions, Keys, StandAt, FirstAt;
    OneMorePosition(refused, base, es, last, ps);
    OneMoreStands(es, last, ps, news);
    MoreNews(refused, base, es, last);
    if refused(last) {
      assert news + [] == news;
    } else {
      UnknownKey(refused, base, es, last);
      assert news + [] == news;
    }
  }

  lemma {:induction false} NewsAreFirst(refused: Filter, base: seq<Event>, es: seq<Event>) returns (ps: seq<nat>)
    ensures Positions(refused, base, es, ps)
    ensures StandAt(es, ps, News(Keys(base), Good(refused, es)))
    decreases |es|
  {
    NothingFirst(refused, base);
    hide News, Good, Positions, Keys, StandAt, FirstAt;
    ps := [];
    if es != [] {
      var n := |es| - 1;
      var qs := NewsAreFirst(refused, base, es[..n]);
      OneMoreFirst(refused, base, es[..n], es[n], qs);
      assert es[..n] + [es[n]] == es;
      ps := if FirstAt(refused, base, es, n) then qs + [n] else qs;
    }
  }

  lemma MoreNews(refused: Filter, base: seq<Event>, es: seq<Event>, last: Event)
    ensures News(Keys(base), Good(refused, es + [last]))
         == News(Keys(base), Good(refused, es))
            + if !refused(last) && KeyOf(last) !in Keys(base) + Keys(Good(refused, es)) then [last] else []
  {
    var known := Keys(base) + Keys(Good(refused, es));
    GoodConcat(refused, es, [last]);
    assert Good(refused, [last]) == if refused(last) then [] else [last];
    NewsConcat(Keys(base), Good(refused, es), Good(refused, [last]));
    assert News(known, []) == [] && [last][1..] == [];
    assert News(known, [last]) == if KeyOf(last) in known then [] else [last];
  }

  /** Exactly once and in order, said of positions: between batches the rows stored since the start are,
      in this order, the events of the completed requests at exactly those positions at which an acceptable
      event occurs whose id and instant no row of the start and no acceptable event before it shares. */
  lemma StoredInOrder(refused: Filter, lim: Limits, store: Store, actions: seq<Action>) returns (ps: seq<nat>)
    requires Sound(store) && Legal(refused, lim, Initial(store), actions) && Prompt(refused, lim, Initial(store), actions)
    requires !Run(refused, lim, Initial(store), actions).phase.Writing?
    requires !Run(refused, lim, Initial(store), actions).phase.TimedOut?
    ensures var s := Run(refused, lim, Initial(store), actions); var log := s.machine.store.log;
            var es := EventsOf(Requests(s.receipts));
            && Positions(refused, Contents(store.log), es, ps)
            && Contents(store.log) <= Contents(log)
            && StandAt(es, ps, Contents(log)[|store.log|..])
  {
    RunCountsExactlyOnce(refused, lim, store, actions);
    var s := Run(refused, lim, Initial(store), actions);
    ps := NewsAreFirst(refused, Contents(store.log), Completed(s));
    var base, news := Contents(store.log), News(Keys(Contents(store.log)), Good(refused, Completed(s)));
    assert Contents(s.machine.store.log) == base + news;
    hide *;
    assert (base + news)[|base|..] == news;
  }

  // ---- Watermark and counters ----------------------------------------------------------------------

  /** A row stored since the start has this number. */
  ghost predicate IsNumberOfRow(s: State, seqNo: nat) {
    exists i :: |s.started| <= i < |s.machine.store.log| && s.machine.store.log[i].seqNo == seqNo
  }

  /** The watermark is zero or the number of a row stored since the start, and receipts report it as it
      was, so never less than an earlier one. */
  ghost predicate MarkInv(s: State) {
    && (s.counters.committedSeq == 0 || IsNumberOfRow(s, s.counters.committedSeq))
    && (forall i :: 0 <= i < |s.receipts| ==> s.receipts[i].through <= s.counters.committedSeq)
    && (forall i, j :: 0 <= i < j < |s.receipts| ==> s.receipts[i].through <= s.receipts[j].through)
  }

  lemma BatchNumbers(refused: Filter, s: State)
    requires DataInv(refused, s) && s.phase.Writing?
    ensures LogCounts(s.machine.store.log, s.machine.work.tally) && Ordered(s.machine.store.log, s.machine.store.nextSeq)
  {
    hide Expected, WorkShape, DeadCounts, Absorbed, Agrees, Routed, LiveSinceHorizon;
  }

  /** What completing the batch makes of the watermark and of the inserted total. */
  lemma CompletedCounters(log: seq<Row>, nextSeq: nat, s: State)
    requires s.phase.Writing? && log == s.machine.store.log && Ordered(log, nextSeq) && LogCounts(log, s.machine.work.tally)
    ensures var y, c, c' := s.machine.work.tally, s.counters, Complete(s).counters;
            && c'.totalInserted == c.totalInserted + |log| - y.logSince
            && c'.committedSeq == (if y.logSince < |log| && log[|log| - 1].seqNo > c.committedSeq then log[|log| - 1].seqNo
                                   else c.committedSeq)
  {
    MaxSeqFromIsLast(log, nextSeq, s.machine.work.tally.logSince);
    hide MaxSeqFrom, Ordered;
  }

  /** The newest row becomes the watermark, or it stays, and the receipts of the batch report it. */
  lemma MarkMoves(s: State, c: State, log: seq<Row>, items: seq<Request>)
    requires MarkInv(s) && log == s.machine.store.log == c.machine.store.log && c.started == s.started
    requires c.receipts == s.receipts + Receipts(items, c.counters.committedSeq)
    requires c.counters.committedSeq == s.counters.committedSeq
             || (|s.started| < |log| && c.counters.committedSeq == log[|log| - 1].seqNo > s.counters.committedSeq)
    ensures MarkInv(c)
  {
    if c.counters.committedSeq != s.counters.committedSeq {
      assert log[|log| - 1].seqNo == c.counters.committedSeq;
    } else {
      assert IsNumberOfRow(s, c.counters.committedSeq) ==> IsNumberOfRow(c, c.counters.committedSeq);
      hide IsNumberOfRow;
    }
  }

  lemma CompleteKeepsMark(refused: Filter, s: State)
    requires DataInv(refused, s) && MarkInv(s) && s.phase.Writing?
    requires |s.started| <= s.machine.work.tally.logOpened
    ensures MarkInv(Complete(s))
  {
    var log, c := s.machine.store.log, Complete(s);
    BatchNumbers(refused, s);
    hide DataInv, Ordered, MarkInv;
    assert s.machine.work.tally.logSince <= |log| && |s.started| <= s.machine.work.tally.logSince;
    CompletedCounters(log, s.machine.store.nextSeq, s);
    assert c.receipts == s.receipts + Receipts(s.phase.items, c.counters.committedSeq);
    assert c.machine == s.machine && c.started == s.started;
    hide Complete, LogCounts, RecordCommit, Receipts;
    MarkMoves(s, c, log, s.phase.items);
  }

  lemma QuietStepKeepsMark(s: State, s': State)
    requires MarkInv(s) && s.machine.store.log <= s'.machine.store.log
    requires s'.started == s.started && s'.receipts == s.receipts && s'.counters == s.counters
    ensures MarkInv(s')
  {
    if s.counters.committedSeq != 0 {
      var i :| |s.started| <= i < |s.machine.store.log| && s.machine.store.log[i].seqNo == s.counters.committedSeq;
      assert s'.machine.store.log[i].seqNo == s'.counters.committedSeq;
    }
  }

  /** A batch is opened after the start. */
  ghost predicate OpenedInv(s: State) {
    |s.started| <= |s.machine.store.log| && (s.phase.Writing? ==> |s.started| <= s.machine.work.tally.logOpened)
  }

  lemma StepKeepsOpened(refused: Filter, lim: Limits, s: State, a: Action)
    requires OpenedInv(s) && Enabled(s, a)
    ensures OpenedInv(Step(refused, lim, s, a))
  {
    if a.DoStatement? {
      StatementFrame(refused, s.machine, a.link);
    }
    hide Statement, EventsOf, BatchLength, Sound;
  }

  lemma StepKeepsMark(refused: Filter, lim: Limits, s: State, a: Action)
    requires Inv(refused, lim, s) && AheadInv(s) && MarkInv(s) && OpenedInv(s) && Enabled(s, a)
    ensures MarkInv(Step(refused, lim, s, a))
  {
    hide MarkInv, AheadInv, Sound, EventsOf, BatchLength, WorkInv, Expected, QueueInv, FifoInv, AwakeInv, DeadInv;
    match a
    case DoStatement(link) =>
      StatementFrame(refused, s.machine, link);
      hide Statement;
      QuietStepKeepsMark(s, Step(refused, lim, s, a));
    case DoFinish =>
      CompleteKeepsMark(refused, s);
      QuietStepKeepsMark(Complete(s), Top(lim, Complete(s)));
    case _ =>
      QuietStepKeepsMark(s, Step(refused, lim, s, a));
  }

  lemma {:induction false} RunKeepsMark(refused: Filter, lim: Limits, s: State, actions: seq<Action>)
    requires Inv(refused, lim, s) && AheadInv(s) && MarkInv(s) && OpenedInv(s)
    requires Legal(refused, lim, s, actions) && Prompt(refused, lim, s, actions)
    ensures MarkInv(Run(refused, lim, s, actions)) && AheadInv(Run(refused, lim, s, actions))
    decreases |actions|
  {
    if actions != [] {
      StepKeepsInv(refused, lim, s, actions[0]);
      StepKeepsAhead(refused, lim, s, actions[0]);
      StepKeepsMark(refused, lim, s, actions[0]);
      StepKeepsOpened(refused, lim, s, actions[0]);
      hide Inv, AheadInv, MarkInv, OpenedInv, Enabled, OnTime, Step;
      RunKeepsMark(refused, lim, Step(refused, lim, s, actions[0]), actions[1..]);
    }
  }

  /** The watermark in every run on time, whatever fails: it is zero or the number of a row stored since
      the start, what responses report never decreases, and nothing still to come lies at or below it. */
  lemma WatermarkRises(refused: Filter, lim: Limits, store: Store, actions: seq<Action>)
    requires Sound(store) && Legal(refused, lim, Initial(store), actions) && Prompt(refused, lim, Initial(store), actions)
    ensures var s := Run(refused, lim, Initial(store), actions); var log := s.machine.store.log;
            && (s.counters.committedSeq == 0
                || exists i :: |store.log| <= i < |log| && log[i].seqNo == s.counters.committedSeq)
            && (forall i :: 0 <= i < |s.receipts| ==> s.receipts[i].through <= s.counters.committedSeq)
            && (forall i, j :: 0 <= i < j < |s.receipts| ==> s.receipts[i].through <= s.receipts[j].through)
            && s.counters.committedSeq < s.machine.store.nextSeq
  {
    InitialSeq(refused, lim, store);
    RunKeepsMark(refused, lim, Initial(store), actions);
    RunKeepsStart(refused, lim, Initial(store), actions);
    hide Inv, Run, Legal, Prompt, Sound;
  }

  ghost predicate AllGentle(refused: Filter, lim: Limits, s: State, actions: seq<Action>)
    decreases |actions|
  {
    actions != [] ==>
      Gentle(refused, s, actions[0]) && AllGentle(refused, lim, Step(refused, lim, s, actions[0]), actions[1..])
  }

  /** Rows of completed batches are counted, and the last of them is the watermark. */
  ghost predicate TotalsInv(s: State) {
    !s.phase.TimedOut? ==>
      && |s.started| <= SettledLength(s) <= |s.machine.store.log|
      && s.counters.totalInserted == SettledLength(s) - |s.started|
      && s.counters.committedSeq
         == if SettledLength(s) == |s.started| then 0 else s.machine.store.log[SettledLength(s) - 1].seqNo
  }

  /** Completing settles the whole log, and changes nothing else that the totals are compared with. */
  lemma CompleteSettles(s: State)
    requires s.phase.Writing?
    ensures var c := Complete(s);
            && c.machine == s.machine && c.started == s.started && c.phase.AtTop?
            && SettledLength(c) == |s.machine.store.log|
  {
  }

  /** The rows of a batch are counted when none was stored by an attempt that failed. */
  lemma TotalsGrow(s: State, c: State, y: Tally, log: seq<Row>)
    requires !s.phase.TimedOut? && TotalsInv(s) && SettledLength(s) == y.logSince <= |log|
    requires log == s.machine.store.log == c.machine.store.log && c.started == s.started && SettledLength(c) == |log|
    requires y.logSince < |log| ==> log[|log| - 1].seqNo > s.counters.committedSeq
    requires c.counters.totalInserted == s.counters.totalInserted + |log| - y.logSince
    requires c.counters.committedSeq
             == if y.logSince < |log| && log[|log| - 1].seqNo > s.counters.committedSeq then log[|log| - 1].seqNo
                else s.counters.committedSeq
    ensures TotalsInv(c)
  {
    hide SettledLength;
  }

  lemma CompleteKeepsTotals(refused: Filter, s: State)
    requires DataInv(refused, s) && AheadInv(s) && TotalsInv(s) && Unspoilt(s) && s.phase.Writing?
    ensures TotalsInv(Complete(s))
  {
    var log, y := s.machine.store.log, s.machine.work.tally;
    BatchNumbers(refused, s);
    hide DataInv, TotalsInv;
    assert y.logOpened == y.logSince <= |log|;
    assert y.logSince < |log| ==> log[|log| - 1].seqNo > s.counters.committedSeq;
    hide AheadInv, Unspoilt, Complete;
    CompletedCounters(log, s.machine.store.nextSeq, s);
    CompleteSettles(s);
    TotalsGrow(s, Complete(s), y, log);
  }

  lemma StepKeepsTotals(refused: Filter, lim: Limits, s: State, a: Action)
    requires Inv(refused, lim, s) && AheadInv(s) && Unspoilt(s) && TotalsInv(s) && Enabled(s, a)
    ensures TotalsInv(Step(refused, lim, s, a))
  {
    hide AheadInv, Sound, EventsOf, BatchLength, WorkInv, Expected, QueueInv, FifoInv, AwakeInv, DeadInv;
    match a
    case DoStatement(link) =>
      StatementFrame(refused, s.machine, link);
      hide Statement;
    case DoFinish =>
      CompleteKeepsTotals(refused, s);
      hide Complete, Unspoilt;
    case _ =>
  }

  lemma {:induction false} RunKeepsTotals(refused: Filter, lim: Limits, s: State, actions: seq<Action>)
    requires Inv(refused, lim, s) && AheadInv(s) && Unspoilt(s) && TotalsInv(s)
    requires Legal(refused, lim, s, actions) && Prompt(refused, lim, s, actions) && AllGentle(refused, lim, s, actions)
    ensures TotalsInv(Run(refused, lim, s, actions))
    decreases |actions|
  {
    if actions != [] {
      StepKeepsInv(refused, lim, s, actions[0]);
      StepKeepsAhead(refused, lim, s, actions[0]);
      StepKeepsUnspoilt(refused, lim, s, actions[0]);
      StepKeepsTotals(refused, lim, s, actions[0]);
      hide Inv, AheadInv, Unspoilt, TotalsInv, Enabled, OnTime, Gentle, Step;
      RunKeepsTotals(refused, lim, Step(refused, lim, s, actions[0]), actions[1..]);
    }
  }

  function Finishes(actions: seq<Action>): nat {
    if actions == [] then 0 else (if actions[0].DoFinish? then 1 else 0) + Finishes(actions[1..])
  }

  lemma {:induction false} BatchesAreCounted(refused: Filter, lim: Limits, s: State, actions: seq<Action>)
    requires Legal(refused, lim, s, actions)
    ensures Run(refused, lim, s, actions).counters.totalBatches == s.counters.totalBatches + Finishes(actions)
    decreases |actions|
  {
    if actions != [] {
      var s' := Step(refused, lim, s, actions[0]);
      assert s'.counters.totalBatches == s.counters.totalBatches + if actions[0].DoFinish? then 1 else 0 by {
        hide Statement, EventsOf, BatchLength;
      }
      hide Step, Enabled;
      BatchesAreCounted(refused, lim, s', actions[1..]);
    }
  }

  /** The counters in runs whose failures strike before their attempt has stored a row: between batches
      the inserted total is the growth of the table's history, every other event of a completed request
      is a duplicate or was refused, the watermark is the number of the newest row, and every finished
      batch is counted. */
  lemma TotalsAreTrue(refused: Filter, lim: Limits, store: Store, actions: seq<Action>)
    requires Sound(store) && Legal(refused, lim, Initial(store), actions) && Prompt(refused, lim, Initial(store), actions)
    requires AllGentle(refused, lim, Initial(store), actions)
    ensures var s := Run(refused, lim, Initial(store), actions); var log := s.machine.store.log;
            && s.counters.totalBatches == Finishes(actions)
            && (!s.phase.Writing? && !s.phase.TimedOut? ==>
                  && |store.log| <= |log|
                  && s.counters.totalInserted == |log| - |store.log|
                  && s.counters.totalDuplicates == Size(Requests(s.receipts)) - (|log| - |store.log|)
                  && s.counters.committedSeq == if |log| == |store.log| then 0 else log[|log| - 1].seqNo)
  {
    InitialSeq(refused, lim, store);
    RunKeepsTotals(refused, lim, Initial(store), actions);
    RunKeepsStart(refused, lim, Initial(store), actions);
    RunKeepsQueueSafe(refused, lim, store, actions);
    BatchesAreCounted(refused, lim, Initial(store), actions);
    hide Inv, Run, Legal, Prompt, AllGentle, Sound, Size, Finishes;
  }
}
