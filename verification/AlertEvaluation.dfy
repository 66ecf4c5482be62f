/** The alert evaluator as an object over its table, and the agreement between table, map of active
    alerts and trackers while no statement fails. */
module AlertEvaluation {
  import opened Events
  import opened Protocol
  import opened Mailboxes
  import opened Rules
  import opened Alerting

  // ---- The server agrees with itself -----------------------------------------------------------

  /** The map of active alerts holds exactly the firing rows of the known rules. */
  ghost predicate TableInv(cfg: Config, c: Core) {
    && OneFiring(c.table)
    && (forall r :: r in c.active ==> r in cfg.rules)
    && (forall r :: r in cfg.rules ==>
          var at := FiringAt(c.table, r);
          (r in c.active <==> at.Some?) && (at.Some? ==> c.active[r] == c.table[at.value]))
  }

  /** What the statement in flight will do to the map is what the tracker already says. */
  ghost predicate TurnInv(cfg: Config, s: State) {
    && (forall r :: r in cfg.rules ==> r in s.core.trackers)
    && (!s.turn.Resting? ==> s.turn.index <= |cfg.rules|)
    && (s.turn.Awaiting? ==>
          && s.turn.index < |cfg.rules| && !s.turn.pending.FindRow?
          && (s.core.trackers[cfg.rules[s.turn.index]].firing <==> s.turn.pending.OpenRow?))
    && forall r :: r in cfg.rules ==>
         (s.core.trackers[r].firing != (r in s.core.active) <==> s.turn.Awaiting? && r == cfg.rules[s.turn.index])
  }

  const NO_FAULTS: Faults := Faults(false, false, false)

  lemma InsertKeepsTable(cfg: Config, c: Core, rule: Label, now: int)
    requires TableInv(cfg, c) && rule in cfg.rules && FiringAt(c.table, rule).None?
    ensures var c' := InsertRow(c, rule, now);
            TableInv(cfg, c'.(active := c.active[rule := c'.table[|c.table|]]))
  {
    hide FiringAt, OneFiring;
    InsertedRow(c, rule, now, rule);
    forall r | r in cfg.rules && r != rule ensures FiringAt(InsertRow(c, rule, now).table, r) == FiringAt(c.table, r) {
      InsertedRow(c, rule, now, r);
    }
  }

  lemma CloseKeepsTable(cfg: Config, c: Core, rule: Label)
    requires TableInv(cfg, c) && rule in cfg.rules && FiringAt(c.table, rule).Some?
    ensures var c' := CloseRowAt(c, FiringAt(c.table, rule).value);
            TableInv(cfg, c'.(active := c.active - {rule}))
  {
    hide FiringAt, OneFiring;
    var at := FiringAt(c.table, rule).value;
    ClosedRow(c, rule, rule);
    forall r | r in cfg.rules && r != rule ensures FiringAt(CloseRowAt(c, at).table, r) == FiringAt(c.table, r) {
      ClosedRow(c, rule, r);
      assert FiringAt(c.table, r).Some? ==> FiringAt(c.table, r).value != at;
    }
  }

  /** Without failures, a statement finds the table as the tracker expects it: a row to insert has no
      rival, a row to close exists. */
  lemma StatementExpected(cfg: Config, s: State)
    requires Known(cfg) && TableInv(cfg, s.core) && TurnInv(cfg, s) && s.turn.Awaiting?
    ensures !s.turn.pending.FindRow?
    ensures s.turn.pending.OpenRow? <==> FiringAt(s.core.table, cfg.rules[s.turn.index]).None?
  {
    hide FiringAt, OneFiring;
    assert cfg.rules[s.turn.index] in cfg.rules;
  }

  lemma TurnMovesOn(cfg: Config, s: State, s': State, firing: bool)
    requires Known(cfg) && TurnInv(cfg, s) && s.turn.Awaiting? && (firing <==> s.turn.pending.OpenRow?)
    requires s'.core.trackers == s.core.trackers
    requires s'.turn.Judging? && s'.turn.index == s.turn.index + 1
    requires s'.core.active.Keys ==
             if firing then s.core.active.Keys + {cfg.rules[s.turn.index]} else s.core.active.Keys - {cfg.rules[s.turn.index]}
    ensures TurnInv(cfg, s')
  {
  }

  lemma AnswerAgrees(cfg: Config, s: State)
    requires Known(cfg) && TableInv(cfg, s.core) && TurnInv(cfg, s) && s.turn.Awaiting?
    ensures var (core, turn) := Handled(s.core, cfg.rules[s.turn.index], s.turn);
            TableInv(cfg, core) && TurnInv(cfg, s.(core := core, turn := turn))
  {
    var rule := cfg.rules[s.turn.index];
    assert rule in cfg.rules;
    hide TableInv, FiringAt, TurnInv, Known;
    StatementExpected(cfg, s);
    if s.turn.pending.OpenRow? {
      InsertKeepsTable(cfg, s.core, rule, s.turn.round.now);
    } else {
      CloseKeepsTable(cfg, s.core, rule);
    }
    var (core, turn) := Handled(s.core, rule, s.turn);
    TurnMovesOn(cfg, s, s.(core := core, turn := turn), s.turn.pending.OpenRow?);
  }

  lemma JudgedAgrees(cfg: Config, s: State, e: Evaluation)
    requires Known(cfg) && TableInv(cfg, s.core) && TurnInv(cfg, s) && s.turn.Judging? && s.turn.index < |cfg.rules|
    ensures var (core, turn) := Judged(cfg, s.core, s.turn, e);
            TableInv(cfg, core) && TurnInv(cfg, s.(core := core, turn := turn))
  {
    hide OneFiring, FiringAt;
  }

  lemma StepAgrees(cfg: Config, s: State, a: Alerting.Action)
    requires Known(cfg) && TableInv(cfg, s.core) && TurnInv(cfg, s) && Alerting.Enabled(cfg, s, NO_FAULTS, a)
    ensures TableInv(cfg, Alerting.Step(cfg, s, a).core) && TurnInv(cfg, Alerting.Step(cfg, s, a))
  {
    match a {
      case JudgeRule =>
        JudgedAgrees(cfg, s, Verdict(cfg, s.turn).value);
        assert cfg.rules[s.turn.index] in cfg.rules;
        hide TableInv, Judged;
      case Answer(reply) =>
        AnswerAgrees(cfg, s);
        hide TableInv, TurnInv, Handled;
      case _ =>
        hide TableInv, Mailboxes.Step, Mailboxes.Enabled, OfferAll;
    }
  }

  lemma {:induction false} RunAgrees(cfg: Config, s: State, actions: seq<Alerting.Action>)
    requires Known(cfg) && TableInv(cfg, s.core) && TurnInv(cfg, s) && Alerting.Legal(cfg, NO_FAULTS, s, actions)
    ensures var s' := Alerting.Run(cfg, s, actions); TableInv(cfg, s'.core) && TurnInv(cfg, s')
    decreases |actions|
  {
    if actions != [] {
      hide TableInv, TurnInv, Alerting.Step, Alerting.Enabled, Known;
      StepAgrees(cfg, s, actions[0]);
      RunAgrees(cfg, Alerting.Step(cfg, s, actions[0]), actions[1..]);
    }
  }

  /** In every run in which no statement fails, whether or not rules raise, the server agrees with
      itself: a rule is active exactly if the table has its one firing row and, except while the
      statement for it is in flight, exactly if its tracker fires. */
  lemma ServerAgrees(cfg: Config, table: seq<Alert>, nextId: nat, actions: seq<Alerting.Action>, rule: Label)
    requires Known(cfg) && OneFiring(table) && Alerting.Legal(cfg, NO_FAULTS, Loaded(cfg, table, nextId), actions)
    requires rule in cfg.rules
    ensures var s := Alerting.Run(cfg, Loaded(cfg, table, nextId), actions);
            && OneFiring(s.core.table) && rule in s.core.trackers
            && (rule in s.core.active <==> FiringAt(s.core.table, rule).Some?)
            && (rule in s.core.active ==> s.core.active[rule] == s.core.table[FiringAt(s.core.table, rule).value])
            && (!s.turn.Awaiting? ==> (rule in s.core.active <==> s.core.trackers[rule].firing))
  {
    hide Alerting.Run, Alerting.Legal, OneFiring, FiringAt;
    RunAgrees(cfg, Loaded(cfg, table, nextId), actions);
  }

  // ---- One evaluation, uninterrupted -------------------------------------------------------------

  /** Everything that happens to one rule when no statement fails. */
  function RuleDone(cfg: Config, c: Core, t: Turn): (Core, Turn)
    requires t.Judging? && t.index < |cfg.rules| && cfg.rules[t.index] in c.trackers
  {
    var rule := cfg.rules[t.index];
    if Verdict(cfg, t).None? then (c, Resting)
    else
      var (c1, t1) := Judged(cfg, c, t, Verdict(cfg, t).value);
      if t1.Judging? then (c1, t1)
      else
        var (c2, t2) := Handled(c1, rule, t1);
        if t2.Judging? then (c2, t2) else Handled(c2, rule, t2)
  }

  ghost predicate Tracked(cfg: Config, c: Core) {
    forall i :: 0 <= i < |cfg.rules| ==> cfg.rules[i] in c.trackers
  }

  /** The first `n` rules of an evaluation; resting, if one of them raised. */
  function Evaluated(cfg: Config, c: Core, round: Round, n: nat): (r: (Core, Turn))
    requires n <= |cfg.rules| && Tracked(cfg, c)
    ensures Tracked(cfg, r.0)
    ensures r.1.Resting? || (r.1.Judging? && r.1.index == n && r.1.round == round)
  {
    if n == 0 then (c, Judging(0, round, []))
    else
      var (before, t) := Evaluated(cfg, c, round, n - 1);
      if t.Resting? then (before, t) else RuleDone(cfg, before, t)
  }

  /** In the transition system this is the rule's judgement and at most two answered statements. */
  lemma RuleDoneIsRun(cfg: Config, s0: State, s: State) returns (s': State)
    requires Reaches(cfg, NO_FAULTS, s0, s)
    requires s.turn.Judging? && s.turn.index < |cfg.rules| && cfg.rules[s.turn.index] in s.core.trackers
    ensures Reaches(cfg, NO_FAULTS, s0, s') && s'.client == s.client
    ensures (s'.core, s'.turn) == RuleDone(cfg, s.core, s.turn)
  {
    hide Reaches, Handled, Judge, Evaluate, Rules.Step;
    if Verdict(cfg, s.turn).None? {
      s' := Then(cfg, NO_FAULTS, s0, s, Raise);
    } else {
      s' := Then(cfg, NO_FAULTS, s0, s, JudgeRule);
      assert s'.turn.Awaiting? ==> s'.turn.index == s.turn.index;
      s' := AnswersFollow(cfg, s0, s');
    }
  }

  lemma AnswersFollow(cfg: Config, s0: State, s: State) returns (s': State)
    requires Reaches(cfg, NO_FAULTS, s0, s)
    requires s.turn.Judging? || (s.turn.Awaiting? && s.turn.index < |cfg.rules| && !s.turn.pending.FindRow?)
    ensures Reaches(cfg, NO_FAULTS, s0, s') && s'.client == s.client
    ensures s.turn.Judging? ==> s' == s
    ensures s.turn.Awaiting? ==>
              var rule := cfg.rules[s.turn.index];
              var (c2, t2) := Handled(s.core, rule, s.turn);
              (s'.core, s'.turn) == if t2.Judging? then (c2, t2) else Handled(c2, rule, t2)
  {
    hide Reaches, FiringAt;
    s' := s;
    if s.turn.Awaiting? {
      s' := Then(cfg, NO_FAULTS, s0, s, Answer(Done));
      if s'.turn.Awaiting? {
        assert s'.turn.index == s.turn.index;
        s' := Then(cfg, NO_FAULTS, s0, s', Answer(Done));
      }
    }
  }

  /** An uninterrupted evaluation is a run of the transition system. */
  lemma {:induction false} EvaluationIsRun(cfg: Config, s: State, round: Round, n: nat) returns (s': State)
    requires s.turn.Resting? && Tracked(cfg, s.core) && n <= |cfg.rules|
    ensures Reaches(cfg, NO_FAULTS, s, s') && s'.client == s.client
    ensures (s'.core, s'.turn) == Evaluated(cfg, s.core, round, n)
    decreases n
  {
    hide Reaches, RuleDone, Tracked;
    if n == 0 {
      Start(cfg, NO_FAULTS, s);
      s' := Then(cfg, NO_FAULTS, s, s, Begin(round));
    } else {
      s' := EvaluationIsRun(cfg, s, round, n - 1);
      if s'.turn.Judging? {
        assert cfg.rules[n - 1] in s'.core.trackers by {
          TrackedAt(cfg, s'.core, n - 1);
        }
        s' := RuleDoneIsRun(cfg, s, s');
      }
    }
  }

  lemma TrackedAt(cfg: Config, c: Core, i: nat)
    requires Tracked(cfg, c) && i < |cfg.rules|
    ensures cfg.rules[i] in c.trackers
  {
  }

  /** What publishing leaves in one mailbox. */
  function Told(m: Mailbox, maxPending: nat, alerts: seq<Alert>): Mailbox
    decreases |alerts|
  {
    if alerts == [] then m
    else
      var n := |alerts| - 1;
      Next(Told(m, maxPending, alerts[..n]), maxPending, DoOffer(AlertChange(alerts[n])))
  }

  lemma {:induction false} ToldIsOffered(c: Connection, maxPending: nat, alerts: seq<Alert>)
    ensures OfferAll(c, maxPending, alerts).box == Told(c.box, maxPending, alerts)
    decreases |alerts|
  {
    if alerts != [] {
      ToldIsOffered(c, maxPending, alerts[..|alerts| - 1]);
    }
  }

  /** A whole evaluation with its publication, seen from the server and from any connected client, is
      a run of the transition system. */
  lemma TurnIsRun(cfg: Config, s: State, round: Round) returns (s': State)
    requires s.turn.Resting? && Tracked(cfg, s.core)
    ensures Reaches(cfg, NO_FAULTS, s, s') && s'.turn.Resting?
    ensures var (core, turn) := Evaluated(cfg, s.core, round, |cfg.rules|);
            && s'.core == core
            && (s'.client.Some? <==> s.client.Some?)
            && (s.client.Some? ==> s'.client.value.box == Told(s.client.value.box, cfg.maxPending, Changed(turn)))
  {
    s' := EvaluationIsRun(cfg, s, round, |cfg.rules|);
    hide Reaches, Evaluated, Tracked;
    if s'.turn.Judging? {
      if s.client.Some? {
        ToldIsOffered(s.client.value, cfg.maxPending, Changed(s'.turn));
      }
      s' := Then(cfg, NO_FAULTS, s, s', Publish);
    }
  }

  // ---- Round after round ---------------------------------------------------------------------------

  /** No rule divides by zero in the round. */
  ghost predicate Quiet(cfg: Config, round: Round) {
    forall k :: 0 <= k < |cfg.rules| ==> Evaluate(cfg.judge(cfg.rules[k]), round.inputs).Some?
  }

  function EvaluationOf(cfg: Config, k: nat, round: Round): Evaluation
    requires k < |cfg.rules| && Evaluate(cfg.judge(cfg.rules[k]), round.inputs).Some?
  {
    Evaluate(cfg.judge(cfg.rules[k]), round.inputs).value
  }

  lemma RuleDoneTracker(cfg: Config, c: Core, t: Turn)
    requires t.Judging? && t.index < |cfg.rules| && cfg.rules[t.index] in c.trackers
    ensures Verdict(cfg, t).Some? ==>
              && !RuleDone(cfg, c, t).1.Resting?
              && RuleDone(cfg, c, t).0.trackers
                 == c.trackers[cfg.rules[t.index] := Rules.Step(cfg.counts, c.trackers[cfg.rules[t.index]], Verdict(cfg, t).value).0]
  {
    hide FiringAt, Rules.Step, Evaluate;
  }

  /** An evaluation steps every tracker once, with its own rule's evaluation. */
  lemma {:induction false} EvaluatedTracker(cfg: Config, c: Core, round: Round, n: nat, k: nat)
    requires Known(cfg) && Tracked(cfg, c) && n <= |cfg.rules| && k < |cfg.rules| && Quiet(cfg, round)
    ensures var (after, t) := Evaluated(cfg, c, round, n);
            && t.Judging? && cfg.rules[k] in c.trackers && cfg.rules[k] in after.trackers
            && after.trackers[cfg.rules[k]] ==
               if k < n then Rules.Step(cfg.counts, c.trackers[cfg.rules[k]], EvaluationOf(cfg, k, round)).0
               else c.trackers[cfg.rules[k]]
    decreases n
  {
    hide RuleDone, Rules.Step, Evaluate;
    if n > 0 {
      EvaluatedTracker(cfg, c, round, n - 1, k);
      var (before, t) := Evaluated(cfg, c, round, n - 1);
      RuleDoneTracker(cfg, before, t);
      assert Verdict(cfg, t) == Evaluate(cfg.judge(cfg.rules[n - 1]), round.inputs);
      if k == n - 1 {
        EvaluatedTracker(cfg, c, round, n - 1, n - 1);
      }
    }
  }

  /** The evaluator after a sequence of uninterrupted evaluations. */
  function AfterRounds(cfg: Config, c: Core, rounds: seq<Round>): (r: Core)
    requires Tracked(cfg, c)
    ensures Tracked(cfg, r)
    decreases |rounds|
  {
    if rounds == [] then c
    else Evaluated(cfg, AfterRounds(cfg, c, rounds[..|rounds| - 1]), rounds[|rounds| - 1], |cfg.rules|).0
  }

  ghost predicate AllQuiet(cfg: Config, rounds: seq<Round>) {
    forall i :: 0 <= i < |rounds| ==> Quiet(cfg, rounds[i])
  }

  /** What a rule said in each round. */
  function History(cfg: Config, k: nat, rounds: seq<Round>): (es: seq<Evaluation>)
    requires k < |cfg.rules| && AllQuiet(cfg, rounds)
    ensures |es| == |rounds| && forall i :: 0 <= i < |rounds| ==> es[i] == EvaluationOf(cfg, k, rounds[i])
  {
    seq(|rounds|, i requires 0 <= i < |rounds| => EvaluationOf(cfg, k, rounds[i]))
  }

  /** Each tracker replays the evaluations of its own rule. */
  lemma {:induction false} TrackersReplay(cfg: Config, c: Core, rounds: seq<Round>, k: nat)
    requires Known(cfg) && Tracked(cfg, c) && AllQuiet(cfg, rounds) && k < |cfg.rules|
    requires cfg.rules[k] in c.trackers && c.trackers[cfg.rules[k]].streak == 0
    ensures cfg.rules[k] in AfterRounds(cfg, c, rounds).trackers
    ensures AfterRounds(cfg, c, rounds).trackers[cfg.rules[k]]
         == Replay(cfg.counts, c.trackers[cfg.rules[k]].firing, History(cfg, k, rounds)).tracker
    decreases |rounds|
  {
    hide Evaluated, Rules.Step, Evaluate;
    if rounds != [] {
      var n := |rounds| - 1;
      TrackersReplay(cfg, c, rounds[..n], k);
      assert History(cfg, k, rounds)[..n] == History(cfg, k, rounds[..n]);
      EvaluatedTracker(cfg, AfterRounds(cfg, c, rounds[..n]), rounds[n], |cfg.rules|, k);
    }
  }

  /** Uninterrupted evaluations keep the server in agreement with itself. */
  lemma {:induction false} RoundsAgree(cfg: Config, c: Core, rounds: seq<Round>)
    requires Known(cfg) && Tracked(cfg, c) && TableInv(cfg, c) && TurnInv(cfg, State(c, Resting, None))
    ensures var after := AfterRounds(cfg, c, rounds); TableInv(cfg, after) && TurnInv(cfg, State(after, Resting, None))
    decreases |rounds|
  {
    if rounds != [] {
      hide TableInv, Evaluated, Tracked;
      RoundsAgree(cfg, c, rounds[..|rounds| - 1]);
      hide TurnInv;
      var s := State(AfterRounds(cfg, c, rounds[..|rounds| - 1]), Resting, None);
      var s' := TurnIsRun(cfg, s, rounds[|rounds| - 1]);
      var actions :| Alerting.Legal(cfg, NO_FAULTS, s, actions) && Alerting.Run(cfg, s, actions) == s';
      hide Alerting.Legal, Alerting.Run;
      RunAgrees(cfg, s, actions);
      assert s' == State(s'.core, Resting, None);
    }
  }

  /** From a restart on, without faults, an alert is active exactly if the tracker's rules say so of what
      its rule evaluated to in every round. */
  lemma ActiveExactly(cfg: Config, table: seq<Alert>, nextId: nat, rounds: seq<Round>, k: nat)
    requires Known(cfg) && OneFiring(table) && AllQuiet(cfg, rounds) && k < |cfg.rules|
    ensures var start := Loaded(cfg, table, nextId).core;
            && Tracked(cfg, start)
            && (cfg.rules[k] in AfterRounds(cfg, start, rounds).active <==>
                Replay(cfg.counts, FiringAt(table, cfg.rules[k]).Some?, History(cfg, k, rounds)).tracker.firing)
  {
    LoadedAgrees(cfg, table, nextId, k);
    hide Loaded, TableInv, TurnInv, TellsWhen, AfterRounds, Replay, FiringAt, OneFiring;
    RoundsAgree(cfg, Loaded(cfg, table, nextId).core, rounds);
    TrackersReplay(cfg, Loaded(cfg, table, nextId).core, rounds, k);
    ActiveFires(cfg, AfterRounds(cfg, Loaded(cfg, table, nextId).core, rounds), k);
  }

  lemma ActiveFires(cfg: Config, c: Core, k: nat)
    requires TurnInv(cfg, State(c, Resting, None)) && k < |cfg.rules|
    ensures cfg.rules[k] in c.trackers && (cfg.rules[k] in c.active <==> c.trackers[cfg.rules[k]].firing)
  {
    assert cfg.rules[k] in cfg.rules;
  }

  /** What the map of active alerts becomes when a rule's tracker makes this transition. */
  function Moved(active: map<Label, Alert>, rule: Label, transition: Option<Transition>, id: nat, now: int): map<Label, Alert> {
    match transition
    case None => active
    case Some(Fire) => active[rule := Alert(id, rule, Firing, now)]
    case Some(Resolve) => active - {rule}
  }

  lemma RuleDoneActive(cfg: Config, c: Core, t: Turn)
    requires TableInv(cfg, c) && t.Judging? && t.index < |cfg.rules| && cfg.rules[t.index] in c.trackers
    requires c.trackers[cfg.rules[t.index]].firing <==> cfg.rules[t.index] in c.active
    requires Verdict(cfg, t).Some?
    ensures var rule := cfg.rules[t.index];
            RuleDone(cfg, c, t).0.active
            == Moved(c.active, rule, Rules.Step(cfg.counts, c.trackers[rule], Verdict(cfg, t).value).1, c.nextId, t.round.now)
  {
    hide Evaluate, FiringAt, OneFiring;
  }

  /** In the middle of an evaluation the server agrees with itself. */
  lemma EvaluatedAgrees(cfg: Config, c: Core, round: Round, n: nat)
    requires Known(cfg) && Tracked(cfg, c) && TableInv(cfg, c) && TurnInv(cfg, State(c, Resting, None)) && n <= |cfg.rules|
    ensures var (after, t) := Evaluated(cfg, c, round, n); TableInv(cfg, after) && TurnInv(cfg, State(after, t, None))
  {
    hide TableInv, TurnInv, Evaluated, Tracked;
    var s := State(c, Resting, None);
    var s' := EvaluationIsRun(cfg, s, round, n);
    var actions :| Alerting.Legal(cfg, NO_FAULTS, s, actions) && Alerting.Run(cfg, s, actions) == s';
    hide Alerting.Legal, Alerting.Run;
    RunAgrees(cfg, s, actions);
    assert s' == State(s'.core, s'.turn, None);
  }

  predicate FiredAt(a: Alert, rule: Label, now: int) {
    a.rule == rule && a.state.Firing? && a.firedAt == now
  }

  /** What an evaluation has made of one rule's active alert after the first `n` rules. */
  ghost predicate ActiveAfter(cfg: Config, c: Core, round: Round, after: Core, n: nat, k: nat)
    requires k < |cfg.rules| && cfg.rules[k] in c.trackers && Evaluate(cfg.judge(cfg.rules[k]), round.inputs).Some?
  {
    var rule, transition := cfg.rules[k], Rules.Step(cfg.counts, c.trackers[cfg.rules[k]], EvaluationOf(cfg, k, round)).1;
    if k >= n || transition.None? then
      (rule in after.active <==> rule in c.active) && (rule in c.active ==> after.active[rule] == c.active[rule])
    else if transition == Some(Fire) then
      rule in after.active && FiredAt(after.active[rule], rule, round.now)
    else rule !in after.active
  }

  lemma MovedElsewhere(active: map<Label, Alert>, rule: Label, transition: Option<Transition>, id: nat, now: int, other: Label)
    requires other != rule
    ensures var after := Moved(active, rule, transition, id, now);
            (other in after <==> other in active) && (other in active ==> after[other] == active[other])
  {
  }

  lemma {:induction false} EvaluatedActive(cfg: Config, c: Core, round: Round, n: nat, k: nat)
    requires Known(cfg) && Tracked(cfg, c) && TableInv(cfg, c) && TurnInv(cfg, State(c, Resting, None))
    requires Quiet(cfg, round) && n <= |cfg.rules| && k < |cfg.rules| && cfg.rules[k] in c.trackers
    ensures ActiveAfter(cfg, c, round, Evaluated(cfg, c, round, n).0, n, k)
    decreases n
  {
    hide RuleDone, Rules.Step, Evaluate, TableInv, TurnInv, Moved;
    if n > 0 {
      var m := n - 1;
      EvaluatedActive(cfg, c, round, m, k);
      EvaluatedTracker(cfg, c, round, m, m);
      EvaluatedAgrees(cfg, c, round, m);
      var (before, t) := Evaluated(cfg, c, round, m);
      assert Verdict(cfg, t) == Evaluate(cfg.judge(cfg.rules[m]), round.inputs);
      FiresWhatIsActive(cfg, before, t);
      RuleDoneActive(cfg, before, t);
      hide Evaluated;
      OneRuleMore(cfg, c, round, before, RuleDone(cfg, before, t).0, m, k);
    }
  }

  lemma FiresWhatIsActive(cfg: Config, c: Core, t: Turn)
    requires TurnInv(cfg, State(c, t, None)) && t.Judging? && t.index < |cfg.rules|
    ensures cfg.rules[t.index] in c.trackers
    ensures c.trackers[cfg.rules[t.index]].firing <==> cfg.rules[t.index] in c.active
  {
    assert cfg.rules[t.index] in cfg.rules;
  }

  lemma OneRuleMore(cfg: Config, c: Core, round: Round, before: Core, after: Core, m: nat, k: nat)
    requires Known(cfg) && m < |cfg.rules| && k < |cfg.rules| && Quiet(cfg, round)
    requires cfg.rules[k] in c.trackers && cfg.rules[m] in c.trackers
    requires ActiveAfter(cfg, c, round, before, m, k)
    requires after.active == Moved(before.active, cfg.rules[m],
               Rules.Step(cfg.counts, c.trackers[cfg.rules[m]], EvaluationOf(cfg, m, round)).1, before.nextId, round.now)
    ensures ActiveAfter(cfg, c, round, after, m + 1, k)
  {
    hide Rules.Step, Evaluate;
    if k != m {
      MovedElsewhere(before.active, cfg.rules[m],
                     Rules.Step(cfg.counts, c.trackers[cfg.rules[m]], EvaluationOf(cfg, m, round)).1, before.nextId, round.now,
                     cfg.rules[k]);
    }
  }

  /** The active alert of a rule that made its last transition in round `since`: the row it was resumed
      from if there was none, and otherwise one fired at the time of that round. */
  ghost predicate TellsWhen(table: seq<Alert>, rounds: seq<Round>, rule: Label, since: nat, active: map<Label, Alert>) {
    && since <= |rounds|
    && (rule in active ==>
          if since == 0 then FiringAt(table, rule).Some? && active[rule] == table[FiringAt(table, rule).value]
          else FiredAt(active[rule], rule, rounds[since - 1].now))
  }

  lemma RoundTellsWhen(cfg: Config, table: seq<Alert>, rounds: seq<Round>, k: nat, since: nat, before: Core, e: Evaluation)
    requires Known(cfg) && k < |cfg.rules| && rounds != [] && Quiet(cfg, rounds[|rounds| - 1])
    requires Tracked(cfg, before) && TableInv(cfg, before) && TurnInv(cfg, State(before, Resting, None))
    requires EvaluationOf(cfg, k, rounds[|rounds| - 1]) == e
    requires TellsWhen(table, rounds[..|rounds| - 1], cfg.rules[k], since, before.active)
    ensures cfg.rules[k] in before.trackers
    ensures var transition := Rules.Step(cfg.counts, before.trackers[cfg.rules[k]], e).1;
            TellsWhen(table, rounds, cfg.rules[k], if transition.None? then since else |rounds|,
                      Evaluated(cfg, before, rounds[|rounds| - 1], |cfg.rules|).0.active)
  {
    hide Rules.Step, Evaluate, FiringAt, Evaluated, TableInv, TurnInv;
    TrackedAt(cfg, before, k);
    EvaluatedActive(cfg, before, rounds[|rounds| - 1], |cfg.rules|, k);
  }

  lemma ReplayMore(c: Counts, firing: bool, es: seq<Evaluation>)
    requires es != []
    ensures var before, after := Replay(c, firing, es[..|es| - 1]), Replay(c, firing, es);
            var transition := Rules.Step(c, before.tracker, es[|es| - 1]).1;
            after.since == if transition.None? then before.since else |es|
  {
    hide Rules.Step;
  }

  /** From a restart on, without faults: an active alert is the row it was resumed from as long as its rule
      has made no transition, and otherwise it was fired in the round of the last one and says so. */
  lemma {:induction false} ActiveTellsWhen(cfg: Config, table: seq<Alert>, nextId: nat, rounds: seq<Round>, k: nat)
    requires Known(cfg) && OneFiring(table) && AllQuiet(cfg, rounds) && k < |cfg.rules|
    ensures var start, rule := Loaded(cfg, table, nextId).core, cfg.rules[k];
            && Tracked(cfg, start)
            && TellsWhen(table, rounds, rule,
                         Replay(cfg.counts, FiringAt(table, rule).Some?, History(cfg, k, rounds)).since,
                         AfterRounds(cfg, start, rounds).active)
    decreases |rounds|
  {
    var start, rule := Loaded(cfg, table, nextId).core, cfg.rules[k];
    LoadedAgrees(cfg, table, nextId, k);
    hide Loaded, TableInv, TurnInv, OneFiring, Evaluated, Rules.Step, Evaluate, TellsWhen, FiringAt, EvaluationOf;
    if rounds == [] {
      assert History(cfg, k, rounds) == [];
    } else {
      var n := |rounds| - 1;
      ActiveTellsWhen(cfg, table, nextId, rounds[..n], k);
      RoundsAgree(cfg, start, rounds[..n]);
      TrackersReplay(cfg, start, rounds[..n], k);
      assert History(cfg, k, rounds)[..n] == History(cfg, k, rounds[..n]);
      ReplayMore(cfg.counts, FiringAt(table, rule).Some?, History(cfg, k, rounds));
      var h := Replay(cfg.counts, FiringAt(table, rule).Some?, History(cfg, k, rounds[..n]));
      hide Replay;
      RoundTellsWhen(cfg, table, rounds, k, h.since, AfterRounds(cfg, start, rounds[..n]), EvaluationOf(cfg, k, rounds[n]));
    }
  }

  /** A restart resumes the firing rows. */
  lemma LoadedAgrees(cfg: Config, table: seq<Alert>, nextId: nat, k: nat)
    requires Known(cfg) && OneFiring(table) && k < |cfg.rules|
    ensures var start, rule := Loaded(cfg, table, nextId).core, cfg.rules[k];
            && Tracked(cfg, start) && TableInv(cfg, start) && TurnInv(cfg, State(start, Resting, None))
            && rule in start.trackers && start.trackers[rule] == Tracker(FiringAt(table, rule).Some?, 0)
            && TellsWhen(table, [], rule, 0, start.active)
  {
    var start := Loaded(cfg, table, nextId).core;
    assert cfg.rules[k] in cfg.rules;
    assert Loaded(cfg, table, nextId) == State(start, Resting, None);
    hide FiringAt, OneFiring;
  }

  // ---- The table and the evaluator as objects ------------------------------------------------------

  class AlertTable {
    var rows: seq<Alert>
    var nextId: nat

    constructor (rows: seq<Alert>, nextId: nat)
      ensures this.rows == rows && this.nextId == nextId
    {
      this.rows, this.nextId := rows, nextId;
    }

    /** `INSERT ... ON CONFLICT DO NOTHING RETURNING *`. */
    method Open(rule: Label, now: int) returns (row: Option<Alert>)
      modifies this
      ensures FiringAt(old(rows), rule).Some? ==> row == None && rows == old(rows) && nextId == old(nextId)
      ensures FiringAt(old(rows), rule).None? ==>
                row == Some(Alert(old(nextId), rule, Firing, now)) && rows == old(rows) + [row.value] && nextId == old(nextId) + 1
    {
      if FiringAt(rows, rule).Some? {
        return None;
      }
      row := Some(Alert(nextId, rule, Firing, now));
      rows, nextId := rows + [row.value], nextId + 1;
    }

    method Find(rule: Label) returns (row: Option<Alert>)
      ensures row == if FiringAt(rows, rule).None? then None else Some(rows[FiringAt(rows, rule).value])
    {
      var at := FiringAt(rows, rule);
      row := if at.None? then None else Some(rows[at.value]);
    }

    /** `UPDATE ... SET state = 'resolved' ... RETURNING *`. */
    method Close(rule: Label) returns (row: Option<Alert>)
      modifies this`rows
      ensures FiringAt(old(rows), rule).None? ==> row == None && rows == old(rows)
      ensures FiringAt(old(rows), rule).Some? ==>
                var at := FiringAt(old(rows), rule).value;
                row == Some(old(rows)[at].(state := Resolved)) && rows == old(rows)[at := row.value]
    {
      var at := FiringAt(rows, rule);
      if at.None? {
        return None;
      }
      row := Some(rows[at.value].(state := Resolved));
      rows := rows[at.value := row.value];
    }
  }

  class AlertEvaluator {
    const cfg: Config
    const table: AlertTable
    const hub: Hub
    var trackers: map<Label, Tracker>
    var active: map<Label, Alert>

    ghost function State(): Core
      reads this, table
    {
      Core(trackers, active, table.rows, table.nextId)
    }

    /** The evaluator as it starts: trackers of the known rules, resumed from the firing rows. */
    constructor (cfg: Config, table: AlertTable, hub: Hub)
      ensures this.cfg == cfg && this.table == table && this.hub == hub && Tracked(cfg, State())
      ensures State() == Loaded(cfg, table.rows, table.nextId).core
    {
      this.cfg, this.table, this.hub := cfg, table, hub;
      var rules := set r | r in cfg.rules;
      var rows := table.rows;
      trackers := map r | r in rules :: Tracker(FiringAt(rows, r).Some?, 0);
      active := map r | r in rules && FiringAt(rows, r).Some? :: rows[FiringAt(rows, r).value];
    }

    /** Goes through the rules in order and publishes the alerts opened or closed; `None`, and
        nothing is published, when a rule raises. */
    method EvaluateOnce(round: Round) returns (changed: Option<seq<Alert>>)
      requires Tracked(cfg, State())
      modifies this, table, hub.clients
      ensures Tracked(cfg, State())
      ensures var (core, turn) := Evaluated(cfg, old(State()), round, |cfg.rules|);
              && State() == core
              && (changed.None? <==> turn.Resting?)
              && (changed.Some? ==> changed.value == Changed(turn))
              && (forall c :: c in hub.clients ==> c.Box() == Told(old(c.Box()), c.maxPending, Changed(turn)))
    {
      hide Evaluated, Tracked;
      changed := EvaluateRules(round);
      if changed.Some? {
        Publish(changed.value);
      }
    }

    method EvaluateRules(round: Round) returns (changed: Option<seq<Alert>>)
      requires Tracked(cfg, State())
      modifies this, table
      ensures Tracked(cfg, State())
      ensures (State(), if changed.None? then Resting else Judging(|cfg.rules|, round, changed.value))
           == Evaluated(cfg, old(State()), round, |cfg.rules|)
    {
      ghost var before := State();
      var alerts: seq<Alert> := [];
      hide RuleDone;
      for i := 0 to |cfg.rules|
        invariant Tracked(cfg, State())
        invariant (State(), Judging(i, round, alerts)) == Evaluated(cfg, before, round, i)
      {
        var raised, alert := EvaluateRule(i, round, alerts);
        if raised {
          StaysResting(cfg, before, round, i + 1, |cfg.rules|);
          return None;
        }
        if alert.Some? {
          alerts := alerts + [alert.value];
        }
        assert Tracked(cfg, Evaluated(cfg, before, round, i + 1).0);
      }
      changed := Some(alerts);
    }

    method EvaluateRule(i: nat, round: Round, ghost alerts: seq<Alert>) returns (raised: bool, alert: Option<Alert>)
      requires i < |cfg.rules| && cfg.rules[i] in trackers
      modifies this, table
      ensures (State(), if raised then Resting else Judging(i + 1, round, if alert.None? then alerts else alerts + [alert.value]))
           == RuleDone(cfg, old(State()), Judging(i, round, alerts))
    {
      var rule := cfg.rules[i];
      var evaluation := Evaluate(cfg.judge(rule), round.inputs);
      alert := None;
      hide Evaluate, Rules.Step, FiringAt;
      if evaluation.None? {
        return true, None;
      }
      raised := false;
      var (tracker, transition) := Rules.Step(cfg.counts, trackers[rule], evaluation.value);
      trackers := trackers[rule := tracker];
      if transition == Some(Fire) {
        alert := table.Open(rule, round.now);
        if alert.None? {
          alert := table.Find(rule);
        }
        if alert.Some? {
          active := active[rule := alert.value];
        }
      } else if transition == Some(Resolve) {
        alert := table.Close(rule);
        active := active - {rule};
      }
    }

    method Publish(alerts: seq<Alert>)
      modifies hub.clients
      ensures forall c :: c in hub.clients ==> c.Box() == Told(old(c.Box()), c.maxPending, alerts)
    {
      for i := 0 to |alerts|
        invariant forall c :: c in hub.clients ==> c.Box() == Told(old(c.Box()), c.maxPending, alerts[..i])
      {
        hide Next;
        hub.Publish(AlertChange(alerts[i]));
        assert alerts[..i + 1][..i] == alerts[..i];
      }
      assert alerts[..|alerts|] == alerts;
    }
  }

  lemma {:induction false} StaysResting(cfg: Config, c: Core, round: Round, i: nat, n: nat)
    requires i <= n <= |cfg.rules| && Tracked(cfg, c) && Evaluated(cfg, c, round, i).1.Resting?
    ensures Evaluated(cfg, c, round, n) == Evaluated(cfg, c, round, i)
    decreases n
  {
    if i < n {
      StaysResting(cfg, c, round, i, n - 1);
    }
  }
}
