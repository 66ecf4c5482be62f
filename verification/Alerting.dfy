/** Alerts from the evaluator to the dashboards: trackers, the `_active` map and the alerts table on
    the server, the reliable queue in between, and the reducer that keeps the client's list. Steps
    run from one `await` to the next; the handling of two rules in one step is split in two, which
    only allows more runs. */
module Alerting {
  import opened Events
  import opened Protocol
  import opened Mailboxes
  import opened Rules

  /** Rule names in the order of evaluation, and the rule behind each name. */
  datatype Config = Config(rules: seq<Label>, judge: Label -> Rule, counts: Counts, maxPending: nat)

  // ---- The alerts table --------------------------------------------------------------------

  /** The firing row of a rule, if there is one. */
  function FiringAt(table: seq<Alert>, rule: Label): (at: Option<nat>)
    ensures at.Some? ==> at.value < |table| && table[at.value].rule == rule && table[at.value].state.Firing?
    ensures at.None? ==> forall i :: 0 <= i < |table| ==> table[i].rule != rule || !table[i].state.Firing?
  {
    if table == [] then None
    else if table[0].rule == rule && table[0].state.Firing? then Some(0)
    else
      var rest := FiringAt(table[1..], rule);
      if rest.None? then None else Some(rest.value + 1)
  }

  /** The partial unique index: at most one firing row per rule. */
  ghost predicate OneFiring(table: seq<Alert>) {
    forall i, j :: 0 <= i < j < |table| && table[i].state.Firing? && table[j].state.Firing? ==> table[i].rule != table[j].rule
  }

  // ---- The evaluator -------------------------------------------------------------------------

  datatype Core = Core(trackers: map<Label, Tracker>, active: map<Label, Alert>, table: seq<Alert>, nextId: nat)

  datatype Pending = OpenRow | FindRow | CloseRow

  /** One evaluation: its time and what it read. */
  datatype Round = Round(now: int, inputs: Inputs)

  /** Between evaluations, about to judge the rule at `index`, or awaiting a statement for it.
      `changed` is not yet published. */
  datatype Turn =
    | Resting
    | Judging(index: nat, round: Round, changed: seq<Alert>)
    | Awaiting(index: nat, round: Round, changed: seq<Alert>, pending: Pending)

  datatype Reply = Done | Failed(applied: bool)

  datatype State = State(core: Core, turn: Turn, client: Option<Connection>)

  datatype Action =
    | Begin(round: Round)
    | JudgeRule
    | Raise
    | Answer(reply: Reply)
    | Publish
    | Join(listed: seq<Alert>, recent: seq<Event>)
    | Client(action: Mailboxes.Action)

  function Changed(turn: Turn): seq<Alert> {
    if turn.Resting? then [] else turn.changed
  }

  function InsertRow(c: Core, rule: Label, now: int): Core {
    c.(table := c.table + [Alert(c.nextId, rule, Firing, now)], nextId := c.nextId + 1)
  }

  function CloseRowAt(c: Core, at: nat): Core
    requires at < |c.table|
  {
    c.(table := c.table[at := c.table[at].(state := Resolved)])
  }

  /** What the statement does to the table, if it is applied. */
  function Applied(c: Core, rule: Label, now: int, pending: Pending): Core {
    var at := FiringAt(c.table, rule);
    match pending
    case OpenRow => if at.Some? then c else InsertRow(c, rule, now)
    case FindRow => c
    case CloseRow => if at.Some? then CloseRowAt(c, at.value) else c
  }

  /** The reply of an applied statement: the new state of the evaluator and its turn. */
  function Handled(c: Core, rule: Label, t: Turn): (Core, Turn)
    requires t.Awaiting?
  {
    var at := FiringAt(c.table, rule);
    var after := Applied(c, rule, t.round.now, t.pending);
    match t.pending
    case OpenRow =>
      if at.Some? then (c, Awaiting(t.index, t.round, t.changed, FindRow))
      else
        var alert := after.table[|c.table|];
        (after.(active := c.active[rule := alert]), Judging(t.index + 1, t.round, t.changed + [alert]))
    case FindRow =>
      if at.None? then (c, Judging(t.index + 1, t.round, t.changed))
      else (c.(active := c.active[rule := c.table[at.value]]), Judging(t.index + 1, t.round, t.changed + [c.table[at.value]]))
    case CloseRow =>
      (after.(active := c.active - {rule}),
       Judging(t.index + 1, t.round, if at.None? then t.changed else t.changed + [after.table[at.value]]))
  }

  function Judged(cfg: Config, c: Core, t: Turn, e: Evaluation): (Core, Turn)
    requires t.Judging? && t.index < |cfg.rules| && cfg.rules[t.index] in c.trackers
  {
    var rule := cfg.rules[t.index];
    var (tracker, transition) := Rules.Step(cfg.counts, c.trackers[rule], e);
    var c' := c.(trackers := c.trackers[rule := tracker]);
    match transition
    case None => (c', Judging(t.index + 1, t.round, t.changed))
    case Some(Fire) => (c', Awaiting(t.index, t.round, t.changed, OpenRow))
    case Some(Resolve) => (c', Awaiting(t.index, t.round, t.changed, CloseRow))
  }

  /** Offers the alerts in order. */
  function OfferAll(c: Connection, maxPending: nat, alerts: seq<Alert>): Connection
    decreases |alerts|
  {
    if alerts == [] then c
    else
      var n := |alerts| - 1;
      Mailboxes.Step(OfferAll(c, maxPending, alerts[..n]), maxPending, DoOffer(AlertChange(alerts[n])))
  }

  /** The list a new client is greeted with: the active alerts, oldest first. */
  ghost predicate Lists(listed: seq<Alert>, active: map<Label, Alert>) {
    && Shows(listed, active)
    && forall i, j :: 0 <= i < j < |listed| ==> listed[i].firedAt <= listed[j].firedAt
  }

  /** What the rule at the turn's index says: `None` when its division raises. */
  function Verdict(cfg: Config, t: Turn): Option<Evaluation>
    requires t.Judging? && t.index < |cfg.rules|
  {
    Evaluate(cfg.judge(cfg.rules[t.index]), t.round.inputs)
  }

  /** Which statements may fail: those issued while no change awaits publication, those issued while one
      does, and whether a failed `UPDATE` may have been committed. */
  datatype Faults = Faults(idle: bool, pending: bool, lostClose: bool)

  ghost predicate MayFail(f: Faults, t: Turn, applied: bool)
    requires t.Awaiting?
  {
    && (if t.changed == [] then f.idle else f.pending)
    && (t.pending.CloseRow? && applied ==> f.lostClose)
  }

  ghost predicate Enabled(cfg: Config, s: State, f: Faults, a: Action) {
    match a
    case Begin(_) => s.turn.Resting?
    case JudgeRule => s.turn.Judging? && s.turn.index < |cfg.rules| && Verdict(cfg, s.turn).Some?
    case Raise => s.turn.Judging? && s.turn.index < |cfg.rules| && Verdict(cfg, s.turn).None?
    case Answer(reply) =>
      s.turn.Awaiting? && s.turn.index < |cfg.rules| && (reply.Failed? ==> MayFail(f, s.turn, reply.applied))
    case Publish => s.turn.Judging? && s.turn.index == |cfg.rules|
    case Join(listed, _) => Lists(listed, s.core.active)
    case Client(a) =>
      && s.client.Some? && Mailboxes.Enabled(s.client.value.box, a)
      && (a.DoOffer? ==> a.message.Ping?)
  }

  function Step(cfg: Config, s: State, a: Action): State {
    match a
    case Begin(round) => s.(turn := Judging(0, round, []))
    case JudgeRule =>
      if s.turn.Judging? && s.turn.index < |cfg.rules| && cfg.rules[s.turn.index] in s.core.trackers && Verdict(cfg, s.turn).Some? then
        var (core, turn) := Judged(cfg, s.core, s.turn, Verdict(cfg, s.turn).value);
        s.(core := core, turn := turn)
      else s
    case Raise => s.(turn := Resting)
    case Answer(reply) =>
      if s.turn.Awaiting? && s.turn.index < |cfg.rules| then
        var rule := cfg.rules[s.turn.index];
        match reply
        case Done =>
          var (core, turn) := Handled(s.core, rule, s.turn);
          s.(core := core, turn := turn)
        case Failed(applied) =>
          // An exception leaves `evaluate_once`: what was collected in `changed` is gone.
          s.(core := if applied then Applied(s.core, rule, s.turn.round.now, s.turn.pending) else s.core, turn := Resting)
      else s
    case Publish =>
      s.(turn := Resting,
         client := if s.client.None? then None else Some(OfferAll(s.client.value, cfg.maxPending, Changed(s.turn))))
    case Join(listed, recent) =>
      s.(client := Some(Mailboxes.Step(Opened(), cfg.maxPending, DoOffer(Hello(listed, recent)))))
    case Client(a) =>
      s.(client := if s.client.None? then None else Some(Mailboxes.Step(s.client.value, cfg.maxPending, a)))
  }

  ghost predicate Legal(cfg: Config, f: Faults, s: State, actions: seq<Action>)
    decreases |actions|
  {
    actions != [] ==> Enabled(cfg, s, f, actions[0]) && Legal(cfg, f, Step(cfg, s, actions[0]), actions[1..])
  }

  function Run(cfg: Config, s: State, actions: seq<Action>): State
    decreases |actions|
  {
    if actions == [] then s else Run(cfg, Step(cfg, s, actions[0]), actions[1..])
  }

  /** `load_active`: the firing rows of known rules are resumed, with a streak of zero. */
  function Loaded(cfg: Config, table: seq<Alert>, nextId: nat): State {
    var rules := set r | r in cfg.rules;
    State(Core(map r | r in rules :: Tracker(FiringAt(table, r).Some?, 0),
               map r | r in rules && FiringAt(table, r).Some? :: table[FiringAt(table, r).value],
               table, nextId),
          Resting, None)
  }

  // ---- The client-side list --------------------------------------------------------------------

  function Others(view: seq<Alert>, rule: Label): (others: seq<Alert>)
    ensures forall a :: a in others <==> a in view && a.rule != rule
  {
    if view == [] then []
    else if view[0].rule == rule then Others(view[1..], rule)
    else [view[0]] + Others(view[1..], rule)
  }

  /** The reducer, as far as the list of active alerts is concerned. */
  function Apply(view: seq<Alert>, m: Message): seq<Alert> {
    match m
    case Hello(activeAlerts, _) => activeAlerts
    case AlertChange(alert) =>
      Others(view, alert.rule) + (if alert.state.Firing? then [alert] else [])
    case _ => view
  }

  function ApplyAll(view: seq<Alert>, ms: seq<Message>): seq<Alert>
    decreases |ms|
  {
    if ms == [] then view else Apply(ApplyAll(view, ms[..|ms| - 1]), ms[|ms| - 1])
  }

  function Changes(alerts: seq<Alert>): seq<Message>
    decreases |alerts|
  {
    if alerts == [] then [] else Changes(alerts[..|alerts| - 1]) + [AlertChange(alerts[|alerts| - 1])]
  }

  lemma ChangesLast(alerts: seq<Alert>, a: Alert)
    ensures Changes(alerts + [a]) == Changes(alerts) + [AlertChange(a)]
  {
    assert (alerts + [a])[..|alerts|] == alerts;
  }

  /** The map of active alerts after one more change. */
  function Updated(active: map<Label, Alert>, a: Alert): map<Label, Alert> {
    if a.state.Firing? then active[a.rule := a] else active - {a.rule}
  }

  ghost predicate DistinctRules(view: seq<Alert>) {
    forall i, j :: 0 <= i < j < |view| ==> view[i].rule != view[j].rule
  }

  /** The list shows exactly the active alerts, each once. */
  ghost predicate Shows(view: seq<Alert>, active: map<Label, Alert>) {
    && DistinctRules(view)
    && (forall a :: a in view <==> a.rule in active && active[a.rule] == a)
  }

  // ---- Invariant -------------------------------------------------------------------------------

  ghost predicate Known(cfg: Config) {
    forall i, j :: 0 <= i < j < |cfg.rules| ==> cfg.rules[i] != cfg.rules[j]
  }

  /** Every active alert has a firing row, so closing it will be noticed. */
  ghost predicate RowInv(cfg: Config, c: Core) {
    && OneFiring(c.table)
    && (forall r :: r in cfg.rules ==> r in c.trackers)
    && (forall r :: r in c.active ==> r in cfg.rules && FiringAt(c.table, r).Some?)
  }

  ghost predicate TurnShape(cfg: Config, t: Turn) {
    && (!t.Resting? ==> t.index <= |cfg.rules|)
    && (t.Awaiting? ==> t.index < |cfg.rules|)
  }

  /** What is not yet published already holds in `active`, and concerns rules already judged. */
  ghost predicate ChangedInv(cfg: Config, s: State) {
    && (!s.turn.Resting? ==> s.turn.index <= |cfg.rules|)
    && forall a :: a in Changed(s.turn) ==>
         && a.rule in cfg.rules[..s.turn.index]
         && Holds(s.core.active, a)
  }

  ghost predicate ClientInv(cfg: Config, s: State) {
    s.client.Some? ==>
      var c := s.client.value;
      && Mailboxes.Inv(c, cfg.maxPending)
      && c.trace.offered != [] && c.trace.offered[0].Hello?
      && Shows(ApplyAll([], c.trace.offered + Changes(Changed(s.turn))), s.core.active)
  }

  ghost predicate Inv(cfg: Config, s: State) {
    RowInv(cfg, s.core) && TurnShape(cfg, s.turn) && ChangedInv(cfg, s) && ClientInv(cfg, s)
  }

  lemma OnlyFiringRow(table: seq<Alert>, i: nat)
    requires OneFiring(table) && i < |table| && table[i].state.Firing?
    ensures FiringAt(table, table[i].rule) == Some(i)
  {
  }

  /** The firing rows of a rule stand at the same places. */
  ghost predicate SameFiring(t: seq<Alert>, t': seq<Alert>, rule: Label) {
    forall i :: 0 <= i < |t| || 0 <= i < |t'| ==>
      (0 <= i < |t| && t[i].rule == rule && t[i].state.Firing? <==> 0 <= i < |t'| && t'[i].rule == rule && t'[i].state.Firing?)
  }

  lemma SameFiringAt(t: seq<Alert>, t': seq<Alert>, rule: Label)
    requires OneFiring(t') && SameFiring(t, t', rule)
    ensures FiringAt(t', rule) == FiringAt(t, rule)
  {
    var at := FiringAt(t, rule);
    hide FiringAt;
    if at.Some? {
      OnlyFiringRow(t', at.value);
    }
  }

  lemma InsertedRow(c: Core, rule: Label, now: int, other: Label)
    requires OneFiring(c.table) && FiringAt(c.table, rule).None?
    ensures var table := InsertRow(c, rule, now).table;
            && OneFiring(table) && FiringAt(table, rule) == Some(|c.table|)
            && (other != rule ==> FiringAt(table, other) == FiringAt(c.table, other))
            && forall i :: 0 <= i < |c.table| ==> table[i] == c.table[i]
  {
    hide FiringAt;
    var table := InsertRow(c, rule, now).table;
    OnlyFiringRow(table, |c.table|);
    if other != rule {
      SameFiringAt(c.table, table, other);
    }
  }

  lemma ClosedRow(c: Core, rule: Label, other: Label)
    requires OneFiring(c.table) && FiringAt(c.table, rule).Some?
    ensures var table := CloseRowAt(c, FiringAt(c.table, rule).value).table;
            && OneFiring(table) && FiringAt(table, rule).None?
            && (other != rule ==> FiringAt(table, other) == FiringAt(c.table, other))
            && |table| == |c.table| && forall i :: 0 <= i < |table| && i != FiringAt(c.table, rule).value ==> table[i] == c.table[i]
  {
    hide FiringAt;
    var table := CloseRowAt(c, FiringAt(c.table, rule).value).table;
    assert OneFiring(table);
    assert FiringAt(table, rule).None?;
    if other != rule {
      SameFiringAt(c.table, table, other);
    }
  }

  lemma InsertKeepsRows(cfg: Config, c: Core, rule: Label, now: int)
    requires RowInv(cfg, c) && rule in cfg.rules && FiringAt(c.table, rule).None?
    ensures var c' := InsertRow(c, rule, now);
            RowInv(cfg, c') && RowInv(cfg, c'.(active := c.active[rule := c'.table[|c.table|]]))
  {
    hide FiringAt, OneFiring;
    InsertedRow(c, rule, now, rule);
    forall r | r in cfg.rules && r != rule ensures FiringAt(InsertRow(c, rule, now).table, r) == FiringAt(c.table, r) {
      InsertedRow(c, rule, now, r);
    }
  }

  lemma CloseKeepsRows(cfg: Config, c: Core, rule: Label)
    requires RowInv(cfg, c) && rule in cfg.rules && FiringAt(c.table, rule).Some?
    ensures RowInv(cfg, CloseRowAt(c, FiringAt(c.table, rule).value).(active := c.active - {rule}))
  {
    hide FiringAt, OneFiring;
    var at := FiringAt(c.table, rule).value;
    ClosedRow(c, rule, rule);
    forall r | r in cfg.rules && r != rule ensures FiringAt(CloseRowAt(c, at).table, r) == FiringAt(c.table, r) {
      ClosedRow(c, rule, r);
    }
  }

  /** A handled reply leaves an alert to publish exactly if it changes the map of active alerts. */
  lemma HandledChanges(cfg: Config, c: Core, rule: Label, t: Turn) returns (change: Option<Alert>)
    requires RowInv(cfg, c) && rule in cfg.rules && t.Awaiting?
    ensures var (core, turn) := Handled(c, rule, t);
            && RowInv(cfg, core) && core.trackers == c.trackers && !turn.Resting? && turn.round == t.round
            && turn.index == (if turn.Awaiting? then t.index else t.index + 1)
            && (change.None? ==> turn.changed == t.changed && core.active == c.active)
            && (change.Some? ==>
                  && change.value.rule == rule && turn.Judging?
                  && turn.changed == t.changed + [change.value] && core.active == Updated(c.active, change.value))
  {
    var at := FiringAt(c.table, rule);
    hide FiringAt, OneFiring;
    change := None;
    match t.pending {
      case OpenRow =>
        if at.None? {
          InsertKeepsRows(cfg, c, rule, t.round.now);
          change := Some(Alert(c.nextId, rule, Firing, t.round.now));
        }
      case FindRow =>
        if at.Some? {
          change := Some(c.table[at.value]);
        }
      case CloseRow =>
        if at.Some? {
          CloseKeepsRows(cfg, c, rule);
          change := Some(c.table[at.value].(state := Resolved));
        } else {
          assert c.active - {rule} == c.active;
        }
    }
  }

  lemma JudgedShape(cfg: Config, c: Core, t: Turn, e: Evaluation)
    requires RowInv(cfg, c) && t.Judging? && t.index < |cfg.rules| && cfg.rules[t.index] in c.trackers
    ensures var (core, turn) := Judged(cfg, c, t, e);
            && RowInv(cfg, core) && core.active == c.active && !turn.Resting? && turn.changed == t.changed
            && t.index <= turn.index <= |cfg.rules| && (turn.Awaiting? ==> turn.index < |cfg.rules|)
  {
    hide OneFiring, FiringAt;
  }

  // ---- The reducer follows ---------------------------------------------------------------------

  lemma {:induction false} OthersDistinct(view: seq<Alert>, rule: Label)
    requires DistinctRules(view)
    ensures DistinctRules(Others(view, rule))
  {
    if view != [] && view[0].rule != rule {
      var rest := Others(view[1..], rule);
      OthersDistinct(view[1..], rule);
      forall j | 0 <= j < |rest| ensures rest[j].rule != view[0].rule {
        assert rest[j] in view[1..];
      }
    } else if view != [] {
      OthersDistinct(view[1..], rule);
    }
  }

  lemma ApplyMembers(view: seq<Alert>, a: Alert)
    requires DistinctRules(view)
    ensures DistinctRules(Apply(view, AlertChange(a)))
    ensures forall b :: b in Apply(view, AlertChange(a)) <==> (b in view && b.rule != a.rule) || (b == a && a.state.Firing?)
  {
    OthersDistinct(view, a.rule);
    var others := Others(view, a.rule);
    hide Others;
    if a.state.Firing? {
      assert forall i :: 0 <= i < |others| ==> others[i] in others;
    } else {
      assert others + [] == others;
    }
  }

  /** One alert message moves the list along with the map. */
  lemma ApplyShows(view: seq<Alert>, active: map<Label, Alert>, a: Alert)
    requires Shows(view, active)
    ensures Shows(Apply(view, AlertChange(a)), Updated(active, a))
  {
    ApplyMembers(view, a);
    hide Apply, DistinctRules;
  }

  ghost predicate Holds(active: map<Label, Alert>, a: Alert) {
    if a.state.Firing? then a.rule in active && active[a.rule] == a else a.rule !in active
  }

  lemma HoldsMeansUpdated(active: map<Label, Alert>, a: Alert)
    requires Holds(active, a)
    ensures Updated(active, a) == active
  {
  }

  /** Messages about changes that the map already contains leave it as it is. */
  lemma {:induction false} KnownChangesShow(view: seq<Alert>, active: map<Label, Alert>, changed: seq<Alert>)
    requires Shows(view, active)
    requires forall a :: a in changed ==> Holds(active, a)
    ensures Shows(ApplyAll(view, Changes(changed)), active)
    decreases |changed|
  {
    hide Shows, Holds, Apply, Updated;
    if changed != [] {
      var n := |changed| - 1;
      var a, before := changed[n], ApplyAll(view, Changes(changed[..n]));
      KnownChangesShow(view, active, changed[..n]);
      assert a in changed;
      HoldsMeansUpdated(active, a);
      ApplyShows(before, active, a);
      ApplyLast(view, Changes(changed[..n]), AlertChange(a));
    }
  }

  lemma ApplyLast(view: seq<Alert>, ms: seq<Message>, m: Message)
    ensures ApplyAll(view, ms + [m]) == Apply(ApplyAll(view, ms), m)
  {
    assert (ms + [m])[..|ms|] == ms;
  }

  lemma {:induction false} ApplyConcat(view: seq<Alert>, a: seq<Message>, b: seq<Message>)
    ensures ApplyAll(view, a + b) == ApplyAll(ApplyAll(view, a), b)
    decreases |b|
  {
    if b == [] {
      assert a + b == a;
    } else {
      var n := |b| - 1;
      assert (a + b)[..|a + b| - 1] == a + b[..n];
      ApplyConcat(view, a, b[..n]);
    }
  }

  /** A greeting replaces whatever the client showed before. */
  lemma GreetingResets(v: seq<Alert>, w: seq<Alert>, ms: seq<Message>)
    requires ms != [] && ms[0].Hello?
    ensures ApplyAll(v, ms) == ApplyAll(w, ms)
  {
    assert ms == [ms[0]] + ms[1..] && [ms[0]] == [] + [ms[0]];
    ApplyConcat(v, [ms[0]], ms[1..]);
    ApplyConcat(w, [ms[0]], ms[1..]);
    ApplyLast(v, [], ms[0]);
    ApplyLast(w, [], ms[0]);
  }

  /** Publishing offers the unpublished changes, in order, behind everything offered before. */
  lemma {:induction false} OfferAllOffers(c: Connection, maxPending: nat, alerts: seq<Alert>)
    requires Mailboxes.Inv(c, maxPending)
    ensures Mailboxes.Inv(OfferAll(c, maxPending, alerts), maxPending)
    ensures OfferAll(c, maxPending, alerts).trace.offered == c.trace.offered + Changes(alerts)
    decreases |alerts|
  {
    if alerts == [] {
      assert c.trace.offered + Changes(alerts) == c.trace.offered;
    } else {
      var n := |alerts| - 1;
      var before := OfferAll(c, maxPending, alerts[..n]);
      OfferAllOffers(c, maxPending, alerts[..n]);
      StepKeepsInv(before, maxPending, DoOffer(AlertChange(alerts[n])));
      assert (c.trace.offered + Changes(alerts[..n])) + [AlertChange(alerts[n])]
          == c.trace.offered + (Changes(alerts[..n]) + [AlertChange(alerts[n])]);
      hide Mailboxes.Inv, Next, Mailboxes.Enabled;
    }
  }

  /** One more unpublished change, and the map with it. */
  lemma ChangeShown(offered: seq<Message>, changed: seq<Alert>, a: Alert, active: map<Label, Alert>)
    requires Shows(ApplyAll([], offered + Changes(changed)), active)
    ensures Shows(ApplyAll([], offered + Changes(changed + [a])), Updated(active, a))
  {
    hide Shows, ApplyAll, Changes, Apply, Updated;
    ChangesLast(changed, a);
    assert offered + (Changes(changed) + [AlertChange(a)]) == (offered + Changes(changed)) + [AlertChange(a)];
    ApplyLast([], offered + Changes(changed), AlertChange(a));
    ApplyShows(ApplyAll([], offered + Changes(changed)), active, a);
  }

  lemma PingShown(offered: seq<Message>, changes: seq<Message>)
    ensures ApplyAll([], offered + [Ping] + changes) == ApplyAll([], offered + changes)
  {
    ApplyConcat([], offered, changes);
    ApplyConcat([], offered + [Ping], changes);
    ApplyLast([], offered, Ping);
    hide ApplyAll;
  }

  // ---- Every harmless step keeps the invariant ------------------------------------------------------

  /** An exception leaves the evaluation only while nothing awaits publication, and no closed row is left
      behind an alert that is still active. */
  ghost predicate Harmless(s: State, a: Action) {
    && (a.Raise? ==> Changed(s.turn) == [])
    && (a.Answer? && a.reply.Failed? && s.turn.Awaiting? ==>
          s.turn.changed == [] && !(s.turn.pending.CloseRow? && a.reply.applied))
  }

  const ALL: Faults := Faults(true, true, true)

  lemma JudgeKeeps(cfg: Config, s: State)
    requires Known(cfg) && Inv(cfg, s) && Enabled(cfg, s, ALL, JudgeRule)
    ensures Inv(cfg, Step(cfg, s, JudgeRule))
  {
    assert cfg.rules[s.turn.index] in cfg.rules;
    JudgedShape(cfg, s.core, s.turn, Verdict(cfg, s.turn).value);
    assert forall a :: a in cfg.rules[..s.turn.index] ==> a in cfg.rules[..Step(cfg, s, JudgeRule).turn.index];
    hide RowInv, Judged, Shows, ApplyAll, Mailboxes.Inv;
  }

  lemma AnswerKeepsChanged(cfg: Config, s: State, s': State, change: Option<Alert>)
    requires Known(cfg) && ChangedInv(cfg, s) && s.turn.Awaiting? && s.turn.index < |cfg.rules| && !s'.turn.Resting?
    requires s'.turn.index == if s'.turn.Awaiting? then s.turn.index else s.turn.index + 1
    requires change.None? ==> s'.turn.changed == s.turn.changed && s'.core.active == s.core.active
    requires change.Some? ==>
               && change.value.rule == cfg.rules[s.turn.index] && s'.turn.Judging?
               && s'.turn.changed == s.turn.changed + [change.value]
               && s'.core.active == Updated(s.core.active, change.value)
    ensures ChangedInv(cfg, s')
  {
    assert cfg.rules[..s.turn.index + 1] == cfg.rules[..s.turn.index] + [cfg.rules[s.turn.index]];
    assert cfg.rules[s.turn.index] !in cfg.rules[..s.turn.index];
  }

  lemma AnswerKeeps(cfg: Config, s: State)
    requires Known(cfg) && Inv(cfg, s) && Enabled(cfg, s, ALL, Answer(Done))
    ensures Inv(cfg, Step(cfg, s, Answer(Done)))
  {
    assert cfg.rules[s.turn.index] in cfg.rules;
    var s' := Step(cfg, s, Answer(Done));
    hide RowInv, ChangedInv, Known, Handled, Shows, ApplyAll, Mailboxes.Inv, Apply, Changes, Updated;
    var change := HandledChanges(cfg, s.core, cfg.rules[s.turn.index], s.turn);
    AnswerKeepsChanged(cfg, s, s', change);
    if s.client.Some? && change.Some? {
      ChangeShown(s.client.value.trace.offered, s.turn.changed, change.value, s.core.active);
    }
  }

  lemma AbortKeeps(cfg: Config, s: State, a: Action)
    requires Inv(cfg, s) && Enabled(cfg, s, ALL, a) && Harmless(s, a)
    requires a.Raise? || (a.Answer? && a.reply.Failed?)
    ensures Inv(cfg, Step(cfg, s, a))
  {
    if a.Answer? && a.reply.applied && s.turn.pending.OpenRow? {
      assert cfg.rules[s.turn.index] in cfg.rules;
      if FiringAt(s.core.table, cfg.rules[s.turn.index]).None? {
        InsertKeepsRows(cfg, s.core, cfg.rules[s.turn.index], s.turn.round.now);
      }
    }
    hide RowInv, FiringAt, Shows, ApplyAll, Mailboxes.Inv, InsertRow;
  }

  lemma PublishKeeps(cfg: Config, s: State)
    requires Inv(cfg, s) && Enabled(cfg, s, ALL, Publish)
    ensures Inv(cfg, Step(cfg, s, Publish))
  {
    hide RowInv, Shows, ApplyAll, Mailboxes.Inv, OfferAll;
    if s.client.Some? {
      OfferAllOffers(s.client.value, cfg.maxPending, s.turn.changed);
      var offered := s.client.value.trace.offered + Changes(s.turn.changed);
      assert offered + Changes([]) == offered;
      hide Changes;
    }
  }

  lemma JoinKeeps(cfg: Config, s: State, listed: seq<Alert>, recent: seq<Event>)
    requires Inv(cfg, s) && Enabled(cfg, s, ALL, Join(listed, recent))
    ensures Inv(cfg, Step(cfg, s, Join(listed, recent)))
  {
    var hello := Hello(listed, recent);
    OpenedIsInv(cfg.maxPending);
    StepKeepsInv(Opened(), cfg.maxPending, DoOffer(hello));
    assert Mailboxes.Step(Opened(), cfg.maxPending, DoOffer(hello)).trace.offered == [hello];
    ApplyConcat([], [hello], Changes(Changed(s.turn)));
    assert [hello] == [] + [hello];
    ApplyLast([], [], hello);
    KnownChangesShow(listed, s.core.active, Changed(s.turn));
    hide RowInv, Shows, ApplyAll, Mailboxes.Inv, Mailboxes.Step;
  }

  lemma ClientKeeps(cfg: Config, s: State, a: Mailboxes.Action)
    requires Inv(cfg, s) && Enabled(cfg, s, ALL, Client(a))
    ensures Inv(cfg, Step(cfg, s, Client(a)))
  {
    var c := s.client.value;
    var c' := Mailboxes.Step(c, cfg.maxPending, a);
    StepKeepsInv(c, cfg.maxPending, a);
    assert c'.trace.offered == if a.DoOffer? then c.trace.offered + [Ping] else c.trace.offered by {
      hide Mailboxes.Inv, Next;
    }
    hide RowInv, ChangedInv, Shows, Mailboxes.Inv, Mailboxes.Step, Mailboxes.Enabled, ApplyAll, Changes;
    if a.DoOffer? {
      PingShown(c.trace.offered, Changes(Changed(s.turn)));
    }
  }

  lemma StepKeeps(cfg: Config, s: State, f: Faults, a: Action)
    requires Known(cfg) && Inv(cfg, s) && Enabled(cfg, s, f, a) && Harmless(s, a)
    ensures Inv(cfg, Step(cfg, s, a))
  {
    match a {
      case Begin(round) =>
        hide RowInv, Shows, ApplyAll, Mailboxes.Inv;
      case JudgeRule => JudgeKeeps(cfg, s);
      case Raise => AbortKeeps(cfg, s, a);
      case Answer(reply) =>
        if reply.Done? {
          AnswerKeeps(cfg, s);
        } else {
          AbortKeeps(cfg, s, a);
        }
      case Publish => PublishKeeps(cfg, s);
      case Join(listed, recent) => JoinKeeps(cfg, s, listed, recent);
      case Client(b) => ClientKeeps(cfg, s, b);
    }
  }

  ghost predicate HarmlessRun(cfg: Config, s: State, actions: seq<Action>)
    decreases |actions|
  {
    actions != [] ==> Harmless(s, actions[0]) && HarmlessRun(cfg, Step(cfg, s, actions[0]), actions[1..])
  }

  lemma {:induction false} RunKeeps(cfg: Config, f: Faults, s: State, actions: seq<Action>)
    requires Known(cfg) && Inv(cfg, s) && Legal(cfg, f, s, actions) && HarmlessRun(cfg, s, actions)
    ensures Inv(cfg, Run(cfg, s, actions))
    decreases |actions|
  {
    if actions != [] {
      hide Inv, Step, Enabled, Known, Harmless;
      StepKeeps(cfg, s, f, actions[0]);
      RunKeeps(cfg, f, Step(cfg, s, actions[0]), actions[1..]);
    }
  }

  lemma LoadedIsInv(cfg: Config, table: seq<Alert>, nextId: nat)
    requires OneFiring(table)
    ensures Inv(cfg, Loaded(cfg, table, nextId))
  {
  }

  // ---- Alert views converge ----------------------------------------------------------------------

  /** Whatever it showed before it connected, a client that has not overflowed shows exactly the
      active alerts once it has applied what is queued for it and what is not yet published. */
  ghost predicate Converged(s: State) {
    s.client.Some? && !s.client.value.box.overflowed ==>
      forall shown: seq<Alert> ::
        Shows(ApplyAll(ApplyAll(shown, ReliableOf(s.client.value.trace.taken)),
                       s.client.value.box.queue + Changes(Changed(s.turn))), s.core.active)
  }

  lemma InvMeansConverged(cfg: Config, s: State)
    requires Inv(cfg, s)
    ensures Converged(s)
  {
    hide RowInv, ChangedInv, Shows, ApplyAll, ReliableOf;
    if s.client.Some? && !s.client.value.box.overflowed {
      var c := s.client.value;
      var taken, changes := ReliableOf(c.trace.taken), Changes(Changed(s.turn));
      assert taken + c.box.queue == c.trace.offered;
      assert taken + (c.box.queue + changes) == c.trace.offered + changes;
      forall shown: seq<Alert>
        ensures Shows(ApplyAll(ApplyAll(shown, taken), c.box.queue + changes), s.core.active)
      {
        ApplyConcat(shown, taken, c.box.queue + changes);
        GreetingResets(shown, [], c.trace.offered + changes);
      }
    }
  }

  /** Whatever fails or raises, views converge in every run in which an exception leaves an evaluation
      only while nothing awaits publication, and no `UPDATE` fails after it was committed. */
  lemma ConvergesWhenHarmless(cfg: Config, f: Faults, table: seq<Alert>, nextId: nat, actions: seq<Action>)
    requires Known(cfg) && OneFiring(table)
    requires Legal(cfg, f, Loaded(cfg, table, nextId), actions) && HarmlessRun(cfg, Loaded(cfg, table, nextId), actions)
    ensures Converged(Run(cfg, Loaded(cfg, table, nextId), actions))
  {
    LoadedIsInv(cfg, table, nextId);
    RunKeeps(cfg, f, Loaded(cfg, table, nextId), actions);
    InvMeansConverged(cfg, Run(cfg, Loaded(cfg, table, nextId), actions));
  }

  /** No rule can divide by zero. */
  ghost predicate NeverRaises(cfg: Config) {
    forall n :: n in cfg.rules ==> cfg.judge(n).IngestionStalled? || cfg.judge(n).minimum > 0
  }

  ghost predicate AlwaysConverges(f: Faults, positive: bool) {
    forall cfg: Config, table: seq<Alert>, nextId: nat, actions: seq<Action> ::
      Known(cfg) && (positive ==> NeverRaises(cfg)) && OneFiring(table) && Legal(cfg, f, Loaded(cfg, table, nextId), actions)
      ==> Converged(Run(cfg, Loaded(cfg, table, nextId), actions))
  }

  lemma {:induction false} NothingToLose(cfg: Config, f: Faults, s: State, actions: seq<Action>)
    requires !f.pending && !(f.idle && f.lostClose) && NeverRaises(cfg) && Legal(cfg, f, s, actions)
    ensures HarmlessRun(cfg, s, actions)
    decreases |actions|
  {
    if actions != [] {
      if actions[0].Raise? {
        EvaluateRaisesExactly(cfg.judge(cfg.rules[s.turn.index]));
      }
      hide Step, NeverRaises;
      NothingToLose(cfg, f, Step(cfg, s, actions[0]), actions[1..]);
    }
  }

  // ---- Runs that lose a change -------------------------------------------------------------------

  ghost predicate Reaches(cfg: Config, f: Faults, s: State, t: State) {
    exists actions :: Legal(cfg, f, s, actions) && Run(cfg, s, actions) == t
  }

  lemma {:induction false} OneMore(cfg: Config, f: Faults, s: State, actions: seq<Action>, a: Action)
    requires Legal(cfg, f, s, actions) && Enabled(cfg, Run(cfg, s, actions), f, a)
    ensures Legal(cfg, f, s, actions + [a]) && Run(cfg, s, actions + [a]) == Step(cfg, Run(cfg, s, actions), a)
    decreases |actions|
  {
    hide Step, Enabled;
    if actions == [] {
      assert [] + [a] == [a] && [a][1..] == [];
    } else {
      assert (actions + [a])[1..] == actions[1..] + [a];
      OneMore(cfg, f, Step(cfg, s, actions[0]), actions[1..], a);
    }
  }

  lemma Start(cfg: Config, f: Faults, s: State)
    ensures Reaches(cfg, f, s, s)
  {
    assert Legal(cfg, f, s, []) && Run(cfg, s, []) == s;
  }

  lemma Then(cfg: Config, f: Faults, s: State, t: State, a: Action) returns (next: State)
    requires Reaches(cfg, f, s, t) && Enabled(cfg, t, f, a)
    ensures next == Step(cfg, t, a) && Reaches(cfg, f, s, next)
  {
    hide Step, Enabled, Legal, Run;
    next := Step(cfg, t, a);
    var actions :| Legal(cfg, f, s, actions) && Run(cfg, s, actions) == t;
    OneMore(cfg, f, s, actions, a);
  }

  lemma Refutes(f: Faults, positive: bool, cfg: Config, table: seq<Alert>, nextId: nat, t: State)
    requires Known(cfg) && (positive ==> NeverRaises(cfg)) && OneFiring(table)
    requires Reaches(cfg, f, Loaded(cfg, table, nextId), t) && !Converged(t)
    ensures !AlwaysConverges(f, positive)
  {
    hide Known, NeverRaises, OneFiring, Legal, Run, Converged, Loaded;
    var actions :| Legal(cfg, f, Loaded(cfg, table, nextId), actions) && Run(cfg, Loaded(cfg, table, nextId), actions) == t;
  }

  /** A client that was only greeted, and whose greeting is out of date, has missed something. */
  lemma Misses(s: State, listed: seq<Alert>)
    requires s.client == Some(Mailboxes.Step(Opened(), 10, DoOffer(Hello(listed, []))))
    requires Changed(s.turn) == [] && !Shows(listed, s.core.active)
    ensures !Converged(s)
  {
    var hello := Hello(listed, []);
    assert s.client.value.box.queue + Changes([]) == [] + [hello];
    assert s.client.value.trace.taken == [];
    ApplyLast(ApplyAll([], []), [], hello);
    hide Shows;
    assert ApplyAll(ApplyAll([], ReliableOf([])), [] + [hello]) == listed;
  }

  /** Rule 0 fires when no event came for a second; `second` is evaluated after it. */
  function Pair(second: Rule): Config {
    Config([0, 1], n => if n == 0 then IngestionStalled(1.0) else second, Counts(1, 1), 10)
  }

  function Silent(now: int, silence: real): Round {
    Round(now, Inputs(0, 0, 0, 0, 0, 0, Some(silence)))
  }

  const FIRST: Alert := Alert(1, 0, Firing, 5)

  /** Rule 0 comes first, and one evaluation is enough for it to change state. */
  ghost predicate Quick(cfg: Config) {
    cfg.rules != [] && cfg.rules[0] == 0 && cfg.judge(0) == IngestionStalled(1.0) && cfg.counts == Counts(1, 1) && cfg.maxPending == 10
  }

  /** An evaluation begins; rule 0 fires after a silence of two seconds and recovers without any. */
  lemma RuleMoves(cfg: Config, f: Faults, s0: State, s: State, now: int, firing: bool) returns (s': State)
    requires Quick(cfg) && Reaches(cfg, f, s0, s) && s.turn.Resting?
    requires 0 in s.core.trackers && s.core.trackers[0] == Tracker(!firing, 0)
    ensures Reaches(cfg, f, s0, s') && s'.client == s.client
    ensures s'.core == s.core.(trackers := s.core.trackers[0 := Tracker(firing, 0)])
    ensures s'.turn == Awaiting(0, Silent(now, if firing then 2.0 else 0.0), [], if firing then OpenRow else CloseRow)
  {
    hide Reaches;
    var s1 := Then(cfg, f, s0, s, Begin(Silent(now, if firing then 2.0 else 0.0)));
    assert Verdict(cfg, s1.turn) == Some(Judge(if firing then 2.0 else 0.0, 1.0, 1.0));
    s' := Then(cfg, f, s0, s1, JudgeRule);
  }

  /** Its statement fails, applied or not; nothing awaited publication. */
  lemma StatementFails(cfg: Config, f: Faults, s0: State, s: State, applied: bool) returns (s': State)
    requires Quick(cfg) && f.idle && (applied ==> f.lostClose)
    requires Reaches(cfg, f, s0, s) && s.turn.Awaiting? && s.turn.index == 0 && s.turn.changed == []
    ensures Reaches(cfg, f, s0, s') && s'.turn == Resting && s'.client == s.client
    ensures s'.core == if applied then Applied(s.core, 0, s.turn.round.now, s.turn.pending) else s.core
  {
    hide Reaches, Applied;
    s' := Then(cfg, f, s0, s, Answer(Failed(applied)));
  }

  lemma StatementDone(cfg: Config, f: Faults, s0: State, s: State) returns (s': State)
    requires Quick(cfg) && Reaches(cfg, f, s0, s) && s.turn.Awaiting? && s.turn.index == 0
    ensures Reaches(cfg, f, s0, s') && s'.client == s.client && (s'.core, s'.turn) == Handled(s.core, 0, s.turn)
  {
    hide Reaches, Handled;
    s' := Then(cfg, f, s0, s, Answer(Done));
  }

  /** A client connects right after the start. */
  lemma Greeted(cfg: Config, f: Faults, table: seq<Alert>, nextId: nat, listed: seq<Alert>) returns (s: State)
    requires Quick(cfg) && Lists(listed, Loaded(cfg, table, nextId).core.active)
    ensures Reaches(cfg, f, Loaded(cfg, table, nextId), s) && s.turn.Resting? && s.core == Loaded(cfg, table, nextId).core
    ensures s.client == Some(Mailboxes.Step(Opened(), 10, DoOffer(Hello(listed, []))))
  {
    hide Reaches, Mailboxes.Step, Lists;
    var s0 := Loaded(cfg, table, nextId);
    Start(cfg, f, s0);
    s := Then(cfg, f, s0, s0, Join(listed, []));
  }

  /** The first rule has opened its alert, which awaits publication; a client was greeted before. */
  lemma FirstOpened(f: Faults, second: Rule) returns (s: State)
    ensures Reaches(Pair(second), f, Loaded(Pair(second), [], 1), s)
    ensures s.core.active == map[0 := FIRST] && s.turn == Judging(1, Silent(5, 2.0), [FIRST])
    ensures s.core.trackers == map[0 := Tracker(true, 0), 1 := Tracker(false, 0)]
    ensures s.client == Some(Mailboxes.Step(Opened(), 10, DoOffer(Hello([], []))))
  {
    var cfg := Pair(second);
    var s0 := Loaded(cfg, [], 1);
    assert s0.core == Core(map[0 := Tracker(false, 0), 1 := Tracker(false, 0)], map[], [], 1);
    hide Reaches, Mailboxes.Step, Loaded;
    var s1 := Greeted(cfg, f, [], 1, []);
    var s2 := RuleMoves(cfg, f, s0, s1, 5, true);
    s := StatementDone(cfg, f, s0, s2);
  }

  /** Two rules fire in one evaluation. The first alert is opened and becomes active, the insert of the
      second fails, and the first one is never published: a connected client misses it. */
  lemma LostChange(f: Faults, positive: bool)
    requires f.pending
    ensures !AlwaysConverges(f, positive)
  {
    var cfg := Pair(IngestionStalled(1.0));
    var s := FirstOpened(f, IngestionStalled(1.0));
    var s0 := Loaded(cfg, [], 1);
    hide Reaches, Mailboxes.Step, Loaded;
    var s1 := Then(cfg, f, s0, s, JudgeRule);
    assert s1.turn == Awaiting(1, Silent(5, 2.0), [FIRST], OpenRow);
    var s2 := Then(cfg, f, s0, s1, Answer(Failed(false)));
    Misses(s2, []);
    Refutes(f, positive, cfg, [], 1, s2);
  }

  /** The first alert is opened, and the second rule divides by a previous revenue of zero, which its
      minimum of zero lets through: no statement fails, and the first alert is never published. */
  lemma RaisingRuleLosesChange(f: Faults)
    ensures !AlwaysConverges(f, false)
  {
    var drop := RevenueDrop(0.5, 0.25, 0);
    var cfg := Pair(drop);
    var s := FirstOpened(f, drop);
    var s0 := Loaded(cfg, [], 1);
    hide Reaches, Mailboxes.Step, Loaded;
    assert Verdict(cfg, s.turn) == None;
    var s1 := Then(cfg, f, s0, s, Raise);
    Misses(s1, []);
    Refutes(f, false, cfg, [], 1, s1);
  }

  /** The row of an alert is closed by a statement that fails nevertheless, the insert of the next one
      fails, and when the rule recovers again there is no row to report: the alert leaves the map of
      active alerts without a message. Nothing awaited publication at any failure. */
  lemma LostCloseLosesChange(f: Faults, positive: bool)
    requires f.idle && f.lostClose
    ensures !AlwaysConverges(f, positive)
  {
    var cfg := Config([0], n => IngestionStalled(1.0), Counts(1, 1), 10);
    var s0 := Loaded(cfg, [FIRST], 2);
    assert s0.core == Core(map[0 := Tracker(true, 0)], map[0 := FIRST], [FIRST], 2);
    assert FIRST in [FIRST];
    hide Reaches, Mailboxes.Step, Loaded;
    var s1 := Greeted(cfg, f, [FIRST], 2, [FIRST]);
    var s2 := RuleMoves(cfg, f, s0, s1, 6, false);
    var s3 := StatementFails(cfg, f, s0, s2, true);
    assert s3.core.table == [FIRST.(state := Resolved)];
    var s4 := RuleMoves(cfg, f, s0, s3, 7, true);
    var s5 := StatementFails(cfg, f, s0, s4, false);
    var s6 := RuleMoves(cfg, f, s0, s5, 8, false);
    var s7 := StatementDone(cfg, f, s0, s6);
    assert 0 !in s7.core.active;
    Misses(s7, [FIRST]);
    Refutes(f, positive, cfg, [FIRST], 2, s7);
  }

  /** Alert views converge in every run, from every table and for every configuration of the given kind,
      if and only if no statement fails while a change awaits publication, none that closes a row
      fails after it was committed, and every minimum volume is positive. */
  lemma AlwaysConvergesExactly(f: Faults, positive: bool)
    ensures AlwaysConverges(f, positive) <==> !f.pending && !(f.idle && f.lostClose) && positive
  {
    hide AlwaysConverges;
    if f.pending {
      LostChange(f, positive);
    } else if f.idle && f.lostClose {
      LostCloseLosesChange(f, positive);
    } else if !positive {
      RaisingRuleLosesChange(f);
    } else {
      ConvergesOtherwise(f);
    }
  }

  lemma ConvergesOtherwise(f: Faults)
    requires !f.pending && !(f.idle && f.lostClose)
    ensures AlwaysConverges(f, true)
  {
    hide Known, NeverRaises, OneFiring, Legal, Converged, Loaded, Run, HarmlessRun;
    forall cfg: Config, table: seq<Alert>, nextId: nat, actions: seq<Action>
      | Known(cfg) && NeverRaises(cfg) && OneFiring(table) && Legal(cfg, f, Loaded(cfg, table, nextId), actions)
      ensures Converged(Run(cfg, Loaded(cfg, table, nextId), actions))
    {
      NothingToLose(cfg, f, Loaded(cfg, table, nextId), actions);
      ConvergesWhenHarmless(cfg, f, table, nextId, actions);
    }
  }
}
