/** The broadcaster loop: commits set a dirty flag, the loop turns it into snapshots at a limited
    rate, and the REST endpoint may build one of its own while none exists yet. One WebSocket
    client is followed from its connection on. */
module Broadcasting {
  import opened Events
  import opened Protocol
  import opened Mailboxes

  datatype Config = Config(minInterval: nat, idleInterval: nat, heartbeat: nat, maxPending: nat, feedPerTick: nat)

  /** What the broadcaster holds for its clients: the dirty flag, the feed sampled since the last
      publication, the events a greeting shows, and the snapshot it brings. */
  datatype Desk = Desk(dirty: bool, pendingFeed: seq<Event>, recent: seq<Event>, latest: Option<int>)

  /** Waiting on the dirty flag, awaiting the snapshot query, or sleeping out the interval. */
  datatype Loop = Idle(deadline: int) | Building(started: int, through: int) | Sleeping(until: int)

  /** How many heartbeats there had been when the client joined, and the first published snapshot it was
      offered. */
  datatype Entry = Entry(pings: nat, first: nat)

  /** `starts`, `attempted` and `seen` (the watermark and the number of commits at the last build the loop
      began), `succeeded` (whether it was published), `published`, `since` (what the batches since the
      last publication brought), `fed` (what was published as feed), `commits`, `pings` and `joined` are
      history. `rest` holds the watermarks of the builds begun for REST requests. */
  datatype State = State(
    clock: int,
    committed: int,
    desk: Desk,
    loop: Loop,
    lastPing: int,
    rest: seq<int>,
    starts: seq<int>,
    attempted: int,
    succeeded: bool,
    published: seq<int>,
    since: seq<Event>,
    fed: seq<Event>,
    commits: nat,
    seen: nat,
    pings: seq<int>,
    joined: Entry,
    client: Option<Connection>)

  datatype Action =
    | Tick(duration: nat)
    | Commit(maxSeq: Option<int>, events: seq<Event>, inserted: nat)
    | Wake
    | Built
    | Failed
    | Awake
    | RestBegin
    | RestBuilt(index: nat)
    | RestFailed(index: nat)
    | Join(active: seq<Alert>)
    | Client(action: Mailboxes.Action)

  const SNAPSHOT: Kind := 0
  const FEED: Kind := 1
  const RECENT: nat := 30

  /** A deque with a maximum length keeps the newest elements. */
  function KeepNewest<T>(xs: seq<T>, n: nat): seq<T> {
    if |xs| <= n then xs else xs[|xs| - n..]
  }

  /** `on_commit`: a batch that only held duplicates feeds nothing. */
  function Noted(d: Desk, feedPerTick: nat, events: seq<Event>, inserted: nat): Desk {
    d.(dirty := true,
       pendingFeed := if inserted > 0 then KeepNewest(d.pendingFeed + KeepNewest(events, feedPerTick), feedPerTick)
                      else d.pendingFeed)
  }

  /** The end of a build: the snapshot replaces the last one, the pending feed becomes recent. */
  function Released(d: Desk, through: int): Desk {
    d.(latest := Some(through), pendingFeed := [],
       recent := if d.pendingFeed == [] then d.recent else KeepNewest(d.recent + d.pendingFeed, RECENT))
  }

  /** What it offers a connected client: the snapshot, and the feed if there is one. */
  function Informed(d: Desk, through: int, maxPending: nat, c: Connection): Connection {
    var after := Mailboxes.Step(c, maxPending, DoOfferLatest(Slot(SNAPSHOT, Snapshot(through))));
    if d.pendingFeed == [] then after else Mailboxes.Step(after, maxPending, DoOfferLatest(Slot(FEED, Feed(d.pendingFeed))))
  }

  /** A connection is registered, greeted and given the current snapshot without an `await`. */
  function Joined(d: Desk, maxPending: nat, active: seq<Alert>): Connection {
    var greeted := Mailboxes.Step(Opened(), maxPending, DoOffer(Hello(active, d.recent)));
    if d.latest.None? then greeted
    else Mailboxes.Step(greeted, maxPending, DoOfferLatest(Slot(SNAPSHOT, Snapshot(d.latest.value))))
  }

  function Started(cfg: Config, clock: int): State {
    State(clock, 0, Desk(false, [], [], None), Idle(clock + cfg.idleInterval), clock, [], [], 0, false, [], [], [], 0, 0, [],
          Entry(0, 0), None)
  }

  predicate Enabled(s: State, rest: bool, a: Action) {
    match a
    case Tick(_) => true
    case Commit(_, _, _) => true
    case Wake => s.loop.Idle? && (s.desk.dirty || s.clock >= s.loop.deadline)
    case Built => s.loop.Building?
    case Failed => s.loop.Building?
    case Awake => s.loop.Sleeping? && s.clock >= s.loop.until
    case RestBegin => rest && s.desk.latest.None?
    case RestBuilt(i) => i < |s.rest|
    case RestFailed(i) => i < |s.rest|
    case Join(_) => true
    case Client(a) => s.client.Some? && !a.DoOffer? && !a.DoOfferLatest? && Mailboxes.Enabled(s.client.value.box, a)
  }

  function Offered(cfg: Config, client: Option<Connection>, a: Mailboxes.Action): Option<Connection> {
    if client.None? then None else Some(Mailboxes.Step(client.value, cfg.maxPending, a))
  }

  function PublishSnapshot(cfg: Config, s: State, through: int): State {
    s.(desk := Released(s.desk, through),
       published := s.published + [through],
       since := [],
       fed := s.fed + s.desk.pendingFeed,
       client := if s.client.None? then None else Some(Informed(s.desk, through, cfg.maxPending, s.client.value)))
  }

  /** The end of a loop iteration: the heartbeat, then the sleep until the interval is over. */
  function EndTurn(cfg: Config, s: State): State
    requires s.loop.Building?
  {
    var started := s.loop.started;
    var due := started - s.lastPing >= cfg.heartbeat;
    s.(client := if due then Offered(cfg, s.client, DoOffer(Ping)) else s.client,
       lastPing := if due then started else s.lastPing,
       pings := if due then s.pings + [started] else s.pings,
       loop := Sleeping(if s.clock >= started + cfg.minInterval then s.clock else started + cfg.minInterval))
  }

  function Without<T>(xs: seq<T>, i: nat): seq<T>
    requires i < |xs|
  {
    xs[..i] + xs[i + 1..]
  }

  function Step(cfg: Config, s: State, a: Action): State {
    match a
    case Tick(d) => s.(clock := s.clock + d)
    case Commit(m, events, inserted) =>
      s.(committed := if m.Some? && m.value > s.committed then m.value else s.committed,
         desk := Noted(s.desk, cfg.feedPerTick, events, inserted),
         since := if inserted > 0 then s.since + events else s.since,
         commits := s.commits + 1)
    case Wake =>
      s.(desk := s.desk.(dirty := false), loop := Building(s.clock, s.committed), starts := s.starts + [s.clock],
         attempted := s.committed, seen := s.commits, succeeded := false)
    case Built =>
      if !s.loop.Building? then s
      else EndTurn(cfg, PublishSnapshot(cfg, s, s.loop.through).(succeeded := true))
    case Failed => if !s.loop.Building? then s else EndTurn(cfg, s)
    case Awake => s.(loop := Idle(s.clock + cfg.idleInterval))
    case RestBegin => s.(rest := s.rest + [s.committed])
    case RestBuilt(i) =>
      if i >= |s.rest| then s
      else PublishSnapshot(cfg, s, s.rest[i]).(rest := Without(s.rest, i))
    case RestFailed(i) => if i >= |s.rest| then s else s.(rest := Without(s.rest, i))
    case Join(active) =>
      s.(client := Some(Joined(s.desk, cfg.maxPending, active)),
         joined := Entry(|s.pings|, if s.published == [] then 0 else |s.published| - 1))
    case Client(a) => s.(client := Offered(cfg, s.client, a))
  }

  ghost predicate Legal(cfg: Config, rest: bool, s: State, actions: seq<Action>)
    decreases |actions|
  {
    actions != [] ==> Enabled(s, rest, actions[0]) && Legal(cfg, rest, Step(cfg, s, actions[0]), actions[1..])
  }

  function Run(cfg: Config, s: State, actions: seq<Action>): State
    decreases |actions|
  {
    if actions == [] then s else Run(cfg, Step(cfg, s, actions[0]), actions[1..])
  }

  // ---- No lost refresh, bounded rate ---------------------------------------------------------

  /** A clear flag means that the last build the loop began came after the last commit and read the
      current watermark. */
  ghost predicate RefreshInv(s: State) {
    && (!s.desk.dirty ==> s.attempted == s.committed && s.seen == s.commits)
    && (s.loop.Building? ==> s.loop.through == s.attempted)
    && (s.succeeded ==> s.published != [] && s.attempted in s.published)
  }

  ghost predicate Spaced(starts: seq<int>, interval: nat) {
    forall i, j :: 0 <= i < j < |starts| ==> starts[j] - starts[i] >= interval
  }

  /** When the loop may begin its next build. */
  function Earliest(s: State): int {
    match s.loop
    case Idle(_) => s.clock
    case Building(started, _) => started
    case Sleeping(until) => until
  }

  ghost predicate SpacingInv(cfg: Config, s: State) {
    && Spaced(s.starts, cfg.minInterval)
    && (s.loop.Building? ==> s.starts != [] && s.starts[|s.starts| - 1] == s.loop.started)
    && (!s.loop.Building? ==> forall i :: 0 <= i < |s.starts| ==> Earliest(s) - s.starts[i] >= cfg.minInterval)
  }

  lemma StepKeepsRefresh(cfg: Config, s: State, rest: bool, a: Action)
    requires RefreshInv(s) && Enabled(s, rest, a)
    ensures RefreshInv(Step(cfg, s, a))
  {
    hide Offered, Joined, Informed, Noted, Released, Mailboxes.Enabled;
    if a.Commit? {
      assert Step(cfg, s, a).desk.dirty by {
        DirtyAfterCommit(s.desk, cfg.feedPerTick, a.events, a.inserted);
      }
    }
    ReleasedStaysDirty(s.desk);
  }

  lemma DirtyAfterCommit(d: Desk, n: nat, events: seq<Event>, inserted: nat)
    ensures Noted(d, n, events, inserted).dirty && Noted(d, n, events, inserted).latest == d.latest
  {
  }

  lemma ReleasedStaysDirty(d: Desk)
    ensures forall through :: Released(d, through).dirty == d.dirty && Released(d, through).latest == Some(through)
  {
  }

  lemma StepKeepsSpacing(cfg: Config, s: State, rest: bool, a: Action)
    requires SpacingInv(cfg, s) && Enabled(s, rest, a)
    ensures SpacingInv(cfg, Step(cfg, s, a))
  {
    hide Offered, Joined, Informed, Noted, Released, Mailboxes.Enabled;
  }

  lemma {:induction false} RunKeepsRate(cfg: Config, rest: bool, s: State, actions: seq<Action>)
    requires RefreshInv(s) && SpacingInv(cfg, s) && Legal(cfg, rest, s, actions)
    ensures RefreshInv(Run(cfg, s, actions)) && SpacingInv(cfg, Run(cfg, s, actions))
    decreases |actions|
  {
    if actions != [] {
      hide RefreshInv, SpacingInv, Step, Enabled;
      StepKeepsRefresh(cfg, s, rest, actions[0]);
      StepKeepsSpacing(cfg, s, rest, actions[0]);
      RunKeepsRate(cfg, rest, Step(cfg, s, actions[0]), actions[1..]);
    }
  }

  /** In every run, with or without REST builds: the last build of a loop that waits with the flag clear
      came after the last commit and read the current watermark, and builds begin at least the minimum
      interval apart. */
  lemma NoLostRefresh(cfg: Config, rest: bool, clock: int, actions: seq<Action>)
    requires Legal(cfg, rest, Started(cfg, clock), actions)
    ensures var s := Run(cfg, Started(cfg, clock), actions);
            && (s.loop.Idle? && !s.desk.dirty ==> s.attempted == s.committed && s.seen == s.commits)
            && (s.loop.Idle? && !s.desk.dirty && s.succeeded ==> s.committed in s.published)
            && Spaced(s.starts, cfg.minInterval)
  {
    RunKeepsRate(cfg, rest, Started(cfg, clock), actions);
  }

  // ---- The next build is never far -------------------------------------------------------------

  /** How long the loop still has to keep its interval. */
  function Remaining(cfg: Config, s: State): nat {
    if s.starts == [] || s.clock >= s.starts[|s.starts| - 1] + cfg.minInterval then 0
    else s.starts[|s.starts| - 1] + cfg.minInterval - s.clock
  }

  ghost predicate WaitInv(cfg: Config, s: State) {
    && SpacingInv(cfg, s)
    && (s.loop.Idle? ==> s.loop.deadline <= s.clock + cfg.idleInterval)
    && (s.loop.Sleeping? ==> s.loop.until <= s.clock + Remaining(cfg, s))
  }

  lemma StepKeepsWait(cfg: Config, s: State, rest: bool, a: Action)
    requires WaitInv(cfg, s) && Enabled(s, rest, a)
    ensures WaitInv(cfg, Step(cfg, s, a))
  {
    StepKeepsSpacing(cfg, s, rest, a);
    hide Offered, Joined, Informed, Noted, Released, Mailboxes.Enabled, SpacingInv;
    assert s.loop.Building? ==> s.starts != [] && s.starts[|s.starts| - 1] == s.loop.started by {
      assert SpacingInv(cfg, s);
      BuildingIsLast(cfg, s);
    }
  }

  lemma BuildingIsLast(cfg: Config, s: State)
    requires SpacingInv(cfg, s)
    ensures s.loop.Building? ==> s.starts != [] && s.starts[|s.starts| - 1] == s.loop.started
  {
  }

  lemma {:induction false} RunKeepsWait(cfg: Config, rest: bool, s: State, actions: seq<Action>)
    requires WaitInv(cfg, s) && Legal(cfg, rest, s, actions)
    ensures WaitInv(cfg, Run(cfg, s, actions))
    decreases |actions|
  {
    if actions != [] {
      hide WaitInv, Step, Enabled;
      StepKeepsWait(cfg, s, rest, actions[0]);
      RunKeepsWait(cfg, rest, Step(cfg, s, actions[0]), actions[1..]);
    }
  }

  lemma NoSteps(cfg: Config, rest: bool, s: State)
    ensures Run(cfg, s, []) == s && Legal(cfg, rest, s, [])
  {
  }

  lemma Unroll(cfg: Config, rest: bool, s: State, a: Action, more: seq<Action>)
    ensures Run(cfg, s, [a] + more) == Run(cfg, Step(cfg, s, a), more)
    ensures Enabled(s, rest, a) && Legal(cfg, rest, Step(cfg, s, a), more) ==> Legal(cfg, rest, s, [a] + more)
  {
    assert ([a] + more)[1..] == more;
  }

  /** A tick and then the wake-up. */
  lemma WakesUp(cfg: Config, rest: bool, s: State, d: nat) returns (more: seq<Action>)
    requires s.loop.Idle? && (s.desk.dirty || s.clock + d >= s.loop.deadline)
    ensures Legal(cfg, rest, s, more)
    ensures var s' := Run(cfg, s, more);
            s'.loop == Building(s.clock + d, s.committed) && s'.seen == s.commits
  {
    var s1 := Step(cfg, s, Tick(d));
    var s2 := Step(cfg, s1, Wake);
    hide Run, Legal;
    NoSteps(cfg, rest, s2);
    Unroll(cfg, rest, s1, Wake, []);
    Unroll(cfg, rest, s, Tick(d), [Wake] + []);
    more := [Tick(d)] + ([Wake] + []);
  }

  /** After every run in which the loop is not in a build, its next build is due as soon as the minimum
      interval since the last one is over, if something was committed since, and otherwise at most the
      idle interval later; it reads the watermark as it is then. */
  lemma NextBuildIsDue(cfg: Config, rest: bool, clock: int, actions: seq<Action>) returns (more: seq<Action>)
    requires Legal(cfg, rest, Started(cfg, clock), actions)
    requires !Run(cfg, Started(cfg, clock), actions).loop.Building?
    ensures var s := Run(cfg, Started(cfg, clock), actions);
            && Legal(cfg, rest, s, more)
            && var s' := Run(cfg, s, more);
               && s'.loop.Building? && s'.loop.through == s.committed && s'.seen == s.commits
               && s'.loop.started <= s.clock + Remaining(cfg, s) + (if s.desk.dirty then 0 else cfg.idleInterval)
  {
    var s := Run(cfg, Started(cfg, clock), actions);
    RunKeepsWait(cfg, rest, Started(cfg, clock), actions);
    hide Run, Legal;
    if s.loop.Idle? {
      more := WakesUp(cfg, rest, s, if s.desk.dirty || s.clock >= s.loop.deadline then 0 else s.loop.deadline - s.clock);
    } else {
      var d: nat := if s.clock >= s.loop.until then 0 else s.loop.until - s.clock;
      var s1 := Step(cfg, s, Tick(d));
      var s2 := Step(cfg, s1, Awake);
      var last := WakesUp(cfg, rest, s2, if s.desk.dirty then 0 else cfg.idleInterval);
      Unroll(cfg, rest, s1, Awake, last);
      Unroll(cfg, rest, s, Tick(d), [Awake] + last);
      more := [Tick(d)] + ([Awake] + last);
    }
  }

  // ---- Heartbeats ------------------------------------------------------------------------------

  /** Heartbeats are builds at least their interval apart, and none that was due is missing. */
  ghost predicate PingInv(cfg: Config, origin: int, s: State) {
    && s.lastPing == (if s.pings == [] then origin else s.pings[|s.pings| - 1])
    && Spaced([origin] + s.pings, cfg.heartbeat)
    && (forall t :: t in s.pings ==> t in s.starts)
    && (s.loop.Building? ==> s.starts != [] && s.starts[|s.starts| - 1] == s.loop.started)
    && (forall i :: 0 <= i < (if s.loop.Building? then |s.starts| - 1 else |s.starts|) ==>
          s.starts[i] - s.lastPing < cfg.heartbeat || s.starts[i] <= s.lastPing)
  }

  lemma PingSpaced(origin: int, pings: seq<int>, interval: nat, t: int)
    requires Spaced([origin] + pings, interval)
    requires t - (if pings == [] then origin else pings[|pings| - 1]) >= interval
    ensures Spaced([origin] + (pings + [t]), interval)
  {
    var xs := [origin] + pings;
    assert [origin] + (pings + [t]) == xs + [t] && xs[|xs| - 1] == if pings == [] then origin else pings[|pings| - 1];
    forall i, j | 0 <= i < j < |xs + [t]| ensures (xs + [t])[j] - (xs + [t])[i] >= interval {
      if j == |xs| && i < |xs| - 1 {
        assert xs[|xs| - 1] - xs[i] >= interval;
      }
    }
  }

  lemma EndKeepsPings(cfg: Config, origin: int, s: State)
    requires PingInv(cfg, origin, s) && s.loop.Building?
    ensures PingInv(cfg, origin, EndTurn(cfg, s))
  {
    hide Offered;
    if s.loop.started - s.lastPing >= cfg.heartbeat {
      PingSpaced(origin, s.pings, cfg.heartbeat, s.loop.started);
    }
    hide Spaced;
  }

  lemma StepKeepsPings(cfg: Config, origin: int, s: State, rest: bool, a: Action)
    requires PingInv(cfg, origin, s) && Enabled(s, rest, a)
    ensures PingInv(cfg, origin, Step(cfg, s, a))
  {
    if a.Built? {
      EndKeepsPings(cfg, origin, PublishSnapshot(cfg, s, s.loop.through).(succeeded := true));
    } else if a.Failed? {
      EndKeepsPings(cfg, origin, s);
    }
    hide Offered, Joined, Informed, Noted, Released, Mailboxes.Enabled, EndTurn, Spaced;
  }

  lemma {:induction false} RunKeepsPings(cfg: Config, origin: int, rest: bool, s: State, actions: seq<Action>)
    requires PingInv(cfg, origin, s) && Legal(cfg, rest, s, actions)
    ensures PingInv(cfg, origin, Run(cfg, s, actions))
    decreases |actions|
  {
    if actions != [] {
      hide PingInv, Step, Enabled;
      StepKeepsPings(cfg, origin, s, rest, actions[0]);
      RunKeepsPings(cfg, origin, rest, Step(cfg, s, actions[0]), actions[1..]);
    }
  }

  /** In every run: heartbeats go out with builds, at least their interval after the start and apart from
      one another, and no finished build began their interval or more after the last of them. */
  lemma HeartbeatsAreRegular(cfg: Config, rest: bool, clock: int, actions: seq<Action>)
    requires Legal(cfg, rest, Started(cfg, clock), actions)
    ensures var s := Run(cfg, Started(cfg, clock), actions);
            var last := if s.pings == [] then clock else s.pings[|s.pings| - 1];
            && Spaced([clock] + s.pings, cfg.heartbeat)
            && (forall t :: t in s.pings ==> t in s.starts)
            && (!s.loop.Building? ==>
                  forall i :: 0 <= i < |s.starts| ==> s.starts[i] - last < cfg.heartbeat || s.starts[i] <= last)
  {
    assert [clock] + [] == [clock];
    RunKeepsPings(cfg, clock, rest, Started(cfg, clock), actions);
    hide Run, Legal, Spaced;
  }

  // ---- Monotone pushes  // ---- Monotone pushes -------------------------------------------------------------------------

  /** Snapshots whose watermarks never decrease and stay within `through`. */
  ghost predicate RisingTo(ms: seq<Message>, through: int) {
    && (forall i :: 0 <= i < |ms| ==> ms[i].Snapshot? && ms[i].throughSeq <= through)
    && forall i, j :: 0 <= i < j < |ms| ==> ms[i].throughSeq <= ms[j].throughSeq
  }

  ghost predicate Rising(xs: seq<int>) {
    forall i, j :: 0 <= i < j < |xs| ==> xs[i] <= xs[j]
  }

  lemma {:induction false} SubsequenceRises(a: seq<Message>, b: seq<Message>, through: int)
    requires Subsequence(a, b) && RisingTo(b, through)
    ensures RisingTo(a, through)
    ensures a != [] ==> b != [] && a[|a| - 1].throughSeq <= b[|b| - 1].throughSeq
    decreases |b|
  {
    if a != [] {
      var b' := b[..|b| - 1];
      if Subsequence(a, b') {
        SubsequenceRises(a, b', through);
      } else {
        var a' := a[..|a| - 1];
        SubsequenceRises(a', b', through);
        assert forall i :: 0 <= i < |a'| ==> a[i] == a'[i];
        assert a' != [] ==> a'[|a'| - 1].throughSeq <= b[|b| - 1].throughSeq;
      }
    }
  }

  function Newest(s: State): int {
    if s.published == [] then 0 else s.published[|s.published| - 1]
  }

  /** Everything published rises, and no build in flight is older than the last publication. */
  ghost predicate PushInv(s: State) {
    && Rising(s.published)
    && (s.desk.latest.Some? <==> s.published != [])
    && (s.desk.latest.Some? ==> s.desk.latest.value == Newest(s))
    && 0 <= Newest(s) <= s.committed
    && (s.loop.Building? ==> Newest(s) <= s.loop.through <= s.committed)
    && (forall i :: 0 <= i < |s.rest| ==> Newest(s) <= s.rest[i] <= s.committed)
  }

  ghost predicate ClientInv(cfg: Config, s: State) {
    s.client.Some? ==>
      && Mailboxes.Inv(s.client.value, cfg.maxPending)
      && RisingTo(KindOf(SNAPSHOT, s.client.value.trace.conflated), Newest(s))
  }

  /** No build in flight is older than the snapshot this step publishes. */
  predicate InTurn(s: State, a: Action) {
    match a
    case Built => s.loop.Building? ==> forall i :: 0 <= i < |s.rest| ==> s.loop.through <= s.rest[i]
    case RestBuilt(i) =>
      i < |s.rest| ==>
        && (s.loop.Building? ==> s.rest[i] <= s.loop.through)
        && (forall j :: 0 <= j < |s.rest| ==> s.rest[i] <= s.rest[j])
    case _ => true
  }

  lemma PublishKeepsPush(cfg: Config, s: State, through: int)
    requires PushInv(s) && Newest(s) <= through <= s.committed
    requires (s.loop.Building? ==> through <= s.loop.through) && (forall i :: 0 <= i < |s.rest| ==> through <= s.rest[i])
    ensures PushInv(PublishSnapshot(cfg, s, through)) && Newest(PublishSnapshot(cfg, s, through)) == through
  {
    hide Informed;
  }

  lemma CommitKeepsPush(cfg: Config, s: State, m: Option<int>, events: seq<Event>, inserted: nat)
    requires PushInv(s)
    ensures PushInv(Step(cfg, s, Commit(m, events, inserted)))
    ensures Newest(Step(cfg, s, Commit(m, events, inserted))) == Newest(s)
  {
    DirtyAfterCommit(s.desk, cfg.feedPerTick, events, inserted);
    hide Noted, Rising;
  }

  lemma BuiltKeepsPush(cfg: Config, s: State)
    requires PushInv(s) && s.loop.Building? && InTurn(s, Built)
    ensures PushInv(Step(cfg, s, Built)) && Newest(s) <= Newest(Step(cfg, s, Built))
  {
    PublishKeepsPush(cfg, s, s.loop.through);
    hide Offered, Informed, Released, Rising;
  }

  lemma RestBuiltKeepsPush(cfg: Config, s: State, i: nat)
    requires PushInv(s) && i < |s.rest| && InTurn(s, RestBuilt(i))
    ensures PushInv(Step(cfg, s, RestBuilt(i))) && Newest(s) <= Newest(Step(cfg, s, RestBuilt(i)))
  {
    PublishKeepsPush(cfg, s, s.rest[i]);
    hide Informed, Released, Rising;
  }

  lemma StepKeepsPush(cfg: Config, s: State, rest: bool, a: Action)
    requires PushInv(s) && Enabled(s, rest, a) && InTurn(s, a)
    ensures PushInv(Step(cfg, s, a)) && Newest(s) <= Newest(Step(cfg, s, a))
  {
    match a {
      case Commit(m, events, inserted) => CommitKeepsPush(cfg, s, m, events, inserted);
      case Built => BuiltKeepsPush(cfg, s);
      case RestBuilt(i) => RestBuiltKeepsPush(cfg, s, i);
      case _ =>
        hide Offered, Joined, Informed, Released, Noted, Rising, Mailboxes.Enabled;
    }
  }

  lemma OfferKeepsClient(cfg: Config, c: Connection, a: Mailboxes.Action, before: int, after: int)
    requires Mailboxes.Inv(c, cfg.maxPending) && Mailboxes.Enabled(c.box, a)
    requires RisingTo(KindOf(SNAPSHOT, c.trace.conflated), before) && before <= after
    requires a.DoOfferLatest? ==> a.slot == Slot(SNAPSHOT, Snapshot(after))
    ensures var c' := Mailboxes.Step(c, cfg.maxPending, a);
            Mailboxes.Inv(c', cfg.maxPending) && RisingTo(KindOf(SNAPSHOT, c'.trace.conflated), after)
  {
    StepKeepsInv(c, cfg.maxPending, a);
    hide Mailboxes.Inv, Mailboxes.Enabled, Next, KindOf;
    if a.DoOfferLatest? {
      KindGrows(SNAPSHOT, c.trace.conflated, a.slot);
    }
  }

  lemma JoinedClient(cfg: Config, s: State, active: seq<Alert>)
    requires PushInv(s)
    ensures var c := Joined(s.desk, cfg.maxPending, active);
            Mailboxes.Inv(c, cfg.maxPending) && RisingTo(KindOf(SNAPSHOT, c.trace.conflated), Newest(s))
  {
    OpenedIsInv(cfg.maxPending);
    assert KindOf(SNAPSHOT, Opened().trace.conflated) == [];
    var hello := DoOffer(Hello(active, s.desk.recent));
    var greeted := Mailboxes.Step(Opened(), cfg.maxPending, hello);
    var newest := Newest(s);
    hide Mailboxes.Inv, Mailboxes.Step, KindOf, Opened;
    OfferKeepsClient(cfg, Opened(), hello, newest, newest);
    if s.desk.latest.Some? {
      OfferKeepsClient(cfg, greeted, DoOfferLatest(Slot(SNAPSHOT, Snapshot(newest))), newest, newest);
    }
  }

  /** The snapshot and, behind it, the feed. */
  lemma InformedClient(cfg: Config, d: Desk, c: Connection, before: int, through: int)
    requires Mailboxes.Inv(c, cfg.maxPending) && RisingTo(KindOf(SNAPSHOT, c.trace.conflated), before) && before <= through
    ensures var c' := Informed(d, through, cfg.maxPending, c);
            Mailboxes.Inv(c', cfg.maxPending) && RisingTo(KindOf(SNAPSHOT, c'.trace.conflated), through)
  {
    var a, feed := DoOfferLatest(Slot(SNAPSHOT, Snapshot(through))), Slot(FEED, Feed(d.pendingFeed));
    var after := Mailboxes.Step(c, cfg.maxPending, a);
    OfferKeepsClient(cfg, c, a, before, through);
    if d.pendingFeed != [] {
      StepKeepsInv(after, cfg.maxPending, DoOfferLatest(feed));
      KindGrows(SNAPSHOT, after.trace.conflated, feed);
      assert KindOf(SNAPSHOT, after.trace.conflated) + [] == KindOf(SNAPSHOT, after.trace.conflated);
    }
    hide Mailboxes.Inv, Next, KindOf, RisingTo, Mailboxes.Enabled;
  }

  lemma PublishKeepsClient(cfg: Config, s: State, through: int)
    requires ClientInv(cfg, s) && Newest(s) <= through
    ensures ClientInv(cfg, PublishSnapshot(cfg, s, through))
  {
    hide Mailboxes.Inv, Informed, Released, KindOf, RisingTo;
    assert Newest(PublishSnapshot(cfg, s, through)) == through;
    hide Newest;
    if s.client.Some? {
      InformedClient(cfg, s.desk, s.client.value, Newest(s), through);
    }
  }

  lemma EndKeepsClient(cfg: Config, s: State)
    requires ClientInv(cfg, s) && s.loop.Building?
    ensures ClientInv(cfg, EndTurn(cfg, s))
  {
    if s.client.Some? {
      OfferKeepsClient(cfg, s.client.value, DoOffer(Ping), Newest(s), Newest(s));
    }
    hide Mailboxes.Inv, Mailboxes.Step, KindOf, RisingTo;
  }

  lemma StepKeepsClient(cfg: Config, s: State, rest: bool, a: Action)
    requires PushInv(s) && ClientInv(cfg, s) && Enabled(s, rest, a)
    ensures ClientInv(cfg, Step(cfg, s, a))
  {
    hide Mailboxes.Inv, Mailboxes.Step, KindOf, RisingTo, Informed, Released, Noted, Joined;
    match a {
      case Join(active) =>
        JoinedClient(cfg, s, active);
      case Client(b) =>
        OfferKeepsClient(cfg, s.client.value, b, Newest(s), Newest(s));
      case Built =>
        PublishKeepsClient(cfg, s, s.loop.through);
        EndKeepsClient(cfg, PublishSnapshot(cfg, s, s.loop.through).(succeeded := true));
        hide EndTurn;
      case Failed =>
        EndKeepsClient(cfg, s);
        hide EndTurn;
      case RestBuilt(i) =>
        PublishKeepsClient(cfg, s, s.rest[i]);
      case _ =>
    }
  }

  /** No snapshot is published while an older build is in flight. */
  ghost predicate AllInTurn(cfg: Config, s: State, actions: seq<Action>)
    decreases |actions|
  {
    actions != [] ==> InTurn(s, actions[0]) && AllInTurn(cfg, Step(cfg, s, actions[0]), actions[1..])
  }

  lemma {:induction false} RunKeepsPush(cfg: Config, s: State, rest: bool, actions: seq<Action>)
    requires PushInv(s) && ClientInv(cfg, s) && Legal(cfg, rest, s, actions) && AllInTurn(cfg, s, actions)
    ensures PushInv(Run(cfg, s, actions)) && ClientInv(cfg, Run(cfg, s, actions))
    decreases |actions|
  {
    if actions != [] {
      hide PushInv, ClientInv, Step, Enabled, InTurn;
      StepKeepsPush(cfg, s, rest, actions[0]);
      StepKeepsClient(cfg, s, rest, actions[0]);
      RunKeepsPush(cfg, Step(cfg, s, actions[0]), rest, actions[1..]);
    }
  }

  /** What a client has been sent, or is being sent, never goes back in time. */
  ghost predicate ClientRises(s: State) {
    s.client.Some? ==> RisingTo(KindOf(SNAPSHOT, SlotsOf(s.client.value.trace.taken)), s.committed)
  }

  ghost predicate NeverGoesBack(cfg: Config, rest: bool) {
    forall clock: int, actions: seq<Action> ::
      Legal(cfg, rest, Started(cfg, clock), actions) ==>
        var s := Run(cfg, Started(cfg, clock), actions); Rising(s.published) && ClientRises(s)
  }

  /** With or without REST builds: pushes rise in every run in which no snapshot is published while an
      older build is in flight. */
  lemma InTurnRises(cfg: Config, rest: bool, clock: int, actions: seq<Action>)
    requires Legal(cfg, rest, Started(cfg, clock), actions) && AllInTurn(cfg, Started(cfg, clock), actions)
    ensures var s := Run(cfg, Started(cfg, clock), actions); Rising(s.published) && ClientRises(s)
  {
    var s := Run(cfg, Started(cfg, clock), actions);
    RunKeepsPush(cfg, Started(cfg, clock), rest, actions);
    if s.client.Some? {
      var c := s.client.value;
      var taken, pending := KindOf(SNAPSHOT, SlotsOf(c.trace.taken)), KindOf(SNAPSHOT, c.box.latest);
      AtMostOnePending(SNAPSHOT, c.box.latest);
      hide Run, Legal, KindOf, SlotsOf, Subsequence;
      SubsequencePrefix(taken, pending, KindOf(SNAPSHOT, c.trace.conflated));
      SubsequenceRises(taken, KindOf(SNAPSHOT, c.trace.conflated), Newest(s));
    }
  }

  /** The loop alone has one build in flight at a time. */
  lemma {:induction false} LoopAloneInTurn(cfg: Config, s: State, actions: seq<Action>)
    requires s.rest == [] && Legal(cfg, false, s, actions)
    ensures AllInTurn(cfg, s, actions)
    decreases |actions|
  {
    if actions != [] {
      assert Step(cfg, s, actions[0]).rest == [] by {
        hide Informed, Joined, Offered, Mailboxes.Enabled;
      }
      hide Step;
      LoopAloneInTurn(cfg, Step(cfg, s, actions[0]), actions[1..]);
    }
  }

  const COMMIT: Action := Commit(Some(5), [], 0)

  /** A REST request begins a build at watermark 0; a commit follows, the loop builds and publishes
      5, and then the REST build publishes 0. */
  lemma RestBuildGoesBack(cfg: Config)
    ensures !NeverGoesBack(cfg, true)
  {
    hide Offered, Joined, Informed, Mailboxes.Enabled, NeverGoesBack, Rising, Run, Legal;
    var s0 := Started(cfg, 0);
    var s1 := Step(cfg, s0, RestBegin);
    assert s1 == s0.(rest := [0]);
    var s2 := Step(cfg, s1, COMMIT);
    assert s2.desk.dirty && s2.desk.latest == None && s2.committed == 5 && s2.rest == [0] && s2.loop.Idle?;
    var s3 := Step(cfg, s2, Wake);
    assert s3.loop == Building(0, 5) && s3.published == [] && s3.rest == [0];
    var s4 := Step(cfg, s3, Built);
    assert s4.published == [5] && s4.rest == [0];
    var s5 := Step(cfg, s4, RestBuilt(0));
    assert s5.published == [5, 0];
    assert Enabled(s0, true, RestBegin) && Enabled(s1, true, COMMIT) && Enabled(s2, true, Wake)
        && Enabled(s3, true, Built) && Enabled(s4, true, RestBuilt(0));
    hide Step, Enabled, Started;
    var a5: seq<Action> := [];
    NoSteps(cfg, true, s5);
    Unroll(cfg, true, s4, RestBuilt(0), a5);
    var a4 := [RestBuilt(0)] + a5;
    Unroll(cfg, true, s3, Built, a4);
    var a3 := [Built] + a4;
    Unroll(cfg, true, s2, Wake, a3);
    var a2 := [Wake] + a3;
    Unroll(cfg, true, s1, COMMIT, a2);
    var a1 := [COMMIT] + a2;
    Unroll(cfg, true, s0, RestBegin, a1);
    FallsBack(cfg, [RestBegin] + a1);
  }

  lemma FallsBack(cfg: Config, actions: seq<Action>)
    requires Legal(cfg, true, Started(cfg, 0), actions) && Run(cfg, Started(cfg, 0), actions).published == [5, 0]
    ensures !NeverGoesBack(cfg, true)
  {
    var s := Run(cfg, Started(cfg, 0), actions);
    assert s.published[0] > s.published[1];
    assert !Rising(s.published);
    hide Run, Legal, Started;
  }

  /** Watermarks pushed to a client never decrease, in every run, if and only if no snapshot is built
      for a REST request while the loop runs. */
  lemma NeverGoesBackExactly(cfg: Config, rest: bool)
    ensures NeverGoesBack(cfg, rest) <==> !rest
  {
    if rest {
      RestBuildGoesBack(cfg);
    } else {
      forall clock: int, actions: seq<Action> | Legal(cfg, false, Started(cfg, clock), actions)
        ensures var s := Run(cfg, Started(cfg, clock), actions); Rising(s.published) && ClientRises(s)
      {
        LoopAloneInTurn(cfg, Started(cfg, clock), actions);
        InTurnRises(cfg, false, clock, actions);
      }
    }
  }

  // ---- The feed ------------------------------------------------------------------------------

  lemma NewestOfSuffix<T>(xs: seq<T>, k: nat, n: nat)
    requires k + n <= |xs|
    ensures KeepNewest(xs[k..], n) == KeepNewest(xs, n)
  {
  }

  lemma NewestOfHeld<T>(held: seq<T>, batch: seq<T>, n: nat)
    ensures KeepNewest(KeepNewest(held, n) + batch, n) == KeepNewest(held + batch, n)
  {
    if |held| > n {
      var k := |held| - n;
      assert (held + batch)[k..] == held[k..] + batch;
      NewestOfSuffix(held + batch, k, n);
    }
  }

  lemma Tail<T>(a: seq<T>, b: seq<T>, k: nat)
    requires k <= |b|
    ensures (a + b)[|a| + k..] == b[k..]
  {
  }

  lemma NewestIsTail<T>(xs: seq<T>, n: nat)
    requires n <= |xs|
    ensures KeepNewest(xs, n) == xs[|xs| - n..]
  {
  }

  lemma NewestOfBatch<T>(held: seq<T>, batch: seq<T>, n: nat)
    ensures KeepNewest(held + KeepNewest(batch, n), n) == KeepNewest(held + batch, n)
  {
    if |batch| > n {
      var newest := batch[|batch| - n..];
      NewestIsTail(batch, n);
      NewestIsTail(held + newest, n);
      NewestIsTail(held + batch, n);
      hide KeepNewest;
      Tail(held, newest, 0);
      Tail(held, batch, |batch| - n);
    } else {
      assert KeepNewest(batch, n) == batch;
    }
  }

  /** Taking the newest of each batch first loses nothing the deque would have kept. */
  lemma NewestOfBatches<T>(held: seq<T>, batch: seq<T>, n: nat)
    ensures KeepNewest(KeepNewest(held, n) + batch, n) == KeepNewest(held + batch, n)
    ensures KeepNewest(KeepNewest(held, n) + KeepNewest(batch, n), n) == KeepNewest(held + batch, n)
  {
    NewestOfHeld(held, batch, n);
    NewestOfHeld(held, KeepNewest(batch, n), n);
    NewestOfBatch(held, batch, n);
    hide KeepNewest;
  }

  function FeedItems(ms: seq<Message>): seq<Event>
    decreases |ms|
  {
    if ms == [] then []
    else
      var last := ms[|ms| - 1];
      FeedItems(ms[..|ms| - 1]) + (if last.Feed? then last.items else [])
  }

  lemma FeedItemsMore(ms: seq<Message>, m: Message)
    ensures FeedItems(ms + [m]) == FeedItems(ms) + (if m.Feed? then m.items else [])
  {
    assert (ms + [m])[..|ms|] == ms;
  }

  /** The pending feed is the newest of what was committed since the last publication, the recent events
      are the newest of what was published, and a client can follow: what it was greeted with and
      every feed offered since make up the recent events. */
  ghost predicate FeedInv(cfg: Config, s: State) {
    && s.desk.pendingFeed == KeepNewest(s.since, cfg.feedPerTick)
    && s.desk.recent == KeepNewest(s.fed, RECENT)
    && (s.client.Some? ==> Follows(s.client.value.trace, s.desk.recent))
  }

  ghost predicate Follows(t: Trace, recent: seq<Event>) {
    && t.offered != [] && t.offered[0].Hello?
    && KeepNewest(t.offered[0].recent + FeedItems(KindOf(FEED, t.conflated)), RECENT) == recent
  }

  lemma OfferFollows(c: Connection, maxPending: nat, a: Mailboxes.Action, recent: seq<Event>)
    requires Follows(c.trace, recent)
    requires a.DoOfferLatest? ==> a.slot.kind != FEED
    ensures Follows(Mailboxes.Step(c, maxPending, a).trace, recent)
  {
    if a.DoOfferLatest? {
      KindGrows(FEED, c.trace.conflated, a.slot);
      assert KindOf(FEED, c.trace.conflated) + [] == KindOf(FEED, c.trace.conflated);
    }
    hide KindOf, FeedItems, KeepNewest, Next;
  }

  lemma FeedExtends(greeted: seq<Event>, before: seq<Message>, items: seq<Event>)
    ensures KeepNewest(greeted + FeedItems(before + [Feed(items)]), RECENT)
         == KeepNewest(KeepNewest(greeted + FeedItems(before), RECENT) + items, RECENT)
  {
    FeedItemsMore(before, Feed(items));
    hide FeedItems, KeepNewest;
    NewestOfBatches(greeted + FeedItems(before), items, RECENT);
    assert greeted + FeedItems(before) + items == greeted + (FeedItems(before) + items);
  }

  lemma FeedFollows(c: Connection, maxPending: nat, items: seq<Event>, recent: seq<Event>)
    requires Follows(c.trace, recent)
    ensures Follows(Mailboxes.Step(c, maxPending, DoOfferLatest(Slot(FEED, Feed(items)))).trace, KeepNewest(recent + items, RECENT))
  {
    KindGrows(FEED, c.trace.conflated, Slot(FEED, Feed(items)));
    hide KindOf, FeedItems, KeepNewest, Next;
    FeedExtends(c.trace.offered[0].recent, KindOf(FEED, c.trace.conflated), items);
  }

  lemma InformedFollows(d: Desk, through: int, maxPending: nat, c: Connection)
    requires Follows(c.trace, d.recent)
    ensures Follows(Informed(d, through, maxPending, c).trace, Released(d, through).recent)
  {
    hide Follows, KeepNewest, Mailboxes.Step;
    OfferFollows(c, maxPending, DoOfferLatest(Slot(SNAPSHOT, Snapshot(through))), d.recent);
    if d.pendingFeed != [] {
      FeedFollows(Mailboxes.Step(c, maxPending, DoOfferLatest(Slot(SNAPSHOT, Snapshot(through)))), maxPending, d.pendingFeed, d.recent);
    }
  }

  lemma JoinedFollows(d: Desk, maxPending: nat, active: seq<Alert>)
    requires |d.recent| <= RECENT
    ensures Follows(Joined(d, maxPending, active).trace, d.recent)
  {
    var greeted := Mailboxes.Step(Opened(), maxPending, DoOffer(Hello(active, d.recent)));
    assert Follows(greeted.trace, d.recent) by {
      assert d.recent + FeedItems(KindOf(FEED, [])) == d.recent;
      hide Next;
    }
    hide Follows, Mailboxes.Step;
    if d.latest.Some? {
      OfferFollows(greeted, maxPending, DoOfferLatest(Slot(SNAPSHOT, Snapshot(d.latest.value))), d.recent);
    }
  }

  lemma PublishKeepsFeed(cfg: Config, s: State, through: int)
    requires FeedInv(cfg, s)
    ensures FeedInv(cfg, PublishSnapshot(cfg, s, through))
  {
    if s.client.Some? {
      InformedFollows(s.desk, through, cfg.maxPending, s.client.value);
    }
    NewestOfBatches(s.fed, s.desk.pendingFeed, RECENT);
    assert s.fed + [] == s.fed;
    hide Follows, Informed;
  }

  lemma EndKeepsFeed(cfg: Config, s: State)
    requires FeedInv(cfg, s) && s.loop.Building?
    ensures FeedInv(cfg, EndTurn(cfg, s))
  {
    if s.client.Some? {
      OfferFollows(s.client.value, cfg.maxPending, DoOffer(Ping), s.desk.recent);
    }
    hide Follows, KeepNewest, Mailboxes.Step;
  }

  lemma StepKeepsFeed(cfg: Config, s: State, rest: bool, a: Action)
    requires FeedInv(cfg, s) && Enabled(s, rest, a)
    ensures FeedInv(cfg, Step(cfg, s, a))
  {
    match a {
      case Commit(m, events, inserted) =>
        NewestOfBatches(s.since, events, cfg.feedPerTick);
        hide Follows, KeepNewest;
      case Built =>
        PublishKeepsFeed(cfg, s, s.loop.through);
        EndKeepsFeed(cfg, PublishSnapshot(cfg, s, s.loop.through).(succeeded := true));
        hide EndTurn, PublishSnapshot, Follows, KeepNewest;
      case Failed =>
        EndKeepsFeed(cfg, s);
        hide EndTurn, Follows, KeepNewest;
      case RestBuilt(i) =>
        PublishKeepsFeed(cfg, s, s.rest[i]);
        hide PublishSnapshot, Follows, KeepNewest;
      case Join(active) =>
        JoinedFollows(s.desk, cfg.maxPending, active);
        hide Joined, Follows;
      case Client(b) =>
        OfferFollows(s.client.value, cfg.maxPending, b, s.desk.recent);
        hide Follows, KeepNewest, Mailboxes.Step, Mailboxes.Enabled;
      case _ =>
        hide Follows, KeepNewest;
    }
  }

  lemma {:induction false} RunKeepsFeed(cfg: Config, s: State, rest: bool, actions: seq<Action>)
    requires FeedInv(cfg, s) && Legal(cfg, rest, s, actions)
    ensures FeedInv(cfg, Run(cfg, s, actions))
    decreases |actions|
  {
    if actions != [] {
      hide FeedInv, Step, Enabled;
      StepKeepsFeed(cfg, s, rest, actions[0]);
      RunKeepsFeed(cfg, Step(cfg, s, actions[0]), rest, actions[1..]);
    }
  }

  /** In every run: the pending feed is the newest of what was committed since the last publication, and
      a connected client that was offered everything so far holds what a client that connects now is
      greeted with. */
  lemma FeedIsConsistent(cfg: Config, rest: bool, clock: int, actions: seq<Action>)
    requires Legal(cfg, rest, Started(cfg, clock), actions)
    ensures var s := Run(cfg, Started(cfg, clock), actions);
            && IsNewest(s.desk.pendingFeed, s.since, cfg.feedPerTick)
            && IsNewest(s.desk.recent, s.fed, 30)
            && (s.client.Some? ==>
                  var t := s.client.value.trace;
                  && t.offered != [] && t.offered[0].Hello?
                  && IsNewest(s.desk.recent, t.offered[0].recent + FeedItems(KindOf(FEED, t.conflated)), 30))
  {
    RunKeepsFeed(cfg, Started(cfg, clock), rest, actions);
    var s := Run(cfg, Started(cfg, clock), actions);
    KeptIsNewest(s.since, cfg.feedPerTick);
    KeptIsNewest(s.fed, RECENT);
    hide Run, Legal, KeepNewest, FeedItems, KindOf;
    if s.client.Some? {
      var t := s.client.value.trace;
      KeptIsNewest(t.offered[0].recent + FeedItems(KindOf(FEED, t.conflated)), RECENT);
    }
    hide IsNewest;
  }

  /** `part` is the newest of `whole`, all of it or `n` of them. */
  ghost predicate IsNewest<T>(part: seq<T>, whole: seq<T>, n: nat) {
    && |part| == (if |whole| < n then |whole| else n)
    && part == whole[|whole| - |part|..]
  }

  lemma KeptIsNewest<T>(whole: seq<T>, n: nat)
    ensures IsNewest(KeepNewest(whole, n), whole, n)
  {
  }

  // ---- What a client is offered, and has when its sender sleeps ---------------------------------

  function Repeated(m: Message, n: nat): (ms: seq<Message>)
    ensures |ms| == n && forall i :: 0 <= i < n ==> ms[i] == m
  {
    seq(n, i => m)
  }

  function Labelled(labels: seq<int>): (ms: seq<Message>)
    ensures |ms| == |labels| && forall i :: 0 <= i < |labels| ==> ms[i] == Snapshot(labels[i])
  {
    seq(|labels|, i requires 0 <= i < |labels| => Snapshot(labels[i]))
  }

  /** A greeting and then every heartbeat since; the newest snapshot at the time and then every later one. */
  ghost predicate Hears(t: Trace, e: Entry, pings: nat, published: seq<int>) {
    && e.pings <= pings && e.first <= |published|
    && t.offered != [] && t.offered[0].Hello?
    && t.offered[1..] == Repeated(Ping, pings - e.pings)
    && KindOf(SNAPSHOT, t.conflated) == Labelled(published[e.first..])
  }

  ghost predicate HearInv(cfg: Config, s: State) {
    && (s.desk.latest == if s.published == [] then None else Some(s.published[|s.published| - 1]))
    && (s.client.Some? ==>
          && Mailboxes.Inv(s.client.value, cfg.maxPending)
          && Hears(s.client.value.trace, s.joined, |s.pings|, s.published)
          && (s.joined.first < |s.published| || s.published == []))
  }

  lemma PingHeard(c: Connection, maxPending: nat, e: Entry, pings: nat, published: seq<int>)
    requires Mailboxes.Inv(c, maxPending) && Hears(c.trace, e, pings, published)
    ensures var c' := Mailboxes.Step(c, maxPending, DoOffer(Ping));
            Mailboxes.Inv(c', maxPending) && Hears(c'.trace, e, pings + 1, published)
  {
    StepKeepsInv(c, maxPending, DoOffer(Ping));
    assert (c.trace.offered + [Ping])[1..] == c.trace.offered[1..] + [Ping];
    assert Repeated(Ping, pings - e.pings) + [Ping] == Repeated(Ping, pings + 1 - e.pings);
    hide Mailboxes.Inv, Next, KindOf;
  }

  lemma SnapshotHeard(c: Connection, maxPending: nat, e: Entry, pings: nat, published: seq<int>, through: int)
    requires Mailboxes.Inv(c, maxPending) && Hears(c.trace, e, pings, published)
    ensures var c' := Mailboxes.Step(c, maxPending, DoOfferLatest(Slot(SNAPSHOT, Snapshot(through))));
            Mailboxes.Inv(c', maxPending) && Hears(c'.trace, e, pings, published + [through])
  {
    var slot := Slot(SNAPSHOT, Snapshot(through));
    StepKeepsInv(c, maxPending, DoOfferLatest(slot));
    KindGrows(SNAPSHOT, c.trace.conflated, slot);
    assert (published + [through])[e.first..] == published[e.first..] + [through];
    assert Labelled(published[e.first..]) + [Snapshot(through)] == Labelled(published[e.first..] + [through]);
    hide Mailboxes.Inv, Next, KindOf;
  }

  lemma QuietHeard(c: Connection, maxPending: nat, a: Mailboxes.Action, e: Entry, pings: nat, published: seq<int>)
    requires Mailboxes.Inv(c, maxPending) && Hears(c.trace, e, pings, published) && Mailboxes.Enabled(c.box, a)
    requires !a.DoOffer? && (a.DoOfferLatest? ==> a.slot.kind != SNAPSHOT)
    ensures var c' := Mailboxes.Step(c, maxPending, a);
            Mailboxes.Inv(c', maxPending) && Hears(c'.trace, e, pings, published)
  {
    StepKeepsInv(c, maxPending, a);
    if a.DoOfferLatest? {
      KindGrows(SNAPSHOT, c.trace.conflated, a.slot);
      assert KindOf(SNAPSHOT, c.trace.conflated) + [] == KindOf(SNAPSHOT, c.trace.conflated);
    }
    hide Mailboxes.Inv, Next, KindOf, Mailboxes.Enabled;
  }

  lemma InformedHears(d: Desk, c: Connection, maxPending: nat, e: Entry, pings: nat, published: seq<int>, through: int)
    requires Mailboxes.Inv(c, maxPending) && Hears(c.trace, e, pings, published)
    ensures var c' := Informed(d, through, maxPending, c);
            Mailboxes.Inv(c', maxPending) && Hears(c'.trace, e, pings, published + [through])
  {
    hide Mailboxes.Inv, Hears, Mailboxes.Step;
    SnapshotHeard(c, maxPending, e, pings, published, through);
    if d.pendingFeed != [] {
      QuietHeard(Mailboxes.Step(c, maxPending, DoOfferLatest(Slot(SNAPSHOT, Snapshot(through)))), maxPending,
                 DoOfferLatest(Slot(FEED, Feed(d.pendingFeed))), e, pings, published + [through]);
    }
  }

  lemma JoinedHears(d: Desk, maxPending: nat, active: seq<Alert>, pings: nat, published: seq<int>)
    requires d.latest == if published == [] then None else Some(published[|published| - 1])
    ensures var c := Joined(d, maxPending, active);
            Mailboxes.Inv(c, maxPending)
            && Hears(c.trace, Entry(pings, if published == [] then 0 else |published| - 1), pings, published)
  {
    OpenedIsInv(maxPending);
    var hello := DoOffer(Hello(active, d.recent));
    StepKeepsInv(Opened(), maxPending, hello);
    var greeted := Mailboxes.Step(Opened(), maxPending, hello);
    assert greeted.trace.offered[1..] == [] && KindOf(SNAPSHOT, greeted.trace.conflated) == [] by {
      hide Next, Mailboxes.Inv;
    }
    hide Mailboxes.Inv, Mailboxes.Step, KindOf, Mailboxes.Enabled;
    if d.latest.Some? {
      var earlier := published[..|published| - 1];
      assert Hears(greeted.trace, Entry(pings, |earlier|), pings, earlier);
      assert earlier + [d.latest.value] == published;
      SnapshotHeard(greeted, maxPending, Entry(pings, |earlier|), pings, earlier, d.latest.value);
    }
  }

  lemma PublishKeepsHear(cfg: Config, s: State, through: int)
    requires HearInv(cfg, s)
    ensures HearInv(cfg, PublishSnapshot(cfg, s, through))
  {
    ReleasedStaysDirty(s.desk);
    if s.client.Some? {
      InformedHears(s.desk, s.client.value, cfg.maxPending, s.joined, |s.pings|, s.published, through);
      assert s.joined.first <= |s.published|;
    }
    hide Hears, Mailboxes.Inv, Informed, Released;
  }

  lemma EndKeepsHear(cfg: Config, s: State)
    requires HearInv(cfg, s) && s.loop.Building?
    ensures HearInv(cfg, EndTurn(cfg, s))
  {
    if s.client.Some? {
      PingHeard(s.client.value, cfg.maxPending, s.joined, |s.pings|, s.published);
    }
    hide Hears, Mailboxes.Inv, Mailboxes.Step;
  }

  lemma StepKeepsHear(cfg: Config, s: State, rest: bool, a: Action)
    requires HearInv(cfg, s) && Enabled(s, rest, a)
    ensures HearInv(cfg, Step(cfg, s, a))
  {
    hide Hears, Mailboxes.Inv, Mailboxes.Step, Informed, Released, Joined;
    match a {
      case Commit(m, events, inserted) =>
        DirtyAfterCommit(s.desk, cfg.feedPerTick, events, inserted);
        hide Noted;
      case Built =>
        PublishKeepsHear(cfg, s, s.loop.through);
        EndKeepsHear(cfg, PublishSnapshot(cfg, s, s.loop.through).(succeeded := true));
        hide EndTurn, PublishSnapshot;
      case Failed =>
        EndKeepsHear(cfg, s);
        hide EndTurn;
      case RestBuilt(i) =>
        PublishKeepsHear(cfg, s, s.rest[i]);
        hide PublishSnapshot;
      case Join(active) =>
        JoinedHears(s.desk, cfg.maxPending, active, |s.pings|, s.published);
      case Client(b) =>
        QuietHeard(s.client.value, cfg.maxPending, b, s.joined, |s.pings|, s.published);
      case _ =>
    }
  }

  lemma {:induction false} RunKeepsHear(cfg: Config, s: State, rest: bool, actions: seq<Action>)
    requires HearInv(cfg, s) && Legal(cfg, rest, s, actions)
    ensures HearInv(cfg, Run(cfg, s, actions))
    decreases |actions|
  {
    if actions != [] {
      hide HearInv, Step, Enabled;
      StepKeepsHear(cfg, s, rest, actions[0]);
      RunKeepsHear(cfg, Step(cfg, s, actions[0]), rest, actions[1..]);
    }
  }

  /** In every run: a client was offered its greeting and every heartbeat since it joined, in order, and
      once its sender sleeps it has sent them all; of the snapshots it was offered the newest there was and
      every later one, and once its sender sleeps the last one it sent is the newest there is. */
  lemma ClientIsUpToDate(cfg: Config, rest: bool, clock: int, actions: seq<Action>)
    requires Legal(cfg, rest, Started(cfg, clock), actions)
    requires Run(cfg, Started(cfg, clock), actions).client.Some?
    ensures var s := Run(cfg, Started(cfg, clock), actions); var c := s.client.value;
            var sent := KindOf(SNAPSHOT, SlotsOf(c.trace.taken));
            && Hears(c.trace, s.joined, |s.pings|, s.published)
            && (c.box.phase.Waiting? && !c.box.wake ==>
                  && ReliableOf(c.trace.taken) == c.trace.offered
                  && (s.published == [] ==> s.desk.latest.None? && sent == [])
                  && (s.published != [] ==>
                        sent != [] && sent[|sent| - 1] == Snapshot(s.published[|s.published| - 1])
                        && s.desk.latest == Some(s.published[|s.published| - 1])))
  {
    assert HearInv(cfg, Started(cfg, clock));
    RunKeepsHear(cfg, Started(cfg, clock), rest, actions);
    var s := Run(cfg, Started(cfg, clock), actions);
    var c := s.client.value;
    hide Run, Legal, Mailboxes.Inv, KindOf, SlotsOf, ReliableOf, Subsequence;
    if c.box.phase.Waiting? && !c.box.wake {
      IdleHasEverything(c, cfg.maxPending, SNAPSHOT);
      assert s.published == [] ==> Labelled(s.published[s.joined.first..]) == [];
    }
  }

  // ---- The broadcaster as an object --------------------------------------------------------

  class Broadcaster {
    const hub: Hub
    const feedPerTick: nat
    var dirty: bool
    var pendingFeed: seq<Event>
    var recent: seq<Event>
    var latestSnapshot: Option<int>
    var snapshotsBuilt: nat

    ghost function View(): Desk
      reads this
    {
      Desk(dirty, pendingFeed, recent, latestSnapshot)
    }

    constructor (hub: Hub, feedPerTick: nat)
      ensures this.hub == hub && this.feedPerTick == feedPerTick
      ensures View() == Desk(false, [], [], None) && snapshotsBuilt == 0
    {
      this.hub, this.feedPerTick := hub, feedPerTick;
      dirty, pendingFeed, recent, latestSnapshot, snapshotsBuilt := false, [], [], None, 0;
    }

    /** Called by the writer after every batch. */
    method OnCommit(events: seq<Event>, inserted: nat)
      modifies this
      ensures View() == Noted(old(View()), feedPerTick, events, inserted) && snapshotsBuilt == old(snapshotsBuilt)
    {
      if inserted > 0 {
        pendingFeed := KeepNewest(pendingFeed + KeepNewest(events, feedPerTick), feedPerTick);
      }
      dirty := true;
    }

    /** The end of a build: one shared snapshot and the sampled feed go to every client. */
    method FinishBuild(through: int)
      modifies this, hub.clients
      ensures View() == Released(old(View()), through) && snapshotsBuilt == old(snapshotsBuilt) + 1
      ensures forall c :: c in hub.clients ==>
                c.Box() == Informed(old(View()), through, c.maxPending, Connection(old(c.Box()), Opened().trace)).box
    {
      hide Next;
      snapshotsBuilt := snapshotsBuilt + 1;
      latestSnapshot := Some(through);
      hub.PublishLatest(SNAPSHOT, Snapshot(through));
      if pendingFeed != [] {
        var items := pendingFeed;
        pendingFeed := [];
        recent := KeepNewest(recent + items, RECENT);
        hub.PublishLatest(FEED, Feed(items));
      }
    }

    /** A new client is greeted first; then it gets the current snapshot, if there is one. */
    method Greet(client: ClientConnection, active: seq<Alert>)
      requires client.Box() == Empty()
      modifies client
      ensures client.Box() == Joined(View(), client.maxPending, active).box
    {
      hide Next;
      client.Offer(Hello(active, recent));
      if latestSnapshot.Some? {
        client.OfferLatest(SNAPSHOT, Snapshot(latestSnapshot.value));
      }
    }
  }
}
