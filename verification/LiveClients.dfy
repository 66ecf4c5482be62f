/** The reconnecting WebSocket client. Every public call, socket event and timer is one step: the
    program runs on one thread, and its callbacks are taken not to call back into the client. */
module LiveClients {
  import opened Events

  datatype Status = NeverStarted | Connecting | Open | Reconnecting | Stopped

  datatype TimerKind = Retry(due: int) | Heartbeat

  /** What a socket delivers: a greeting, another known message, or data that is ignored. */
  datatype Data = HelloData | KnownData | Garbage

  /** The client's own fields. */
  datatype Fields = Fields(
    socket: Option<nat>,
    retryTimer: Option<nat>,
    heartbeatTimer: Option<nat>,
    running: bool,
    status: Status,
    attempt: nat,
    nextRetryAt: Option<int>,
    lastMessageAt: Option<int>)

  /** The pending timers, and the sockets created so far: those in `released` were closed. */
  datatype Browser = Browser(timers: map<nat, TimerKind>, nextTimer: nat, nextSocket: nat, released: set<nat>)

  /** A message handed to the application, the socket it came from, and when. */
  datatype Delivery = Delivery(socket: nat, data: Data, at: int)

  /** `scheduled` counts the reconnects since the last greeting; `delivered` records every message handed
      to the application. Both are history. */
  datatype State = State(fields: Fields, browser: Browser, scheduled: nat, delivered: seq<Delivery>)

  /** What the outside world contributes to one step. */
  datatype Outside = Outside(created: bool, now: int, delay: nat)

  datatype Action =
    | Start
    | Stop
    | ReconnectNow
    | SocketOpened(socket: nat)
    | SocketMessage(socket: nat, data: Data)
    | SocketClosed(socket: nat)
    | TimerFired(timer: nat)

  function Initial(): State {
    State(Fields(None, None, None, false, NeverStarted, 0, None, None), Browser(map[], 0, 0, {}), 0, [])
  }

  function Without(timers: map<nat, TimerKind>, timer: Option<nat>): map<nat, TimerKind> {
    if timer.None? then timers else timers - {timer.value}
  }

  function ClearTimers(s: State): State {
    var f := s.fields;
    State(f.(retryTimer := None, heartbeatTimer := None),
          s.browser.(timers := Without(Without(s.browser.timers, f.retryTimer), f.heartbeatTimer)),
          s.scheduled, s.delivered)
  }

  function DropSocket(s: State): State {
    if s.fields.socket.None? then s
    else State(s.fields.(socket := None), s.browser.(released := s.browser.released + {s.fields.socket.value}),
               s.scheduled, s.delivered)
  }

  function ScheduleReconnect(s: State, o: Outside): State {
    var c := ClearTimers(s);
    var id := c.browser.nextTimer;
    State(c.fields.(status := Reconnecting, attempt := c.fields.attempt + 1,
                    nextRetryAt := Some(o.now + o.delay), retryTimer := Some(id)),
          c.browser.(timers := c.browser.timers[id := Retry(o.now + o.delay)], nextTimer := id + 1),
          s.scheduled + 1, s.delivered)
  }

  function ArmHeartbeat(s: State): State {
    var id := s.browser.nextTimer;
    State(s.fields.(heartbeatTimer := Some(id)),
          s.browser.(timers := Without(s.browser.timers, s.fields.heartbeatTimer)[id := Heartbeat], nextTimer := id + 1),
          s.scheduled, s.delivered)
  }

  function Connect(s: State, o: Outside): State {
    var f := s.fields.(status := if s.fields.attempt == 0 then Connecting else Reconnecting, nextRetryAt := None);
    if !o.created then ScheduleReconnect(s.(fields := f), o)
    else
      State(f.(socket := Some(s.browser.nextSocket)), s.browser.(nextSocket := s.browser.nextSocket + 1), s.scheduled, s.delivered)
  }

  function HandleMessage(s: State, socket: nat, data: Data, now: int): State {
    match data
    case Garbage => s
    case KnownData => State(s.fields.(lastMessageAt := Some(now)), s.browser, s.scheduled,
                            s.delivered + [Delivery(socket, data, now)])
    case HelloData =>
      State(s.fields.(status := Open, attempt := 0, lastMessageAt := Some(now)), s.browser, 0,
            s.delivered + [Delivery(socket, data, now)])
  }

  function Step(s: State, o: Outside, a: Action): State {
    match a
    case Start => if s.fields.running then s else Connect(s.(fields := s.fields.(running := true)), o)
    case Stop =>
      var d := DropSocket(ClearTimers(s.(fields := s.fields.(running := false))));
      d.(fields := d.fields.(status := Stopped, nextRetryAt := None))
    case ReconnectNow =>
      if !s.fields.running || s.fields.status.Open? then s else Connect(DropSocket(ClearTimers(s)), o)
    case SocketOpened(_) => ArmHeartbeat(s)
    case SocketMessage(socket, data) =>
      if s.fields.socket != Some(socket) then s else HandleMessage(ArmHeartbeat(s), socket, data, o.now)
    case SocketClosed(socket) =>
      if s.fields.socket != Some(socket) then s
      else
        var d := State(s.fields.(socket := None), s.browser.(released := s.browser.released + {socket}), s.scheduled, s.delivered);
        if s.fields.running then ScheduleReconnect(d, o) else d
    case TimerFired(timer) =>
      if timer !in s.browser.timers then s
      else
        var b := s.browser.(timers := s.browser.timers - {timer});
        match s.browser.timers[timer]
        case Retry(_) =>
          var d := State(s.fields.(retryTimer := None), b, s.scheduled, s.delivered);
          if s.fields.running then Connect(d, o) else d
        case Heartbeat =>
          var d := DropSocket(State(s.fields.(heartbeatTimer := None), b, s.scheduled, s.delivered));
          if s.fields.running then ScheduleReconnect(d, o) else d
  }

  /** Events come from sockets that exist, current or long replaced, and from pending timers. */
  predicate Enabled(s: State, a: Action) {
    match a
    case SocketOpened(socket) => socket < s.browser.nextSocket
    case SocketMessage(socket, _) => socket < s.browser.nextSocket
    case SocketClosed(socket) => socket < s.browser.nextSocket
    case TimerFired(timer) => timer in s.browser.timers
    case _ => true
  }

  datatype Event = Event(outside: Outside, action: Action)

  function Run(s: State, es: seq<Event>): State
    decreases |es|
  {
    if es == [] then s else Run(Step(s, es[0].outside, es[0].action), es[1..])
  }

  ghost predicate Legal(s: State, es: seq<Event>)
    decreases |es|
  {
    es != [] ==> Enabled(s, es[0].action) && Legal(Step(s, es[0].outside, es[0].action), es[1..])
  }

  // ---- Invariant -------------------------------------------------------------------------------

  /** Exactly one of a socket and a retry timer while running, neither otherwise; the published state
      agrees with the private fields. */
  ghost predicate ConnectionInv(f: Fields) {
    && (f.running ==> (f.socket.Some? <==> f.retryTimer.None?))
    && (!f.running ==> f.socket.None? && f.retryTimer.None?)
    && (f.nextRetryAt.Some? <==> f.retryTimer.Some?)
    && (f.status.Open? ==> f.socket.Some? && f.heartbeatTimer.Some?)
    && (f.running ==> !f.status.Stopped? && !f.status.NeverStarted?)
  }

  /** The pending timers are exactly the ones the client remembers. */
  ghost predicate TimerInv(s: State) {
    var f, b := s.fields, s.browser;
    && (f.retryTimer.Some? ==> f.retryTimer.value in b.timers && b.timers[f.retryTimer.value].Retry?)
    && (f.heartbeatTimer.Some? ==> f.heartbeatTimer.value in b.timers && b.timers[f.heartbeatTimer.value] == Heartbeat)
    && (forall t :: t in b.timers ==> t < b.nextTimer && (f.retryTimer == Some(t) || f.heartbeatTimer == Some(t)))
  }

  /** Every socket but the current one was closed, and the current one is the newest. */
  ghost predicate SocketInv(s: State) {
    && (s.fields.socket.Some? ==> s.fields.socket.value + 1 == s.browser.nextSocket)
    && (forall i: nat :: i < s.browser.nextSocket ==> i in s.browser.released || s.fields.socket == Some(i))
    && (s.fields.socket.Some? ==> s.fields.socket.value !in s.browser.released)
    && (forall i :: i in s.browser.released ==> i < s.browser.nextSocket)
  }

  /** Messages reach the application in the order of their sockets: none of a socket once a later one
      has delivered, and the failure counter is the number of reconnects since the last greeting. */
  ghost predicate DeliveryInv(s: State) {
    && s.fields.attempt == s.scheduled
    && (forall i, j :: 0 <= i < j < |s.delivered| ==> s.delivered[i].socket <= s.delivered[j].socket)
    && (forall i :: 0 <= i < |s.delivered| ==> s.delivered[i].socket < s.browser.nextSocket)
  }

  /** The socket has greeted the client. */
  ghost predicate Greeted(s: State, socket: nat) {
    exists i :: 0 <= i < |s.delivered| && s.delivered[i].socket == socket && s.delivered[i].data.HelloData?
  }

  /** The published state is what happened: open exactly while the current socket has greeted, first
      connecting or reconnecting by the failures since, the retry when its timer is due, the last message
      when it was delivered. */
  ghost predicate StatusInv(s: State) {
    var f := s.fields;
    && (f.status.Open? <==> f.socket.Some? && Greeted(s, f.socket.value))
    && (f.running && !f.status.Open? ==> f.status == if f.attempt == 0 then Connecting else Reconnecting)
    && (!f.running ==> f.status.NeverStarted? || f.status.Stopped?)
    && (f.retryTimer.Some? && f.retryTimer.value in s.browser.timers && s.browser.timers[f.retryTimer.value].Retry? ==>
          f.nextRetryAt == Some(s.browser.timers[f.retryTimer.value].due))
    && (f.lastMessageAt == if s.delivered == [] then None else Some(s.delivered[|s.delivered| - 1].at))
    && (forall i :: 0 <= i < |s.delivered| ==> !s.delivered[i].data.Garbage?)
  }

  ghost predicate Inv(s: State) {
    ConnectionInv(s.fields) && TimerInv(s) && SocketInv(s) && DeliveryInv(s) && StatusInv(s)
  }

  lemma StepKeepsConnection(s: State, o: Outside, a: Action)
    requires Inv(s) && Enabled(s, a)
    ensures ConnectionInv(Step(s, o, a).fields)
  {
    hide SocketInv, DeliveryInv, StatusInv;
  }

  lemma ScheduledTimers(s: State, o: Outside)
    requires TimerInv(s)
    ensures TimerInv(ClearTimers(s)) && TimerInv(ScheduleReconnect(s, o))
  {
  }

  lemma ArmedTimers(s: State)
    requires TimerInv(s)
    ensures TimerInv(ArmHeartbeat(s))
  {
  }

  lemma ConnectedTimers(s: State, o: Outside)
    requires TimerInv(s)
    ensures TimerInv(Connect(s, o))
  {
    hide ScheduleReconnect;
    ScheduledTimers(s.(fields := s.fields.(status := if s.fields.attempt == 0 then Connecting else Reconnecting, nextRetryAt := None)), o);
  }

  lemma FiredTimers(s: State, o: Outside, timer: nat)
    requires TimerInv(s) && timer in s.browser.timers
    ensures TimerInv(Step(s, o, TimerFired(timer)))
  {
    var f := if s.browser.timers[timer].Retry? then s.fields.(retryTimer := None) else s.fields.(heartbeatTimer := None);
    var d := State(f, s.browser.(timers := s.browser.timers - {timer}), s.scheduled, s.delivered);
    assert TimerInv(d) && TimerInv(DropSocket(d));
    hide Connect, ScheduleReconnect, TimerInv;
    if s.browser.timers[timer].Retry? {
      ConnectedTimers(d, o);
    } else {
      ScheduledTimers(DropSocket(d), o);
    }
  }

  lemma StepKeepsTimers(s: State, o: Outside, a: Action)
    requires TimerInv(s) && Enabled(s, a)
    ensures TimerInv(Step(s, o, a))
  {
    hide Connect, ScheduleReconnect, ArmHeartbeat, ClearTimers;
    match a {
      case Start => ConnectedTimers(s.(fields := s.fields.(running := true)), o);
      case Stop => ScheduledTimers(s.(fields := s.fields.(running := false)), o);
      case ReconnectNow =>
        ScheduledTimers(s, o);
        ConnectedTimers(DropSocket(ClearTimers(s)), o);
      case SocketOpened(_) => ArmedTimers(s);
      case SocketMessage(_, _) => ArmedTimers(s);
      case SocketClosed(socket) =>
        var d := State(s.fields.(socket := None), s.browser.(released := s.browser.released + {socket}), s.scheduled, s.delivered);
        assert TimerInv(d);
        ScheduledTimers(d, o);
      case TimerFired(timer) => FiredTimers(s, o, timer);
    }
  }

  lemma StepKeepsSockets(s: State, o: Outside, a: Action)
    requires ConnectionInv(s.fields) && TimerInv(s) && SocketInv(s) && Enabled(s, a)
    ensures SocketInv(Step(s, o, a))
  {
    hide Without;
  }

  lemma StepKeepsDelivery(s: State, o: Outside, a: Action)
    requires SocketInv(s) && DeliveryInv(s) && Enabled(s, a)
    ensures DeliveryInv(Step(s, o, a))
  {
    hide Without;
  }

  /** A message of the current socket. */
  lemma MessageKeepsStatus(s: State, o: Outside, socket: nat, data: Data)
    requires Inv(s) && Enabled(s, SocketMessage(socket, data)) && s.fields.socket == Some(socket)
    ensures StatusInv(Step(s, o, SocketMessage(socket, data)))
  {
    var s' := Step(s, o, SocketMessage(socket, data));
    hide TimerInv, SocketInv;
    if !data.Garbage? {
      var d := Delivery(socket, data, o.now);
      assert s'.delivered == s.delivered + [d];
      assert Greeted(s', socket) <==> Greeted(s, socket) || data.HelloData? by {
        if Greeted(s, socket) {
          var i :| 0 <= i < |s.delivered| && s.delivered[i].socket == socket && s.delivered[i].data.HelloData?;
          assert s'.delivered[i] == s.delivered[i];
        }
        assert s'.delivered[|s.delivered|] == d;
      }
    }
    hide Greeted, DeliveryInv;
  }

  /** A socket that has just been created has not delivered anything. */
  lemma NewSocketIsSilent(s: State)
    requires DeliveryInv(s)
    ensures !Greeted(s, s.browser.nextSocket)
  {
  }

  /** Steps that deliver nothing. */
  lemma SilentStep(s: State, o: Outside, a: Action)
    requires DeliveryInv(s) && !a.SocketMessage?
    ensures Step(s, o, a).delivered == s.delivered && !Greeted(s, s.browser.nextSocket)
    ensures forall x: nat :: Greeted(Step(s, o, a), x) <==> Greeted(s, x)
  {
    NewSocketIsSilent(s);
    assert Step(s, o, a).delivered == s.delivered;
    hide Step, DeliveryInv;
  }

  lemma FiredKeepsStatus(s: State, o: Outside, timer: nat)
    requires Inv(s) && Enabled(s, TimerFired(timer))
    ensures StatusInv(Step(s, o, TimerFired(timer)))
  {
    SilentStep(s, o, TimerFired(timer));
    hide Greeted, DeliveryInv, SocketInv;
  }

  lemma StepKeepsStatus(s: State, o: Outside, a: Action)
    requires Inv(s) && Enabled(s, a)
    ensures StatusInv(Step(s, o, a))
  {
    if a.SocketMessage? {
      if s.fields.socket == Some(a.socket) {
        MessageKeepsStatus(s, o, a.socket, a.data);
      }
    } else if a.TimerFired? {
      FiredKeepsStatus(s, o, a.timer);
    } else {
      SilentStep(s, o, a);
      hide Greeted, DeliveryInv, SocketInv;
    }
  }

  lemma {:induction false} RunKeepsInv(s: State, es: seq<Event>)
    requires Inv(s) && Legal(s, es)
    ensures Inv(Run(s, es))
    decreases |es|
  {
    if es != [] {
      var o, a := es[0].outside, es[0].action;
      StepKeepsConnection(s, o, a);
      StepKeepsTimers(s, o, a);
      StepKeepsSockets(s, o, a);
      StepKeepsDelivery(s, o, a);
      StepKeepsStatus(s, o, a);
      hide ConnectionInv, TimerInv, SocketInv, DeliveryInv, StatusInv, Step, Enabled;
      RunKeepsInv(Step(s, o, a), es[1..]);
    }
  }

  /** After every sequence of events: the client neither stalls nor doubles up. */
  lemma NeverStallsNorDoublesUp(es: seq<Event>)
    requires Legal(Initial(), es)
    ensures var s := Run(Initial(), es); var f := s.fields;
            && (f.running ==> (f.socket.Some? != f.retryTimer.Some?))
            && (!f.running ==> f.socket.None? && f.retryTimer.None?)
            && (f.nextRetryAt.Some? <==> f.retryTimer.Some?)
            && (f.retryTimer.Some? ==> f.retryTimer.value in s.browser.timers)
            && (f.status.Open? ==> f.socket.Some? && f.heartbeatTimer.Some? && f.heartbeatTimer.value in s.browser.timers)
            && f.attempt == s.scheduled
            && (forall i: nat :: i < s.browser.nextSocket && f.socket != Some(i) ==> i in s.browser.released)
            && (forall i, j :: 0 <= i < j < |s.delivered| ==> s.delivered[i].socket <= s.delivered[j].socket)
  {
    RunKeepsInv(Initial(), es);
    hide Run, Legal, StatusInv;
  }

  /** What the client shows, after every sequence of events: open exactly while its current socket has
      greeted it; otherwise, while it runs, connecting if no attempt has failed since the last greeting
      and reconnecting if one has; the time of the pending retry; and the time of the last message that
      reached the application, which is never one it does not know. */
  lemma StatusIsTrue(es: seq<Event>)
    requires Legal(Initial(), es)
    ensures var s := Run(Initial(), es); var f := s.fields;
            && (f.status.Open? <==> f.running && f.socket.Some? && Greeted(s, f.socket.value))
            && (f.running && !f.status.Open? ==> f.status == if s.scheduled == 0 then Connecting else Reconnecting)
            && (!f.running ==> f.status.NeverStarted? || f.status.Stopped?)
            && (f.retryTimer.Some? ==>
                  && f.retryTimer.value in s.browser.timers && s.browser.timers[f.retryTimer.value].Retry?
                  && f.nextRetryAt == Some(s.browser.timers[f.retryTimer.value].due))
            && (f.retryTimer.None? ==> f.nextRetryAt.None?)
            && (f.lastMessageAt == if s.delivered == [] then None else Some(s.delivered[|s.delivered| - 1].at))
            && (forall i :: 0 <= i < |s.delivered| ==> !s.delivered[i].data.Garbage?)
  {
    RunKeepsInv(Initial(), es);
    hide Run, Legal, Greeted, SocketInv;
  }

  /** Whether the application wants a connection: it started the client and has not stopped it since. */
  predicate Wanted(es: seq<Event>)
    decreases |es|
  {
    es != [] &&
    var last := es[|es| - 1].action;
    last.Start? || (!last.Stop? && Wanted(es[..|es| - 1]))
  }

  lemma {:induction false} RunMore(s: State, es: seq<Event>, e: Event)
    ensures Run(s, es + [e]) == Step(Run(s, es), e.outside, e.action)
    ensures Legal(s, es + [e]) <==> Legal(s, es) && Enabled(Run(s, es), e.action)
    decreases |es|
  {
    hide Step, Enabled;
    if es == [] {
      assert [e][1..] == [] && ([] + [e])[0] == e;
      assert Run(Step(s, e.outside, e.action), []) == Step(s, e.outside, e.action);
    } else {
      assert (es + [e])[0] == es[0] && (es + [e])[1..] == es[1..] + [e];
      RunMore(Step(s, es[0].outside, es[0].action), es[1..], e);
    }
  }

  lemma {:induction false} RunsAsWanted(es: seq<Event>)
    requires Legal(Initial(), es)
    ensures Run(Initial(), es).fields.running <==> Wanted(es)
    decreases |es|
  {
    if es != [] {
      var before, e := es[..|es| - 1], es[|es| - 1];
      assert es == before + [e];
      RunMore(Initial(), before, e);
      hide Run, Legal;
      RunsAsWanted(before);
    }
  }

  /** The client has a fresh socket, the newest of all, and no retry pending. */
  ghost predicate Fresh(s: State, s': State) {
    && s'.fields.socket == Some(s.browser.nextSocket) && s'.fields.retryTimer.None?
    && (forall i: nat :: i < s.browser.nextSocket ==> i in s'.browser.released)
  }

  /** A retry is due after the delay, the failures are one more, and every socket is closed. */
  ghost predicate Backs(s: State, s': State, o: Outside) {
    && s'.fields.socket.None? && s'.fields.retryTimer.Some? && s'.fields.nextRetryAt == Some(o.now + o.delay)
    && s'.fields.attempt == s.fields.attempt + 1 && s'.fields.status.Reconnecting?
    && (forall i: nat :: i < s.browser.nextSocket ==> i in s'.browser.released)
  }

  /** How the client answers, after every sequence of events: it runs exactly while it is wanted; starting
      it, reconnecting by hand while it is not open, and the retry timer each open a fresh socket if one
      can be created; the closing of its socket, a silent heartbeat interval and a socket that cannot be
      created each schedule a retry; every message restarts the heartbeat interval; stopping it closes
      everything. */
  lemma ClientAnswers(es: seq<Event>, o: Outside, a: Action)
    requires Legal(Initial(), es) && Enabled(Run(Initial(), es), a)
    ensures var s := Run(Initial(), es); var f := s.fields; var s' := Step(s, o, a);
            var connects := (a.Start? && !f.running) || (a.ReconnectNow? && f.running && !f.status.Open?)
                            || (a.TimerFired? && f.retryTimer == Some(a.timer));
            var fails := f.running && ((a.SocketClosed? && f.socket == Some(a.socket))
                                       || (a.TimerFired? && f.heartbeatTimer == Some(a.timer)));
            && (f.running <==> Wanted(es))
            && (connects && o.created ==> Fresh(s, s'))
            && (fails || (connects && !o.created) ==> Backs(s, s', o))
            && (a.Stop? ==> !s'.fields.running && s'.fields.socket.None? && s'.browser.timers == map[]
                            && s'.fields.status.Stopped?)
            && (a.SocketOpened? || (a.SocketMessage? && f.socket == Some(a.socket)) ==>
                  s'.fields.heartbeatTimer == Some(s.browser.nextTimer))
  {
    RunKeepsInv(Initial(), es);
    RunsAsWanted(es);
    hide Run, Legal, Wanted, DeliveryInv, StatusInv;
    Answers(Run(Initial(), es), o, a);
  }

  lemma Answers(s: State, o: Outside, a: Action)
    requires Inv(s) && Enabled(s, a)
    ensures var f := s.fields; var s' := Step(s, o, a);
            var connects := (a.Start? && !f.running) || (a.ReconnectNow? && f.running && !f.status.Open?)
                            || (a.TimerFired? && f.retryTimer == Some(a.timer));
            var fails := f.running && ((a.SocketClosed? && f.socket == Some(a.socket))
                                       || (a.TimerFired? && f.heartbeatTimer == Some(a.timer)));
            && (connects && o.created ==> Fresh(s, s'))
            && (fails || (connects && !o.created) ==> Backs(s, s', o))
            && (a.Stop? ==> !s'.fields.running && s'.fields.socket.None? && s'.browser.timers == map[]
                            && s'.fields.status.Stopped?)
            && (a.SocketOpened? || (a.SocketMessage? && f.socket == Some(a.socket)) ==>
                  s'.fields.heartbeatTimer == Some(s.browser.nextTimer))
  {
    hide DeliveryInv, StatusInv;
    match a {
      case TimerFired(_) =>
      case Stop =>
      case _ => hide TimerInv;
    }
  }

  /** A message or the closing of a socket that the client has already closed. */
  predicate Stale(s: State, a: Action) {
    match a
    case SocketMessage(socket, _) => socket in s.browser.released
    case SocketClosed(socket) => socket in s.browser.released
    case _ => false
  }

  /** A run as it is without its stale events. */
  function WithoutStale(s: State, es: seq<Event>): seq<Event>
    decreases |es|
  {
    if es == [] then []
    else
      var rest := WithoutStale(Step(s, es[0].outside, es[0].action), es[1..]);
      if Stale(s, es[0].action) then rest else [es[0]] + rest
  }

  lemma StaleChangesNothing(s: State, o: Outside, a: Action)
    requires SocketInv(s) && Stale(s, a)
    ensures Step(s, o, a) == s
  {
  }

  lemma {:induction false} StaleEventsLeftOut(s: State, es: seq<Event>)
    requires Inv(s) && Legal(s, es)
    ensures Legal(s, WithoutStale(s, es)) && Run(s, WithoutStale(s, es)) == Run(s, es)
    decreases |es|
  {
    if es != [] {
      var o, a := es[0].outside, es[0].action;
      var next := Step(s, o, a);
      RunKeepsInv(s, [es[0]]);
      assert Run(s, [es[0]]) == Run(next, []) == next;
      hide Inv, Step, Enabled;
      StaleEventsLeftOut(next, es[1..]);
      if Stale(s, a) {
        assert SocketInv(s) by {
          SocketsOf(s);
        }
        StaleChangesNothing(s, o, a);
      } else {
        assert WithoutStale(s, es)[1..] == WithoutStale(next, es[1..]);
      }
    }
  }

  lemma SocketsOf(s: State)
    requires Inv(s)
    ensures SocketInv(s)
  {
  }

  /** What a closed socket still delivers leaves no trace: every run ends in the same state, with the
      same messages delivered, as the run without it. */
  lemma StaleEventsAreNoise(es: seq<Event>)
    requires Legal(Initial(), es)
    ensures Legal(Initial(), WithoutStale(Initial(), es))
    ensures Run(Initial(), WithoutStale(Initial(), es)) == Run(Initial(), es)
  {
    StaleEventsLeftOut(Initial(), es);
  }

  /** Opening is not guarded: a replaced socket that opens late arms the heartbeat of its successor,
      and a client that was stopped is left with a pending timer. When it fires nothing else happens. */
  lemma StoppedStep(s: State, o: Outside, a: Action)
    requires Inv(s) && Enabled(s, a) && !a.Start? && !s.fields.running && s.fields.status.Stopped?
    ensures var s' := Step(s, o, a);
            && s'.fields == s.fields.(heartbeatTimer := s'.fields.heartbeatTimer)
            && s'.browser.nextSocket == s.browser.nextSocket && s'.browser.released == s.browser.released
            && s'.delivered == s.delivered && s'.scheduled == s.scheduled
            && (a.SocketOpened? ==> s'.fields.heartbeatTimer.Some?)
            && (a.TimerFired? ==> s'.browser.timers == map[])
  {
    hide DeliveryInv;
  }

  /** A stopped client stays stopped until it is started again, whatever its old sockets and timers do
      and however often it is stopped or told to reconnect: it opens no socket, delivers nothing, and
      at most a heartbeat timer comes and goes. */
  lemma {:induction false} StoppedStaysStopped(s: State, es: seq<Event>)
    requires Inv(s) && !s.fields.running && s.fields.status.Stopped? && Legal(s, es)
    requires forall i :: 0 <= i < |es| ==> !es[i].action.Start?
    ensures var s' := Run(s, es);
            && s'.fields == s.fields.(heartbeatTimer := s'.fields.heartbeatTimer)
            && s'.browser.nextSocket == s.browser.nextSocket && s'.browser.released == s.browser.released
            && s'.delivered == s.delivered && s'.scheduled == s.scheduled
            && (forall t :: t in s'.browser.timers ==> s'.fields.heartbeatTimer == Some(t))
    decreases |es|
  {
    if es == [] {
      hide DeliveryInv, SocketInv;
    } else {
      var o, a := es[0].outside, es[0].action;
      StoppedStep(s, o, a);
      RunKeepsInv(s, [es[0]]);
      var next := Step(s, o, a);
      assert Run(s, [es[0]]) == Run(next, []) == next;
      hide Inv, Step, Enabled;
      StoppedStaysStopped(next, es[1..]);
    }
  }

  // ---- The client as an object ---------------------------------------------------------------------

  class Page {
    var timers: map<nat, TimerKind>
    var nextTimer: nat
    var nextSocket: nat
    var released: set<nat>

    ghost function View(): Browser
      reads this
    {
      Browser(timers, nextTimer, nextSocket, released)
    }

    constructor ()
      ensures View() == Browser(map[], 0, 0, {})
    {
      timers, nextTimer, nextSocket, released := map[], 0, 0, {};
    }

    method SetTimeout(kind: TimerKind) returns (id: nat)
      modifies this`timers, this`nextTimer
      ensures id == old(nextTimer) && timers == old(timers)[id := kind] && nextTimer == id + 1
    {
      id := nextTimer;
      timers, nextTimer := timers[id := kind], id + 1;
    }

    method ClearTimeout(id: nat)
      modifies this`timers
      ensures timers == old(timers) - {id}
    {
      timers := timers - {id};
    }
  }

  class LiveClient {
    const page: Page
    var socket: Option<nat>
    var retryTimer: Option<nat>
    var heartbeatTimer: Option<nat>
    var running: bool
    var status: Status
    var attempt: nat
    var nextRetryAt: Option<int>
    var lastMessageAt: Option<int>
    ghost var scheduled: nat
    ghost var delivered: seq<Delivery>

    ghost function View(): State
      reads this, page
    {
      State(Fields(socket, retryTimer, heartbeatTimer, running, status, attempt, nextRetryAt, lastMessageAt),
            page.View(), scheduled, delivered)
    }

    constructor (page: Page)
      requires page.View() == Browser(map[], 0, 0, {})
      ensures this.page == page && View() == Initial()
    {
      this.page := page;
      socket, retryTimer, heartbeatTimer, running, status := None, None, None, false, NeverStarted;
      attempt, nextRetryAt, lastMessageAt, scheduled, delivered := 0, None, None, 0, [];
    }

    method Begin(o: Outside)
      modifies this, page
      ensures View() == Step(old(View()), o, Start)
    {
      if running { return; }
      running := true;
      OpenSocket(o);
    }

    method End(o: Outside)
      modifies this, page
      ensures View() == Step(old(View()), o, Stop)
    {
      running := false;
      ClearBoth();
      Detach();
      status, nextRetryAt := Stopped, None;
    }

    /** Reconnects at once instead of waiting for the retry timer, unless the connection is open. */
    method Retry(o: Outside)
      modifies this, page
      ensures View() == Step(old(View()), o, ReconnectNow)
    {
      if !running || status.Open? { return; }
      ClearBoth();
      Detach();
      OpenSocket(o);
    }

    method OnOpen(o: Outside, from: nat)
      modifies this, page
      ensures View() == Step(old(View()), o, SocketOpened(from))
    {
      Arm();
    }

    method OnMessage(o: Outside, from: nat, data: Data)
      modifies this, page
      ensures View() == Step(old(View()), o, SocketMessage(from, data))
    {
      if socket != Some(from) { return; }
      Arm();
      if data.Garbage? { return; }
      if data.HelloData? {
        status, attempt, lastMessageAt := Open, 0, Some(o.now);
        scheduled := 0;
      } else {
        lastMessageAt := Some(o.now);
      }
      delivered := delivered + [Delivery(from, data, o.now)];
    }

    method OnClose(o: Outside, from: nat)
      modifies this, page
      ensures View() == Step(old(View()), o, SocketClosed(from))
    {
      if socket != Some(from) { return; }
      socket := None;
      page.released := page.released + {from};
      if running {
        Schedule(o);
      }
    }

    /** A pending timer runs its callback once. */
    method OnTimer(o: Outside, timer: nat)
      requires timer in page.timers
      modifies this, page
      ensures View() == Step(old(View()), o, TimerFired(timer))
    {
      var kind := page.timers[timer];
      page.ClearTimeout(timer);
      if kind.Retry? {
        retryTimer := None;
        if running {
          OpenSocket(o);
        }
      } else {
        heartbeatTimer := None;
        Detach();
        if running {
          Schedule(o);
        }
      }
    }

    method OpenSocket(o: Outside)
      modifies this, page
      ensures View() == Connect(old(View()), o)
    {
      status := if attempt == 0 then Connecting else Reconnecting;
      nextRetryAt := None;
      if !o.created {
        Schedule(o);
        return;
      }
      socket := Some(page.nextSocket);
      page.nextSocket := page.nextSocket + 1;
    }

    method Schedule(o: Outside)
      modifies this, page
      ensures View() == ScheduleReconnect(old(View()), o)
    {
      ClearBoth();
      status, attempt, nextRetryAt := Reconnecting, attempt + 1, Some(o.now + o.delay);
      scheduled := scheduled + 1;
      var id := page.SetTimeout(TimerKind.Retry(o.now + o.delay));
      retryTimer := Some(id);
    }

    method Arm()
      modifies this, page
      ensures View() == ArmHeartbeat(old(View()))
    {
      if heartbeatTimer.Some? {
        page.ClearTimeout(heartbeatTimer.value);
      }
      var id := page.SetTimeout(Heartbeat);
      heartbeatTimer := Some(id);
    }

    /** The socket is forgotten before it is closed, so that its closing starts no retry. */
    method Detach()
      modifies this, page
      ensures View() == DropSocket(old(View()))
    {
      var dropped := socket;
      socket := None;
      if dropped.Some? {
        page.released := page.released + {dropped.value};
      }
    }

    method ClearBoth()
      modifies this, page
      ensures View() == ClearTimers(old(View()))
    {
      if retryTimer.Some? {
        page.ClearTimeout(retryTimer.value);
      }
      if heartbeatTimer.Some? {
        page.ClearTimeout(heartbeatTimer.value);
      }
      retryTimer, heartbeatTimer := None, None;
    }
  }
}
