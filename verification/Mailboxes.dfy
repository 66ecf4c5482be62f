/** One WebSocket client's mailbox: a bounded reliable queue, one slot per conflated kind, and the
    sender task that drains them. Steps are the pieces of code between two `await`s. */
module Mailboxes {
  import opened Protocol

  /** A kind of conflated message; its name plays no role. */
  type Kind = nat

  datatype Slot = Slot(kind: Kind, message: Message)

  datatype Packet = Reliable(message: Message) | Latest(slot: Slot)

  datatype Reason = Overflow | Failure

  datatype Phase = Waiting | Sending(packet: Packet) | Closed(reason: Reason)

  /** `latest` is a dictionary in insertion order. */
  datatype Mailbox = Mailbox(
    queue: seq<Message>,
    latest: seq<Slot>,
    wake: bool,
    overflowed: bool,
    sent: nat,
    superseded: nat,
    phase: Phase)

  /** What was offered so far, and what the sender took, whether or not its send succeeded. */
  datatype Trace = Trace(offered: seq<Message>, conflated: seq<Slot>, taken: seq<Packet>, refused: nat, failed: nat)

  datatype Connection = Connection(box: Mailbox, trace: Trace)

  datatype Action =
    | DoOffer(message: Message)
    | DoOfferLatest(slot: Slot)
    | DoWake
    | DoSent
    | DoFail

  // ---- The dictionary of slots ---------------------------------------------------------------

  predicate HasKind(latest: seq<Slot>, kind: Kind) {
    exists i :: 0 <= i < |latest| && latest[i].kind == kind
  }

  /** Assignment to a dictionary: a known kind keeps its place. */
  function Assign(latest: seq<Slot>, slot: Slot): seq<Slot> {
    if latest == [] then [slot]
    else if latest[0].kind == slot.kind then [slot] + latest[1..]
    else [latest[0]] + Assign(latest[1..], slot)
  }

  ghost predicate DistinctKinds(latest: seq<Slot>) {
    forall i, j :: 0 <= i < j < |latest| ==> latest[i].kind != latest[j].kind
  }

  // ---- Steps ---------------------------------------------------------------------------------

  function Empty(): Mailbox {
    Mailbox([], [], false, false, 0, 0, Waiting)
  }

  function Opened(): Connection {
    Connection(Empty(), Trace([], [], [], 0, 0))
  }

  function Offer(m: Mailbox, maxPending: nat, message: Message): Mailbox {
    if |m.queue| >= maxPending then m.(overflowed := true, wake := true)
    else m.(queue := m.queue + [message], wake := true)
  }

  function OfferLatest(m: Mailbox, slot: Slot): Mailbox {
    m.(superseded := if HasKind(m.latest, slot.kind) then m.superseded + 1 else m.superseded,
       latest := Assign(m.latest, slot),
       wake := true)
  }

  /** The inner loop of the sender up to its next `await`. */
  function Take(m: Mailbox): Mailbox {
    if m.overflowed then m.(phase := Closed(Overflow))
    else if m.queue != [] then m.(queue := m.queue[1..], phase := Sending(Reliable(m.queue[0])))
    else if m.latest != [] then m.(latest := m.latest[1..], phase := Sending(Latest(m.latest[0])))
    else m.(phase := Waiting)
  }

  function Next(m: Mailbox, maxPending: nat, a: Action): Mailbox {
    match a
    case DoOffer(message) => Offer(m, maxPending, message)
    case DoOfferLatest(slot) => OfferLatest(m, slot)
    case DoWake => Take(m.(wake := false))
    case DoSent => Take(m.(sent := m.sent + 1))
    case DoFail => m.(phase := Closed(Failure))
  }

  predicate Enabled(m: Mailbox, a: Action) {
    match a
    case DoOffer(_) => true
    case DoOfferLatest(_) => true
    case DoWake => m.phase.Waiting? && m.wake
    case DoSent => m.phase.Sending?
    case DoFail => m.phase.Sending?
  }

  /** What the step adds to the trace; a packet counts as taken when its send starts. */
  function Recorded(c: Connection, maxPending: nat, a: Action): Trace {
    var after := Next(c.box, maxPending, a);
    match a
    case DoOffer(message) =>
      c.trace.(offered := c.trace.offered + [message],
               refused := if |c.box.queue| >= maxPending then c.trace.refused + 1 else c.trace.refused)
    case DoOfferLatest(slot) => c.trace.(conflated := c.trace.conflated + [slot])
    case DoFail => c.trace.(failed := c.trace.failed + 1)
    case _ => if after.phase.Sending? then c.trace.(taken := c.trace.taken + [after.phase.packet]) else c.trace
  }

  function Step(c: Connection, maxPending: nat, a: Action): Connection {
    Connection(Next(c.box, maxPending, a), Recorded(c, maxPending, a))
  }

  function Run(c: Connection, maxPending: nat, actions: seq<Action>): Connection
    decreases |actions|
  {
    if actions == [] then c else Run(Step(c, maxPending, actions[0]), maxPending, actions[1..])
  }

  ghost predicate Legal(c: Connection, maxPending: nat, actions: seq<Action>)
    decreases |actions|
  {
    actions != [] ==>
      Enabled(c.box, actions[0]) && Legal(Step(c, maxPending, actions[0]), maxPending, actions[1..])
  }

  // ---- What was sent, by channel -------------------------------------------------------------

  function ReliableOf(packets: seq<Packet>): seq<Message>
    decreases |packets|
  {
    if packets == [] then []
    else
      var last := packets[|packets| - 1];
      var before := ReliableOf(packets[..|packets| - 1]);
      if last.Reliable? then before + [last.message] else before
  }

  function KindOf(kind: Kind, slots: seq<Slot>): seq<Message>
    decreases |slots|
  {
    if slots == [] then []
    else
      var last := slots[|slots| - 1];
      var before := KindOf(kind, slots[..|slots| - 1]);
      if last.kind == kind then before + [last.message] else before
  }

  function SlotsOf(packets: seq<Packet>): seq<Slot>
    decreases |packets|
  {
    if packets == [] then []
    else
      var last := packets[|packets| - 1];
      var before := SlotsOf(packets[..|packets| - 1]);
      if last.Latest? then before + [last.slot] else before
  }

  /** `a` can be obtained from `b` by leaving elements out. */
  ghost predicate Subsequence(a: seq<Message>, b: seq<Message>)
    decreases |b|
  {
    a == [] ||
    (b != [] &&
     (|| Subsequence(a, b[..|b| - 1])
      || (a[|a| - 1] == b[|b| - 1] && Subsequence(a[..|a| - 1], b[..|b| - 1]))))
  }

  /** ... leaving out anything but the newest element. */
  ghost predicate EndsNewest(a: seq<Message>, b: seq<Message>) {
    && Subsequence(a, b)
    && (b != [] ==> a != [] && a[|a| - 1] == b[|b| - 1])
  }

  lemma {:induction false} SubsequencePrefix(a: seq<Message>, x: seq<Message>, b: seq<Message>)
    requires Subsequence(a + x, b) && |x| <= 1
    ensures Subsequence(a, b)
    decreases |b|
  {
    if x == [] {
      assert a + x == a;
    } else if a != [] {
      var c := b[..|b| - 1];
      if Subsequence(a + x, c) {
        SubsequencePrefix(a, x, c);
      } else {
        assert (a + x)[..|a + x| - 1] == a;
      }
    }
  }

  lemma SubsequenceGrows(a: seq<Message>, b: seq<Message>, m: Message)
    requires Subsequence(a, b)
    ensures Subsequence(a, b + [m]) && EndsNewest(a + [m], b + [m])
  {
    assert (b + [m])[..|b|] == b;
    assert (a + [m])[..|a|] == a;
  }

  // ---- Invariant -----------------------------------------------------------------------------

  /** The reliable channel: taken, then queued, is a gap-free prefix of the offers; an offer is
      refused only once the queue has overflowed, and then for good. */
  ghost predicate ReliableInv(c: Connection, maxPending: nat) {
    && ReliableOf(c.trace.taken) + c.box.queue <= c.trace.offered
    && |c.box.queue| <= maxPending
    && |c.trace.offered| == |ReliableOf(c.trace.taken)| + |c.box.queue| + c.trace.refused
    && (c.box.overflowed <==> c.trace.refused > 0)
    && (c.box.overflowed ==> |c.box.queue| == maxPending)
  }

  /** The pending message of a kind, if any. */
  function PendingOf(kind: Kind, latest: seq<Slot>): seq<Message> {
    KindOf(kind, latest)
  }

  ghost predicate ConflatedInv(c: Connection) {
    && DistinctKinds(c.box.latest)
    && forall k: Kind ::
         EndsNewest(KindOf(k, SlotsOf(c.trace.taken)) + PendingOf(k, c.box.latest), KindOf(k, c.trace.conflated))
  }

  /** No offer is lost from the books. */
  ghost predicate CountInv(c: Connection) {
    && |c.trace.taken| == c.box.sent + c.trace.failed + (if c.box.phase.Sending? then 1 else 0)
    && |c.trace.conflated| == |SlotsOf(c.trace.taken)| + |c.box.latest| + c.box.superseded
    && |c.trace.taken| == |ReliableOf(c.trace.taken)| + |SlotsOf(c.trace.taken)|
  }

  /** No lost wake-up: the sender sleeps on a cleared flag only when there is nothing to do. */
  ghost predicate AwakeInv(m: Mailbox) {
    m.phase.Waiting? && !m.wake ==> m.queue == [] && m.latest == [] && !m.overflowed
  }

  ghost predicate Inv(c: Connection, maxPending: nat) {
    ReliableInv(c, maxPending) && ConflatedInv(c) && CountInv(c) && AwakeInv(c.box)
  }

  // ---- Filters and appending -----------------------------------------------------------------

  lemma TakenGrows(packets: seq<Packet>, p: Packet)
    ensures ReliableOf(packets + [p]) == ReliableOf(packets) + (if p.Reliable? then [p.message] else [])
    ensures SlotsOf(packets + [p]) == SlotsOf(packets) + (if p.Latest? then [p.slot] else [])
  {
    assert (packets + [p])[..|packets|] == packets;
  }

  lemma KindGrows(kind: Kind, slots: seq<Slot>, s: Slot)
    ensures KindOf(kind, slots + [s]) == KindOf(kind, slots) + (if s.kind == kind then [s.message] else [])
  {
    assert (slots + [s])[..|slots|] == slots;
  }

  lemma {:induction false} KindConcat(kind: Kind, a: seq<Slot>, b: seq<Slot>)
    ensures KindOf(kind, a + b) == KindOf(kind, a) + KindOf(kind, b)
    decreases |b|
  {
    if b == [] {
      assert a + b == a;
    } else {
      var c := b[..|b| - 1];
      assert (a + b)[..|a + b| - 1] == a + c;
      KindConcat(kind, a, c);
    }
  }

  lemma {:induction false} AbsentKind(kind: Kind, slots: seq<Slot>)
    requires !HasKind(slots, kind)
    ensures KindOf(kind, slots) == []
    decreases |slots|
  {
    if slots != [] {
      AbsentKind(kind, slots[..|slots| - 1]);
    }
  }

  lemma KindHead(kind: Kind, latest: seq<Slot>)
    requires latest != []
    ensures KindOf(kind, latest) == (if latest[0].kind == kind then [latest[0].message] else []) + KindOf(kind, latest[1..])
  {
    assert latest == [latest[0]] + latest[1..];
    KindConcat(kind, [latest[0]], latest[1..]);
    assert [latest[0]] == [] + [latest[0]];
    KindGrows(kind, [], latest[0]);
  }

  lemma {:induction false} AtMostOnePending(kind: Kind, latest: seq<Slot>)
    requires DistinctKinds(latest)
    ensures |KindOf(kind, latest)| <= 1
    decreases |latest|
  {
    if latest != [] {
      KindHead(kind, latest);
      if latest[0].kind == kind {
        AbsentKind(kind, latest[1..]);
      } else {
        AtMostOnePending(kind, latest[1..]);
      }
    }
  }

  /** Assigning replaces the pending message of that kind and leaves the other kinds alone. */
  lemma {:induction false} AssignKind(kind: Kind, latest: seq<Slot>, slot: Slot)
    requires DistinctKinds(latest)
    ensures KindOf(kind, Assign(latest, slot)) == if kind == slot.kind then [slot.message] else KindOf(kind, latest)
    decreases |latest|
  {
    var after := Assign(latest, slot);
    KindHead(kind, after);
    if latest == [] {
      assert after[1..] == [];
    } else {
      KindHead(kind, latest);
      if latest[0].kind == slot.kind {
        assert after[1..] == latest[1..];
        AbsentKind(slot.kind, latest[1..]);
      } else {
        assert after[1..] == Assign(latest[1..], slot);
        AssignKind(kind, latest[1..], slot);
      }
    }
  }

  lemma {:induction false} AssignShape(latest: seq<Slot>, slot: Slot)
    requires DistinctKinds(latest)
    ensures DistinctKinds(Assign(latest, slot))
    ensures |Assign(latest, slot)| == |latest| + (if HasKind(latest, slot.kind) then 0 else 1)
    ensures forall s :: s in Assign(latest, slot) ==> s == slot || s in latest
    decreases |latest|
  {
    if latest != [] && latest[0].kind != slot.kind {
      AssignShape(latest[1..], slot);
      assert HasKind(latest, slot.kind) <==> HasKind(latest[1..], slot.kind);
      var after := Assign(latest[1..], slot);
      assert forall i :: 0 <= i < |after| ==> after[i] in after;
    } else if latest != [] {
      assert HasKind(latest, slot.kind);
    }
  }

  // ---- Every step keeps the invariant --------------------------------------------------------

  lemma OfferKeeps(c: Connection, maxPending: nat, message: Message)
    requires Inv(c, maxPending)
    ensures Inv(Step(c, maxPending, DoOffer(message)), maxPending)
  {
    var c' := Step(c, maxPending, DoOffer(message));
    var taken := ReliableOf(c.trace.taken);
    assert taken + (c.box.queue + [message]) == (taken + c.box.queue) + [message];
    hide ReliableOf, SlotsOf, KindOf, EndsNewest, DistinctKinds;
  }

  lemma OfferLatestKeeps(c: Connection, maxPending: nat, slot: Slot)
    requires Inv(c, maxPending)
    ensures Inv(Step(c, maxPending, DoOfferLatest(slot)), maxPending)
  {
    hide ReliableOf, SlotsOf, KindOf, EndsNewest, Assign, HasKind, Subsequence;
    AssignShape(c.box.latest, slot);
    forall k: Kind
      ensures EndsNewest(KindOf(k, SlotsOf(c.trace.taken)) + KindOf(k, Assign(c.box.latest, slot)),
                         KindOf(k, c.trace.conflated + [slot]))
    {
      PendingReplaced(k, SlotsOf(c.trace.taken), c.box.latest, c.trace.conflated, slot);
    }
  }

  lemma PendingReplaced(kind: Kind, taken: seq<Slot>, latest: seq<Slot>, conflated: seq<Slot>, slot: Slot)
    requires DistinctKinds(latest)
    requires EndsNewest(KindOf(kind, taken) + KindOf(kind, latest), KindOf(kind, conflated))
    ensures EndsNewest(KindOf(kind, taken) + KindOf(kind, Assign(latest, slot)), KindOf(kind, conflated + [slot]))
  {
    hide KindOf, Assign;
    AssignKind(kind, latest, slot);
    KindGrows(kind, conflated, slot);
    if kind == slot.kind {
      AtMostOnePending(kind, latest);
      SubsequencePrefix(KindOf(kind, taken), KindOf(kind, latest), KindOf(kind, conflated));
      SubsequenceGrows(KindOf(kind, taken), KindOf(kind, conflated), slot.message);
    } else {
      assert KindOf(kind, conflated) + [] == KindOf(kind, conflated);
    }
  }

  /** The step that begins with `Take`, from a mailbox that differs from `c.box` in `wake` or `sent`. */
  lemma TakeKeepsReliable(c: Connection, maxPending: nat, c': Connection, m: Mailbox)
    requires ReliableInv(c, maxPending)
    requires m == c.box.(wake := m.wake, sent := m.sent) && c'.box == Take(m)
    requires c'.trace == if c'.box.phase.Sending? then c.trace.(taken := c.trace.taken + [c'.box.phase.packet]) else c.trace
    ensures ReliableInv(c', maxPending)
  {
    hide ReliableOf;
    if c'.box.phase.Sending? {
      TakenGrows(c.trace.taken, c'.box.phase.packet);
      var taken := ReliableOf(c.trace.taken);
      if m.queue != [] {
        assert taken + m.queue == (taken + [m.queue[0]]) + m.queue[1..];
      } else {
        assert taken + [] == taken;
      }
    }
  }

  lemma TakeKeepsConflated(c: Connection, c': Connection, m: Mailbox)
    requires ConflatedInv(c)
    requires m == c.box.(wake := m.wake, sent := m.sent) && c'.box == Take(m)
    requires c'.trace == if c'.box.phase.Sending? then c.trace.(taken := c.trace.taken + [c'.box.phase.packet]) else c.trace
    ensures ConflatedInv(c')
  {
    hide SlotsOf, KindOf, EndsNewest;
    if c'.box.phase.Sending? {
      TakenGrows(c.trace.taken, c'.box.phase.packet);
      var slots := SlotsOf(c.trace.taken);
      if m.queue != [] {
        assert slots + [] == slots;
      } else {
        forall k: Kind ensures KindOf(k, slots + [m.latest[0]]) + KindOf(k, m.latest[1..]) == KindOf(k, slots) + KindOf(k, m.latest) {
          KindGrows(k, slots, m.latest[0]);
          KindHead(k, m.latest);
        }
      }
    }
  }

  lemma TakeKeepsCounts(c: Connection, maxPending: nat, a: Action)
    requires CountInv(c) && Enabled(c.box, a) && (a.DoWake? || a.DoSent?)
    ensures CountInv(Step(c, maxPending, a))
  {
    hide ReliableOf, SlotsOf;
    var c' := Step(c, maxPending, a);
    if c'.box.phase.Sending? {
      TakenGrows(c.trace.taken, c'.box.phase.packet);
    }
  }

  lemma TakeKeeps(c: Connection, maxPending: nat, a: Action, m: Mailbox)
    requires Inv(c, maxPending) && Enabled(c.box, a) && (a.DoWake? || a.DoSent?)
    requires m == c.box.(wake := m.wake, sent := m.sent) && Step(c, maxPending, a).box == Take(m)
    ensures Inv(Step(c, maxPending, a), maxPending)
  {
    var c' := Step(c, maxPending, a);
    TakeKeepsReliable(c, maxPending, c', m);
    TakeKeepsConflated(c, c', m);
    TakeKeepsCounts(c, maxPending, a);
    assert AwakeInv(c'.box);
    hide ReliableInv, ConflatedInv, CountInv, AwakeInv;
  }

  lemma StepKeepsInv(c: Connection, maxPending: nat, a: Action)
    requires Inv(c, maxPending) && Enabled(c.box, a)
    ensures Inv(Step(c, maxPending, a), maxPending)
  {
    match a {
      case DoOffer(message) => OfferKeeps(c, maxPending, message);
      case DoOfferLatest(slot) => OfferLatestKeeps(c, maxPending, slot);
      case DoFail =>
        hide ReliableOf, SlotsOf, KindOf, EndsNewest, DistinctKinds;
      case DoWake => TakeKeeps(c, maxPending, a, c.box.(wake := false));
      case DoSent => TakeKeeps(c, maxPending, a, c.box.(sent := c.box.sent + 1));
    }
  }

  /** Every state a connection can reach, whatever the interleaving of offers, sends and failures. */
  lemma {:induction false} RunKeepsInv(c: Connection, maxPending: nat, actions: seq<Action>)
    requires Inv(c, maxPending) && Legal(c, maxPending, actions)
    ensures Inv(Run(c, maxPending, actions), maxPending)
    decreases |actions|
  {
    if actions != [] {
      hide Inv, Step, Enabled;
      StepKeepsInv(c, maxPending, actions[0]);
      RunKeepsInv(Step(c, maxPending, actions[0]), maxPending, actions[1..]);
    }
  }

  lemma OpenedIsInv(maxPending: nat)
    ensures Inv(Opened(), maxPending)
  {
  }

  /** For every interleaving: the reliable messages taken are a prefix of those offered; each kind's
      taken messages are an in-order subsequence of those offered; the books balance; memory is
      bounded. */
  lemma MailboxRefinement(maxPending: nat, actions: seq<Action>, kind: Kind)
    requires Legal(Opened(), maxPending, actions)
    ensures var c := Run(Opened(), maxPending, actions); var m := c.box;
            && ReliableOf(c.trace.taken) <= c.trace.offered
            && (!m.overflowed ==> ReliableOf(c.trace.taken) + m.queue == c.trace.offered)
            && Subsequence(KindOf(kind, SlotsOf(c.trace.taken)), KindOf(kind, c.trace.conflated))
            && m.sent + c.trace.failed + (if m.phase.Sending? then 1 else 0)
               + |m.queue| + |m.latest| + m.superseded + c.trace.refused == |c.trace.offered| + |c.trace.conflated|
            && |m.queue| <= maxPending && DistinctKinds(m.latest)
  {
    OpenedIsInv(maxPending);
    RunKeepsInv(Opened(), maxPending, actions);
    var c := Run(Opened(), maxPending, actions);
    hide Run, Legal, ReliableOf, SlotsOf, KindOf, Subsequence, Opened;
    AtMostOnePending(kind, c.box.latest);
    SubsequencePrefix(KindOf(kind, SlotsOf(c.trace.taken)), KindOf(kind, c.box.latest), KindOf(kind, c.trace.conflated));
    var taken := ReliableOf(c.trace.taken);
    assert taken <= taken + c.box.queue;
  }

  // ---- Left alone, the sender delivers everything ----------------------------------------------

  function Quiesced(c: Connection, maxPending: nat): Connection
    decreases |c.box.queue| + |c.box.latest| + (if c.box.phase.Sending? then 1 else 0), c.box.wake
  {
    if Enabled(c.box, DoWake) then Quiesced(Step(c, maxPending, DoWake), maxPending)
    else if Enabled(c.box, DoSent) then Quiesced(Step(c, maxPending, DoSent), maxPending)
    else c
  }

  function AllReliable(queue: seq<Message>): seq<Packet>
  {
    if queue == [] then [] else [Reliable(queue[0])] + AllReliable(queue[1..])
  }

  function AllLatest(latest: seq<Slot>): seq<Packet>
  {
    if latest == [] then [] else [Latest(latest[0])] + AllLatest(latest[1..])
  }

  /** With no further offers and no failed send, a sender that has not overflowed takes the rest of
      the reliable queue in order, then one message of every pending kind, oldest kind first, and
      then sleeps with nothing pending. */
  lemma {:induction false} SenderDrains(c: Connection, maxPending: nat)
    requires Inv(c, maxPending) && !c.box.overflowed && !c.box.phase.Closed?
    ensures var d := Quiesced(c, maxPending);
            && d.trace.taken == c.trace.taken + AllReliable(c.box.queue) + AllLatest(c.box.latest)
            && d.box.queue == [] && d.box.latest == [] && d.box.phase.Waiting? && Inv(d, maxPending)
            && d.box.sent == |d.trace.taken| - d.trace.failed
            && d.trace.offered == c.trace.offered && d.trace.conflated == c.trace.conflated
    decreases |c.box.queue| + |c.box.latest| + (if c.box.phase.Sending? then 1 else 0), c.box.wake
  {
    if Enabled(c.box, DoWake) {
      StepKeepsInv(c, maxPending, DoWake);
      DrainStep(c, maxPending, DoWake);
      SenderDrains(Step(c, maxPending, DoWake), maxPending);
    } else if Enabled(c.box, DoSent) {
      StepKeepsInv(c, maxPending, DoSent);
      DrainStep(c, maxPending, DoSent);
      SenderDrains(Step(c, maxPending, DoSent), maxPending);
    } else {
      assert c.trace.taken + [] + [] == c.trace.taken;
    }
  }

  lemma DrainStep(c: Connection, maxPending: nat, a: Action)
    requires Enabled(c.box, a) && (a.DoWake? || a.DoSent?) && !c.box.overflowed
    ensures var d := Step(c, maxPending, a);
            && d.trace.taken + AllReliable(d.box.queue) + AllLatest(d.box.latest)
               == c.trace.taken + AllReliable(c.box.queue) + AllLatest(c.box.latest)
            && !d.box.overflowed && !d.box.phase.Closed?
            && d.trace.offered == c.trace.offered && d.trace.conflated == c.trace.conflated && d.trace.failed == c.trace.failed
  {
    var d := Step(c, maxPending, a);
    if c.box.queue != [] {
      assert c.trace.taken + ([Reliable(c.box.queue[0])] + AllReliable(c.box.queue[1..]))
          == c.trace.taken + [Reliable(c.box.queue[0])] + AllReliable(c.box.queue[1..]);
    } else if c.box.latest != [] {
      assert c.trace.taken + [] + ([Latest(c.box.latest[0])] + AllLatest(c.box.latest[1..]))
          == c.trace.taken + [Latest(c.box.latest[0])] + [] + AllLatest(c.box.latest[1..]);
    }
  }

  /** So an idle connection has received every reliable message, and the newest of every kind. */
  lemma IdleHasEverything(c: Connection, maxPending: nat, kind: Kind)
    requires Inv(c, maxPending) && c.box.phase.Waiting? && !c.box.wake
    ensures ReliableOf(c.trace.taken) == c.trace.offered
    ensures EndsNewest(KindOf(kind, SlotsOf(c.trace.taken)), KindOf(kind, c.trace.conflated))
  {
    var taken := KindOf(kind, SlotsOf(c.trace.taken));
    assert KindOf(kind, c.box.latest) == [];
    assert taken + [] == taken;
    assert ReliableOf(c.trace.taken) + [] == ReliableOf(c.trace.taken);
    hide ReliableOf, KindOf, SlotsOf, EndsNewest;
  }

  // ---- The connection and the hub as objects -----------------------------------------------

  class ClientConnection {
    const maxPending: nat
    var queue: seq<Message>
    var latest: seq<Slot>
    var wake: bool
    var overflowed: bool
    var sent: nat
    var superseded: nat
    var phase: Phase

    ghost function Box(): Mailbox
      reads this
    {
      Mailbox(queue, latest, wake, overflowed, sent, superseded, phase)
    }

    constructor (maxPending: nat)
      ensures Box() == Empty() && this.maxPending == maxPending
    {
      this.maxPending := maxPending;
      queue, latest, wake, overflowed := [], [], false, false;
      sent, superseded, phase := 0, 0, Waiting;
    }

    /** A full queue is not extended; the client is marked as beyond help instead. */
    method Offer(message: Message)
      modifies this
      ensures Box() == Next(old(Box()), maxPending, DoOffer(message))
    {
      if |queue| >= maxPending {
        overflowed := true;
      } else {
        queue := queue + [message];
      }
      wake := true;
    }

    /** The slot of the kind keeps its place and gets the new content. */
    method OfferLatest(kind: Kind, message: Message)
      modifies this
      ensures Box() == Next(old(Box()), maxPending, DoOfferLatest(Slot(kind, message)))
    {
      var i := 0;
      while i < |latest| && latest[i].kind != kind
        invariant 0 <= i <= |latest|
        invariant forall j :: 0 <= j < i ==> latest[j].kind != kind
      {
        i := i + 1;
      }
      ReplacedAt(Box(), Slot(kind, message), i);
      hide Assign, HasKind;
      if i < |latest| {
        superseded := superseded + 1;
        latest := latest[i := Slot(kind, message)];
      } else {
        latest := latest + [Slot(kind, message)];
      }
      wake := true;
    }

    /** The sender resumes after its wake-up flag was set. */
    method Resume()
      requires Enabled(Box(), DoWake)
      modifies this
      ensures Box() == Next(old(Box()), maxPending, DoWake)
    {
      wake := false;
      TakeNext();
    }

    /** The sender resumes after `send_text` returned, raised or timed out. */
    method SendFinished(ok: bool)
      requires phase.Sending?
      modifies this
      ensures Box() == Next(old(Box()), maxPending, if ok then DoSent else DoFail)
    {
      if ok {
        sent := sent + 1;
        TakeNext();
      } else {
        phase := Closed(Failure);
      }
    }

    method TakeNext()
      modifies this
      ensures Box() == Take(old(Box()))
    {
      if overflowed {
        phase := Closed(Overflow);
      } else if queue != [] {
        phase := Sending(Reliable(queue[0]));
        queue := queue[1..];
      } else if latest != [] {
        phase := Sending(Latest(latest[0]));
        latest := latest[1..];
      } else {
        phase := Waiting;
      }
    }
  }

  lemma {:induction false} AssignAt(latest: seq<Slot>, slot: Slot, i: nat)
    requires i <= |latest| && (forall j :: 0 <= j < i ==> latest[j].kind != slot.kind)
    requires i < |latest| ==> latest[i].kind == slot.kind
    ensures HasKind(latest, slot.kind) <==> i < |latest|
    ensures Assign(latest, slot) == if i < |latest| then latest[i := slot] else latest + [slot]
    decreases i
  {
    if i > 0 {
      AssignAt(latest[1..], slot, i - 1);
    }
  }

  lemma ReplacedAt(m: Mailbox, slot: Slot, i: nat)
    requires i <= |m.latest| && (forall j :: 0 <= j < i ==> m.latest[j].kind != slot.kind)
    requires i < |m.latest| ==> m.latest[i].kind == slot.kind
    ensures OfferLatest(m, slot)
         == if i < |m.latest| then m.(superseded := m.superseded + 1, latest := m.latest[i := slot], wake := true)
            else m.(latest := m.latest + [slot], wake := true)
  {
    AssignAt(m.latest, slot, i);
    hide HasKind, Assign;
  }

  class Hub {
    const maxClients: nat
    const maxPending: nat
    var clients: set<ClientConnection>
    var totalConnections: nat
    var totalDisconnects: nat

    /** Connections and disconnections account for every registered client, within capacity. */
    ghost predicate Valid()
      reads this, clients
    {
      && |clients| + totalDisconnects == totalConnections
      && |clients| <= maxClients
      && forall c :: c in clients ==> c.maxPending == maxPending
    }

    constructor (maxClients: nat, maxPending: nat)
      ensures Valid() && clients == {}
    {
      this.maxClients, this.maxPending := maxClients, maxPending;
      clients, totalConnections, totalDisconnects := {}, 0, 0;
    }

    method Register() returns (client: ClientConnection?)
      requires Valid()
      modifies this
      ensures Valid()
      ensures client == null <==> |old(clients)| >= maxClients
      ensures client != null ==> fresh(client) && client.Box() == Empty() && clients == old(clients) + {client}
      ensures client == null ==> clients == old(clients)
    {
      client := null;
      if |clients| < maxClients {
        client := new ClientConnection(maxPending);
        clients := clients + {client};
        totalConnections := totalConnections + 1;
      }
    }

    /** Unregistering twice counts one disconnection. */
    method Unregister(client: ClientConnection)
      requires Valid()
      modifies this
      ensures Valid() && clients == old(clients) - {client}
    {
      if client in clients {
        clients := clients - {client};
        totalDisconnects := totalDisconnects + 1;
      }
    }

    /** Every registered client is offered the message, and nothing else changes. */
    method Publish(message: Message)
      modifies clients
      ensures forall c :: c in clients ==> c.Box() == Next(old(c.Box()), c.maxPending, DoOffer(message))
    {
      var todo := clients;
      while todo != {}
        invariant todo <= clients
        invariant forall c :: c in todo ==> c.Box() == old(c.Box())
        invariant forall c :: c in clients - todo ==> c.Box() == Next(old(c.Box()), c.maxPending, DoOffer(message))
        decreases |todo|
      {
        var c :| c in todo;
        c.Offer(message);
        todo := todo - {c};
      }
    }

    method PublishLatest(kind: Kind, message: Message)
      modifies clients
      ensures forall c :: c in clients ==> c.Box() == Next(old(c.Box()), c.maxPending, DoOfferLatest(Slot(kind, message)))
    {
      var todo := clients;
      while todo != {}
        invariant todo <= clients
        invariant forall c :: c in todo ==> c.Box() == old(c.Box())
        invariant forall c :: c in clients - todo ==>
                    c.Box() == Next(old(c.Box()), c.maxPending, DoOfferLatest(Slot(kind, message)))
        decreases |todo|
      {
        var c :| c in todo;
        c.OfferLatest(kind, message);
        todo := todo - {c};
      }
    }
  }
}
