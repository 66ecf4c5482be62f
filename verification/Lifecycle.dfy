/** The order simulator: every order announces itself at once and schedules the rest of its plan on
    a queue ordered by due time. */
module Lifecycle {
  import opened Events

  /** One follow-up of a plan and the range of its delay, in seconds. */
  datatype Stage = Stage(eventType: EventType, low: real, high: real)

  datatype Course = Cancels | CashOnDelivery | Prepaid

  /** What an order does after it was placed. */
  function PlanOf(c: Course): (plan: seq<Stage>)
    ensures plan != [] && forall x :: x in plan ==> 0.0 < x.low <= x.high
  {
    match c
    case Cancels => [Stage(Cancelled, 5.0, 60.0)]
    case CashOnDelivery => [Stage(Shipped, 5.0, 40.0), Stage(Paid, 10.0, 60.0)]
    case Prepaid => [Stage(Paid, 2.0, 20.0), Stage(Shipped, 10.0, 60.0)]
  }

  datatype FollowUp = FollowUp(due: real, tiebreak: nat, eventType: EventType, order: nat, rest: seq<Stage>)

  datatype Emission = Emission(order: nat, eventType: EventType)

  /** The heap as the set it holds: entries differ in `tiebreak`, and a pop takes the least. */
  datatype Simulator = Simulator(heap: set<FollowUp>, counter: nat, skipped: nat)

  /** History: the course of every order, how many follow-ups it emitted, the orders whose first
      follow-up was skipped, and everything emitted. */
  datatype Book = Book(plans: seq<seq<Stage>>, progress: seq<nat>, dropped: set<nat>, log: seq<Emission>)

  datatype State = State(sim: Simulator, book: Book)

  /** The random source: the delay of the entry with a given number, within its range. */
  type Draw = (nat, real, real) -> real

  ghost predicate Fair(draw: Draw) {
    forall i, low, high :: low <= high ==> low <= draw(i, low, high) <= high
  }

  /** `None` when the heap is full. */
  ghost function Scheduled(s: Simulator, maxPending: nat, now: real, order: nat, plan: seq<Stage>, draw: Draw): Option<FollowUp>
    requires plan != [] && Fair(draw) && plan[0].low <= plan[0].high
  {
    if |s.heap| >= maxPending then None
    else Some(FollowUp(now + draw(s.counter, plan[0].low, plan[0].high), s.counter, plan[0].eventType, order, plan[1..]))
  }

  ghost function Schedule(s: Simulator, maxPending: nat, now: real, order: nat, plan: seq<Stage>, draw: Draw): Simulator
    requires plan != [] && Fair(draw) && plan[0].low <= plan[0].high
  {
    var f := Scheduled(s, maxPending, now, order, plan, draw);
    if f.None? then s.(skipped := s.skipped + 1) else s.(heap := s.heap + {f.value}, counter := s.counter + 1)
  }

  ghost function NewOrder(s: State, maxPending: nat, now: real, c: Course, draw: Draw): State
    requires Fair(draw)
  {
    var id := |s.book.plans|;
    var full := |s.sim.heap| >= maxPending;
    State(Schedule(s.sim, maxPending, now, id, PlanOf(c), draw),
          Book(s.book.plans + [PlanOf(c)], s.book.progress + [0],
               if full then s.book.dropped + {id} else s.book.dropped,
               s.book.log + [Emission(id, Placed)]))
  }

  // ---- The least entry -------------------------------------------------------------------------

  predicate Sooner(a: FollowUp, b: FollowUp) {
    a.due < b.due || (a.due == b.due && a.tiebreak < b.tiebreak)
  }

  predicate IsLeast(f: FollowUp, heap: set<FollowUp>) {
    f in heap && forall g :: g in heap ==> g == f || Sooner(f, g)
  }

  ghost predicate DistinctTies(heap: set<FollowUp>) {
    forall f, g :: f in heap && g in heap && f != g ==> f.tiebreak != g.tiebreak
  }

  lemma {:induction false} LeastExists(heap: set<FollowUp>)
    requires heap != {} && DistinctTies(heap)
    ensures exists f :: IsLeast(f, heap)
    decreases |heap|
  {
    var f :| f in heap;
    if heap == {f} {
      assert IsLeast(f, heap);
    } else {
      LeastExists(heap - {f});
      var g :| IsLeast(g, heap - {f});
      assert forall h :: h in heap ==> h == f || h in heap - {f};
      if Sooner(f, g) {
        assert IsLeast(f, heap);
      } else {
        assert IsLeast(g, heap);
      }
    }
  }

  ghost function Least(heap: set<FollowUp>): (f: FollowUp)
    requires heap != {} && DistinctTies(heap)
    ensures f in heap && IsLeast(f, heap)
  {
    LeastExists(heap);
    var f :| IsLeast(f, heap); f
  }

  ghost function Due(heap: set<FollowUp>, now: real): set<FollowUp> {
    set f | f in heap && f.due <= now
  }

  // ---- Popping ---------------------------------------------------------------------------------

  /** Entries the simulator can hold: delays of what is still to come are positive. */
  ghost predicate GoodPlan(plan: seq<Stage>) {
    forall x :: x in plan ==> 0.0 < x.low <= x.high
  }

  ghost predicate GoodSim(s: Simulator) {
    && DistinctTies(s.heap)
    && forall f :: f in s.heap ==> f.tiebreak < s.counter && GoodPlan(f.rest)
  }

  ghost function Pop(s: State, maxPending: nat, now: real, f: FollowUp, draw: Draw): State
    requires GoodSim(s.sim) && f in s.sim.heap && Fair(draw)
  {
    var popped := s.sim.(heap := s.sim.heap - {f});
    State(if f.rest == [] then popped else Schedule(popped, maxPending, now, f.order, f.rest, draw),
          s.book.(progress := if f.order < |s.book.progress| then s.book.progress[f.order := s.book.progress[f.order] + 1] else s.book.progress,
                  log := s.book.log + [Emission(f.order, f.eventType)]))
  }

  lemma ScheduleStaysGood(s: Simulator, maxPending: nat, now: real, order: nat, plan: seq<Stage>, draw: Draw)
    requires GoodSim(s) && Fair(draw) && plan != [] && GoodPlan(plan)
    ensures plan[0].low <= plan[0].high && GoodSim(Schedule(s, maxPending, now, order, plan, draw))
    ensures var g := Scheduled(s, maxPending, now, order, plan, draw);
            g.Some? ==>
              && g.value !in s.heap && g.value.due > now && g.value.order == order
              && g.value.eventType == plan[0].eventType && g.value.rest == plan[1..]
  {
    assert plan[0] in plan;
    assert forall x :: x in plan[1..] ==> x in plan;
  }

  lemma FewerStayGood(s: Simulator, f: FollowUp)
    requires GoodSim(s)
    ensures GoodSim(s.(heap := s.heap - {f}))
  {
    hide GoodPlan;
  }

  /** Rescheduled entries lie strictly in the future, so every pop leaves one due entry less. */
  lemma PopMakesProgress(s: State, maxPending: nat, now: real, f: FollowUp, draw: Draw)
    requires GoodSim(s.sim) && f in s.sim.heap && Fair(draw)
    ensures GoodSim(Pop(s, maxPending, now, f, draw).sim)
    ensures Due(Pop(s, maxPending, now, f, draw).sim.heap, now) == Due(s.sim.heap, now) - {f}
  {
    var popped := s.sim.(heap := s.sim.heap - {f});
    FewerStayGood(s.sim, f);
    assert GoodPlan(f.rest);
    hide GoodSim, GoodPlan;
    if f.rest != [] {
      ScheduleStaysGood(popped, maxPending, now, f.order, f.rest, draw);
    }
  }

  /** Pops and emits while the least entry is due. */
  ghost function DueEvents(s: State, maxPending: nat, now: real, draw: Draw): (r: (State, seq<FollowUp>))
    requires GoodSim(s.sim) && Fair(draw)
    ensures GoodSim(r.0.sim)
    decreases |Due(s.sim.heap, now)|
  {
    if s.sim.heap == {} || Least(s.sim.heap).due > now then (s, [])
    else
      var f := Least(s.sim.heap);
      var after := Pop(s, maxPending, now, f, draw);
      PopMakesProgress(s, maxPending, now, f, draw);
      var rest := DueEvents(after, maxPending, now, draw);
      (rest.0, [f] + rest.1)
  }

  // ---- What one call emits ---------------------------------------------------------------------

  ghost predicate InOrder(fs: seq<FollowUp>) {
    forall i, j :: 0 <= i < j < |fs| ==> Sooner(fs[i], fs[j])
  }

  /** One call emits exactly the entries that were due when it began, each once, in order of due
      time, and leaves nothing due: what it schedules itself never runs in the same call. */
  lemma {:induction false} DueEventsEmitsWhatIsDue(s: State, maxPending: nat, now: real, draw: Draw)
    requires GoodSim(s.sim) && Fair(draw)
    ensures var (after, fs) := DueEvents(s, maxPending, now, draw);
            && InOrder(fs)
            && (forall f :: f in fs <==> f in Due(s.sim.heap, now))
            && Due(after.sim.heap, now) == {}
    decreases |Due(s.sim.heap, now)|
  {
    hide DistinctTies;
    if s.sim.heap == {} || Least(s.sim.heap).due > now {
      assert forall f :: f in s.sim.heap ==> f.due > now;
    } else {
      var f := Least(s.sim.heap);
      var after := Pop(s, maxPending, now, f, draw);
      LeastIsSooner(s.sim.heap, now);
      PopMakesProgress(s, maxPending, now, f, draw);
      hide Pop, GoodSim, DistinctTies, Sooner, IsLeast, Due, Fair;
      DueEventsEmitsWhatIsDue(after, maxPending, now, draw);
      var rest := DueEvents(after, maxPending, now, draw).1;
      forall i | 0 <= i < |rest| ensures Sooner(f, rest[i]) {
        assert rest[i] in rest;
      }
    }
  }

  lemma LeastIsSooner(heap: set<FollowUp>, now: real)
    requires heap != {} && DistinctTies(heap) && Least(heap).due <= now
    ensures Least(heap) in Due(heap, now)
    ensures forall g :: g in Due(heap, now) && g != Least(heap) ==> Sooner(Least(heap), g)
  {
    hide Sooner, DistinctTies;
  }

  // ---- All or nothing ----------------------------------------------------------------------------

  /** Its placement and the first `k` stages of its plan. */
  function Expected(plan: seq<Stage>, k: nat): seq<EventType>
    requires k <= |plan|
  {
    if k == 0 then [Placed] else Expected(plan, k - 1) + [plan[k - 1].eventType]
  }

  lemma {:induction false} ExpectedIsPrefix(plan: seq<Stage>, k: nat, n: nat)
    requires k <= n <= |plan|
    ensures Expected(plan, k) <= Expected(plan, n)
    decreases n
  {
    if k < n {
      ExpectedIsPrefix(plan, k, n - 1);
    }
  }

  /** What one order has emitted. */
  function EmittedBy(log: seq<Emission>, order: nat): seq<EventType>
    decreases |log|
  {
    if log == [] then []
    else
      var last := log[|log| - 1];
      var before := EmittedBy(log[..|log| - 1], order);
      if last.order == order then before + [last.eventType] else before
  }

  lemma EmittedMore(log: seq<Emission>, e: Emission, order: nat)
    ensures EmittedBy(log + [e], order) == EmittedBy(log, order) + (if e.order == order then [e.eventType] else [])
  {
    assert (log + [e])[..|log|] == log;
  }

  /** The entry carries the whole remainder of its order's plan. */
  ghost predicate Carries(f: FollowUp, b: Book) {
    && f.order < |b.plans| == |b.progress| && f.order !in b.dropped
    && b.progress[f.order] < |b.plans[f.order]|
    && f.eventType == b.plans[f.order][b.progress[f.order]].eventType
    && f.rest == b.plans[f.order][b.progress[f.order] + 1..]
  }

  ghost predicate CarryInv(heap: set<FollowUp>, b: Book) {
    && (forall f :: f in heap ==> Carries(f, b))
    && (forall f, g :: f in heap && g in heap && f.order == g.order ==> f == g)
  }

  ghost predicate HeapInv(s: State, maxPending: nat) {
    GoodSim(s.sim) && |s.sim.heap| <= maxPending && CarryInv(s.sim.heap, s.book)
  }

  ghost predicate Waiting(heap: set<FollowUp>, order: nat) {
    exists f :: f in heap && f.order == order
  }

  ghost predicate OrderInv(heap: set<FollowUp>, b: Book, i: nat)
    requires i < |b.plans| == |b.progress|
  {
    var plan, k := b.plans[i], b.progress[i];
    && k <= |plan| && GoodPlan(plan)
    && EmittedBy(b.log, i) == Expected(plan, k)
    && (i in b.dropped ==> k == 0)
    && (i !in b.dropped && k < |plan| ==> Waiting(heap, i))
  }

  ghost predicate BookInv(s: State) {
    && |s.book.plans| == |s.book.progress|
    && (forall i :: i in s.book.dropped ==> i < |s.book.plans|)
    && |s.book.dropped| == s.sim.skipped
    && (forall e :: e in s.book.log ==> e.order < |s.book.plans|)
    && forall i: nat :: i < |s.book.plans| ==> OrderInv(s.sim.heap, s.book, i)
  }

  ghost predicate Inv(s: State, maxPending: nat) {
    HeapInv(s, maxPending) && BookInv(s)
  }

  lemma {:induction false} NothingEmitted(log: seq<Emission>, order: nat)
    requires forall e :: e in log ==> e.order != order
    ensures EmittedBy(log, order) == []
    decreases |log|
  {
    if log != [] {
      assert log[|log| - 1] in log;
      NothingEmitted(log[..|log| - 1], order);
    }
  }

  // ---- Placing an order ---------------------------------------------------------------------------

  lemma CarryMore(heap: set<FollowUp>, b: Book, g: FollowUp)
    requires CarryInv(heap, b) && Carries(g, b) && forall f :: f in heap ==> f.order != g.order
    ensures CarryInv(heap + {g}, b)
  {
    hide Carries;
  }

  lemma CarriedByMore(heap: set<FollowUp>, b: Book, b': Book)
    requires CarryInv(heap, b) && |b.plans| == |b.progress| && |b'.plans| == |b'.progress| == |b.plans| + 1
    requires b'.plans[..|b.plans|] == b.plans && b'.progress[..|b.plans|] == b.progress
    requires b'.dropped == b.dropped || b'.dropped == b.dropped + {|b.plans|}
    ensures CarryInv(heap, b') && forall f :: f in heap ==> f.order != |b.plans|
  {
    forall f | f in heap ensures Carries(f, b') && f.order != |b.plans| {
      assert Carries(f, b);
      assert b'.plans[f.order] == b'.plans[..|b.plans|][f.order] && b'.progress[f.order] == b'.progress[..|b.plans|][f.order];
    }
  }

  lemma FirstCarries(b: Book, g: FollowUp)
    requires |b.plans| == |b.progress| > 0 && g.order == |b.plans| - 1 && g.order !in b.dropped && b.progress[g.order] == 0
    requires b.plans[g.order] != [] && g.eventType == b.plans[g.order][0].eventType && g.rest == b.plans[g.order][1..]
    ensures Carries(g, b)
  {
  }

  lemma NewOrderKeepsHeap(s: State, maxPending: nat, now: real, c: Course, draw: Draw)
    requires Inv(s, maxPending) && Fair(draw)
    ensures HeapInv(NewOrder(s, maxPending, now, c, draw), maxPending)
  {
    var id, plan := |s.book.plans|, PlanOf(c);
    var s' := NewOrder(s, maxPending, now, c, draw);
    assert GoodPlan(plan);
    assert id !in s.book.dropped;
    hide Carries, PlanOf, CarryInv, GoodSim, GoodPlan, OrderInv, Fair;
    CarriedByMore(s.sim.heap, s.book, s'.book);
    ScheduleStaysGood(s.sim, maxPending, now, id, plan, draw);
    if |s.sim.heap| < maxPending {
      var g := Scheduled(s.sim, maxPending, now, id, plan, draw).value;
      FirstCarries(s'.book, g);
      CarryMore(s.sim.heap, s'.book, g);
    }
  }

  lemma OldOrderKept(s: State, maxPending: nat, now: real, c: Course, draw: Draw, i: nat)
    requires BookInv(s) && Fair(draw) && i < |s.book.plans|
    ensures OrderInv(NewOrder(s, maxPending, now, c, draw).sim.heap, NewOrder(s, maxPending, now, c, draw).book, i)
  {
    var id := |s.book.plans|;
    var s' := NewOrder(s, maxPending, now, c, draw);
    EmittedMore(s.book.log, Emission(id, Placed), i);
    assert OrderInv(s.sim.heap, s.book, i);
    assert Waiting(s.sim.heap, i) ==> Waiting(s'.sim.heap, i);
    hide EmittedBy, Waiting, BookInv, Expected, PlanOf, GoodPlan;
  }

  lemma FirstWaits(s: State, maxPending: nat, now: real, c: Course, draw: Draw)
    requires Fair(draw) && |s.sim.heap| < maxPending
    ensures Waiting(NewOrder(s, maxPending, now, c, draw).sim.heap, |s.book.plans|)
  {
    var id, plan := |s.book.plans|, PlanOf(c);
    assert GoodPlan(plan);
    hide GoodPlan, PlanOf;
    var g := Scheduled(s.sim, maxPending, now, id, plan, draw).value;
    assert g in NewOrder(s, maxPending, now, c, draw).sim.heap && g.order == id;
  }

  lemma FirstOrderKept(s: State, maxPending: nat, now: real, c: Course, draw: Draw)
    requires BookInv(s) && Fair(draw)
    ensures var s' := NewOrder(s, maxPending, now, c, draw); OrderInv(s'.sim.heap, s'.book, |s.book.plans|)
  {
    var id := |s.book.plans|;
    EmittedMore(s.book.log, Emission(id, Placed), id);
    NothingEmitted(s.book.log, id);
    assert GoodPlan(PlanOf(c));
    if |s.sim.heap| < maxPending {
      FirstWaits(s, maxPending, now, c, draw);
    }
    hide EmittedBy, GoodPlan, PlanOf, Waiting, OrderInv, Scheduled;
    NothingYet(s.book, NewOrder(s, maxPending, now, c, draw).sim.heap, PlanOf(c), |s.sim.heap| >= maxPending);
  }

  lemma NothingYet(b: Book, heap: set<FollowUp>, plan: seq<Stage>, full: bool)
    requires |b.plans| == |b.progress| && GoodPlan(plan) && |b.plans| !in b.dropped
    requires EmittedBy(b.log + [Emission(|b.plans|, Placed)], |b.plans|) == [Placed] && (full || Waiting(heap, |b.plans|))
    ensures OrderInv(heap, Book(b.plans + [plan], b.progress + [0], if full then b.dropped + {|b.plans|} else b.dropped,
                                b.log + [Emission(|b.plans|, Placed)]), |b.plans|)
  {
    hide EmittedBy, GoodPlan, Waiting;
  }

  lemma NewOrderKeepsOrder(s: State, maxPending: nat, now: real, c: Course, draw: Draw, i: nat)
    requires BookInv(s) && Fair(draw) && i <= |s.book.plans|
    ensures var s' := NewOrder(s, maxPending, now, c, draw);
            i < |s'.book.plans| == |s'.book.progress| && OrderInv(s'.sim.heap, s'.book, i)
  {
    if i < |s.book.plans| {
      OldOrderKept(s, maxPending, now, c, draw, i);
    } else {
      FirstOrderKept(s, maxPending, now, c, draw);
    }
    hide OrderInv;
  }

  lemma NewOrderKeepsBook(s: State, maxPending: nat, now: real, c: Course, draw: Draw)
    requires BookInv(s) && Fair(draw)
    ensures BookInv(NewOrder(s, maxPending, now, c, draw))
  {
    hide OrderInv, PlanOf;
    var s' := NewOrder(s, maxPending, now, c, draw);
    forall i: nat | i < |s'.book.plans| ensures OrderInv(s'.sim.heap, s'.book, i) {
      NewOrderKeepsOrder(s, maxPending, now, c, draw, i);
    }
  }

  lemma NewOrderKeeps(s: State, maxPending: nat, now: real, c: Course, draw: Draw)
    requires Inv(s, maxPending) && Fair(draw)
    ensures Inv(NewOrder(s, maxPending, now, c, draw), maxPending)
  {
    NewOrderKeepsHeap(s, maxPending, now, c, draw);
    NewOrderKeepsBook(s, maxPending, now, c, draw);
    hide HeapInv, BookInv, NewOrder;
  }

  // ---- Popping a due entry --------------------------------------------------------------------------

  lemma RoomAfterPop<T>(heap: set<T>, f: T, g: T, maxPending: nat)
    requires f in heap && |heap| <= maxPending
    ensures |heap - {f}| < maxPending && |heap - {f} + {g}| <= maxPending
  {
  }

  lemma NextStageIsGood(s: Simulator, f: FollowUp)
    requires GoodSim(s) && f in s.heap && f.rest != []
    ensures f.rest[0].low <= f.rest[0].high
  {
    assert GoodPlan(f.rest) && f.rest[0] in f.rest;
  }

  /** The pop as an equation: the entry leaves, its successor enters, nothing is skipped. */
  ghost predicate PopReplaces(s: State, maxPending: nat, now: real, f: FollowUp, draw: Draw)
    requires GoodSim(s.sim) && f in s.sim.heap && Fair(draw) && f.order < |s.book.progress|
  {
    var popped, s' := s.sim.(heap := s.sim.heap - {f}), Pop(s, maxPending, now, f, draw);
    && s'.sim.skipped == s.sim.skipped
    && |s'.sim.heap| <= maxPending
    && s'.book == Noted(s.book, f)
    && (f.rest == [] ==> s'.sim.heap == popped.heap)
    && (f.rest != [] ==>
          && f.rest[0].low <= f.rest[0].high
          && var g := Scheduled(popped, maxPending, now, f.order, f.rest, draw);
             g.Some? && s'.sim.heap == popped.heap + {g.value})
  }

  /** A follow-up is never skipped once its order has started: the pop makes room for it. */
  lemma PopNeverSkips(s: State, maxPending: nat, now: real, f: FollowUp, draw: Draw)
    requires GoodSim(s.sim) && |s.sim.heap| <= maxPending
    requires f in s.sim.heap && Fair(draw) && f.order < |s.book.progress|
    ensures PopReplaces(s, maxPending, now, f, draw)
  {
    hide GoodSim, GoodPlan, Fair;
    RoomAfterPop(s.sim.heap, f, f, maxPending);
    if f.rest != [] {
      NextStageIsGood(s.sim, f);
      var popped := s.sim.(heap := s.sim.heap - {f});
      var g := Scheduled(popped, maxPending, now, f.order, f.rest, draw).value;
      RoomAfterPop(s.sim.heap, f, g, maxPending);
    }
  }

  /** The book after the pop of `f`. */
  function Noted(b: Book, f: FollowUp): Book
    requires f.order < |b.progress|
  {
    b.(progress := b.progress[f.order := b.progress[f.order] + 1], log := b.log + [Emission(f.order, f.eventType)])
  }

  lemma OthersStillCarry(heap: set<FollowUp>, b: Book, f: FollowUp)
    requires CarryInv(heap, b) && f in heap
    ensures Carries(f, b) && CarryInv(heap - {f}, Noted(b, f)) && forall g :: g in heap - {f} ==> g.order != f.order
  {
    assert Carries(f, b);
    forall g | g in heap - {f} ensures Carries(g, Noted(b, f)) {
      assert Carries(g, b) && g.order != f.order;
    }
  }

  lemma SuccessorCarries(b: Book, f: FollowUp, g: FollowUp)
    requires Carries(f, b) && f.rest != []
    requires g.order == f.order && g.eventType == f.rest[0].eventType && g.rest == f.rest[1..]
    ensures Carries(g, Noted(b, f))
  {
    var plan, k := b.plans[f.order], b.progress[f.order];
    assert plan[k + 1..] == f.rest && plan[k + 2..] == f.rest[1..] && plan[k + 1] == f.rest[0];
  }

  lemma PopKeepsHeap(s: State, maxPending: nat, now: real, f: FollowUp, draw: Draw)
    requires HeapInv(s, maxPending) && f in s.sim.heap && Fair(draw)
    ensures HeapInv(Pop(s, maxPending, now, f, draw), maxPending)
  {
    PopMakesProgress(s, maxPending, now, f, draw);
    OthersStillCarry(s.sim.heap, s.book, f);
    PopNeverSkips(s, maxPending, now, f, draw);
    assert GoodPlan(f.rest);
    FewerStayGood(s.sim, f);
    hide CarryInv, GoodSim, GoodPlan, Schedule, Scheduled, Pop, Noted, Carries;
    if f.rest != [] {
      var popped := s.sim.(heap := s.sim.heap - {f});
      ScheduleStaysGood(popped, maxPending, now, f.order, f.rest, draw);
      var g := Scheduled(popped, maxPending, now, f.order, f.rest, draw).value;
      SuccessorCarries(s.book, f, g);
      CarryMore(popped.heap, Noted(s.book, f), g);
    }
  }

  lemma PoppedOrderGoesOn(heap: set<FollowUp>, heap': set<FollowUp>, b: Book, f: FollowUp)
    requires Carries(f, b) && OrderInv(heap, b, f.order) && (f.rest != [] ==> Waiting(heap', f.order))
    ensures OrderInv(heap', Noted(b, f), f.order)
  {
    EmittedMore(b.log, Emission(f.order, f.eventType), f.order);
    hide EmittedBy, GoodPlan, Waiting;
  }

  lemma OtherOrderStays(heap: set<FollowUp>, heap': set<FollowUp>, b: Book, f: FollowUp, i: nat)
    requires i < |b.plans| == |b.progress| && f.order < |b.plans| && i != f.order
    requires OrderInv(heap, b, i) && heap - {f} <= heap'
    ensures OrderInv(heap', Noted(b, f), i)
  {
    EmittedMore(b.log, Emission(f.order, f.eventType), i);
    hide EmittedBy, GoodPlan, Expected;
    if Waiting(heap, i) {
      var g :| g in heap && g.order == i;
      assert g in heap';
    }
  }

  lemma PopKeepsOrder(s: State, maxPending: nat, now: real, f: FollowUp, draw: Draw, i: nat)
    requires Inv(s, maxPending) && f in s.sim.heap && Fair(draw) && i < |s.book.plans|
    ensures var s' := Pop(s, maxPending, now, f, draw);
            |s'.book.plans| == |s'.book.progress| == |s.book.plans| && OrderInv(s'.sim.heap, s'.book, i)
  {
    var s' := Pop(s, maxPending, now, f, draw);
    assert Carries(f, s.book);
    PopNeverSkips(s, maxPending, now, f, draw);
    assert OrderInv(s.sim.heap, s.book, i);
    hide HeapInv, EmittedBy, BookInv, GoodPlan, GoodSim, CarryInv, Schedule, Fair, OrderInv, Pop;
    if i != f.order {
      OtherOrderStays(s.sim.heap, s'.sim.heap, s.book, f, i);
    } else {
      if f.rest != [] {
        var g := Scheduled(s.sim.(heap := s.sim.heap - {f}), maxPending, now, f.order, f.rest, draw).value;
        assert g in s'.sim.heap && g.order == i;
      }
      PoppedOrderGoesOn(s.sim.heap, s'.sim.heap, s.book, f);
    }
  }

  lemma PopKeeps(s: State, maxPending: nat, now: real, f: FollowUp, draw: Draw)
    requires Inv(s, maxPending) && f in s.sim.heap && Fair(draw)
    ensures Inv(Pop(s, maxPending, now, f, draw), maxPending)
  {
    var s' := Pop(s, maxPending, now, f, draw);
    assert Carries(f, s.book);
    PopKeepsHeap(s, maxPending, now, f, draw);
    PopNeverSkips(s, maxPending, now, f, draw);
    forall i: nat | i < |s.book.plans| ensures OrderInv(s'.sim.heap, s'.book, i) {
      PopKeepsOrder(s, maxPending, now, f, draw, i);
    }
    hide HeapInv, OrderInv, Schedule;
  }

  lemma {:induction false} DueEventsKeeps(s: State, maxPending: nat, now: real, draw: Draw)
    requires Inv(s, maxPending) && Fair(draw)
    ensures Inv(DueEvents(s, maxPending, now, draw).0, maxPending)
    ensures DueEvents(s, maxPending, now, draw).0.sim.skipped == s.sim.skipped
    decreases |Due(s.sim.heap, now)|
  {
    hide DistinctTies;
    if s.sim.heap != {} && Least(s.sim.heap).due <= now {
      var f := Least(s.sim.heap);
      assert f in s.sim.heap && f in Due(s.sim.heap, now);
      PopMakesProgress(s, maxPending, now, f, draw);
      PopKeeps(s, maxPending, now, f, draw);
      assert Carries(f, s.book);
      PopNeverSkips(s, maxPending, now, f, draw);
      hide Inv, Pop, GoodSim, HeapInv, BookInv, Fair, Due, IsLeast, DistinctTies;
      DueEventsKeeps(Pop(s, maxPending, now, f, draw), maxPending, now, draw);
    }
  }

  // ---- Runs ----------------------------------------------------------------------------------------

  datatype Call = Place(now: real, course: Course, draw: Draw) | Tick(now: real, draw: Draw)

  ghost predicate FairCalls(calls: seq<Call>) {
    forall i :: 0 <= i < |calls| ==> Fair(calls[i].draw)
  }

  ghost function Run(s: State, maxPending: nat, calls: seq<Call>): State
    requires GoodSim(s.sim) && HeapInv(s, maxPending) && BookInv(s) && FairCalls(calls)
    decreases |calls|
  {
    if calls == [] then s
    else
      match calls[0]
      case Place(now, c, draw) =>
        NewOrderKeeps(s, maxPending, now, c, draw);
        Run(NewOrder(s, maxPending, now, c, draw), maxPending, calls[1..])
      case Tick(now, draw) =>
        DueEventsKeeps(s, maxPending, now, draw);
        Run(DueEvents(s, maxPending, now, draw).0, maxPending, calls[1..])
  }

  function Fresh(): State {
    State(Simulator({}, 0, 0), Book([], [], {}, []))
  }

  lemma {:induction false} RunKeeps(s: State, maxPending: nat, calls: seq<Call>)
    requires Inv(s, maxPending) && FairCalls(calls)
    ensures Inv(Run(s, maxPending, calls), maxPending)
    decreases |calls|
  {
    if calls != [] {
      match calls[0] {
        case Place(now, c, draw) =>
          NewOrderKeeps(s, maxPending, now, c, draw);
          hide HeapInv, BookInv, NewOrder;
          RunKeeps(NewOrder(s, maxPending, now, c, draw), maxPending, calls[1..]);
        case Tick(now, draw) =>
          DueEventsKeeps(s, maxPending, now, draw);
          hide HeapInv, BookInv, DueEvents;
          RunKeeps(DueEvents(s, maxPending, now, draw).0, maxPending, calls[1..]);
      }
    }
  }

  /** After any calls, in any order and with any clock: each order has emitted a prefix of its plan;
      it waits for more with exactly one entry, which carries the whole remainder, unless its first
      follow-up was skipped, and then it has emitted nothing but its placement; the heap is bounded. */
  lemma AllOrNothing(maxPending: nat, calls: seq<Call>, i: nat)
    requires FairCalls(calls)
    requires i < |Run(Fresh(), maxPending, calls).book.plans|
    ensures var s := Run(Fresh(), maxPending, calls); var b := s.book;
            && i < |b.progress| && b.progress[i] <= |b.plans[i]|
            && EmittedBy(b.log, i) == Expected(b.plans[i], b.progress[i]) <= Expected(b.plans[i], |b.plans[i]|)
            && (i in b.dropped ==> EmittedBy(b.log, i) == [Placed] && !Waiting(s.sim.heap, i))
            && (i !in b.dropped ==> (Waiting(s.sim.heap, i) <==> b.progress[i] < |b.plans[i]|))
            && (forall f, g :: f in s.sim.heap && g in s.sim.heap && f.order == g.order ==> f == g)
            && (forall f :: f in s.sim.heap && f.order == i ==>
                  f.eventType == b.plans[i][b.progress[i]].eventType && f.rest == b.plans[i][b.progress[i] + 1..])
            && |s.sim.heap| <= maxPending && s.sim.skipped == |b.dropped|
  {
    assert Inv(Fresh(), maxPending);
    RunKeeps(Fresh(), maxPending, calls);
    var s := Run(Fresh(), maxPending, calls);
    hide Run, EmittedBy, GoodSim, GoodPlan, Fresh, FairCalls;
    assert OrderInv(s.sim.heap, s.book, i);
    assert forall f :: f in s.sim.heap ==> Carries(f, s.book);
    ExpectedIsPrefix(s.book.plans[i], s.book.progress[i], |s.book.plans[i]|);
  }

  /** Once nothing is pending, every order that was not skipped has emitted its whole plan. */
  lemma DrainedIsComplete(maxPending: nat, calls: seq<Call>, i: nat)
    requires FairCalls(calls)
    requires i < |Run(Fresh(), maxPending, calls).book.plans| && Run(Fresh(), maxPending, calls).sim.heap == {}
    ensures var b := Run(Fresh(), maxPending, calls).book;
            EmittedBy(b.log, i) == if i in b.dropped then [Placed] else Expected(b.plans[i], |b.plans[i]|)
  {
    AllOrNothing(maxPending, calls, i);
    hide Run, EmittedBy;
  }

  // ---- What the three courses do, and when ------------------------------------------------------------

  /** The courses of the placed orders, in order. */
  function Courses(calls: seq<Call>): seq<Course> {
    if calls == [] then [] else (if calls[0].Place? then [calls[0].course] else []) + Courses(calls[1..])
  }

  function PlansOf(cs: seq<Course>): (plans: seq<seq<Stage>>)
    ensures |plans| == |cs| && forall i :: 0 <= i < |cs| ==> plans[i] == PlanOf(cs[i])
  {
    seq(|cs|, i requires 0 <= i < |cs| => PlanOf(cs[i]))
  }

  lemma {:induction false} DueEventsKeepPlans(s: State, maxPending: nat, now: real, draw: Draw)
    requires GoodSim(s.sim) && Fair(draw)
    ensures DueEvents(s, maxPending, now, draw).0.book.plans == s.book.plans
    decreases |Due(s.sim.heap, now)|
  {
    hide DistinctTies;
    if s.sim.heap != {} && Least(s.sim.heap).due <= now {
      var f := Least(s.sim.heap);
      assert f in Due(s.sim.heap, now);
      PopMakesProgress(s, maxPending, now, f, draw);
      assert Pop(s, maxPending, now, f, draw).book.plans == s.book.plans;
      hide Pop, GoodSim, Fair, Due, IsLeast;
      DueEventsKeepPlans(Pop(s, maxPending, now, f, draw), maxPending, now, draw);
    }
  }

  lemma PlansMore(plans: seq<seq<Stage>>, c: Course, cs: seq<Course>)
    ensures plans + PlansOf([c] + cs) == plans + [PlanOf(c)] + PlansOf(cs)
    ensures plans + PlansOf([]) == plans
  {
    hide PlanOf;
    assert PlansOf([c] + cs) == [PlanOf(c)] + PlansOf(cs);
  }

  lemma {:induction false} RunPlans(s: State, maxPending: nat, calls: seq<Call>)
    requires Inv(s, maxPending) && FairCalls(calls)
    ensures Run(s, maxPending, calls).book.plans == s.book.plans + PlansOf(Courses(calls))
    decreases |calls|
  {
    PlansMore(s.book.plans, if calls != [] && calls[0].Place? then calls[0].course else Cancels,
              if calls == [] then [] else Courses(calls[1..]));
    if calls != [] {
      hide PlansOf;
      match calls[0] {
        case Place(now, c, draw) =>
          NewOrderKeeps(s, maxPending, now, c, draw);
          var s' := NewOrder(s, maxPending, now, c, draw);
          assert s'.book.plans == s.book.plans + [PlanOf(c)];
          hide HeapInv, BookInv, NewOrder, PlanOf;
          RunPlans(s', maxPending, calls[1..]);
        case Tick(now, draw) =>
          DueEventsKeeps(s, maxPending, now, draw);
          DueEventsKeepPlans(s, maxPending, now, draw);
          hide HeapInv, BookInv, DueEvents;
          RunPlans(DueEvents(s, maxPending, now, draw).0, maxPending, calls[1..]);
          assert [] + Courses(calls[1..]) == Courses(calls[1..]);
      }
    }
  }

  /** The events of a course, in order. */
  function WholeCourse(c: Course): seq<EventType> {
    match c
    case Cancels => [Placed, Cancelled]
    case CashOnDelivery => [Placed, Shipped, Paid]
    case Prepaid => [Placed, Paid, Shipped]
  }

  lemma PlanIsWhole(c: Course)
    ensures Expected(PlanOf(c), |PlanOf(c)|) == WholeCourse(c)
  {
    var plan := PlanOf(c);
    assert Expected(plan, 0) == [Placed];
    assert Expected(plan, 1) == [Placed] + [plan[0].eventType];
    if |plan| == 2 {
      assert Expected(plan, 2) == Expected(plan, 1) + [plan[1].eventType];
    }
  }

  /** In every run an order has emitted a prefix of its course, and all of it once nothing is pending,
      unless its first follow-up was skipped: cash is paid after the shipment, everything else before. */
  lemma CoursesRunThrough(maxPending: nat, calls: seq<Call>, i: nat)
    requires FairCalls(calls)
    ensures |Run(Fresh(), maxPending, calls).book.plans| == |Courses(calls)|
    ensures i < |Courses(calls)| ==>
              var s := Run(Fresh(), maxPending, calls); var emitted := EmittedBy(s.book.log, i);
              && emitted <= WholeCourse(Courses(calls)[i])
              && (s.sim.heap == {} ==> emitted == if i in s.book.dropped then [Placed] else WholeCourse(Courses(calls)[i]))
  {
    assert Inv(Fresh(), maxPending);
    RunPlans(Fresh(), maxPending, calls);
    assert [] + PlansOf(Courses(calls)) == PlansOf(Courses(calls));
    if i < |Courses(calls)| {
      hide Run, EmittedBy, PlanOf, Expected, WholeCourse;
      AllOrNothing(maxPending, calls, i);
      PlanIsWhole(Courses(calls)[i]);
      if Run(Fresh(), maxPending, calls).sim.heap == {} {
        DrainedIsComplete(maxPending, calls, i);
      }
    }
  }

  /** The entry falls due between `low` and `high` seconds after `now`. */
  predicate DueWithin(f: FollowUp, now: real, low: real, high: real) {
    now + low <= f.due <= now + high
  }

  /** What placing an order schedules, and for when. */
  lemma PlacedFallsDue(s: State, maxPending: nat, now: real, c: Course, draw: Draw)
    requires Fair(draw)
    ensures var s' := NewOrder(s, maxPending, now, c, draw);
            && (|s.sim.heap| >= maxPending ==> s'.sim.heap == s.sim.heap && s'.sim.skipped == s.sim.skipped + 1)
            && (|s.sim.heap| < maxPending ==>
                  exists f :: s'.sim.heap == s.sim.heap + {f} && f.order == |s.book.plans|
                              && match c
                                 case Cancels => f.eventType == Cancelled && DueWithin(f, now, 5.0, 60.0)
                                 case CashOnDelivery => f.eventType == Shipped && DueWithin(f, now, 5.0, 40.0)
                                 case Prepaid => f.eventType == Paid && DueWithin(f, now, 2.0, 20.0))
  {
    var plan, id := PlanOf(c), |s.book.plans|;
    assert plan[0] in plan;
    if |s.sim.heap| < maxPending {
      var f := Scheduled(s.sim, maxPending, now, id, plan, draw).value;
      assert NewOrder(s, maxPending, now, c, draw).sim.heap == s.sim.heap + {f};
      assert plan[0].low <= draw(s.sim.counter, plan[0].low, plan[0].high) <= plan[0].high;
    }
  }

  /** What is still to come after a waiting entry comes 10 to 60 seconds after it. */
  ghost predicate SecondStages(heap: set<FollowUp>) {
    forall f, x :: f in heap && x in f.rest ==> x.low == 10.0 && x.high == 60.0
  }

  lemma PopFallsDue(s: State, maxPending: nat, now: real, f: FollowUp, draw: Draw)
    requires GoodSim(s.sim) && f in s.sim.heap && Fair(draw) && SecondStages(s.sim.heap)
    ensures var s' := Pop(s, maxPending, now, f, draw);
            SecondStages(s'.sim.heap) && forall g :: g in s'.sim.heap && g !in s.sim.heap ==> DueWithin(g, now, 10.0, 60.0)
  {
    var popped := s.sim.(heap := s.sim.heap - {f});
    if f.rest != [] && |popped.heap| < maxPending {
      NextStageIsGood(s.sim, f);
      assert f.rest[0] in f.rest;
      var g := Scheduled(popped, maxPending, now, f.order, f.rest, draw).value;
      assert g.rest == f.rest[1..] && forall x :: x in g.rest ==> x in f.rest;
      assert f.rest[0].low <= draw(popped.counter, f.rest[0].low, f.rest[0].high) <= f.rest[0].high;
    }
    hide GoodSim;
  }

  lemma {:induction false} DueEventsFallDue(s: State, maxPending: nat, now: real, draw: Draw)
    requires GoodSim(s.sim) && Fair(draw) && SecondStages(s.sim.heap)
    ensures var s' := DueEvents(s, maxPending, now, draw).0;
            SecondStages(s'.sim.heap) && forall g :: g in s'.sim.heap && g !in s.sim.heap ==> DueWithin(g, now, 10.0, 60.0)
    decreases |Due(s.sim.heap, now)|
  {
    hide DistinctTies;
    if s.sim.heap != {} && Least(s.sim.heap).due <= now {
      var f := Least(s.sim.heap);
      assert f in s.sim.heap && f in Due(s.sim.heap, now);
      PopMakesProgress(s, maxPending, now, f, draw);
      PopFallsDue(s, maxPending, now, f, draw);
      hide Pop, GoodSim, Fair, Due, IsLeast, SecondStages, DueWithin;
      DueEventsFallDue(Pop(s, maxPending, now, f, draw), maxPending, now, draw);
    }
  }

  lemma PlacedHasSecondStages(s: State, maxPending: nat, now: real, c: Course, draw: Draw)
    requires Fair(draw) && SecondStages(s.sim.heap)
    ensures SecondStages(NewOrder(s, maxPending, now, c, draw).sim.heap)
  {
    var plan := PlanOf(c);
    assert plan[0] in plan;
    assert forall x :: x in plan[1..] ==> x.low == 10.0 && x.high == 60.0;
  }

  lemma {:induction false} RunHasSecondStages(s: State, maxPending: nat, calls: seq<Call>)
    requires Inv(s, maxPending) && FairCalls(calls) && SecondStages(s.sim.heap)
    ensures SecondStages(Run(s, maxPending, calls).sim.heap)
    decreases |calls|
  {
    if calls != [] {
      match calls[0] {
        case Place(now, c, draw) =>
          NewOrderKeeps(s, maxPending, now, c, draw);
          PlacedHasSecondStages(s, maxPending, now, c, draw);
          hide HeapInv, BookInv, NewOrder, SecondStages;
          RunHasSecondStages(NewOrder(s, maxPending, now, c, draw), maxPending, calls[1..]);
        case Tick(now, draw) =>
          DueEventsKeeps(s, maxPending, now, draw);
          DueEventsFallDue(s, maxPending, now, draw);
          hide HeapInv, BookInv, DueEvents, SecondStages;
          RunHasSecondStages(DueEvents(s, maxPending, now, draw).0, maxPending, calls[1..]);
      }
    }
  }

  /** After any calls: what a further call schedules falls due 10 to 60 seconds after it. */
  lemma FollowUpsFallDue(maxPending: nat, calls: seq<Call>, now: real, draw: Draw)
    requires FairCalls(calls) && Fair(draw)
    ensures var s := Run(Fresh(), maxPending, calls);
            && GoodSim(s.sim)
            && forall g :: g in DueEvents(s, maxPending, now, draw).0.sim.heap && g !in s.sim.heap
                 ==> DueWithin(g, now, 10.0, 60.0)
  {
    assert Inv(Fresh(), maxPending);
    RunKeeps(Fresh(), maxPending, calls);
    RunHasSecondStages(Fresh(), maxPending, calls);
    hide Run, DueEvents, SecondStages, BookInv, Fair, FairCalls, GoodSim;
    DueEventsFallDue(Run(Fresh(), maxPending, calls), maxPending, now, draw);
  }

  // ---- The simulator as an object --------------------------------------------------------------------

  lemma LeastIsUnique(heap: set<FollowUp>, f: FollowUp)
    requires DistinctTies(heap) && IsLeast(f, heap)
    ensures f == Least(heap)
  {
  }

  lemma DueEventsUnfolds(s: State, maxPending: nat, now: real, draw: Draw)
    requires GoodSim(s.sim) && Fair(draw) && s.sim.heap != {} && Least(s.sim.heap).due <= now
    ensures var f := Least(s.sim.heap); var after := Pop(s, maxPending, now, f, draw);
            && GoodSim(after.sim)
            && DueEvents(s, maxPending, now, draw)
               == (DueEvents(after, maxPending, now, draw).0, [f] + DueEvents(after, maxPending, now, draw).1)
  {
    hide DistinctTies, IsLeast, Fair;
    PopMakesProgress(s, maxPending, now, Least(s.sim.heap), draw);
    hide Pop, GoodSim, Due;
  }

  lemma FewerDue(s: State, maxPending: nat, now: real, draw: Draw, f: FollowUp)
    requires GoodSim(s.sim) && Fair(draw) && f in s.sim.heap && f.due <= now
    ensures |Due(Pop(s, maxPending, now, f, draw).sim.heap, now)| < |Due(s.sim.heap, now)|
  {
    PopMakesProgress(s, maxPending, now, f, draw);
    assert f in Due(s.sim.heap, now);
    hide Pop, GoodSim, Due, Fair;
  }

  /** The invariant implies what popping needs. */
  lemma Poppable(s: State, maxPending: nat)
    requires Inv(s, maxPending)
    ensures GoodSim(s.sim) && DistinctTies(s.sim.heap)
  {
  }

  lemma NothingDue(s: State, maxPending: nat, now: real, draw: Draw)
    requires GoodSim(s.sim) && Fair(draw) && (s.sim.heap == {} || Least(s.sim.heap).due > now)
    ensures DueEvents(s, maxPending, now, draw) == (s, [])
  {
    hide DistinctTies, IsLeast, Fair;
  }

  /** One turn of the loop: `popped` so far, followed by what the rest of the call emits. */
  lemma OnePop(s: State, maxPending: nat, now: real, draw: Draw, popped: seq<FollowUp>)
    requires Inv(s, maxPending) && GoodSim(s.sim) && Fair(draw) && s.sim.heap != {} && Least(s.sim.heap).due <= now
    ensures var f := Least(s.sim.heap); var after := Pop(s, maxPending, now, f, draw);
            && Inv(after, maxPending) && GoodSim(after.sim)
            && DueEvents(s, maxPending, now, draw).0 == DueEvents(after, maxPending, now, draw).0
            && popped + DueEvents(s, maxPending, now, draw).1 == (popped + [f]) + DueEvents(after, maxPending, now, draw).1
            && |Due(after.sim.heap, now)| < |Due(s.sim.heap, now)|
  {
    hide DistinctTies, Inv, Fair, Pop, Due, DueEvents;
    var f := Least(s.sim.heap);
    assert f in s.sim.heap;
    hide GoodSim, IsLeast;
    PopKeeps(s, maxPending, now, f, draw);
    DueEventsUnfolds(s, maxPending, now, draw);
    FewerDue(s, maxPending, now, draw, f);
    var rest := DueEvents(Pop(s, maxPending, now, f, draw), maxPending, now, draw).1;
    assert popped + ([f] + rest) == (popped + [f]) + rest;
  }

  class OrderSimulator {
    const maxPending: nat
    var heap: set<FollowUp>
    var counter: nat
    var skippedFollowUps: nat
    var orders: nat
    ghost var book: Book

    ghost function View(): State
      reads this
    {
      State(Simulator(heap, counter, skippedFollowUps), book)
    }

    /** Order numbers stand for the random identifiers: each is used once. */
    ghost predicate Valid()
      reads this
    {
      orders == |book.plans| && Inv(View(), maxPending)
    }

    constructor (maxPending: nat)
      ensures Valid() && this.maxPending == maxPending && View() == Fresh()
    {
      this.maxPending := maxPending;
      heap, counter, skippedFollowUps, orders, book := {}, 0, 0, 0, Book([], [], {}, []);
    }

    /** Places an order and returns its first event. */
    method Place(now: real, course: Course, draw: Draw) returns (event: Emission)
      requires Valid() && Fair(draw)
      modifies this
      ensures Valid() && View() == NewOrder(old(View()), maxPending, now, course, draw)
      ensures event == Emission(old(orders), Placed)
    {
      NewOrderKeeps(View(), maxPending, now, course, draw);
      hide Inv, PlanOf, Fair, Scheduled;
      ghost var id, full := orders, |heap| >= maxPending;
      event := Emission(orders, Placed);
      ScheduleNext(now, orders, PlanOf(course), draw);
      orders := orders + 1;
      book := Book(book.plans + [PlanOf(course)], book.progress + [0],
                   if full then book.dropped + {id} else book.dropped, book.log + [Emission(id, Placed)]);
    }

    /** Pops and emits while the least entry is due. */
    method EmitDue(now: real, draw: Draw) returns (popped: seq<FollowUp>)
      requires Valid() && Fair(draw)
      modifies this
      ensures Valid() && GoodSim(old(View()).sim) && (View(), popped) == DueEvents(old(View()), maxPending, now, draw)
    {
      hide Inv, Pop, GoodSim, DueEvents, Due, DistinctTies, IsLeast, Fair;
      ghost var before := View();
      Poppable(before, maxPending);
      popped := [];
      var next := Peek();
      ghost var all := DueEvents(before, maxPending, now, draw);
      assert popped + all.1 == all.1;
      while next.Some? && next.value.due <= now
        invariant Valid() && GoodSim(View().sim) && DistinctTies(heap)
        invariant next == if heap == {} then None else Some(Least(heap))
        invariant all.0 == DueEvents(View(), maxPending, now, draw).0
        invariant all.1 == popped + DueEvents(View(), maxPending, now, draw).1
        decreases |Due(heap, now)|
      {
        OnePop(View(), maxPending, now, draw, popped);
        PopEntry(next.value, now, draw);
        Poppable(View(), maxPending);
        popped := popped + [next.value];
        next := Peek();
      }
      NothingDue(View(), maxPending, now, draw);
      assert popped + [] == popped;
    }

    /** Removes an entry, notes its emission and schedules what follows. */
    method PopEntry(f: FollowUp, now: real, draw: Draw)
      requires Valid() && Fair(draw) && f in heap
      modifies this`heap, this`counter, this`skippedFollowUps, this`book
      ensures GoodSim(old(View()).sim) && View() == Pop(old(View()), maxPending, now, f, draw)
      ensures |book.plans| == old(|book.plans|)
    {
      assert Carries(f, book);
      heap := heap - {f};
      book := Noted(book, f);
      if f.rest != [] {
        NextStageIsGood(old(View()).sim, f);
        hide Inv, GoodSim, Fair, Scheduled, Carries;
        ScheduleNext(now, f.order, f.rest, draw);
      }
    }

    method Peek() returns (next: Option<FollowUp>)
      requires DistinctTies(heap)
      ensures next == if heap == {} then None else Some(Least(heap))
    {
      if heap == {} {
        return None;
      }
      LeastExists(heap);
      var f :| f in heap && IsLeast(f, heap);
      LeastIsUnique(heap, f);
      next := Some(f);
    }

    /** Pushes the next follow-up, unless the heap is full. */
    method ScheduleNext(now: real, order: nat, plan: seq<Stage>, draw: Draw)
      requires plan != [] && Fair(draw) && plan[0].low <= plan[0].high
      modifies this`heap, this`counter, this`skippedFollowUps
      ensures View().sim == Schedule(old(View()).sim, maxPending, now, order, plan, draw)
    {
      if |heap| >= maxPending {
        skippedFollowUps := skippedFollowUps + 1;
        return;
      }
      heap := heap + {FollowUp(now + draw(counter, plan[0].low, plan[0].high), counter, plan[0].eventType, order, plan[1..])};
      counter := counter + 1;
    }
  }
}
