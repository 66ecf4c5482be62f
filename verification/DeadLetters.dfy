/** The dead-letter buffer: bounded, flushed in the background, with several flushes possibly in
    flight at once. */
module DeadLetters {
  /** A rejected input, numbered in order of arrival. */
  datatype Letter = Letter(number: nat, text: string)

  datatype Writer = Writer(buffer: seq<Letter>, written: nat, dropped: nat)

  /** History: what arrived, what each flush in flight carries, what was stored, what was lost. */
  datatype State = State(
    writer: Writer,
    arrived: seq<Letter>,
    inFlight: seq<seq<Letter>>,
    stored: multiset<Letter>,
    lost: multiset<Letter>)

  datatype Action = Add(text: string) | BeginFlush | Flushed(index: nat) | FlushFailed(index: nat)

  function Initial(): State {
    State(Writer([], 0, 0), [], [], multiset{}, multiset{})
  }

  function Added(w: Writer, maxBuffer: nat, x: Letter): Writer {
    if |w.buffer| >= maxBuffer then w.(dropped := w.dropped + 1) else w.(buffer := w.buffer + [x])
  }

  /** How many of the failed items fit back in. */
  function Room(w: Writer, maxBuffer: nat, items: seq<Letter>): (room: nat)
    ensures room <= |items|
  {
    var room := maxBuffer - |w.buffer|;
    if room > |items| then |items| else if room < 0 then 0 else room
  }

  function Restored(w: Writer, maxBuffer: nat, items: seq<Letter>): Writer {
    var kept := Room(w, maxBuffer, items);
    w.(buffer := items[..kept] + w.buffer, dropped := w.dropped + |items| - kept)
  }

  function Without<T>(xs: seq<T>, i: nat): seq<T>
    requires i < |xs|
  {
    xs[..i] + xs[i + 1..]
  }

  predicate Enabled(s: State, a: Action) {
    match a
    case Add(_) => true
    case BeginFlush => true
    case Flushed(i) => i < |s.inFlight|
    case FlushFailed(i) => i < |s.inFlight|
  }

  function Step(s: State, maxBuffer: nat, a: Action): State
    requires Enabled(s, a)
  {
    match a
    case Add(text) =>
      var x := Letter(|s.arrived|, text);
      s.(writer := Added(s.writer, maxBuffer, x), arrived := s.arrived + [x],
         lost := if |s.writer.buffer| >= maxBuffer then s.lost + multiset{x} else s.lost)
    case BeginFlush =>
      if s.writer.buffer == [] then s
      else s.(writer := s.writer.(buffer := []), inFlight := s.inFlight + [s.writer.buffer])
    case Flushed(i) =>
      s.(writer := s.writer.(written := s.writer.written + |s.inFlight[i]|),
         inFlight := Without(s.inFlight, i), stored := s.stored + multiset(s.inFlight[i]))
    case FlushFailed(i) =>
      var items := s.inFlight[i];
      s.(writer := Restored(s.writer, maxBuffer, items), inFlight := Without(s.inFlight, i),
         lost := s.lost + multiset(items[Room(s.writer, maxBuffer, items)..]))
  }

  // ---- Conservation --------------------------------------------------------------------------

  function Flat(xs: seq<seq<Letter>>): seq<Letter> {
    if xs == [] then [] else xs[0] + Flat(xs[1..])
  }

  /** Every letter that arrived is stored, lost, buffered or in flight, as often as it arrived. */
  ghost predicate Conserved(s: State) {
    multiset(s.arrived) == s.stored + s.lost + multiset(s.writer.buffer) + multiset(Flat(s.inFlight))
  }

  ghost predicate Inv(s: State, maxBuffer: nat) {
    && |s.writer.buffer| <= maxBuffer
    && s.writer.written == |s.stored| && s.writer.dropped == |s.lost|
    && (forall i :: 0 <= i < |s.inFlight| ==> s.inFlight[i] != [])
    && Conserved(s)
  }

  lemma {:induction false} FlatWithout(xs: seq<seq<Letter>>, i: nat)
    requires i < |xs|
    ensures multiset(Flat(xs)) == multiset(Flat(Without(xs, i))) + multiset(xs[i])
    decreases i
  {
    if i == 0 {
      assert Without(xs, 0) == xs[1..];
    } else {
      FlatWithout(xs[1..], i - 1);
      assert Without(xs, i)[1..] == Without(xs[1..], i - 1) && Without(xs, i)[0] == xs[0];
    }
  }

  lemma {:induction false} FlatAppend(xs: seq<seq<Letter>>, items: seq<Letter>)
    ensures Flat(xs + [items]) == Flat(xs) + items
  {
    if xs == [] {
      assert xs + [items] == [items];
      assert Flat([items]) == items + Flat([]);
    } else {
      assert (xs + [items])[1..] == xs[1..] + [items];
      FlatAppend(xs[1..], items);
    }
  }

  lemma Regroup(flight: multiset<Letter>, others: multiset<Letter>, items: multiset<Letter>, kept: multiset<Letter>,
                gone: multiset<Letter>, rest: multiset<Letter>, buffer: multiset<Letter>)
    requires flight == others + items && items == kept + gone
    ensures rest + buffer + flight == (rest + gone) + (kept + buffer) + others
  {
  }

  lemma FailureConserves(s: State, maxBuffer: nat, i: nat)
    requires Inv(s, maxBuffer) && i < |s.inFlight|
    ensures Conserved(Step(s, maxBuffer, FlushFailed(i)))
  {
    var items := s.inFlight[i];
    var kept := Room(s.writer, maxBuffer, items);
    FlatWithout(s.inFlight, i);
    hide Flat, Without;
    assert items == items[..kept] + items[kept..];
    Regroup(multiset(Flat(s.inFlight)), multiset(Flat(Without(s.inFlight, i))), multiset(items), multiset(items[..kept]),
            multiset(items[kept..]), s.stored + s.lost, multiset(s.writer.buffer));
    var lost, buffer := multiset(items[kept..]), multiset(items[..kept]) + multiset(s.writer.buffer);
    assert multiset(items[..kept] + s.writer.buffer) == buffer;
    assert (s.stored + s.lost) + lost == s.stored + (s.lost + lost);
  }

  lemma FailureKeepsInv(s: State, maxBuffer: nat, i: nat)
    requires Inv(s, maxBuffer) && i < |s.inFlight|
    ensures Inv(Step(s, maxBuffer, FlushFailed(i)), maxBuffer)
  {
    FailureConserves(s, maxBuffer, i);
    hide Conserved;
  }

  lemma FlushedConserves(s: State, maxBuffer: nat, i: nat)
    requires Inv(s, maxBuffer) && i < |s.inFlight|
    ensures Conserved(Step(s, maxBuffer, Flushed(i)))
  {
    FlatWithout(s.inFlight, i);
    hide Flat, Without;
    Regroup(multiset(Flat(s.inFlight)), multiset(Flat(Without(s.inFlight, i))), multiset(s.inFlight[i]), multiset{},
            multiset(s.inFlight[i]), s.stored + s.lost, multiset(s.writer.buffer));
    var items := multiset(s.inFlight[i]);
    assert (s.stored + s.lost) + items == (s.stored + items) + s.lost;
    assert multiset{} + multiset(s.writer.buffer) == multiset(s.writer.buffer);
  }

  lemma FlushedKeepsInv(s: State, maxBuffer: nat, i: nat)
    requires Inv(s, maxBuffer) && i < |s.inFlight|
    ensures Inv(Step(s, maxBuffer, Flushed(i)), maxBuffer)
  {
    FlushedConserves(s, maxBuffer, i);
    hide Conserved;
  }

  lemma MiddleMoves(buffer: seq<Letter>, flight: multiset<Letter>, rest: multiset<Letter>)
    ensures rest + multiset(buffer) + flight == rest + multiset{} + (flight + multiset(buffer))
  {
  }

  lemma BeginKeepsInv(s: State, maxBuffer: nat)
    requires Inv(s, maxBuffer)
    ensures Inv(Step(s, maxBuffer, BeginFlush), maxBuffer)
  {
    FlatAppend(s.inFlight, s.writer.buffer);
    MiddleMoves(s.writer.buffer, multiset(Flat(s.inFlight)), s.stored + s.lost);
    hide Flat;
  }

  lemma AddKeepsInv(s: State, maxBuffer: nat, text: string)
    requires Inv(s, maxBuffer)
    ensures Inv(Step(s, maxBuffer, Add(text)), maxBuffer)
  {
    hide Flat;
  }

  lemma StepKeepsInv(s: State, maxBuffer: nat, a: Action)
    requires Inv(s, maxBuffer) && Enabled(s, a)
    ensures Inv(Step(s, maxBuffer, a), maxBuffer)
  {
    match a {
      case Add(text) => AddKeepsInv(s, maxBuffer, text);
      case BeginFlush => BeginKeepsInv(s, maxBuffer);
      case Flushed(i) => FlushedKeepsInv(s, maxBuffer, i);
      case FlushFailed(i) => FailureKeepsInv(s, maxBuffer, i);
    }
    hide Inv, Step;
  }

  function Run(s: State, maxBuffer: nat, actions: seq<Action>): State
    requires Legal(s, maxBuffer, actions)
    decreases |actions|
  {
    if actions == [] then s else Run(Step(s, maxBuffer, actions[0]), maxBuffer, actions[1..])
  }

  predicate Legal(s: State, maxBuffer: nat, actions: seq<Action>)
    decreases |actions|
  {
    actions != [] ==> Enabled(s, actions[0]) && Legal(Step(s, maxBuffer, actions[0]), maxBuffer, actions[1..])
  }

  lemma {:induction false} RunKeepsInv(s: State, maxBuffer: nat, actions: seq<Action>)
    requires Inv(s, maxBuffer) && Legal(s, maxBuffer, actions)
    ensures Inv(Run(s, maxBuffer, actions), maxBuffer)
    decreases |actions|
  {
    if actions != [] {
      StepKeepsInv(s, maxBuffer, actions[0]);
      hide Inv, Step, Enabled;
      RunKeepsInv(Step(s, maxBuffer, actions[0]), maxBuffer, actions[1..]);
    }
  }

  /** For every interleaving of arrivals, flushes, successes and failures: what arrived equals what was
      stored, lost, buffered and is in flight, letter by letter and in the counters, and the buffer
      never exceeds its bound. */
  lemma NothingVanishes(maxBuffer: nat, actions: seq<Action>)
    requires Legal(Initial(), maxBuffer, actions)
    ensures var s := Run(Initial(), maxBuffer, actions);
            && multiset(s.arrived) == s.stored + s.lost + multiset(s.writer.buffer) + multiset(Flat(s.inFlight))
            && |s.arrived| == s.writer.written + s.writer.dropped + |s.writer.buffer| + |Flat(s.inFlight)|
            && |s.writer.buffer| <= maxBuffer
  {
    RunKeepsInv(Initial(), maxBuffer, actions);
    var s := Run(Initial(), maxBuffer, actions);
    hide Run, Legal, Flat;
    assert |multiset(s.arrived)| == |s.stored| + |s.lost| + |multiset(s.writer.buffer)| + |multiset(Flat(s.inFlight))|;
  }

  // ---- What is lost, and what is not ---------------------------------------------------------------

  /** Letters that are neither stored nor lost. */
  function Outstanding(s: State): nat {
    |s.writer.buffer| + |Flat(s.inFlight)|
  }

  /** Whenever a letter arrives, it and all that are outstanding fit the buffer. */
  ghost predicate Fits(s: State, maxBuffer: nat, actions: seq<Action>)
    requires Legal(s, maxBuffer, actions)
    decreases |actions|
  {
    actions != [] ==>
      && (actions[0].Add? ==> Outstanding(s) < maxBuffer)
      && Fits(Step(s, maxBuffer, actions[0]), maxBuffer, actions[1..])
  }

  lemma WithoutIsShorter(xs: seq<seq<Letter>>, i: nat)
    requires i < |xs|
    ensures |Flat(Without(xs, i))| + |xs[i]| == |Flat(xs)|
  {
    FlatWithout(xs, i);
    hide Flat, Without;
    assert |multiset(Flat(xs))| == |multiset(Flat(Without(xs, i)))| + |multiset(xs[i])|;
  }

  lemma StepWithinBound(s: State, maxBuffer: nat, a: Action)
    requires Enabled(s, a) && Outstanding(s) <= maxBuffer && (a.Add? ==> Outstanding(s) < maxBuffer)
    ensures Step(s, maxBuffer, a).lost == s.lost && Outstanding(Step(s, maxBuffer, a)) <= maxBuffer
  {
    match a {
      case Add(_) =>
      case BeginFlush => FlatAppend(s.inFlight, s.writer.buffer);
      case Flushed(i) => WithoutIsShorter(s.inFlight, i);
      case FlushFailed(i) =>
        WithoutIsShorter(s.inFlight, i);
        assert s.inFlight[i][|s.inFlight[i]|..] == [];
    }
    hide Flat, Without;
  }

  lemma {:induction false} NothingLostFrom(s: State, maxBuffer: nat, actions: seq<Action>)
    requires Legal(s, maxBuffer, actions) && Fits(s, maxBuffer, actions) && Outstanding(s) <= maxBuffer
    ensures Run(s, maxBuffer, actions).lost == s.lost
    decreases |actions|
  {
    if actions != [] {
      StepWithinBound(s, maxBuffer, actions[0]);
      hide Step, Outstanding, Enabled;
      NothingLostFrom(Step(s, maxBuffer, actions[0]), maxBuffer, actions[1..]);
    }
  }

  /** Nothing is lost, whatever fails and however flushes overlap, in a run in which every letter finds room
      beside all that are buffered or in flight. */
  lemma NothingLostWhileItFits(maxBuffer: nat, actions: seq<Action>)
    requires Legal(Initial(), maxBuffer, actions) && Fits(Initial(), maxBuffer, actions)
    ensures Run(Initial(), maxBuffer, actions).lost == multiset{}
  {
    NothingLostFrom(Initial(), maxBuffer, actions);
  }

  /** What a step loses, in every state: an arrival is lost exactly if the buffer is full, and a failed
      flush loses its newest letters, as many as find no room. */
  lemma LossesExactly(s: State, maxBuffer: nat, a: Action)
    requires Inv(s, maxBuffer) && Enabled(s, a)
    ensures var s' := Step(s, maxBuffer, a); var buffer := s.writer.buffer;
            match a
            case Add(text) =>
              var x := Letter(|s.arrived|, text);
              if |buffer| == maxBuffer then s'.lost == s.lost + multiset{x} && s'.writer.buffer == buffer
              else s'.lost == s.lost && s'.writer.buffer == buffer + [x]
            case FlushFailed(i) =>
              var items := s.inFlight[i];
              if |items| + |buffer| <= maxBuffer then s'.lost == s.lost && s'.writer.buffer == items + buffer
              else
                && s'.writer.buffer == items[..maxBuffer - |buffer|] + buffer
                && s'.lost == s.lost + multiset(items[maxBuffer - |buffer|..])
            case _ => s'.lost == s.lost
  {
    if a.FlushFailed? {
      var items := s.inFlight[a.index];
      assert items[..|items|] == items && items[|items|..] == [];
    }
  }

  /** Once flushes succeed, everything buffered or in flight gets stored. */
  lemma {:induction false} FlushesStoreEverything(s: State, maxBuffer: nat) returns (more: seq<Action>)
    ensures Legal(s, maxBuffer, more)
    ensures var s' := Run(s, maxBuffer, more);
            && s'.writer.buffer == [] && s'.inFlight == [] && s'.lost == s.lost && s'.arrived == s.arrived
            && s'.stored == s.stored + multiset(s.writer.buffer) + multiset(Flat(s.inFlight))
    decreases |s.writer.buffer|, |s.inFlight|
  {
    if s.writer.buffer != [] {
      var s' := Step(s, maxBuffer, BeginFlush);
      FlatAppend(s.inFlight, s.writer.buffer);
      var rest := FlushesStoreEverything(s', maxBuffer);
      more := [BeginFlush] + rest;
      assert multiset(Flat(s'.inFlight)) == multiset(Flat(s.inFlight)) + multiset(s.writer.buffer);
      assert more[0] == BeginFlush && more[1..] == rest;
    } else if s.inFlight != [] {
      var s' := Step(s, maxBuffer, Flushed(0));
      FlatWithout(s.inFlight, 0);
      var rest := FlushesStoreEverything(s', maxBuffer);
      more := [Flushed(0)] + rest;
      assert more[0] == Flushed(0) && more[1..] == rest;
    } else {
      more := [];
    }
    hide Flat, Step;
  }

  // ---- Order -----------------------------------------------------------------------------------

  /** In order of arrival, and from before `bound`. */
  ghost predicate InOrder(xs: seq<Letter>, bound: nat) {
    && (forall i, j :: 0 <= i < j < |xs| ==> xs[i].number < xs[j].number)
    && (forall i :: 0 <= i < |xs| ==> xs[i].number < bound)
  }

  /** Flushes in flight, oldest first, and then the buffer hold letters in order of arrival. */
  ghost predicate OrderInv(s: State) {
    InOrder(Flat(s.inFlight) + s.writer.buffer, |s.arrived|)
  }

  lemma {:induction false} FlatConcat(xs: seq<seq<Letter>>, ys: seq<seq<Letter>>)
    ensures Flat(xs + ys) == Flat(xs) + Flat(ys)
  {
    if xs == [] {
      assert xs + ys == ys;
    } else {
      assert (xs + ys)[1..] == xs[1..] + ys && (xs + ys)[0] == xs[0];
      FlatConcat(xs[1..], ys);
    }
  }

  lemma FlatSplit(xs: seq<seq<Letter>>, i: nat)
    requires i < |xs|
    ensures Flat(xs) == Flat(xs[..i]) + xs[i] + Flat(xs[i + 1..])
    ensures Flat(Without(xs, i)) == Flat(xs[..i]) + Flat(xs[i + 1..])
  {
    assert Flat(xs[i..]) == xs[i] + Flat(xs[i + 1..]) by {
      assert xs[i..][1..] == xs[i + 1..];
    }
    assert xs == xs[..i] + xs[i..];
    hide Flat;
    FlatConcat(xs[..i], xs[i..]);
    FlatConcat(xs[..i], xs[i + 1..]);
  }

  /** Leaving out a middle part keeps the order. */
  lemma LeaveOut(a: seq<Letter>, b: seq<Letter>, c: seq<Letter>, bound: nat)
    requires InOrder(a + b + c, bound)
    ensures InOrder(a + c, bound)
  {
    var whole, rest := a + b + c, a + c;
    assert forall i :: 0 <= i < |rest| ==> rest[i] == whole[if i < |a| then i else i + |b|];
  }

  lemma OneMore(xs: seq<Letter>, buffer: seq<Letter>, x: Letter, bound: nat)
    requires InOrder(xs + buffer, bound) && x.number == bound
    ensures InOrder(xs + buffer, bound + 1) && InOrder(xs + (buffer + [x]), bound + 1)
  {
    assert xs + (buffer + [x]) == (xs + buffer) + [x];
  }

  lemma FlushedKeepsOrder(s: State, maxBuffer: nat, i: nat)
    requires Inv(s, maxBuffer) && OrderInv(s) && i < |s.inFlight|
    ensures OrderInv(Step(s, maxBuffer, Flushed(i)))
  {
    var older, items, newer := Flat(s.inFlight[..i]), s.inFlight[i], Flat(s.inFlight[i + 1..]);
    hide Inv, InOrder;
    FlatSplit(s.inFlight, i);
    hide Flat, Without;
    Assoc(older, items, newer, s.writer.buffer);
    LeaveOut(older, items, newer + s.writer.buffer, |s.arrived|);
  }

  lemma Assoc(a: seq<Letter>, b: seq<Letter>, c: seq<Letter>, d: seq<Letter>)
    ensures a + b + c + d == a + b + (c + d) && a + c + d == a + (c + d)
  {
  }

  lemma DropMiddle(older: seq<Letter>, items: seq<Letter>, kept: nat, buffer: seq<Letter>, bound: nat)
    requires InOrder(older + items + buffer, bound) && kept <= |items|
    ensures InOrder(older + (items[..kept] + buffer), bound)
  {
    hide InOrder;
    assert older + items + buffer == (older + items[..kept]) + items[kept..] + buffer;
    LeaveOut(older + items[..kept], items[kept..], buffer, bound);
    assert older + (items[..kept] + buffer) == (older + items[..kept]) + buffer;
  }

  lemma FailureKeepsOrder(s: State, maxBuffer: nat)
    requires Inv(s, maxBuffer) && OrderInv(s) && s.inFlight != []
    ensures OrderInv(Step(s, maxBuffer, FlushFailed(|s.inFlight| - 1)))
  {
    var i := |s.inFlight| - 1;
    FlatSplit(s.inFlight, i);
    assert Flat(s.inFlight[i + 1..]) == [];
    var older, items := Flat(s.inFlight[..i]), s.inFlight[i];
    hide Flat, InOrder, Without, Inv, Room;
    assert older + items + [] == older + items && older + [] == older;
    DropMiddle(older, items, Room(s.writer, maxBuffer, items), s.writer.buffer, |s.arrived|);
  }

  /** Order survives every step but the failure of an older flush. */
  lemma StepKeepsOrder(s: State, maxBuffer: nat, a: Action)
    requires Inv(s, maxBuffer) && OrderInv(s) && Enabled(s, a)
    requires a.FlushFailed? ==> a.index == |s.inFlight| - 1
    ensures OrderInv(Step(s, maxBuffer, a))
  {
    hide Flat, InOrder;
    match a {
      case Add(text) => OneMore(Flat(s.inFlight), s.writer.buffer, Letter(|s.arrived|, text), |s.arrived|);
      case BeginFlush =>
        FlatAppend(s.inFlight, s.writer.buffer);
        assert Flat(s.inFlight) + s.writer.buffer + [] == Flat(s.inFlight) + s.writer.buffer;
      case Flushed(i) => FlushedKeepsOrder(s, maxBuffer, i);
      case FlushFailed(i) => FailureKeepsOrder(s, maxBuffer);
    }
  }

  /** A failed flush that is alone in flight: its oldest letters go back ahead of everything that
      arrived since, in order, and what does not fit is the newest of them. */
  lemma FailureRestoresOldest(s: State, maxBuffer: nat)
    requires Inv(s, maxBuffer) && OrderInv(s) && |s.inFlight| == 1
    ensures var items := s.inFlight[0]; var s' := Step(s, maxBuffer, FlushFailed(0));
            && InOrder(s'.writer.buffer, |s.arrived|)
            && exists kept: nat ::
                 && kept <= |items| && s'.writer.buffer == items[..kept] + s.writer.buffer
                 && s'.lost == s.lost + multiset(items[kept..])
                 && (kept < |items| ==> |s'.writer.buffer| == maxBuffer)
  {
    StepKeepsOrder(s, maxBuffer, FlushFailed(0));
    var s' := Step(s, maxBuffer, FlushFailed(0));
    assert Without(s.inFlight, 0) == [] && Flat([]) + s'.writer.buffer == s'.writer.buffer;
    var kept := Room(s.writer, maxBuffer, s.inFlight[0]);
    assert s'.writer.buffer == s.inFlight[0][..kept] + s.writer.buffer;
  }

  /** A letter put back behind a younger one is out of order. */
  lemma PutBackBehind(older: seq<Letter>, items: seq<Letter>, newer: seq<Letter>, kept: nat, buffer: seq<Letter>, bound: nat)
    requires InOrder(older + items + newer + buffer, bound) && newer != [] && 0 < kept <= |items|
    ensures !InOrder(older + newer + (items[..kept] + buffer), bound)
  {
    var before, after := older + items + newer + buffer, older + newer + (items[..kept] + buffer);
    var o, n := |older|, |newer|;
    assert before[o] == items[0] && before[o + |items|] == newer[0];
    assert after[o] == newer[0] && after[o + n] == items[0];
  }

  /** An older flush that fails while there is room breaks the order. */
  lemma OlderFailureReorders(s: State, maxBuffer: nat, i: nat)
    requires Inv(s, maxBuffer) && OrderInv(s) && i < |s.inFlight| - 1 && Room(s.writer, maxBuffer, s.inFlight[i]) > 0
    ensures !OrderInv(Step(s, maxBuffer, FlushFailed(i)))
  {
    FlatSplit(s.inFlight, i);
    var older, items, newer := Flat(s.inFlight[..i]), s.inFlight[i], Flat(s.inFlight[i + 1..]);
    var kept := Room(s.writer, maxBuffer, items);
    assert newer != [] by {
      assert s.inFlight[i + 1..][0] == s.inFlight[i + 1];
    }
    hide Flat, InOrder, Without;
    PutBackBehind(older, items, newer, kept, s.writer.buffer, |s.arrived|);
    assert Flat(s.inFlight) + s.writer.buffer == older + items + newer + s.writer.buffer;
  }

  /** Nothing of the failed flush fits back in. */
  lemma RoomlessKeepsOrder(s: State, maxBuffer: nat, i: nat)
    requires Inv(s, maxBuffer) && OrderInv(s) && i < |s.inFlight| && Room(s.writer, maxBuffer, s.inFlight[i]) == 0
    ensures OrderInv(Step(s, maxBuffer, FlushFailed(i)))
  {
    FlushedKeepsOrder(s, maxBuffer, i);
    hide Flat, InOrder, Without, Inv;
    assert s.inFlight[i][..0] + s.writer.buffer == s.writer.buffer;
  }

  /** The failed flush is the youngest in flight, or nothing of it fits back in. */
  predicate InPlace(s: State, maxBuffer: nat, a: Action)
    requires Enabled(s, a)
  {
    a.FlushFailed? ==> a.index == |s.inFlight| - 1 || Room(s.writer, maxBuffer, s.inFlight[a.index]) == 0
  }

  /** A step keeps the order of arrival if and only if no older flush is put back. */
  lemma StepKeepsOrderExactly(s: State, maxBuffer: nat, a: Action)
    requires Inv(s, maxBuffer) && OrderInv(s) && Enabled(s, a)
    ensures OrderInv(Step(s, maxBuffer, a)) <==> InPlace(s, maxBuffer, a)
  {
    hide OrderInv, Inv, Step, Room;
    if !a.FlushFailed? || a.index == |s.inFlight| - 1 {
      StepKeepsOrder(s, maxBuffer, a);
    } else if Room(s.writer, maxBuffer, s.inFlight[a.index]) == 0 {
      RoomlessKeepsOrder(s, maxBuffer, a.index);
    } else {
      OlderFailureReorders(s, maxBuffer, a.index);
    }
  }

  ghost predicate AlwaysOrdered(s: State, maxBuffer: nat, actions: seq<Action>)
    requires Legal(s, maxBuffer, actions)
    decreases |actions|
  {
    OrderInv(s) && (actions != [] ==> AlwaysOrdered(Step(s, maxBuffer, actions[0]), maxBuffer, actions[1..]))
  }

  ghost predicate AlwaysInPlace(s: State, maxBuffer: nat, actions: seq<Action>)
    requires Legal(s, maxBuffer, actions)
    decreases |actions|
  {
    actions != [] ==>
      InPlace(s, maxBuffer, actions[0]) && AlwaysInPlace(Step(s, maxBuffer, actions[0]), maxBuffer, actions[1..])
  }

  lemma {:induction false} OrderedRun(s: State, maxBuffer: nat, actions: seq<Action>)
    requires Inv(s, maxBuffer) && Legal(s, maxBuffer, actions) && OrderInv(s)
    ensures AlwaysOrdered(s, maxBuffer, actions) <==> AlwaysInPlace(s, maxBuffer, actions)
    decreases |actions|
  {
    if actions != [] {
      StepKeepsInv(s, maxBuffer, actions[0]);
      StepKeepsOrderExactly(s, maxBuffer, actions[0]);
      hide OrderInv, Inv, Step, Enabled, InPlace;
      var s' := Step(s, maxBuffer, actions[0]);
      if OrderInv(s') {
        OrderedRun(s', maxBuffer, actions[1..]);
      }
    }
  }

  /** Letters in flight and in the buffer stay in order of arrival throughout a run if and only if
      every flush that fails is the youngest in flight or finds no room. With one flush at a time,
      which is how the background task works, that is always so. */
  lemma OrderedExactly(maxBuffer: nat, actions: seq<Action>)
    requires Legal(Initial(), maxBuffer, actions)
    ensures AlwaysOrdered(Initial(), maxBuffer, actions) <==> AlwaysInPlace(Initial(), maxBuffer, actions)
  {
    OrderedRun(Initial(), maxBuffer, actions);
  }

  class DeadLetterWriter {
    const maxBuffer: nat
    var buffer: seq<Letter>
    var written: nat
    var dropped: nat

    ghost function View(): Writer
      reads this
    {
      Writer(buffer, written, dropped)
    }

    ghost predicate Valid()
      reads this
    {
      |buffer| <= maxBuffer
    }

    constructor (maxBuffer: nat)
      ensures Valid() && this.maxBuffer == maxBuffer && View() == Writer([], 0, 0)
    {
      this.maxBuffer := maxBuffer;
      buffer, written, dropped := [], 0, 0;
    }

    /** A letter that finds the buffer full is only counted. */
    method Add(x: Letter)
      requires Valid()
      modifies this
      ensures Valid() && View() == Added(old(View()), maxBuffer, x)
    {
      if |buffer| >= maxBuffer {
        dropped := dropped + 1;
        return;
      }
      buffer := buffer + [x];
    }

    /** The buffer is swapped for an empty one before the statement is awaited. */
    method BeginFlush() returns (items: seq<Letter>)
      requires Valid()
      modifies this
      ensures Valid() && items == old(buffer) && View() == old(View()).(buffer := [])
    {
      items := buffer;
      buffer := [];
    }

    method EndFlush(items: seq<Letter>, ok: bool)
      requires Valid()
      modifies this
      ensures Valid()
      ensures ok ==> View() == old(View()).(written := old(written) + |items|)
      ensures !ok ==> View() == Restored(old(View()), maxBuffer, items)
    {
      if ok {
        written := written + |items|;
      } else {
        var room := maxBuffer - |buffer|;
        if |items| > room {
          dropped := dropped + (|items| - room);
        }
        buffer := items[..if room > |items| then |items| else room] + buffer;
      }
    }
  }
}
