/** From the producer to the tables: a sender that resends whole batches until they are acknowledged,
    the batch endpoint, and the writer beside its clock. Resending makes delivery at least once, the
    writer makes it at most once. */
module Delivery {
  import opened Events
  import opened Tables
  import opened Bisection
  import opened Writer
  import opened Timed
  import EO = ExactlyOnce
  import R = Retention
  import WP = WriterPromises

  /** What a producer sends: an order event, or something that is no event at all. */
  datatype Item = Order(event: Event) | Junk(payload: nat)

  datatype Config = Config(maxBatch: nat, maxBuffer: nat, maxPerRequest: nat)

  /** `hand` is the batch `send_with_retry` is working on. */
  datatype Producer = Producer(buffer: seq<Item>, hand: Option<seq<Item>>, stopping: bool)

  /** The endpoint is idle, awaits the completion of the accepted request at `index`, or had nothing to
      wait for; `at` is when it validated the batch. */
  datatype Call = NoCall | Waiting(index: nat, at: int) | Answered(at: int)

  /** Why an item will not be sent any more, other than its acknowledgement. */
  datatype Losses = Losses(bufferFull: seq<Item>, unretryable: seq<Item>, abandoned: seq<Item>)

  /** A rejected item and, as history, the batch it came in. */
  datatype Letter = Letter(batch: nat, item: Item)

  /** A batch number and the time of a validation. */
  datatype Stamp = Stamp(batch: nat, at: int)

  /** History: every batch taken from the buffer; the posts that were not refused, the replies that were
      lost after one, and the posts that were acknowledged. */
  datatype Books = Books(
    produced: seq<Item>,
    acknowledged: seq<Item>,
    batches: seq<seq<Item>>,
    posts: seq<Stamp>,
    lostReplies: seq<Stamp>,
    finished: seq<Stamp>)

  datatype Chain = Chain(
    producer: Producer, call: Call, server: World, deadLettered: seq<Letter>, losses: Losses, books: Books)

  datatype Act =
    | Produce(items: seq<Item>)
    | Take
    | Post(id: nat)
    | Acknowledge
    | LoseReply
    | StopProducer
    | Abandon
    | Server(move: Move)

  // ---- Validation at the time of the post ----------------------------------------------------------

  predicate Accepts(b: TimeBounds, i: Item) {
    i.Order? && WithinTimeBounds(i.event.occurredAt, b)
  }

  function EventsIn(b: TimeBounds, items: seq<Item>): seq<Event> {
    if items == [] then []
    else if Accepts(b, items[0]) then [items[0].event] + EventsIn(b, items[1..])
    else EventsIn(b, items[1..])
  }

  function Rejected(b: TimeBounds, batch: nat, items: seq<Item>): seq<Letter> {
    if items == [] then []
    else if Accepts(b, items[0]) then Rejected(b, batch, items[1..])
    else [Letter(batch, items[0])] + Rejected(b, batch, items[1..])
  }

  /** How many of the oldest buffered items an enqueue drops. */
  function Overflow(buffer: seq<Item>, maxBuffer: nat): (n: nat)
    ensures n <= |buffer|
    ensures |buffer[n..]| == maxBuffer || (n == 0 && |buffer| <= maxBuffer)
  {
    if |buffer| > maxBuffer then |buffer| - maxBuffer else 0
  }

  function Smaller(a: nat, b: nat): (n: nat)
    ensures n <= a && n <= b && (n == a || n == b)
  {
    if a < b then a else b
  }

  // ---- Steps -----------------------------------------------------------------------------------------

  predicate Ready(s: Chain, a: Act) {
    match a
    case Produce(_) => true
    case Take => s.producer.hand.None? && s.producer.buffer != []
    case Post(_) => s.producer.hand.Some? && s.call.NoCall?
    case Acknowledge =>
      s.producer.hand.Some? && (s.call.Answered? || (s.call.Waiting? && s.call.index < |s.server.writer.receipts|))
    case LoseReply => !s.call.NoCall?
    case StopProducer => true
    case Abandon => s.producer.hand.Some? && s.call.NoCall? && s.producer.stopping
    case Server(_) => true
  }

  ghost predicate Allowed(rc: R.Config, s: Chain, a: Act) {
    Ready(s, a) && (a.Server? ==> TimedEnabled(rc, s.server, a.move))
  }

  function Current(s: Chain): nat {
    if s.books.batches == [] then 0 else |s.books.batches| - 1
  }

  function RequestOf(rc: R.Config, s: Chain, id: nat, items: seq<Item>): Request {
    Request(id, EventsIn(BoundsAt(rc, s.server.clock), items))
  }

  /** The endpoint submits the valid events before it dead-letters the invalid items. */
  function Posted(cfg: Config, rc: R.Config, refused: Filter, lim: Limits, s: Chain, id: nat, items: seq<Item>): Chain {
    var r := RequestOf(rc, s, id, items);
    var b, now := Current(s), s.server.clock;
    var letters := s.deadLettered + Rejected(BoundsAt(rc, now), b, items);
    var books := s.books.(posts := s.books.posts + [Stamp(b, now)]);
    if |items| > cfg.maxPerRequest then
      s.(producer := s.producer.(hand := None), losses := s.losses.(unretryable := s.losses.unretryable + items))
    else
      match Submit(lim, s.server.writer.queue, r).1
      case Queued =>
        s.(server := TimedStep(rc, refused, lim, s.server, Ingest(r)), deadLettered := letters, books := books,
           call := Waiting(|s.server.writer.accepted|, now))
      case CompletedEmpty => s.(deadLettered := letters, books := books, call := Answered(now))
      case QueueFull => s
      case WriterStopped => s
  }

  function ChainStep(cfg: Config, rc: R.Config, refused: Filter, lim: Limits, s: Chain, a: Act): Chain {
    var p := s.producer;
    match a
    case Produce(items) =>
      var all := p.buffer + items;
      var n := Overflow(all, cfg.maxBuffer);
      s.(producer := p.(buffer := all[n..]), books := s.books.(produced := s.books.produced + items),
         losses := s.losses.(bufferFull := s.losses.bufferFull + all[..n]))
    case Take =>
      var n := Smaller(cfg.maxBatch, |p.buffer|);
      s.(producer := p.(buffer := p.buffer[n..], hand := Some(p.buffer[..n])),
         books := s.books.(batches := s.books.batches + [p.buffer[..n]]))
    case Post(id) => if p.hand.None? then s else Posted(cfg, rc, refused, lim, s, id, p.hand.value)
    case Acknowledge =>
      if p.hand.None? || s.call.NoCall? then s
      else
        s.(producer := p.(hand := None), call := NoCall,
           books := s.books.(acknowledged := s.books.acknowledged + p.hand.value,
                             finished := s.books.finished + [Stamp(Current(s), s.call.at)]))
    case LoseReply =>
      if s.call.NoCall? then s
      else s.(call := NoCall, books := s.books.(lostReplies := s.books.lostReplies + [Stamp(Current(s), s.call.at)]))
    case StopProducer => s.(producer := p.(stopping := true))
    case Abandon =>
      if p.hand.None? then s
      else s.(producer := p.(hand := None), losses := s.losses.(abandoned := s.losses.abandoned + p.hand.value))
    case Server(x) => s.(server := TimedStep(rc, refused, lim, s.server, x))
  }

  function Start(clock: int, store: Store): Chain {
    Chain(Producer([], None, false), NoCall, Begin(clock, store), [], Losses([], [], []), Books([], [], [], [], [], []))
  }

  // ---- Conservation of items ---------------------------------------------------------------------------

  function Hand(p: Producer): seq<Item> {
    if p.hand.Some? then p.hand.value else []
  }

  function Accounted(p: Producer, acknowledged: seq<Item>, l: Losses): multiset<Item> {
    multiset(p.buffer) + multiset(Hand(p)) + multiset(acknowledged)
      + multiset(l.bufferFull) + multiset(l.unretryable) + multiset(l.abandoned)
  }

  /** Every item produced is buffered, in hand, acknowledged, or counted as lost, as often as it was
      produced. */
  ghost predicate Conserved(s: Chain) {
    multiset(s.books.produced) == Accounted(s.producer, s.books.acknowledged, s.losses)
  }

  lemma BufferMoves(all: seq<Item>, n: nat)
    requires n <= |all|
    ensures multiset(all) == multiset(all[..n]) + multiset(all[n..])
  {
    assert all == all[..n] + all[n..];
  }

  lemma BufferGrows(p: Producer, acknowledged: seq<Item>, l: Losses, items: seq<Item>, n: nat)
    requires n <= |p.buffer + items|
    ensures Accounted(p.(buffer := (p.buffer + items)[n..]), acknowledged, l.(bufferFull := l.bufferFull + (p.buffer + items)[..n]))
         == Accounted(p, acknowledged, l) + multiset(items)
  {
    var all := p.buffer + items;
    BufferMoves(all, n);
    assert multiset(all) == multiset(p.buffer) + multiset(items);
    assert multiset(l.bufferFull + all[..n]) == multiset(l.bufferFull) + multiset(all[..n]);
    Exchange(multiset(all[n..]), multiset(all[..n]), multiset(p.buffer), multiset(items),
             multiset(Hand(p)) + multiset(acknowledged), multiset(l.bufferFull), multiset(l.unretryable), multiset(l.abandoned));
    hide Hand;
    assert multiset(all[n..]) + multiset(Hand(p)) + multiset(acknowledged)
        == multiset(all[n..]) + (multiset(Hand(p)) + multiset(acknowledged));
  }

  lemma Exchange(kept: multiset<Item>, dropped: multiset<Item>, before: multiset<Item>, more: multiset<Item>,
                 rest: multiset<Item>, lost: multiset<Item>, x: multiset<Item>, y: multiset<Item>)
    requires kept + dropped == before + more
    ensures kept + rest + (lost + dropped) + x + y == before + rest + lost + x + y + more
  {
    forall i: Item ensures kept[i] + dropped[i] == before[i] + more[i] {
      assert (kept + dropped)[i] == (before + more)[i];
    }
  }

  /** The batch in hand is acknowledged, refused for good, or abandoned. */
  lemma HandMoves(p: Producer, acknowledged: seq<Item>, l: Losses)
    requires p.hand.Some?
    ensures var items, empty := p.hand.value, p.(hand := None);
            && Accounted(empty, acknowledged + items, l) == Accounted(p, acknowledged, l)
            && Accounted(empty, acknowledged, l.(unretryable := l.unretryable + items)) == Accounted(p, acknowledged, l)
            && Accounted(empty, acknowledged, l.(abandoned := l.abandoned + items)) == Accounted(p, acknowledged, l)
  {
    var items := p.hand.value;
    assert multiset(acknowledged + items) == multiset(acknowledged) + multiset(items);
    assert multiset(l.unretryable + items) == multiset(l.unretryable) + multiset(items);
    assert multiset(l.abandoned + items) == multiset(l.abandoned) + multiset(items);
  }

  lemma ProduceKeepsConserved(cfg: Config, rc: R.Config, refused: Filter, lim: Limits, s: Chain, items: seq<Item>)
    requires Conserved(s)
    ensures Conserved(ChainStep(cfg, rc, refused, lim, s, Produce(items)))
  {
    hide Accounted, Overflow;
    BufferGrows(s.producer, s.books.acknowledged, s.losses, items, Overflow(s.producer.buffer + items, cfg.maxBuffer));
    assert multiset(s.books.produced + items) == multiset(s.books.produced) + multiset(items);
  }

  lemma TakeKeepsConserved(cfg: Config, rc: R.Config, refused: Filter, lim: Limits, s: Chain)
    requires Conserved(s) && Ready(s, Take)
    ensures Conserved(ChainStep(cfg, rc, refused, lim, s, Take))
  {
    BufferMoves(s.producer.buffer, Smaller(cfg.maxBatch, |s.producer.buffer|));
  }

  lemma PostKeepsConserved(cfg: Config, rc: R.Config, refused: Filter, lim: Limits, s: Chain, id: nat, items: seq<Item>)
    requires Conserved(s) && s.producer.hand == Some(items)
    ensures Conserved(Posted(cfg, rc, refused, lim, s, id, items))
  {
    HandMoves(s.producer, s.books.acknowledged, s.losses);
    hide EventsIn, Rejected, TimedStep, Submit, Accounted;
  }

  lemma AcknowledgeKeepsConserved(cfg: Config, rc: R.Config, refused: Filter, lim: Limits, s: Chain)
    requires Conserved(s) && Ready(s, Acknowledge)
    ensures Conserved(ChainStep(cfg, rc, refused, lim, s, Acknowledge))
  {
    HandMoves(s.producer, s.books.acknowledged, s.losses);
    hide Accounted, Posted;
  }

  lemma AbandonKeepsConserved(cfg: Config, rc: R.Config, refused: Filter, lim: Limits, s: Chain)
    requires Conserved(s) && Ready(s, Abandon)
    ensures Conserved(ChainStep(cfg, rc, refused, lim, s, Abandon))
  {
    HandMoves(s.producer, s.books.acknowledged, s.losses);
    hide Accounted, Posted;
  }

  lemma StepKeepsConserved(cfg: Config, rc: R.Config, refused: Filter, lim: Limits, s: Chain, a: Act)
    requires Conserved(s) && Ready(s, a)
    ensures Conserved(ChainStep(cfg, rc, refused, lim, s, a))
  {
    match a {
      case Produce(items) => ProduceKeepsConserved(cfg, rc, refused, lim, s, items);
      case Take => TakeKeepsConserved(cfg, rc, refused, lim, s);
      case Server(x) =>
        hide TimedStep, Accounted;
      case LoseReply =>
        hide Accounted;
      case StopProducer =>
        assert Hand(s.producer.(stopping := true)) == Hand(s.producer);
      case Post(id) => PostKeepsConserved(cfg, rc, refused, lim, s, id, s.producer.hand.value);
      case Acknowledge => AcknowledgeKeepsConserved(cfg, rc, refused, lim, s);
      case Abandon => AbandonKeepsConserved(cfg, rc, refused, lim, s);
    }
  }

  // ---- The order of the buffer ---------------------------------------------------------------------------

  function Flattened(batches: seq<seq<Item>>): seq<Item>
    decreases |batches|
  {
    if batches == [] then [] else Flattened(batches[..|batches| - 1]) + batches[|batches| - 1]
  }

  /** The buffer holds the newest items, at most the bound; batches are not empty and keep their limit;
      as long as nothing overflowed, batches and buffer are what was produced, in order. */
  ghost predicate InOrder(cfg: Config, buffer: seq<Item>, produced: seq<Item>, batches: seq<seq<Item>>, dropped: seq<Item>) {
    && |buffer| <= |produced| && buffer == produced[|produced| - |buffer|..]
    && |buffer| <= cfg.maxBuffer
    && (cfg.maxBatch > 0 ==> forall b :: b in batches ==> 0 < |b| <= cfg.maxBatch)
    && (dropped == [] ==> produced == Flattened(batches) + buffer)
  }

  ghost predicate OrderInv(cfg: Config, s: Chain) {
    InOrder(cfg, s.producer.buffer, s.books.produced, s.books.batches, s.losses.bufferFull)
  }

  lemma ProduceKeepsOrder(cfg: Config, rc: R.Config, refused: Filter, lim: Limits, s: Chain, items: seq<Item>)
    requires OrderInv(cfg, s)
    ensures OrderInv(cfg, ChainStep(cfg, rc, refused, lim, s, Produce(items)))
  {
    var k, all := s.books, s.producer.buffer + items;
    var n := Overflow(all, cfg.maxBuffer);
    hide Overflow, Flattened;
    assert all[n..] == (k.produced + items)[|k.produced + items| - |all[n..]|..];
    if s.losses.bufferFull + all[..n] == [] {
      assert n == 0 && all[0..] == all;
      assert Flattened(k.batches) + s.producer.buffer + items == Flattened(k.batches) + all;
    }
  }

  lemma FlattenedMore(batches: seq<seq<Item>>, more: seq<Item>)
    ensures Flattened(batches + [more]) == Flattened(batches) + more
  {
    assert (batches + [more])[..|batches|] == batches;
  }

  lemma SuffixShrinks(produced: seq<Item>, buffer: seq<Item>, n: nat)
    requires n <= |buffer| <= |produced| && buffer == produced[|produced| - |buffer|..]
    ensures buffer[n..] == produced[|produced| - |buffer[n..]|..]
  {
  }

  lemma TakenInOrder(
    cfg: Config, buffer: seq<Item>, produced: seq<Item>, batches: seq<seq<Item>>, dropped: seq<Item>, n: nat)
    requires InOrder(cfg, buffer, produced, batches, dropped) && n <= |buffer|
    requires cfg.maxBatch > 0 ==> 0 < n <= cfg.maxBatch
    ensures InOrder(cfg, buffer[n..], produced, batches + [buffer[..n]], dropped)
  {
    FlattenedMore(batches, buffer[..n]);
    SuffixShrinks(produced, buffer, n);
    assert Flattened(batches) + buffer == Flattened(batches) + buffer[..n] + buffer[n..];
    hide Flattened;
  }

  lemma TakeKeepsOrder(cfg: Config, rc: R.Config, refused: Filter, lim: Limits, s: Chain)
    requires OrderInv(cfg, s) && Ready(s, Take)
    ensures OrderInv(cfg, ChainStep(cfg, rc, refused, lim, s, Take))
  {
    var k, buffer := s.books, s.producer.buffer;
    hide InOrder;
    TakenInOrder(cfg, buffer, k.produced, k.batches, s.losses.bufferFull, Smaller(cfg.maxBatch, |buffer|));
  }

  lemma StepKeepsOrder(cfg: Config, rc: R.Config, refused: Filter, lim: Limits, s: Chain, a: Act)
    requires OrderInv(cfg, s) && Ready(s, a)
    ensures OrderInv(cfg, ChainStep(cfg, rc, refused, lim, s, a))
  {
    match a {
      case Produce(items) => ProduceKeepsOrder(cfg, rc, refused, lim, s, items);
      case Take => TakeKeepsOrder(cfg, rc, refused, lim, s);
      case _ =>
        hide Flattened, TimedStep, EventsIn, Rejected, Submit;
    }
  }

  // ---- What an acknowledgement means -------------------------------------------------------------------

  /** The event belongs to a request the writer has completed. */
  ghost predicate Completed(w: State, e: Event) {
    exists k: nat :: k < |w.receipts| && e in w.receipts[k].request.events
  }

  /** The item was dealt with as the validation at time `at` demands. */
  ghost predicate Settled(rc: R.Config, s: Chain, batch: nat, item: Item, at: int) {
    if Accepts(BoundsAt(rc, at), item) then Completed(s.server.writer, item.event) else Letter(batch, item) in s.deadLettered
  }

  ghost predicate AckInv(rc: R.Config, s: Chain) {
    && (forall f, i :: f in s.books.finished && f.batch < |s.books.batches| && i in s.books.batches[f.batch] ==>
          Settled(rc, s, f.batch, i, f.at))
    && (forall i :: i in s.books.acknowledged ==>
          exists f :: f in s.books.finished && f.batch < |s.books.batches| && i in s.books.batches[f.batch])
  }

  /** The batch in hand is the newest one, and an awaited request carries its valid events. */
  ghost predicate CallInv(rc: R.Config, s: Chain) {
    && (s.producer.hand.Some? ==> s.books.batches != [] && s.books.batches[Current(s)] == s.producer.hand.value)
    && (!s.call.NoCall? ==>
          && s.producer.hand.Some?
          && forall i :: i in s.producer.hand.value && !Accepts(BoundsAt(rc, s.call.at), i) ==> Letter(Current(s), i) in s.deadLettered)
    && (s.call.Waiting? ==>
          && s.call.index < |s.server.writer.accepted|
          && s.server.writer.accepted[s.call.index].events == EventsIn(BoundsAt(rc, s.call.at), s.producer.hand.value))
    && (s.call.Answered? ==> EventsIn(BoundsAt(rc, s.call.at), s.producer.hand.value) == [])
    && forall f :: f in s.books.finished ==> f.batch < |s.books.batches|
  }

  lemma {:induction false} EventsInMembers(b: TimeBounds, items: seq<Item>, e: Event)
    ensures e in EventsIn(b, items) <==> Order(e) in items && Accepts(b, Order(e))
  {
    if items != [] {
      EventsInMembers(b, items[1..], e);
    }
  }

  lemma {:induction false} RejectedMembers(b: TimeBounds, batch: nat, items: seq<Item>, i: Item)
    ensures Letter(batch, i) in Rejected(b, batch, items) <==> i in items && !Accepts(b, i)
  {
    if items != [] {
      RejectedMembers(b, batch, items[1..], i);
    }
  }

  /** Accepted requests and receipts are only ever appended. */
  lemma WriterAppends(refused: Filter, lim: Limits, w: State, b: Action)
    ensures var w' := Writer.Step(refused, lim, w, b); w.accepted <= w'.accepted && w.receipts <= w'.receipts
  {
    hide Statement, BatchLength, EventsOf;
  }

  lemma ServerAppends(rc: R.Config, refused: Filter, lim: Limits, w: World, x: Move)
    ensures var w' := TimedStep(rc, refused, lim, w, x).writer;
            w.writer.accepted <= w'.accepted && w.writer.receipts <= w'.receipts
  {
    if !x.Tick? {
      var a := Seen(rc, w, x)[0];
      OneAction(refused, lim, w.writer, a);
      WriterAppends(refused, lim, w.writer, a);
    }
    hide EO.Run, Writer.Step, R.Step;
  }

  lemma CompletedStays(w: State, w': State, e: Event)
    requires Completed(w, e) && w.receipts <= w'.receipts
    ensures Completed(w', e)
  {
    var k: nat :| k < |w.receipts| && e in w.receipts[k].request.events;
    assert w'.receipts[k] == w.receipts[k];
  }

  /** Steps that only add to the server, the letters and the batches settle nothing anew. */
  lemma GrowthKeepsAck(rc: R.Config, s: Chain, s': Chain)
    requires AckInv(rc, s) && (forall f :: f in s.books.finished ==> f.batch < |s.books.batches|)
    requires s.server.writer.receipts <= s'.server.writer.receipts && s.deadLettered <= s'.deadLettered
    requires s.books.batches <= s'.books.batches
    requires s'.books.finished == s.books.finished && s'.books.acknowledged == s.books.acknowledged
    ensures AckInv(rc, s')
  {
    forall f, i | f in s'.books.finished && f.batch < |s'.books.batches| && i in s'.books.batches[f.batch]
      ensures Settled(rc, s', f.batch, i, f.at)
    {
      assert s'.books.batches[f.batch] == s.books.batches[f.batch];
      assert Settled(rc, s, f.batch, i, f.at);
      if Accepts(BoundsAt(rc, f.at), i) {
        CompletedStays(s.server.writer, s'.server.writer, i.event);
      }
    }
    hide Settled;
    forall i | i in s'.books.acknowledged
      ensures exists f :: f in s'.books.finished && f.batch < |s'.books.batches| && i in s'.books.batches[f.batch]
    {
      var f :| f in s.books.finished && f.batch < |s.books.batches| && i in s.books.batches[f.batch];
      assert s'.books.batches[f.batch] == s.books.batches[f.batch];
    }
  }

  /** A completed request was accepted at the same place in the order. */
  lemma AnsweredItemIsSettled(rc: R.Config, s: Chain, i: Item)
    requires CallInv(rc, s) && FifoInv(s.server.writer) && Ready(s, Acknowledge) && i in s.producer.hand.value
    ensures Settled(rc, s, Current(s), i, s.call.at)
  {
    var b := BoundsAt(rc, s.call.at);
    if Accepts(b, i) {
      EventsInMembers(b, s.producer.hand.value, i.event);
      var w, k := s.server.writer, s.call.index;
      assert w.accepted[k] == Requests(w.receipts)[k] == w.receipts[k].request;
    }
  }

  lemma AcknowledgeKeepsAck(cfg: Config, rc: R.Config, refused: Filter, lim: Limits, s: Chain)
    requires AckInv(rc, s) && CallInv(rc, s) && FifoInv(s.server.writer) && Ready(s, Acknowledge)
    ensures AckInv(rc, ChainStep(cfg, rc, refused, lim, s, Acknowledge))
  {
    var s' := ChainStep(cfg, rc, refused, lim, s, Acknowledge);
    var last := Stamp(Current(s), s.call.at);
    forall f, i | f in s'.books.finished && f.batch < |s'.books.batches| && i in s'.books.batches[f.batch]
      ensures Settled(rc, s', f.batch, i, f.at)
    {
      if f in s.books.finished {
        assert Settled(rc, s, f.batch, i, f.at);
      } else {
        assert f == last;
        AnsweredItemIsSettled(rc, s, i);
      }
      hide Completed, Accepts;
    }
    hide Settled, CallInv, FifoInv;
    assert last in s'.books.finished;
    forall i | i in s'.books.acknowledged
      ensures exists f :: f in s'.books.finished && f.batch < |s'.books.batches| && i in s'.books.batches[f.batch]
    {
      if i in s.books.acknowledged {
        var f :| f in s.books.finished && f.batch < |s.books.batches| && i in s.books.batches[f.batch];
        assert f in s'.books.finished;
      }
    }
  }

  lemma PostQueues(cfg: Config, rc: R.Config, refused: Filter, lim: Limits, s: Chain, id: nat)
    requires Ready(s, Post(id))
    ensures var items := s.producer.hand.value; var r := RequestOf(rc, s, id, items);
            Submit(lim, s.server.writer.queue, r).1.Queued? ==>
              TimedStep(rc, refused, lim, s.server, Ingest(r)).writer.accepted == s.server.writer.accepted + [r]
    ensures var items := s.producer.hand.value; var r := RequestOf(rc, s, id, items);
            Submit(lim, s.server.writer.queue, r).1.CompletedEmpty? ==> r.events == []
  {
    var r := RequestOf(rc, s, id, s.producer.hand.value);
    OneAction(refused, lim, s.server.writer, DoSubmit(r));
    hide EventsIn, EO.Run;
  }

  lemma PostKeepsCall(cfg: Config, rc: R.Config, refused: Filter, lim: Limits, s: Chain, id: nat)
    requires CallInv(rc, s) && Ready(s, Post(id))
    ensures CallInv(rc, ChainStep(cfg, rc, refused, lim, s, Post(id)))
  {
    var items, b := s.producer.hand.value, BoundsAt(rc, s.server.clock);
    PostQueues(cfg, rc, refused, lim, s, id);
    forall i: Item ensures Letter(Current(s), i) in Rejected(b, Current(s), items) <==> i in items && !Accepts(b, i) {
      RejectedMembers(b, Current(s), items, i);
    }
    hide EventsIn, Rejected, Submit, TimedStep, Accepts;
  }

  lemma ServerKeepsCall(cfg: Config, rc: R.Config, refused: Filter, lim: Limits, s: Chain, x: Move)
    requires CallInv(rc, s)
    ensures CallInv(rc, ChainStep(cfg, rc, refused, lim, s, Server(x)))
  {
    ServerAppends(rc, refused, lim, s.server, x);
    var accepted := TimedStep(rc, refused, lim, s.server, x).writer.accepted;
    assert s.call.Waiting? ==> accepted[s.call.index] == s.server.writer.accepted[s.call.index];
    hide EventsIn, TimedStep, Accepts;
  }

  lemma StepKeepsCall(cfg: Config, rc: R.Config, refused: Filter, lim: Limits, s: Chain, a: Act)
    requires CallInv(rc, s) && Ready(s, a)
    ensures CallInv(rc, ChainStep(cfg, rc, refused, lim, s, a))
  {
    match a {
      case Post(id) => PostKeepsCall(cfg, rc, refused, lim, s, id);
      case Server(x) => ServerKeepsCall(cfg, rc, refused, lim, s, x);
      case _ =>
        hide EventsIn, Accepts, TimedStep, Overflow, Smaller;
    }
  }

  lemma StepKeepsAck(cfg: Config, rc: R.Config, refused: Filter, lim: Limits, s: Chain, a: Act)
    requires AckInv(rc, s) && CallInv(rc, s) && FifoInv(s.server.writer) && Ready(s, a)
    ensures AckInv(rc, ChainStep(cfg, rc, refused, lim, s, a))
  {
    if a.Acknowledge? {
      AcknowledgeKeepsAck(cfg, rc, refused, lim, s);
    } else {
      var s' := ChainStep(cfg, rc, refused, lim, s, a);
      var x := if a.Server? then a.move
               else if a.Post? then Ingest(RequestOf(rc, s, a.id, Hand(s.producer))) else Tick(0);
      ServerAppends(rc, refused, lim, s.server, x);
      hide AckInv, FifoInv, TimedStep, EventsIn, Rejected, Submit, Overflow, Smaller;
      GrowthKeepsAck(rc, s, s');
    }
  }

  // ---- Dead letters, post by post ------------------------------------------------------------------------

  /** The letters of the posts that were not refused, in order. */
  function LetterLog(rc: R.Config, batches: seq<seq<Item>>, posts: seq<Stamp>): seq<Letter>
    decreases |posts|
  {
    if posts == [] then []
    else
      var last := posts[|posts| - 1];
      LetterLog(rc, batches, posts[..|posts| - 1])
      + if last.batch < |batches| then Rejected(BoundsAt(rc, last.at), last.batch, batches[last.batch]) else []
  }

  function Count(stamps: seq<Stamp>, batch: nat): nat
    decreases |stamps|
  {
    if stamps == [] then 0
    else Count(stamps[..|stamps| - 1], batch) + if stamps[|stamps| - 1].batch == batch then 1 else 0
  }

  function Open(awaited: Option<nat>, batch: nat): nat {
    if awaited == Some(batch) then 1 else 0
  }

  /** The batch whose reply is awaited. */
  function Awaited(s: Chain): Option<nat> {
    if s.call.NoCall? then None else Some(Current(s))
  }

  /** Every letter belongs to a post. */
  ghost predicate LetterInv(rc: R.Config, batches: seq<seq<Item>>, posts: seq<Stamp>, letters: seq<Letter>) {
    letters == LetterLog(rc, batches, posts) && forall p :: p in posts ==> p.batch < |batches|
  }

  /** Every post of a batch lost its reply, was acknowledged, or is still awaited; a batch is acknowledged
      at most once. */
  ghost predicate CountInv(posts: seq<Stamp>, lost: seq<Stamp>, finished: seq<Stamp>, batches: nat, awaited: Option<nat>) {
    forall b: nat ::
      && Count(posts, b) == Count(lost, b) + Count(finished, b) + Open(awaited, b)
      && Count(finished, b) <= 1
      && (b >= batches ==> Count(posts, b) == 0)
  }

  ghost predicate HandInv(s: Chain) {
    && (s.producer.hand.Some? ==>
          && s.books.batches != [] && s.books.batches[Current(s)] == s.producer.hand.value
          && Count(s.books.finished, Current(s)) == 0)
    && (!s.call.NoCall? ==> s.producer.hand.Some?)
  }

  ghost predicate PostInv(rc: R.Config, s: Chain) {
    var k := s.books;
    && LetterInv(rc, k.batches, k.posts, s.deadLettered)
    && CountInv(k.posts, k.lostReplies, k.finished, |k.batches|, Awaited(s))
    && HandInv(s)
  }

  lemma CountMore(stamps: seq<Stamp>, x: Stamp, batch: nat)
    ensures Count(stamps + [x], batch) == Count(stamps, batch) + if x.batch == batch then 1 else 0
  {
    assert (stamps + [x])[..|stamps|] == stamps;
  }

  lemma PostCounts(posts: seq<Stamp>, lost: seq<Stamp>, finished: seq<Stamp>, batches: nat, p: Stamp)
    requires CountInv(posts, lost, finished, batches, None) && p.batch < batches
    ensures CountInv(posts + [p], lost, finished, batches, Some(p.batch))
  {
    forall b: nat ensures Count(posts + [p], b) == Count(posts, b) + if p.batch == b then 1 else 0 {
      CountMore(posts, p, b);
    }
    hide Count;
  }

  lemma LossCounts(posts: seq<Stamp>, lost: seq<Stamp>, finished: seq<Stamp>, batches: nat, x: Stamp)
    requires CountInv(posts, lost, finished, batches, Some(x.batch))
    ensures CountInv(posts, lost + [x], finished, batches, None)
  {
    forall b: nat ensures Count(lost + [x], b) == Count(lost, b) + if x.batch == b then 1 else 0 {
      CountMore(lost, x, b);
    }
    hide Count;
  }

  lemma FinishCounts(posts: seq<Stamp>, lost: seq<Stamp>, finished: seq<Stamp>, batches: nat, x: Stamp)
    requires CountInv(posts, lost, finished, batches, Some(x.batch)) && Count(finished, x.batch) == 0
    ensures CountInv(posts, lost, finished + [x], batches, None)
  {
    forall b: nat ensures Count(finished + [x], b) == Count(finished, b) + if x.batch == b then 1 else 0 {
      CountMore(finished, x, b);
    }
    hide Count;
  }

  lemma TakeCounts(posts: seq<Stamp>, lost: seq<Stamp>, finished: seq<Stamp>, batches: nat)
    requires CountInv(posts, lost, finished, batches, None)
    ensures CountInv(posts, lost, finished, batches + 1, None) && Count(finished, batches) == 0
  {
    assert Count(posts, batches) == Count(lost, batches) + Count(finished, batches) + Open(None, batches);
    hide Count;
  }

  lemma {:induction false} LetterLogGrows(rc: R.Config, batches: seq<seq<Item>>, more: seq<Item>, posts: seq<Stamp>)
    requires forall p :: p in posts ==> p.batch < |batches|
    ensures LetterLog(rc, batches + [more], posts) == LetterLog(rc, batches, posts)
    decreases |posts|
  {
    if posts != [] {
      assert posts[|posts| - 1] in posts;
      LetterLogGrows(rc, batches, more, posts[..|posts| - 1]);
    }
  }

  lemma LetterLogMore(rc: R.Config, batches: seq<seq<Item>>, posts: seq<Stamp>, p: Stamp)
    requires p.batch < |batches|
    ensures LetterLog(rc, batches, posts + [p])
         == LetterLog(rc, batches, posts) + Rejected(BoundsAt(rc, p.at), p.batch, batches[p.batch])
  {
    assert (posts + [p])[..|posts|] == posts;
  }

  /** A post is refused and leaves no letter, or is recorded and leaves the letters of its batch. */
  lemma PostShape(cfg: Config, rc: R.Config, refused: Filter, lim: Limits, s: Chain, id: nat)
    requires Ready(s, Post(id))
    ensures var s' := ChainStep(cfg, rc, refused, lim, s, Post(id)); var p := Stamp(Current(s), s.server.clock);
            && s'.books.batches == s.books.batches && s'.books.finished == s.books.finished
            && s'.books.lostReplies == s.books.lostReplies
            && (|| (&& s'.call.NoCall? && s'.deadLettered == s.deadLettered && s'.books.posts == s.books.posts
                    && (s'.producer.hand == s.producer.hand || s'.producer.hand.None?))
                || (&& !s'.call.NoCall? && s'.books.posts == s.books.posts + [p] && s'.producer.hand == s.producer.hand
                    && s'.deadLettered == s.deadLettered
                       + Rejected(BoundsAt(rc, p.at), p.batch, s.producer.hand.value)))
  {
    hide EventsIn, Rejected, Submit, TimedStep;
  }

  lemma PostKeepsPosts(cfg: Config, rc: R.Config, refused: Filter, lim: Limits, s: Chain, id: nat)
    requires PostInv(rc, s) && Ready(s, Post(id))
    ensures PostInv(rc, ChainStep(cfg, rc, refused, lim, s, Post(id)))
  {
    var p, k := Stamp(Current(s), s.server.clock), s.books;
    PostShape(cfg, rc, refused, lim, s, id);
    LetterLogMore(rc, k.batches, k.posts, p);
    PostCounts(k.posts, k.lostReplies, k.finished, |k.batches|, p);
    hide ChainStep, LetterLog, Count, CountInv, Rejected;
  }

  lemma TakeKeepsPosts(cfg: Config, rc: R.Config, refused: Filter, lim: Limits, s: Chain)
    requires PostInv(rc, s) && Ready(s, Take)
    ensures PostInv(rc, ChainStep(cfg, rc, refused, lim, s, Take))
  {
    var k := s.books;
    LetterLogGrows(rc, k.batches, s.producer.buffer[..Smaller(cfg.maxBatch, |s.producer.buffer|)], k.posts);
    TakeCounts(k.posts, k.lostReplies, k.finished, |k.batches|);
    hide LetterLog, Count, CountInv, Smaller;
  }

  lemma CloseKeepsPosts(cfg: Config, rc: R.Config, refused: Filter, lim: Limits, s: Chain, a: Act)
    requires PostInv(rc, s) && Ready(s, a) && (a.Acknowledge? || a.LoseReply?)
    ensures PostInv(rc, ChainStep(cfg, rc, refused, lim, s, a))
  {
    var x, k := Stamp(Current(s), s.call.at), s.books;
    LossCounts(k.posts, k.lostReplies, k.finished, |k.batches|, x);
    FinishCounts(k.posts, k.lostReplies, k.finished, |k.batches|, x);
    hide LetterInv, Count, CountInv;
  }

  lemma StepKeepsPosts(cfg: Config, rc: R.Config, refused: Filter, lim: Limits, s: Chain, a: Act)
    requires PostInv(rc, s) && Ready(s, a)
    ensures PostInv(rc, ChainStep(cfg, rc, refused, lim, s, a))
  {
    match a {
      case Post(id) => PostKeepsPosts(cfg, rc, refused, lim, s, id);
      case Take => TakeKeepsPosts(cfg, rc, refused, lim, s);
      case Acknowledge => CloseKeepsPosts(cfg, rc, refused, lim, s, a);
      case LoseReply => CloseKeepsPosts(cfg, rc, refused, lim, s, a);
      case _ =>
        hide LetterInv, Count, CountInv, TimedStep, Overflow;
    }
  }

  // ---- Runs --------------------------------------------------------------------------------------------------

  ghost predicate ChainInv(rc: R.Config, refused: Filter, lim: Limits, s: Chain) {
    Conserved(s) && AckInv(rc, s) && CallInv(rc, s) && PostInv(rc, s) && TimedInv(rc, refused, lim, s.server)
  }

  lemma {:induction false} EventsInValid(b: TimeBounds, items: seq<Item>)
    ensures forall e :: e in EventsIn(b, items) ==> WithinTimeBounds(e.occurredAt, b)
    decreases |items|
  {
    if items != [] {
      EventsInValid(b, items[1..]);
    }
  }

  lemma IngestEnabled(rc: R.Config, s: Chain, id: nat, items: seq<Item>)
    ensures TimedEnabled(rc, s.server, Ingest(RequestOf(rc, s, id, items)))
  {
    EventsInValid(BoundsAt(rc, s.server.clock), items);
    hide EventsIn;
  }

  lemma PostKeepsServer(cfg: Config, rc: R.Config, refused: Filter, lim: Limits, s: Chain, id: nat, items: seq<Item>)
    requires rc.delay <= R.Days(rc.rawDays) - rc.maxAge && TimedInv(rc, refused, lim, s.server)
    ensures TimedInv(rc, refused, lim, Posted(cfg, rc, refused, lim, s, id, items).server)
  {
    hide TimedInv, TimedStep, TimedEnabled, EventsIn, Rejected, Submit, R.Days;
    IngestEnabled(rc, s, id, items);
    MoveKeepsInv(rc, refused, lim, s.server, Ingest(RequestOf(rc, s, id, items)));
  }

  /** What a step does to the server is a move the timed world allows. */
  lemma StepKeepsServer(cfg: Config, rc: R.Config, refused: Filter, lim: Limits, s: Chain, a: Act)
    requires rc.delay <= R.Days(rc.rawDays) - rc.maxAge
    requires TimedInv(rc, refused, lim, s.server) && Allowed(rc, s, a)
    ensures TimedInv(rc, refused, lim, ChainStep(cfg, rc, refused, lim, s, a).server)
  {
    hide TimedInv, TimedStep, TimedEnabled, Posted, R.Days;
    if a.Server? {
      MoveKeepsInv(rc, refused, lim, s.server, a.move);
    } else if a.Post? {
      PostKeepsServer(cfg, rc, refused, lim, s, a.id, s.producer.hand.value);
    }
  }

  lemma StepKeepsInv(cfg: Config, rc: R.Config, refused: Filter, lim: Limits, s: Chain, a: Act)
    requires rc.delay <= R.Days(rc.rawDays) - rc.maxAge
    requires ChainInv(rc, refused, lim, s) && Allowed(rc, s, a)
    ensures ChainInv(rc, refused, lim, ChainStep(cfg, rc, refused, lim, s, a))
  {
    assert FifoInv(s.server.writer);
    hide Conserved, AckInv, CallInv, PostInv, TimedInv, FifoInv, ChainStep, Ready, TimedEnabled, R.Days;
    StepKeepsConserved(cfg, rc, refused, lim, s, a);
    StepKeepsAck(cfg, rc, refused, lim, s, a);
    StepKeepsCall(cfg, rc, refused, lim, s, a);
    StepKeepsPosts(cfg, rc, refused, lim, s, a);
    StepKeepsServer(cfg, rc, refused, lim, s, a);
  }

  function ChainRun(cfg: Config, rc: R.Config, refused: Filter, lim: Limits, s: Chain, acts: seq<Act>): Chain
    decreases |acts|
  {
    if acts == [] then s else ChainRun(cfg, rc, refused, lim, ChainStep(cfg, rc, refused, lim, s, acts[0]), acts[1..])
  }

  ghost predicate ChainLegal(cfg: Config, rc: R.Config, refused: Filter, lim: Limits, s: Chain, acts: seq<Act>)
    decreases |acts|
  {
    acts != [] ==>
      Allowed(rc, s, acts[0]) && ChainLegal(cfg, rc, refused, lim, ChainStep(cfg, rc, refused, lim, s, acts[0]), acts[1..])
  }

  lemma {:induction false} RunKeepsInv(cfg: Config, rc: R.Config, refused: Filter, lim: Limits, s: Chain, acts: seq<Act>)
    requires rc.delay <= R.Days(rc.rawDays) - rc.maxAge
    requires ChainInv(rc, refused, lim, s) && ChainLegal(cfg, rc, refused, lim, s, acts)
    ensures ChainInv(rc, refused, lim, ChainRun(cfg, rc, refused, lim, s, acts))
    decreases |acts|
  {
    if acts != [] {
      hide ChainInv, ChainStep, Allowed, R.Days;
      StepKeepsInv(cfg, rc, refused, lim, s, acts[0]);
      RunKeepsInv(cfg, rc, refused, lim, ChainStep(cfg, rc, refused, lim, s, acts[0]), acts[1..]);
    }
  }

  /** A batch in hand is within its limit, so it is never too long for a request if requests may be as long;
      and nothing is given up before the producer is stopped. */
  ghost predicate LossInv(cfg: Config, s: Chain) {
    && (s.producer.hand.Some? ==> |s.producer.hand.value| <= cfg.maxBatch)
    && (cfg.maxBatch <= cfg.maxPerRequest ==> s.losses.unretryable == [])
    && (!s.producer.stopping ==> s.losses.abandoned == [])
  }

  lemma StepKeepsLosses(cfg: Config, rc: R.Config, refused: Filter, lim: Limits, s: Chain, a: Act)
    requires LossInv(cfg, s) && Ready(s, a)
    ensures LossInv(cfg, ChainStep(cfg, rc, refused, lim, s, a))
  {
    hide TimedStep, EventsIn, Rejected, Submit, Overflow;
  }

  lemma {:induction false} RunKeepsLosses(cfg: Config, rc: R.Config, refused: Filter, lim: Limits, s: Chain, acts: seq<Act>)
    requires LossInv(cfg, s) && ChainLegal(cfg, rc, refused, lim, s, acts)
    ensures LossInv(cfg, ChainRun(cfg, rc, refused, lim, s, acts))
    decreases |acts|
  {
    if acts != [] {
      StepKeepsLosses(cfg, rc, refused, lim, s, acts[0]);
      hide LossInv, ChainStep, Ready, TimedEnabled;
      RunKeepsLosses(cfg, rc, refused, lim, ChainStep(cfg, rc, refused, lim, s, acts[0]), acts[1..]);
    }
  }

  lemma {:induction false} RunKeepsOrder(cfg: Config, rc: R.Config, refused: Filter, lim: Limits, s: Chain, acts: seq<Act>)
    requires OrderInv(cfg, s) && ChainLegal(cfg, rc, refused, lim, s, acts)
    ensures OrderInv(cfg, ChainRun(cfg, rc, refused, lim, s, acts))
    decreases |acts|
  {
    if acts != [] {
      StepKeepsOrder(cfg, rc, refused, lim, s, acts[0]);
      hide OrderInv, ChainStep, Ready, TimedEnabled;
      RunKeepsOrder(cfg, rc, refused, lim, ChainStep(cfg, rc, refused, lim, s, acts[0]), acts[1..]);
    }
  }

  /** Order at the producer, in every run: the buffer holds the newest items and at most its bound, a taken
      batch is never empty nor too long, and as long as the buffer has not overflowed, the batches one
      after the other followed by the buffer are what was produced. No batch is refused for good if
      requests may be as long as batches, and none is given up before the producer is stopped. */
  lemma ProducerKeepsOrder(
    cfg: Config, rc: R.Config, refused: Filter, lim: Limits, clock: int, store: Store, acts: seq<Act>)
    requires ChainLegal(cfg, rc, refused, lim, Start(clock, store), acts)
    ensures var s := ChainRun(cfg, rc, refused, lim, Start(clock, store), acts); var p, k := s.producer, s.books;
            && |p.buffer| <= |k.produced| && p.buffer == k.produced[|k.produced| - |p.buffer|..]
            && |p.buffer| <= cfg.maxBuffer
            && (cfg.maxBatch > 0 ==> forall b :: b in k.batches ==> 0 < |b| <= cfg.maxBatch)
            && (s.losses.bufferFull == [] ==> k.produced == Flattened(k.batches) + p.buffer)
            && (cfg.maxBatch <= cfg.maxPerRequest ==> s.losses.unretryable == [])
            && (!p.stopping ==> s.losses.abandoned == [])
  {
    assert Flattened([]) + [] == [];
    RunKeepsLosses(cfg, rc, refused, lim, Start(clock, store), acts);
    RunKeepsOrder(cfg, rc, refused, lim, Start(clock, store), acts);
    hide ChainRun, ChainLegal, Flattened;
  }

  lemma StartIsInv(rc: R.Config, refused: Filter, lim: Limits, clock: int, store: Store)
    requires Sound(store) && R.HorizonInv(rc, R.Ledger(clock, store))
    ensures ChainInv(rc, refused, lim, Start(clock, store))
  {
    BeginIsInv(rc, refused, lim, clock, store);
    hide TimedInv, Sound, R.HorizonInv, Begin;
  }

  // ---- Main results ------------------------------------------------------------------------------------------

  /** The item is an event of the accepted age at time `at`. */
  predicate AcceptableAt(rc: R.Config, item: Item, at: int) {
    item.Order? && at - rc.maxAge <= item.event.occurredAt <= at + rc.maxFutureSkew
  }

  /** What became of an item of an acknowledged batch: as it was acceptable or not at the acknowledged
      post, it was dead-lettered for that batch, dead-lettered by the database, or is in a row of its id
      and instant. */
  ghost predicate Dealt(rc: R.Config, refused: Filter, s: Chain, f: Stamp, item: Item) {
    var m := s.server.writer.machine;
    if !AcceptableAt(rc, item, f.at) then Letter(f.batch, item) in s.deadLettered
    else if refused(item.event) then item.event in m.dead
    else exists i :: 0 <= i < |m.store.log| && WP.SameIdentity(m.store.log[i].event, item.event)
  }

  lemma SettledIsDealt(rc: R.Config, refused: Filter, lim: Limits, s: Chain, f: Stamp, item: Item)
    requires EO.Inv(refused, lim, s.server.writer) && Settled(rc, s, f.batch, item, f.at)
    ensures Dealt(rc, refused, s, f, item)
  {
    if Accepts(BoundsAt(rc, f.at), item) {
      var w := s.server.writer;
      hide EO.Inv;
      var k: nat :| k < |w.receipts| && item.event in w.receipts[k].request.events;
      EO.CompletedMeansStoredOrDead(refused, lim, w, k, item.event);
      WP.StoredOf(refused, lim, w);
      hide WP.SameIdentity;
    }
  }

  /** End to end, for every run of resends, lost replies, refused submissions, database failures, retention
      and shutdown in which batches are written within the allowed delay: every item of an acknowledged
      batch was valid at the acknowledged post and is stored, or dead-lettered if the database refuses it,
      or it was invalid at that post and is dead-lettered for that batch; every acknowledged item is in
      such a batch; no key is stored twice, however often its batch was resent; and every item that is not
      acknowledged is still buffered, in hand, or counted as lost. */
  lemma AcknowledgedIsStoredOnce(
    cfg: Config, rc: R.Config, refused: Filter, lim: Limits, clock: int, store: Store, acts: seq<Act>)
    requires rc.delay <= R.Days(rc.rawDays) - rc.maxAge
    requires Sound(store) && R.HorizonInv(rc, R.Ledger(clock, store))
    requires ChainLegal(cfg, rc, refused, lim, Start(clock, store), acts)
    ensures var s := ChainRun(cfg, rc, refused, lim, Start(clock, store), acts); var k := s.books;
            && (forall f, item :: f in k.finished && f.batch < |k.batches| && item in k.batches[f.batch]
                  ==> Dealt(rc, refused, s, f, item))
            && (forall item :: item in k.acknowledged ==>
                  exists f :: f in k.finished && f.batch < |k.batches| && item in k.batches[f.batch])
            && (forall i, j :: 0 <= i < j < |s.server.writer.machine.store.log| ==>
                  !WP.SameIdentity(s.server.writer.machine.store.log[i].event, s.server.writer.machine.store.log[j].event))
            && Conserved(s)
  {
    StartIsInv(rc, refused, lim, clock, store);
    RunKeepsInv(cfg, rc, refused, lim, Start(clock, store), acts);
    var s := ChainRun(cfg, rc, refused, lim, Start(clock, store), acts);
    hide ChainRun, ChainLegal, Conserved, CallInv, PostInv, Start, R.HorizonInv, R.Days, EO.Inv, Sound, Settled, Dealt;
    forall f, item | f in s.books.finished && f.batch < |s.books.batches| && item in s.books.batches[f.batch]
      ensures Dealt(rc, refused, s, f, item)
    {
      SettledIsDealt(rc, refused, lim, s, f, item);
    }
    KeysAreDistinct(refused, lim, s.server.writer);
  }

  lemma KeysAreDistinct(refused: Filter, lim: Limits, w: State)
    requires EO.Inv(refused, lim, w)
    ensures forall i, j :: 0 <= i < j < |w.machine.store.log| ==>
              !WP.SameIdentity(w.machine.store.log[i].event, w.machine.store.log[j].event)
  {
    assert Sound(w.machine.store) by {
      hide EO.Expected, WorkShape, LogCounts, DeadCounts, Absorbed;
    }
    EO.SoundTables(w.machine.store);
    WP.RowsDiffer(w.machine.store.log);
  }

  /** The events of the items of the accepted age: as many of each as the batch has, in the order of the
      batch. */
  lemma {:induction false} EventsAreTheAcceptable(rc: R.Config, items: seq<Item>, at: int, e: Event)
    ensures Copies(EventsIn(BoundsAt(rc, at), items), e) == if AcceptableAt(rc, Order(e), at) then Copies(items, Order(e)) else 0
    decreases |items|
  {
    if items != [] {
      EventsAreTheAcceptable(rc, items[1..], at, e);
      var es := EventsIn(BoundsAt(rc, at), items);
      if Accepts(BoundsAt(rc, at), items[0]) {
        assert es[1..] == EventsIn(BoundsAt(rc, at), items[1..]);
      }
    }
  }

  lemma {:induction false} EventsKeepOrder(b: TimeBounds, x: seq<Item>, y: seq<Item>)
    ensures EventsIn(b, x + y) == EventsIn(b, x) + EventsIn(b, y)
  {
    if x == [] {
      assert x + y == y;
    } else {
      assert (x + y)[1..] == x[1..] + y && (x + y)[0] == x[0];
      EventsKeepOrder(b, x[1..], y);
    }
  }

  /** What the endpoint answers, after every run: a batch over the request limit is refused for good; after
      a stop, or when its acceptable events do not fit the writer's cap beside those that wait, it is
      refused for now and nothing changes; otherwise its acceptable events, if there are any, become the
      newest accepted request, and the batch is awaited. */
  lemma PostExactly(
    cfg: Config, rc: R.Config, refused: Filter, lim: Limits, clock: int, store: Store, acts: seq<Act>, id: nat)
    requires rc.delay <= R.Days(rc.rawDays) - rc.maxAge
    requires Sound(store) && R.HorizonInv(rc, R.Ledger(clock, store))
    requires ChainLegal(cfg, rc, refused, lim, Start(clock, store), acts)
    requires Ready(ChainRun(cfg, rc, refused, lim, Start(clock, store), acts), Post(id))
    ensures var s := ChainRun(cfg, rc, refused, lim, Start(clock, store), acts);
            var s' := ChainStep(cfg, rc, refused, lim, s, Post(id));
            var items, w, w' := s.producer.hand.value, s.server.writer, s'.server.writer;
            var es := EventsIn(BoundsAt(rc, s.server.clock), items);
            var fits := Size(WP.Outstanding(w)) + |es| <= lim.maxQueued;
            && (|items| > cfg.maxPerRequest ==> s' == s.(producer := s.producer.(hand := None),
                  losses := s.losses.(unretryable := s.losses.unretryable + items)))
            && (|items| <= cfg.maxPerRequest && (w.queue.stopping || (es != [] && !fits)) ==> s' == s)
            && (s'.call.Waiting? <==> |items| <= cfg.maxPerRequest && !w.queue.stopping && es != [] && fits)
            && (s'.call.Waiting? ==> s'.call == Waiting(|w.accepted|, s.server.clock))
            && (s'.call.Waiting? ==> w'.accepted == w.accepted + [Request(id, es)])
            && (s'.call.Answered? <==> |items| <= cfg.maxPerRequest && !w.queue.stopping && es == [])
            && (!s'.call.Waiting? ==> w' == w)
  {
    StartIsInv(rc, refused, lim, clock, store);
    RunKeepsInv(cfg, rc, refused, lim, Start(clock, store), acts);
    var s := ChainRun(cfg, rc, refused, lim, Start(clock, store), acts);
    WP.OutstandingIsQueued(lim, s.server.writer);
    hide ChainRun, ChainLegal, ChainInv, Start, R.Days, R.HorizonInv, Sound, WP.Outstanding, Size, EO.Inv;
    PostAnswers(cfg, rc, refused, lim, s, id);
  }

  lemma PostAnswers(cfg: Config, rc: R.Config, refused: Filter, lim: Limits, s: Chain, id: nat)
    requires Ready(s, Post(id))
    ensures var s' := ChainStep(cfg, rc, refused, lim, s, Post(id));
            var items, w, w' := s.producer.hand.value, s.server.writer, s'.server.writer;
            var es := EventsIn(BoundsAt(rc, s.server.clock), items);
            var fits := w.queue.queuedEvents + |es| <= lim.maxQueued;
            && (|items| > cfg.maxPerRequest ==> s' == s.(producer := s.producer.(hand := None),
                  losses := s.losses.(unretryable := s.losses.unretryable + items)))
            && (|items| <= cfg.maxPerRequest && (w.queue.stopping || (es != [] && !fits)) ==> s' == s)
            && (s'.call.Waiting? <==> |items| <= cfg.maxPerRequest && !w.queue.stopping && es != [] && fits)
            && (s'.call.Waiting? ==> s'.call == Waiting(|w.accepted|, s.server.clock))
            && (s'.call.Waiting? ==> w'.accepted == w.accepted + [Request(id, es)])
            && (s'.call.Answered? <==> |items| <= cfg.maxPerRequest && !w.queue.stopping && es == [])
            && (!s'.call.Waiting? ==> w' == w)
  {
    PostQueues(cfg, rc, refused, lim, s, id);
    hide EventsIn, Rejected, TimedStep;
  }

  /** How often `x` occurs. */
  function Copies<T(==)>(xs: seq<T>, x: T): nat
    decreases |xs|
  {
    if xs == [] then 0 else Copies(xs[1..], x) + if xs[0] == x then 1 else 0
  }

  lemma {:induction false} CopiesConcat<T>(a: seq<T>, b: seq<T>, x: T)
    ensures Copies(a + b, x) == Copies(a, x) + Copies(b, x)
  {
    if a == [] {
      assert a + b == b;
    } else {
      assert (a + b)[1..] == a[1..] + b && (a + b)[0] == a[0];
      CopiesConcat(a[1..], b, x);
    }
  }

  lemma {:induction false} CopyOfMember<T>(xs: seq<T>, x: T)
    requires x in xs
    ensures Copies(xs, x) > 0
  {
    if xs[0] != x {
      CopyOfMember(xs[1..], x);
    }
  }

  /** The letters of a post are the items that are not of the accepted age, as many of each as the batch
      has. */
  lemma {:induction false} LettersAreTheOthers(rc: R.Config, at: int, batch: nat, items: seq<Item>, item: Item, other: nat)
    ensures Copies(Rejected(BoundsAt(rc, at), batch, items), Letter(other, item))
         == if batch == other && !AcceptableAt(rc, item, at) then Copies(items, item) else 0
  {
    if items != [] {
      LettersAreTheOthers(rc, at, batch, items[1..], item, other);
      if !Accepts(BoundsAt(rc, at), items[0]) {
        assert Rejected(BoundsAt(rc, at), batch, items)[1..] == Rejected(BoundsAt(rc, at), batch, items[1..]);
      }
    }
  }

  /** Junk is rejected at every post. */
  lemma JunkIsRejected(rc: R.Config, at: int, batch: nat, items: seq<Item>, junk: Item, other: nat)
    requires junk.Junk?
    ensures Copies(Rejected(BoundsAt(rc, at), batch, items), Letter(other, junk)) == if batch == other then Copies(items, junk) else 0
  {
    LettersAreTheOthers(rc, at, batch, items, junk, other);
  }

  function Times(m: nat, n: nat): nat {
    m * n
  }

  lemma {:induction false} LettersPerPost(rc: R.Config, batches: seq<seq<Item>>, posts: seq<Stamp>, batch: nat, junk: Item)
    requires junk.Junk? && batch < |batches| && forall p :: p in posts ==> p.batch < |batches|
    ensures Copies(LetterLog(rc, batches, posts), Letter(batch, junk)) == Times(Copies(batches[batch], junk), Count(posts, batch))
    decreases |posts|
  {
    if posts != [] {
      var n := |posts| - 1;
      var last, before := posts[n], posts[..n];
      assert posts == before + [last] && last in posts;
      LettersPerPost(rc, batches, before, batch, junk);
      hide LetterLog, Count, Rejected, Times, Copies;
      JunkIsRejected(rc, last.at, last.batch, batches[last.batch], junk, batch);
      LetterLogMore(rc, batches, before, last);
      CopiesConcat(LetterLog(rc, batches, before),
                   Rejected(BoundsAt(rc, last.at), last.batch, batches[last.batch]), Letter(batch, junk));
      CountMore(before, last, batch);
      TimesOneMore(Copies(batches[batch], junk), Count(before, batch), last.batch == batch);
    }
  }

  lemma TimesOneMore(m: nat, n: nat, more: bool)
    ensures Times(m, n + if more then 1 else 0) == Times(m, n) + if more then m else 0
  {
  }

  /** In every run the dead letters are exactly the items that were invalid at a post that was not refused,
      post by post in order; junk is therefore dead-lettered once for every such post of its batch; and
      such a post lost its reply, was acknowledged, or is still awaited. */
  lemma DeadLettersCountPosts(
    cfg: Config, rc: R.Config, refused: Filter, lim: Limits, clock: int, store: Store, acts: seq<Act>, b: nat, junk: Item)
    requires rc.delay <= R.Days(rc.rawDays) - rc.maxAge
    requires Sound(store) && R.HorizonInv(rc, R.Ledger(clock, store))
    requires ChainLegal(cfg, rc, refused, lim, Start(clock, store), acts)
    requires b < |ChainRun(cfg, rc, refused, lim, Start(clock, store), acts).books.batches| && junk.Junk?
    ensures var s := ChainRun(cfg, rc, refused, lim, Start(clock, store), acts); var k := s.books;
            && s.deadLettered == LetterLog(rc, k.batches, k.posts)
            && Copies(s.deadLettered, Letter(b, junk)) == Copies(k.batches[b], junk) * Count(k.posts, b)
            && Count(k.posts, b) == Count(k.lostReplies, b) + Count(k.finished, b) + Open(Awaited(s), b)
            && Count(k.finished, b) <= 1
            && (Count(k.finished, b) == 1 ==> Open(Awaited(s), b) == 0)
  {
    StartIsInv(rc, refused, lim, clock, store);
    RunKeepsInv(cfg, rc, refused, lim, Start(clock, store), acts);
    var s := ChainRun(cfg, rc, refused, lim, Start(clock, store), acts);
    hide ChainRun, ChainLegal, Conserved, AckInv, CallInv, TimedInv, Start, LetterLog, Count, Copies, R.HorizonInv,
      R.Days, Sound;
    LettersPerPost(rc, s.books.batches, s.books.posts, b, junk);
  }

  /** The junk of an acknowledged batch is dead-lettered exactly as often as it occurs in the batch if and
      only if the batch never lost the reply to a post that was not refused. */
  lemma DeadLetteredOnceExactly(
    cfg: Config, rc: R.Config, refused: Filter, lim: Limits, clock: int, store: Store, acts: seq<Act>, b: nat, junk: Item)
    requires rc.delay <= R.Days(rc.rawDays) - rc.maxAge
    requires Sound(store) && R.HorizonInv(rc, R.Ledger(clock, store))
    requires ChainLegal(cfg, rc, refused, lim, Start(clock, store), acts)
    requires b < |ChainRun(cfg, rc, refused, lim, Start(clock, store), acts).books.batches|
    requires Count(ChainRun(cfg, rc, refused, lim, Start(clock, store), acts).books.finished, b) == 1
    requires junk.Junk? && junk in ChainRun(cfg, rc, refused, lim, Start(clock, store), acts).books.batches[b]
    ensures var s := ChainRun(cfg, rc, refused, lim, Start(clock, store), acts); var k := s.books;
            Copies(s.deadLettered, Letter(b, junk)) == Copies(k.batches[b], junk) <==> Count(k.lostReplies, b) == 0
  {
    hide *;
    var s := ChainRun(cfg, rc, refused, lim, Start(clock, store), acts);
    DeadLettersCountPosts(cfg, rc, refused, lim, clock, store, acts, b, junk);
    var m, n := Copies(s.books.batches[b], junk), Count(s.books.lostReplies, b);
    CopyOfMember(s.books.batches[b], junk);
    OnlyOnce(m, n);
  }

  lemma OnlyOnce(m: nat, n: nat)
    requires m > 0
    ensures m * (n + 1) == m <==> n == 0
  {
    assert m * (n + 1) == m * n + m;
    if n > 0 {
      assert m * n >= m;
    }
  }

  // ---- Progress --------------------------------------------------------------------------------------------

  /** Every request that waits was validated within the allowed delay. */
  ghost predicate Recent(rc: R.Config, w: World) {
    forall i :: |w.writer.receipts| <= i < |w.stamps| ==> w.clock <= w.stamps[i] + rc.delay
  }

  /** The writer's own steps as steps of the chain. */
  function Served(actions: seq<Action>): seq<Act> {
    if actions == [] then [] else [Server(Serve(actions[0]))] + Served(actions[1..])
  }

  lemma ServeOne(cfg: Config, rc: R.Config, refused: Filter, lim: Limits, s: Chain, a: Action)
    requires Recent(rc, s.server) && Enabled(s.server.writer, a) && WP.Undisturbed(a)
    ensures Allowed(rc, s, Server(Serve(a)))
    ensures var w' := World(s.server.clock, Writer.Step(refused, lim, s.server.writer, a), s.server.stamps);
            ChainStep(cfg, rc, refused, lim, s, Server(Serve(a))) == s.(server := w') && Recent(rc, w')
  {
    OneAction(refused, lim, s.server.writer, a);
    WriterAppends(refused, lim, s.server.writer, a);
    hide EO.Run, Writer.Step, Enabled;
  }

  lemma {:induction false} ServeAll(cfg: Config, rc: R.Config, refused: Filter, lim: Limits, s: Chain, actions: seq<Action>)
    requires Recent(rc, s.server) && EO.Legal(refused, lim, s.server.writer, actions)
    requires forall a :: a in actions ==> WP.Undisturbed(a)
    ensures ChainLegal(cfg, rc, refused, lim, s, Served(actions))
    ensures ChainRun(cfg, rc, refused, lim, s, Served(actions))
         == s.(server := World(s.server.clock, EO.Run(refused, lim, s.server.writer, actions), s.server.stamps))
    decreases |actions|
  {
    if actions != [] {
      ServeOne(cfg, rc, refused, lim, s, actions[0]);
      var s' := ChainStep(cfg, rc, refused, lim, s, Server(Serve(actions[0])));
      hide Recent, ChainStep, Allowed, Writer.Step, WP.Undisturbed, Enabled;
      ServeAll(cfg, rc, refused, lim, s', actions[1..]);
      assert Served(actions)[0] == Server(Serve(actions[0])) && Served(actions)[1..] == Served(actions[1..]);
    }
  }

  lemma {:induction false} OneMoreAct(cfg: Config, rc: R.Config, refused: Filter, lim: Limits, s: Chain, acts: seq<Act>, a: Act)
    requires ChainLegal(cfg, rc, refused, lim, s, acts)
    requires Allowed(rc, ChainRun(cfg, rc, refused, lim, s, acts), a)
    ensures ChainLegal(cfg, rc, refused, lim, s, acts + [a])
    ensures ChainRun(cfg, rc, refused, lim, s, acts + [a])
         == ChainStep(cfg, rc, refused, lim, ChainRun(cfg, rc, refused, lim, s, acts), a)
    decreases |acts|
  {
    hide ChainStep, Allowed;
    if acts == [] {
      var s' := ChainStep(cfg, rc, refused, lim, s, a);
      assert [a][1..] == [] && ([] + [a])[0] == a;
      assert ChainLegal(cfg, rc, refused, lim, s', []) && ChainRun(cfg, rc, refused, lim, s', []) == s';
    } else {
      assert (acts + [a])[0] == acts[0] && (acts + [a])[1..] == acts[1..] + [a];
      OneMoreAct(cfg, rc, refused, lim, ChainStep(cfg, rc, refused, lim, s, acts[0]), acts[1..], a);
    }
  }

  lemma RecentIsTimely(rc: R.Config, w: World)
    requires rc.delay <= R.Days(rc.rawDays) - rc.maxAge
    requires StampInv(rc, w) && R.HorizonInv(rc, Ledger(w)) && Recent(rc, w)
    ensures Timely(w.writer.machine.store, EventsOf(WP.Outstanding(w.writer)))
  {
    var s := w.writer;
    forall e | e in EventsOf(WP.Outstanding(s)) ensures Kept(s.machine.store.rawHorizon, e.occurredAt) {
      InSomeRequest(WP.Outstanding(s), e);
      var j :| 0 <= j < |WP.Outstanding(s)| && e in WP.Outstanding(s)[j].events;
      var i := |s.receipts| + j;
      assert s.accepted[i] == WP.Outstanding(s)[j];
      assert w.clock <= w.stamps[i] + rc.delay && Valid(rc, w.stamps[i], s.accepted[i].events);
      hide R.Days, EventsOf;
      assert w.clock - R.Days(rc.rawDays) <= e.occurredAt;
    }
  }

  /** The writer's own steps complete every accepted request, with the chain around it unchanged. */
  lemma ServerCatchesUp(cfg: Config, rc: R.Config, refused: Filter, lim: Limits, s: Chain) returns (acts: seq<Act>, w': State)
    requires rc.delay <= R.Days(rc.rawDays) - rc.maxAge
    requires TimedInv(rc, refused, lim, s.server) && !s.server.writer.phase.TimedOut? && Recent(rc, s.server)
    ensures ChainLegal(cfg, rc, refused, lim, s, acts) && |w'.receipts| == |s.server.writer.accepted|
    ensures ChainRun(cfg, rc, refused, lim, s, acts) == s.(server := World(s.server.clock, w', s.server.stamps))
  {
    RecentIsTimely(rc, s.server);
    hide R.Days, R.HorizonInv, StampInv, EO.Inv, Timely;
    var rest := WP.AcceptedRequestsComplete(refused, lim, s.server.writer);
    hide *;
    ServeAll(cfg, rc, refused, lim, s, rest);
    acts, w' := Served(rest), EO.Run(refused, lim, s.server.writer, rest);
    assert |Requests(w'.receipts)| == |w'.receipts|;
  }

  /** A producer that awaits its reply gets it: from every such state that a run reaches, while the writer
      has not been cancelled and the waiting requests are recent, the writer's own steps complete the
      request once connections stay up, and then the batch can be acknowledged. */
  lemma AwaitedBatchIsAcknowledged(cfg: Config, rc: R.Config, refused: Filter, lim: Limits, s: Chain) returns (acts: seq<Act>)
    requires rc.delay <= R.Days(rc.rawDays) - rc.maxAge
    requires ChainInv(rc, refused, lim, s) && s.call.Waiting?
    requires !s.server.writer.phase.TimedOut? && Recent(rc, s.server)
    ensures ChainLegal(cfg, rc, refused, lim, s, acts)
    ensures var s' := ChainRun(cfg, rc, refused, lim, s, acts);
            && s.producer.hand.Some? && s'.producer.hand.None? && s'.call.NoCall?
            && s'.books.acknowledged == s.books.acknowledged + s.producer.hand.value
            && s'.losses == s.losses && s'.producer.buffer == s.producer.buffer
  {
    assert CallInv(rc, s) && TimedInv(rc, refused, lim, s.server);
    hide ChainInv, CallInv, TimedInv, Recent, R.Days, ChainRun, ChainLegal;
    var more, w' := ServerCatchesUp(cfg, rc, refused, lim, s);
    var s1 := ChainRun(cfg, rc, refused, lim, s, more);
    WaitingIsReady(rc, s, s1);
    hide Allowed;
    OneMoreAct(cfg, rc, refused, lim, s, more, Acknowledge);
    acts := more + [Acknowledge];
  }

  lemma WaitingIsReady(rc: R.Config, s: Chain, s1: Chain)
    requires CallInv(rc, s) && s.call.Waiting? && s1 == s.(server := s1.server)
    requires |s1.server.writer.receipts| == |s.server.writer.accepted|
    ensures Allowed(rc, s1, Acknowledge) && s.producer.hand.Some?
  {
    hide EventsIn, Accepts;
  }

  // ---- The sender's buffer as an object -----------------------------------------------------------

  class Sender {
    const maxBatch: nat
    const maxBuffer: nat
    var buffer: seq<Item>
    var droppedBufferFull: nat

    constructor (maxBatch: nat, maxBuffer: nat)
      ensures this.maxBatch == maxBatch && this.maxBuffer == maxBuffer && buffer == [] && droppedBufferFull == 0
    {
      this.maxBatch, this.maxBuffer, buffer, droppedBufferFull := maxBatch, maxBuffer, [], 0;
    }

    /** The oldest items make room for fresh ones. */
    method Enqueue(items: seq<Item>)
      modifies this
      ensures var all := old(buffer) + items; var n := Overflow(all, maxBuffer);
              buffer == all[n..] && droppedBufferFull == old(droppedBufferFull) + n
    {
      buffer := buffer + items;
      ghost var all := buffer;
      var overflow := if |buffer| > maxBuffer then |buffer| - maxBuffer else 0;
      for i := 0 to overflow
        invariant buffer == all[i..]
        invariant droppedBufferFull == old(droppedBufferFull)
      {
        buffer := buffer[1..];
      }
      droppedBufferFull := droppedBufferFull + overflow;
    }

    method TakeBatch() returns (batch: seq<Item>)
      modifies this`buffer
      ensures var n := Smaller(maxBatch, |old(buffer)|);
              batch == old(buffer)[..n] && buffer == old(buffer)[n..]
    {
      var n := Smaller(maxBatch, |buffer|);
      batch := [];
      for i := 0 to n
        invariant batch == old(buffer)[..i] && buffer == old(buffer)[i..]
      {
        batch := batch + [buffer[0]];
        buffer := buffer[1..];
      }
    }
  }
}
