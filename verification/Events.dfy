/** Order events as the pipeline sees them after validation, and the calendar arithmetic on
    their timestamps. Instants are microseconds since the epoch in UTC, money is in centimes. */
module Events {
  const MINUTE: int := 60_000_000
  const HOUR: int := 60 * MINUTE
  const DAY: int := 24 * HOUR

  /** A text value (category, city, ...): only equality and collation order matter here. */
  type Label = nat

  datatype Option<+T> = None | Some(value: T)

  datatype EventType = Placed | Paid | Shipped | Cancelled

  datatype Event = Event(
    id: nat,
    orderId: nat,
    eventType: EventType,
    occurredAt: int,
    amount: int,
    category: Label,
    city: Label,
    paymentMethod: Label,
    customerId: Label)

  /** The primary key of the partitioned `events` table. */
  datatype Key = Key(id: nat, at: int)

  function KeyOf(e: Event): Key {
    Key(e.id, e.occurredAt)
  }

  function Keys(es: seq<Event>): set<Key> {
    set e | e in es :: KeyOf(e)
  }

  ghost predicate DistinctKeys(es: seq<Event>) {
    forall i, j :: 0 <= i < j < |es| ==> KeyOf(es[i]) != KeyOf(es[j])
  }

  /** `date_trunc` to a multiple of `width`, in UTC. */
  function Floor(width: int, t: int): int
    requires width > 0
  {
    t - t % width
  }

  /** The UTC calendar day an instant belongs to. */
  function DayOf(t: int): int {
    t / DAY
  }

  function DayStart(day: int): int {
    day * DAY
  }

  /** An instant lies in the half-open interval of its own day, and of no other. */
  lemma DayBounds(t: int, day: int)
    ensures DayOf(t) == day <==> DayStart(day) <= t < DayStart(day + 1)
    ensures DayStart(day) == day * 24 * 60 * 60 * 1_000_000
  {
    assert t == DAY * (t / DAY) + t % DAY;
  }

  lemma DayMonotone(a: int, b: int)
    requires a <= b
    ensures DayOf(a) <= DayOf(b)
  {
    DayBounds(a, DayOf(a));
    DayBounds(b, DayOf(b));
  }

  datatype TimeBounds = TimeBounds(now: int, maxFutureSkew: int, maxAge: int)

  /** The accepted-age window of the validator: both ends are inclusive. */
  predicate WithinTimeBounds(at: int, b: TimeBounds) {
    !(at > b.now + b.maxFutureSkew) && !(at < b.now - b.maxAge)
  }

  /** The events of `es` whose key is not known yet, each key once, in order. */
  function News(known: set<Key>, es: seq<Event>): seq<Event>
    decreases |es|
  {
    if es == [] then []
    else if KeyOf(es[0]) in known then News(known, es[1..])
    else [es[0]] + News(known + {KeyOf(es[0])}, es[1..])
  }

  lemma {:induction false} NewsConcat(known: set<Key>, a: seq<Event>, b: seq<Event>)
    ensures News(known, a + b) == News(known, a) + News(known + Keys(a), b)
    decreases |a|
  {
    if a == [] {
      assert a + b == b && known + Keys(a) == known;
    } else {
      assert (a + b)[1..] == a[1..] + b && (a + b)[0] == a[0];
      assert Keys(a) == {KeyOf(a[0])} + Keys(a[1..]);
      if KeyOf(a[0]) in known {
        NewsConcat(known, a[1..], b);
        assert known + Keys(a[1..]) == known + Keys(a);
      } else {
        NewsConcat(known + {KeyOf(a[0])}, a[1..], b);
        assert known + {KeyOf(a[0])} + Keys(a[1..]) == known + Keys(a);
      }
    }
  }

  lemma {:induction false} NewsOfKnown(known: set<Key>, es: seq<Event>)
    requires Keys(es) <= known
    ensures News(known, es) == []
    decreases |es|
  {
    if es != [] {
      assert KeyOf(es[0]) in Keys(es);
      assert Keys(es[1..]) <= Keys(es);
      NewsOfKnown(known, es[1..]);
    }
  }

  /** The news add exactly the keys of `es`, and none that was known. */
  lemma {:induction false} NewsKeys(known: set<Key>, es: seq<Event>)
    ensures known + Keys(News(known, es)) == known + Keys(es)
    ensures Keys(News(known, es)) !! known
    decreases |es|
  {
    if es != [] {
      var k := KeyOf(es[0]);
      KeysConcat([es[0]], es[1..]);
      assert [es[0]] + es[1..] == es && Keys([es[0]]) == {k};
      if k in known {
        NewsKeys(known, es[1..]);
      } else {
        NewsKeys(known + {k}, es[1..]);
        KeysConcat([es[0]], News(known + {k}, es[1..]));
      }
    }
  }

  lemma {:induction false} NewsDistinct(known: set<Key>, es: seq<Event>)
    ensures DistinctKeys(News(known, es))
    ensures forall e :: e in News(known, es) ==> e in es
    decreases |es|
  {
    if es != [] {
      var k := KeyOf(es[0]);
      if k in known {
        NewsDistinct(known, es[1..]);
      } else {
        NewsDistinct(known + {k}, es[1..]);
        NewsKeys(known + {k}, es[1..]);
        var rest := News(known + {k}, es[1..]);
        assert forall i :: 0 <= i < |rest| ==> KeyOf(rest[i]) in Keys(rest);
      }
    }
  }

  lemma KeysConcat(a: seq<Event>, b: seq<Event>)
    ensures Keys(a + b) == Keys(a) + Keys(b)
  {
  }

  /** Replaying a stretch that was already absorbed changes nothing: the part of `b` that lies
      beyond `a` is all that is new. */
  lemma NewsReplay(known: set<Key>, a: seq<Event>, again: seq<Event>, b: seq<Event>)
    requires Keys(again) <= known + Keys(a)
    ensures News(known, a) + News(known + Keys(a), again + b) == News(known, a + b)
  {
    NewsConcat(known + Keys(a), again, b);
    NewsOfKnown(known + Keys(a), again);
    assert known + Keys(a) + Keys(again) == known + Keys(a);
    NewsConcat(known, a, b);
  }
}
