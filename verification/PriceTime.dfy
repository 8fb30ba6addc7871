/** The two key orders of an order book and the ordered maps built on them.

    A `BTreeMap<BidKey, Order>` is a sequence of orders whose keys strictly increase
    in the bid order; likewise for asks.  The key of an entry is a function of the
    order stored there, because no operation changes a price, a time or an id. */
module PriceTime {
  import opened Types

  datatype Key = Key(price: Option<int>, createdAt: nat, id: nat)

  function KeyOf(o: Order): Key {
    Key(o.price, o.createdAt, o.id)
  }

  predicate Earlier(a: Key, b: Key) {
    a.createdAt < b.createdAt || (a.createdAt == b.createdAt && a.id < b.id)
  }

  /** Bids: higher price first, unpriced last, then time, then id. */
  predicate BidBefore(a: Key, b: Key) {
    match (a.price, b.price)
    case (None, None) => Earlier(a, b)
    case (None, Some(_)) => false
    case (Some(_), None) => true
    case (Some(p), Some(q)) => p > q || (p == q && Earlier(a, b))
  }

  /** Asks: lower price first, unpriced last, then time, then id. */
  predicate AskBefore(a: Key, b: Key) {
    match (a.price, b.price)
    case (None, None) => Earlier(a, b)
    case (None, Some(_)) => false
    case (Some(_), None) => true
    case (Some(p), Some(q)) => p < q || (p == q && Earlier(a, b))
  }

  predicate Before(side: Side, a: Key, b: Key) {
    match side
    case Buy => BidBefore(a, b)
    case Sell => AskBefore(a, b)
  }

  ghost predicate Sorted(side: Side, s: seq<Order>) {
    forall i, j :: 0 <= i < j < |s| ==> Before(side, KeyOf(s[i]), KeyOf(s[j]))
  }

  /** `BTreeMap::insert`: an entry with an equal key is replaced. */
  function Put(side: Side, s: seq<Order>, o: Order): (r: seq<Order>)
    ensures o in r
    ensures forall x :: x in r ==> x == o || x in s
    ensures forall x :: x in s && KeyOf(x) != KeyOf(o) ==> x in r
  {
    if s == [] then [o]
    else if KeyOf(o) == KeyOf(s[0]) then [o] + s[1..]
    else if Before(side, KeyOf(o), KeyOf(s[0])) then [o] + s
    else
      assert s == [s[0]] + s[1..];
      [s[0]] + Put(side, s[1..], o)
  }

  /** `BTreeMap::remove` of the entry at position `i`. */
  function RemoveAt(s: seq<Order>, i: nat): (r: seq<Order>)
    requires i < |s|
    ensures |r| == |s| - 1
  {
    s[..i] + s[i + 1..]
  }

  /** `iter().find(|o| o.id == id)`: the first position holding `id`, or the length. */
  function IndexOf(s: seq<Order>, id: nat): (i: nat)
    ensures i <= |s|
    ensures i < |s| ==> s[i].id == id
    ensures forall k :: 0 <= k < i ==> s[k].id != id
  {
    if s == [] || s[0].id == id then 0
    else
      var j := IndexOf(s[1..], id);
      assert forall k :: 0 < k < 1 + j ==> s[k] == s[1..][k - 1];
      1 + j
  }

  /** Each key order is a strict total order, so a sorted book has exactly one layout. */
  lemma BeforeIsTotalOrder(side: Side, a: Key, b: Key, c: Key)
    ensures !Before(side, a, a)
    ensures Before(side, a, b) || a == b || Before(side, b, a)
    ensures Before(side, a, b) ==> !Before(side, b, a)
    ensures Before(side, a, b) && Before(side, b, c) ==> Before(side, a, c)
  {
  }

  lemma SortedTail(side: Side, s: seq<Order>)
    requires Sorted(side, s) && s != []
    ensures Sorted(side, s[1..])
    ensures forall x :: x in s[1..] ==> Before(side, KeyOf(s[0]), KeyOf(x))
  {
    hide Before, KeyOf;
  }

  lemma SortedCons(side: Side, o: Order, s: seq<Order>)
    requires Sorted(side, s)
    requires forall x :: x in s ==> Before(side, KeyOf(o), KeyOf(x))
    ensures Sorted(side, [o] + s)
  {
    hide Before, KeyOf;
    var r := [o] + s;
    forall i, j | 0 <= i < j < |r|
      ensures Before(side, KeyOf(r[i]), KeyOf(r[j]))
    {
      assert r[j] == s[j - 1];
    }
  }

  lemma {:induction false} PutSorted(side: Side, s: seq<Order>, o: Order)
    requires Sorted(side, s)
    ensures Sorted(side, Put(side, s, o))
    ensures forall x :: x in Put(side, s, o) <==> x == o || (x in s && KeyOf(x) != KeyOf(o))
  {
    hide Before, KeyOf;
    if s != [] {
      var h, tail := s[0], s[1..];
      SortedTail(side, s);
      assert s == [h] + tail;
      BeforeIsTotalOrder(side, KeyOf(o), KeyOf(h), KeyOf(o));
      forall x | x in tail ensures Before(side, KeyOf(o), KeyOf(h)) ==> Before(side, KeyOf(o), KeyOf(x)) {
        BeforeIsTotalOrder(side, KeyOf(o), KeyOf(h), KeyOf(x));
      }
      forall x | x in s && KeyOf(x) == KeyOf(o) ensures !Before(side, KeyOf(o), KeyOf(x)) {
        BeforeIsTotalOrder(side, KeyOf(o), KeyOf(o), KeyOf(o));
      }
      if KeyOf(o) == KeyOf(h) {
        SortedCons(side, o, tail);
      } else if Before(side, KeyOf(o), KeyOf(h)) {
        SortedCons(side, o, s);
      } else {
        PutSorted(side, tail, o);
        SortedCons(side, h, Put(side, tail, o));
      }
    }
  }

  lemma RemoveAtSorted(side: Side, s: seq<Order>, i: nat)
    requires Sorted(side, s) && i < |s|
    ensures Sorted(side, RemoveAt(s, i))
    ensures forall x :: x in RemoveAt(s, i) <==> x in s && x != s[i]
  {
    BeforeIsTotalOrder(side, KeyOf(s[i]), KeyOf(s[i]), KeyOf(s[i]));
    hide Before, KeyOf;
    forall x | x in s && x != s[i]
      ensures x in RemoveAt(s, i)
    {
      var k :| 0 <= k < |s| && s[k] == x;
      if k < i {
        assert RemoveAt(s, i)[k] == x;
      } else {
        assert RemoveAt(s, i)[k - 1] == x;
      }
    }
  }

  /** A sorted side is determined by the orders it holds. */
  lemma {:induction false} SortedUnique(side: Side, s: seq<Order>, t: seq<Order>)
    requires Sorted(side, s) && Sorted(side, t)
    requires forall x :: x in s <==> x in t
    ensures s == t
  {
    if t != [] {
      assert t[0] in s;
    }
    if s != [] {
      assert s[0] in t;
      assert t[0] in s;
      assert s[0] == t[0];
      SortedTail(side, s);
      SortedTail(side, t);
      BeforeIsTotalOrder(side, KeyOf(s[0]), KeyOf(s[0]), KeyOf(s[0]));
      assert s == [s[0]] + s[1..] && t == [t[0]] + t[1..];
      assert s[0] !in s[1..] && t[0] !in t[1..];
      forall x ensures x in s[1..] <==> x in t[1..] {
        if x != s[0] {
          assert x in s <==> x in s[1..];
          assert x in t <==> x in t[1..];
        }
      }
      SortedUnique(side, s[1..], t[1..]);
    }
  }

  lemma OverwriteSorted(side: Side, s: seq<Order>, i: nat, o: Order)
    requires Sorted(side, s) && i < |s| && KeyOf(o) == KeyOf(s[i])
    ensures Sorted(side, s[i := o])
    ensures forall x :: x in s[i := o] <==> x == o || (x in s && KeyOf(x) != KeyOf(o))
  {
    BeforeIsTotalOrder(side, KeyOf(o), KeyOf(o), KeyOf(o));
    hide Before, KeyOf;
    var r := s[i := o];
    assert r[i] == o;
    forall k | 0 <= k < |s|
      ensures KeyOf(r[k]) == KeyOf(s[k])
      ensures k != i ==> r[k] == s[k] && KeyOf(s[k]) != KeyOf(o)
    {
    }
    forall x | x in s && KeyOf(x) != KeyOf(o) ensures x in r {
      var k :| 0 <= k < |s| && s[k] == x;
      assert r[k] == x;
    }
  }

  /** Taking an entry out and inserting it again under its own key overwrites it in place. */
  lemma PutBack(side: Side, s: seq<Order>, i: nat, o: Order)
    requires Sorted(side, s) && i < |s| && KeyOf(o) == KeyOf(s[i])
    ensures Put(side, RemoveAt(s, i), o) == s[i := o]
  {
    hide Before, KeyOf, Sorted, Put, RemoveAt;
    RemoveAtSorted(side, s, i);
    PutSorted(side, RemoveAt(s, i), o);
    OverwriteSorted(side, s, i, o);
    SortedUnique(side, Put(side, RemoveAt(s, i), o), s[i := o]);
  }
}
