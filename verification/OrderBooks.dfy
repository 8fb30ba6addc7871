/** The in-memory order book of one market, updated in place.

    Every method is tied to a function on book values: matching to the single-pass
    `MatchOrder`, replay to `ApplyFill`, cancellation to `CancelOrder`. */
module OrderBooks {
  import opened Types
  import opened PriceTime
  import opened Matching
  import opened Replay

  /** What each map keeps: it is ordered and holds orders of its own side only. */
  ghost predicate ValidSide(side: Side, s: seq<Order>) {
    Sorted(side, s) && forall x :: x in s ==> x.side == side
  }

  ghost predicate ValidBook(b: Book) {
    ValidSide(Buy, b.bids) && ValidSide(Sell, b.asks)
  }

  lemma PutValid(side: Side, s: seq<Order>, o: Order)
    requires ValidSide(side, s) && o.side == side
    ensures ValidSide(side, Put(side, s, o))
  {
    PutSorted(side, s, o);
  }

  /** Taking the entry at `j` out, and putting it back `q` units smaller. */
  lemma TakeAndReturn(side: Side, s: seq<Order>, j: nat, q: int)
    requires ValidSide(side, s) && j < |s|
    ensures s[j].side == side && ValidSide(side, RemoveAt(s, j))
    ensures Put(side, RemoveAt(s, j), Reduce(s[j], q)) == s[j := Reduce(s[j], q)]
    ensures ValidSide(side, s[j := Reduce(s[j], q)])
  {
    assert s[j] in s;
    RemoveAtSorted(side, s, j);
    PutBack(side, s, j, Reduce(s[j], q));
    PutValid(side, RemoveAt(s, j), Reduce(s[j], q));
  }

  lemma TakeBack(side: Side, s: seq<Order>, j: nat)
    requires ValidSide(side, s) && j < |s|
    ensures Put(side, RemoveAt(s, j), s[j]) == s
  {
    PutBack(side, s, j, s[j]);
    assert s[j := s[j]] == s;
  }

  class OrderBook {
    var bids: seq<Order>
    var asks: seq<Order>

    ghost predicate Valid()
      reads this
    {
      ValidBook(State())
    }

    /** The book as a value: its clone, and its snapshot in priority order. */
    function State(): Book
      reads this
    {
      Book(bids, asks)
    }

    constructor ()
      ensures Valid() && State() == Book([], [])
    {
      bids, asks := [], [];
    }

    constructor CloneOf(b: Book)
      requires ValidBook(b)
      ensures Valid() && State() == b
    {
      bids, asks := b.bids, b.asks;
    }

    method Insert(order: Order)
      requires Valid()
      modifies this
      ensures Valid() && State() == InsertOrder(old(State()), order)
    {
      match order.side {
        case Buy =>
          PutValid(Buy, bids, order);
          bids := Put(Buy, bids, order);
        case Sell =>
          PutValid(Sell, asks, order);
          asks := Put(Sell, asks, order);
      }
    }

    method RemoveOrderById(id: nat) returns (found: Option<Order>)
      requires Valid()
      modifies this
      ensures Valid()
      ensures match RemoveById(old(State()), id)
              case None => found == None && State() == old(State())
              case Some((o, b)) => found == Some(o) && State() == b
      ensures found.Some? && found.value.side == Buy ==> asks == old(asks)
      ensures found.Some? && found.value.side == Sell ==> bids == old(bids)
    {
      var i := IndexOf(bids, id);
      if i < |bids| {
        assert bids[i] in bids;
        RemoveAtSorted(Buy, bids, i);
        found := Some(bids[i]);
        bids := RemoveAt(bids, i);
        return;
      }
      var j := IndexOf(asks, id);
      if j < |asks| {
        assert asks[j] in asks;
        RemoveAtSorted(Sell, asks, j);
        found := Some(asks[j]);
        asks := RemoveAt(asks, j);
        return;
      }
      found := None;
    }

    /** The loop of an incoming buy: re-scan the asks after every fill. */
    method MatchBuy(market: string, order: Order) returns (incoming: Order, events: seq<MatchEvent>)
      requires Valid() && order.side == Buy
      modifies this`asks
      ensures Valid()
      ensures Swept(incoming, asks, events) == Sweep(market, order, old(asks))
      ensures incoming.side == Buy
    {
      hide Sweep, Fill, Eligible, Before, Put;
      incoming, events := order, [];
      while incoming.remaining > 0
        invariant incoming.side == Buy && ValidSide(Sell, asks)
        invariant Sweep(market, order, old(asks)) == After(events, Sweep(market, incoming, asks))
        decreases if incoming.remaining > 0 then 1 + |asks| else 0
      {
        var j := FirstEligible(incoming, asks);
        if j == |asks| {
          break;
        }
        var ask := asks[j];
        var matched := Min(incoming.remaining, ask.remaining);
        if matched == 0 {
          break;
        }
        RescanStep(market, incoming, asks);
        TakeAndReturn(Sell, asks, j, matched);
        events := events + [Fill(market, incoming, ask, matched)];
        incoming := Reduce(incoming, matched);
        ask := Reduce(ask, matched);
        asks := RemoveAt(asks, j);
        if ask.remaining > 0 {
          asks := Put(Sell, asks, ask);
        }
      }
      RescanStuck(market, incoming, asks);
    }

    /** The loop of an incoming sell: re-scan the bids after every fill. */
    method MatchSell(market: string, order: Order) returns (incoming: Order, events: seq<MatchEvent>)
      requires Valid() && order.side == Sell
      modifies this`bids
      ensures Valid()
      ensures Swept(incoming, bids, events) == Sweep(market, order, old(bids))
      ensures incoming.side == Sell
    {
      hide Sweep, Fill, Eligible, Before, Put;
      incoming, events := order, [];
      while incoming.remaining > 0
        invariant incoming.side == Sell && ValidSide(Buy, bids)
        invariant Sweep(market, order, old(bids)) == After(events, Sweep(market, incoming, bids))
        decreases if incoming.remaining > 0 then 1 + |bids| else 0
      {
        var j := FirstEligible(incoming, bids);
        if j == |bids| {
          break;
        }
        var bid := bids[j];
        var matched := Min(incoming.remaining, bid.remaining);
        if matched == 0 {
          break;
        }
        RescanStep(market, incoming, bids);
        TakeAndReturn(Buy, bids, j, matched);
        events := events + [Fill(market, incoming, bid, matched)];
        incoming := Reduce(incoming, matched);
        bid := Reduce(bid, matched);
        bids := RemoveAt(bids, j);
        if bid.remaining > 0 {
          bids := Put(Buy, bids, bid);
        }
      }
      RescanStuck(market, incoming, bids);
    }

    /** Match a resting order as taker. */
    method MatchOrders(market: string, incomingId: nat) returns (events: seq<MatchEvent>)
      requires Valid()
      modifies this
      ensures Valid()
      ensures (State(), events) == MatchOrder(old(State()), market, incomingId)
    {
      events := [];
      var found := RemoveOrderById(incomingId);
      if found == None {
        return;
      }
      var incoming := found.value;
      match incoming.side {
        case Buy =>
          incoming, events := MatchBuy(market, incoming);
        case Sell =>
          incoming, events := MatchSell(market, incoming);
      }
      if incoming.remaining > 0 {
        Insert(incoming);
      }
    }

    method Cancel(id: nat)
      requires Valid()
      modifies this
      ensures Valid() && State() == CancelOrder(old(State()), id)
    {
      WithoutSorted(Buy, bids, id);
      bids := Without(bids, id);
      WithoutSorted(Sell, asks, id);
      asks := Without(asks, id);
    }

    /** Apply one recorded fill; on an error the book is as it was. */
    method ApplyMatchFill(e: MatchEvent) returns (r: Result<(), FillError>)
      requires Valid()
      modifies this
      ensures Valid()
      ensures match ApplyFill(old(State()), e)
              case Ok(b) => r == Ok(()) && State() == b
              case Err(err) => r == Err(err) && State() == old(State())
    {
      if e.quantity <= 0 {
        return Err(NonPositiveQuantity);
      }
      var i, j := IndexOf(bids, e.bidOrder), IndexOf(asks, e.askOrder);
      if i == |bids| || j == |asks| {
        return Err(MissingOrder);
      }
      var bid, ask := bids[i], asks[j];
      TakeBack(Buy, bids, i);
      TakeBack(Sell, asks, j);
      TakeAndReturn(Buy, bids, i, e.quantity);
      TakeAndReturn(Sell, asks, j, e.quantity);
      assert ValidSide(Buy, FillAt(bids, i, e.quantity)) && ValidSide(Sell, FillAt(asks, j, e.quantity));
      bids, asks := RemoveAt(bids, i), RemoveAt(asks, j);

      if bid.market != e.market || ask.market != e.market {
        bids, asks := Put(Buy, bids, bid), Put(Sell, asks, ask);
        return Err(MarketMismatch);
      }
      if bid.remaining < e.quantity || ask.remaining < e.quantity {
        bids, asks := Put(Buy, bids, bid), Put(Sell, asks, ask);
        return Err(InsufficientRemaining);
      }

      bid, ask := Reduce(bid, e.quantity), Reduce(ask, e.quantity);
      if bid.remaining != 0 {
        bids := Put(Buy, bids, bid);
      }
      if ask.remaining != 0 {
        asks := Put(Sell, asks, ask);
      }
      assert bids == FillAt(old(bids), i, e.quantity) && asks == FillAt(old(asks), j, e.quantity);
      return Ok(());
    }
  }
}
