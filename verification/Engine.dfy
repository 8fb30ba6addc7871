/** The engine: one book per market, a global event id counter, the event buffer and the
    set of event ids whose fills the books already hold.

    A method that works under a market's lock takes the book value out, updates it and
    stores it back; a trial book that is not stored back is discarded. */
module Engine {
  import opened Types
  import opened Matching
  import opened Replay
  import opened OrderBooks
  import opened EventBuffer
  import Wal

  datatype EngineState = EngineState(books: map<string, Book>, events: seq<Entry>, next: nat, applied: set<nat>)

  /** A market with no entry has an empty book. */
  function BookFor(books: map<string, Book>, market: string): Book {
    if market in books then books[market] else Book([], [])
  }

  function Numbered(start: nat, es: seq<MatchEvent>): (pairs: seq<Entry>)
    ensures |pairs| == |es|
    ensures forall i :: 0 <= i < |es| ==> pairs[i] == (start + i, es[i])
  {
    seq(|es|, i requires 0 <= i < |es| => (start + i, es[i]))
  }

  function Record(events: seq<Entry>, pairs: seq<Entry>): seq<Entry> {
    if pairs == [] then events
    else
      var n := |pairs| - 1;
      InsertEntry(Record(events, pairs[..n]), MAX_EVENTS, pairs[n].0, pairs[n].1)
  }

  /** Plain placement: the book after insert-and-match, and its events under the next ids. */
  function Placed(s: EngineState, o: Order): (EngineState, seq<Entry>) {
    var (b, es) := Place(BookFor(s.books, o.market), o);
    var pairs := Numbered(s.next, es);
    (EngineState(s.books[o.market := b], Record(s.events, pairs), s.next + |es|, s.applied + Ids(pairs)), pairs)
  }

  /** A placement whose callback failed: only the ids are gone. */
  function Abandoned(s: EngineState, o: Order): EngineState {
    var b := BookFor(s.books, o.market);
    s.(books := s.books[o.market := b], next := s.next + |Place(b, o).1|)
  }

  function Replayed(s: EngineState, id: nat, e: MatchEvent): (EngineState, Result<(), FillError>) {
    if id in s.applied then (s, Ok(()))
    else
      var b := BookFor(s.books, e.market);
      match ApplyFill(b, e)
      case Err(err) => (s.(books := s.books[e.market := b]), Err(err))
      case Ok(b') =>
        (s.(books := s.books[e.market := b'], applied := s.applied + {id},
            events := InsertEntry(s.events, MAX_EVENTS, id, e)), Ok(()))
  }

  /** An order cancelled in every market. */
  function Cleared(s: EngineState, id: nat): EngineState {
    s.(books := map m | m in s.books :: CancelOrder(s.books[m], id))
  }

  function Loaded(books: map<string, Book>, orders: seq<Order>): map<string, Book> {
    if orders == [] then books
    else
      var before, o := Loaded(books, orders[..|orders| - 1]), orders[|orders| - 1];
      before[o.market := InsertOrder(BookFor(before, o.market), o)]
  }

  function WalRows(subject: string -> string, pairs: seq<Entry>): (rows: seq<Wal.Row>)
    ensures |rows| == |pairs|
    ensures forall i :: 0 <= i < |pairs| ==> rows[i] == Wal.Row(pairs[i].0, subject(pairs[i].1.market), pairs[i].1)
  {
    seq(|pairs|, i requires 0 <= i < |pairs| => Wal.Row(pairs[i].0, subject(pairs[i].1.market), pairs[i].1))
  }

  class Engine {
    var orderBooks: map<string, Book>
    var matchEvents: seq<Entry>
    var nextEventId: nat
    var applied: set<nat>

    ghost predicate Valid()
      reads this
    {
      Ordered(matchEvents) && forall m :: m in orderBooks ==> ValidBook(orderBooks[m])
    }

    function State(): EngineState
      reads this
    {
      EngineState(orderBooks, matchEvents, nextEventId, applied)
    }

    constructor ()
      ensures Valid() && State() == EngineState(map[], [], 1, {})
    {
      orderBooks, matchEvents, nextEventId, applied := map[], [], 1, {};
    }

    method InsertMatchEventSorted(id: nat, e: MatchEvent)
      requires Valid()
      modifies this`matchEvents
      ensures Valid() && matchEvents == InsertEntry(old(matchEvents), MAX_EVENTS, id, e)
    {
      InsertOrdered(matchEvents, MAX_EVENTS, id, e);
      var i := BinarySearch(matchEvents, id);
      if i < |matchEvents| && matchEvents[i].0 == id {
        return;
      }
      matchEvents := matchEvents[..i] + [(id, e)] + matchEvents[i..];
      if |matchEvents| > MAX_EVENTS {
        matchEvents := matchEvents[|matchEvents| - MAX_EVENTS..];
      }
    }

    /** Append the events to the buffer one by one. */
    method InsertMatchEvents(pairs: seq<Entry>)
      requires Valid()
      modifies this`matchEvents
      ensures Valid() && matchEvents == Record(old(matchEvents), pairs)
    {
      hide InsertEntry;
      var i := 0;
      while i < |pairs|
        invariant 0 <= i <= |pairs| && Valid()
        invariant matchEvents == Record(old(matchEvents), pairs[..i])
      {
        assert pairs[..i + 1][..i] == pairs[..i];
        InsertMatchEventSorted(pairs[i].0, pairs[i].1);
        i := i + 1;
      }
      assert pairs[..i] == pairs;
    }

    /** Note the ids of the events as applied. */
    method RecordBookApplied(pairs: seq<Entry>)
      modifies this`applied
      ensures applied == old(applied) + Ids(pairs)
    {
      var i := 0;
      while i < |pairs|
        invariant 0 <= i <= |pairs| && applied == old(applied) + Ids(pairs[..i])
      {
        assert pairs[..i + 1] == pairs[..i] + [pairs[i]];
        applied := applied + {pairs[i].0};
        i := i + 1;
      }
      assert pairs[..i] == pairs;
    }

    /** Place an order: match under the market's lock, then number the events. */
    method PlaceOrder(order: Order) returns (pairs: seq<Entry>)
      requires Valid()
      modifies this
      ensures Valid() && (State(), pairs) == Placed(old(State()), order)
    {
      hide MatchOrder, InsertOrder, Record, ValidBook;
      var book := new OrderBook.CloneOf(BookFor(orderBooks, order.market));
      book.Insert(order);
      var events := book.MatchOrders(order.market, order.id);
      orderBooks := orderBooks[order.market := book.State()];
      pairs := Numbered(nextEventId, events);
      nextEventId := nextEventId + |events|;
      InsertMatchEvents(pairs);
      RecordBookApplied(pairs);
    }

    /** Match on a clone and allocate ids; the book itself is untouched. */
    method Trial(order: Order) returns (trial: Book, pairs: seq<Entry>)
      requires Valid()
      modifies this`orderBooks, this`nextEventId
      ensures Valid() && ValidBook(trial) && State() == Abandoned(old(State()), order)
      ensures var (b, es) := Place(BookFor(old(orderBooks), order.market), order);
              trial == b && pairs == Numbered(old(nextEventId), es)
    {
      hide MatchOrder, InsertOrder, Record;
      var current := BookFor(orderBooks, order.market);
      orderBooks := orderBooks[order.market := current];
      var book := new OrderBook.CloneOf(current);
      book.Insert(order);
      var events := book.MatchOrders(order.market, order.id);
      trial := book.State();
      pairs := Numbered(nextEventId, events);
      nextEventId := nextEventId + |events|;
    }

    /** The trial book becomes the market's book; the lock is released here. */
    method StoreBook(market: string, trial: Book)
      requires Valid() && ValidBook(trial)
      modifies this`orderBooks
      ensures Valid() && orderBooks == old(orderBooks)[market := trial]
    {
      orderBooks := orderBooks[market := trial];
    }

    /** Store the book; then, without the lock, fill the buffer and note the ids. */
    method Commit(market: string, trial: Book, pairs: seq<Entry>)
      requires Valid() && ValidBook(trial)
      modifies this
      ensures Valid()
      ensures State() == EngineState(old(orderBooks)[market := trial], Record(old(matchEvents), pairs),
                                     old(nextEventId), old(applied) + Ids(pairs))
    {
      StoreBook(market, trial);
      InsertMatchEvents(pairs);
      RecordBookApplied(pairs);
    }

    /** Publish, then commit.  `published` is how the publish callback ends. */
    method PlaceOrderCommitAfterPublish(order: Order, published: bool) returns (r: Result<seq<Entry>, ()>)
      requires Valid()
      modifies this
      ensures Valid()
      ensures if published || Placed(old(State()), order).1 == []
              then r.Ok? && (State(), r.value) == Placed(old(State()), order)
              else r.Err? && State() == Abandoned(old(State()), order)
    {
      hide MatchOrder, InsertOrder, Record;
      var trial, pairs := Trial(order);
      if pairs != [] && !published {
        return Err(());
      }
      Commit(order.market, trial, pairs);
      AbandonThenCommit(old(State()), order);
      return Ok(pairs);
    }

    /** Append to the journal, then commit. */
    method PlaceOrderWalThenCommitBook(order: Order, wal: Wal.MatchWal, engine: string, subject: string -> string,
                                       appended: Wal.AppendOutcome)
        returns (r: Result<seq<Entry>, ()>)
      requires Valid()
      modifies this, wal
      ensures Valid()
      ensures if appended == Wal.Durable || Placed(old(State()), order).1 == []
              then r.Ok? && (State(), r.value) == Placed(old(State()), order)
              else r.Err? && State() == Abandoned(old(State()), order)
      ensures r.Ok? ==> wal.journal == old(wal.journal) + Wal.EvtLines(engine, WalRows(subject, r.value))
    {
      hide MatchOrder, InsertOrder, Record;
      var trial, pairs := Trial(order);
      if pairs != [] {
        var ok := wal.AppendEventsBatch(engine, WalRows(subject, pairs), appended);
        if !ok {
          return Err(());
        }
      } else {
        assert wal.journal == wal.journal + Wal.EvtLines(engine, WalRows(subject, pairs));
      }
      Commit(order.market, trial, pairs);
      AbandonThenCommit(old(State()), order);
      return Ok(pairs);
    }

    /** Append to the journal, publish, then commit. */
    method PlaceOrderWalPublishCommitBook(order: Order, wal: Wal.MatchWal, engine: string, subject: string -> string,
                                          appended: Wal.AppendOutcome, published: bool)
        returns (r: Result<seq<Entry>, ()>)
      requires Valid()
      modifies this, wal
      ensures Valid()
      ensures if (appended == Wal.Durable && published) || Placed(old(State()), order).1 == []
              then r.Ok? && (State(), r.value) == Placed(old(State()), order)
              else r.Err? && State() == Abandoned(old(State()), order)
      ensures r.Ok? ==> wal.journal == old(wal.journal) + Wal.EvtLines(engine, WalRows(subject, r.value))
    {
      hide MatchOrder, InsertOrder, Record;
      var trial, pairs := Trial(order);
      if pairs != [] {
        var ok := wal.AppendEventsBatch(engine, WalRows(subject, pairs), appended);
        if !ok || !published {
          return Err(());
        }
      } else {
        assert wal.journal == wal.journal + Wal.EvtLines(engine, WalRows(subject, pairs));
      }
      Commit(order.market, trial, pairs);
      AbandonThenCommit(old(State()), order);
      return Ok(pairs);
    }

    /** Apply a journal row to the book unless its id is already reflected there. */
    method ApplyReplayEvent(id: nat, e: MatchEvent) returns (r: Result<(), FillError>)
      requires Valid()
      modifies this
      ensures Valid() && (State(), r) == Replayed(old(State()), id, e)
    {
      if id in applied {
        return Ok(());
      }
      hide ApplyFill, InsertEntry;
      var book := new OrderBook.CloneOf(BookFor(orderBooks, e.market));
      r := book.ApplyMatchFill(e);
      orderBooks := orderBooks[e.market := book.State()];
      if r.Err? {
        return;
      }
      applied := applied + {id};
      InsertMatchEventSorted(id, e);
    }

    /** Cancel in one market's book, under its lock. */
    method CancelIn(market: string, id: nat)
      requires Valid() && market in orderBooks
      modifies this`orderBooks
      ensures Valid() && orderBooks == old(orderBooks)[market := Matching.CancelOrder(old(orderBooks)[market], id)]
    {
      hide ValidBook;
      var book := new OrderBook.CloneOf(orderBooks[market]);
      book.Cancel(id);
      orderBooks := orderBooks[market := book.State()];
    }

    /** Cancel in every market's book, one book at a time. */
    method CancelOrder(id: nat)
      requires Valid()
      modifies this`orderBooks
      ensures Valid() && State() == Cleared(old(State()), id)
    {
      hide Matching.CancelOrder;
      var left := orderBooks.Keys;
      while left != {}
        invariant left <= orderBooks.Keys == old(orderBooks).Keys && Valid()
        invariant forall m :: m in left ==> orderBooks[m] == old(orderBooks)[m]
        invariant forall m :: m in orderBooks && m !in left ==> orderBooks[m] == Matching.CancelOrder(old(orderBooks)[m], id)
        decreases left
      {
        hide ValidBook;
        var m :| m in left;
        CancelIn(m, id);
        left := left - {m};
      }
    }

    method GetMatchEventsAfter(after: nat) returns (newer: seq<Entry>, last: nat)
      ensures newer == Newer(matchEvents, after) && last == LastId(matchEvents)
    {
      newer := [];
      var i := 0;
      while i < |matchEvents|
        invariant 0 <= i <= |matchEvents|
        invariant newer == Newer(matchEvents[..i], after)
      {
        assert matchEvents[..i + 1][..i] == matchEvents[..i];
        if matchEvents[i].0 > after {
          newer := newer + [matchEvents[i]];
        }
        i := i + 1;
      }
      assert matchEvents[..i] == matchEvents;
      last := LastId(matchEvents);
    }

    method LoadOrders(orders: seq<Order>)
      requires Valid()
      modifies this`orderBooks
      ensures Valid() && orderBooks == Loaded(old(orderBooks), orders)
    {
      var i := 0;
      while i < |orders|
        invariant 0 <= i <= |orders| && Valid()
        invariant orderBooks == Loaded(old(orderBooks), orders[..i])
      {
        assert orders[..i + 1][..i] == orders[..i];
        var o := orders[i];
        var book := new OrderBook.CloneOf(BookFor(orderBooks, o.market));
        book.Insert(o);
        orderBooks := orderBooks[o.market := book.State()];
        i := i + 1;
      }
      assert orders[..i] == orders;
    }

    /** Restore from a snapshot: books, counter and applied ids; the buffer starts empty. */
    method RestoreFromPersistenceSnapshot(orders: seq<Order>, next: nat, bookApplied: set<nat>)
      modifies this
      ensures Valid()
      ensures State() == EngineState(Loaded(map[], orders), [], if next == 0 then 1 else next, bookApplied)
    {
      orderBooks, applied, matchEvents := map[], bookApplied, [];
      LoadOrders(orders);
      nextEventId := if next == 0 then 1 else next;
    }

    /** Restore from the backend's open orders and its last settled event id. */
    method RestoreOrderbook(orders: seq<Order>, lastEventId: nat)
      modifies this
      ensures Valid()
      ensures State() == EngineState(Loaded(map[], orders), [], lastEventId + 1, {})
    {
      orderBooks, applied, matchEvents := map[], {}, [];
      LoadOrders(orders);
      nextEventId := lastEventId + 1;
    }
  }

  lemma AbandonThenCommit(s: EngineState, o: Order)
    ensures var (b, es) := Place(BookFor(s.books, o.market), o);
            Abandoned(s, o).books[o.market := b] == s.books[o.market := b]
  {
  }
}
