/** The settlement worker fed by the matching engine. */
module EngineFeeds {
  import opened Types
  import opened LedgerChain
  import opened Settlement
  import opened SettlementFacts
  import opened SettlementWorker
  import opened SettlementRuns
  import opened SettlementHealth
  import opened AgreementRuns
  import OA = OrderAccounts
  import AG = Agreement

  // ----- where the rows of the event table come from

  function PayloadsIn(events: seq<EventRow>): seq<Payload> {
    if events == [] then [] else PayloadsIn(events[..|events| - 1]) + [events[|events| - 1].payload]
  }

  function Arrivals(actions: seq<Action>): seq<Payload> {
    if actions == [] then []
    else
      var n := |actions| - 1;
      Arrivals(actions[..n]) + if actions[n].Arrive? then [actions[n].payload] else []
  }

  /** Everything the worker is given in a run: what is there at the start and what arrives. */
  function Offered(s: State, actions: seq<Action>): seq<Payload> {
    PayloadsIn(s.worker.events) + Arrivals(actions)
  }

  lemma {:induction false} SameRows(a: seq<EventRow>, b: seq<EventRow>)
    requires |a| == |b| && forall i :: 0 <= i < |a| ==> a[i].payload == b[i].payload
    ensures PayloadsIn(a) == PayloadsIn(b)
  {
    if a != [] {
      SameRows(a[..|a| - 1], b[..|b| - 1]);
    }
  }

  lemma RowsSnoc(events: seq<EventRow>, row: EventRow)
    ensures multiset(PayloadsIn(events + [row])) == multiset(PayloadsIn(events)) + multiset{row.payload}
  {
    assert (events + [row])[..|events|] == events;
  }

  lemma OneMore(a: multiset<Payload>, b: multiset<Payload>, x: Payload)
    requires a <= b
    ensures a <= b + multiset{x} && a + multiset{x} <= b + multiset{x}
  {
  }

  lemma {:induction false} FewerRows(events: seq<EventRow>, status: Status)
    ensures multiset(PayloadsIn(Without(events, status))) <= multiset(PayloadsIn(events))
  {
    hide PayloadsIn;
    if events != [] {
      var n := |events| - 1;
      var before := Without(events[..n], status);
      FewerRows(events[..n], status);
      assert events == events[..n] + [events[n]];
      RowsSnoc(events[..n], events[n]);
      RowsSnoc(before, events[n]);
      OneMore(multiset(PayloadsIn(before)), multiset(PayloadsIn(events[..n])), events[n].payload);
      assert Without(events, status) == before || Without(events, status) == before + [events[n]];
    }
  }

  lemma ActionRows(h: Hashes, s: State, a: Action)
    ensures multiset(PayloadsIn(Do(h, s, a).worker.events))
            <= multiset(PayloadsIn(s.worker.events)) + multiset(if a.Arrive? then [a.payload] else [])
  {
    hide Process, PayloadsIn;
    var events := s.worker.events;
    match a
    case Work(fault) => SameRows(events, Tick(h, s.worker, fault).events);
    case Stall =>
    case Arrive(p) => RowsSnoc(events, EventRow(s.nextId, p, Pending, 0, None));
    case RetryFailed => SameRows(events, RetryAll(events));
    case DeleteFailed => FewerRows(events, Failed);
    case Unstick(max) => SameRows(events, UnstickAbove(events, max));
    case DeletePending => FewerRows(events, Pending);
    case CloseCircuit =>
  }

  /** No row is in the table but those of the start and those that arrived. */
  lemma {:induction false} RowsWereOffered(h: Hashes, s: State, actions: seq<Action>)
    ensures multiset(PayloadsIn(Run(h, s, actions).worker.events)) <= multiset(Offered(s, actions))
  {
    if actions != [] {
      var n := |actions| - 1;
      RowsWereOffered(h, s, actions[..n]);
      hide Do, PayloadsIn;
      ActionRows(h, Run(h, s, actions[..n]), actions[n]);
    }
  }

  lemma {:induction false} EarlierOffers(s: State, actions: seq<Action>, n: nat)
    requires n <= |actions|
    ensures multiset(Offered(s, actions[..n])) <= multiset(Offered(s, actions))
  {
    if n < |actions| {
      var k := |actions| - 1;
      EarlierOffers(s, actions[..k], n);
      assert actions[..k][..n] == actions[..n];
      hide PayloadsIn;
    } else {
      assert actions[..n] == actions;
    }
  }

  lemma {:induction false} SettledAreRows(events: seq<EventRow>)
    ensures multiset(SettledPayloads(events)) <= multiset(PayloadsIn(events))
  {
    hide PayloadsIn, SettledPayloads;
    if events == [] {
      NoRows(events);
    } else {
      var n := |events| - 1;
      SettledAreRows(events[..n]);
      SettledSnoc(events);
      assert events == events[..n] + [events[n]];
      RowsSnoc(events[..n], events[n]);
      OneMore(multiset(SettledPayloads(events[..n])), multiset(PayloadsIn(events[..n])), events[n].payload);
    }
  }

  lemma NoRows(events: seq<EventRow>)
    requires events == []
    ensures PayloadsIn(events) == SettledPayloads(events) == []
  {
  }

  /** A pending row comes on top of all the settled ones. */
  lemma {:induction false} PendingOnTop(events: seq<EventRow>, row: EventRow)
    requires row in events && row.status != Processed
    ensures multiset(SettledPayloads(events)) + multiset{row.payload} <= multiset(PayloadsIn(events))
  {
    var n := |events| - 1;
    SettledSnoc(events);
    assert events == events[..n] + [events[n]];
    RowsSnoc(events[..n], events[n]);
    hide PayloadsIn, SettledPayloads;
    if events[n] == row {
      SettledAreRows(events[..n]);
    } else {
      PendingOnTop(events[..n], row);
    }
  }

  lemma TouchingLe(ids: set<nat>, some: seq<Payload>, all: seq<Payload>)
    requires multiset(some) <= multiset(all)
    ensures multiset(Touching(ids, some)) <= multiset(Touching(ids, all))
  {
    forall p ensures multiset(Touching(ids, some))[p] <= multiset(Touching(ids, all))[p] {
      TouchingCount(ids, some, p);
      TouchingCount(ids, all, p);
    }
  }

  // ----- one market's engine

  datatype Feed = Feed(grid: OA.Grid, moves: seq<OA.Move>)

  ghost function Trade(f: Feed): OA.Trading {
    OA.Traded(OA.NOTHING, f.moves)
  }

  /** An engine's market as the database has it: its step, two assets, its orders listed as
      they were placed and none of them settled yet. */
  ghost predicate Opened(f: Feed, s: State) {
    var g, db := f.grid, s.worker.db;
    && g.price > 0 && g.qty > 0 && OA.Orderly(g, f.moves)
    && g.market in db.markets && db.markets[g.market].qtyUnit == g.qty && db.markets[g.market].base != db.markets[g.market].quote
    && AG.Listed(Trade(f), db.orders)
    && Touching(Trade(f).placed.Keys, SettledPayloads(s.worker.events)) == []
  }

  /** Of what touches the engine's orders the worker is offered only the engine's events,
      each at most once, none of them with a negative price. */
  ghost predicate Fed(f: Feed, s: State, actions: seq<Action>) {
    && Opened(f, s)
    && (forall e :: e in Trade(f).events ==> e.price >= 0)
    && multiset(Touching(Trade(f).placed.Keys, Offered(s, actions))) <= multiset(PayloadsOf(Trade(f).events))
  }

  lemma FedBefore(f: Feed, s: State, actions: seq<Action>, n: nat)
    requires Fed(f, s, actions) && n <= |actions|
    ensures Fed(f, s, actions[..n])
  {
    hide Opened;
    EarlierOffers(s, actions, n);
    TouchingLe(Trade(f).placed.Keys, Offered(s, actions[..n]), Offered(s, actions));
  }

  /** The commits so far and one more row are still events of the engine. */
  lemma CommitsThenRow(h: Hashes, f: Feed, s: State, actions: seq<Action>, row: EventRow)
    requires Fed(f, s, actions) && row in Run(h, s, actions).worker.events && row.status == Pending
    requires Touches(Trade(f).placed.Keys, row.payload)
    ensures var ids := Trade(f).placed.Keys;
            multiset(Touching(ids, CommitLog(h, s, actions)) + [row.payload]) <= multiset(PayloadsOf(Trade(f).events))
  {
    var ids, events, log := Trade(f).placed.Keys, Run(h, s, actions).worker.events, CommitLog(h, s, actions);
    CommitsAreSettled(h, s, actions);
    PendingOnTop(events, row);
    RowsWereOffered(h, s, actions);
    hide Run, CommitLog, SettledPayloads, PayloadsIn, PayloadsOf, Offered, Opened, Touching, Trade;
    assert multiset(log + [row.payload]) <= multiset(Offered(s, actions)) by {
      SnocMultiset(log, row.payload);
    }
    TouchingLe(ids, log + [row.payload], Offered(s, actions));
    TouchingSnoc(ids, log, row.payload);
  }

  lemma TouchingSnoc(ids: set<nat>, ps: seq<Payload>, p: Payload)
    requires Touches(ids, p)
    ensures Touching(ids, ps + [p]) == Touching(ids, ps) + [p]
  {
    assert (ps + [p])[..|ps|] == ps;
  }

  lemma {:induction false} LogRoom(markets: map<string, MarketRow>, f: Feed, s: State, ps: seq<Payload>, p: Payload)
    requires Opened(f, s) && markets == s.worker.db.markets
    requires multiset(ps + [p]) <= multiset(PayloadsOf(Trade(f).events))
    ensures FillLog(markets, s.worker.db.orders, ps).Some?
    ensures FillOrders(FillLog(markets, s.worker.db.orders, ps).value, p.takerOrder, p.makerOrder, QtyOf(markets, p)).Some?
  {
    var t, start := Trade(f), s.worker.db.orders;
    EventsOfMarket(f.grid, f.moves);
    var es := PullBack(ps + [p], t.events);
    OA.OrdersAreConserved(f.grid, f.moves);
    SameMarket(es, t.events, f.grid.market);
    hide OA.Traded, OA.Orderly, PayloadsOf, AG.Listed, FillLog, AG.FillAll, OA.Good, FillOrders, QtyOf;
    FillLogIsFillAll(markets, f.grid, start, es);
    AG.SettledInAnyOrder(f.grid, t, start, es);
    FillLogSnoc(markets, start, ps, p);
  }

  lemma FeedPayload(f: Feed, s: State, p: Payload)
    requires Opened(f, s) && p in multiset(PayloadsOf(Trade(f).events)) && forall e :: e in Trade(f).events ==> e.price >= 0
    ensures p.symbol == f.grid.market && p.price.Some? && p.price.value >= 0 && p.qty.Some?
    ensures p.takerOrder in Trade(f).placed && p.makerOrder in Trade(f).placed
  {
    EventsOfMarket(f.grid, f.moves);
    hide PayloadsOf, OA.Orderly, OA.Traded;
    var k := FindPayload(Trade(f).events, p);
  }

  lemma LastOfMultiset(ps: seq<Payload>, p: Payload, m: multiset<Payload>)
    requires multiset(ps + [p]) <= m
    ensures p in m && multiset(ps) <= m
  {
    SnocMultiset(ps, p);
    assert p in multiset(ps + [p]);
  }

  /** At every moment of every run, an event of the engine that the worker has yet to settle
      finds room in both its orders. */
  lemma EngineEventFits(h: Hashes, f: Feed, s: State, actions: seq<Action>, opening: nat, row: EventRow)
    requires Once(s, opening) && Fed(f, s, actions)
    requires row in Run(h, s, actions).worker.events && row.status == Pending && Touches(Trade(f).placed.Keys, row.payload)
    ensures var db, p := Run(h, s, actions).worker.db, row.payload;
            && db.markets == s.worker.db.markets
            && FillOrders(db.orders, p.takerOrder, p.makerOrder, QtyOf(db.markets, p)).Some?
            && p in multiset(PayloadsOf(Trade(f).events))
  {
    var ids, p, log, markets := Trade(f).placed.Keys, row.payload, CommitLog(h, s, actions), s.worker.db.markets;
    OrdersFollowCommits(h, s, actions, opening);
    CommitsThenRow(h, f, s, actions, row);
    EventsOfMarket(f.grid, f.moves);
    hide Run, CommitLog, Once, Touching, PayloadsOf, FillOrders, QtyOf, OA.Traded, OA.Orderly, FillLog, AG.Listed;
    LastOfMultiset(Touching(ids, log), p, multiset(PayloadsOf(Trade(f).events)));
    TouchingWithin(ids, log, Trade(f).events);
    FillLogTouching(markets, s.worker.db.orders, log, ids);
    LogRoom(markets, f, s, Touching(ids, log), p);
    FeedPayload(f, s, p);
    FitsAlike(ids, Run(h, s, actions).worker.db.orders, FillLog(markets, s.worker.db.orders, Touching(ids, log)).value, p, QtyOf(markets, p));
  }

  lemma FitsAlike(ids: set<nat>, a: map<nat, OrderRow>, b: map<nat, OrderRow>, p: Payload, q: int)
    requires SameOn(ids, a, b) && p.takerOrder in ids && p.makerOrder in ids
    requires FillOrders(b, p.takerOrder, p.makerOrder, q).Some?
    ensures FillOrders(a, p.takerOrder, p.makerOrder, q).Some?
  {
    FillAlike(ids, b, a, p, q);
  }

  /** So none of them raises an alarm. */
  lemma EngineEventNeverAlarms(h: Hashes, f: Feed, s: State, actions: seq<Action>, opening: nat, row: EventRow)
    requires Once(s, opening) && Fed(f, s, actions)
    requires row in Run(h, s, actions).worker.events && row.status == Pending && Touches(Trade(f).placed.Keys, row.payload)
    ensures !Alarming(h, Run(h, s, actions).worker.db, row)
  {
    EngineEventFits(h, f, s, actions, opening, row);
    FeedPayload(f, s, row.payload);
    hide Run, Once, Process, FillOrders, PayloadsOf, Trade, Touching, AG.Listed, OA.Orderly;
  }

  // ----- any number of engines

  /** Everything the worker is given comes from one of these engines. */
  ghost predicate AllFed(feeds: seq<Feed>, s: State, actions: seq<Action>) {
    && (forall f :: f in feeds ==> Fed(f, s, actions))
    && (forall p :: p in Offered(s, actions) ==> FromSome(feeds, p))
  }

  ghost predicate FromSome(feeds: seq<Feed>, p: Payload) {
    exists f :: f in feeds && Touches(Trade(f).placed.Keys, p)
  }

  lemma {:induction false} RowPayload(events: seq<EventRow>, row: EventRow)
    requires row in events
    ensures row.payload in multiset(PayloadsIn(events))
  {
    var n := |events| - 1;
    assert events == events[..n] + [events[n]];
    RowsSnoc(events[..n], events[n]);
    if events[n] != row {
      RowPayload(events[..n], row);
    }
  }

  lemma NeverAlarmed(h: Hashes, feeds: seq<Feed>, s: State, actions: seq<Action>, opening: nat, n: nat)
    requires Once(s, opening) && AllFed(feeds, s, actions) && n <= |actions|
    ensures !Alarmed(h, Run(h, s, actions[..n]).worker)
  {
    var w := Run(h, s, actions[..n]).worker;
    forall row | row in w.events && Selectable(row) ensures !Alarming(h, w.db, row) {
      RowPayload(w.events, row);
      RowsWereOffered(h, s, actions[..n]);
      EarlierOffers(s, actions, n);
      hide Run, Once, Fed, Offered, PayloadsIn, Alarming, Trade;
      assert row.payload in multiset(Offered(s, actions));
      assert FromSome(feeds, row.payload);
      var f :| f in feeds && Touches(Trade(f).placed.Keys, row.payload);
      FedBefore(f, s, actions, n);
      EngineEventNeverAlarms(h, f, s, actions[..n], opening, row);
    }
  }

  /** From the matching engines to the settled books: a worker that starts on a healthy
      database and is offered nothing but the events of its markets' engines, in any order and
      each at most once, never halts, whatever fails, crashes or is reset on the way. */
  lemma FedWorkerNeverHalts(h: Hashes, feeds: seq<Feed>, s: State, actions: seq<Action>, opening: nat)
    requires Sane(h, s, opening) && NeverEmpty(h.codec) && !s.worker.halted && AllFed(feeds, s, actions)
    ensures !Run(h, s, actions).worker.halted
  {
    hide AllFed, Alarmed, Run, Healthy, Linked, Once;
    forall n | 0 <= n < |actions| ensures !Alarmed(h, Run(h, s, actions[..n]).worker) {
      NeverAlarmed(h, feeds, s, actions, opening, n);
    }
    if Run(h, s, actions).worker.halted {
      HaltHasCause(h, s, actions, opening);
    }
  }
}
