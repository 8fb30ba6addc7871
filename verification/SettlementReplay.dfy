/** Settling an event whose rows are already in the ledger. */
module SettlementReplay {
  import opened Types
  import opened Rounding
  import opened LedgerChain
  import opened SettlementLines
  import opened Settlement
  import opened SettlementWorker
  import opened SettlementRuns

  /** A settled event carries the hash computed when it was settled. */
  ghost predicate Hashed(h: Hashes, db: Db, e: EventRow) {
    e.status == Processed ==>
      && Resolve(db, e.payload).Ok?
      && var (m, a) := Resolve(db, e.payload).value;
      e.hash == Some(FirstHash(h, e.payload, a, Deltas(e.payload, m, a, false)))
  }

  ghost predicate AllHashed(h: Hashes, w: WorkerState) {
    forall e :: e in w.events ==> Hashed(h, w.db, e)
  }

  lemma HashedElsewhere(h: Hashes, db: Db, db': Db, e: EventRow)
    requires Hashed(h, db, e) && db'.markets == db.markets
    ensures Hashed(h, db', e)
  {
    hide FirstHash, Deltas, AmountsOf;
  }

  /** A commit of an event without rows stores the first hash. */
  lemma CommitHash(h: Hashes, db: Db, row: EventRow)
    requires Process(h, db, row).Ok? && RowsOf(db.ledger, row.id) == []
    ensures var (db', hash) := Process(h, db, row).value; Hashed(h, db', MarkProcessed(row, hash))
  {
    CommitAppends(h, db, row);
    hide Append, ApplyUpdates, TotalsAgree, ChainHolds, AnyNegative, FillOrders, Refusal, Deltas, Updates, RowsOf, FirstHash, AmountsOf;
  }

  lemma ReworkKeepsHashed(h: Hashes, w: WorkerState, events: seq<EventRow>)
    requires AllHashed(h, w) && Reworks(w.events, events)
    ensures AllHashed(h, w.(events := events))
  {
    forall e | e in events ensures Hashed(h, w.db, e) {
      assert Kin(w.events, e);
      hide Resolve;
    }
  }

  lemma TickKeepsHashed(h: Hashes, s: State, fault: Fault, opening: nat)
    requires Once(s, opening) && AllHashed(h, s.worker)
    ensures AllHashed(h, Tick(h, s.worker, fault))
  {
    var w := s.worker;
    var i := NextRow(w.events);
    if !w.halted && i < |w.events| {
      var r := Attempt(h, w.db, w.events[i], fault.broken);
      assert w.events[i] in w.events && RowsMatch(w.db, w.events[i]);
      if r.Ok? {
        CommitHash(h, w.db, w.events[i]);
        CommitAppends(h, w.db, w.events[i]);
      }
      hide Process, Hashed, Once, RowsMatch;
      var after := Tick(h, w, fault);
      forall e | e in after.events ensures Hashed(h, after.db, e) {
        var j :| 0 <= j < |after.events| && after.events[j] == e;
        if j != i {
          assert w.events[j] in w.events;
          HashedElsewhere(h, w.db, after.db, e);
        } else if r.Err? {
          NotHashed(h, after.db, e);
        }
      }
    }
  }

  lemma NotHashed(h: Hashes, db: Db, e: EventRow)
    requires e.status != Processed
    ensures Hashed(h, db, e)
  {
  }

  lemma ActionKeepsHashed(h: Hashes, s: State, a: Action, opening: nat)
    requires Once(s, opening) && AllHashed(h, s.worker)
    ensures AllHashed(h, Do(h, s, a).worker)
  {
    OnceAscends(s, opening);
    hide Once, Reworks, Tick, Hashed, Ascending;
    var events := s.worker.events;
    match a
    case Work(fault) => TickKeepsHashed(h, s, fault, opening);
    case Stall =>
    case Arrive(p) => NotHashed(h, s.worker.db, EventRow(s.nextId, p, Pending, 0, None));
    case RetryFailed =>
      MapReworks(events, RetryAll(events), s.nextId);
      ReworkKeepsHashed(h, s.worker, RetryAll(events));
    case DeleteFailed =>
      WithoutReworks(events, Failed, s.nextId);
      ReworkKeepsHashed(h, s.worker, Without(events, Failed));
    case Unstick(max) =>
      MapReworks(events, UnstickAbove(events, max), s.nextId);
      ReworkKeepsHashed(h, s.worker, UnstickAbove(events, max));
    case DeletePending =>
      WithoutReworks(events, Pending, s.nextId);
      ReworkKeepsHashed(h, s.worker, Without(events, Pending));
    case CloseCircuit =>
  }

  lemma {:induction false} RunKeepsHashed(h: Hashes, s: State, actions: seq<Action>, opening: nat)
    requires Once(s, opening) && AllHashed(h, s.worker)
    ensures AllHashed(h, Run(h, s, actions).worker) && Once(Run(h, s, actions), opening)
  {
    ExactlyOnce(h, s, actions, opening);
    if actions != [] {
      var n := |actions| - 1;
      RunKeepsHashed(h, s, actions[..n], opening);
      hide Once, AllHashed;
      ActionKeepsHashed(h, Run(h, s, actions[..n]), actions[n], opening);
    }
  }

  // ----- settling again

  predicate OneLine(s: string) {
    '\n' !in s
  }

  ghost predicate Lined(lines: seq<string>) {
    lines != [] && forall l :: l in lines ==> OneLine(l)
  }

  /** The digest tells two lists of lines apart when no line has a line break in it. */
  ghost predicate Distinguishes(h: Hashes) {
    forall p, a, x, y :: Lined(x) && Lined(y) && h.digest(p, a, x) == h.digest(p, a, y) ==> x == y
  }

  /** Ids, amounts and the two symbols are written without a line break. */
  ghost predicate Printable(k: Codec, base: string, quote: string) {
    && (forall n :: OneLine(k.key(n))) && (forall x :: OneLine(k.num(x)))
    && OneLine(base) && OneLine(quote)
  }

  lemma LineIsOne(k: Codec, d: Delta)
    requires OneLine(k.key(d.user)) && OneLine(d.asset) && OneLine(k.num(d.amount))
    ensures OneLine(Line(k, d))
  {
  }

  lemma LinesAreLined(k: Codec, ds: seq<Delta>)
    requires ds != [] && forall d :: d in ds ==> OneLine(Line(k, d))
    ensures Lined(LinesOf(k, ds))
  {
    hide Line, OneLine;
    forall l | l in LinesOf(k, ds) ensures OneLine(l) {
      var i :| 0 <= i < |ds| && LinesOf(k, ds)[i] == l;
      assert ds[i] in ds;
    }
  }

  lemma SortedDeltasHave(collate: (string, string) -> bool, k: Codec, ds: seq<Delta>)
    ensures forall d :: d in SortedDeltas(collate, k, ds) <==> d in ds
  {
    SortHas((a: Delta, b: Delta) => Precedes(collate, k, a, b), ds);
  }

  lemma DigestLines(h: Hashes, ds: seq<Delta>)
    requires ds != [] && forall d :: d in ds ==> OneLine(Line(h.codec, d))
    ensures Lined(FirstLines(h.collate, h.codec, ds)) && Lined(LaterLines(h.codec, ds))
  {
    hide Line, OneLine, SortBy;
    var sorted := SortedDeltas(h.collate, h.codec, ds);
    SortedDeltasHave(h.collate, h.codec, ds);
    assert ds[0] in sorted;
    LinesAreLined(h.codec, sorted);
    LinesAreLined(h.codec, ds);
    SortHas(LexLe, LinesOf(h.codec, ds));
    assert LinesOf(h.codec, ds)[0] in LaterLines(h.codec, ds);
  }

  lemma LaterIsFirst(h: Hashes, p: Payload, a: Amounts, ds: seq<Delta>)
    requires Distinguishes(h) && ds != [] && forall d :: d in ds ==> OneLine(Line(h.codec, d))
    ensures LaterHash(h, p, a, ds) == FirstHash(h, p, a, ds) <==> FirstLines(h.collate, h.codec, ds) == LaterLines(h.codec, ds)
  {
    DigestLines(h, ds);
    hide FirstLines, LaterLines, Lined, Line;
  }

  lemma FillLines(h: Hashes, p: Payload, m: MarketRow, a: Amounts)
    requires Printable(h.codec, m.base, m.quote)
    ensures forall d :: d in Deltas(p, m, a, false) ==> OneLine(Line(h.codec, d))
  {
    DeltasAreFour(p, m, a);
    var ds := Deltas(p, m, a, false);
    hide Deltas, Line, OneLine;
    forall d | d in ds ensures OneLine(Line(h.codec, d)) {
      assert d == ds[0] || d == ds[1] || d == ds[2] || d == ds[3];
      LineIsOne(h.codec, d);
    }
  }

  lemma PostedIsReplayed(h: Hashes, db: Db, e: EventRow)
    requires Posted(db, e)
    ensures var (_, a) := Resolve(db, e.payload).value;
            Process(h, db, e) == Ok((db, LaterHash(h, e.payload, a, DeltasOf(RowsOf(db.ledger, e.id)))))
  {
    var (m, a) := Resolve(db, e.payload).value;
    assert |Deltas(e.payload, m, a, false)| == 4;
    hide Post, Refusal, RowsOf, Deltas, LaterHash, AmountsOf;
  }

  /** At any point of any run, settling a settled event again changes no table, and gives it
      back its hash if and only if its four ledger lines come out in the same order when
      they are sorted before and after formatting. */
  lemma ResettlingOverRuns(h: Hashes, s: State, actions: seq<Action>, opening: nat, e: EventRow)
    requires Once(s, opening) && AllHashed(h, s.worker) && Distinguishes(h)
    requires e in Run(h, s, actions).worker.events && e.status == Processed
    requires var markets := Run(h, s, actions).worker.db.markets;
             e.payload.symbol in markets ==> Printable(h.codec, markets[e.payload.symbol].base, markets[e.payload.symbol].quote)
    ensures var db := Run(h, s, actions).worker.db;
            && Resolve(db, e.payload).Ok? && Process(h, db, e).Ok? && Process(h, db, e).value.0 == db
            && var (m, a) := Resolve(db, e.payload).value;
            var ds := Deltas(e.payload, m, a, false);
            Some(Process(h, db, e).value.1) == e.hash <==> FirstLines(h.collate, h.codec, ds) == LaterLines(h.codec, ds)
  {
    RunKeepsHashed(h, s, actions, opening);
    hide Run;
    var w := Run(h, s, actions).worker;
    assert RowsMatch(w.db, e) && Hashed(h, w.db, e);
    PostedIsReplayed(h, w.db, e);
    hide Printable, OneLine;
    var (m, a) := Resolve(w.db, e.payload).value;
    FillLines(h, e.payload, m, a);
    LaterIsFirst(h, e.payload, a, Deltas(e.payload, m, a, false));
    hide Process, FirstHash, LaterHash, FirstLines, LaterLines, Deltas, RowsOf, AmountsOf, Once, AllHashed;
  }

  lemma DeltasAreFour(p: Payload, m: MarketRow, a: Amounts)
    ensures FourLines(Deltas(p, m, a, false), p.takerUser, p.makerUser, m.base, m.quote)
  {
    hide RoundDown;
  }

  /** For ids of one form and plain symbols that is exactly the case where neither symbol
      begins the other. */
  lemma ResettlingKeepsHash(h: Hashes, s: State, actions: seq<Action>, opening: nat, e: EventRow)
    requires Once(s, opening) && AllHashed(h, s.worker) && Distinguishes(h)
    requires e in Run(h, s, actions).worker.events && e.status == Processed
    requires var markets := Run(h, s, actions).worker.db.markets;
             e.payload.symbol in markets ==> Printable(h.codec, markets[e.payload.symbol].base, markets[e.payload.symbol].quote)
    requires var db := Run(h, s, actions).worker.db;
             e.payload.symbol in db.markets && var m := db.markets[e.payload.symbol];
             Usual(h.collate, h.codec, e.payload.takerUser, e.payload.makerUser, m.base, m.quote)
    ensures var db := Run(h, s, actions).worker.db;
            var m := db.markets[e.payload.symbol];
            && Process(h, db, e).Ok?
            && (Some(Process(h, db, e).value.1) == e.hash <==> !Prefix(m.base, m.quote) && !Prefix(m.quote, m.base))
  {
    ResettlingOverRuns(h, s, actions, opening, e);
    var db := Run(h, s, actions).worker.db;
    var (m, a) := Resolve(db, e.payload).value;
    DeltasAreFour(e.payload, m, a);
    hide Process, Run, Deltas, FirstLines, LaterLines, Usual, Prefix, AmountsOf, Once, AllHashed;
    SameLinesIff(h.collate, h.codec, Deltas(e.payload, m, a, false), e.payload.takerUser, e.payload.makerUser, m.base, m.quote);
  }

  /** A fill in a market of USD against USDT: settled again, it gets another hash. */
  lemma UsdUsdtChangesHash(h: Hashes, s: State, actions: seq<Action>, opening: nat, e: EventRow)
    requires Once(s, opening) && AllHashed(h, s.worker) && Distinguishes(h)
    requires e in Run(h, s, actions).worker.events && e.status == Processed
    requires var markets := Run(h, s, actions).worker.db.markets;
             e.payload.symbol in markets ==> Printable(h.codec, markets[e.payload.symbol].base, markets[e.payload.symbol].quote)
    requires var db := Run(h, s, actions).worker.db;
             e.payload.symbol in db.markets && var m := db.markets[e.payload.symbol];
             && m.base == "USD" && m.quote == "USDT"
             && Usual(h.collate, h.codec, e.payload.takerUser, e.payload.makerUser, m.base, m.quote)
    ensures var db := Run(h, s, actions).worker.db;
            Process(h, db, e).Ok? && Some(Process(h, db, e).value.1) != e.hash
  {
    ResettlingKeepsHash(h, s, actions, opening, e);
    hide Process, Run;
    assert "USDT"[..3] == "USD";
  }
}
