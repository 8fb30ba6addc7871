/** What becomes of an event, said on the balances and order rows: when it is settled, retried
    or failed, and what a settlement does to every single field. */
module SettlementOutcomes {
  import opened Types
  import opened Rounding
  import opened LedgerChain
  import opened Settlement
  import opened SettlementFacts
  import opened SettlementWorker
  import opened SettlementRuns
  import opened SettlementHealth

  // ----- the amounts

  /** Quantity, value and the two fees of 0.1% and 0.05%, each exact and then rounded toward
      zero. */
  ghost predicate Worth(p: Payload, m: MarketRow, a: Amounts) {
    && p.price.Some? && p.qty.Some?
    && Rounded(p.qty.value, 1, m.qtyUnit, a.qty)
    && Rounded(p.price.value * p.qty.value, SCALE, m.quoteUnit, a.value)
    && Rounded(a.value, 1000, m.quoteUnit, a.takerFee)
    && Rounded(a.value, 2000, m.quoteUnit, a.makerFee)
  }

  lemma WorthIs(p: Payload, m: MarketRow, a: Amounts)
    ensures Worth(p, m, a) <==> p.price.Some? && p.qty.Some? && a == AmountsOf(p.price.value, p.qty.value, m)
  {
    if p.price.Some? && p.qty.Some? {
      var b := AmountsOf(p.price.value, p.qty.value, m);
      AmountsAreRounded(p.price.value, p.qty.value, 1, m.qtyUnit);
      AmountsAreRounded(p.price.value, p.qty.value, 1, m.quoteUnit);
      AmountsAreRounded(0, b.value, 1000, m.quoteUnit);
      AmountsAreRounded(0, b.value, 2000, m.quoteUnit);
      hide Rounded, RoundDown, TradeValue, FeeOf;
      assert Worth(p, m, b);
      if Worth(p, m, a) {
        RoundedIsUnique(p.qty.value, 1, m.qtyUnit, a.qty, b.qty);
        RoundedIsUnique(p.price.value * p.qty.value, SCALE, m.quoteUnit, a.value, b.value);
        RoundedIsUnique(a.value, 1000, m.quoteUnit, a.takerFee, b.takerFee);
        RoundedIsUnique(a.value, 2000, m.quoteUnit, a.makerFee, b.makerFee);
      }
    }
  }

  /** The market is listed with both currencies known, and price and quantity are decimals. */
  ghost predicate Readable(db: Db, p: Payload, m: MarketRow, a: Amounts) {
    p.symbol in db.markets && db.markets[p.symbol] == m && m.resolved && Worth(p, m, a)
  }

  lemma ReadableIs(db: Db, p: Payload, m: MarketRow, a: Amounts)
    ensures Readable(db, p, m, a) <==> Resolve(db, p) == Ok((m, a))
  {
    WorthIs(p, m, a);
    hide Worth, AmountsOf;
  }

  // ----- buyer and seller

  function BuyerOf(p: Payload): nat {
    if p.takerSide == Buy then p.takerUser else p.makerUser
  }

  function SellerOf(p: Payload): nat {
    if p.takerSide == Buy then p.makerUser else p.takerUser
  }

  function BuyerFee(p: Payload, a: Amounts): int {
    if p.takerSide == Buy then a.takerFee else a.makerFee
  }

  function SellerFee(p: Payload, a: Amounts): int {
    if p.takerSide == Buy then a.makerFee else a.takerFee
  }

  /** The buyer has the value locked and the fee on top available; the seller has the quantity
      locked and, with the value, can pay the fee. */
  ghost predicate Covered(balances: map<Account, Balance>, p: Payload, m: MarketRow, a: Amounts) {
    && BalanceOf(balances, (BuyerOf(p), m.quote)).locked >= a.value
    && BalanceOf(balances, (SellerOf(p), m.base)).locked >= a.qty
    && BalanceOf(balances, (BuyerOf(p), m.quote)).available >= BuyerFee(p, a)
    && BalanceOf(balances, (SellerOf(p), m.quote)).available + a.value >= SellerFee(p, a)
  }

  /** Fees never exceed a value that is not negative, and always exceed one that is. */
  lemma FeesFit(p: Payload, m: MarketRow, a: Amounts)
    requires Worth(p, m, a)
    ensures a.takerFee + a.makerFee <= a.value <==> a.value >= 0
  {
    WorthIs(p, m, a);
    hide Rounded, TradeValue, FeeOf, RoundDown;
    if a.value >= 0 {
      FeeBounds(a.value, TAKER_FEE_PARTS, m.quoteUnit);
      FeeBounds(a.value, MAKER_FEE_PARTS, m.quoteUnit);
    } else {
      FeeOfNegative(a.value, TAKER_FEE_PARTS, m.quoteUnit);
      FeeOfNegative(a.value, MAKER_FEE_PARTS, m.quoteUnit);
    }
  }

  /** The checks, in the order in which they decide. */
  lemma RefusalIs(db: Db, p: Payload, m: MarketRow, a: Amounts)
    requires Worth(p, m, a)
    ensures var r := Refusal(db, p, m, a);
            if p.qty.value < 0 then r == Some(NegativeQuantity)
            else if a.value < 0 then r == Some(FeeInvariantViolation)
            else if BuyerOf(p) == SellerOf(p) then r == Some(SelfTradeRejected)
            else if Covered(db.balances, p, m, a) then r == None
            else r == Some(InsufficientLockedFunds) || r == Some(InsufficientFundsForFee)
  {
    FeesFit(p, m, a);
    hide Worth, BalanceOf;
  }

  /** An event passes the checks if and only if its quantity and value are not negative, its
      users differ and both sides are covered. */
  lemma AcceptedIff(db: Db, p: Payload, m: MarketRow, a: Amounts)
    requires Worth(p, m, a)
    ensures Refusal(db, p, m, a) == None <==>
              p.qty.value >= 0 && a.value >= 0 && p.takerUser != p.makerUser && Covered(db.balances, p, m, a)
  {
    RefusalIs(db, p, m, a);
    hide Worth, Refusal, Covered;
  }

  // ----- what a settlement does to the balances

  /** What leaves an account's locked part: the value at the buyer's quote, the quantity at the
      seller's base, unless that row is overwritten in a market of an asset against itself. */
  function Freed(p: Payload, m: MarketRow, a: Amounts, x: Account): int {
    (if x == (BuyerOf(p), m.quote) then a.value else 0)
    + (if x == (SellerOf(p), m.base) && m.base != m.quote then a.qty else 0)
  }

  /** What the four updates take out of their accounts' locked parts. */
  function FreedAt(p: Payload, a: Amounts, i: nat): int {
    var user := if i < 2 then p.takerUser else p.makerUser;
    if i % 2 == 0 then (if user == SellerOf(p) then a.qty else 0) else (if user == BuyerOf(p) then a.value else 0)
  }

  lemma UpdateFields(db: Db, p: Payload, m: MarketRow, a: Amounts, i: nat)
    requires Ready(db, p, m, a) && i < 4
    ensures var u, d := Updates(db, p, m, a)[i], Deltas(p, m, a, false)[i];
            && u.account == (d.user, d.asset) == AccountAt(p, m, i)
            && u.balance.locked == BalanceOf(db.balances, u.account).locked - FreedAt(p, a, i)
            && u.balance.available == BalanceOf(db.balances, u.account).available + d.amount + FreedAt(p, a, i)
  {
    AcceptedAmounts(db, p, m, a);
    hide RoundDown, AmountsOf, Refusal, BalanceOf, Ready;
  }

  /** The last update of an account counts. */
  lemma BalanceAfter(balances: map<Account, Balance>, us: seq<Update>, x: Account)
    requires |us| == 4
    ensures BalanceOf(ApplyUpdates(balances, us), x)
            == if us[3].account == x then us[3].balance else if us[2].account == x then us[2].balance
               else if us[1].account == x then us[1].balance else if us[0].account == x then us[0].balance
               else BalanceOf(balances, x)
  {
    UpdatesInOrder(balances, us);
    hide ApplyUpdates;
  }

  lemma {:induction false} FieldsAfter(balances: map<Account, Balance>, us: seq<Update>, ds: seq<Delta>, p: Payload, m: MarketRow, a: Amounts, x: Account)
    requires |us| == |ds| == 4 && p.takerUser != p.makerUser
    requires forall i :: 0 <= i < 4 ==> us[i].account == AccountAt(p, m, i) && (ds[i].user, ds[i].asset) == AccountAt(p, m, i)
    requires forall i :: 0 <= i < 4 ==>
               && us[i].balance.locked == BalanceOf(balances, us[i].account).locked - FreedAt(p, a, i)
               && us[i].balance.available == BalanceOf(balances, us[i].account).available + ds[i].amount + FreedAt(p, a, i)
    ensures var now, before := BalanceOf(ApplyUpdates(balances, us), x), BalanceOf(balances, x);
            && now.locked == before.locked - Freed(p, m, a, x)
            && now.available == before.available + SumDeltas(ds, x) + Freed(p, m, a, x)
                                - (if m.base == m.quote && x == AccountAt(p, m, 0) then ds[0].amount else 0)
                                - (if m.base == m.quote && x == AccountAt(p, m, 2) then ds[2].amount else 0)
  {
    BalanceAfter(balances, us, x);
    SumOfFour(ds, x);
    hide SumDeltas, ApplyUpdates, BalanceOf;
  }

  /** A settlement that is more than a re-marking, written out on the balances of every account:
      the buyer's quote loses the value from its locked part, the seller's base the quantity,
      nothing else is unlocked or locked anywhere; and what is available changes by the
      event's ledger rows plus what was unlocked. */
  lemma CommitMovesFunds(h: Hashes, db: Db, row: EventRow, m: MarketRow, a: Amounts, x: Account)
    requires Process(h, db, row).Ok? && RowsOf(db.ledger, row.id) == [] && Readable(db, row.payload, m, a)
    ensures var db' := Process(h, db, row).value.0;
            var now, before := BalanceOf(db'.balances, x), BalanceOf(db.balances, x);
            && now.locked == before.locked - Freed(row.payload, m, a, x)
            && now.available == before.available + SumDeltas(DeltasOf(RowsOf(db'.ledger, row.id)), x)
                                + Freed(row.payload, m, a, x) - Overwritten(row.payload, m, a, x)
    ensures a.value >= 0 && a.qty >= 0
  {
    var p, ds := row.payload, Deltas(row.payload, m, a, false);
    var us := Updates(db, p, m, a);
    ReadableIs(db, p, m, a);
    CommitIsSettled(h, db, row);
    AcceptedAmounts(db, p, m, a);
    AppendedDeltas(h.codec, db.ledger, row.id, ds);
    OverwrittenIs(p, m, a, x);
    forall i | 0 <= i < 4
      ensures us[i].account == AccountAt(p, m, i) && (ds[i].user, ds[i].asset) == AccountAt(p, m, i)
      ensures us[i].balance.locked == BalanceOf(db.balances, us[i].account).locked - FreedAt(p, a, i)
      ensures us[i].balance.available == BalanceOf(db.balances, us[i].account).available + ds[i].amount + FreedAt(p, a, i)
    {
      UpdateFields(db, p, m, a, i);
    }
    hide Process, SumDeltas, ApplyUpdates, Ready, Updates, Deltas, AccountAt, FreedAt, Freed, Overwritten, BalanceOf, RowsOf, DeltasOf, Append, Readable;
    FieldsAfter(db.balances, us, ds, p, m, a, x);
  }

  // ----- what it does to the order rows, the trades and the ledger

  /** How often a fill counts against an order row: the same order may be both sides. */
  function Taken(p: Payload, q: int, id: nat): int {
    (if id == p.takerOrder then q else 0) + (if id == p.makerOrder then q else 0)
  }

  /** Both order rows are there and have enough remaining. */
  ghost predicate Room(orders: map<nat, OrderRow>, p: Payload, q: int) {
    && p.takerOrder in orders && p.makerOrder in orders
    && orders[p.takerOrder].remaining >= Taken(p, q, p.takerOrder)
    && orders[p.makerOrder].remaining >= Taken(p, q, p.makerOrder)
  }

  ghost predicate RowAfter(p: Payload, q: int, id: nat, before: OrderRow, now: OrderRow) {
    if id != p.takerOrder && id != p.makerOrder then now == before
    else
      && now.remaining == before.remaining - Taken(p, q, id)
      && now.filled == before.filled + Taken(p, q, id)
      && (now.status == Filled <==> now.remaining <= 0) && now.status != Open
  }

  lemma FillsIff(orders: map<nat, OrderRow>, p: Payload, q: int)
    requires q >= 0
    ensures FillOrders(orders, p.takerOrder, p.makerOrder, q).Some? <==> Room(orders, p, q)
  {
  }

  /** The two order rows take the fill and no other row changes. */
  lemma CommitFillsOrders(h: Hashes, db: Db, row: EventRow, m: MarketRow, a: Amounts, id: nat)
    requires Process(h, db, row).Ok? && RowsOf(db.ledger, row.id) == [] && Readable(db, row.payload, m, a)
    ensures var now := Process(h, db, row).value.0.orders;
            && (id in now <==> id in db.orders)
            && (id in now ==> RowAfter(row.payload, a.qty, id, db.orders[id], now[id]))
            && Room(db.orders, row.payload, a.qty)
  {
    ReadableIs(db, row.payload, m, a);
    CommitIsSettled(h, db, row);
    AcceptedAmounts(db, row.payload, m, a);
    PostFills(h, db, row, m, a);
    FillsIff(db.orders, row.payload, a.qty);
    hide Process, Ready, Settled, Readable;
  }

  lemma PostFills(h: Hashes, db: Db, row: EventRow, m: MarketRow, a: Amounts)
    requires Process(h, db, row).Ok? && RowsOf(db.ledger, row.id) == [] && Resolve(db, row.payload) == Ok((m, a))
    ensures FillOrders(db.orders, row.payload.takerOrder, row.payload.makerOrder, a.qty) == Some(Process(h, db, row).value.0.orders)
  {
    hide ApplyUpdates, TotalsAgree, ChainHolds, AnyNegative, FillOrders, Refusal, Deltas, Updates, RowsOf, FirstHash, AmountsOf;
  }

  /** The trade row names the event's orders and users, with the rounded price and amounts. */
  ghost predicate Reports(p: Payload, m: MarketRow, a: Amounts, t: Trade) {
    && t.symbol == p.symbol && p.price.Some? && Rounded(p.price.value, 1, m.priceUnit, t.price)
    && (t.takerOrder, t.takerUser) == (p.takerOrder, p.takerUser) && (t.makerOrder, t.makerUser) == (p.makerOrder, p.makerUser)
    && (t.qty, t.quoteQty, t.takerFee, t.makerFee) == (a.qty, a.value, a.takerFee, a.makerFee)
  }

  /** The ledger lines of an event: the buyer gains the quantity for the value and a fee, the
      seller gains the value less a fee for the quantity; the taker's two come first. */
  ghost predicate Books(p: Payload, m: MarketRow, a: Amounts, ds: seq<Delta>) {
    var buys := [Delta(BuyerOf(p), m.base, a.qty), Delta(BuyerOf(p), m.quote, -a.value - BuyerFee(p, a))];
    var sells := [Delta(SellerOf(p), m.base, -a.qty), Delta(SellerOf(p), m.quote, a.value - SellerFee(p, a))];
    ds == if p.takerSide == Buy then buys + sells else sells + buys
  }

  lemma BooksAre(db: Db, p: Payload, m: MarketRow, a: Amounts)
    requires Ready(db, p, m, a)
    ensures Books(p, m, a, Deltas(p, m, a, false))
  {
    AcceptedAmounts(db, p, m, a);
    hide RoundDown, AmountsOf, Refusal;
  }

  lemma ReportsAre(p: Payload, m: MarketRow, a: Amounts)
    requires p.price.Some?
    ensures Reports(p, m, a, TradeOf(p, m, a))
  {
    AmountsAreRounded(0, p.price.value, 1, m.priceUnit);
    hide Rounded, RoundDown;
  }

  /** One trade and four chained ledger rows are added behind what was there. */
  lemma CommitRecords(h: Hashes, db: Db, row: EventRow, m: MarketRow, a: Amounts)
    requires Process(h, db, row).Ok? && RowsOf(db.ledger, row.id) == [] && Readable(db, row.payload, m, a)
    ensures var db' := Process(h, db, row).value.0;
            && |db'.trades| == |db.trades| + 1 && db.trades <= db'.trades && Reports(row.payload, m, a, db'.trades[|db.trades|])
            && |db'.ledger| == |db.ledger| + 4 && db.ledger <= db'.ledger
            && Books(row.payload, m, a, DeltasOf(RowsOf(db'.ledger, row.id)))
            && db'.markets == db.markets
  {
    var p, ds := row.payload, Deltas(row.payload, m, a, false);
    ReadableIs(db, p, m, a);
    CommitIsSettled(h, db, row);
    hide Process, Updates, ApplyUpdates, Deltas, DeltasOf, RowsOf, Append, Readable, Books, TradeOf, Reports, Refusal, AmountsOf;
    AppendedDeltas(h.codec, db.ledger, row.id, ds);
    AppendAdds(h.codec, db.ledger, row.id, ds);
    BooksAre(db, p, m, a);
    ReportsAre(p, m, a);
  }

  // ----- which events settle

  /** Known market, decimals, nothing negative, two users, funds on both sides. */
  ghost predicate Passes(db: Db, p: Payload, m: MarketRow, a: Amounts) {
    Readable(db, p, m, a) && p.qty.value >= 0 && a.value >= 0 && p.takerUser != p.makerUser && Covered(db.balances, p, m, a)
  }

  /** The same, and two assets and room in both orders. */
  ghost predicate Settleable(db: Db, p: Payload, m: MarketRow, a: Amounts) {
    Passes(db, p, m, a) && (m.base != m.quote || a.qty == 0) && Room(db.orders, p, a.qty)
  }

  lemma RoundedSign(num: int, unit: int, r: int)
    requires unit > 0 && num >= 0 && Rounded(num, 1, unit, r)
    ensures r >= 0
  {
  }

  /** In a healthy database an event commits if and only if it is settleable. */
  lemma SettlesIff(h: Hashes, db: Db, row: EventRow, m: MarketRow, a: Amounts)
    requires Healthy(db) && NeverEmpty(h.codec) && RowsOf(db.ledger, row.id) == [] && row.hash == None
    requires Readable(db, row.payload, m, a)
    ensures Process(h, db, row).Ok? <==> Settleable(db, row.payload, m, a)
  {
    var p := row.payload;
    ReadableIs(db, p, m, a);
    AcceptedIff(db, p, m, a);
    WorthIs(p, m, a);
    if Refusal(db, p, m, a) == None {
      RoundedSign(p.qty.value, m.qtyUnit, a.qty);
      FillsIff(db.orders, p, a.qty);
      PostOutcome(h, db, row, m, a);
    }
    hide Post, Covered, Healthy, FillOrders, Room, Refusal, RowsOf, Settled, Rounded, AmountsOf;
  }

  // ----- what a tick makes of the next event

  /** Row `i` is the first that is pending with fewer than ten retries, and the worker is not
      halted. */
  ghost predicate NextIs(w: WorkerState, i: nat) {
    && !w.halted && i < |w.events| && w.events[i].status == Pending && w.events[i].retries < 10
    && forall j :: 0 <= j < i ==> w.events[j].status != Pending || w.events[j].retries >= 10
  }

  lemma NextIsNext(w: WorkerState, i: nat)
    requires NextIs(w, i)
    ensures NextRow(w.events) == i
  {
    var j := NextRow(w.events);
    assert !(j < i);
    assert !(i < j);
  }

  /** One more retry, and failed if that was the tenth, unless the second update was cut off. */
  function OneMoreRetry(row: EventRow, cut: bool): EventRow {
    row.(retries := row.retries + 1, status := if row.retries + 1 >= 10 && !cut then Failed else Pending)
  }

  /** The database refuses, or the event cannot be read: the row is tried again later. */
  lemma UnreadableRetries(h: Hashes, w: WorkerState, i: nat, fault: Fault)
    requires NextIs(w, i)
    requires fault.broken || forall m, a :: !Readable(w.db, w.events[i].payload, m, a)
    ensures Tick(h, w, fault) == w.(events := w.events[i := OneMoreRetry(w.events[i], fault.cut)])
  {
    NextIsNext(w, i);
    var p := w.events[i].payload;
    if !fault.broken {
      match Resolve(w.db, p)
      case Ok((m, a)) => ReadableIs(w.db, p, m, a);
      case Err(_) =>
    }
    hide Readable, Post, Refusal, AmountsOf, RowsOf, LaterHash;
  }

  /** A negative quantity or one user on both sides: tried again later. */
  lemma UntradableRetries(h: Hashes, w: WorkerState, i: nat, m: MarketRow, a: Amounts, fault: Fault)
    requires NextIs(w, i) && !fault.broken && RowsOf(w.db.ledger, w.events[i].id) == []
    requires var p := w.events[i].payload;
             Readable(w.db, p, m, a) && (p.qty.value < 0 || (a.value >= 0 && p.takerUser == p.makerUser))
    ensures Tick(h, w, fault) == w.(events := w.events[i := OneMoreRetry(w.events[i], fault.cut)])
  {
    NextIsNext(w, i);
    ReadableIs(w.db, w.events[i].payload, m, a);
    RefusalIs(w.db, w.events[i].payload, m, a);
    hide Readable, Post, Refusal, AmountsOf, RowsOf, LaterHash, Worth;
  }

  /** Funds are missing: the row fails at once, with its retries as they were, and the worker
      goes on. */
  lemma UncoveredFails(h: Hashes, w: WorkerState, i: nat, m: MarketRow, a: Amounts, fault: Fault)
    requires NextIs(w, i) && !fault.broken && RowsOf(w.db.ledger, w.events[i].id) == []
    requires var p := w.events[i].payload;
             && Readable(w.db, p, m, a) && p.qty.value >= 0 && a.value >= 0 && p.takerUser != p.makerUser
             && !Covered(w.db.balances, p, m, a)
    ensures Tick(h, w, fault) == w.(events := w.events[i := w.events[i].(status := Failed)])
  {
    NextIsNext(w, i);
    ReadableIs(w.db, w.events[i].payload, m, a);
    RefusalIs(w.db, w.events[i].payload, m, a);
    hide Readable, Post, Refusal, AmountsOf, RowsOf, LaterHash, Worth, Covered;
  }

  /** A negative value: the row fails and the worker halts. */
  lemma NegativeValueHalts(h: Hashes, w: WorkerState, i: nat, m: MarketRow, a: Amounts, fault: Fault)
    requires NextIs(w, i) && !fault.broken && RowsOf(w.db.ledger, w.events[i].id) == []
    requires var p := w.events[i].payload; Readable(w.db, p, m, a) && p.qty.value >= 0 && a.value < 0
    ensures Tick(h, w, fault) == w.(events := w.events[i := w.events[i].(status := Failed)], halted := true)
  {
    NextIsNext(w, i);
    ReadableIs(w.db, w.events[i].payload, m, a);
    RefusalIs(w.db, w.events[i].payload, m, a);
    hide Readable, Post, Refusal, AmountsOf, RowsOf, LaterHash, Worth;
  }

  /** An event that passes the funds checks in a healthy database, but has no room in its
      orders or is of an asset against itself: the row fails and the worker halts. */
  lemma NoRoomHalts(h: Hashes, w: WorkerState, i: nat, m: MarketRow, a: Amounts, fault: Fault)
    requires NextIs(w, i) && !fault.broken && RowsOf(w.db.ledger, w.events[i].id) == [] && w.events[i].hash == None
    requires Healthy(w.db) && NeverEmpty(h.codec)
    requires var p := w.events[i].payload;
             Passes(w.db, p, m, a) && ((m.base == m.quote && a.qty != 0) || !Room(w.db.orders, p, a.qty))
    ensures Tick(h, w, fault) == w.(events := w.events[i := w.events[i].(status := Failed)], halted := true)
  {
    var p := w.events[i].payload;
    NextIsNext(w, i);
    ReadableIs(w.db, p, m, a);
    AcceptedIff(w.db, p, m, a);
    WorthIs(p, m, a);
    RoundedSign(p.qty.value, m.qtyUnit, a.qty);
    FillsIff(w.db.orders, p, a.qty);
    PostOutcome(h, w.db, w.events[i], m, a);
    hide Post, Covered, Healthy, FillOrders, Room, Refusal, RowsOf, Settled, Rounded, AmountsOf, LaterHash;
  }

  /** A part of one of the four balances that the funds checks do not look at is negative and
      stays so. */
  ghost predicate Overdrawn(balances: map<Account, Balance>, p: Payload, m: MarketRow, a: Amounts) {
    || BalanceOf(balances, (BuyerOf(p), m.base)).available + a.qty < 0
    || BalanceOf(balances, (BuyerOf(p), m.base)).locked < 0
    || BalanceOf(balances, (SellerOf(p), m.base)).available < 0
    || BalanceOf(balances, (SellerOf(p), m.quote)).locked < 0
  }

  lemma OverdrawnIs(db: Db, p: Payload, m: MarketRow, a: Amounts)
    requires Passes(db, p, m, a)
    ensures Ready(db, p, m, a) && (AnyNegative(Updates(db, p, m, a)) <==> Overdrawn(db.balances, p, m, a))
  {
    WorthIs(p, m, a);
    AcceptedIff(db, p, m, a);
    AcceptedAmounts(db, p, m, a);
    hide AmountsOf, Refusal, RoundDown, BalanceOf, Rounded;
    var us := Updates(db, p, m, a);
    assert AnyNegative(us) <==> exists i :: 0 <= i < 4 && (us[i].balance.available < 0 || us[i].balance.locked < 0);
    if p.takerSide == Buy {
      assert us[0].balance.available < 0 || us[0].balance.locked < 0 || us[2].balance.available < 0 || us[3].balance.locked < 0
             ==> AnyNegative(us);
    } else {
      assert us[2].balance.available < 0 || us[2].balance.locked < 0 || us[0].balance.available < 0 || us[1].balance.locked < 0
             ==> AnyNegative(us);
    }
  }

  /** Negative balances are no alarm: the row is tried again later. */
  lemma OverdrawnRetries(h: Hashes, w: WorkerState, i: nat, m: MarketRow, a: Amounts, fault: Fault)
    requires NextIs(w, i) && !fault.broken && RowsOf(w.db.ledger, w.events[i].id) == [] && NeverEmpty(h.codec)
    requires Passes(w.db, w.events[i].payload, m, a) && Overdrawn(w.db.balances, w.events[i].payload, m, a)
    ensures Tick(h, w, fault) == w.(events := w.events[i := OneMoreRetry(w.events[i], fault.cut)])
  {
    var p := w.events[i].payload;
    NextIsNext(w, i);
    ReadableIs(w.db, p, m, a);
    OverdrawnIs(w.db, p, m, a);
    ChainCheckPasses(h.codec, w.db.ledger, w.events[i].id, Deltas(p, m, a, false));
    hide Passes, Overdrawn, RowsOf, ChainHolds, AnyNegative, Updates, Deltas, Append, ApplyUpdates, FillOrders, FirstHash, LaterHash, Resolve, Refusal, AmountsOf, Readable;
  }

  /** The ledger and the balances disagree on one of the four accounts, but for what the event
      overwrites: the row fails and the worker halts. */
  lemma DisagreementHalts(h: Hashes, w: WorkerState, i: nat, m: MarketRow, a: Amounts, fault: Fault, x: Account)
    requires NextIs(w, i) && !fault.broken && RowsOf(w.db.ledger, w.events[i].id) == [] && NeverEmpty(h.codec)
    requires Passes(w.db, w.events[i].payload, m, a) && !Overdrawn(w.db.balances, w.events[i].payload, m, a)
    requires x.0 in {w.events[i].payload.takerUser, w.events[i].payload.makerUser} && x.1 in {m.base, m.quote}
    requires LedgerSum(w.db.ledger, x) + Overwritten(w.events[i].payload, m, a, x) != Total(w.db.balances, x)
    ensures Tick(h, w, fault) == w.(events := w.events[i := w.events[i].(status := Failed)], halted := true)
  {
    var p := w.events[i].payload;
    NextIsNext(w, i);
    ReadableIs(w.db, p, m, a);
    OverdrawnIs(w.db, p, m, a);
    ChainCheckPasses(h.codec, w.db.ledger, w.events[i].id, Deltas(p, m, a, false));
    LedgerCheckIff(h, w.db, w.events[i], m, a);
    var n := DeltaOf(p, m, a, x);
    assert !AgreesButFor(w.db, p, m, a, x);
    hide Passes, Overdrawn, RowsOf, ChainHolds, AnyNegative, Updates, Deltas, Append, ApplyUpdates, FillOrders, FirstHash, LaterHash, Resolve, Refusal, AmountsOf, Readable, TotalsAgree, AgreesButFor, LedgerSum, Total, Overwritten;
  }

  lemma DeltaOf(p: Payload, m: MarketRow, a: Amounts, x: Account) returns (n: nat)
    requires x.0 in {p.takerUser, p.makerUser} && x.1 in {m.base, m.quote}
    ensures n < 4 && var d := Deltas(p, m, a, false)[n]; (d.user, d.asset) == x
  {
    hide RoundDown;
    n := (if x.0 == p.takerUser then 0 else 2) + if x.1 == m.base then 0 else 1;
  }

  /** A row that carries another hash than the one computed: it fails and the worker halts. */
  lemma OtherHashHalts(h: Hashes, w: WorkerState, i: nat, m: MarketRow, a: Amounts, fault: Fault)
    requires NextIs(w, i) && !fault.broken && RowsOf(w.db.ledger, w.events[i].id) == [] && NeverEmpty(h.codec)
    requires Passes(w.db, w.events[i].payload, m, a) && Healthy(w.db) && (m.base != m.quote || a.qty == 0)
    requires w.events[i].hash.Some?
             && w.events[i].hash.value != FirstHash(h, w.events[i].payload, a, Deltas(w.events[i].payload, m, a, false))
    ensures Tick(h, w, fault) == w.(events := w.events[i := w.events[i].(status := Failed)], halted := true)
  {
    var p := w.events[i].payload;
    NextIsNext(w, i);
    ReadableIs(w.db, p, m, a);
    OverdrawnIs(w.db, p, m, a);
    SettleKeepsNonNegative(w.db, p, m, a);
    ChainCheckPasses(h.codec, w.db.ledger, w.events[i].id, Deltas(p, m, a, false));
    LedgerCheckIff(h, w.db, w.events[i], m, a);
    hide Passes, Overdrawn, RowsOf, ChainHolds, AnyNegative, Updates, Deltas, Append, ApplyUpdates, FillOrders, FirstHash, LaterHash, Resolve, Refusal, AmountsOf, Readable, TotalsAgree, AgreesButFor, LedgerSum, Total, Overwritten, NonNegative;
  }

  /** A digest that comes out empty breaks the chain: the row fails and the worker halts. */
  lemma EmptyHashHalts(h: Hashes, w: WorkerState, i: nat, m: MarketRow, a: Amounts, fault: Fault)
    requires NextIs(w, i) && !fault.broken && RowsOf(w.db.ledger, w.events[i].id) == []
    requires Passes(w.db, w.events[i].payload, m, a) && forall x :: h.codec.sha(x) == ""
    ensures Tick(h, w, fault) == w.(events := w.events[i := w.events[i].(status := Failed)], halted := true)
  {
    var p := w.events[i].payload;
    var ds := Deltas(p, m, a, false);
    NextIsNext(w, i);
    ReadableIs(w.db, p, m, a);
    AcceptedIff(w.db, p, m, a);
    ChainCheckIff(h.codec, w.db.ledger, w.events[i].id, ds);
    EmptyRows(h.codec, w.db.ledger, w.events[i].id, ds);
    hide Readable, Covered, RowsOf, ChainHolds, AnyNegative, Updates, Deltas, Append, ApplyUpdates, FillOrders, FirstHash, LaterHash, Resolve, Refusal, AmountsOf, TotalsAgree;
  }

  lemma EmptyRows(k: Codec, ledger: seq<LedgerRow>, event: nat, ds: seq<Delta>)
    requires RowsOf(ledger, event) == [] && ds != [] && forall x :: k.sha(x) == ""
    ensures !NoEmptyHash(RowsOf(Append(k, ledger, event, ds), event))
  {
    RowsOfAppend(k, ledger, event, ds);
    var n := |ds| - 1;
    var before, rows := Append(k, ledger, event, ds[..n]), RowsOf(Append(k, ledger, event, ds), event);
    assert rows[|rows| - 1] == Entry(k, Head(before), event, ds[n]);
    assert rows[|rows| - 1].hash == Some("");
  }

  /** A settleable event in a healthy database is settled and marked. */
  lemma SettleableSettles(h: Hashes, w: WorkerState, i: nat, m: MarketRow, a: Amounts, fault: Fault)
    requires NextIs(w, i) && !fault.broken && RowsOf(w.db.ledger, w.events[i].id) == [] && w.events[i].hash == None
    requires Healthy(w.db) && NeverEmpty(h.codec) && Settleable(w.db, w.events[i].payload, m, a)
    ensures Process(h, w.db, w.events[i]).Ok?
    ensures var (db, hash) := Process(h, w.db, w.events[i]).value;
            Tick(h, w, fault) == w.(db := db, events := w.events[i := w.events[i].(status := Processed, hash := Some(hash))])
  {
    NextIsNext(w, i);
    SettlesIff(h, w.db, w.events[i], m, a);
    hide Process, Settleable, Healthy, RowsOf;
  }

  // ----- over runs

  lemma UnlockStep(h: Hashes, w: WorkerState, fault: Fault, x: Account)
    ensures BalanceOf(Tick(h, w, fault).db.balances, x).locked <= BalanceOf(w.db.balances, x).locked
  {
    var i := TickCommits(h, w, fault);
    hide Tick, BalanceOf;
    if i < |w.events| && Process(h, w.db, w.events[i]).Ok? {
      if RowsOf(w.db.ledger, w.events[i].id) == [] {
        CommitIsSettled(h, w.db, w.events[i]);
        var (m, a) := Resolve(w.db, w.events[i].payload).value;
        ReadableIs(w.db, w.events[i].payload, m, a);
        hide Process, Resolve, Readable;
        CommitMovesFunds(h, w.db, w.events[i], m, a, x);
      } else {
        ResettlingChangesNothing(h, w.db, w.events[i]);
        hide Process;
      }
    }
  }

  /** No run of the worker ever locks anything. */
  lemma {:induction false} LockedNeverRises(h: Hashes, s: State, actions: seq<Action>, x: Account)
    ensures BalanceOf(Run(h, s, actions).worker.db.balances, x).locked <= BalanceOf(s.worker.db.balances, x).locked
  {
    if actions != [] {
      var n := |actions| - 1;
      LockedNeverRises(h, s, actions[..n], x);
      hide Tick, BalanceOf;
      if actions[n].Work? {
        UnlockStep(h, Run(h, s, actions[..n]).worker, actions[n].fault, x);
      }
    }
  }

  /** What is settled or failed is not selected any more. */
  lemma TickKeepsRow(h: Hashes, w: WorkerState, fault: Fault, e: EventRow)
    requires e in w.events && e.status != Pending
    ensures e in Tick(h, w, fault).events
  {
    hide Attempt;
    var j :| 0 <= j < |w.events| && w.events[j] == e;
    var i := NextRow(w.events);
    var after := Tick(h, w, fault).events;
    assert |after| == |w.events| && after[j] == e;
  }

  /** A failed row stays exactly as it is, whatever the worker does, until the failed rows are
      reset or deleted; a settled one stays for good. */
  lemma {:induction false} RowsStay(h: Hashes, s: State, actions: seq<Action>, e: EventRow)
    requires e in s.worker.events
    requires e.status == Processed || (e.status == Failed && RetryFailed !in actions && DeleteFailed !in actions)
    ensures e in Run(h, s, actions).worker.events
  {
    if actions != [] {
      var n := |actions| - 1;
      assert actions == actions[..n] + [actions[n]];
      RowsStay(h, s, actions[..n], e);
      var before, events := Run(h, s, actions[..n]), Run(h, s, actions[..n]).worker.events;
      var j :| 0 <= j < |events| && events[j] == e;
      hide Run, Tick;
      match actions[n]
      case Work(fault) => TickKeepsRow(h, before.worker, fault, e);
      case Stall =>
      case Arrive(p) => assert e in events + [EventRow(before.nextId, p, Pending, 0, None)];
      case RetryFailed => assert RetryAll(events)[j] == e;
      case DeleteFailed => WithoutIs(events, Failed, e);
      case Unstick(max) => assert UnstickAbove(events, max)[j] == e;
      case DeletePending => WithoutIs(events, Pending, e);
      case CloseCircuit =>
    }
  }
}
