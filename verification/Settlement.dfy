/** Settling one match event: guards, four balance updates, four ledger rows, the trade
    and the two order rows, all in one transaction. */
module Settlement {
  import opened Types
  import opened Rounding
  import opened LedgerChain
  import opened SettlementLines

  const TAKER_FEE_PARTS: nat := 1000
  const MAKER_FEE_PARTS: nat := 2000

  /** A market row; `resolved` says whether both of its currencies are known. */
  datatype SpotMarket = SpotMarket(base: string, quote: string, resolved: bool, priceUnit: nat, qtyUnit: nat, quoteUnit: nat)

  /** Price and quantity are `None` when they are not finite decimals. */
  datatype Payload = Payload(
    symbol: string,
    price: Option<int>,
    qty: Option<int>,
    takerOrder: nat,
    makerOrder: nat,
    takerUser: nat,
    makerUser: nat,
    takerSide: Side)

  datatype Status = Pending | Processed | Failed

  datatype EventRow = EventRow(id: nat, payload: Payload, status: Status, retries: nat, hash: Option<string>)

  type Account = (nat, string)

  datatype Balance = Balance(available: int, locked: int)

  datatype OrderStatus = Open | PartiallyFilled | Filled

  datatype OrderRow = OrderRow(filled: int, remaining: int, status: OrderStatus)

  datatype Trade = Trade(symbol: string, price: int, qty: int, quoteQty: int, takerUser: nat, makerUser: nat,
                         takerOrder: nat, makerOrder: nat, takerFee: int, makerFee: int)

  /** The tables settlement works on. */
  datatype Db = Db(
    markets: map<string, MarketRow>,
    ledger: seq<LedgerRow>,
    balances: map<Account, Balance>,
    orders: map<nat, OrderRow>,
    trades: seq<Trade>)

  datatype Error =
    | MarketNotFound
    | MarketCurrencyNotFound
    | InvalidDecimal
    | NegativeQuantity
    | FeeInvariantViolation
    | SelfTradeRejected
    | InsufficientLockedFunds
    | InsufficientFundsForFee
    | LedgerChainViolation
    | NegativeBalance
    | GlobalLedgerInvariantViolation
    | SettlementHashMismatch
    | OrderInvariantViolation
    | DatabaseError

  predicate Fatal(e: Error) {
    e in {InsufficientLockedFunds, InsufficientFundsForFee, OrderInvariantViolation, FeeInvariantViolation,
          GlobalLedgerInvariantViolation, SettlementHashMismatch, LedgerChainViolation}
  }

  /** The worker's hashes: the ledger codec, the locale's string order, and the digest of a
      settled event with its ledger lines. */
  datatype Hashes = Hashes(codec: Codec, collate: (string, string) -> bool, digest: (Payload, Amounts, seq<string>) -> string)

  datatype Amounts = Amounts(qty: int, value: int, takerFee: int, makerFee: int)

  type MarketRow = m: SpotMarket | m.priceUnit > 0 && m.qtyUnit > 0 && m.quoteUnit > 0
    witness SpotMarket("", "", false, 1, 1, 1)

  function AmountsOf(price: int, qty: int, m: MarketRow): Amounts {
    var value := TradeValue(price, qty, m.quoteUnit);
    Amounts(RoundDown(qty, m.qtyUnit), value,
            FeeOf(value, TAKER_FEE_PARTS, m.quoteUnit), FeeOf(value, MAKER_FEE_PARTS, m.quoteUnit))
  }

  function BalanceOf(balances: map<Account, Balance>, a: Account): Balance {
    if a in balances then balances[a] else Balance(0, 0)
  }

  /** The market and decimal checks that come first on every path. */
  function Resolve(db: Db, p: Payload): Result<(MarketRow, Amounts), Error> {
    if p.symbol !in db.markets then Err(MarketNotFound)
    else if !db.markets[p.symbol].resolved then Err(MarketCurrencyNotFound)
    else if p.price.None? || p.qty.None? then Err(InvalidDecimal)
    else Ok((db.markets[p.symbol], AmountsOf(p.price.value, p.qty.value, db.markets[p.symbol])))
  }

  /** The funds checks, in the order they are made. */
  function Refusal(db: Db, p: Payload, m: MarketRow, a: Amounts): Option<Error> {
    var takerBase, takerQuote := BalanceOf(db.balances, (p.takerUser, m.base)), BalanceOf(db.balances, (p.takerUser, m.quote));
    var makerBase, makerQuote := BalanceOf(db.balances, (p.makerUser, m.base)), BalanceOf(db.balances, (p.makerUser, m.quote));
    if p.qty.Some? && p.qty.value < 0 then Some(NegativeQuantity)
    else if a.takerFee + a.makerFee > a.value then Some(FeeInvariantViolation)
    else if p.takerUser == p.makerUser then Some(SelfTradeRejected)
    else
      match p.takerSide
      case Buy =>
        if takerQuote.locked < a.value || makerBase.locked < a.qty then Some(InsufficientLockedFunds)
        else if takerQuote.available < a.takerFee || makerQuote.available + a.value < a.makerFee then Some(InsufficientFundsForFee)
        else None
      case Sell =>
        if takerBase.locked < a.qty || makerQuote.locked < a.value then Some(InsufficientLockedFunds)
        else if takerQuote.available + a.value < a.takerFee || makerQuote.available < a.makerFee then Some(InsufficientFundsForFee)
        else None
  }

  /** Four ledger lines per fill.  `rebates` turns the maker's fee on a buy into a credit. */
  function Deltas(p: Payload, m: MarketRow, a: Amounts, rebates: bool): (ds: seq<Delta>)
    ensures |ds| == 4
  {
    var makerNet := RoundDown(if rebates then a.value + a.makerFee else a.value - a.makerFee, m.quoteUnit);
    var takerNet := RoundDown(a.value - a.takerFee, m.quoteUnit);
    match p.takerSide
    case Buy =>
      [Delta(p.takerUser, m.base, a.qty), Delta(p.takerUser, m.quote, -a.value - a.takerFee),
       Delta(p.makerUser, m.base, -a.qty), Delta(p.makerUser, m.quote, makerNet)]
    case Sell =>
      [Delta(p.takerUser, m.base, -a.qty), Delta(p.takerUser, m.quote, takerNet),
       Delta(p.makerUser, m.base, a.qty), Delta(p.makerUser, m.quote, -a.value - a.makerFee)]
  }

  datatype Update = Update(account: Account, balance: Balance)

  function Updates(db: Db, p: Payload, m: MarketRow, a: Amounts): (us: seq<Update>)
    ensures |us| == 4
  {
    var tb, tq := (p.takerUser, m.base), (p.takerUser, m.quote);
    var mb, mq := (p.makerUser, m.base), (p.makerUser, m.quote);
    var takerBase, takerQuote := BalanceOf(db.balances, tb), BalanceOf(db.balances, tq);
    var makerBase, makerQuote := BalanceOf(db.balances, mb), BalanceOf(db.balances, mq);
    var makerNet := RoundDown(a.value - a.makerFee, m.quoteUnit);
    var takerNet := RoundDown(a.value - a.takerFee, m.quoteUnit);
    match p.takerSide
    case Buy =>
      [Update(tb, takerBase.(available := takerBase.available + a.qty)),
       Update(tq, Balance(takerQuote.available - a.takerFee, takerQuote.locked - a.value)),
       Update(mb, makerBase.(locked := makerBase.locked - a.qty)),
       Update(mq, makerQuote.(available := makerQuote.available + makerNet))]
    case Sell =>
      [Update(tb, takerBase.(locked := takerBase.locked - a.qty)),
       Update(tq, takerQuote.(available := takerQuote.available + takerNet)),
       Update(mb, makerBase.(available := makerBase.available + a.qty)),
       Update(mq, Balance(makerQuote.available - a.makerFee, makerQuote.locked - a.value))]
  }

  function ApplyUpdates(balances: map<Account, Balance>, us: seq<Update>): map<Account, Balance> {
    if us == [] then balances
    else
      var n := |us| - 1;
      ApplyUpdates(balances, us[..n])[us[n].account := us[n].balance]
  }

  predicate AnyNegative(us: seq<Update>) {
    exists i :: 0 <= i < |us| && (us[i].balance.available < 0 || us[i].balance.locked < 0)
  }

  /** `SUM(delta)` of one account over the whole ledger. */
  function LedgerSum(ledger: seq<LedgerRow>, a: Account): int {
    if ledger == [] then 0
    else
      var n := |ledger| - 1;
      LedgerSum(ledger[..n], a) + AmountFor(ledger[n].delta, a)
  }

  function AmountFor(d: Delta, a: Account): int {
    if (d.user, d.asset) == a then d.amount else 0
  }

  function Total(balances: map<Account, Balance>, a: Account): int {
    BalanceOf(balances, a).available + BalanceOf(balances, a).locked
  }

  /** The ledger's sum for each account touched is what the balance row holds. */
  predicate TotalsAgree(ledger: seq<LedgerRow>, balances: map<Account, Balance>, ds: seq<Delta>) {
    forall i :: 0 <= i < |ds| ==>
      LedgerSum(ledger, (ds[i].user, ds[i].asset)) == Total(balances, (ds[i].user, ds[i].asset))
  }

  function RowsOf(ledger: seq<LedgerRow>, event: nat): seq<LedgerRow> {
    if ledger == [] then []
    else
      var n := |ledger| - 1;
      RowsOf(ledger[..n], event) + if ledger[n].event == event then [ledger[n]] else []
  }

  /** The check inside the transaction: each row continues the one before it. */
  predicate ChainHolds(first: Option<string>, rows: seq<LedgerRow>) {
    forall i :: 0 <= i < |rows| ==> Continues(first, rows, i)
  }

  predicate Continues(first: Option<string>, rows: seq<LedgerRow>, i: nat)
    requires i < |rows|
  {
    && rows[i].prev == (if i == 0 then first else rows[i - 1].hash)
    && OrEmpty(rows[i].hash) != ""
  }

  function FillOrder(orders: map<nat, OrderRow>, id: nat, q: int): Option<map<nat, OrderRow>> {
    if id in orders && orders[id].remaining >= q then
      var o := orders[id];
      Some(orders[id := OrderRow(o.filled + q, o.remaining - q,
                                 if o.remaining - q <= 0 then Filled else PartiallyFilled)])
    else None
  }

  function FillOrders(orders: map<nat, OrderRow>, taker: nat, maker: nat, q: int): Option<map<nat, OrderRow>> {
    match FillOrder(orders, taker, q)
    case None => None
    case Some(orders') => FillOrder(orders', maker, q)
  }

  function TradeOf(p: Payload, m: MarketRow, a: Amounts): Trade {
    Trade(p.symbol, if p.price.Some? then RoundDown(p.price.value, m.priceUnit) else 0, a.qty, a.value,
          p.takerUser, p.makerUser, p.takerOrder, p.makerOrder, a.takerFee, a.makerFee)
  }

  function DeltasOf(rows: seq<LedgerRow>): seq<Delta> {
    seq(|rows|, i requires 0 <= i < |rows| => rows[i].delta)
  }

  /** The digest computed when an event is settled. */
  function FirstHash(h: Hashes, p: Payload, a: Amounts, ds: seq<Delta>): string {
    h.digest(p, a, FirstLines(h.collate, h.codec, ds))
  }

  /** The digest computed when its rows are found in the ledger. */
  function LaterHash(h: Hashes, p: Payload, a: Amounts, ds: seq<Delta>): string {
    h.digest(p, a, LaterLines(h.codec, ds))
  }

  /** Settle one event.  An event that already has ledger rows is only marked processed. */
  function Process(h: Hashes, db: Db, row: EventRow): Result<(Db, string), Error> {
    var p := row.payload;
    match Resolve(db, p)
    case Err(e) => Err(e)
    case Ok((m, a)) =>
      if RowsOf(db.ledger, row.id) != [] then
        Ok((db, LaterHash(h, p, a, DeltasOf(RowsOf(db.ledger, row.id)))))
      else
        match Refusal(db, p, m, a)
        case Some(e) => Err(e)
        case None => Post(h, db, row, m, a)
  }

  /** The writes of a settlement whose funds checks passed, with the checks made on the way. */
  function Post(h: Hashes, db: Db, row: EventRow, m: MarketRow, a: Amounts): Result<(Db, string), Error> {
    var p := row.payload;
    var ds, us := Deltas(p, m, a, false), Updates(db, p, m, a);
    var ledger := Append(h.codec, db.ledger, row.id, ds);
    var balances := ApplyUpdates(db.balances, us);
    var orders := FillOrders(db.orders, p.takerOrder, p.makerOrder, a.qty);
    var hash := FirstHash(h, p, a, ds);
    if !ChainHolds(Head(db.ledger), RowsOf(ledger, row.id)) then Err(LedgerChainViolation)
    else if AnyNegative(us) then Err(NegativeBalance)
    else if !TotalsAgree(ledger, balances, ds) then Err(GlobalLedgerInvariantViolation)
    else if row.hash.Some? && row.hash != Some(hash) then Err(SettlementHashMismatch)
    else if orders.None? then Err(OrderInvariantViolation)
    else Ok((Db(db.markets, ledger, balances, orders.value, db.trades + [TradeOf(p, m, a)]), hash))
  }
}
