/** What settling one event conserves, and which of its checks can fire. */
module SettlementFacts {
  import opened Types
  import opened Rounding
  import opened LedgerChain
  import opened Settlement

  function SumDeltas(ds: seq<Delta>, x: Account): int {
    if ds == [] then 0
    else
      var n := |ds| - 1;
      SumDeltas(ds[..n], x) + AmountFor(ds[n], x)
  }

  /** The four deltas, one by one. */
  lemma SumOfFour(ds: seq<Delta>, x: Account)
    requires |ds| == 4
    ensures SumDeltas(ds, x) == AmountFor(ds[0], x) + AmountFor(ds[1], x) + AmountFor(ds[2], x) + AmountFor(ds[3], x)
  {
    var d3, d2, d1 := ds[..3], ds[..2], ds[..1];
    assert d3[..2] == d2 && d2[..1] == d1 && d1[..0] == [];
    assert SumDeltas(d1, x) == AmountFor(ds[0], x);
    assert SumDeltas(d2, x) == SumDeltas(d1, x) + AmountFor(ds[1], x);
    assert SumDeltas(d3, x) == SumDeltas(d2, x) + AmountFor(ds[2], x);
  }

  lemma {:induction false} LedgerSumAppend(k: Codec, ledger: seq<LedgerRow>, event: nat, ds: seq<Delta>, x: Account)
    ensures LedgerSum(Append(k, ledger, event, ds), x) == LedgerSum(ledger, x) + SumDeltas(ds, x)
  {
    if ds != [] {
      var n := |ds| - 1;
      LedgerSumAppend(k, ledger, event, ds[..n], x);
      var before := Append(k, ledger, event, ds[..n]);
      EntryContents(k, Head(before), event, ds[n]);
      assert Append(k, ledger, event, ds)[..|before|] == before;
    }
  }

  // ----- the amounts of an accepted event

  lemma FeeOfNegative(value: int, parts: int, unit: int)
    requires unit > 0 && parts > 0 && value < 0
    ensures FeeOf(value, parts, unit) <= 0 && FeeOf(value, parts, unit) * parts >= value
  {
    FeeBounds(-value, parts, unit);
    assert FeeOf(value, parts, unit) == -FeeOf(-value, parts, unit);
  }

  /** An event that passes the checks has a non-negative quantity, value and fees, whatever
      its price, and the net credits are exact. */
  lemma AcceptedAmounts(db: Db, p: Payload, m: MarketRow, a: Amounts)
    requires p.price.Some? && p.qty.Some? && a == AmountsOf(p.price.value, p.qty.value, m)
    requires Refusal(db, p, m, a) == None
    ensures a.qty >= 0 && a.value >= 0 && a.takerFee >= 0 && a.makerFee >= 0
    ensures a.takerFee + a.makerFee <= a.value && p.takerUser != p.makerUser
    ensures RoundDown(a.value - a.makerFee, m.quoteUnit) == a.value - a.makerFee
    ensures RoundDown(a.value - a.takerFee, m.quoteUnit) == a.value - a.takerFee
  {
    RoundDownBounds(p.qty.value, m.qtyUnit);
    QuantityStaysUp(p.qty.value, m.qtyUnit);
    NetCreditIsExact(p.price.value, p.qty.value, TAKER_FEE_PARTS, m.quoteUnit);
    NetCreditIsExact(p.price.value, p.qty.value, MAKER_FEE_PARTS, m.quoteUnit);
    hide TradeValue, FeeOf, RoundDown;
    if a.value < 0 {
      FeeOfNegative(a.value, TAKER_FEE_PARTS, m.quoteUnit);
      FeeOfNegative(a.value, MAKER_FEE_PARTS, m.quoteUnit);
    } else {
      FeeBounds(a.value, TAKER_FEE_PARTS, m.quoteUnit);
      FeeBounds(a.value, MAKER_FEE_PARTS, m.quoteUnit);
    }
  }

  lemma QuantityStaysUp(q: int, unit: int)
    requires unit > 0 && q >= 0
    ensures RoundDown(q, unit) >= 0
  {
  }

  // ----- balances

  /** An event that passed the checks. */
  ghost predicate Ready(db: Db, p: Payload, m: MarketRow, a: Amounts) {
    && p.price.Some? && p.qty.Some? && a == AmountsOf(p.price.value, p.qty.value, m)
    && Refusal(db, p, m, a) == None
  }

  lemma UpdatesInOrder(balances: map<Account, Balance>, us: seq<Update>)
    requires |us| == 4
    ensures ApplyUpdates(balances, us)
            == balances[us[0].account := us[0].balance][us[1].account := us[1].balance]
                       [us[2].account := us[2].balance][us[3].account := us[3].balance]
  {
    var u3, u2, u1 := us[..3], us[..2], us[..1];
    assert u3[..2] == u2 && u2[..1] == u1 && u1[..0] == [];
    assert ApplyUpdates(balances, u1) == balances[us[0].account := us[0].balance];
    assert ApplyUpdates(balances, u2) == ApplyUpdates(balances, u1)[us[1].account := us[1].balance];
    assert ApplyUpdates(balances, u3) == ApplyUpdates(balances, u2)[us[2].account := us[2].balance];
  }

  function Sum(b: Balance): int {
    b.available + b.locked
  }

  /** The last update of an account counts. */
  lemma TotalAfter(balances: map<Account, Balance>, us: seq<Update>, x: Account)
    requires |us| == 4
    ensures Total(ApplyUpdates(balances, us), x)
            == if us[3].account == x then Sum(us[3].balance) else if us[2].account == x then Sum(us[2].balance)
               else if us[1].account == x then Sum(us[1].balance) else if us[0].account == x then Sum(us[0].balance)
               else Total(balances, x)
  {
    UpdatesInOrder(balances, us);
    hide ApplyUpdates;
  }

  /** The base line of an account whose quote update overwrites it: in a market of an asset
      against itself each user's two updates go to one row, and the later one wins. */
  function Overwritten(p: Payload, m: MarketRow, a: Amounts, x: Account): int {
    if m.base != m.quote || x.1 != m.base then 0
    else if x.0 == p.takerUser then (if p.takerSide == Buy then a.qty else -a.qty)
    else if x.0 == p.makerUser then (if p.takerSide == Buy then -a.qty else a.qty)
    else 0
  }

  /** The four accounts, in the order of updates and deltas. */
  function AccountAt(p: Payload, m: MarketRow, i: nat): Account {
    (if i < 2 then p.takerUser else p.makerUser, if i % 2 == 0 then m.base else m.quote)
  }

  /** Each update moves its own account by its own delta, counted from the balance before the
      event. */
  lemma UpdateByUpdate(db: Db, p: Payload, m: MarketRow, a: Amounts, i: nat)
    requires Ready(db, p, m, a) && i < 4
    ensures var u, d := Updates(db, p, m, a)[i], Deltas(p, m, a, false)[i];
            && u.account == (d.user, d.asset) == AccountAt(p, m, i)
            && Sum(u.balance) == Total(db.balances, u.account) + d.amount
  {
    AcceptedAmounts(db, p, m, a);
    hide RoundDown, AmountsOf, Refusal, BalanceOf, Ready;
  }

  lemma OverwrittenIs(p: Payload, m: MarketRow, a: Amounts, x: Account)
    requires p.takerUser != p.makerUser
    ensures var ds := Deltas(p, m, a, false);
            Overwritten(p, m, a, x)
            == (if m.base == m.quote && x == AccountAt(p, m, 0) then ds[0].amount else 0)
               + (if m.base == m.quote && x == AccountAt(p, m, 2) then ds[2].amount else 0)
  {
    hide RoundDown;
  }

  /** The arithmetic of four updates on two users' accounts. */
  lemma {:induction false} FourUpdates(balances: map<Account, Balance>, us: seq<Update>, ds: seq<Delta>, p: Payload, m: MarketRow, x: Account)
    requires |us| == |ds| == 4 && p.takerUser != p.makerUser
    requires forall i :: 0 <= i < 4 ==> us[i].account == AccountAt(p, m, i) && (ds[i].user, ds[i].asset) == AccountAt(p, m, i)
    requires forall i :: 0 <= i < 4 ==> Sum(us[i].balance) == Total(balances, us[i].account) + ds[i].amount
    ensures Total(ApplyUpdates(balances, us), x)
            == Total(balances, x) + SumDeltas(ds, x)
               - (if m.base == m.quote && x == AccountAt(p, m, 0) then ds[0].amount else 0)
               - (if m.base == m.quote && x == AccountAt(p, m, 2) then ds[2].amount else 0)
  {
    TotalAfter(balances, us, x);
    SumOfFour(ds, x);
    hide SumDeltas, ApplyUpdates, Total, Sum;
  }

  /** Every account's balance moves by exactly the sum of its ledger deltas, less what was
      overwritten; so by exactly that sum wherever base and quote differ. */
  lemma BalancesFollowDeltas(db: Db, p: Payload, m: MarketRow, a: Amounts, x: Account)
    requires Ready(db, p, m, a)
    ensures Total(ApplyUpdates(db.balances, Updates(db, p, m, a)), x)
            == Total(db.balances, x) + SumDeltas(Deltas(p, m, a, false), x) - Overwritten(p, m, a, x)
    ensures m.base != m.quote || a.qty == 0 ==> Overwritten(p, m, a, x) == 0
  {
    AcceptedAmounts(db, p, m, a);
    var us, ds := Updates(db, p, m, a), Deltas(p, m, a, false);
    forall i | 0 <= i < 4
      ensures us[i].account == AccountAt(p, m, i) && (ds[i].user, ds[i].asset) == AccountAt(p, m, i)
      ensures Sum(us[i].balance) == Total(db.balances, us[i].account) + ds[i].amount
    {
      UpdateByUpdate(db, p, m, a, i);
    }
    OverwrittenIs(p, m, a, x);
    hide SumDeltas, ApplyUpdates, AmountsOf, Refusal, Ready, Total, Updates, Deltas, Sum, AccountAt, RoundDown;
    FourUpdates(db.balances, us, ds, p, m, x);
  }

  ghost predicate NonNegative(balances: map<Account, Balance>) {
    forall x :: x in balances ==> balances[x].available >= 0 && balances[x].locked >= 0
  }

  /** With no negative balance to start from, an accepted event makes none, so the late
      check never fires. */
  lemma SettleKeepsNonNegative(db: Db, p: Payload, m: MarketRow, a: Amounts)
    requires Ready(db, p, m, a) && NonNegative(db.balances)
    ensures !AnyNegative(Updates(db, p, m, a))
    ensures NonNegative(ApplyUpdates(db.balances, Updates(db, p, m, a)))
  {
    AcceptedAmounts(db, p, m, a);
    UpdatesInOrder(db.balances, Updates(db, p, m, a));
    hide RoundDown, ApplyUpdates, AmountsOf;
  }

  ghost predicate AgreesAt(db: Db, x: Account) {
    LedgerSum(db.ledger, x) == Total(db.balances, x)
  }

  /** The ledger is behind the balance by exactly what the event will overwrite there. */
  ghost predicate AgreesButFor(db: Db, p: Payload, m: MarketRow, a: Amounts, x: Account) {
    LedgerSum(db.ledger, x) + Overwritten(p, m, a, x) == Total(db.balances, x)
  }

  /** The ledger check inside the transaction passes exactly when the ledger and the
      balances agreed on the four accounts before the event, but for what it overwrites. */
  lemma LedgerCheckIff(h: Hashes, db: Db, row: EventRow, m: MarketRow, a: Amounts)
    requires Ready(db, row.payload, m, a)
    ensures var ds := Deltas(row.payload, m, a, false);
            TotalsAgree(Append(h.codec, db.ledger, row.id, ds), ApplyUpdates(db.balances, Updates(db, row.payload, m, a)), ds)
            <==> forall i :: 0 <= i < 4 ==> AgreesButFor(db, row.payload, m, a, (ds[i].user, ds[i].asset))
    ensures m.base != m.quote || a.qty == 0 ==>
              forall x :: AgreesButFor(db, row.payload, m, a, x) <==> AgreesAt(db, x)
  {
    var ds, us := Deltas(row.payload, m, a, false), Updates(db, row.payload, m, a);
    forall i | 0 <= i < 4
      ensures AgreesButFor(db, row.payload, m, a, (ds[i].user, ds[i].asset)) <==>
              LedgerSum(Append(h.codec, db.ledger, row.id, ds), (ds[i].user, ds[i].asset))
              == Total(ApplyUpdates(db.balances, us), (ds[i].user, ds[i].asset))
    {
      LedgerSumAppend(h.codec, db.ledger, row.id, ds, (ds[i].user, ds[i].asset));
      BalancesFollowDeltas(db, row.payload, m, a, (ds[i].user, ds[i].asset));
    }
    hide Ready, Append, ApplyUpdates, LedgerSum, Total, Deltas, Updates;
  }

  /** The first of the four accounts, in a market of an asset against itself. */
  lemma OverwritesTaker(p: Payload, m: MarketRow, a: Amounts)
    requires m.base == m.quote
    ensures var d := Deltas(p, m, a, false)[0];
            Overwritten(p, m, a, (d.user, d.asset)) == if p.takerSide == Buy then a.qty else -a.qty
  {
    hide RoundDown;
  }

  // ----- the chain check

  lemma RowsOfSnoc(before: seq<LedgerRow>, last: LedgerRow, event: nat)
    ensures RowsOf(before + [last], event) == RowsOf(before, event) + if last.event == event then [last] else []
  {
    assert (before + [last])[..|before|] == before;
  }

  lemma SliceSnoc(before: seq<LedgerRow>, last: LedgerRow, k: nat)
    requires k <= |before|
    ensures (before + [last])[k..] == before[k..] + [last]
  {
  }

  lemma Regroup(a: seq<LedgerRow>, b: seq<LedgerRow>, x: LedgerRow)
    ensures (a + b) + [x] == a + (b + [x])
  {
  }

  lemma {:induction false} RowsOfAppend(k: Codec, ledger: seq<LedgerRow>, event: nat, ds: seq<Delta>)
    ensures |Append(k, ledger, event, ds)| == |ledger| + |ds|
    ensures RowsOf(Append(k, ledger, event, ds), event) == RowsOf(ledger, event) + Append(k, ledger, event, ds)[|ledger|..]
  {
    if ds == [] {
      assert ledger[|ledger|..] == [];
    } else {
      var n := |ds| - 1;
      RowsOfAppend(k, ledger, event, ds[..n]);
      var before, all := Append(k, ledger, event, ds[..n]), Append(k, ledger, event, ds);
      EntryContents(k, Head(before), event, ds[n]);
      var last := Entry(k, Head(before), event, ds[n]);
      hide Entry;
      RowsOfSnoc(before, last, event);
      SliceSnoc(before, last, |ledger|);
      Regroup(RowsOf(ledger, event), before[|ledger|..], last);
    }
  }

  lemma {:induction false} OtherRowsOfAppend(k: Codec, ledger: seq<LedgerRow>, event: nat, ds: seq<Delta>, other: nat)
    requires other != event
    ensures RowsOf(Append(k, ledger, event, ds), other) == RowsOf(ledger, other)
  {
    if ds != [] {
      var n := |ds| - 1;
      OtherRowsOfAppend(k, ledger, event, ds[..n], other);
      var before, all := Append(k, ledger, event, ds[..n]), Append(k, ledger, event, ds);
      EntryContents(k, Head(before), event, ds[n]);
      assert all[..|before|] == before;
    }
  }

  ghost predicate NeverEmpty(k: Codec) {
    forall x :: k.sha(x) != ""
  }

  lemma ChainSnoc(first: Option<string>, rows: seq<LedgerRow>, last: LedgerRow)
    requires ChainHolds(first, rows) && OrEmpty(last.hash) != ""
    requires last.prev == if rows == [] then first else rows[|rows| - 1].hash
    ensures ChainHolds(first, rows + [last])
  {
    var all := rows + [last];
    forall i | 0 <= i < |all| ensures Continues(first, all, i) {
      if i < |rows| {
        assert all[i] == rows[i] && Continues(first, rows, i);
      } else {
        assert all[i] == last;
      }
      if i > 0 {
        assert all[i - 1] == rows[i - 1];
      }
    }
  }

  lemma {:induction false} AppendedChain(k: Codec, ledger: seq<LedgerRow>, event: nat, ds: seq<Delta>)
    requires NeverEmpty(k)
    ensures |Append(k, ledger, event, ds)| == |ledger| + |ds|
    ensures ChainHolds(Head(ledger), Append(k, ledger, event, ds)[|ledger|..])
  {
    if ds != [] {
      var n := |ds| - 1;
      AppendedChain(k, ledger, event, ds[..n]);
      var before, all := Append(k, ledger, event, ds[..n]), Append(k, ledger, event, ds);
      var last := Entry(k, Head(before), event, ds[n]);
      assert all[|ledger|..] == before[|ledger|..] + [last];
      assert n == 0 ==> before == ledger;
      ChainSnoc(Head(ledger), before[|ledger|..], last);
    }
  }

  /** The rows a settlement inserts always continue the chain, so that check never fires
      either. */
  lemma ChainCheckPasses(k: Codec, ledger: seq<LedgerRow>, event: nat, ds: seq<Delta>)
    requires NeverEmpty(k) && RowsOf(ledger, event) == []
    ensures ChainHolds(Head(ledger), RowsOf(Append(k, ledger, event, ds), event))
  {
    hide Append, ChainHolds, Head;
    RowsOfAppend(k, ledger, event, ds);
    AppendedChain(k, ledger, event, ds);
    var new' := Append(k, ledger, event, ds)[|ledger|..];
    assert [] + new' == new';
  }

  ghost predicate NoEmptyHash(rows: seq<LedgerRow>) {
    forall i :: 0 <= i < |rows| ==> OrEmpty(rows[i].hash) != ""
  }

  lemma {:induction false} AppendedChainIff(k: Codec, ledger: seq<LedgerRow>, event: nat, ds: seq<Delta>)
    ensures |Append(k, ledger, event, ds)| == |ledger| + |ds|
    ensures ChainHolds(Head(ledger), Append(k, ledger, event, ds)[|ledger|..]) <==> NoEmptyHash(Append(k, ledger, event, ds)[|ledger|..])
  {
    if ds != [] {
      var n := |ds| - 1;
      AppendedChainIff(k, ledger, event, ds[..n]);
      var before, all := Append(k, ledger, event, ds[..n]), Append(k, ledger, event, ds);
      var last := Entry(k, Head(before), event, ds[n]);
      assert n == 0 ==> before == ledger;
      var rows := before[|ledger|..];
      SliceSnoc(before, last, |ledger|);
      hide Append;
      ChainSnocIff(Head(ledger), rows, last);
      assert NoEmptyHash(rows + [last]) <==> NoEmptyHash(rows) && OrEmpty(last.hash) != "" by {
        NoEmptySnoc(rows, last);
      }
    }
  }

  lemma NoEmptySnoc(rows: seq<LedgerRow>, last: LedgerRow)
    ensures NoEmptyHash(rows + [last]) <==> NoEmptyHash(rows) && OrEmpty(last.hash) != ""
  {
    var all := rows + [last];
    assert all[|rows|] == last && forall i :: 0 <= i < |rows| ==> all[i] == rows[i];
  }

  lemma ChainSnocIff(first: Option<string>, rows: seq<LedgerRow>, last: LedgerRow)
    requires last.prev == if rows == [] then first else rows[|rows| - 1].hash
    ensures ChainHolds(first, rows + [last]) <==> ChainHolds(first, rows) && OrEmpty(last.hash) != ""
  {
    var all := rows + [last];
    if ChainHolds(first, rows) && OrEmpty(last.hash) != "" {
      ChainSnoc(first, rows, last);
    }
    if ChainHolds(first, all) {
      assert Continues(first, all, |rows|);
      forall i | 0 <= i < |rows| ensures Continues(first, rows, i) {
        assert Continues(first, all, i);
      }
    }
  }

  /** The chain check of a settlement fires exactly when one of the four new hashes is empty. */
  lemma ChainCheckIff(k: Codec, ledger: seq<LedgerRow>, event: nat, ds: seq<Delta>)
    requires RowsOf(ledger, event) == []
    ensures ChainHolds(Head(ledger), RowsOf(Append(k, ledger, event, ds), event))
            <==> NoEmptyHash(RowsOf(Append(k, ledger, event, ds), event))
  {
    hide Append, ChainHolds, Head, NoEmptyHash;
    RowsOfAppend(k, ledger, event, ds);
    AppendedChainIff(k, ledger, event, ds);
    var new' := Append(k, ledger, event, ds)[|ledger|..];
    assert [] + new' == new';
  }

  /** The check notices any single row whose link was changed: its previous hash, or its own
      hash if another row follows or it is empty. */
  lemma ChainCheckDetects(first: Option<string>, rows: seq<LedgerRow>, i: nat, changed: LedgerRow)
    requires ChainHolds(first, rows) && i < |rows|
    ensures ChainHolds(first, rows[i := changed]) <==>
              && changed.prev == rows[i].prev
              && (i + 1 < |rows| ==> changed.hash == rows[i].hash)
              && changed.hash.Some? && changed.hash.value != ""
  {
    var now := rows[i := changed];
    assert Continues(first, rows, i);
    assert i + 1 < |rows| ==> Continues(first, rows, i + 1);
    if ChainHolds(first, now) {
      assert Continues(first, now, i);
      assert i + 1 < |rows| ==> Continues(first, now, i + 1);
    } else {
      var j :| 0 <= j < |now| && !Continues(first, now, j);
      assert Continues(first, rows, j);
    }
  }

  // ----- the outcome of an accepted event

  ghost predicate Healthy(db: Db) {
    NonNegative(db.balances) && forall x :: AgreesAt(db, x)
  }

  /** What a settlement leaves when it commits. */
  function Settled(h: Hashes, db: Db, row: EventRow, m: MarketRow, a: Amounts, orders: map<nat, OrderRow>): Db {
    var p := row.payload;
    Db(db.markets, Append(h.codec, db.ledger, row.id, Deltas(p, m, a, false)),
       ApplyUpdates(db.balances, Updates(db, p, m, a)), orders, db.trades + [TradeOf(p, m, a)])
  }

  /** In a healthy database an accepted, unhashed event fails only if an order row cannot
      take the fill; otherwise it commits and the database stays healthy.  A market of an
      asset against itself settles nothing but empty fills. */
  lemma PostOutcome(h: Hashes, db: Db, row: EventRow, m: MarketRow, a: Amounts)
    requires Ready(db, row.payload, m, a) && Healthy(db) && NeverEmpty(h.codec)
    requires RowsOf(db.ledger, row.id) == [] && row.hash == None
    ensures var orders := FillOrders(db.orders, row.payload.takerOrder, row.payload.makerOrder, a.qty);
            if m.base == m.quote && a.qty != 0 then Post(h, db, row, m, a) == Err(GlobalLedgerInvariantViolation)
            else
              match orders
              case None => Post(h, db, row, m, a) == Err(OrderInvariantViolation)
              case Some(o) =>
                && Post(h, db, row, m, a)
                   == Ok((Settled(h, db, row, m, a, o), FirstHash(h, row.payload, a, Deltas(row.payload, m, a, false))))
                && Healthy(Settled(h, db, row, m, a, o))
  {
    var ds, us := Deltas(row.payload, m, a, false), Updates(db, row.payload, m, a);
    ChainCheckPasses(h.codec, db.ledger, row.id, ds);
    SettleKeepsNonNegative(db, row.payload, m, a);
    LedgerCheckIff(h, db, row, m, a);
    if m.base == m.quote && a.qty != 0 {
      OverwritesTaker(row.payload, m, a);
      assert AgreesAt(db, (ds[0].user, ds[0].asset));
      assert !AgreesButFor(db, row.payload, m, a, (ds[0].user, ds[0].asset));
    } else {
      forall x ensures LedgerSum(Append(h.codec, db.ledger, row.id, ds), x) == Total(ApplyUpdates(db.balances, us), x) {
        assert AgreesAt(db, x);
        LedgerSumAppend(h.codec, db.ledger, row.id, ds, x);
        BalancesFollowDeltas(db, row.payload, m, a, x);
      }
    }
    hide Ready, Append, ApplyUpdates, LedgerSum, Total, Deltas, Updates, ChainHolds, RowsOf, FillOrders, AnyNegative, AgreesButFor, Overwritten;
  }

  /** The trade row says what the ledger rows say: the two base lines are its quantity, and
      each quote line is its value with that side's fee. */
  lemma TradeMatchesLedger(db: Db, p: Payload, m: MarketRow, a: Amounts)
    requires Ready(db, p, m, a)
    ensures var t, ds := TradeOf(p, m, a), Deltas(p, m, a, false);
            var sign := if p.takerSide == Buy then 1 else -1;
            && ds[0] == Delta(t.takerUser, m.base, sign * t.qty) && ds[2] == Delta(t.makerUser, m.base, -sign * t.qty)
            && ds[1] == Delta(t.takerUser, m.quote, -sign * t.quoteQty - t.takerFee)
            && ds[3] == Delta(t.makerUser, m.quote, sign * t.quoteQty - t.makerFee)
  {
    AcceptedAmounts(db, p, m, a);
    hide RoundDown, AmountsOf, Refusal;
  }

  // ----- supply

  function Held(balances: map<Account, Balance>, x: Account, asset: string): int {
    if x.1 == asset then Total(balances, x) else 0
  }

  /** All of an asset held in a set of accounts. */
  ghost function SupplyIn(accounts: set<Account>, balances: map<Account, Balance>, asset: string): int {
    if accounts == {} then 0
    else
      var x :| x in accounts;
      Held(balances, x, asset) + SupplyIn(accounts - {x}, balances, asset)
  }

  /** The same sum, whichever account is taken out first. */
  lemma {:induction false} SupplyWithout(accounts: set<Account>, balances: map<Account, Balance>, asset: string, x: Account)
    requires x in accounts
    ensures SupplyIn(accounts, balances, asset) == Held(balances, x, asset) + SupplyIn(accounts - {x}, balances, asset)
    decreases |accounts|
  {
    hide Held;
    var y :| y in accounts && SupplyIn(accounts, balances, asset)
                              == Held(balances, y, asset) + SupplyIn(accounts - {y}, balances, asset);
    if y != x {
      SupplyWithout(accounts - {y}, balances, asset, x);
      SupplyWithout(accounts - {x}, balances, asset, y);
      assert accounts - {y} - {x} == accounts - {x} - {y};
    }
  }

  lemma {:induction false} SupplyElsewhere(accounts: set<Account>, b: map<Account, Balance>, b': map<Account, Balance>, asset: string)
    requires forall x :: x in accounts && x.1 == asset ==> Total(b, x) == Total(b', x)
    ensures SupplyIn(accounts, b, asset) == SupplyIn(accounts, b', asset)
    decreases |accounts|
  {
    if accounts != {} {
      var x :| x in accounts;
      SupplyWithout(accounts, b, asset, x);
      SupplyWithout(accounts, b', asset, x);
      SupplyElsewhere(accounts - {x}, b, b', asset);
    }
  }

  /** Two users' accounts of one asset change; every other account of any asset does not. */
  lemma SupplyOfTwo(accounts: set<Account>, b: map<Account, Balance>, b': map<Account, Balance>, asset: string, x: Account, y: Account)
    requires x in accounts && y in accounts && x != y
    requires forall z :: z in accounts && z != x && z != y && z.1 == asset ==> Total(b, z) == Total(b', z)
    ensures SupplyIn(accounts, b', asset) - SupplyIn(accounts, b, asset)
            == (Held(b', x, asset) - Held(b, x, asset)) + (Held(b', y, asset) - Held(b, y, asset))
  {
    SupplyWithout(accounts, b, asset, x);
    SupplyWithout(accounts, b', asset, x);
    SupplyWithout(accounts - {x}, b, asset, y);
    SupplyWithout(accounts - {x}, b', asset, y);
    SupplyElsewhere(accounts - {x} - {y}, b, b', asset);
  }

  /** What an event moves on an account. */
  function Moved(p: Payload, m: MarketRow, a: Amounts, x: Account): int {
    SumDeltas(Deltas(p, m, a, false), x) - Overwritten(p, m, a, x)
  }

  lemma MovedElsewhere(p: Payload, m: MarketRow, a: Amounts, x: Account)
    requires (x.0 != p.takerUser && x.0 != p.makerUser) || (x.1 != m.base && x.1 != m.quote)
    ensures Moved(p, m, a, x) == 0
  {
    SumOfFour(Deltas(p, m, a, false), x);
    hide SumDeltas, RoundDown;
  }

  /** Both users' base lines cancel. */
  lemma MovedBase(p: Payload, m: MarketRow, a: Amounts)
    requires p.takerUser != p.makerUser && m.base != m.quote
    ensures Moved(p, m, a, (p.takerUser, m.base)) + Moved(p, m, a, (p.makerUser, m.base)) == 0
  {
    SumOfFour(Deltas(p, m, a, false), (p.takerUser, m.base));
    SumOfFour(Deltas(p, m, a, false), (p.makerUser, m.base));
    hide SumDeltas, RoundDown;
  }

  /** The quote lines fall short of each other by the fees. */
  lemma MovedQuote(db: Db, p: Payload, m: MarketRow, a: Amounts)
    requires Ready(db, p, m, a)
    ensures Moved(p, m, a, (p.takerUser, m.quote)) + Moved(p, m, a, (p.makerUser, m.quote)) == -(a.takerFee + a.makerFee)
  {
    AcceptedAmounts(db, p, m, a);
    SumOfFour(Deltas(p, m, a, false), (p.takerUser, m.quote));
    SumOfFour(Deltas(p, m, a, false), (p.makerUser, m.quote));
    hide SumDeltas, RoundDown, AmountsOf, Refusal, Ready;
  }

  /** Settlement conserves the base asset, takes exactly the two fees out of the quote asset,
      and moves nothing of any other asset; where base and quote are one asset, it loses the
      fees. */
  lemma SettleConserves(db: Db, p: Payload, m: MarketRow, a: Amounts, accounts: set<Account>, asset: string)
    requires Ready(db, p, m, a)
    requires {(p.takerUser, m.base), (p.takerUser, m.quote), (p.makerUser, m.base), (p.makerUser, m.quote)} <= accounts
    ensures SupplyIn(accounts, ApplyUpdates(db.balances, Updates(db, p, m, a)), asset) - SupplyIn(accounts, db.balances, asset)
            == if asset == m.quote then -(a.takerFee + a.makerFee) else 0
  {
    var b, b' := db.balances, ApplyUpdates(db.balances, Updates(db, p, m, a));
    assert p.takerUser != p.makerUser by {
      AcceptedAmounts(db, p, m, a);
    }
    forall x ensures Total(b', x) == Total(b, x) + Moved(p, m, a, x)
      ensures (x.0 != p.takerUser && x.0 != p.makerUser) || (x.1 != m.base && x.1 != m.quote) ==> Moved(p, m, a, x) == 0
    {
      BalancesFollowDeltas(db, p, m, a, x);
      if (x.0 != p.takerUser && x.0 != p.makerUser) || (x.1 != m.base && x.1 != m.quote) {
        MovedElsewhere(p, m, a, x);
      }
    }
    MovedQuote(db, p, m, a);
    if m.base != m.quote {
      MovedBase(p, m, a);
    }
    hide Moved, ApplyUpdates, Updates, Total, Deltas, Ready;
    if asset == m.base || asset == m.quote {
      SupplyOfTwo(accounts, b, b', asset, (p.takerUser, asset), (p.makerUser, asset));
    } else {
      SupplyElsewhere(accounts, b, b', asset);
    }
  }
}
