/** Decimal rounding as settlement does it: always toward zero, on a market's grid.

    An amount is a whole number of `1/SCALE`; a grid with `unit` keeps the amounts that
    are multiples of `unit`. */
module Rounding {
  import opened Types
  import opened Matching

  const SCALE: nat := 1_000_000_000_000_000_000

  /** Integer division toward zero. */
  function Truncate(n: int, d: int): int
    requires d > 0
  {
    if n >= 0 then n / d else -((-n) / d)
  }

  function RoundDown(x: int, unit: int): int
    requires unit > 0
  {
    Truncate(x, unit) * unit
  }

  /** `price * qty`, rounded down to the quote grid. */
  function TradeValue(price: int, qty: int, unit: int): int
    requires unit > 0
  {
    Truncate(price * qty, SCALE * unit) * unit
  }

  /** A fee of one part in `parts` of an amount, rounded down to the quote grid. */
  function FeeOf(value: int, parts: int, unit: int): int
    requires unit > 0 && parts > 0
  {
    Truncate(value, parts * unit) * unit
  }

  predicate OnGrid(x: int, unit: int)
    requires unit > 0
  {
    x % unit == 0
  }

  lemma SmallMultiple(k: int, unit: int)
    requires unit > 0 && -unit < k * unit < unit
    ensures k == 0
  {
  }

  lemma MultipleIsOnGrid(k: int, unit: int)
    requires unit > 0
    ensures OnGrid(k * unit, unit)
  {
    var x := k * unit;
    var d, r := x / unit, x % unit;
    assert x == d * unit + r;
    assert (k - d) * unit == r;
    SmallMultiple(k - d, unit);
  }

  /** Rounding moves an amount toward zero by less than one unit, onto the grid. */
  lemma RoundDownBounds(x: int, unit: int)
    requires unit > 0
    ensures OnGrid(RoundDown(x, unit), unit)
    ensures x >= 0 ==> 0 <= x - RoundDown(x, unit) < unit
    ensures x <= 0 ==> 0 <= RoundDown(x, unit) - x < unit
  {
    MultipleIsOnGrid(Truncate(x, unit), unit);
  }

  /** Rounding is the identity exactly on the grid. */
  lemma RoundDownIdentity(x: int, unit: int)
    requires unit > 0
    ensures RoundDown(x, unit) == x <==> OnGrid(x, unit)
  {
    RoundDownBounds(x, unit);
    if OnGrid(x, unit) {
      var k := x / unit;
      assert x == k * unit;
      var j := Truncate(x, unit);
      assert -unit < (k - j) * unit < unit;
      SmallMultiple(k - j, unit);
    }
  }

  lemma GridMultiple(x: int, unit: int) returns (k: int)
    requires unit > 0 && OnGrid(x, unit)
    ensures x == k * unit
  {
    k := x / unit;
  }

  lemma GridSum(x: int, y: int, unit: int)
    requires unit > 0 && OnGrid(x, unit) && OnGrid(y, unit)
    ensures OnGrid(x + y, unit)
  {
    var a := GridMultiple(x, unit);
    var b := GridMultiple(y, unit);
    hide OnGrid;
    assert (a + b) * unit == x + y;
    MultipleIsOnGrid(a + b, unit);
  }

  lemma GridNegation(x: int, unit: int)
    requires unit > 0 && OnGrid(x, unit)
    ensures OnGrid(-x, unit)
  {
    var a := GridMultiple(x, unit);
    hide OnGrid;
    assert (-a) * unit == -x;
    MultipleIsOnGrid(-a, unit);
  }

  /** What a trade is worth, and its fees, lie on the quote grid; so taking a fee off a
      value and rounding again changes nothing. */
  lemma NetCreditIsExact(price: int, qty: int, parts: int, unit: int)
    requires unit > 0 && parts > 0
    ensures var value := TradeValue(price, qty, unit);
            var fee := FeeOf(value, parts, unit);
            && OnGrid(value, unit) && OnGrid(fee, unit)
            && RoundDown(value - fee, unit) == value - fee
            && RoundDown(value + fee, unit) == value + fee
  {
    var value := TradeValue(price, qty, unit);
    var fee := FeeOf(value, parts, unit);
    MultipleIsOnGrid(Truncate(price * qty, SCALE * unit), unit);
    MultipleIsOnGrid(Truncate(value, parts * unit), unit);
    GridSum(value, fee, unit);
    GridNegation(fee, unit);
    GridSum(value, -fee, unit);
    RoundDownIdentity(value - fee, unit);
    RoundDownIdentity(value + fee, unit);
  }

  lemma DivideBounds(n: int, d: int)
    requires n >= 0 && d > 0
    ensures n / d >= 0 && (n / d) * d <= n < (n / d) * d + d
  {
  }

  // ----- rounding, said without the division

  /** `r` is `num / den` rounded toward zero to a multiple of `unit`. */
  ghost predicate Rounded(num: int, den: int, unit: int, r: int)
    requires den > 0 && unit > 0
  {
    && OnGrid(r, unit)
    && (num >= 0 ==> 0 <= r && r * den <= num < (r + unit) * den)
    && (num < 0 ==> r <= 0 && (r - unit) * den < num <= r * den)
  }

  lemma Cancels(a: int, b: int, den: int)
    requires den > 0 && a * den < b * den
    ensures a < b
  {
  }

  lemma RoundedIsUnique(num: int, den: int, unit: int, r: int, r': int)
    requires den > 0 && unit > 0 && Rounded(num, den, unit, r) && Rounded(num, den, unit, r')
    ensures r == r'
  {
    var j := GridMultiple(r, unit);
    var k := GridMultiple(r', unit);
    if num >= 0 {
      Cancels(r, r' + unit, den);
      Cancels(r', r + unit, den);
    } else {
      Cancels(r - unit, r', den);
      Cancels(r' - unit, r, den);
    }
    hide OnGrid;
    assert (j - k) * unit == r - r';
    SmallMultiple(j - k, unit);
  }

  lemma Regrouped(k: int, den: int, unit: int)
    ensures k * (den * unit) == (k * unit) * den && (k + 1) * (den * unit) == (k * unit + unit) * den
  {
  }

  lemma TruncatedIsRounded(num: int, den: int, unit: int)
    requires den > 0 && unit > 0
    ensures Rounded(num, den, unit, Truncate(num, den * unit) * unit)
  {
    var d := den * unit;
    var k := Truncate(num, d);
    MultipleIsOnGrid(k, unit);
    hide OnGrid;
    if num >= 0 {
      DivideBounds(num, d);
      Regrouped(k, den, unit);
    } else {
      DivideBounds(-num, d);
      Regrouped(-k, den, unit);
    }
  }

  /** Quantities, trade values and fees are the exact quotients rounded toward zero. */
  lemma AmountsAreRounded(price: int, qty: int, parts: int, unit: int)
    requires unit > 0 && parts > 0
    ensures Rounded(qty, 1, unit, RoundDown(qty, unit))
    ensures Rounded(price * qty, SCALE, unit, TradeValue(price, qty, unit))
    ensures Rounded(qty, parts, unit, FeeOf(qty, parts, unit))
  {
    TruncatedIsRounded(qty, 1, unit);
    TruncatedIsRounded(price * qty, SCALE, unit);
    TruncatedIsRounded(qty, parts, unit);
    hide Truncate, Rounded;
  }

  /** A non-negative trade is worth no more than its exact value, and less than one quote
      unit less. */
  lemma TradeValueBounds(price: int, qty: int, unit: int)
    requires unit > 0 && price >= 0 && qty >= 0
    ensures var value := TradeValue(price, qty, unit);
            0 <= value && value * SCALE <= price * qty < value * SCALE + SCALE * unit
  {
    var exact, d := price * qty, SCALE * unit;
    assert exact >= 0;
    DivideBounds(exact, d);
    var k := exact / d;
    assert k * d == (k * unit) * SCALE;
  }

  /** A fee of one part in `parts` is never negative, and `parts` of it never exceed the value. */
  lemma FeeBounds(value: int, parts: int, unit: int)
    requires unit > 0 && parts > 0 && value >= 0
    ensures 0 <= FeeOf(value, parts, unit) && FeeOf(value, parts, unit) * parts <= value
  {
    var d := parts * unit;
    DivideBounds(value, d);
    var k := value / d;
    assert k * d == (k * unit) * parts;
  }

  // ----- a run of fills

  function TotalValue(es: seq<MatchEvent>, unit: int): int
    requires unit > 0
  {
    if es == [] then 0 else TradeValue(es[0].price, es[0].quantity, unit) + TotalValue(es[1..], unit)
  }

  /** The exact worth of the fills, in `1/SCALE` squared. */
  function ExactValue(es: seq<MatchEvent>): int {
    if es == [] then 0 else es[0].price * es[0].quantity + ExactValue(es[1..])
  }

  /** A negative trade is worth no less than its exact value, and nothing or less. */
  lemma NegativeValue(price: int, qty: int, unit: int)
    requires unit > 0 && price < 0 && qty >= 0
    ensures var value := TradeValue(price, qty, unit); value <= 0 && price * qty <= value * SCALE
  {
    var exact, d := price * qty, SCALE * unit;
    assert exact <= 0;
    DivideBounds(-exact, d);
    var k := (-exact) / d;
    assert k * d == (k * unit) * SCALE;
  }

  /** Rounding never takes a fill above the limit, nor a quote unit below its exact value. */
  lemma ValueWithinLimit(price: int, qty: int, unit: int, limit: int)
    requires unit > 0 && price <= limit && limit >= 0 && qty >= 0
    ensures var value := TradeValue(price, qty, unit);
            value * SCALE <= limit * qty && price * qty - value * SCALE < SCALE * unit
  {
    assert 0 <= limit * qty && price * qty <= limit * qty;
    if price >= 0 {
      TradeValueBounds(price, qty, unit);
    } else {
      NegativeValue(price, qty, unit);
    }
  }

  lemma {:induction false} TotalBelowLimit(es: seq<MatchEvent>, unit: int, limit: int)
    requires unit > 0 && limit >= 0 && forall e :: e in es ==> e.price <= limit && e.quantity >= 0
    ensures TotalValue(es, unit) * SCALE <= limit * TotalQuantity(es)
  {
    if es != [] {
      assert es[0] in es;
      ValueWithinLimit(es[0].price, es[0].quantity, unit, limit);
      hide TradeValue;
      TotalBelowLimit(es[1..], unit, limit);
      Distribute(limit, es[0].quantity, TotalQuantity(es[1..]));
    }
  }

  lemma Distribute(k: int, a: int, b: int)
    ensures k * (a + b) == k * a + k * b
  {
  }

  lemma StepAdds(e: int, v: int, es: int, vs: int, n: nat, step: int)
    requires e - v * SCALE < step && es <= vs * SCALE + n * step
    ensures e + es < (v + vs) * SCALE + (n + 1) * step
  {
    Distribute(step, n, 1);
  }

  /** `n` fills lose at most `n` steps in all. */
  lemma {:induction false} TotalNearExact(es: seq<MatchEvent>, unit: int, limit: int, step: int)
    requires unit > 0 && limit >= 0 && step == SCALE * unit && forall e :: e in es ==> e.price <= limit && e.quantity >= 0
    ensures ExactValue(es) <= TotalValue(es, unit) * SCALE + |es| * step
    ensures es != [] ==> ExactValue(es) < TotalValue(es, unit) * SCALE + |es| * step
  {
    if es != [] {
      assert es[0] in es;
      var exact, value := es[0].price * es[0].quantity, TradeValue(es[0].price, es[0].quantity, unit);
      ValueWithinLimit(es[0].price, es[0].quantity, unit, limit);
      TotalNearExact(es[1..], unit, limit, step);
      assert ExactValue(es) == exact + ExactValue(es[1..]) && TotalValue(es, unit) == value + TotalValue(es[1..], unit);
      hide TradeValue, ExactValue, TotalValue;
      StepAdds(exact, value, ExactValue(es[1..]), TotalValue(es[1..], unit), |es| - 1, step);
    }
  }

  lemma TotalWithinLimit(es: seq<MatchEvent>, unit: int, limit: int)
    requires unit > 0 && limit >= 0 && forall e :: e in es ==> e.price <= limit && e.quantity >= 0
    ensures TotalValue(es, unit) * SCALE <= limit * TotalQuantity(es)
    ensures ExactValue(es) - TotalValue(es, unit) * SCALE <= |es| * (SCALE * unit)
    ensures es != [] ==> ExactValue(es) - TotalValue(es, unit) * SCALE < |es| * (SCALE * unit)
  {
    hide TotalValue, ExactValue, TotalQuantity;
    TotalBelowLimit(es, unit, limit);
    TotalNearExact(es, unit, limit, SCALE * unit);
  }

  /** Over all the fills of a limit buy, at whatever prices, the rounded values add up to no
      more than the limit price times what was filled, and to less than one quote unit per
      fill below the exact total. */
  lemma LimitBuyRounding(market: string, taker: Order, makers: seq<Order>, unit: int)
    requires taker.side == Buy && taker.price.Some? && AllPositive(makers) && unit > 0 && taker.price.value >= 0
    ensures var r := Sweep(market, taker, makers);
            var filled := taker.remaining - r.taker.remaining;
            && TotalValue(r.events, unit) * SCALE <= taker.price.value * filled
            && ExactValue(r.events) - TotalValue(r.events, unit) * SCALE <= |r.events| * (SCALE * unit)
            && (r.events != [] ==> ExactValue(r.events) - TotalValue(r.events, unit) * SCALE < |r.events| * (SCALE * unit))
  {
    var es := Sweep(market, taker, makers).events;
    SweepConserves(market, taker, makers);
    LimitBuyEvents(market, taker, makers);
    hide Sweep, TotalQuantity, ExactValue, TotalValue;
    TotalWithinLimit(es, unit, taker.price.value);
  }

  lemma LimitBuyEvents(market: string, taker: Order, makers: seq<Order>)
    requires taker.side == Buy && taker.price.Some? && AllPositive(makers)
    ensures forall e :: e in Sweep(market, taker, makers).events ==> e.price <= taker.price.value && e.quantity >= 0
  {
    var es := Sweep(market, taker, makers).events;
    GreedyPriority(market, taker, makers);
    SweepWithinLimit(market, taker, makers);
    hide Sweep, Crosses, EligibleMakers, Consume, Bystanders, TotalQuantity, TotalRemaining;
    forall e | e in es ensures e.price <= taker.price.value && e.quantity >= 0 {
      var i :| 0 <= i < |es| && es[i] == e;
    }
  }
}
