/** Closing the gaps between trading balances and the balance ledger: the reconcile and the
    opening-balance backfill scripts.  Amounts are integers of 10^-18. */
module BalanceLedger {

  datatype Kind = Available | Locked

  datatype Bucket = Bucket(user: nat, currency: nat, kind: Kind)

  datatype Origin = Opening | Adjustment | Other

  /** `trading` says whether the description marks the posting as a trading one.  An opening
      row's reference id is determined by its bucket. */
  datatype Posting = Posting(bucket: Bucket, origin: Origin, trading: bool, debit: int, credit: int, before: int, after: int)

  /** A trading row of the balance table. */
  datatype TradingRow = TradingRow(user: nat, currency: nat, available: int, locked: int)

  /** What one bucket ought to hold. */
  datatype Claim = Claim(bucket: Bucket, balance: int)

  function ClaimsOf(row: TradingRow): seq<Claim> {
    [Claim(Bucket(row.user, row.currency, Available), row.available), Claim(Bucket(row.user, row.currency, Locked), row.locked)]
  }

  function Claims(rows: seq<TradingRow>): seq<Claim> {
    if rows == [] then [] else Claims(rows[..|rows| - 1]) + ClaimsOf(rows[|rows| - 1])
  }

  /** Credits less debits of a bucket's trading postings. */
  function Net(ledger: seq<Posting>, b: Bucket): int {
    if ledger == [] then 0
    else
      var p := ledger[|ledger| - 1];
      Net(ledger[..|ledger| - 1], b) + if p.trading && p.bucket == b then p.credit - p.debit else 0
  }

  lemma NetSnoc(ledger: seq<Posting>, p: Posting, b: Bucket)
    ensures Net(ledger + [p], b) == Net(ledger, b) + if p.trading && p.bucket == b then p.credit - p.debit else 0
  {
    assert (ledger + [p])[..|ledger|] == ledger;
  }

  predicate Met(ledger: seq<Posting>, c: Claim) {
    Net(ledger, c.bucket) == c.balance
  }

  predicate AllMet(ledger: seq<Posting>, claims: seq<Claim>) {
    forall c :: c in claims ==> Met(ledger, c)
  }

  predicate RowMet(ledger: seq<Posting>, row: TradingRow) {
    Met(ledger, ClaimsOf(row)[0]) && Met(ledger, ClaimsOf(row)[1])
  }

  /** One posting for each bucket; no two rows of the balance table share an account. */
  ghost predicate Distinct(claims: seq<Claim>) {
    forall i, j :: 0 <= i < j < |claims| ==> claims[i].bucket != claims[j].bucket
  }

  // ----- reconcile

  /** The adjustment that brings a bucket from its sum before the script to its balance. */
  function Adjust(ledger: seq<Posting>, sum: int, c: Claim): seq<Posting> {
    var delta := c.balance - sum;
    if delta == 0 then ledger
    else ledger + [Posting(c.bucket, Adjustment, true, if delta < 0 then -delta else 0, if delta > 0 then delta else 0, sum, sum + delta)]
  }

  function Adjusted(ledger: seq<Posting>, claims: seq<Claim>): seq<Posting> {
    if claims == [] then ledger
    else
      var c := claims[|claims| - 1];
      Adjust(Adjusted(ledger, claims[..|claims| - 1]), Net(ledger, c.bucket), c)
  }

  /** The gaps of all rows that speak for a bucket. */
  ghost function Gap(claims: seq<Claim>, sum: int, b: Bucket): int {
    if claims == [] then 0
    else
      var c := claims[|claims| - 1];
      Gap(claims[..|claims| - 1], sum, b) + if c.bucket == b then c.balance - sum else 0
  }

  ghost function Count(claims: seq<Claim>, b: Bucket): nat {
    if claims == [] then 0 else Count(claims[..|claims| - 1], b) + if claims[|claims| - 1].bucket == b then 1 else 0
  }

  lemma {:induction false} AdjustedNet(ledger: seq<Posting>, claims: seq<Claim>, b: Bucket)
    ensures Net(Adjusted(ledger, claims), b) == Net(ledger, b) + Gap(claims, Net(ledger, b), b)
  {
    if claims != [] {
      var c, before := claims[|claims| - 1], claims[..|claims| - 1];
      AdjustedNet(ledger, before, b);
      var sum, l := Net(ledger, c.bucket), Adjusted(ledger, before);
      hide Net, Adjusted;
      assert Adjusted(ledger, claims) == Adjust(l, sum, c) by {
        AdjustedStep(ledger, claims);
      }
      AdjustNet(l, sum, c, b);
    }
  }

  lemma AdjustedStep(ledger: seq<Posting>, claims: seq<Claim>)
    requires claims != []
    ensures Adjusted(ledger, claims)
            == Adjust(Adjusted(ledger, claims[..|claims| - 1]), Net(ledger, claims[|claims| - 1].bucket), claims[|claims| - 1])
  {
  }

  lemma AdjustNet(ledger: seq<Posting>, sum: int, c: Claim, b: Bucket)
    ensures Net(Adjust(ledger, sum, c), b) == Net(ledger, b) + if c.bucket == b then c.balance - sum else 0
  {
    hide Net;
    var delta := c.balance - sum;
    NetSnoc(ledger, Posting(c.bucket, Adjustment, true, if delta < 0 then -delta else 0, if delta > 0 then delta else 0, sum, sum + delta), b);
  }

  /** All rows that speak for a bucket say the same. */
  ghost predicate Unanimous(claims: seq<Claim>, b: Bucket, v: int) {
    forall c :: c in claims && c.bucket == b ==> c.balance == v
  }

  lemma {:induction false} GapOfUnanimous(claims: seq<Claim>, sum: int, b: Bucket, v: int)
    requires Unanimous(claims, b, v)
    ensures Gap(claims, sum, b) == Count(claims, b) * (v - sum)
  {
    if claims != [] {
      var n := |claims| - 1;
      assert claims == claims[..n] + [claims[n]];
      GapOfUnanimous(claims[..n], sum, b, v);
    }
  }

  lemma {:induction false} CountAtLeast(claims: seq<Claim>, i: nat)
    requires i < |claims|
    ensures Count(claims, claims[i].bucket) >= 1
    ensures forall j :: 0 <= j < i && claims[j].bucket == claims[i].bucket ==> Count(claims, claims[i].bucket) >= 2
  {
    var n := |claims| - 1;
    var b := claims[i].bucket;
    if i < n {
      CountAtLeast(claims[..n], i);
    } else if j :| 0 <= j < i && claims[j].bucket == b {
      CountAtLeast(claims[..n], j);
    }
  }

  lemma {:induction false} Counted(claims: seq<Claim>, b: Bucket) returns (i: nat)
    requires Count(claims, b) >= 1
    ensures i < |claims| && claims[i].bucket == b
  {
    var n := |claims| - 1;
    if claims[n].bucket == b {
      i := n;
    } else {
      i := Counted(claims[..n], b);
    }
  }

  lemma {:induction false} CountedTwice(claims: seq<Claim>, b: Bucket) returns (i: nat, j: nat)
    requires Count(claims, b) >= 2
    ensures i < j < |claims| && claims[i].bucket == claims[j].bucket == b
  {
    var n := |claims| - 1;
    if claims[n].bucket == b {
      i := Counted(claims[..n], b);
      j := n;
    } else {
      i, j := CountedTwice(claims[..n], b);
    }
  }

  lemma ScaledByOne(n: nat, d: int)
    requires n == 1 || d == 0
    ensures n * d == d
  {
  }

  lemma FixedByScaling(n: nat, d: int)
    requires n >= 2 && n * d == d
    ensures d == 0
  {
    assert (n - 1) * d == 0;
  }

  /** Where several rows speak for one bucket, the ledger already agrees with each. */
  ghost predicate DuplicatesMet(ledger: seq<Posting>, claims: seq<Claim>) {
    forall i, j :: 0 <= i < j < |claims| && claims[i].bucket == claims[j].bucket ==> Met(ledger, claims[i]) && Met(ledger, claims[j])
  }

  lemma DuplicatesUnanimous(ledger: seq<Posting>, claims: seq<Claim>, i: nat)
    requires DuplicatesMet(ledger, claims) && i < |claims|
    ensures Unanimous(claims, claims[i].bucket, claims[i].balance)
  {
    forall c | c in claims && c.bucket == claims[i].bucket ensures c.balance == claims[i].balance {
      var j :| 0 <= j < |claims| && claims[j] == c;
      if i < j {
        assert Met(ledger, claims[i]) && Met(ledger, claims[j]);
      } else if j < i {
        assert Met(ledger, claims[j]) && Met(ledger, claims[i]);
      }
    }
  }

  lemma ClaimMetAfter(ledger: seq<Posting>, claims: seq<Claim>, i: nat)
    requires DuplicatesMet(ledger, claims) && i < |claims|
    ensures Met(Adjusted(ledger, claims), claims[i])
  {
    var b, v := claims[i].bucket, claims[i].balance;
    DuplicatesUnanimous(ledger, claims, i);
    AdjustedNet(ledger, claims, b);
    GapOfUnanimous(claims, Net(ledger, b), b, v);
    CountAtLeast(claims, i);
    hide Unanimous, Gap, Count, Net, Adjusted;
    if Count(claims, b) >= 2 {
      var j, k := CountedTwice(claims, b);
      assert Met(ledger, claims[j]) && claims[j] in claims;
      SpeaksFor(claims, b, v, claims[j]);
    }
    ScaledByOne(Count(claims, b), v - Net(ledger, b));
  }

  lemma SpeaksFor(claims: seq<Claim>, b: Bucket, v: int, c: Claim)
    requires Unanimous(claims, b, v) && c in claims && c.bucket == b
    ensures c.balance == v
  {
  }

  /** Reconcile's own check passes exactly when every account that has several balance rows
      already agrees with the ledger; in particular always when accounts are distinct. */
  lemma ReconcileCommits(ledger: seq<Posting>, claims: seq<Claim>)
    ensures AllMet(Adjusted(ledger, claims), claims) <==> DuplicatesMet(ledger, claims)
    ensures Distinct(claims) ==> AllMet(Adjusted(ledger, claims), claims)
  {
    if DuplicatesMet(ledger, claims) {
      forall c | c in claims ensures Met(Adjusted(ledger, claims), c) {
        var i :| 0 <= i < |claims| && claims[i] == c;
        ClaimMetAfter(ledger, claims, i);
      }
    }
    if AllMet(Adjusted(ledger, claims), claims) {
      forall i, j | 0 <= i < j < |claims| && claims[i].bucket == claims[j].bucket
        ensures Met(ledger, claims[i]) && Met(ledger, claims[j])
      {
        SharedBucket(ledger, claims, i, j);
      }
    }
  }

  lemma SharedBucket(ledger: seq<Posting>, claims: seq<Claim>, i: nat, j: nat)
    requires AllMet(Adjusted(ledger, claims), claims) && i < j < |claims| && claims[i].bucket == claims[j].bucket
    ensures Met(ledger, claims[i]) && Met(ledger, claims[j])
  {
    var b := claims[i].bucket;
    var v := Net(Adjusted(ledger, claims), b);
    assert claims[i] in claims && claims[j] in claims;
    assert Met(Adjusted(ledger, claims), claims[i]) && Met(Adjusted(ledger, claims), claims[j]);
    assert Unanimous(claims, b, v);
    AdjustedNet(ledger, claims, b);
    GapOfUnanimous(claims, Net(ledger, b), b, v);
    CountAtLeast(claims, j);
    hide Gap, Count, Net, Adjusted, Unanimous, AllMet;
    FixedByScaling(Count(claims, b), v - Net(ledger, b));
  }

  lemma {:induction false} NothingToAdjust(ledger: seq<Posting>, claims: seq<Claim>)
    requires AllMet(ledger, claims)
    ensures Adjusted(ledger, claims) == ledger
  {
    if claims != [] {
      var n := |claims| - 1;
      assert claims == claims[..n] + [claims[n]];
      NothingToAdjust(ledger, claims[..n]);
      assert Met(ledger, claims[n]);
    }
  }

  /** A second run changes nothing once the first has committed. */
  lemma ReconcileTwice(ledger: seq<Posting>, claims: seq<Claim>)
    requires DuplicatesMet(ledger, claims)
    ensures Adjusted(Adjusted(ledger, claims), claims) == Adjusted(ledger, claims)
  {
    ReconcileCommits(ledger, claims);
    NothingToAdjust(Adjusted(ledger, claims), claims);
  }

  lemma ClaimsSnoc(rows: seq<TradingRow>, row: TradingRow)
    ensures Claims(rows + [row]) == Claims(rows) + ClaimsOf(row)
  {
    assert (rows + [row])[..|rows|] == rows;
  }

  lemma AdjustedPair(ledger: seq<Posting>, claims: seq<Claim>, c: Claim, d: Claim)
    ensures Adjusted(ledger, claims + [c, d])
            == Adjust(Adjust(Adjusted(ledger, claims), Net(ledger, c.bucket), c), Net(ledger, d.bucket), d)
  {
    var all, one := claims + [c, d], claims + [c];
    assert all[..|all| - 1] == one && one[..|one| - 1] == claims;
    AdjustedStep(ledger, all);
    AdjustedStep(ledger, one);
  }

  lemma RowNeedsNothing(ledger: seq<Posting>, claims: seq<Claim>, row: TradingRow)
    requires RowMet(ledger, row)
    ensures Adjusted(ledger, claims + ClaimsOf(row)) == Adjusted(ledger, claims)
  {
    AdjustedPair(ledger, claims, ClaimsOf(row)[0], ClaimsOf(row)[1]);
    hide Adjusted, Net;
  }

  lemma NothingFound(ledger: seq<Posting>)
    ensures AllMet(ledger, Claims([])) && Adjusted(ledger, Claims([])) == ledger
  {
  }

  method Mismatches(ledger: seq<Posting>, rows: seq<TradingRow>) returns (found: seq<TradingRow>)
    ensures found == [] <==> AllMet(ledger, Claims(rows))
    ensures Adjusted(ledger, Claims(found)) == Adjusted(ledger, Claims(rows))
  {
    hide Adjusted, Claims, Net, Met, RowMet;
    found := [];
    var i := 0;
    NothingFound(ledger);
    while i < |rows|
      invariant 0 <= i <= |rows|
      invariant found == [] <==> AllMet(ledger, Claims(rows[..i]))
      invariant Adjusted(ledger, Claims(found)) == Adjusted(ledger, Claims(rows[..i]))
    {
      var row := rows[i];
      assert rows[..i + 1] == rows[..i] + [row];
      ClaimsSnoc(rows[..i], row);
      ClaimsSnoc(found, row);
      AdjustedPair(ledger, Claims(rows[..i]), ClaimsOf(row)[0], ClaimsOf(row)[1]);
      AdjustedPair(ledger, Claims(found), ClaimsOf(row)[0], ClaimsOf(row)[1]);
      AllMetMore(ledger, Claims(rows[..i]), row);
      if !RowMet(ledger, row) {
        found := found + [row];
      } else {
        RowNeedsNothing(ledger, Claims(rows[..i]), row);
      }
      i := i + 1;
    }
    assert rows[..i] == rows;
  }

  lemma AllMetMore(ledger: seq<Posting>, claims: seq<Claim>, row: TradingRow)
    ensures AllMet(ledger, claims + ClaimsOf(row)) <==> AllMet(ledger, claims) && RowMet(ledger, row)
  {
    hide Met;
    var more := ClaimsOf(row);
    if AllMet(ledger, claims + more) {
      assert forall c :: c in claims ==> c in claims + more;
      assert more[0] in claims + more && more[1] in claims + more;
    }
  }

  /** The script: adjust every mismatched row, then count again and roll back unless nothing
      is left. */
  method ReconcileBalanceLedger(ledger: seq<Posting>, rows: seq<TradingRow>) returns (after: seq<Posting>, ok: bool)
    ensures ok <==> DuplicatesMet(ledger, Claims(rows))
    ensures after == if ok then Adjusted(ledger, Claims(rows)) else ledger
    ensures ok ==> AllMet(after, Claims(rows))
  {
    var mismatches := Mismatches(ledger, rows);
    after := ledger;
    var i := 0;
    while i < |mismatches|
      invariant 0 <= i <= |mismatches|
      invariant after == Adjusted(ledger, Claims(mismatches[..i]))
    {
      var row := mismatches[i];
      assert mismatches[..i + 1] == mismatches[..i] + [row];
      ClaimsSnoc(mismatches[..i], row);
      AdjustedPair(ledger, Claims(mismatches[..i]), ClaimsOf(row)[0], ClaimsOf(row)[1]);
      hide Adjusted, Claims, Net;
      after := Adjust(after, Net(ledger, ClaimsOf(row)[0].bucket), ClaimsOf(row)[0]);
      after := Adjust(after, Net(ledger, ClaimsOf(row)[1].bucket), ClaimsOf(row)[1]);
      i := i + 1;
    }
    assert mismatches[..i] == mismatches;
    ReconcileCommits(ledger, Claims(rows));
    var left := Mismatches(after, rows);
    ok := left == [];
    if !ok {
      after := ledger;
    }
  }

  // ----- what the reconcile script leaves, row by row

  /** The trading postings of both of a row's buckets add up to the row. */
  ghost predicate Agrees(ledger: seq<Posting>, row: TradingRow) {
    && Net(ledger, Bucket(row.user, row.currency, Available)) == row.available
    && Net(ledger, Bucket(row.user, row.currency, Locked)) == row.locked
  }

  lemma {:induction false} MetMeansAgrees(ledger: seq<Posting>, rows: seq<TradingRow>)
    ensures AllMet(ledger, Claims(rows)) <==> forall row :: row in rows ==> Agrees(ledger, row)
  {
    hide Net;
    if rows != [] {
      var n := |rows| - 1;
      assert rows == rows[..n] + [rows[n]];
      MetMeansAgrees(ledger, rows[..n]);
      AllMetMore(ledger, Claims(rows[..n]), rows[n]);
      assert RowMet(ledger, rows[n]) <==> Agrees(ledger, rows[n]);
      hide AllMet, Agrees, RowMet, ClaimsOf;
    }
  }

  /** An adjustment moves a bucket from its sum before the script to the balance of one of its
      rows, by a debit or by a credit, never by both or by nothing. */
  ghost predicate Proper(ledger: seq<Posting>, claims: seq<Claim>, p: Posting) {
    && p.origin == Adjustment && p.trading
    && p.debit >= 0 && p.credit >= 0 && (p.debit == 0 <==> p.credit != 0)
    && p.after == p.before + p.credit - p.debit
    && exists c :: c in claims && c.bucket == p.bucket && p.before == Net(ledger, c.bucket) && p.after == c.balance
  }

  lemma ProperMore(ledger: seq<Posting>, claims: seq<Claim>, p: Posting)
    requires claims != [] && Proper(ledger, claims[..|claims| - 1], p)
    ensures Proper(ledger, claims, p)
  {
    hide Net;
    var before := claims[..|claims| - 1];
    var c :| c in before && c.bucket == p.bucket && p.before == Net(ledger, c.bucket) && p.after == c.balance;
    assert c in claims;
  }

  lemma AdjustIsProper(l: seq<Posting>, ledger: seq<Posting>, claims: seq<Claim>, c: Claim)
    requires c in claims
    ensures var now := Adjust(l, Net(ledger, c.bucket), c);
            now == l || (now == l + [now[|l|]] && Proper(ledger, claims, now[|l|]))
  {
    hide Net;
  }

  /** The script only appends, and only proper adjustments. */
  lemma {:induction false} AdjustmentsAreProper(ledger: seq<Posting>, claims: seq<Claim>)
    ensures ledger <= Adjusted(ledger, claims)
    ensures forall i :: |ledger| <= i < |Adjusted(ledger, claims)| ==> Proper(ledger, claims, Adjusted(ledger, claims)[i])
  {
    if claims != [] {
      var n := |claims| - 1;
      var before, now := Adjusted(ledger, claims[..n]), Adjusted(ledger, claims);
      AdjustmentsAreProper(ledger, claims[..n]);
      AdjustedStep(ledger, claims);
      hide Net, Adjusted, Proper;
      AdjustIsProper(before, ledger, claims, claims[n]);
      forall i | |ledger| <= i < |now| ensures Proper(ledger, claims, now[i]) {
        if i < |before| {
          assert now[i] == before[i];
          ProperMore(ledger, claims, now[i]);
        }
      }
    }
  }
}
