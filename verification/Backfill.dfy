/** The opening-balance backfill: one credit per bucket, at most once, rounded down. */
module Backfill {
  import opened Rounding
  import opened BalanceLedger

  /** 10^-12 and eight decimal places, in units of 10^-18. */
  const EPSILON: int := 1_000_000
  const EIGHT_PLACES: int := 10_000_000_000

  ghost predicate HasOpening(ledger: seq<Posting>, b: Bucket) {
    exists p :: p in ledger && IsOpening(p, b)
  }

  predicate IsOpening(p: Posting, b: Bucket) {
    p.origin == Opening && p.bucket == b
  }

  method FindOpening(ledger: seq<Posting>, b: Bucket) returns (found: bool)
    ensures found <==> HasOpening(ledger, b)
  {
    var i := 0;
    while i < |ledger|
      invariant 0 <= i <= |ledger|
      invariant forall j :: 0 <= j < i ==> !IsOpening(ledger[j], b)
    {
      if IsOpening(ledger[i], b) {
        return true;
      }
      i := i + 1;
    }
    found := false;
  }

  function Credit(gap: int): int {
    if gap <= EPSILON then 0 else RoundDown(gap, EIGHT_PLACES)
  }

  function OpeningRow(c: Claim, gap: int): Posting {
    Posting(c.bucket, Opening, true, 0, Credit(gap), RoundDown(c.balance - gap, EIGHT_PLACES), RoundDown(c.balance, EIGHT_PLACES))
  }

  /** What the script has written and reported so far. */
  datatype Report = Report(ledger: seq<Posting>, inserted: seq<Posting>, skipped: seq<Bucket>, errors: seq<Bucket>)

  /** One bucket; `sums` is the ledger as it was read before the loop. */
  ghost function Consider(apply: bool, sums: seq<Posting>, r: Report, c: Claim): Report {
    var gap := c.balance - Net(sums, c.bucket);
    if gap < -EPSILON then r.(errors := r.errors + [c.bucket])
    else if Credit(gap) == 0 then r
    else if HasOpening(r.ledger, c.bucket) then r.(skipped := r.skipped + [c.bucket])
    else
      var p := OpeningRow(c, gap);
      r.(ledger := if apply then r.ledger + [p] else r.ledger, inserted := r.inserted + [p])
  }

  ghost function Filled(apply: bool, sums: seq<Posting>, claims: seq<Claim>): Report {
    if claims == [] then Report(sums, [], [], [])
    else Consider(apply, sums, Filled(apply, sums, claims[..|claims| - 1]), claims[|claims| - 1])
  }

  lemma FilledSnoc(apply: bool, sums: seq<Posting>, claims: seq<Claim>, c: Claim)
    ensures Filled(apply, sums, claims + [c]) == Consider(apply, sums, Filled(apply, sums, claims), c)
  {
    assert (claims + [c])[..|claims|] == claims;
  }

  /** The body of the script's loop. */
  method ConsiderBucket(apply: bool, ledger: seq<Posting>, before: Report, c: Claim) returns (r: Report)
    ensures r == Consider(apply, ledger, before, c)
  {
    hide Net, Credit, HasOpening, RoundDown;
    r := before;
    var gap := c.balance - Net(ledger, c.bucket);
    if -EPSILON <= gap <= EPSILON {
      SmallGap(gap);
      return;
    }
    if gap < 0 {
      return r.(errors := r.errors + [c.bucket]);
    }
    if Credit(gap) == 0 {
      return;
    }
    var found := FindOpening(r.ledger, c.bucket);
    if found {
      return r.(skipped := r.skipped + [c.bucket]);
    }
    var p := OpeningRow(c, gap);
    if !apply {
      return r.(inserted := r.inserted + [p]);
    }
    r := r.(ledger := r.ledger + [p], inserted := r.inserted + [p]);
  }

  /** The script, row by row and bucket by bucket. */
  method BackfillOpeningBalances(apply: bool, ledger: seq<Posting>, rows: seq<TradingRow>) returns (r: Report)
    ensures r == Filled(apply, ledger, Claims(rows))
  {
    hide Claims, Consider, Filled;
    r := Report(ledger, [], [], []);
    var i := 0;
    NothingFilled(apply, ledger);
    while i < |rows|
      invariant 0 <= i <= |rows|
      invariant r == Filled(apply, ledger, Claims(rows[..i]))
    {
      assert rows[..i + 1] == rows[..i] + [rows[i]];
      ClaimsSnoc(rows[..i], rows[i]);
      var defs := ClaimsOf(rows[i]);
      hide ClaimsOf;
      ghost var before := Claims(rows[..i]);
      var j := 0;
      assert before + defs[..0] == before;
      while j < |defs|
        invariant 0 <= j <= |defs|
        invariant r == Filled(apply, ledger, before + defs[..j])
      {
        OneMoreClaim(before, defs, j);
        FilledSnoc(apply, ledger, before + defs[..j], defs[j]);
        r := ConsiderBucket(apply, ledger, r, defs[j]);
        j := j + 1;
      }
      assert defs[..j] == defs;
      i := i + 1;
    }
    assert rows[..i] == rows;
  }

  lemma NothingFilled(apply: bool, sums: seq<Posting>)
    ensures Filled(apply, sums, Claims([])) == Report(sums, [], [], [])
  {
  }

  lemma OneMoreClaim(before: seq<Claim>, defs: seq<Claim>, j: nat)
    requires j < |defs|
    ensures before + defs[..j + 1] == (before + defs[..j]) + [defs[j]]
  {
  }

  lemma SmallGap(gap: int)
    requires gap <= EPSILON
    ensures Credit(gap) == 0
  {
  }

  // ----- at most one opening row per bucket

  function Openings(ledger: seq<Posting>, b: Bucket): nat {
    if ledger == [] then 0
    else Openings(ledger[..|ledger| - 1], b) + if IsOpening(ledger[|ledger| - 1], b) then 1 else 0
  }

  lemma {:induction false} OpeningsCounted(ledger: seq<Posting>, b: Bucket)
    ensures HasOpening(ledger, b) <==> Openings(ledger, b) >= 1
  {
    if ledger != [] {
      var n := |ledger| - 1;
      assert ledger == ledger[..n] + [ledger[n]];
      OpeningsCounted(ledger[..n], b);
      assert HasOpening(ledger, b) <==> HasOpening(ledger[..n], b) || IsOpening(ledger[n], b) by {
        if HasOpening(ledger[..n], b) {
          var p :| p in ledger[..n] && IsOpening(p, b);
          assert p in ledger;
        }
        assert ledger[n] in ledger;
      }
    }
  }

  lemma OpeningsSnoc(ledger: seq<Posting>, p: Posting, b: Bucket)
    ensures Openings(ledger + [p], b) == Openings(ledger, b) + if IsOpening(p, b) then 1 else 0
  {
    assert (ledger + [p])[..|ledger|] == ledger;
  }

  ghost predicate AtMostOne(ledger: seq<Posting>) {
    forall b :: Openings(ledger, b) <= 1
  }

  lemma ConsiderKeepsOne(apply: bool, sums: seq<Posting>, r: Report, c: Claim)
    requires AtMostOne(r.ledger)
    ensures AtMostOne(Consider(apply, sums, r, c).ledger)
  {
    hide Credit, Net, RoundDown, HasOpening;
    var p := OpeningRow(c, c.balance - Net(sums, c.bucket));
    forall b ensures Openings(Consider(apply, sums, r, c).ledger, b) <= 1 {
      OpeningsCounted(r.ledger, b);
      OpeningsSnoc(r.ledger, p, b);
      hide Openings;
    }
  }

  lemma {:induction false} FillKeepsOne(apply: bool, sums: seq<Posting>, claims: seq<Claim>)
    requires AtMostOne(sums)
    ensures AtMostOne(Filled(apply, sums, claims).ledger)
  {
    if claims != [] {
      var n := |claims| - 1;
      FillKeepsOne(apply, sums, claims[..n]);
      hide AtMostOne, Consider;
      ConsiderKeepsOne(apply, sums, Filled(apply, sums, claims[..n]), claims[n]);
    }
  }

  lemma {:induction false} AdjustKeepsOne(ledger: seq<Posting>, claims: seq<Claim>)
    requires AtMostOne(ledger)
    ensures AtMostOne(Adjusted(ledger, claims))
  {
    if claims != [] {
      var n := |claims| - 1;
      AdjustKeepsOne(ledger, claims[..n]);
      AdjustedStep(ledger, claims);
      var l, all := Adjusted(ledger, claims[..n]), Adjusted(ledger, claims);
      hide Adjusted;
      if all != l {
        forall b ensures Openings(all, b) <= 1 {
          assert Openings(l, b) <= 1;
          OpeningsSnoc(l, all[|l|], b);
          assert all == l + [all[|l|]];
        }
      }
    }
  }

  /** What may happen to the balance ledger, with whatever balances are then on file. */
  datatype Change = Fill(apply: bool, rows: seq<TradingRow>) | Reconcile(rows: seq<TradingRow>) | Post(posting: Posting)

  ghost function After(ledger: seq<Posting>, changes: seq<Change>): seq<Posting> {
    if changes == [] then ledger
    else
      var l := After(ledger, changes[..|changes| - 1]);
      match changes[|changes| - 1]
      case Fill(apply, rows) => Filled(apply, l, Claims(rows)).ledger
      case Reconcile(rows) => if AllMet(Adjusted(l, Claims(rows)), Claims(rows)) then Adjusted(l, Claims(rows)) else l
      case Post(p) => l + [p]
  }

  /** However often the scripts are run, and whatever else is posted and changed between the
      runs, no bucket ever has two opening rows. */
  lemma {:induction false} OneOpeningEver(ledger: seq<Posting>, changes: seq<Change>)
    requires AtMostOne(ledger)
    requires forall c :: c in changes && c.Post? ==> c.posting.origin != Opening
    ensures AtMostOne(After(ledger, changes))
  {
    if changes != [] {
      var n := |changes| - 1;
      assert changes == changes[..n] + [changes[n]];
      OneOpeningEver(ledger, changes[..n]);
      var l := After(ledger, changes[..n]);
      match changes[n]
      case Fill(apply, rows) => FillKeepsOne(apply, l, Claims(rows));
      case Reconcile(rows) => AdjustKeepsOne(l, Claims(rows));
      case Post(p) =>
        forall b ensures Openings(l + [p], b) <= 1 {
          OpeningsSnoc(l, p, b);
        }
    }
  }

  // ----- what a run leaves

  lemma DryRun(sums: seq<Posting>, claims: seq<Claim>)
    ensures Filled(false, sums, claims).ledger == sums
  {
  }

  /** A bucket's sum moves only together with its opening row. */
  lemma ConsiderNet(apply: bool, sums: seq<Posting>, r: Report, c: Claim, b: Bucket)
    ensures var r' := Consider(apply, sums, r, c);
            if r'.ledger == r.ledger then true
            else
              && r'.ledger == r.ledger + [OpeningRow(c, c.balance - Net(sums, c.bucket))] && !HasOpening(r.ledger, c.bucket)
              && Net(r'.ledger, b) == Net(r.ledger, b) + if b == c.bucket then Credit(c.balance - Net(sums, c.bucket)) else 0
  {
    NetSnoc(r.ledger, OpeningRow(c, c.balance - Net(sums, c.bucket)), b);
    hide Net, Credit, RoundDown, HasOpening;
  }

  lemma HasOpeningSnoc(ledger: seq<Posting>, p: Posting, b: Bucket)
    ensures HasOpening(ledger + [p], b) <==> HasOpening(ledger, b) || IsOpening(p, b)
  {
    OpeningsSnoc(ledger, p, b);
    OpeningsCounted(ledger, b);
    OpeningsCounted(ledger + [p], b);
  }

  /** The bucket as the script found it: no new opening row, and no change of its sum. */
  ghost predicate Untouched(before: seq<Posting>, after: seq<Posting>, b: Bucket) {
    Net(after, b) == Net(before, b) && (HasOpening(after, b) <==> HasOpening(before, b))
  }

  /** The bucket has now got the one credit that one of its rows asked for. */
  ghost predicate Credited(before: seq<Posting>, after: seq<Posting>, claims: seq<Claim>, b: Bucket) {
    && !HasOpening(before, b) && HasOpening(after, b)
    && exists c :: c in claims && c.bucket == b && Net(after, b) == Net(before, b) + Credit(c.balance - Net(before, b))
  }

  lemma CreditedMore(before: seq<Posting>, after: seq<Posting>, claims: seq<Claim>, more: seq<Claim>, b: Bucket)
    requires Credited(before, after, claims, b)
    ensures Credited(before, after, claims + more, b)
  {
    hide HasOpening, Net, Credit;
    var c :| c in claims && c.bucket == b && Net(after, b) == Net(before, b) + Credit(c.balance - Net(before, b));
    assert c in claims + more;
  }

  lemma CreditedBy(before: seq<Posting>, after: seq<Posting>, claims: seq<Claim>, c: Claim)
    requires c in claims && !HasOpening(before, c.bucket) && HasOpening(after, c.bucket)
    requires Net(after, c.bucket) == Net(before, c.bucket) + Credit(c.balance - Net(before, c.bucket))
    ensures Credited(before, after, claims, c.bucket)
  {
  }

  lemma ConsiderElsewhere(apply: bool, sums: seq<Posting>, r: Report, c: Claim, b: Bucket)
    requires b != c.bucket || Consider(apply, sums, r, c).ledger == r.ledger
    ensures Untouched(r.ledger, Consider(apply, sums, r, c).ledger, b)
  {
    ConsiderNet(apply, sums, r, c, b);
    HasOpeningSnoc(r.ledger, OpeningRow(c, c.balance - Net(sums, c.bucket)), b);
    hide Consider, Net, HasOpening, Credit, RoundDown;
  }

  lemma ConsiderInserts(sums: seq<Posting>, r: Report, c: Claim)
    requires Consider(true, sums, r, c).ledger != r.ledger
    ensures var after := Consider(true, sums, r, c).ledger;
            && !HasOpening(r.ledger, c.bucket) && HasOpening(after, c.bucket)
            && Net(after, c.bucket) == Net(r.ledger, c.bucket) + Credit(c.balance - Net(sums, c.bucket))
  {
    ConsiderNet(true, sums, r, c, c.bucket);
    HasOpeningSnoc(r.ledger, OpeningRow(c, c.balance - Net(sums, c.bucket)), c.bucket);
    hide Consider, Net, HasOpening, Credit, RoundDown;
  }

  /** A run leaves a bucket alone or gives it exactly one credit, for a row that speaks for it. */
  lemma {:induction false} FilledOutcome(sums: seq<Posting>, claims: seq<Claim>, b: Bucket)
    ensures var after := Filled(true, sums, claims).ledger;
            Untouched(sums, after, b) || Credited(sums, after, claims, b)
  {
    if claims != [] {
      var n := |claims| - 1;
      var c, r := claims[n], Filled(true, sums, claims[..n]);
      var after := Consider(true, sums, r, c).ledger;
      assert claims == claims[..n] + [c] && c in claims;
      FilledOutcome(sums, claims[..n], b);
      hide Consider, Net, HasOpening, Credit;
      if b == c.bucket && after != r.ledger {
        ConsiderInserts(sums, r, c);
        CreditedBy(sums, after, claims, c);
      } else {
        ConsiderElsewhere(true, sums, r, c, b);
        if Credited(sums, r.ledger, claims[..n], b) {
          CreditedMore(sums, r.ledger, claims[..n], [c], b);
        }
      }
    }
  }

  lemma CreditBounds(gap: int)
    ensures gap > EPSILON ==> 0 <= Credit(gap) <= gap < Credit(gap) + EIGHT_PLACES
    ensures gap <= EPSILON ==> Credit(gap) == 0
  {
    RoundDownBounds(gap, EIGHT_PLACES);
  }

  /** A run never takes a bucket past its balance, and a bucket that was not ahead of its
      balance and had no opening row ends up less than 10^-8 short of it. */
  lemma BackfillClosesGap(sums: seq<Posting>, claims: seq<Claim>, c: Claim)
    requires c in claims && forall d :: d in claims && d.bucket == c.bucket ==> d == c
    ensures var before, after := Net(sums, c.bucket), Net(Filled(true, sums, claims).ledger, c.bucket);
            && (before <= c.balance ==> before <= after <= c.balance)
            && (before > c.balance ==> after == before)
            && (before <= c.balance && !HasOpening(sums, c.bucket) ==> c.balance - after < EIGHT_PLACES)
  {
    var after := Filled(true, sums, claims).ledger;
    FilledOutcome(sums, claims, c.bucket);
    CreditBounds(c.balance - Net(sums, c.bucket));
    if Untouched(sums, after, c.bucket) && !HasOpening(sums, c.bucket) {
      NotCreditedOnlyIfTooSmall(sums, claims, c);
    }
    hide Net, HasOpening, Credit, Filled;
  }

  /** Opening rows are never removed. */
  lemma ConsiderKeepsOpening(apply: bool, sums: seq<Posting>, r: Report, c: Claim, b: Bucket)
    requires HasOpening(r.ledger, b)
    ensures HasOpening(Consider(apply, sums, r, c).ledger, b)
  {
    HasOpeningSnoc(r.ledger, OpeningRow(c, c.balance - Net(sums, c.bucket)), b);
    hide HasOpening, Net, Credit, RoundDown;
  }

  lemma ConsideredOrOpened(sums: seq<Posting>, r: Report, c: Claim)
    ensures HasOpening(Consider(true, sums, r, c).ledger, c.bucket)
            || c.balance - Net(sums, c.bucket) < -EPSILON || Credit(c.balance - Net(sums, c.bucket)) == 0
  {
    HasOpeningSnoc(r.ledger, OpeningRow(c, c.balance - Net(sums, c.bucket)), c.bucket);
    hide HasOpening, Net, Credit, RoundDown;
  }

  lemma {:induction false} NotCreditedOnlyIfTooSmall(sums: seq<Posting>, claims: seq<Claim>, c: Claim)
    requires c in claims
    ensures HasOpening(Filled(true, sums, claims).ledger, c.bucket)
            || c.balance - Net(sums, c.bucket) < -EPSILON || Credit(c.balance - Net(sums, c.bucket)) == 0
  {
    var n := |claims| - 1;
    var r := Filled(true, sums, claims[..n]);
    assert claims == claims[..n] + [claims[n]];
    hide Consider, HasOpening, Net, Credit;
    if c == claims[n] {
      ConsideredOrOpened(sums, r, c);
    } else {
      NotCreditedOnlyIfTooSmall(sums, claims[..n], c);
      if HasOpening(r.ledger, c.bucket) {
        ConsiderKeepsOpening(true, sums, r, claims[n], c.bucket);
      }
    }
  }

  /** Nothing would be inserted for this row. */
  ghost predicate Quiet(ledger: seq<Posting>, c: Claim) {
    HasOpening(ledger, c.bucket) || c.balance - Net(ledger, c.bucket) < -EPSILON || Credit(c.balance - Net(ledger, c.bucket)) == 0
  }

  lemma QuietAfter(sums: seq<Posting>, claims: seq<Claim>, c: Claim)
    requires c in claims
    ensures Quiet(Filled(true, sums, claims).ledger, c)
  {
    NotCreditedOnlyIfTooSmall(sums, claims, c);
    FilledOutcome(sums, claims, c.bucket);
    hide HasOpening, Net, Credit, Filled;
  }

  lemma {:induction false} QuietRun(sums: seq<Posting>, claims: seq<Claim>)
    requires forall c :: c in claims ==> Quiet(sums, c)
    ensures Filled(true, sums, claims).ledger == sums
  {
    if claims != [] {
      var n := |claims| - 1;
      assert claims == claims[..n] + [claims[n]];
      QuietRun(sums, claims[..n]);
      assert Quiet(sums, claims[n]);
      hide HasOpening, Net, Credit, RoundDown;
    }
  }

  /** Running the backfill again with the same balances inserts nothing, even where an account
      has several balance rows. */
  lemma BackfillTwice(sums: seq<Posting>, claims: seq<Claim>)
    ensures var once := Filled(true, sums, claims).ledger;
            Filled(true, once, claims).ledger == once
  {
    forall c | c in claims ensures Quiet(Filled(true, sums, claims).ledger, c) {
      QuietAfter(sums, claims, c);
    }
    hide Quiet, Filled;
    QuietRun(Filled(true, sums, claims).ledger, claims);
  }

  lemma {:induction false} UnclaimedUntouched(sums: seq<Posting>, claims: seq<Claim>, b: Bucket)
    requires forall c :: c in claims ==> c.bucket != b
    ensures Untouched(sums, Filled(true, sums, claims).ledger, b)
  {
    FilledOutcome(sums, claims, b);
    hide HasOpening, Net, Credit, Filled;
  }

  /** With distinct accounts the dry run plans exactly the rows that applying would insert. */
  lemma {:induction false} DryRunPlans(sums: seq<Posting>, claims: seq<Claim>)
    requires Distinct(claims)
    ensures Filled(false, sums, claims).(ledger := []) == Filled(true, sums, claims).(ledger := [])
  {
    if claims != [] {
      var n := |claims| - 1;
      DryRunPlans(sums, claims[..n]);
      DryRun(sums, claims[..n]);
      UnclaimedUntouched(sums, claims[..n], claims[n].bucket);
      hide HasOpening, Net, Credit, RoundDown;
    }
  }

  // ----- the report, bucket by bucket

  /** An opening row closes a positive gap of a bucket by a credit of whole 10^-8, and carries
      sum and balance cut to the same places. */
  ghost predicate ProperOpening(sums: seq<Posting>, claims: seq<Claim>, p: Posting) {
    && p.origin == Opening && p.trading && p.debit == 0 && p.credit > 0
    && exists c ::
      && c in claims && c.bucket == p.bucket
      && Rounded(c.balance - Net(sums, c.bucket), 1, 10_000_000_000, p.credit)
      && Rounded(Net(sums, c.bucket), 1, 10_000_000_000, p.before)
      && Rounded(c.balance, 1, 10_000_000_000, p.after)
  }

  lemma OpeningRowIsProper(sums: seq<Posting>, claims: seq<Claim>, c: Claim)
    requires c in claims && Credit(c.balance - Net(sums, c.bucket)) != 0
    ensures ProperOpening(sums, claims, OpeningRow(c, c.balance - Net(sums, c.bucket)))
  {
    var gap := c.balance - Net(sums, c.bucket);
    AmountsAreRounded(0, gap, 1, EIGHT_PLACES);
    AmountsAreRounded(0, c.balance - gap, 1, EIGHT_PLACES);
    AmountsAreRounded(0, c.balance, 1, EIGHT_PLACES);
    hide Net, RoundDown;
  }

  lemma ProperOpeningMore(sums: seq<Posting>, claims: seq<Claim>, p: Posting)
    requires claims != [] && ProperOpening(sums, claims[..|claims| - 1], p)
    ensures ProperOpening(sums, claims, p)
  {
    hide Net, Rounded;
    var before := claims[..|claims| - 1];
    assert forall c :: c in before ==> c in claims;
  }

  /** Whatever the script inserts, or plans to, is a proper opening row. */
  lemma {:induction false} OpeningsAreProper(apply: bool, sums: seq<Posting>, claims: seq<Claim>)
    ensures forall p :: p in Filled(apply, sums, claims).inserted ==> ProperOpening(sums, claims, p)
  {
    if claims != [] {
      var n := |claims| - 1;
      var before, c := Filled(apply, sums, claims[..n]), claims[n];
      OpeningsAreProper(apply, sums, claims[..n]);
      if Credit(c.balance - Net(sums, c.bucket)) != 0 {
        OpeningRowIsProper(sums, claims, c);
      }
      hide Net, ProperOpening, HasOpening, Credit, OpeningRow;
      forall p | p in Filled(apply, sums, claims).inserted ensures ProperOpening(sums, claims, p) {
        if p in before.inserted {
          ProperOpeningMore(sums, claims, p);
        }
      }
    }
  }

  /** The errors are exactly the buckets whose ledger is ahead of a balance by more than
      10^-12. */
  lemma {:induction false} ErrorsAre(apply: bool, sums: seq<Posting>, claims: seq<Claim>, b: Bucket)
    ensures b in Filled(apply, sums, claims).errors <==>
              exists c :: c in claims && c.bucket == b && Net(sums, b) - c.balance > 1_000_000
  {
    hide Net, HasOpening, Credit, OpeningRow;
    if claims != [] {
      var n := |claims| - 1;
      var c := claims[n];
      assert claims == claims[..n] + [c];
      ErrorsAre(apply, sums, claims[..n], b);
      assert c in claims;
    }
  }
}
