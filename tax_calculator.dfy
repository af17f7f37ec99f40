/** Progressive tax on chargeable income: walk the brackets in order, tax the
    slice of what remains that falls in each band at the band's rate, and stop
    once nothing remains. */
module TaxCalculator {
  import opened Types
  import opened TaxBrackets

  /** The width of a bracket's band, `max - min`; the unbounded top band is
      as wide as whatever remains. */
  function BandSize(b: TaxBracket, remaining: real): real
  {
    match b.max
    case Unbounded => remaining
    case Finite(m) => m - b.min
  }

  /** The part of `remaining` taxed in bracket `b`. */
  function Slice(b: TaxBracket, remaining: real): real
  {
    Min(remaining, BandSize(b, remaining))
  }

  /** The tax on `amount` at bracket `b`'s percentage rate. */
  function Charge(amount: real, b: TaxBracket): real
  {
    amount * (b.rate / 100.0)
  }

  /** The tax the bracket walk accumulates over `bs` on `remaining`. */
  function BracketTax(bs: seq<TaxBracket>, remaining: real): real
  {
    if bs == [] || remaining <= 0.0 then 0.0
    else
      var taxable := Slice(bs[0], remaining);
      Charge(taxable, bs[0]) + BracketTax(bs[1..], remaining - taxable)
  }

  /** The slices the walk cuts, one per bracket it reaches. */
  function Slices(bs: seq<TaxBracket>, remaining: real): seq<real>
  {
    if bs == [] || remaining <= 0.0 then []
    else
      var taxable := Slice(bs[0], remaining);
      [taxable] + Slices(bs[1..], remaining - taxable)
  }

  function Sum(xs: seq<real>): real
  {
    if xs == [] then 0.0 else xs[0] + Sum(xs[1..])
  }

  /** `calculateTax` on the 2025 table, as a value. */
  function Tax(chargeableIncome: real): real
  {
    Max(0.0, BracketTax(TAX_BRACKETS_2025, chargeableIncome))
  }

  /** The bracket walk of `calculateTax` over any table `bs`. */
  method BracketWalk(bs: seq<TaxBracket>, chargeableIncome: real) returns (tax: real)
    ensures tax == Max(0.0, BracketTax(bs, chargeableIncome))
    ensures tax >= 0.0
    ensures chargeableIncome <= 0.0 ==> tax == 0.0
  {
    tax := 0.0;
    var remaining := chargeableIncome;
    for i := 0 to |bs|
      invariant tax + BracketTax(bs[i..], remaining) == BracketTax(bs, chargeableIncome)
    {
      var bracket := bs[i];
      if remaining <= 0.0 {
        break;
      }
      var bandSize := if bracket.max == Unbounded then remaining else bracket.max.n - bracket.min;
      var taxable := Min(remaining, bandSize);
      assert bs[i..][1..] == bs[i + 1..];
      tax := tax + Charge(taxable, bracket);
      remaining := remaining - taxable;
    }
    tax := Max(0.0, tax);
  }

  /** `calculateTax`: the bracket walk over the 2025 table. */
  method CalculateTax(chargeableIncome: real) returns (tax: real)
    ensures tax == Tax(chargeableIncome)
    ensures tax >= 0.0
    ensures chargeableIncome <= 0.0 ==> tax == 0.0
  {
    tax := BracketWalk(TAX_BRACKETS_2025, chargeableIncome);
  }

  /** Every rate is non-negative and no finite band is negative. */
  predicate Sound(bs: seq<TaxBracket>)
  {
    forall k :: 0 <= k < |bs| ==>
      0.0 <= bs[k].rate && (bs[k].max.Finite? ==> bs[k].min <= bs[k].max.n)
  }

  lemma {:induction false} ChainIsSound(bs: seq<TaxBracket>)
    requires Chain(bs)
    ensures Sound(bs)
  {
    ChainFacts(bs);
    forall k | 0 <= k < |bs| && bs[k].max.Finite?
      ensures bs[k].min <= bs[k].max.n
    {
      assert k < |bs| - 1;
      assert bs[k].max == Finite(bs[k + 1].min);
    }
  }

  lemma {:induction false} BracketTaxNonNegative(bs: seq<TaxBracket>, remaining: real)
    requires Sound(bs)
    ensures BracketTax(bs, remaining) >= 0.0
  {
    if bs != [] && remaining > 0.0 {
      var taxable := Slice(bs[0], remaining);
      BracketTaxNonNegative(bs[1..], remaining - taxable);
      assert taxable >= 0.0;
      assert Charge(taxable, bs[0]) >= 0.0;
    }
  }

  lemma MulMonotone(a: real, b: real, c: real)
    requires a <= b && c >= 0.0
    ensures a * c <= b * c
  {
  }

  /** More income never means less tax, for any table with non-negative rates
      and bands. */
  lemma {:induction false} BracketTaxMonotone(bs: seq<TaxBracket>, x: real, y: real)
    requires Sound(bs) && x <= y
    ensures BracketTax(bs, x) <= BracketTax(bs, y)
  {
    if bs == [] {
    } else if x <= 0.0 {
      BracketTaxNonNegative(bs, y);
    } else {
      var sx, sy := Slice(bs[0], x), Slice(bs[0], y);
      var r := bs[0].rate / 100.0;
      assert sx <= sy;
      assert x - sx <= y - sy;
      MulMonotone(sx, sy, r);
      BracketTaxMonotone(bs[1..], x - sx, y - sy);
    }
  }

  /** Tax is monotone in chargeable income. */
  lemma TaxMonotone(x: real, y: real)
    requires x <= y
    ensures Tax(x) <= Tax(y)
  {
    TaxBrackets2025WellFormed();
    ChainIsSound(TAX_BRACKETS_2025);
    BracketTaxMonotone(TAX_BRACKETS_2025, x, y);
  }

  lemma {:induction false} ChainMinRises(bs: seq<TaxBracket>, i: nat)
    requires Chain(bs) && i < |bs|
    ensures bs[0].min <= bs[i].min
  {
    if i > 0 {
      ChainMinRises(bs[1..], i - 1);
    }
  }

  /** One step of the walk over a band that `y` fills: the whole band is
      taxed at the first rate and the walk goes on with the rest, `z`. */
  lemma FullBandStep(bs: seq<TaxBracket>, y: real, z: real)
    requires Chain(bs) && |bs| > 1 && y >= bs[1].min - bs[0].min
    requires z == y - (bs[1].min - bs[0].min)
    ensures BracketTax(bs, y) == Charge(bs[1].min - bs[0].min, bs[0]) + BracketTax(bs[1..], z)
  {
    assert Slice(bs[0], y) == bs[1].min - bs[0].min;
  }

  /** Inside the first band, the tax is linear at the first rate. */
  lemma FirstBand(bs: seq<TaxBracket>, y: real)
    requires Chain(bs) && 0.0 <= y && (bs[0].max.Finite? ==> y <= bs[0].max.n - bs[0].min)
    ensures BracketTax(bs, y) == Charge(y, bs[0])
  {
    if y > 0.0 {
      assert Slice(bs[0], y) == y;
      assert BracketTax(bs[1..], 0.0) == 0.0;
    }
  }

  /** Marginal form over a chain that starts at `lo`: on an amount `x` inside
      bracket `i` (upper bound included), the tax is the tax up to the
      bracket's lower bound plus the part above it at the bracket's rate. */
  lemma {:induction false} MarginalFrom(bs: seq<TaxBracket>, i: nat, x: real)
    requires Chain(bs) && i < |bs|
    requires bs[i].min <= x && (bs[i].max.Finite? ==> x <= bs[i].max.n)
    ensures BracketTax(bs, x - bs[0].min) ==
            BracketTax(bs, bs[i].min - bs[0].min) + Charge(x - bs[i].min, bs[i])
  {
    if i == 0 {
      FirstBand(bs, x - bs[0].min);
      FirstBand(bs, 0.0);
    } else {
      var rest := bs[1..];
      var lo, m0, bi := bs[0].min, bs[1].min, bs[i].min;
      ChainMinRises(rest, i - 1);
      assert rest[i - 1] == bs[i] && rest[0] == bs[1];
      FullBandStep(bs, x - lo, x - m0);
      FullBandStep(bs, bi - lo, bi - m0);
      MarginalFrom(rest, i - 1, x);
    }
  }

  /** The marginal form on the 2025 table: for income x in bracket i,
      tax(x) = tax(min_i) + (x - min_i) * rate_i / 100. */
  lemma TaxMarginal(i: nat, x: real)
    requires i < |TAX_BRACKETS_2025|
    requires TAX_BRACKETS_2025[i].min <= x
    requires TAX_BRACKETS_2025[i].max.Finite? ==> x <= TAX_BRACKETS_2025[i].max.n
    ensures Tax(x) == Tax(TAX_BRACKETS_2025[i].min) +
                      Charge(x - TAX_BRACKETS_2025[i].min, TAX_BRACKETS_2025[i])
  {
    var bs := TAX_BRACKETS_2025;
    TaxBrackets2025WellFormed();
    ChainIsSound(bs);
    MarginalFrom(bs, i, x);
    assert x - bs[0].min == x && bs[i].min - bs[0].min == bs[i].min;
    BracketTaxNonNegative(bs, x);
    BracketTaxNonNegative(bs, bs[i].min);
    assert Tax(x) == BracketTax(bs, x);
    assert Tax(bs[i].min) == BracketTax(bs, bs[i].min);
  }

  /** The slices the walk cuts are positive, none wider than its band, and
      together they are exactly the income: no ringgit is taxed twice or
      skipped. */
  lemma {:induction false} SlicesCoverIncome(bs: seq<TaxBracket>, x: real)
    requires Chain(bs)
    ensures Sum(Slices(bs, x)) == Max(0.0, x)
    ensures |Slices(bs, x)| <= |bs|
    ensures forall k :: 0 <= k < |Slices(bs, x)| ==>
      0.0 < Slices(bs, x)[k] &&
      (bs[k].max.Finite? ==> Slices(bs, x)[k] <= bs[k].max.n - bs[k].min)
  {
    if x > 0.0 {
      var taxable := Slice(bs[0], x);
      if |bs| == 1 {
        assert Slices(bs[1..], x - taxable) == [];
      } else {
        SlicesCoverIncome(bs[1..], x - taxable);
        var rest := Slices(bs[1..], x - taxable);
        forall k | 1 <= k < |Slices(bs, x)|
          ensures 0.0 < Slices(bs, x)[k] &&
                  (bs[k].max.Finite? ==> Slices(bs, x)[k] <= bs[k].max.n - bs[k].min)
        {
          assert Slices(bs, x)[k] == rest[k - 1] && bs[k] == bs[1..][k - 1];
        }
      }
    }
  }

  /** Worked values of the 2025 table: the top of the 1% band, one ringgit
      into the 3% band, the self-rebate threshold, and 51000 (employment
      of 60000 less the individual relief). */
  lemma TaxExamples()
    ensures Tax(0.0) == 0.0
    ensures Tax(5000.0) == 0.0
    ensures Tax(20000.0) == 150.0
    ensures Tax(20001.0) == 150.03
    ensures Tax(35000.0) == 600.0
    ensures Tax(50000.0) == 1500.0
    ensures Tax(51000.0) == 1610.0
  {
    TaxSteps();
  }

  /** The examples as steps from one bracket bound to the next. */
  lemma TaxSteps()
    ensures Tax(0.0) == 0.0
    ensures Tax(5000.0) == Tax(0.0)
    ensures Tax(20000.0) == Tax(5000.0) + 150.0
    ensures Tax(20001.0) == Tax(20000.0) + 0.03
    ensures Tax(35000.0) == Tax(20000.0) + 450.0
    ensures Tax(50000.0) == Tax(35000.0) + 900.0
    ensures Tax(51000.0) == Tax(50000.0) + 110.0
  {
    TaxBracketRows();
    assert Tax(0.0) == 0.0;
    TaxAt(0, 0.0, 5000.0);
    TaxAt(1, 5000.0, 20000.0);
    TaxAt(2, 20000.0, 20001.0);
    TaxAt(2, 20000.0, 35000.0);
    TaxAt(3, 35000.0, 50000.0);
    TaxAt(4, 50000.0, 51000.0);
  }

  /** The marginal form with the bracket's lower bound named. */
  lemma TaxAt(i: nat, lo: real, x: real)
    requires i < |TAX_BRACKETS_2025| && TAX_BRACKETS_2025[i].min == lo
    requires lo <= x && (TAX_BRACKETS_2025[i].max.Finite? ==> x <= TAX_BRACKETS_2025[i].max.n)
    ensures Tax(x) == Tax(lo) + Charge(x - lo, TAX_BRACKETS_2025[i])
  {
    var b := TAX_BRACKETS_2025[i];
    TaxMarginal(i, x);
    assert x - b.min == x - lo;
  }
}
