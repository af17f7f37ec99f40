/** The progressive bracket table for year of assessment 2025. Each bracket
    covers [min, max): the lower bound belongs to it, the upper bound to the
    next, so a band is `max - min` ringgit wide and the last band has no end. */
module TaxBrackets {

  /** An upper bound: a ringgit amount, or the unbounded top (`Infinity`). */
  datatype Bound = Finite(n: real) | Unbounded

  /** One band of the table; `rate` is a percentage. */
  datatype TaxBracket = TaxBracket(min: real, max: Bound, rate: real)

  const TAX_BRACKETS_2025: seq<TaxBracket> := [
    TaxBracket(0.0,       Finite(5000.0),    0.0),
    TaxBracket(5000.0,    Finite(20000.0),   1.0),
    TaxBracket(20000.0,   Finite(35000.0),   3.0),
    TaxBracket(35000.0,   Finite(50000.0),   6.0),
    TaxBracket(50000.0,   Finite(70000.0),   11.0),
    TaxBracket(70000.0,   Finite(100000.0),  19.0),
    TaxBracket(100000.0,  Finite(400000.0),  25.0),
    TaxBracket(400000.0,  Finite(600000.0),  26.0),
    TaxBracket(600000.0,  Finite(2000000.0), 28.0),
    TaxBracket(2000000.0, Unbounded,         30.0)
  ]

  /** A table that is well formed from its first bracket on: each finite
      bracket ends where the next begins and is non-empty, only the last is
      unbounded, and the rates are non-negative and never fall. */
  predicate Chain(bs: seq<TaxBracket>)
  {
    |bs| > 0 && 0.0 <= bs[0].rate &&
    if |bs| == 1 then bs[0].max == Unbounded
    else
      bs[0].max == Finite(bs[1].min) && bs[0].min < bs[1].min &&
      bs[0].rate <= bs[1].rate && Chain(bs[1..])
  }

  /** A whole table: a chain whose first bracket starts at 0. */
  predicate WellFormed(bs: seq<TaxBracket>)
  {
    Chain(bs) && bs[0].min == 0.0
  }

  /** What a chain guarantees, bracket by bracket. */
  lemma {:induction false} ChainFacts(bs: seq<TaxBracket>)
    requires Chain(bs)
    ensures bs[|bs| - 1].max == Unbounded
    ensures forall i :: 0 <= i < |bs| - 1 ==> bs[i].max == Finite(bs[i + 1].min)
    ensures forall i :: 0 <= i < |bs| - 1 ==> bs[i].min < bs[i + 1].min
    ensures forall i :: 0 <= i < |bs| ==> 0.0 <= bs[i].rate
    ensures forall i, j :: 0 <= i <= j < |bs| ==> bs[i].rate <= bs[j].rate
    ensures forall i, j :: 0 <= i <= j < |bs| ==> bs[i].min <= bs[j].min
  {
    if |bs| > 1 {
      ChainFacts(bs[1..]);
      forall i, j | 0 <= i <= j < |bs|
        ensures bs[i].rate <= bs[j].rate && bs[i].min <= bs[j].min
      {
        if 0 < i {
          assert bs[i] == bs[1..][i - 1] && bs[j] == bs[1..][j - 1];
        } else if 0 < j {
          assert bs[1] == bs[1..][0] && bs[j] == bs[1..][j - 1];
        }
      }
    }
  }

  /** The 2025 table is well formed: it starts at 0, is contiguous, only its
      last bracket is unbounded, every finite bracket is non-empty, and the
      rates climb from 0 to 30 percent. */
  lemma TaxBrackets2025WellFormed()
    ensures WellFormed(TAX_BRACKETS_2025)
    ensures |TAX_BRACKETS_2025| == 10
    ensures TAX_BRACKETS_2025[0].min == 0.0 && TAX_BRACKETS_2025[0].rate == 0.0
    ensures TAX_BRACKETS_2025[9].max == Unbounded && TAX_BRACKETS_2025[9].rate == 30.0
    ensures forall i :: 0 <= i < 9 ==> TAX_BRACKETS_2025[i].max == Finite(TAX_BRACKETS_2025[i + 1].min)
    ensures forall i :: 0 <= i < 9 ==> TAX_BRACKETS_2025[i].min < TAX_BRACKETS_2025[i + 1].min
    ensures forall i :: 0 <= i < 9 ==> TAX_BRACKETS_2025[i].max.Finite?
    ensures forall i, j :: 0 <= i <= j < 10 ==>
      0.0 <= TAX_BRACKETS_2025[i].rate <= TAX_BRACKETS_2025[j].rate <= 30.0
  {
    var bs := TAX_BRACKETS_2025;
    assert Chain(bs[9..]);
    assert Chain(bs[8..]);
    assert Chain(bs[7..]);
    assert Chain(bs[6..]);
    assert Chain(bs[5..]);
    assert Chain(bs[4..]);
    assert Chain(bs[3..]);
    assert Chain(bs[2..]);
    assert Chain(bs[1..]);
    assert Chain(bs);
    ChainFacts(bs);
  }

  /** The ten rows of the 2025 table, one by one. */
  lemma TaxBracketRows()
    ensures TAX_BRACKETS_2025[0] == TaxBracket(0.0, Finite(5000.0), 0.0)
    ensures TAX_BRACKETS_2025[1] == TaxBracket(5000.0, Finite(20000.0), 1.0)
    ensures TAX_BRACKETS_2025[2] == TaxBracket(20000.0, Finite(35000.0), 3.0)
    ensures TAX_BRACKETS_2025[3] == TaxBracket(35000.0, Finite(50000.0), 6.0)
    ensures TAX_BRACKETS_2025[4] == TaxBracket(50000.0, Finite(70000.0), 11.0)
    ensures TAX_BRACKETS_2025[5] == TaxBracket(70000.0, Finite(100000.0), 19.0)
    ensures TAX_BRACKETS_2025[6] == TaxBracket(100000.0, Finite(400000.0), 25.0)
    ensures TAX_BRACKETS_2025[7] == TaxBracket(400000.0, Finite(600000.0), 26.0)
    ensures TAX_BRACKETS_2025[8] == TaxBracket(600000.0, Finite(2000000.0), 28.0)
    ensures TAX_BRACKETS_2025[9] == TaxBracket(2000000.0, Unbounded, 30.0)
  {
  }
}
