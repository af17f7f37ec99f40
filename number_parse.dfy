/** The two JavaScript number parsers the engine and the wizard rely on,
    `parseFloat` and `parseInt` (radix left out), on exact numbers: each reads
    the longest numeric prefix after leading white space and yields None
    where JavaScript yields NaN. The engine's `p` and `n` helpers turn None
    into 0 (`|| 0`). */
module NumberParse {
  import opened Types

  predicate IsDigit(c: char)
  {
    '0' <= c <= '9'
  }

  function DigitValue(c: char): (d: nat)
    requires IsDigit(c)
    ensures d <= 9
  {
    (c as int) - ('0' as int)
  }

  predicate IsHexDigit(c: char)
  {
    IsDigit(c) || 'a' <= c <= 'f' || 'A' <= c <= 'F'
  }

  function HexDigitValue(c: char): (d: nat)
    requires IsHexDigit(c)
    ensures d <= 15
  {
    if IsDigit(c) then DigitValue(c)
    else if 'a' <= c <= 'f' then (c as int) - ('a' as int) + 10
    else (c as int) - ('A' as int) + 10
  }

  /** The characters JavaScript skips before a number: white space and line
      terminators. */
  predicate IsSpace(c: char)
  {
    c == ' ' || c == '\t' || c == '\n' || c == '\r'
    || c == '\U{000B}' || c == '\U{000C}' || c == '\U{00A0}' || c == '\U{1680}'
    || ('\U{2000}' <= c <= '\U{200A}')
    || c == '\U{2028}' || c == '\U{2029}' || c == '\U{202F}' || c == '\U{205F}'
    || c == '\U{3000}' || c == '\U{FEFF}'
  }

  predicate AllDigits(ds: seq<char>)
  {
    forall k :: 0 <= k < |ds| ==> IsDigit(ds[k])
  }

  predicate AllHexDigits(ds: seq<char>)
  {
    forall k :: 0 <= k < |ds| ==> IsHexDigit(ds[k])
  }

  /** The first index at or after `i` that is not white space. */
  function SkipSpace(s: string, i: nat): (j: nat)
    requires i <= |s|
    ensures i <= j <= |s|
    ensures forall k :: i <= k < j ==> IsSpace(s[k])
    ensures j < |s| ==> !IsSpace(s[j])
    decreases |s| - i
  {
    if i < |s| && IsSpace(s[i]) then SkipSpace(s, i + 1) else i
  }

  /** The end of the run of decimal digits that starts at `i`. */
  function DigitsEnd(s: string, i: nat): (j: nat)
    requires i <= |s|
    ensures i <= j <= |s|
    ensures AllDigits(s[i..j])
    ensures j < |s| ==> !IsDigit(s[j])
    decreases |s| - i
  {
    if i < |s| && IsDigit(s[i]) then
      var j := DigitsEnd(s, i + 1);
      assert s[i..j] == [s[i]] + s[i + 1..j];
      j
    else i
  }

  /** The end of the run of hexadecimal digits that starts at `i`. */
  function HexDigitsEnd(s: string, i: nat): (j: nat)
    requires i <= |s|
    ensures i <= j <= |s|
    ensures AllHexDigits(s[i..j])
    ensures j < |s| ==> !IsHexDigit(s[j])
    decreases |s| - i
  {
    if i < |s| && IsHexDigit(s[i]) then
      var j := HexDigitsEnd(s, i + 1);
      assert s[i..j] == [s[i]] + s[i + 1..j];
      j
    else i
  }

  /** The value of a run of decimal digits, most significant first. */
  function DecimalOf(ds: seq<char>): nat
    requires AllDigits(ds)
  {
    if ds == [] then 0 else DecimalOf(ds[..|ds| - 1]) * 10 + DigitValue(ds[|ds| - 1])
  }

  /** The value of a run of hexadecimal digits, most significant first. */
  function HexOf(ds: seq<char>): nat
    requires AllHexDigits(ds)
  {
    if ds == [] then 0 else HexOf(ds[..|ds| - 1]) * 16 + HexDigitValue(ds[|ds| - 1])
  }

  /** The value of the digits after a decimal point: `0.ds`. */
  function FractionOf(ds: seq<char>): (f: real)
    requires AllDigits(ds)
    ensures 0.0 <= f < 1.0
  {
    if ds == [] then 0.0 else (DigitValue(ds[0]) as real + FractionOf(ds[1..])) / 10.0
  }

  function Pow10(e: nat): (r: nat)
    ensures r >= 1
  {
    if e == 0 then 1 else 10 * Pow10(e - 1)
  }

  /** 10 to the power `e`, for any integer exponent. */
  function Scale(e: int): (r: real)
    ensures r > 0.0
  {
    if e >= 0 then Pow10(e) as real else 1.0 / (Pow10(-e) as real)
  }

  /** The exponent part `e[+-]digits` that starts at `k`, or 0 when there is
      none (a lone `e` is not part of the number). */
  function ExponentAt(s: string, k: nat): int
    requires k <= |s|
  {
    if k < |s| && (s[k] == 'e' || s[k] == 'E') then
      var negative := k + 1 < |s| && s[k + 1] == '-';
      var m := if k + 1 < |s| && (s[k + 1] == '-' || s[k + 1] == '+') then k + 2 else k + 1;
      var j := DigitsEnd(s, m);
      if j == m then 0
      else if negative then -(DecimalOf(s[m..j]) as int) else DecimalOf(s[m..j])
    else 0
  }

  /** Index just past an optional sign at `i`. */
  function AfterSign(s: string, i: nat): (m: nat)
    requires i <= |s|
    ensures i <= m <= |s| && m <= i + 1
  {
    if i < |s| && (s[i] == '-' || s[i] == '+') then i + 1 else i
  }

  /** `parseFloat(s)`: sign, digits, optional fraction, optional exponent;
      None when neither the integer nor the fraction part has a digit. */
  function ParseFloat(s: string): Option<real>
  {
    var i := SkipSpace(s, 0);
    var negative := i < |s| && s[i] == '-';
    var m := AfterSign(s, i);
    var intEnd := DigitsEnd(s, m);
    var hasPoint := intEnd < |s| && s[intEnd] == '.';
    var fracEnd := if hasPoint then DigitsEnd(s, intEnd + 1) else intEnd;
    if intEnd == m && fracEnd <= intEnd + 1 then None
    else
      var fraction := if hasPoint then FractionOf(s[intEnd + 1..fracEnd]) else 0.0;
      var magnitude := (DecimalOf(s[m..intEnd]) as real + fraction) * Scale(ExponentAt(s, fracEnd));
      Some(if negative then -magnitude else magnitude)
  }

  /** `parseInt(s)` without a radix: sign, then a `0x`/`0X` hexadecimal run
      or a decimal run; None when that run is empty. */
  function ParseInt(s: string): Option<int>
  {
    var i := SkipSpace(s, 0);
    var negative := i < |s| && s[i] == '-';
    var m := AfterSign(s, i);
    if m + 1 < |s| && s[m] == '0' && (s[m + 1] == 'x' || s[m + 1] == 'X') then
      var j := HexDigitsEnd(s, m + 2);
      if j == m + 2 then None
      else Some(if negative then -(HexOf(s[m + 2..j]) as int) else HexOf(s[m + 2..j]))
    else
      var j := DigitsEnd(s, m);
      if j == m then None
      else Some(if negative then -(DecimalOf(s[m..j]) as int) else DecimalOf(s[m..j]))
  }

  /** The decimal numeral of `n`, as JavaScript's template strings print it. */
  function NatToString(n: nat): (s: string)
    ensures |s| >= 1 && AllDigits(s)
    ensures n >= 10 ==> |s| >= 2
  {
    if n < 10 then [('0' as int + n) as char]
    else NatToString(n / 10) + [('0' as int + n % 10) as char]
  }

  lemma {:induction false} DecimalOfNatToString(n: nat)
    ensures DecimalOf(NatToString(n)) == n
  {
    var s := NatToString(n);
    if n >= 10 {
      DecimalOfNatToString(n / 10);
      assert s[..|s| - 1] == NatToString(n / 10);
    }
  }

  /** Printing a count and parsing it back, with either parser, gives the
      count again. */
  lemma ParseNatToString(n: nat)
    ensures ParseInt(NatToString(n)) == Some(n as int)
    ensures ParseFloat(NatToString(n)) == Some(n as real)
  {
    var s := NatToString(n);
    NatToStringScan(n);
    assert ParseInt(s) == Some(n as int) by {
      assert !(1 < |s| && s[0] == '0' && (s[1] == 'x' || s[1] == 'X'));
    }
    assert ParseFloat(s) == Some(n as real) by {
      assert ExponentAt(s, |s|) == 0;
      assert Scale(0) == 1.0;
    }
  }

  /** How the scanners see a printed count: no space, no sign, all digits. */
  lemma NatToStringScan(n: nat)
    ensures SkipSpace(NatToString(n), 0) == 0
    ensures AfterSign(NatToString(n), 0) == 0
    ensures DigitsEnd(NatToString(n), 0) == |NatToString(n)|
    ensures DecimalOf(NatToString(n)[0..|NatToString(n)|]) == n
    ensures |NatToString(n)| > 1 ==> IsDigit(NatToString(n)[1])
  {
    var s := NatToString(n);
    assert IsDigit(s[0]);
    assert !IsSpace(s[0]) && s[0] != '-' && s[0] != '+';
    assert s[0..|s|] == s;
    DecimalOfNatToString(n);
  }

  /** parseFloat('0'), what the engine reads for an absent answer, is 0. */
  lemma ParseFloatZero()
    ensures ParseFloat("0") == Some(0.0)
  {
    ParseNatToString(0);
  }

  /** `p(v)`: parseFloat of the answer, 0 for NaN; an absent answer reads as '0'. */
  function FloatOrZero(s: string): real
  {
    match ParseFloat(s)
    case None => 0.0
    case Some(x) => x
  }

  /** `n(v)`: parseInt of the answer, 0 for NaN. */
  function IntOrZero(s: string): int
  {
    match ParseInt(s)
    case None => 0
    case Some(k) => k
  }

  /** An integer as a template string prints it. */
  function IntToString(i: int): (s: string)
    ensures |s| >= 1
    ensures i >= 0 ==> AllDigits(s)
  {
    if i < 0 then "-" + NatToString(-i) else NatToString(i)
  }

  /** `Math.round(x)`: the nearest integer, halves rounded up. */
  function RoundHalfUp(x: real): (k: int)
    ensures x - 0.5 < k as real <= x + 0.5
  {
    (x + 0.5).Floor
  }

  /** Exactly three digits, with leading zeros. */
  function ThreeDigits(k: nat): (s: string)
    requires k < 1000
    ensures |s| == 3 && AllDigits(s)
  {
    [('0' as int + k / 100) as char, ('0' as int + k / 10 % 10) as char, ('0' as int + k % 10) as char]
  }

  /** `n.toLocaleString()` in the en-US locale: digits grouped by three with
      commas. */
  function Grouped(n: nat): (s: string)
    ensures |s| >= 1
  {
    if n < 1000 then NatToString(n) else Grouped(n / 1000) + "," + ThreeDigits(n % 1000)
  }

  /** The two per-unit amounts the engine prints. */
  lemma GroupedExamples()
    ensures Grouped(2000) == "2,000"
    ensures Grouped(8000) == "8,000"
    ensures Grouped(1234567) == "1,234,567"
  {
    assert Grouped(2000) == NatToString(2) + "," + ThreeDigits(0);
    assert Grouped(8000) == NatToString(8) + "," + ThreeDigits(0);
    GroupedThousands();
    assert ThreeDigits(567) == "567";
    assert Grouped(1234567) == "1,234" + "," + "567";
  }

  lemma GroupedThousands()
    ensures Grouped(1234) == "1,234"
  {
    assert ThreeDigits(234) == "234";
    assert Grouped(1234) == "1" + "," + "234";
  }

  /** The text with its thousands separators taken out. */
  function WithoutCommas(s: string): (t: string)
    ensures |t| <= |s|
  {
    if s == [] then []
    else WithoutCommas(s[..|s| - 1]) + (if s[|s| - 1] == ',' then [] else [s[|s| - 1]])
  }

  lemma {:induction false} WithoutCommasAppend(s: string, t: string)
    ensures WithoutCommas(s + t) == WithoutCommas(s) + WithoutCommas(t)
    decreases |t|
  {
    if t == [] {
      assert s + t == s;
    } else {
      var init := t[..|t| - 1];
      assert (s + t)[..|s + t| - 1] == s + init;
      assert (s + t)[|s + t| - 1] == t[|t| - 1];
      WithoutCommasAppend(s, init);
    }
  }

  lemma {:induction false} WithoutCommasDigits(s: string)
    requires AllDigits(s)
    ensures WithoutCommas(s) == s
    decreases |s|
  {
    if s != [] {
      assert IsDigit(s[|s| - 1]);
      assert AllDigits(s[..|s| - 1]);
      WithoutCommasDigits(s[..|s| - 1]);
    }
  }

  /** The last three digits of a numeral of at least four digits. */
  lemma NatToStringThousands(n: nat)
    requires n >= 1000
    ensures NatToString(n) == NatToString(n / 1000) + ThreeDigits(n % 1000)
  {
    var d0 := ('0' as int + n % 10) as char;
    var d1 := ('0' as int + n / 10 % 10) as char;
    var d2 := ('0' as int + n / 100 % 10) as char;
    assert n / 10 / 10 == n / 100 && n / 100 / 10 == n / 1000;
    assert NatToString(n) == NatToString(n / 100) + [d1] + [d0];
    assert NatToString(n / 100) == NatToString(n / 1000) + [d2];
    assert n % 1000 / 100 == n / 100 % 10;
    assert n % 1000 / 10 % 10 == n / 10 % 10;
    assert n % 1000 % 10 == n % 10;
  }

  /** Dropping the separators from the grouped numeral gives the plain
      numeral back: grouping inserts commas and nothing else. */
  lemma {:induction false} GroupedDigits(n: nat)
    ensures WithoutCommas(Grouped(n)) == NatToString(n)
  {
    if n < 1000 {
      WithoutCommasDigits(NatToString(n));
    } else {
      var g := Grouped(n / 1000);
      var three := ThreeDigits(n % 1000);
      assert Grouped(n) == (g + ",") + three;
      GroupedDigits(n / 1000);
      WithoutCommasAppend(g, ",");
      assert WithoutCommas(",") == [] by {
        assert ","[..0] == [];
      }
      assert WithoutCommas(g + ",") == NatToString(n / 1000);
      WithoutCommasAppend(g + ",", three);
      WithoutCommasDigits(three);
      NatToStringThousands(n);
    }
  }
}
