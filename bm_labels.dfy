/** The Bahasa Malaysia wording of the form lines: a fixed table for the
    engine's fixed labels, a prefix rewrite for the per-child labels whose
    counts vary, and a pattern rewrite for the donation caption. */
module BmLabels {
  import opened Types
  import opened NumberParse
  import opened ReliefLimits
  import opened ReliefEngine

  /** Sections B and C: income and aggregate income. */
  const INCOME_LABELS: seq<(string, string)> := [
    ("Employment income", "Pendapatan penggajian"),
    ("Statutory employment income", "Pendapatan berkanun penggajian punca Malaysia"),
    ("Rental income (net)", "Pendapatan berkanun sewa (bersih)"),
    ("Statutory rental income (net)", "Pendapatan berkanun sewa punca Malaysia"),
    ("Other income", "Pendapatan lain"),
    ("Interest, discounts, royalties, premiums, pensions, annuities, other", "Pendapatan berkanun faedah, diskaun, royalti, premium, pencen, anuiti, lain-lain"),
    ("Statutory business income (adjusted)", "Pendapatan berkanun perniagaan (dilaraskan)"),
    ("Dividend income (above RM100k — flat 2% tax, verify with LHDN)", "Pendapatan dividen (melebihi RM100k — cukai rata 2%)"),
    ("Aggregate income", "Pendapatan agregat")
  ]

  /** Section D: the individual, spouse, disability, education, medical and lifestyle reliefs. */
  const PERSONAL_RELIEF_LABELS: seq<(string, string)> := [
    ("Individual & dependents", "Individu dan saudara tanggungan"),
    ("Spouse (no income / joint assessment)", "Suami / isteri (tiada pendapatan / taksiran bersama)"),
    ("Alimony (formal agreement)", "Bayaran alimoni kepada bekas isteri"),
    ("Disabled individual (self)", "Individu yang kurang upaya"),
    ("Disabled spouse", "Suami / isteri yang kurang upaya"),
    ("Education fees (self)", "Yuran pengajian (sendiri)"),
    ("Parents medical / carer expenses", "Perbelanjaan perubatan / penjaga ibu bapa"),
    ("Medical expenses (self / spouse / child)", "Perbelanjaan perubatan (sendiri / suami / isteri / anak)"),
    ("Learning disability treatment (child ≤18)", "Rawatan ketidakupayaan pembelajaran (anak ≤18 tahun)"),
    ("Disabled equipment", "Peralatan sokongan asas untuk orang kurang upaya"),
    ("Lifestyle (books, PC, internet, sports, gym)", "Gaya hidup (buku, PC, internet, sukan, gimnasium)"),
    ("Additional sports activity", "Gaya hidup — pelepasan tambahan (sukan)")
  ]

  /** Section D: the child-care, savings, contribution and housing reliefs and their total. */
  const FAMILY_RELIEF_LABELS: seq<(string, string)> := [
    ("Breastfeeding equipment", "Peralatan penyusuan ibu"),
    ("Childcare / kindergarten", "Yuran taska / tadika"),
    ("SSPN net deposit", "Tabungan bersih SSPN"),
    ("EV charging facility / compost machine", "Pemasangan peralatan pengecasan EV / mesin kompos"),
    ("EPF & life insurance / takaful", "Insurans nyawa dan KWSP"),
    ("Education & medical insurance", "Insurans pendidikan dan perubatan"),
    ("SOCSO / EIS contributions", "Caruman PERKESO / SIP"),
    ("Private Retirement Scheme (PRS)", "Skim persaraan swasta dan anuiti tertangguh"),
    ("Housing loan interest (first home)", "Faedah pinjaman perumahan (rumah pertama)"),
    ("Total tax reliefs", "Jumlah pelepasan")
  ]

  /** Sections E, F and H: tax computation, rebates and the balance. */
  const SUMMARY_LABELS: seq<(string, string)> := [
    ("Total income", "Jumlah pendapatan"),
    ("Chargeable income", "Pendapatan bercukai"),
    ("Tax on chargeable income", "Jumlah cukai pendapatan"),
    ("Tax on dividend income (2% flat)", "Cukai atas pendapatan dividen (2% rata)"),
    ("TAX PAYABLE", "JUMLAH CUKAI YANG DIKENAKAN"),
    ("Tax payable (30% flat rate — non-resident)", "Cukai kena dibayar (kadar rata 30% — bukan pemastautin)"),
    ("Zakat / fitrah rebate", "Zakat dan fitrah"),
    ("Self rebate (chargeable income ≤ RM35,000)", "Rebat sendiri"),
    ("Spouse rebate", "Rebat suami / isteri"),
    ("PCB / monthly tax deductions", "PCB / potongan cukai bulanan"),
    ("PCB deducted by employer", "PCB yang ditolak oleh majikan"),
    ("Balance payable to LHDN", "Baki cukai kena dibayar"),
    ("Refund from LHDN", "Bayaran balik daripada LHDN")
  ]

  /** The table in source order; a key written twice would keep its last
      wording, as in an object literal. */
  const BM_LABEL_PAIRS: seq<(string, string)> :=
    INCOME_LABELS + PERSONAL_RELIEF_LABELS + FAMILY_RELIEF_LABELS + SUMMARY_LABELS

  /** A table from its pairs, later pairs overriding earlier ones. */
  function MapOf(pairs: seq<(string, string)>): map<string, string>
  {
    if pairs == [] then map[]
    else MapOf(pairs[..|pairs| - 1])[pairs[|pairs| - 1].0 := pairs[|pairs| - 1].1]
  }

  /** English form-line label to its Bahasa Malaysia wording. */
  const BM_LABELS: map<string, string> := MapOf(BM_LABEL_PAIRS)

  /** The title of each form section. */
  const BM_SECTION_TITLES: map<string, string> := map[
    "B" := "PENDAPATAN BERKANUN DAN JUMLAH PENDAPATAN",
    "C" := "JUMLAH PENDAPATAN",
    "D" := "PELEPASAN",
    "E" := "RUMUSAN CUKAI",
    "F" := "REBAT",
    "H" := "BAYARAN"
  ]

  const DONATION_BM := "Derma / hadiah / sumbangan yang diluluskan"

  // -------------------------------------------------------------------------
  // String search
  // -------------------------------------------------------------------------

  /** `s.startsWith(p)`. */
  predicate StartsWith(s: string, p: string)
  {
    |p| <= |s| && s[..|p|] == p
  }

  /** `p` occurs in `s` at index `i`. */
  predicate At(s: string, p: string, i: nat)
  {
    i + |p| <= |s| && s[i..i + |p|] == p
  }

  /** The first index at or after `from` where `p` occurs in `s`, as
      `s.indexOf(p, from)`, with None for -1. */
  function IndexOf(s: string, p: string, from: nat): (r: Option<nat>)
    ensures r.Some? ==> from <= r.value && At(s, p, r.value)
    ensures r.Some? ==> forall j :: from <= j < r.value ==> !At(s, p, j)
    ensures r.None? ==> forall j :: from <= j ==> !At(s, p, j)
    decreases |s| - from
  {
    if from + |p| > |s| then None
    else if s[from..from + |p|] == p then Some(from)
    else IndexOf(s, p, from + 1)
  }

  /** `s.includes(p)`. */
  predicate Contains(s: string, p: string)
  {
    IndexOf(s, p, 0).Some?
  }

  /** `s.replace(p, r)` with a string pattern: the first occurrence only. */
  function Replace(s: string, p: string, r: string): string
  {
    match IndexOf(s, p, 0)
    case None => s
    case Some(i) => s[..i] + r + s[i + |p|..]
  }

  /** The characters a regular expression's `.` does not match. */
  predicate IsLineTerminator(c: char)
  {
    c == '\n' || c == '\r' || c == '\U{2028}' || c == '\U{2029}'
  }

  /** The first line terminator at or after `i`, or the end of `s`: where a
      greedy `.*` that starts at `i` stops. */
  function LineEnd(s: string, i: nat): (j: nat)
    requires i <= |s|
    ensures i <= j <= |s|
    ensures forall k :: i <= k < j ==> !IsLineTerminator(s[k])
    ensures j < |s| ==> IsLineTerminator(s[j])
    decreases |s| - i
  {
    if i == |s| || IsLineTerminator(s[i]) then i else LineEnd(s, i + 1)
  }

  /** `s.replace(re, r)` for the regular expression `re` = `p` followed by
      `.*`: the first occurrence of `p` and the rest of its line give way to
      `r`. */
  function ReplaceRestOfLine(s: string, p: string, r: string): string
  {
    match IndexOf(s, p, 0)
    case None => s
    case Some(i) => s[..i] + r + s[LineEnd(s, i + |p|)..]
  }

  /** The Bahasa Malaysia wording of a form-line label: the table's entry
      when it has a non-empty one, else the first matching per-child prefix
      rewritten, else the donation caption rewritten, else the label as it
      is. */
  function GetBmLabel(english: string): string
  {
    if english in BM_LABELS && BM_LABELS[english] != "" then BM_LABELS[english]
    else if StartsWith(english, "Children under 18") then
      Replace(english, "Children under 18", "Anak bawah 18 tahun")
    else if StartsWith(english, "Children higher edu") then
      Replace(english, "Children higher edu", "Anak pengajian tinggi")
    else if StartsWith(english, "Children pre-U") then
      Replace(english, "Children pre-U", "Anak pra-universiti")
    else if StartsWith(english, "Disabled children in higher edu") then
      Replace(english, "Disabled children in higher edu", "Anak OKU dalam pengajian tinggi")
    else if StartsWith(english, "Disabled children") then
      Replace(english, "Disabled children", "Anak kurang upaya")
    else if Contains(english, "Approved donations") then
      ReplaceRestOfLine(english, "Approved donations", DONATION_BM)
    else english
  }

  // -------------------------------------------------------------------------
  // Properties
  // -------------------------------------------------------------------------

  /** A string pattern that starts the text is its first occurrence, so
      `replace` swaps exactly that prefix. */
  lemma ReplaceAtStart(s: string, p: string, r: string)
    requires StartsWith(s, p)
    ensures Replace(s, p, r) == r + s[|p|..]
  {
    assert At(s, p, 0);
    assert IndexOf(s, p, 0) == Some(0);
  }

  /** On a one-line label the rewrite keeps what precedes the first
      occurrence of the pattern and drops everything from it on. */
  lemma RestOfLine(s: string, p: string, r: string, i: nat)
    requires IndexOf(s, p, 0) == Some(i)
    requires forall k :: 0 <= k < |s| ==> !IsLineTerminator(s[k])
    ensures ReplaceRestOfLine(s, p, r) == s[..i] + r
  {
    var j := LineEnd(s, i + |p|);
    assert j == |s|;
    assert s[j..] == [];
  }

  /** Every entry of a table built from pairs comes from one of them. */
  lemma {:induction false} MapOfEntry(pairs: seq<(string, string)>, k: string)
    requires k in MapOf(pairs)
    ensures exists i :: 0 <= i < |pairs| && pairs[i] == (k, MapOf(pairs)[k])
  {
    var init := pairs[..|pairs| - 1];
    var last := pairs[|pairs| - 1];
    if k != last.0 {
      MapOfEntry(init, k);
      var i :| 0 <= i < |init| && init[i] == (k, MapOf(init)[k]);
      assert pairs[i] == init[i];
    }
  }

  /** A pair whose key no later pair repeats gives that key its wording. */
  lemma {:induction false} MapOfPair(pairs: seq<(string, string)>, i: nat)
    requires i < |pairs|
    requires forall j :: i < j < |pairs| ==> pairs[j].0 != pairs[i].0
    ensures pairs[i].0 in MapOf(pairs) && MapOf(pairs)[pairs[i].0] == pairs[i].1
  {
    if i < |pairs| - 1 {
      MapOfPair(pairs[..|pairs| - 1], i);
    }
  }

  /** Each pair's wording is non-empty and differs from its English label. */
  predicate Filled(pairs: seq<(string, string)>)
  {
    forall i :: 0 <= i < |pairs| ==> pairs[i].1 != "" && pairs[i].1 != pairs[i].0
  }

  lemma FilledAppend(xs: seq<(string, string)>, ys: seq<(string, string)>)
    requires Filled(xs) && Filled(ys)
    ensures Filled(xs + ys)
  {
    forall i | 0 <= i < |xs + ys|
      ensures (xs + ys)[i].1 != "" && (xs + ys)[i].1 != (xs + ys)[i].0
    {
      if i >= |xs| {
        assert (xs + ys)[i] == ys[i - |xs|];
      }
    }
  }

  lemma GroupsFilled()
    ensures Filled(INCOME_LABELS) && Filled(PERSONAL_RELIEF_LABELS)
    ensures Filled(FAMILY_RELIEF_LABELS) && Filled(SUMMARY_LABELS)
  {
  }

  /** Every entry of the table is non-empty, so the truthiness test on a
      lookup is plain membership, and every entry differs from its key. */
  lemma BmLabelsFilled()
    ensures forall k :: k in BM_LABELS ==> BM_LABELS[k] != "" && BM_LABELS[k] != k
  {
    GroupsFilled();
    FilledAppend(INCOME_LABELS, PERSONAL_RELIEF_LABELS);
    FilledAppend(INCOME_LABELS + PERSONAL_RELIEF_LABELS, FAMILY_RELIEF_LABELS);
    FilledAppend(INCOME_LABELS + PERSONAL_RELIEF_LABELS + FAMILY_RELIEF_LABELS, SUMMARY_LABELS);
    forall k | k in BM_LABELS
      ensures BM_LABELS[k] != "" && BM_LABELS[k] != k
    {
      MapOfEntry(BM_LABEL_PAIRS, k);
    }
  }

  /** A label in the table gets the table's wording. */
  lemma TableLabel(english: string)
    requires english in BM_LABELS
    ensures GetBmLabel(english) == BM_LABELS[english] && GetBmLabel(english) != english
  {
    BmLabelsFilled();
  }

  /** The six form sections each have a title. */
  lemma SectionTitles()
    ensures BM_SECTION_TITLES.Keys == {"B", "C", "D", "E", "F", "H"}
    ensures forall k :: k in BM_SECTION_TITLES ==> BM_SECTION_TITLES[k] != ""
  {
  }

  /** A label that differs from `p` at a position both have does not start
      with `p`. */
  lemma DiffersAt(s: string, p: string, j: nat)
    requires j < |s| && j < |p| && s[j] != p[j]
    ensures !StartsWith(s, p)
  {
  }

  /** A caption `what + tail` begins with `what`, and `replace` on it swaps
      exactly that prefix. */
  lemma CaptionPrefix(what: string, tail: string, r: string)
    ensures StartsWith(what + tail, what)
    ensures Replace(what + tail, what, r) == r + tail
  {
    assert (what + tail)[..|what|] == what;
    ReplaceAtStart(what + tail, what, r);
    assert (what + tail)[|what|..] == tail;
  }

  /** The per-child captions outside the table get the Bahasa Malaysia name
      of their own group and keep their count and unit amount. */
  lemma ChildrenUnder18Label(count: nat, unit: real)
    requires 0.0 <= unit && PerUnitName("Children under 18", count, unit) !in BM_LABELS
    ensures var s := PerUnitName("Children under 18", count, unit);
            GetBmLabel(s) == "Anak bawah 18 tahun" + s[17..]
  {
    var tail := " (" + NatToString(count) + " × RM" + Grouped(unit.Floor) + ")";
    CaptionPrefix("Children under 18", tail, "Anak bawah 18 tahun");
    assert PerUnitName("Children under 18", count, unit) == "Children under 18" + tail;
  }

  lemma ChildrenHigherEduLabel(count: nat, unit: real)
    requires 0.0 <= unit && PerUnitName("Children higher edu", count, unit) !in BM_LABELS
    ensures var s := PerUnitName("Children higher edu", count, unit);
            GetBmLabel(s) == "Anak pengajian tinggi" + s[19..]
  {
    var tail := " (" + NatToString(count) + " × RM" + Grouped(unit.Floor) + ")";
    var s := "Children higher edu" + tail;
    CaptionPrefix("Children higher edu", tail, "Anak pengajian tinggi");
    assert PerUnitName("Children higher edu", count, unit) == s;
    DiffersAt(s, "Children under 18", 9);
  }

  lemma ChildrenPreULabel(count: nat, unit: real)
    requires 0.0 <= unit && PerUnitName("Children pre-U", count, unit) !in BM_LABELS
    ensures var s := PerUnitName("Children pre-U", count, unit);
            GetBmLabel(s) == "Anak pra-universiti" + s[14..]
  {
    var tail := " (" + NatToString(count) + " × RM" + Grouped(unit.Floor) + ")";
    var s := "Children pre-U" + tail;
    CaptionPrefix("Children pre-U", tail, "Anak pra-universiti");
    assert PerUnitName("Children pre-U", count, unit) == s;
    DiffersAt(s, "Children under 18", 9);
    DiffersAt(s, "Children higher edu", 9);
  }

  /** "Disabled children in higher edu" is tried before "Disabled
      children", so its captions are not read as "Anak kurang upaya"
      followed by " in higher edu". */
  lemma DisabledChildrenInHigherEduLabel(count: nat, unit: real)
    requires 0.0 <= unit && PerUnitName("Disabled children in higher edu", count, unit) !in BM_LABELS
    ensures var s := PerUnitName("Disabled children in higher edu", count, unit);
            GetBmLabel(s) == "Anak OKU dalam pengajian tinggi" + s[31..]
  {
    var tail := " (" + NatToString(count) + " × RM" + Grouped(unit.Floor) + ")";
    var s := "Disabled children in higher edu" + tail;
    CaptionPrefix("Disabled children in higher edu", tail, "Anak OKU dalam pengajian tinggi");
    assert PerUnitName("Disabled children in higher edu", count, unit) == s;
    DiffersAt(s, "Children under 18", 0);
    DiffersAt(s, "Children higher edu", 0);
    DiffersAt(s, "Children pre-U", 0);
  }

  lemma DisabledChildrenLabel(count: nat, unit: real)
    requires 0.0 <= unit && PerUnitName("Disabled children", count, unit) !in BM_LABELS
    ensures var s := PerUnitName("Disabled children", count, unit);
            GetBmLabel(s) == "Anak kurang upaya" + s[17..]
  {
    var tail := " (" + NatToString(count) + " × RM" + Grouped(unit.Floor) + ")";
    var s := "Disabled children" + tail;
    CaptionPrefix("Disabled children", tail, "Anak kurang upaya");
    assert PerUnitName("Disabled children", count, unit) == s;
    DiffersAt(s, "Children under 18", 0);
    DiffersAt(s, "Children higher edu", 0);
    DiffersAt(s, "Children pre-U", 0);
    assert s[18] == '(';
    DiffersAt(s, "Disabled children in higher edu", 18);
  }

  /** The donation caption, which has no line break, outside the table is
      replaced whole by the form's wording. */
  lemma DonationLabel(s: string)
    requires StartsWith(s, "Approved donations")
    requires forall k :: 0 <= k < |s| ==> !IsLineTerminator(s[k])
    requires s !in BM_LABELS
    ensures GetBmLabel(s) == DONATION_BM
  {
    assert At(s, "Approved donations", 0);
    assert IndexOf(s, "Approved donations", 0) == Some(0);
    DiffersAt(s, "Children under 18", 0);
    DiffersAt(s, "Children higher edu", 0);
    DiffersAt(s, "Children pre-U", 0);
    DiffersAt(s, "Disabled children in higher edu", 0);
    DiffersAt(s, "Disabled children", 0);
    DonationBranch(s);
    RestOfLine(s, "Approved donations", DONATION_BM, 0);
    assert s[..0] + DONATION_BM == DONATION_BM;
  }

  /** A label outside the table that starts with no per-child stem but
      mentions approved donations takes the donation branch. */
  lemma DonationBranch(s: string)
    requires s !in BM_LABELS
    requires !StartsWith(s, "Children under 18") && !StartsWith(s, "Children higher edu")
    requires !StartsWith(s, "Children pre-U") && !StartsWith(s, "Disabled children in higher edu")
    requires !StartsWith(s, "Disabled children") && Contains(s, "Approved donations")
    ensures GetBmLabel(s) == ReplaceRestOfLine(s, "Approved donations", DONATION_BM)
  {
  }

  /** The engine's donation caption, when outside the table, reads as the
      form's wording whatever percentage it prints. */
  lemma DonationCaptionLabel()
    requires DonationCaption() !in BM_LABELS
    ensures GetBmLabel(DonationCaption()) == DONATION_BM
  {
    var pct := IntToString(RoundHalfUp(RELIEF_LIMITS.donationPercent * 100.0));
    forall k | 0 <= k < |pct| ensures !IsLineTerminator(pct[k]) {
      assert IsDigit(pct[k]);
    }
    CaptionWithPercent(pct, DonationCaption());
  }

  /** The donation caption with any line-free percentage text. */
  lemma CaptionWithPercent(pct: string, s: string)
    requires forall k :: 0 <= k < |pct| ==> !IsLineTerminator(pct[k])
    requires s == "Approved donations (max " + pct + "% of aggregate income)"
    requires s !in BM_LABELS
    ensures GetBmLabel(s) == DONATION_BM
  {
    CaptionLineFree(pct);
    assert s[..18] == "Approved donations";
    DonationLabel(s);
  }

  lemma CaptionLineFree(pct: string)
    requires forall k :: 0 <= k < |pct| ==> !IsLineTerminator(pct[k])
    ensures var s := "Approved donations (max " + pct + "% of aggregate income)";
            forall k :: 0 <= k < |s| ==> !IsLineTerminator(s[k])
  {
    var head := "Approved donations (max ";
    var rest := "% of aggregate income)";
    var s := head + pct + rest;
    forall k | 0 <= k < |s| ensures !IsLineTerminator(s[k]) {
      if k < |head| {
        assert s[k] == head[k];
      } else if k < |head| + |pct| {
        assert s[k] == pct[k - |head|];
      } else {
        assert s[k] == rest[k - |head| - |pct|];
      }
    }
  }

  /** A label outside the table that starts with none of the per-child
      stems and does not mention approved donations comes back as it is. */
  lemma UnmatchedLabel(s: string)
    requires s !in BM_LABELS
    requires !StartsWith(s, "Children under 18") && !StartsWith(s, "Children higher edu")
    requires !StartsWith(s, "Children pre-U") && !StartsWith(s, "Disabled children")
    requires !Contains(s, "Approved donations")
    ensures GetBmLabel(s) == s
  {
    if StartsWith(s, "Disabled children in higher edu") {
      StartsWithLonger(s, "Disabled children", " in higher edu");
      assert false;
    }
  }

  /** A text that starts with `p + q` starts with `p`. */
  lemma StartsWithLonger(s: string, p: string, q: string)
    requires StartsWith(s, p + q)
    ensures StartsWith(s, p)
  {
    assert s[..|p|] == (p + q)[..|p|];
  }
}
