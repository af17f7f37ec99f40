/** What `computeAll` guarantees, stated over the pure functions
    its method is proved to compute. */
module ReliefProperties {
  import opened Types
  import opened NumberParse
  import opened ReliefLimits
  import opened TaxBrackets
  import opened TaxCalculator
  import opened ReliefEngine

  // ---------------------------------------------------------------------
  // Income and donations

  /** A side income counts only when its own flag is exactly "yes"; net
      rental income is gross less expenses, clamped at zero. */
  lemma IncomeGates(a: Answers)
    ensures !Is(a, "hasRentalIncome", "yes") ==> RentalNet(a) == 0.0
    ensures Is(a, "hasRentalIncome", "yes") ==>
              RentalNet(a) == Max(0.0, P(a, "rentalGross") - P(a, "rentalExpenses"))
    ensures Is(a, "hasRentalIncome", "yes") ==>
              RentalNet(a) >= 0.0 && RentalNet(a) >= P(a, "rentalGross") - P(a, "rentalExpenses")
    ensures RentalNet(a) >= 0.0
    ensures OtherStatutory(a) ==
              (if Is(a, "hasInterestIncome", "yes") then P(a, "interestIncome") else 0.0) +
              (if Is(a, "hasRoyaltyIncome", "yes") then P(a, "royaltyIncome") else 0.0) +
              (if Is(a, "hasPensionIncome", "yes") then P(a, "pensionIncome") else 0.0) +
              (if Is(a, "hasOtherIncome", "yes") then P(a, "otherIncome") else 0.0)
    ensures TotalIncome(a) == P(a, "employmentIncome") + RentalNet(a) + OtherStatutory(a)
    ensures (!Is(a, "hasInterestIncome", "yes") && !Is(a, "hasRoyaltyIncome", "yes") &&
             !Is(a, "hasPensionIncome", "yes") && !Is(a, "hasOtherIncome", "yes")) ==> OtherStatutory(a) == 0.0
    ensures !Is(a, "hasDividendIncome", "yes") ==> Dividend(a) == 0.0
  {
  }

  /** Donations are 0 unless declared, never more than 10% of the bracket
      income, and the income after them is never negative; a non-negative
      gift never raises it. */
  lemma DonationBounds(a: Answers)
    ensures !Is(a, "hasDonations", "yes") ==> Donations(a) == 0.0
    ensures Is(a, "hasDonations", "yes") ==> Donations(a) <= TotalIncome(a) * 0.10
    ensures AfterDeduction(a) >= 0.0
    ensures Donations(a) >= 0.0 ==> AfterDeduction(a) <= Max(0.0, TotalIncome(a))
  {
  }

  // ---------------------------------------------------------------------
  // Dividend isolation

  /** The answers with the two dividend questions answered `flag` and `v`. */
  function WithDividend(a: Answers, flag: string, v: string): Answers
  {
    a["hasDividendIncome" := flag]["dividendIncome" := v]
  }

  /** Any other question reads the same before and after. */
  lemma SameReads(a: Answers, flag: string, v: string, key: string)
    requires key != "dividendIncome" && key != "hasDividendIncome"
    ensures P(WithDividend(a, flag, v), key) == P(a, key) && N(WithDividend(a, flag, v), key) == N(a, key)
    ensures (key in WithDividend(a, flag, v) <==> key in a)
    ensures key in a ==> WithDividend(a, flag, v)[key] == a[key]
  {
  }

  lemma GatedIsolation(a: Answers, flag: string, v: string, gate: string, key: string)
    requires gate != "dividendIncome" && gate != "hasDividendIncome"
    requires key != "dividendIncome" && key != "hasDividendIncome"
    ensures Gated(WithDividend(a, flag, v), gate, key) == Gated(a, gate, key)
  {
    SameReads(a, flag, v, gate);
    SameReads(a, flag, v, key);
  }

  lemma RentalIsolation(a: Answers, flag: string, v: string)
    ensures RentalNet(WithDividend(a, flag, v)) == RentalNet(a)
  {
    SameReads(a, flag, v, "hasRentalIncome");
    SameReads(a, flag, v, "rentalGross");
    SameReads(a, flag, v, "rentalExpenses");
  }

  /** Whatever is answered about dividends, the income the brackets see
      and the income after donations stay the same. */
  lemma DividendIsolation(a: Answers, flag: string, v: string)
    ensures TotalIncome(WithDividend(a, flag, v)) == TotalIncome(a)
    ensures AfterDeduction(WithDividend(a, flag, v)) == AfterDeduction(a)
  {
    var b := WithDividend(a, flag, v);
    SameReads(a, flag, v, "employmentIncome");
    RentalIsolation(a, flag, v);
    GatedIsolation(a, flag, v, "hasInterestIncome", "interestIncome");
    GatedIsolation(a, flag, v, "hasRoyaltyIncome", "royaltyIncome");
    GatedIsolation(a, flag, v, "hasPensionIncome", "pensionIncome");
    GatedIsolation(a, flag, v, "hasOtherIncome", "otherIncome");
    assert TotalIncome(b) == TotalIncome(a);
    GatedIsolation(a, flag, v, "hasDonations", "donationAmount");
    SameReads(a, flag, v, "hasDonations");
  }

  lemma CappedIsolation(a: Answers, flag: string, v: string, gate: string, key: string,
                        cap: real, name: string, ref: string)
    requires gate != "dividendIncome" && gate != "hasDividendIncome"
    requires key != "dividendIncome" && key != "hasDividendIncome"
    ensures Capped(Is(WithDividend(a, flag, v), gate, "yes"), P(WithDividend(a, flag, v), key), cap, name, ref)
         == Capped(Is(a, gate, "yes"), P(a, key), cap, name, ref)
  {
    SameReads(a, flag, v, gate);
    SameReads(a, flag, v, key);
  }

  lemma IsIsolation(a: Answers, flag: string, v: string, key: string, value: string)
    requires key != "dividendIncome" && key != "hasDividendIncome"
    ensures Is(WithDividend(a, flag, v), key, value) == Is(a, key, value)
  {
    SameReads(a, flag, v, key);
  }

  lemma PersonalIsolation(rs: seq<Relief>, a: Answers, flag: string, v: string)
    ensures PersonalReliefs(rs, WithDividend(a, flag, v)) == PersonalReliefs(rs, a)
  {
    var b := WithDividend(a, flag, v);
    IsIsolation(a, flag, v, "maritalStatus", "married");
    IsIsolation(a, flag, v, "maritalStatus", "divorced");
    IsIsolation(a, flag, v, "spouseWorking", "no");
    assert SpouseRelief(b) == SpouseRelief(a);
    IsIsolation(a, flag, v, "isDisabled", "yes");
    IsIsolation(a, flag, v, "spouseDisabled", "yes");
    CappedIsolation(a, flag, v, "selfEducation", "educationAmount", RELIEF_LIMITS.education,
                    English(SelfEducation), "D3");
    CappedIsolation(a, flag, v, "parentsMedical", "parentsMedicalAmount", RELIEF_LIMITS.parentsMedical,
                    English(ParentsMedical), "D4");
    CappedIsolation(a, flag, v, "medicalSelf", "medicalSelfAmount", RELIEF_LIMITS.medicalSelf,
                    English(MedicalSelf), "D5");
    CappedIsolation(a, flag, v, "learningDisability", "learningDisabilityAmount", RELIEF_LIMITS.learningDisability,
                    English(LearningDisability), "D5a");
    CappedIsolation(a, flag, v, "disabledEquipment", "disabledEquipmentAmount", RELIEF_LIMITS.disabledEquipment,
                    English(DisabledEquipment), "D6");
    SameReads(a, flag, v, "lifestyleSpending");
    CappedIsolation(a, flag, v, "additionalSports", "additionalSportsAmount", RELIEF_LIMITS.additionalSports,
                    English(AdditionalSports), "D8");
  }

  lemma ChildIsolation(rs: seq<Relief>, a: Answers, flag: string, v: string)
    ensures ChildReliefs(rs, WithDividend(a, flag, v)) == ChildReliefs(rs, a)
  {
    SameReads(a, flag, v, "childrenUnder18");
    SameReads(a, flag, v, "childrenHigherEdu");
    SameReads(a, flag, v, "childrenPreU");
    SameReads(a, flag, v, "disabledChildren");
    SameReads(a, flag, v, "disabledChildInEdu");
    CappedIsolation(a, flag, v, "hasBreastfeedingChild", "breastfeedingAmount", RELIEF_LIMITS.breastfeeding,
                    English(Breastfeeding), "D13");
    CappedIsolation(a, flag, v, "childcareFees", "childcareAmount", RELIEF_LIMITS.childcare,
                    English(Childcare), "D14");
    CappedIsolation(a, flag, v, "sspnDeposit", "sspnAmount", RELIEF_LIMITS.sspn, English(SspnDeposit), "D15");
    CappedIsolation(a, flag, v, "hasEV", "evAmount", RELIEF_LIMITS.evCharging,
                    English(EvCharging), "D16");
  }

  lemma ContributionIsolation(rs: seq<Relief>, a: Answers, flag: string, v: string)
    ensures ContributionReliefs(rs, WithDividend(a, flag, v)) == ContributionReliefs(rs, a)
  {
    SameReads(a, flag, v, "epfAmount");
    SameReads(a, flag, v, "lifeInsurance");
    SameReads(a, flag, v, "eduMedInsurance");
    SameReads(a, flag, v, "socso");
    SameReads(a, flag, v, "prsAmount");
    IsIsolation(a, flag, v, "prsContribution", "yes");
    HousingIsolation(a, flag, v);
    SameContribution(rs, a, WithDividend(a, flag, v));
  }

  /** Two sets of answers that read the same for every contribution
      question give the same contribution reliefs. */
  lemma SameContribution(rs: seq<Relief>, a: Answers, b: Answers)
    requires P(b, "epfAmount") == P(a, "epfAmount") && P(b, "lifeInsurance") == P(a, "lifeInsurance")
    requires P(b, "eduMedInsurance") == P(a, "eduMedInsurance") && P(b, "socso") == P(a, "socso")
    requires P(b, "prsAmount") == P(a, "prsAmount")
    requires Is(b, "prsContribution", "yes") == Is(a, "prsContribution", "yes")
    requires HousingGate(b) == HousingGate(a) && HousingCap(b) == HousingCap(a)
    requires P(b, "housingInterest") == P(a, "housingInterest")
    ensures ContributionReliefs(rs, b) == ContributionReliefs(rs, a)
  {
  }

  lemma HousingIsolation(a: Answers, flag: string, v: string)
    ensures HousingGate(WithDividend(a, flag, v)) == HousingGate(a)
    ensures HousingCap(WithDividend(a, flag, v)) == HousingCap(a)
    ensures P(WithDividend(a, flag, v), "housingInterest") == P(a, "housingInterest")
  {
    IsIsolation(a, flag, v, "firstHomeLoan", "yes");
    IsIsolation(a, flag, v, "housePrice", "above750k");
    IsIsolation(a, flag, v, "housePrice", "under500k");
    SameReads(a, flag, v, "housingInterest");
  }

  /** Whatever is answered about dividends, the reliefs, the chargeable
      income and the bracket tax stay the same: the dividend reaches the
      tax payable only through the flat-rate term. */
  lemma ReliefsIsolation(a: Answers, flag: string, v: string)
    ensures Reliefs(WithDividend(a, flag, v)) == Reliefs(a)
  {
    var p0: seq<Relief> := [];
    PersonalIsolation(p0, a, flag, v);
    var p1 := PersonalReliefs(p0, a);
    ChildIsolation(p1, a, flag, v);
    var p2 := ChildReliefs(p1, a);
    ContributionIsolation(p2, a, flag, v);
  }

  lemma ChargeableIsolation(a: Answers, flag: string, v: string)
    ensures ChargeableIncome(WithDividend(a, flag, v)) == ChargeableIncome(a)
  {
    ReliefsIsolation(a, flag, v);
    DividendIsolation(a, flag, v);
    SameChargeable(a, WithDividend(a, flag, v));
  }

  lemma SameChargeable(a: Answers, b: Answers)
    requires Reliefs(b) == Reliefs(a) && AfterDeduction(b) == AfterDeduction(a)
    ensures ChargeableIncome(b) == ChargeableIncome(a)
  {
  }

  /** The rebates depend only on zakat, the chargeable income and the
      spouse answers. */
  lemma RebateDependsOn(a: Answers, b: Answers)
    requires Zakat(b) == Zakat(a) && ChargeableIncome(b) == ChargeableIncome(a)
    requires Is(b, "maritalStatus", "married") == Is(a, "maritalStatus", "married")
    requires Is(b, "spouseWorking", "no") == Is(a, "spouseWorking", "no")
    ensures TotalRebate(b) == TotalRebate(a)
  {
  }

  lemma RebateIsolation(a: Answers, flag: string, v: string)
    ensures TotalRebate(WithDividend(a, flag, v)) == TotalRebate(a)
  {
    ChargeableIsolation(a, flag, v);
    SameReads(a, flag, v, "zakatAmount");
    IsIsolation(a, flag, v, "maritalStatus", "married");
    IsIsolation(a, flag, v, "spouseWorking", "no");
    RebateDependsOn(a, WithDividend(a, flag, v));
  }

  /** Whatever is answered about dividends, the chargeable income and the
      rebates stay the same: the dividend reaches the tax payable only
      through the flat-rate term. */
  lemma DividendOnlyTaxedFlat(a: Answers, flag: string, v: string)
    ensures ChargeableIncome(WithDividend(a, flag, v)) == ChargeableIncome(a)
    ensures TotalRebate(WithDividend(a, flag, v)) == TotalRebate(a)
    ensures FinalTax(WithDividend(a, flag, v)) ==
            Max(0.0, Tax(ChargeableIncome(a)) + DividendTax(WithDividend(a, flag, v)) - TotalRebate(a))
  {
    ChargeableIsolation(a, flag, v);
    RebateIsolation(a, flag, v);
  }

  // ---------------------------------------------------------------------
  // The reliefs: first line, positivity, the clamps

  /** Every recorded amount is positive. */
  predicate AllPositive(rs: seq<Relief>)
  {
    forall k :: 0 <= k < |rs| ==> rs[k].amount > 0.0
  }

  /** A capped claim is recorded exactly when its flag holds and the claim
      clamped to the cap is positive, and then it is that clamped value. */
  lemma CappedClamp(flag: bool, claim: real, cap: real, name: string, ref: string)
    ensures |Capped(flag, claim, cap, name, ref)| <= 1
    ensures |Capped(flag, claim, cap, name, ref)| == 1 <==> flag && Min(claim, cap) > 0.0
    ensures |Capped(flag, claim, cap, name, ref)| == 1 ==>
              Capped(flag, claim, cap, name, ref)[0] == Relief(name, Min(claim, cap), ref) &&
              0.0 < Capped(flag, claim, cap, name, ref)[0].amount <= cap &&
              Capped(flag, claim, cap, name, ref)[0].amount <= claim
  {
  }

  lemma PositiveAppend(xs: seq<Relief>, ys: seq<Relief>)
    requires AllPositive(xs) && AllPositive(ys)
    ensures AllPositive(xs + ys)
  {
  }

  lemma WhenPositive(xs: seq<Relief>, cond: bool, r: Relief)
    requires AllPositive(xs) && r.amount > 0.0
    ensures AllPositive(xs + When(cond, r))
  {
  }

  lemma CappedPositive(xs: seq<Relief>, flag: bool, claim: real, cap: real, name: string, ref: string)
    requires AllPositive(xs)
    ensures AllPositive(xs + Capped(flag, claim, cap, name, ref))
  {
  }

  lemma PersonalPositiveHead(rs: seq<Relief>, a: Answers)
    requires AllPositive(rs)
    ensures AllPositive(rs + [INDIVIDUAL] + SpouseRelief(a)
      + When(Is(a, "isDisabled", "yes"), Relief(English(DisabledSelf), RELIEF_LIMITS.disabledSelf, "D2a"))
      + When(Is(a, "spouseDisabled", "yes"), Relief(English(DisabledSpouse), RELIEF_LIMITS.disabledSpouse, "D2b")))
  {
    var x := rs + [INDIVIDUAL] + SpouseRelief(a);
    assert AllPositive(x);
    WhenPositive(x, Is(a, "isDisabled", "yes"), Relief(English(DisabledSelf), RELIEF_LIMITS.disabledSelf, "D2a"));
    x := x + When(Is(a, "isDisabled", "yes"), Relief(English(DisabledSelf), RELIEF_LIMITS.disabledSelf, "D2a"));
    WhenPositive(x, Is(a, "spouseDisabled", "yes"), Relief(English(DisabledSpouse), RELIEF_LIMITS.disabledSpouse, "D2b"));
  }

  lemma PersonalPositiveMiddle(x: seq<Relief>, a: Answers)
    requires AllPositive(x)
    ensures AllPositive(x
      + Capped(Is(a, "selfEducation", "yes"), P(a, "educationAmount"), RELIEF_LIMITS.education,
               English(SelfEducation), "D3")
      + Capped(Is(a, "parentsMedical", "yes"), P(a, "parentsMedicalAmount"), RELIEF_LIMITS.parentsMedical,
               English(ParentsMedical), "D4")
      + Capped(Is(a, "medicalSelf", "yes"), P(a, "medicalSelfAmount"), RELIEF_LIMITS.medicalSelf,
               English(MedicalSelf), "D5"))
  {
    var y := x;
    CappedPositive(y, Is(a, "selfEducation", "yes"), P(a, "educationAmount"), RELIEF_LIMITS.education,
                   English(SelfEducation), "D3");
    y := y + Capped(Is(a, "selfEducation", "yes"), P(a, "educationAmount"), RELIEF_LIMITS.education,
                    English(SelfEducation), "D3");
    CappedPositive(y, Is(a, "parentsMedical", "yes"), P(a, "parentsMedicalAmount"), RELIEF_LIMITS.parentsMedical,
                   English(ParentsMedical), "D4");
    y := y + Capped(Is(a, "parentsMedical", "yes"), P(a, "parentsMedicalAmount"), RELIEF_LIMITS.parentsMedical,
                    English(ParentsMedical), "D4");
    CappedPositive(y, Is(a, "medicalSelf", "yes"), P(a, "medicalSelfAmount"), RELIEF_LIMITS.medicalSelf,
                   English(MedicalSelf), "D5");
  }

  lemma PersonalPositiveTail(x: seq<Relief>, a: Answers)
    requires AllPositive(x)
    ensures AllPositive(x
      + Capped(Is(a, "learningDisability", "yes"), P(a, "learningDisabilityAmount"),
               RELIEF_LIMITS.learningDisability, English(LearningDisability), "D5a")
      + Capped(Is(a, "disabledEquipment", "yes"), P(a, "disabledEquipmentAmount"),
               RELIEF_LIMITS.disabledEquipment, English(DisabledEquipment), "D6")
      + Capped(true, P(a, "lifestyleSpending"), RELIEF_LIMITS.lifestyle,
               English(LifestyleSpending), "D7")
      + Capped(Is(a, "additionalSports", "yes"), P(a, "additionalSportsAmount"),
               RELIEF_LIMITS.additionalSports, English(AdditionalSports), "D8"))
  {
    var y := x;
    CappedPositive(y, Is(a, "learningDisability", "yes"), P(a, "learningDisabilityAmount"),
                   RELIEF_LIMITS.learningDisability, English(LearningDisability), "D5a");
    y := y + Capped(Is(a, "learningDisability", "yes"), P(a, "learningDisabilityAmount"),
                    RELIEF_LIMITS.learningDisability, English(LearningDisability), "D5a");
    CappedPositive(y, Is(a, "disabledEquipment", "yes"), P(a, "disabledEquipmentAmount"),
                   RELIEF_LIMITS.disabledEquipment, English(DisabledEquipment), "D6");
    y := y + Capped(Is(a, "disabledEquipment", "yes"), P(a, "disabledEquipmentAmount"),
                    RELIEF_LIMITS.disabledEquipment, English(DisabledEquipment), "D6");
    CappedPositive(y, true, P(a, "lifestyleSpending"), RELIEF_LIMITS.lifestyle,
                   English(LifestyleSpending), "D7");
    y := y + Capped(true, P(a, "lifestyleSpending"), RELIEF_LIMITS.lifestyle,
                    English(LifestyleSpending), "D7");
    CappedPositive(y, Is(a, "additionalSports", "yes"), P(a, "additionalSportsAmount"),
                   RELIEF_LIMITS.additionalSports, English(AdditionalSports), "D8");
  }

  lemma PersonalPositive(rs: seq<Relief>, a: Answers)
    requires AllPositive(rs)
    ensures AllPositive(PersonalReliefs(rs, a))
  {
    var x := rs + [INDIVIDUAL] + SpouseRelief(a)
      + When(Is(a, "isDisabled", "yes"), Relief(English(DisabledSelf), RELIEF_LIMITS.disabledSelf, "D2a"))
      + When(Is(a, "spouseDisabled", "yes"), Relief(English(DisabledSpouse), RELIEF_LIMITS.disabledSpouse, "D2b"));
    PersonalPositiveHead(rs, a);
    var y := x
      + Capped(Is(a, "selfEducation", "yes"), P(a, "educationAmount"), RELIEF_LIMITS.education,
               English(SelfEducation), "D3")
      + Capped(Is(a, "parentsMedical", "yes"), P(a, "parentsMedicalAmount"), RELIEF_LIMITS.parentsMedical,
               English(ParentsMedical), "D4")
      + Capped(Is(a, "medicalSelf", "yes"), P(a, "medicalSelfAmount"), RELIEF_LIMITS.medicalSelf,
               English(MedicalSelf), "D5");
    PersonalPositiveMiddle(x, a);
    PersonalPositiveTail(y, a);
  }

  lemma ChildPositive(rs: seq<Relief>, a: Answers)
    requires AllPositive(rs)
    ensures AllPositive(ChildReliefs(rs, a))
  {
    ChildPositiveParts(rs, N(a, "childrenUnder18"), N(a, "childrenHigherEdu"), N(a, "childrenPreU"),
                       N(a, "disabledChildren"), N(a, "disabledChildInEdu"),
                       Is(a, "hasBreastfeedingChild", "yes"), P(a, "breastfeedingAmount"),
                       Is(a, "childcareFees", "yes"), P(a, "childcareAmount"),
                       Is(a, "sspnDeposit", "yes"), P(a, "sspnAmount"),
                       Is(a, "hasEV", "yes"), P(a, "evAmount"));
  }

  /** The child section's shape, with its answers as parameters. */
  lemma ChildPositiveParts(rs: seq<Relief>, n1: int, n2: int, n3: int, n4: int, n5: int,
                           f1: bool, c1: real, f2: bool, c2: real, f3: bool, c3: real, f4: bool, c4: real)
    requires AllPositive(rs)
    ensures AllPositive(rs
      + PerUnit(n1, RELIEF_LIMITS.childUnder18, English(ChildrenUnder18), "D9")
      + PerUnit(n2, RELIEF_LIMITS.childHigherEdu, English(ChildrenHigherEdu), "D10a")
      + PerUnit(n3, RELIEF_LIMITS.childPreU, English(ChildrenPreU), "D10b")
      + PerUnit(n4, RELIEF_LIMITS.disabledChild, English(DisabledChildren), "D11")
      + PerUnit(n5, RELIEF_LIMITS.disabledChildHigherEdu, English(DisabledChildrenHigherEdu), "D12")
      + Capped(f1, c1, RELIEF_LIMITS.breastfeeding, English(Breastfeeding), "D13")
      + Capped(f2, c2, RELIEF_LIMITS.childcare, English(Childcare), "D14")
      + Capped(f3, c3, RELIEF_LIMITS.sspn, English(SspnDeposit), "D15")
      + Capped(f4, c4, RELIEF_LIMITS.evCharging, English(EvCharging), "D16"))
  {
    var y := rs;
    PerUnitPositive(y, n1, RELIEF_LIMITS.childUnder18, English(ChildrenUnder18), "D9");
    y := y + PerUnit(n1, RELIEF_LIMITS.childUnder18, English(ChildrenUnder18), "D9");
    PerUnitPositive(y, n2, RELIEF_LIMITS.childHigherEdu, English(ChildrenHigherEdu), "D10a");
    y := y + PerUnit(n2, RELIEF_LIMITS.childHigherEdu, English(ChildrenHigherEdu), "D10a");
    PerUnitPositive(y, n3, RELIEF_LIMITS.childPreU, English(ChildrenPreU), "D10b");
    y := y + PerUnit(n3, RELIEF_LIMITS.childPreU, English(ChildrenPreU), "D10b");
    PerUnitPositive(y, n4, RELIEF_LIMITS.disabledChild, English(DisabledChildren), "D11");
    y := y + PerUnit(n4, RELIEF_LIMITS.disabledChild, English(DisabledChildren), "D11");
    PerUnitPositive(y, n5, RELIEF_LIMITS.disabledChildHigherEdu, English(DisabledChildrenHigherEdu), "D12");
    y := y + PerUnit(n5, RELIEF_LIMITS.disabledChildHigherEdu, English(DisabledChildrenHigherEdu), "D12");
    CappedPositive(y, f1, c1, RELIEF_LIMITS.breastfeeding, English(Breastfeeding), "D13");
    y := y + Capped(f1, c1, RELIEF_LIMITS.breastfeeding, English(Breastfeeding), "D13");
    CappedPositive(y, f2, c2, RELIEF_LIMITS.childcare, English(Childcare), "D14");
    y := y + Capped(f2, c2, RELIEF_LIMITS.childcare, English(Childcare), "D14");
    CappedPositive(y, f3, c3, RELIEF_LIMITS.sspn, English(SspnDeposit), "D15");
    y := y + Capped(f3, c3, RELIEF_LIMITS.sspn, English(SspnDeposit), "D15");
    CappedPositive(y, f4, c4, RELIEF_LIMITS.evCharging, English(EvCharging), "D16");
  }

  lemma PerUnitPositive(xs: seq<Relief>, count: int, unit: real, what: string, ref: string)
    requires AllPositive(xs) && 0.0 < unit
    ensures AllPositive(xs + PerUnit(count, unit, what, ref))
  {
  }

  lemma ContributionPositive(rs: seq<Relief>, a: Answers)
    requires AllPositive(rs)
    ensures AllPositive(ContributionReliefs(rs, a))
  {
  }

  /** The first relief is always the RM9,000 individual relief (D1), and no
      relief is recorded with a zero or negative amount. */
  lemma ReliefsShape(a: Answers)
    ensures |Reliefs(a)| >= 1
    ensures Reliefs(a)[0] == INDIVIDUAL
    ensures Reliefs(a)[0].ref == "D1" && Reliefs(a)[0].amount == 9000.0
    ensures AllPositive(Reliefs(a))
  {
    var p0: seq<Relief> := [];
    var p1 := PersonalReliefs(p0, a);
    assert p1[0] == INDIVIDUAL;
    PersonalPositive(p0, a);
    var p2 := ChildReliefs(p1, a);
    assert p2[0] == INDIVIDUAL;
    ChildPositive(p1, a);
    ContributionPositive(p2, a);
  }

  // ---------------------------------------------------------------------
  // Totals, rebates and the tax

  /** The left fold of `reduce` splits over a concatenation. */
  lemma {:induction false} SumAppend(xs: seq<Relief>, ys: seq<Relief>)
    ensures SumAmounts(xs + ys) == SumAmounts(xs) + SumAmounts(ys)
    decreases |ys|
  {
    if ys != [] {
      var zs := ys[..|ys| - 1];
      assert (xs + ys)[..|xs + ys| - 1] == xs + zs;
      SumAppend(xs, zs);
    } else {
      assert xs + ys == xs;
    }
  }

  lemma {:induction false} SumPositive(rs: seq<Relief>)
    requires AllPositive(rs)
    ensures SumAmounts(rs) >= 0.0
    ensures rs != [] ==> SumAmounts(rs) > 0.0
    decreases |rs|
  {
    if rs != [] {
      SumPositive(rs[..|rs| - 1]);
    }
  }

  /** With every amount positive, the total is at least the first amount. */
  lemma SumAtLeastFirst(rs: seq<Relief>)
    requires AllPositive(rs) && rs != []
    ensures SumAmounts(rs) >= rs[0].amount
  {
    assert rs == [rs[0]] + rs[1..];
    SumAppend([rs[0]], rs[1..]);
    assert SumAmounts([rs[0]]) == rs[0].amount by {
      assert [rs[0]][..0] == [];
    }
    SumPositive(rs[1..]);
  }

  /** The total relief is at least the RM9,000 individual relief, so the
      chargeable income is never negative and never more than the income
      after donations less RM9,000; the tax payable is never negative. */
  lemma TotalsBounds(a: Answers)
    ensures TotalRelief(a) >= 9000.0
    ensures 0.0 <= ChargeableIncome(a) <= Max(0.0, AfterDeduction(a) - 9000.0)
    ensures ChargeableIncome(a) <= AfterDeduction(a)
    ensures FinalTax(a) >= 0.0
    ensures FinalTax(a) >= Tax(ChargeableIncome(a)) + DividendTax(a) - TotalRebate(a)
  {
    ReliefsShape(a);
    SumAtLeastFirst(Reliefs(a));
    DonationBounds(a);
  }

  /** The self rebate is RM400 exactly when the chargeable income is at
      most RM35,000; the spouse rebate is RM400 exactly when, in addition,
      the taxpayer is married to a spouse without income; zakat is passed
      through uncapped. */
  lemma RebateRules(a: Answers)
    ensures SelfRebate(ChargeableIncome(a)) == 400.0 <==> ChargeableIncome(a) <= 35000.0
    ensures SelfRebate(ChargeableIncome(a)) == 0.0 <==> ChargeableIncome(a) > 35000.0
    ensures SpouseRebate(a, ChargeableIncome(a)) == 400.0 <==>
              (ChargeableIncome(a) <= 35000.0 && Is(a, "maritalStatus", "married") && Is(a, "spouseWorking", "no"))
    ensures SpouseRebate(a, ChargeableIncome(a)) == 0.0 || SpouseRebate(a, ChargeableIncome(a)) == 400.0
    ensures SpouseRebate(a, ChargeableIncome(a)) <= SelfRebate(ChargeableIncome(a))
    ensures TotalRebate(a) - Zakat(a) == 0.0 || TotalRebate(a) - Zakat(a) == 400.0 || TotalRebate(a) - Zakat(a) == 800.0
    ensures Zakat(a) == P(a, "zakatAmount")
  {
  }

  /** When the dividend tax does not exceed the rebates, claiming the
      reliefs never costs more than claiming the individual relief alone. */
  lemma TaxSavedNonNegative(a: Answers)
    requires DividendTax(a) <= TotalRebate(a)
    ensures TaxSaved(a) >= 0.0
  {
    TotalsBounds(a);
    TaxMonotone(ChargeableIncome(a), Max(0.0, AfterDeduction(a) - RELIEF_LIMITS.individual));
  }

  /** The tax saved compares the bracket tax alone with the final tax, which
      also carries the dividend tax: with no income but RM100,000 of
      dividends (RM2,000 dividend tax, less the RM400 self rebate) the
      figure reported as saved is -1600. */
  lemma DividendMakesSavingNegative(a: Answers)
    requires AfterDeduction(a) == 0.0 && Zakat(a) == 0.0 && DividendTax(a) == 2000.0
    requires !Is(a, "maritalStatus", "married")
    ensures ChargeableIncome(a) == 0.0 && TotalRebate(a) == 400.0
    ensures FinalTax(a) == 1600.0
    ensures TaxSaved(a) == -1600.0
  {
    TotalsBounds(a);
    var chargeable := ChargeableIncome(a);
    RebateParts(AfterDeduction(a), chargeable, Zakat(a), SpouseRebate(a, chargeable), TotalRebate(a));
    FinalParts(chargeable, DividendTax(a), TotalRebate(a), FinalTax(a),
               Max(0.0, AfterDeduction(a) - RELIEF_LIMITS.individual), TaxSaved(a));
  }

  /** With nothing left after donations the chargeable income is 0, so only
      the self rebate applies. */
  lemma RebateParts(after: real, chargeable: real, zakat: real, spouse: real, rebate: real)
    requires after == 0.0 && 0.0 <= chargeable <= Max(0.0, after - 9000.0)
    requires zakat == 0.0 && spouse == 0.0
    requires rebate == zakat + SelfRebate(chargeable) + spouse
    ensures chargeable == 0.0 && rebate == 400.0
  {
  }

  /** The final tax is the dividend tax less the rebate, and the tax saved
      its negation. */
  lemma FinalParts(chargeable: real, dividendTax: real, rebate: real, final: real, base: real, saved: real)
    requires chargeable == 0.0 && dividendTax == 2000.0 && rebate == 400.0 && base == 0.0
    requires final == Max(0.0, Tax(chargeable) + dividendTax - rebate)
    requires saved == Tax(base) - final
    ensures final == 1600.0 && saved == -1600.0
  {
    assert Tax(0.0) == 0.0;
  }

  // ---------------------------------------------------------------------
  // The reliefs of one line of the form

  /** The reliefs recorded under form line `ref`, in order. */
  function WithRef(rs: seq<Relief>, ref: string): (out: seq<Relief>)
    ensures |out| <= |rs|
    ensures forall k :: 0 <= k < |out| ==> out[k].ref == ref && out[k] in rs
  {
    if rs == [] then []
    else WithRef(rs[..|rs| - 1], ref) + When(rs[|rs| - 1].ref == ref, rs[|rs| - 1])
  }

  lemma {:induction false} WithRefAppend(xs: seq<Relief>, ys: seq<Relief>, ref: string)
    ensures WithRef(xs + ys, ref) == WithRef(xs, ref) + WithRef(ys, ref)
    decreases |ys|
  {
    if ys == [] {
      assert xs + ys == xs;
    } else {
      var zs := ys[..|ys| - 1];
      assert (xs + ys)[..|xs + ys| - 1] == xs + zs;
      WithRefAppend(xs, zs, ref);
    }
  }

  /** Appending reliefs of other lines leaves line `ref` as it was. */
  lemma WithRefSkip(xs: seq<Relief>, ys: seq<Relief>, ref: string)
    requires |ys| <= 1 && forall k :: 0 <= k < |ys| ==> ys[k].ref != ref
    ensures WithRef(xs + ys, ref) == WithRef(xs, ref)
  {
    if ys == [] {
      assert xs + ys == xs;
    } else {
      var zs := xs + ys;
      assert zs[..|zs| - 1] == xs && zs[|zs| - 1] == ys[0];
      assert ys == [ys[0]];
    }
  }

  lemma WithRefSkipWhen(xs: seq<Relief>, cond: bool, r: Relief, ref: string)
    requires r.ref != ref
    ensures WithRef(xs + When(cond, r), ref) == WithRef(xs, ref)
  {
    WithRefSkip(xs, When(cond, r), ref);
  }

  lemma WithRefSkipCapped(xs: seq<Relief>, flag: bool, claim: real, cap: real, name: string, r: string, ref: string)
    requires r != ref
    ensures WithRef(xs + Capped(flag, claim, cap, name, r), ref) == WithRef(xs, ref)
  {
    WithRefSkip(xs, Capped(flag, claim, cap, name, r), ref);
  }

  lemma PersonalRefsHead(rs: seq<Relief>, a: Answers, ref: string)
    requires ref == "D17" || ref == "D21"
    ensures WithRef(rs + [INDIVIDUAL] + SpouseRelief(a), ref) == WithRef(rs, ref)
  {
    WithRefSkip(rs, [INDIVIDUAL], ref);
    WithRefSkip(rs + [INDIVIDUAL], SpouseRelief(a), ref);
  }

  lemma PersonalRefsMiddle(x: seq<Relief>, a: Answers, ref: string)
    requires ref == "D17" || ref == "D21"
    ensures WithRef(x
      + When(Is(a, "isDisabled", "yes"), Relief(English(DisabledSelf), RELIEF_LIMITS.disabledSelf, "D2a"))
      + When(Is(a, "spouseDisabled", "yes"), Relief(English(DisabledSpouse), RELIEF_LIMITS.disabledSpouse, "D2b"))
      + Capped(Is(a, "selfEducation", "yes"), P(a, "educationAmount"), RELIEF_LIMITS.education, English(SelfEducation), "D3")
      + Capped(Is(a, "parentsMedical", "yes"), P(a, "parentsMedicalAmount"), RELIEF_LIMITS.parentsMedical, English(ParentsMedical), "D4")
      + Capped(Is(a, "medicalSelf", "yes"), P(a, "medicalSelfAmount"), RELIEF_LIMITS.medicalSelf, English(MedicalSelf), "D5"), ref) == WithRef(x, ref)
  {
    var y := x;
    WithRefSkipWhen(y, Is(a, "isDisabled", "yes"), Relief(English(DisabledSelf), RELIEF_LIMITS.disabledSelf, "D2a"), ref);
    y := y + When(Is(a, "isDisabled", "yes"), Relief(English(DisabledSelf), RELIEF_LIMITS.disabledSelf, "D2a"));
    WithRefSkipWhen(y, Is(a, "spouseDisabled", "yes"), Relief(English(DisabledSpouse), RELIEF_LIMITS.disabledSpouse, "D2b"), ref);
    y := y + When(Is(a, "spouseDisabled", "yes"), Relief(English(DisabledSpouse), RELIEF_LIMITS.disabledSpouse, "D2b"));
    WithRefSkipCapped(y, Is(a, "selfEducation", "yes"), P(a, "educationAmount"), RELIEF_LIMITS.education, English(SelfEducation), "D3", ref);
    y := y + Capped(Is(a, "selfEducation", "yes"), P(a, "educationAmount"), RELIEF_LIMITS.education, English(SelfEducation), "D3");
    WithRefSkipCapped(y, Is(a, "parentsMedical", "yes"), P(a, "parentsMedicalAmount"), RELIEF_LIMITS.parentsMedical, English(ParentsMedical), "D4", ref);
    y := y + Capped(Is(a, "parentsMedical", "yes"), P(a, "parentsMedicalAmount"), RELIEF_LIMITS.parentsMedical, English(ParentsMedical), "D4");
    WithRefSkipCapped(y, Is(a, "medicalSelf", "yes"), P(a, "medicalSelfAmount"), RELIEF_LIMITS.medicalSelf, English(MedicalSelf), "D5", ref);
  }

  lemma PersonalRefsTail(x: seq<Relief>, a: Answers, ref: string)
    requires ref == "D17" || ref == "D21"
    ensures WithRef(x
      + Capped(Is(a, "learningDisability", "yes"), P(a, "learningDisabilityAmount"), RELIEF_LIMITS.learningDisability, English(LearningDisability), "D5a")
      + Capped(Is(a, "disabledEquipment", "yes"), P(a, "disabledEquipmentAmount"), RELIEF_LIMITS.disabledEquipment, English(DisabledEquipment), "D6")
      + Capped(true, P(a, "lifestyleSpending"), RELIEF_LIMITS.lifestyle, English(LifestyleSpending), "D7")
      + Capped(Is(a, "additionalSports", "yes"), P(a, "additionalSportsAmount"), RELIEF_LIMITS.additionalSports, English(AdditionalSports), "D8"), ref) == WithRef(x, ref)
  {
    var y := x;
    WithRefSkipCapped(y, Is(a, "learningDisability", "yes"), P(a, "learningDisabilityAmount"), RELIEF_LIMITS.learningDisability, English(LearningDisability), "D5a", ref);
    y := y + Capped(Is(a, "learningDisability", "yes"), P(a, "learningDisabilityAmount"), RELIEF_LIMITS.learningDisability, English(LearningDisability), "D5a");
    WithRefSkipCapped(y, Is(a, "disabledEquipment", "yes"), P(a, "disabledEquipmentAmount"), RELIEF_LIMITS.disabledEquipment, English(DisabledEquipment), "D6", ref);
    y := y + Capped(Is(a, "disabledEquipment", "yes"), P(a, "disabledEquipmentAmount"), RELIEF_LIMITS.disabledEquipment, English(DisabledEquipment), "D6");
    WithRefSkipCapped(y, true, P(a, "lifestyleSpending"), RELIEF_LIMITS.lifestyle, English(LifestyleSpending), "D7", ref);
    y := y + Capped(true, P(a, "lifestyleSpending"), RELIEF_LIMITS.lifestyle, English(LifestyleSpending), "D7");
    WithRefSkipCapped(y, Is(a, "additionalSports", "yes"), P(a, "additionalSportsAmount"), RELIEF_LIMITS.additionalSports, English(AdditionalSports), "D8", ref);
  }

  lemma ChildRefsHead(x: seq<Relief>, n1: int, n2: int, n3: int, n4: int, n5: int, ref: string)
    requires ref == "D17" || ref == "D21"
    ensures WithRef(x
      + PerUnit(n1, RELIEF_LIMITS.childUnder18, English(ChildrenUnder18), "D9")
      + PerUnit(n2, RELIEF_LIMITS.childHigherEdu, English(ChildrenHigherEdu), "D10a")
      + PerUnit(n3, RELIEF_LIMITS.childPreU, English(ChildrenPreU), "D10b")
      + PerUnit(n4, RELIEF_LIMITS.disabledChild, English(DisabledChildren), "D11")
      + PerUnit(n5, RELIEF_LIMITS.disabledChildHigherEdu, English(DisabledChildrenHigherEdu), "D12"), ref) == WithRef(x, ref)
  {
    var y := x;
    WithRefSkipPerUnit(y, n1, RELIEF_LIMITS.childUnder18, English(ChildrenUnder18), "D9", ref);
    y := y + PerUnit(n1, RELIEF_LIMITS.childUnder18, English(ChildrenUnder18), "D9");
    WithRefSkipPerUnit(y, n2, RELIEF_LIMITS.childHigherEdu, English(ChildrenHigherEdu), "D10a", ref);
    y := y + PerUnit(n2, RELIEF_LIMITS.childHigherEdu, English(ChildrenHigherEdu), "D10a");
    WithRefSkipPerUnit(y, n3, RELIEF_LIMITS.childPreU, English(ChildrenPreU), "D10b", ref);
    y := y + PerUnit(n3, RELIEF_LIMITS.childPreU, English(ChildrenPreU), "D10b");
    WithRefSkipPerUnit(y, n4, RELIEF_LIMITS.disabledChild, English(DisabledChildren), "D11", ref);
    y := y + PerUnit(n4, RELIEF_LIMITS.disabledChild, English(DisabledChildren), "D11");
    WithRefSkipPerUnit(y, n5, RELIEF_LIMITS.disabledChildHigherEdu, English(DisabledChildrenHigherEdu), "D12", ref);
  }

  lemma WithRefSkipPerUnit(xs: seq<Relief>, count: int, unit: real, what: string, r: string, ref: string)
    requires 0.0 <= unit && r != ref
    ensures WithRef(xs + PerUnit(count, unit, what, r), ref) == WithRef(xs, ref)
  {
    WithRefSkip(xs, PerUnit(count, unit, what, r), ref);
  }

  lemma ChildRefsTail(x: seq<Relief>, a: Answers, ref: string)
    requires ref == "D17" || ref == "D21"
    ensures WithRef(x
      + Capped(Is(a, "hasBreastfeedingChild", "yes"), P(a, "breastfeedingAmount"), RELIEF_LIMITS.breastfeeding, English(Breastfeeding), "D13")
      + Capped(Is(a, "childcareFees", "yes"), P(a, "childcareAmount"), RELIEF_LIMITS.childcare, English(Childcare), "D14")
      + Capped(Is(a, "sspnDeposit", "yes"), P(a, "sspnAmount"), RELIEF_LIMITS.sspn, English(SspnDeposit), "D15")
      + Capped(Is(a, "hasEV", "yes"), P(a, "evAmount"), RELIEF_LIMITS.evCharging, English(EvCharging), "D16"), ref) == WithRef(x, ref)
  {
    var y := x;
    WithRefSkipCapped(y, Is(a, "hasBreastfeedingChild", "yes"), P(a, "breastfeedingAmount"), RELIEF_LIMITS.breastfeeding, English(Breastfeeding), "D13", ref);
    y := y + Capped(Is(a, "hasBreastfeedingChild", "yes"), P(a, "breastfeedingAmount"), RELIEF_LIMITS.breastfeeding, English(Breastfeeding), "D13");
    WithRefSkipCapped(y, Is(a, "childcareFees", "yes"), P(a, "childcareAmount"), RELIEF_LIMITS.childcare, English(Childcare), "D14", ref);
    y := y + Capped(Is(a, "childcareFees", "yes"), P(a, "childcareAmount"), RELIEF_LIMITS.childcare, English(Childcare), "D14");
    WithRefSkipCapped(y, Is(a, "sspnDeposit", "yes"), P(a, "sspnAmount"), RELIEF_LIMITS.sspn, English(SspnDeposit), "D15", ref);
    y := y + Capped(Is(a, "sspnDeposit", "yes"), P(a, "sspnAmount"), RELIEF_LIMITS.sspn, English(SspnDeposit), "D15");
    WithRefSkipCapped(y, Is(a, "hasEV", "yes"), P(a, "evAmount"), RELIEF_LIMITS.evCharging, English(EvCharging), "D16", ref);
  }

  lemma WithRefKeep(xs: seq<Relief>, ys: seq<Relief>, ref: string)
    requires |ys| <= 1 && forall k :: 0 <= k < |ys| ==> ys[k].ref == ref
    ensures WithRef(xs + ys, ref) == WithRef(xs, ref) + ys
  {
    if ys == [] {
      assert xs + ys == xs;
    } else {
      var zs := xs + ys;
      assert zs[..|zs| - 1] == xs && zs[|zs| - 1] == ys[0];
      assert ys == [ys[0]];
    }
  }

  lemma WithRefKeepCapped(xs: seq<Relief>, flag: bool, claim: real, cap: real, name: string, ref: string)
    ensures WithRef(xs + Capped(flag, claim, cap, name, ref), ref) == WithRef(xs, ref) + Capped(flag, claim, cap, name, ref)
  {
    WithRefKeep(xs, Capped(flag, claim, cap, name, ref), ref);
  }

  /** The contribution section adds at most one EPF line. */
  lemma ContributionEpfRef(rs: seq<Relief>, a: Answers)
    ensures WithRef(ContributionReliefs(rs, a), "D17") == WithRef(rs, "D17") +
      Capped(true, Min(P(a, "epfAmount"), RELIEF_LIMITS.epf) + Min(P(a, "lifeInsurance"), RELIEF_LIMITS.lifeInsurance),
             RELIEF_LIMITS.epfLifeCombined, English(EpfAndLife), "D17")
  {
    var x := rs + Capped(true, Min(P(a, "epfAmount"), RELIEF_LIMITS.epf) + Min(P(a, "lifeInsurance"), RELIEF_LIMITS.lifeInsurance),
                         RELIEF_LIMITS.epfLifeCombined, English(EpfAndLife), "D17");
    WithRefKeepCapped(rs, true, Min(P(a, "epfAmount"), RELIEF_LIMITS.epf) + Min(P(a, "lifeInsurance"), RELIEF_LIMITS.lifeInsurance),
                      RELIEF_LIMITS.epfLifeCombined, English(EpfAndLife), "D17");
    WithRefSkipCapped(x, true, P(a, "eduMedInsurance"), RELIEF_LIMITS.eduMedInsurance, English(EduMedInsurance), "D18", "D17");
    x := x + Capped(true, P(a, "eduMedInsurance"), RELIEF_LIMITS.eduMedInsurance, English(EduMedInsurance), "D18");
    WithRefSkipCapped(x, true, P(a, "socso"), RELIEF_LIMITS.socso, English(SocsoEis), "D19", "D17");
    x := x + Capped(true, P(a, "socso"), RELIEF_LIMITS.socso, English(SocsoEis), "D19");
    WithRefSkipCapped(x, Is(a, "prsContribution", "yes"), P(a, "prsAmount"), RELIEF_LIMITS.prs,
                      English(RetirementScheme), "D20", "D17");
    x := x + Capped(Is(a, "prsContribution", "yes"), P(a, "prsAmount"), RELIEF_LIMITS.prs,
                    English(RetirementScheme), "D20");
    WithRefSkipCapped(x, HousingGate(a), P(a, "housingInterest"), HousingCap(a), English(HousingInterest), "D21", "D17");
  }

  /** The contribution section adds at most one housing line, the last. */
  lemma ContributionHousingRef(rs: seq<Relief>, a: Answers)
    ensures WithRef(ContributionReliefs(rs, a), "D21") == WithRef(rs, "D21") +
      Capped(HousingGate(a), P(a, "housingInterest"), HousingCap(a), English(HousingInterest), "D21")
  {
    ContributionHousingParts(rs, Min(P(a, "epfAmount"), RELIEF_LIMITS.epf) + Min(P(a, "lifeInsurance"), RELIEF_LIMITS.lifeInsurance),
                             P(a, "eduMedInsurance"), P(a, "socso"), Is(a, "prsContribution", "yes"), P(a, "prsAmount"),
                             HousingGate(a), P(a, "housingInterest"), HousingCap(a));
  }

  /** The contribution section's shape, with its answers as parameters. */
  lemma ContributionHousingParts(rs: seq<Relief>, c0: real, c1: real, c2: real, f3: bool, c3: real,
                                 f4: bool, c4: real, cap4: real)
    ensures WithRef(rs
      + Capped(true, c0, RELIEF_LIMITS.epfLifeCombined, English(EpfAndLife), "D17")
      + Capped(true, c1, RELIEF_LIMITS.eduMedInsurance, English(EduMedInsurance), "D18")
      + Capped(true, c2, RELIEF_LIMITS.socso, English(SocsoEis), "D19")
      + Capped(f3, c3, RELIEF_LIMITS.prs, English(RetirementScheme), "D20")
      + Capped(f4, c4, cap4, English(HousingInterest), "D21"), "D21") ==
      WithRef(rs, "D21") + Capped(f4, c4, cap4, English(HousingInterest), "D21")
  {
    var x := rs;
    WithRefSkipCapped(x, true, c0, RELIEF_LIMITS.epfLifeCombined, English(EpfAndLife), "D17", "D21");
    x := x + Capped(true, c0, RELIEF_LIMITS.epfLifeCombined, English(EpfAndLife), "D17");
    WithRefSkipCapped(x, true, c1, RELIEF_LIMITS.eduMedInsurance, English(EduMedInsurance), "D18", "D21");
    x := x + Capped(true, c1, RELIEF_LIMITS.eduMedInsurance, English(EduMedInsurance), "D18");
    WithRefSkipCapped(x, true, c2, RELIEF_LIMITS.socso, English(SocsoEis), "D19", "D21");
    x := x + Capped(true, c2, RELIEF_LIMITS.socso, English(SocsoEis), "D19");
    WithRefSkipCapped(x, f3, c3, RELIEF_LIMITS.prs, English(RetirementScheme), "D20", "D21");
    x := x + Capped(f3, c3, RELIEF_LIMITS.prs, English(RetirementScheme), "D20");
    WithRefKeepCapped(x, f4, c4, cap4, English(HousingInterest), "D21");
  }

  /** Lines D1 to D16 never carry the EPF or housing reliefs. */
  lemma EarlierRefs(a: Answers, ref: string)
    requires ref == "D17" || ref == "D21"
    ensures WithRef(ChildReliefs(PersonalReliefs([], a), a), ref) == []
  {
    var p0: seq<Relief> := [];
    PersonalRefsHead(p0, a, ref);
    var x := p0 + [INDIVIDUAL] + SpouseRelief(a);
    PersonalRefsMiddle(x, a, ref);
    var y := x
      + When(Is(a, "isDisabled", "yes"), Relief(English(DisabledSelf), RELIEF_LIMITS.disabledSelf, "D2a"))
      + When(Is(a, "spouseDisabled", "yes"), Relief(English(DisabledSpouse), RELIEF_LIMITS.disabledSpouse, "D2b"))
      + Capped(Is(a, "selfEducation", "yes"), P(a, "educationAmount"), RELIEF_LIMITS.education,
               English(SelfEducation), "D3")
      + Capped(Is(a, "parentsMedical", "yes"), P(a, "parentsMedicalAmount"), RELIEF_LIMITS.parentsMedical,
               English(ParentsMedical), "D4")
      + Capped(Is(a, "medicalSelf", "yes"), P(a, "medicalSelfAmount"), RELIEF_LIMITS.medicalSelf,
               English(MedicalSelf), "D5");
    PersonalRefsTail(y, a, ref);
    var p1 := PersonalReliefs(p0, a);
    assert WithRef(p1, ref) == [];
    ChildRefsHead(p1, N(a, "childrenUnder18"), N(a, "childrenHigherEdu"), N(a, "childrenPreU"),
                  N(a, "disabledChildren"), N(a, "disabledChildInEdu"), ref);
    var z := p1
      + PerUnit(N(a, "childrenUnder18"), RELIEF_LIMITS.childUnder18, English(ChildrenUnder18), "D9")
      + PerUnit(N(a, "childrenHigherEdu"), RELIEF_LIMITS.childHigherEdu, English(ChildrenHigherEdu), "D10a")
      + PerUnit(N(a, "childrenPreU"), RELIEF_LIMITS.childPreU, English(ChildrenPreU), "D10b")
      + PerUnit(N(a, "disabledChildren"), RELIEF_LIMITS.disabledChild, English(DisabledChildren), "D11")
      + PerUnit(N(a, "disabledChildInEdu"), RELIEF_LIMITS.disabledChildHigherEdu,
                English(DisabledChildrenHigherEdu), "D12");
    ChildRefsTail(z, a, ref);
  }

  /** EPF and life insurance are clamped to RM4,000 and RM3,000 each and
      then together to RM7,000; line D17 holds exactly that amount when it
      is positive and is absent otherwise. */
  lemma EpfLifeRelief(a: Answers)
    ensures WithRef(Reliefs(a), "D17") ==
              When(EpfLife(a) > 0.0, Relief(English(EpfAndLife), EpfLife(a), "D17"))
    ensures EpfLife(a) <= 7000.0
    ensures EpfLife(a) <= Min(P(a, "epfAmount"), 4000.0) + Min(P(a, "lifeInsurance"), 3000.0)
    ensures P(a, "epfAmount") >= 4000.0 && P(a, "lifeInsurance") >= 3000.0 ==> EpfLife(a) == 7000.0
    ensures P(a, "epfAmount") == 5000.0 && P(a, "lifeInsurance") == 3000.0 ==> EpfLife(a) == 7000.0
  {
    EpfLifeLine(a);
  }

  /** Line D17 is the one capped claim the contribution section records. */
  lemma EpfLifeLine(a: Answers)
    ensures WithRef(Reliefs(a), "D17") ==
      Capped(true, Min(P(a, "epfAmount"), RELIEF_LIMITS.epf) + Min(P(a, "lifeInsurance"), RELIEF_LIMITS.lifeInsurance),
             RELIEF_LIMITS.epfLifeCombined, English(EpfAndLife), "D17")
  {
    ContributionEpfRef(ChildReliefs(PersonalReliefs([], a), a), a);
    EarlierRefs(a, "D17");
  }

  /** The housing-loan interest (line D21) is claimed only for a first home
      not priced above RM750k, up to RM7,000 under RM500k and RM5,000
      otherwise. */
  lemma HousingRelief(a: Answers)
    ensures WithRef(Reliefs(a), "D21") ==
              When(HousingGate(a) && Min(P(a, "housingInterest"), HousingCap(a)) > 0.0,
                   Relief(English(HousingInterest), Min(P(a, "housingInterest"), HousingCap(a)), "D21"))
    ensures HousingGate(a) <==> Is(a, "firstHomeLoan", "yes") && !Is(a, "housePrice", "above750k")
    ensures HousingCap(a) == if Is(a, "housePrice", "under500k") then 7000.0 else 5000.0
    ensures |WithRef(Reliefs(a), "D21")| == 1 ==>
              Is(a, "firstHomeLoan", "yes") && !Is(a, "housePrice", "above750k") &&
              0.0 < WithRef(Reliefs(a), "D21")[0].amount <= HousingCap(a)
  {
    HousingLine(a);
  }

  /** Line D21 is the one gated claim the contribution section ends with. */
  lemma HousingLine(a: Answers)
    ensures WithRef(Reliefs(a), "D21") ==
      Capped(HousingGate(a), P(a, "housingInterest"), HousingCap(a), English(HousingInterest), "D21")
  {
    ContributionHousingRef(ChildReliefs(PersonalReliefs([], a), a), a);
    EarlierRefs(a, "D21");
  }

  // ---------------------------------------------------------------------
  // The form lines

  /** The income lines: C1 to C3, then C3a exactly when there is a
      dividend, then the aggregate C4 (bracket income plus the dividend),
      then C7 exactly when a donation is deducted. */
  lemma IncomeFieldsShape(a: Answers, fs: seq<FormField>)
    requires fs == IncomeFields(a)
    ensures |fs| == 4 + (if Dividend(a) > 0.0 then 1 else 0) + (if Donations(a) > 0.0 then 1 else 0)
    ensures fs[0].ref == "C1" && fs[0].value == Employment(a)
    ensures fs[1].ref == "C2" && fs[1].value == RentalNet(a)
    ensures fs[2].ref == "C3" && fs[2].value == OtherStatutory(a)
    ensures Dividend(a) > 0.0 ==> fs[3].ref == "C3a" && fs[3].value == Dividend(a)
    ensures var k := if Dividend(a) > 0.0 then 4 else 3;
            fs[k].ref == "C4" && fs[k].value == TotalIncome(a) + Dividend(a)
    ensures Donations(a) > 0.0 ==> fs[|fs| - 1].ref == "C7" && fs[|fs| - 1].value == Donations(a)
  {
    IncomeFieldsUnfold(a);
    IncomeLinesShape(fs, Employment(a), RentalNet(a), OtherStatutory(a), Dividend(a),
                     TotalIncome(a), Donations(a));
  }

  lemma IncomeFieldsUnfold(a: Answers)
    ensures IncomeFields(a) ==
      [FormField("B", "C1", English(EmploymentLine), Employment(a), Employment(a) > 0.0, false),
       FormField("B", "C2", English(RentalLine), RentalNet(a), RentalNet(a) > 0.0, false),
       FormField("B", "C3", English(OtherIncomeLine), OtherStatutory(a), OtherStatutory(a) > 0.0, false)]
      + When(Dividend(a) > 0.0, FormField("B", "C3a", English(DividendLine), Dividend(a), true, false))
      + [FormField("C", "C4", English(AggregateIncomeLine), TotalIncome(a) + Dividend(a), true, false)]
      + When(Donations(a) > 0.0, FormField("C", "C7", DonationCaption(), Donations(a), true, false))
  {
  }

  /** The shape of the income lines, with the amounts as parameters. */
  lemma IncomeLinesShape(fs: seq<FormField>, employment: real, rentalNet: real, otherStatutory: real,
                         dividend: real, totalIncome: real, donations: real)
    requires fs ==
      [FormField("B", "C1", English(EmploymentLine), employment, employment > 0.0, false),
       FormField("B", "C2", English(RentalLine), rentalNet, rentalNet > 0.0, false),
       FormField("B", "C3", English(OtherIncomeLine),
                 otherStatutory, otherStatutory > 0.0, false)]
      + When(dividend > 0.0,
             FormField("B", "C3a", English(DividendLine),
                       dividend, true, false))
      + [FormField("C", "C4", English(AggregateIncomeLine), totalIncome + dividend, true, false)]
      + When(donations > 0.0, FormField("C", "C7", DonationCaption(), donations, true, false))
    ensures |fs| == 4 + (if dividend > 0.0 then 1 else 0) + (if donations > 0.0 then 1 else 0)
    ensures fs[0].ref == "C1" && fs[0].value == employment
    ensures fs[1].ref == "C2" && fs[1].value == rentalNet
    ensures fs[2].ref == "C3" && fs[2].value == otherStatutory
    ensures dividend > 0.0 ==> fs[3].ref == "C3a" && fs[3].value == dividend
    ensures var k := if dividend > 0.0 then 4 else 3;
            fs[k].ref == "C4" && fs[k].value == totalIncome + dividend
    ensures donations > 0.0 ==> fs[|fs| - 1].ref == "C7" && fs[|fs| - 1].value == donations
  {
  }

  /** The shape of the summary pushes, whatever the lines hold. */
  lemma SummaryShape<T>(fs: seq<T>, total: T, e1: T, e2: T, c1: bool, x1: T, c2: bool, x2: T,
                        c3: bool, x3: T, c4: bool, x4: T, last: T)
    ensures var out := fs + [total] + [e1] + [e2] + When(c1, x1) + When(c2, x2) + When(c3, x3) + When(c4, x4) + [last];
            |out| >= |fs| + 4 && |out| >= 4 && out[..|fs|] == fs && out[|fs|] == total && out[|fs| + 1] == e1 &&
            out[|out| - 1] == last
  {
  }

  lemma SummaryFieldsUnfold(fs: seq<FormField>, a: Answers)
    ensures SummaryFields(fs, a) ==
      fs
      + [FormField("D", "D_TOTAL", English(TotalReliefsLine), TotalRelief(a), true, true)]
      + [FormField("E", "E1", English(ChargeableLine), ChargeableIncome(a), true, true)]
      + [FormField("E", "E2", English(TaxOnChargeableLine), Tax(ChargeableIncome(a)), true, false)]
      + When(DividendTax(a) > 0.0, FormField("E", "E2a", English(DividendTaxLine), DividendTax(a), true, false))
      + When(Zakat(a) > 0.0, FormField("F", "F1", English(ZakatLine), Zakat(a), true, false))
      + When(SelfRebate(ChargeableIncome(a)) > 0.0,
             FormField("F", "F2", English(SelfRebateLine), SelfRebate(ChargeableIncome(a)), true, false))
      + When(SpouseRebate(a, ChargeableIncome(a)) > 0.0,
             FormField("F", "F3", English(SpouseRebateLine), SpouseRebate(a, ChargeableIncome(a)), true, false))
      + [FormField("E", "E_FINAL", English(TaxPayableLine), FinalTax(a), true, true)]
  {
  }

  /** The summary lines keep the lines before them. */
  lemma SummaryKeeps(fs: seq<FormField>, a: Answers)
    ensures |SummaryFields(fs, a)| >= |fs| + 4
    ensures SummaryFields(fs, a)[..|fs|] == fs
  {
    SummaryFieldsUnfold(fs, a);
    SummaryShape(fs,
      FormField("D", "D_TOTAL", English(TotalReliefsLine), TotalRelief(a), true, true),
      FormField("E", "E1", English(ChargeableLine), ChargeableIncome(a), true, true),
      FormField("E", "E2", English(TaxOnChargeableLine), Tax(ChargeableIncome(a)), true, false),
      DividendTax(a) > 0.0, FormField("E", "E2a", English(DividendTaxLine), DividendTax(a), true, false),
      Zakat(a) > 0.0, FormField("F", "F1", English(ZakatLine), Zakat(a), true, false),
      SelfRebate(ChargeableIncome(a)) > 0.0,
      FormField("F", "F2", English(SelfRebateLine), SelfRebate(ChargeableIncome(a)), true, false),
      SpouseRebate(a, ChargeableIncome(a)) > 0.0,
      FormField("F", "F3", English(SpouseRebateLine), SpouseRebate(a, ChargeableIncome(a)), true, false),
      FormField("E", "E_FINAL", English(TaxPayableLine), FinalTax(a), true, true));
  }

  /** The first summary line is the relief total. */
  lemma SummaryTotal(fs: seq<FormField>, a: Answers)
    ensures |SummaryFields(fs, a)| >= |fs| + 4
    ensures SummaryFields(fs, a)[|fs|] == FormField("D", "D_TOTAL", English(TotalReliefsLine), TotalRelief(a), true, true)
  {
    SummaryFieldsUnfold(fs, a);
    SummaryShape(fs,
      FormField("D", "D_TOTAL", English(TotalReliefsLine), TotalRelief(a), true, true),
      FormField("E", "E1", English(ChargeableLine), ChargeableIncome(a), true, true),
      FormField("E", "E2", English(TaxOnChargeableLine), Tax(ChargeableIncome(a)), true, false),
      DividendTax(a) > 0.0, FormField("E", "E2a", English(DividendTaxLine), DividendTax(a), true, false),
      Zakat(a) > 0.0, FormField("F", "F1", English(ZakatLine), Zakat(a), true, false),
      SelfRebate(ChargeableIncome(a)) > 0.0,
      FormField("F", "F2", English(SelfRebateLine), SelfRebate(ChargeableIncome(a)), true, false),
      SpouseRebate(a, ChargeableIncome(a)) > 0.0,
      FormField("F", "F3", English(SpouseRebateLine), SpouseRebate(a, ChargeableIncome(a)), true, false),
      FormField("E", "E_FINAL", English(TaxPayableLine), FinalTax(a), true, true));
  }

  /** The last summary line is the tax payable. */
  lemma SummaryLast(fs: seq<FormField>, a: Answers)
    ensures |SummaryFields(fs, a)| >= 4
    ensures SummaryFields(fs, a)[|SummaryFields(fs, a)| - 1] ==
              FormField("E", "E_FINAL", English(TaxPayableLine), FinalTax(a), true, true)
  {
    SummaryFieldsUnfold(fs, a);
    SummaryShape(fs,
      FormField("D", "D_TOTAL", English(TotalReliefsLine), TotalRelief(a), true, true),
      FormField("E", "E1", English(ChargeableLine), ChargeableIncome(a), true, true),
      FormField("E", "E2", English(TaxOnChargeableLine), Tax(ChargeableIncome(a)), true, false),
      DividendTax(a) > 0.0, FormField("E", "E2a", English(DividendTaxLine), DividendTax(a), true, false),
      Zakat(a) > 0.0, FormField("F", "F1", English(ZakatLine), Zakat(a), true, false),
      SelfRebate(ChargeableIncome(a)) > 0.0,
      FormField("F", "F2", English(SelfRebateLine), SelfRebate(ChargeableIncome(a)), true, false),
      SpouseRebate(a, ChargeableIncome(a)) > 0.0,
      FormField("F", "F3", English(SpouseRebateLine), SpouseRebate(a, ChargeableIncome(a)), true, false),
      FormField("E", "E_FINAL", English(TaxPayableLine), FinalTax(a), true, true));
  }

  /** Every relief has its own section-D line (with the same reference,
      caption and amount, by the contract of `ReliefFields`), in the same
      order, right after the income lines. */
  lemma FormFieldsMirrorReliefs(a: Answers)
    ensures |FormFields(a)| >= |IncomeFields(a)| + |Reliefs(a)| + 4
    ensures FormFields(a)[..|IncomeFields(a)| + |Reliefs(a)|] == IncomeFields(a) + ReliefFields(Reliefs(a))
  {
    FormFieldsUnfold(a);
    SummaryPrefix(IncomeFields(a), Reliefs(a), a);
  }

  lemma FormFieldsUnfold(a: Answers)
    ensures FormFields(a) == SummaryFields(IncomeFields(a) + ReliefFields(Reliefs(a)), a)
  {
  }

  lemma SummaryPrefix(inc: seq<FormField>, rs: seq<Relief>, a: Answers)
    ensures |SummaryFields(inc + ReliefFields(rs), a)| >= |inc| + |rs| + 4
    ensures SummaryFields(inc + ReliefFields(rs), a)[..|inc| + |rs|] == inc + ReliefFields(rs)
  {
    var fs := inc + ReliefFields(rs);
    SummaryKeeps(fs, a);
    PrefixOfLines(SummaryFields(fs, a), inc, rs);
  }

  lemma PrefixOfLines(all: seq<FormField>, inc: seq<FormField>, rs: seq<Relief>)
    requires |all| >= |inc + ReliefFields(rs)| + 4 && all[..|inc + ReliefFields(rs)|] == inc + ReliefFields(rs)
    ensures |all| >= |inc| + |rs| + 4 && all[..|inc| + |rs|] == inc + ReliefFields(rs)
  {
  }

  /** The D_TOTAL line that follows the relief lines holds the sum of the
      reliefs, and the last line is the tax payable. */
  lemma FormFieldsTotals(a: Answers)
    ensures |FormFields(a)| >= |IncomeFields(a)| + |Reliefs(a)| + 4
    ensures FormFields(a)[|IncomeFields(a)| + |Reliefs(a)|] ==
              FormField("D", "D_TOTAL", English(TotalReliefsLine), SumAmounts(Reliefs(a)), true, true)
    ensures FormFields(a)[|FormFields(a)| - 1] == FormField("E", "E_FINAL", English(TaxPayableLine), FinalTax(a), true, true)
  {
    TotalLine(a);
    PayableLine(a);
  }

  lemma TotalLine(a: Answers)
    ensures |FormFields(a)| >= |IncomeFields(a)| + |Reliefs(a)| + 4
    ensures FormFields(a)[|IncomeFields(a)| + |Reliefs(a)|] ==
              FormField("D", "D_TOTAL", English(TotalReliefsLine), SumAmounts(Reliefs(a)), true, true)
  {
    FormFieldsUnfold(a);
    TotalReliefUnfold(a);
    SummaryTotalAt(IncomeFields(a), Reliefs(a), a);
  }

  lemma TotalReliefUnfold(a: Answers)
    ensures TotalRelief(a) == SumAmounts(Reliefs(a))
  {
  }

  lemma SummaryTotalAt(inc: seq<FormField>, rs: seq<Relief>, a: Answers)
    ensures |SummaryFields(inc + ReliefFields(rs), a)| >= |inc| + |rs| + 4
    ensures SummaryFields(inc + ReliefFields(rs), a)[|inc| + |rs|] ==
              FormField("D", "D_TOTAL", English(TotalReliefsLine), TotalRelief(a), true, true)
  {
    var fs := inc + ReliefFields(rs);
    SummaryTotal(fs, a);
    LinesLength(inc, rs);
  }

  lemma LinesLength(inc: seq<FormField>, rs: seq<Relief>)
    ensures |inc + ReliefFields(rs)| == |inc| + |rs|
  {
  }

  lemma PayableLine(a: Answers)
    ensures |FormFields(a)| >= 4
    ensures FormFields(a)[|FormFields(a)| - 1] == FormField("E", "E_FINAL", English(TaxPayableLine), FinalTax(a), true, true)
  {
    FormFieldsUnfold(a);
    SummaryLast(IncomeFields(a) + ReliefFields(Reliefs(a)), a);
  }

  // ---------------------------------------------------------------------
  // Missed opportunities

  predicate PotentialsPositive(ms: seq<MissedOpportunity>)
  {
    forall k :: 0 <= k < |ms| ==> ms[k].potential > 0.0
  }

  lemma WhenPotential(ms: seq<MissedOpportunity>, cond: bool, m: MissedOpportunity)
    requires PotentialsPositive(ms) && (cond ==> m.potential > 0.0)
    ensures PotentialsPositive(ms + When(cond, m))
    ensures |ms + When(cond, m)| <= |ms| + 1
  {
  }

  lemma PersonalMissedPositive(ms: seq<MissedOpportunity>, a: Answers)
    requires PotentialsPositive(ms)
    ensures PotentialsPositive(PersonalMissed(ms, a)) && |PersonalMissed(ms, a)| <= |ms| + 2
  {
    var m1 := MissedOpportunity("Education fees", RELIEF_LIMITS.education, EDUCATION_TIP);
    var m2 := MissedOpportunity("Lifestyle relief", RELIEF_LIMITS.lifestyle - Lifestyle(a), LIFESTYLE_TIP);
    WhenPotential(ms, !Is(a, "selfEducation", "yes"), m1);
    WhenPotential(ms + When(!Is(a, "selfEducation", "yes"), m1), Lifestyle(a) < RELIEF_LIMITS.lifestyle, m2);
  }

  lemma ContributionMissedPositive(ms: seq<MissedOpportunity>, a: Answers)
    requires PotentialsPositive(ms)
    ensures PotentialsPositive(ContributionMissed(ms, a)) && |ContributionMissed(ms, a)| <= |ms| + 3
  {
    var m1 := MissedOpportunity("EPF & life insurance", RELIEF_LIMITS.epfLifeCombined - EpfLife(a), EPF_TIP);
    var m2 := MissedOpportunity("Medical / education insurance", RELIEF_LIMITS.eduMedInsurance - EduMed(a), EDU_MED_TIP);
    var m3 := MissedOpportunity("PRS contribution", RELIEF_LIMITS.prs, PRS_TIP);
    var x := ms;
    WhenPotential(x, EpfLife(a) < RELIEF_LIMITS.epfLifeCombined, m1);
    x := x + When(EpfLife(a) < RELIEF_LIMITS.epfLifeCombined, m1);
    WhenPotential(x, EduMed(a) < RELIEF_LIMITS.eduMedInsurance, m2);
    x := x + When(EduMed(a) < RELIEF_LIMITS.eduMedInsurance, m2);
    WhenPotential(x, !Is(a, "prsContribution", "yes"), m3);
  }

  /** Every missed-opportunity note promises a positive saving, and there
      are at most six of them. */
  lemma MissedPositive(a: Answers)
    ensures |Missed(a)| <= 6
    ensures forall k :: 0 <= k < |Missed(a)| ==> Missed(a)[k].potential > 0.0
  {
    var m0: seq<MissedOpportunity> := [];
    PersonalMissedPositive(m0, a);
    var m1 := PersonalMissed(m0, a);
    WhenPotential(m1, !Is(a, "sspnDeposit", "yes") && Is(a, "hasChildren", "yes"),
                  MissedOpportunity("SSPN deposit", RELIEF_LIMITS.sspn, SSPN_TIP));
    var m2 := ChildMissed(m1, a);
    ContributionMissedPositive(m2, a);
  }

  // ---------------------------------------------------------------------
  // Worked examples

  /** Only the employment-income question has been answered (if any). */
  predicate SalaryOnly(a: Answers)
  {
    forall key :: key in a ==> key == "employmentIncome"
  }

  /** A question other than the salary reads as unanswered. */
  lemma Unanswered(a: Answers, key: string)
    requires SalaryOnly(a) && key != "employmentIncome"
    ensures P(a, key) == 0.0 && N(a, key) == 0
    ensures !Is(a, key, "yes")
  {
    AbsentReadsZero(a, key);
  }

  lemma SalaryOnlyPersonal(a: Answers)
    requires SalaryOnly(a)
    ensures PersonalReliefs([], a) == [INDIVIDUAL]
  {
    assert !Is(a, "maritalStatus", "married") && !Is(a, "maritalStatus", "divorced");
    Unanswered(a, "isDisabled");
    Unanswered(a, "spouseDisabled");
    Unanswered(a, "selfEducation");
    Unanswered(a, "parentsMedical");
    Unanswered(a, "medicalSelf");
    Unanswered(a, "learningDisability");
    Unanswered(a, "disabledEquipment");
    Unanswered(a, "lifestyleSpending");
    Unanswered(a, "additionalSports");
  }

  lemma SalaryOnlyChild(rs: seq<Relief>, a: Answers)
    requires SalaryOnly(a)
    ensures ChildReliefs(rs, a) == rs
  {
    Unanswered(a, "childrenUnder18");
    Unanswered(a, "childrenHigherEdu");
    Unanswered(a, "childrenPreU");
    Unanswered(a, "disabledChildren");
    Unanswered(a, "disabledChildInEdu");
    Unanswered(a, "hasBreastfeedingChild");
    Unanswered(a, "childcareFees");
    Unanswered(a, "sspnDeposit");
    Unanswered(a, "hasEV");
  }

  lemma SalaryOnlyContribution(rs: seq<Relief>, a: Answers)
    requires SalaryOnly(a)
    ensures ContributionReliefs(rs, a) == rs
  {
    Unanswered(a, "epfAmount");
    Unanswered(a, "lifeInsurance");
    Unanswered(a, "eduMedInsurance");
    Unanswered(a, "socso");
    Unanswered(a, "prsContribution");
    Unanswered(a, "firstHomeLoan");
  }

  lemma SalaryOnlyReliefs(a: Answers)
    requires SalaryOnly(a)
    ensures Reliefs(a) == [INDIVIDUAL]
    ensures TotalRelief(a) == 9000.0
  {
    SalaryOnlyPersonal(a);
    SalaryOnlyChild([INDIVIDUAL], a);
    SalaryOnlyContribution([INDIVIDUAL], a);
    assert SumAmounts([INDIVIDUAL]) == 9000.0 by {
      assert [INDIVIDUAL][..0] == [];
    }
  }

  lemma SalaryOnlyMissed(a: Answers)
    requires SalaryOnly(a)
    ensures |Missed(a)| == 5
  {
    Unanswered(a, "selfEducation");
    Unanswered(a, "lifestyleSpending");
    Unanswered(a, "sspnDeposit");
    Unanswered(a, "epfAmount");
    Unanswered(a, "lifeInsurance");
    Unanswered(a, "eduMedInsurance");
    Unanswered(a, "prsContribution");
    assert Lifestyle(a) == 0.0 && EpfLife(a) == 0.0 && EduMed(a) == 0.0;
  }

  lemma SalaryOnlyIncome(a: Answers)
    requires SalaryOnly(a)
    ensures TotalIncome(a) == Employment(a)
    ensures AfterDeduction(a) == Max(0.0, Employment(a))
    ensures Dividend(a) == 0.0 && Zakat(a) == 0.0
  {
    Unanswered(a, "hasRentalIncome");
    Unanswered(a, "hasInterestIncome");
    Unanswered(a, "hasRoyaltyIncome");
    Unanswered(a, "hasPensionIncome");
    Unanswered(a, "hasOtherIncome");
    Unanswered(a, "hasDividendIncome");
    Unanswered(a, "hasDonations");
    Unanswered(a, "zakatAmount");
  }

  /** A taxpayer who declares only a salary claims the individual relief
      alone, is offered five notes, and pays the bracket tax on the salary
      less RM9,000, less the RM400 self rebate when that is at most RM35,000. */
  lemma SalaryOnlyTax(a: Answers)
    requires SalaryOnly(a)
    ensures ChargeableIncome(a) == Max(0.0, Max(0.0, Employment(a)) - 9000.0)
    ensures TotalRebate(a) == SelfRebate(ChargeableIncome(a))
    ensures FinalTax(a) == Max(0.0, Tax(ChargeableIncome(a)) - SelfRebate(ChargeableIncome(a)))
    ensures Reliefs(a) == [INDIVIDUAL] && |Missed(a)| == 5
  {
    SalaryOnlyReliefs(a);
    SalaryOnlyMissed(a);
    SalaryOnlyChargeable(a);
    SalaryOnlyRebate(a);
    SalaryOnlyIncome(a);
  }

  lemma SalaryOnlyRebate(a: Answers)
    requires SalaryOnly(a)
    ensures TotalRebate(a) == SelfRebate(ChargeableIncome(a))
  {
    SalaryOnlyIncome(a);
    assert !Is(a, "maritalStatus", "married");
  }

  lemma SalaryOnlyChargeable(a: Answers)
    requires SalaryOnly(a)
    ensures ChargeableIncome(a) == Max(0.0, Max(0.0, Employment(a)) - 9000.0)
  {
    SalaryOnlyReliefs(a);
    SalaryOnlyIncome(a);
  }

  lemma SixtyThousandRead()
    ensures Employment(map["employmentIncome" := "60000"]) == 60000.0
  {
    SixtyThousandParse();
  }

  lemma SixtyThousandParse()
    ensures FloatOrZero("60000") == 60000.0
  {
    ParseNatToString(60000);
    SixtyThousandDigits();
  }

  lemma SixtyThousandDigits()
    ensures NatToString(60000) == "60000"
  {
    SixThousandDigits();
    assert NatToString(60000) == NatToString(6000) + ['0'];
  }

  lemma SixThousandDigits()
    ensures NatToString(6000) == "6000"
  {
    assert NatToString(6) == "6";
    assert NatToString(60) == "60";
    assert NatToString(600) == "600";
  }

  /** Nothing answered: no income, no tax, and nothing saved. */
  lemma NothingAnsweredExample()
    ensures ChargeableIncome(map[]) == 0.0 && FinalTax(map[]) == 0.0
    ensures TaxSaved(map[]) == 0.0
  {
    AbsentReadsZero(map[], "employmentIncome");
    NoSalaryNoTax(map[]);
    SalaryOnlyIncome(map[]);
    TaxExamples();
  }

  /** A taxpayer who declares no positive salary and nothing else owes
      nothing. */
  lemma NoSalaryNoTax(a: Answers)
    requires SalaryOnly(a) && Employment(a) <= 0.0
    ensures ChargeableIncome(a) == 0.0 && FinalTax(a) == 0.0
  {
    SalaryOnlyTax(a);
    TaxExamples();
  }

  /** A salary of RM60,000 alone: chargeable income RM51,000, no rebate,
      RM1,610 payable. */
  lemma SalaryOf60000(a: Answers)
    requires SalaryOnly(a) && Employment(a) == 60000.0
    ensures ChargeableIncome(a) == 51000.0
    ensures FinalTax(a) == 1610.0
  {
    SalaryOnlyTax(a);
    TaxExamples();
  }

  lemma SixtyThousandExample()
    ensures ChargeableIncome(map["employmentIncome" := "60000"]) == 51000.0
    ensures FinalTax(map["employmentIncome" := "60000"]) == 1610.0
  {
    SixtyThousandRead();
    SalaryOf60000(map["employmentIncome" := "60000"]);
  }
}
