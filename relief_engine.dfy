/** `computeAll`: from one snapshot of wizard answers to the reliefs
    claimed, the reliefs missed, the lines of Form BE and the tax.

    The pure arithmetic (the `p`/`n` readers, income, donations, totals,
    rebates) is written as functions. The arrays the source grows with
    `push` are built by the methods at the end of the module, each proved to
    produce exactly what the pure functions of this module describe. */
module ReliefEngine {
  import opened Types
  import opened NumberParse
  import opened ReliefLimits
  import opened TaxCalculator

  // ---------------------------------------------------------------------
  // Reading answers

  /** `v ?? '0'`: the answer, or "0" when the question was never answered. */
  function Raw(a: Answers, key: string): string
  {
    if key in a then a[key] else "0"
  }

  /** `p(a.key)`: parseFloat, with NaN read as 0. */
  function P(a: Answers, key: string): real
  {
    FloatOrZero(Raw(a, key))
  }

  /** `n(a.key)`: parseInt, with NaN read as 0. */
  function N(a: Answers, key: string): int
  {
    IntOrZero(Raw(a, key))
  }

  /** An unanswered question reads as 0 through either reader. */
  lemma AbsentReadsZero(a: Answers, key: string)
    requires key !in a
    ensures P(a, key) == 0.0 && N(a, key) == 0
  {
    ParseNatToString(0);
    assert NatToString(0) == "0";
  }

  // ---------------------------------------------------------------------
  // Income

  function Employment(a: Answers): real
  {
    P(a, "employmentIncome")
  }

  /** An income that counts only when its own flag is exactly "yes". */
  function Gated(a: Answers, flag: string, key: string): real
  {
    if Is(a, flag, "yes") then P(a, key) else 0.0
  }

  function RentalNet(a: Answers): real
  {
    if Is(a, "hasRentalIncome", "yes") then Max(0.0, P(a, "rentalGross") - P(a, "rentalExpenses")) else 0.0
  }

  /** Interest, royalties, pensions and other income together. */
  function OtherStatutory(a: Answers): real
  {
    Gated(a, "hasInterestIncome", "interestIncome") + Gated(a, "hasRoyaltyIncome", "royaltyIncome") +
    Gated(a, "hasPensionIncome", "pensionIncome") + Gated(a, "hasOtherIncome", "otherIncome")
  }

  function Dividend(a: Answers): real
  {
    Gated(a, "hasDividendIncome", "dividendIncome")
  }

  /** The income the progressive brackets apply to; dividends stay out. */
  function TotalIncome(a: Answers): real
  {
    Employment(a) + RentalNet(a) + OtherStatutory(a)
  }

  function Donations(a: Answers): real
  {
    if Is(a, "hasDonations", "yes")
    then Min(P(a, "donationAmount"), TotalIncome(a) * RELIEF_LIMITS.donationPercent)
    else 0.0
  }

  function AfterDeduction(a: Answers): real
  {
    Max(0.0, TotalIncome(a) - Donations(a))
  }

  // ---------------------------------------------------------------------
  // Reliefs and missed opportunities, as pure functions the pushes are proved against.
  // Each section takes the array built so far and appends to it, as the
  // source's three shared arrays grow.

  /** One element, present only when `cond` holds: a conditional `push`. */
  function When<T>(cond: bool, x: T): seq<T>
  {
    if cond then [x] else []
  }

  /** `addRelief` of a capped claim: recorded only when its flag holds and
      the claim clamped to the cap is positive. */
  function Capped(flag: bool, claim: real, cap: real, name: string, ref: string): seq<Relief>
  {
    var v := Min(claim, cap);
    When(flag && v > 0.0, Relief(name, v, ref))
  }

  /** `n × RM<unit>`, the caption of a per-child relief. */
  function PerUnitName(what: string, count: nat, unit: real): string
    requires 0.0 <= unit
  {
    what + " (" + NatToString(count) + " × RM" + Grouped(unit.Floor) + ")"
  }

  /** A per-child relief: `count × unit`, recorded when the count is positive. */
  function PerUnit(count: int, unit: real, what: string, ref: string): seq<Relief>
    requires 0.0 <= unit
  {
    if count > 0 then [Relief(PerUnitName(what, count, unit), count as real * unit, ref)] else []
  }

  function SpouseRelief(a: Answers): seq<Relief>
  {
    if Is(a, "maritalStatus", "married") && Is(a, "spouseWorking", "no") then
      [Relief(English(SpouseNoIncome), RELIEF_LIMITS.spouse, "D2")]
    else if Is(a, "maritalStatus", "divorced") then
      [Relief(English(Alimony), RELIEF_LIMITS.spouse, "D2")]
    else []
  }

  function Lifestyle(a: Answers): real
  {
    Min(P(a, "lifestyleSpending"), RELIEF_LIMITS.lifestyle)
  }

  /** EPF and life insurance each clamped, then clamped together. */
  function EpfLife(a: Answers): real
  {
    Min(Min(P(a, "epfAmount"), RELIEF_LIMITS.epf) + Min(P(a, "lifeInsurance"), RELIEF_LIMITS.lifeInsurance),
        RELIEF_LIMITS.epfLifeCombined)
  }

  function EduMed(a: Answers): real
  {
    Min(P(a, "eduMedInsurance"), RELIEF_LIMITS.eduMedInsurance)
  }

  /** The housing-loan relief applies to a first home not above RM750k. */
  predicate HousingGate(a: Answers)
  {
    Is(a, "firstHomeLoan", "yes") && !Is(a, "housePrice", "above750k")
  }

  function HousingCap(a: Answers): real
  {
    if Is(a, "housePrice", "under500k") then RELIEF_LIMITS.housingLoanUnder500k
    else RELIEF_LIMITS.housingLoan500kTo750k
  }

  const INDIVIDUAL := Relief(English(IndividualSelf), RELIEF_LIMITS.individual, "D1")

  /** D1 to D8 appended to `rs`: the individual, spouse, disability and
      personal reliefs. */
  function PersonalReliefs(rs: seq<Relief>, a: Answers): seq<Relief>
  {
    rs + [INDIVIDUAL]
    + SpouseRelief(a)
    + When(Is(a, "isDisabled", "yes"), Relief(English(DisabledSelf), RELIEF_LIMITS.disabledSelf, "D2a"))
    + When(Is(a, "spouseDisabled", "yes"), Relief(English(DisabledSpouse), RELIEF_LIMITS.disabledSpouse, "D2b"))
    + Capped(Is(a, "selfEducation", "yes"), P(a, "educationAmount"), RELIEF_LIMITS.education,
             English(SelfEducation), "D3")
    + Capped(Is(a, "parentsMedical", "yes"), P(a, "parentsMedicalAmount"), RELIEF_LIMITS.parentsMedical,
             English(ParentsMedical), "D4")
    + Capped(Is(a, "medicalSelf", "yes"), P(a, "medicalSelfAmount"), RELIEF_LIMITS.medicalSelf,
             English(MedicalSelf), "D5")
    + Capped(Is(a, "learningDisability", "yes"), P(a, "learningDisabilityAmount"), RELIEF_LIMITS.learningDisability,
             English(LearningDisability), "D5a")
    + Capped(Is(a, "disabledEquipment", "yes"), P(a, "disabledEquipmentAmount"), RELIEF_LIMITS.disabledEquipment,
             English(DisabledEquipment), "D6")
    + Capped(true, P(a, "lifestyleSpending"), RELIEF_LIMITS.lifestyle,
             English(LifestyleSpending), "D7")
    + Capped(Is(a, "additionalSports", "yes"), P(a, "additionalSportsAmount"), RELIEF_LIMITS.additionalSports,
             English(AdditionalSports), "D8")
  }

  /** D9 to D16 appended to `rs`: the per-child counts and the
      child-related claims. */
  function ChildReliefs(rs: seq<Relief>, a: Answers): seq<Relief>
  {
    rs
    + PerUnit(N(a, "childrenUnder18"), RELIEF_LIMITS.childUnder18, English(ChildrenUnder18), "D9")
    + PerUnit(N(a, "childrenHigherEdu"), RELIEF_LIMITS.childHigherEdu, English(ChildrenHigherEdu), "D10a")
    + PerUnit(N(a, "childrenPreU"), RELIEF_LIMITS.childPreU, English(ChildrenPreU), "D10b")
    + PerUnit(N(a, "disabledChildren"), RELIEF_LIMITS.disabledChild, English(DisabledChildren), "D11")
    + PerUnit(N(a, "disabledChildInEdu"), RELIEF_LIMITS.disabledChildHigherEdu,
              English(DisabledChildrenHigherEdu), "D12")
    + Capped(Is(a, "hasBreastfeedingChild", "yes"), P(a, "breastfeedingAmount"), RELIEF_LIMITS.breastfeeding,
             English(Breastfeeding), "D13")
    + Capped(Is(a, "childcareFees", "yes"), P(a, "childcareAmount"), RELIEF_LIMITS.childcare,
             English(Childcare), "D14")
    + Capped(Is(a, "sspnDeposit", "yes"), P(a, "sspnAmount"), RELIEF_LIMITS.sspn, English(SspnDeposit), "D15")
    + Capped(Is(a, "hasEV", "yes"), P(a, "evAmount"), RELIEF_LIMITS.evCharging,
             English(EvCharging), "D16")
  }

  /** D17 to D21 appended to `rs`: contributions, insurance and the
      housing loan. */
  function ContributionReliefs(rs: seq<Relief>, a: Answers): seq<Relief>
  {
    rs
    + Capped(true, Min(P(a, "epfAmount"), RELIEF_LIMITS.epf) + Min(P(a, "lifeInsurance"), RELIEF_LIMITS.lifeInsurance),
             RELIEF_LIMITS.epfLifeCombined, English(EpfAndLife), "D17")
    + Capped(true, P(a, "eduMedInsurance"), RELIEF_LIMITS.eduMedInsurance, English(EduMedInsurance), "D18")
    + Capped(true, P(a, "socso"), RELIEF_LIMITS.socso, English(SocsoEis), "D19")
    + Capped(Is(a, "prsContribution", "yes"), P(a, "prsAmount"), RELIEF_LIMITS.prs,
             English(RetirementScheme), "D20")
    + Capped(HousingGate(a), P(a, "housingInterest"), HousingCap(a), English(HousingInterest), "D21")
  }

  /** Every relief, in the order `computeAll` records them. */
  function Reliefs(a: Answers): seq<Relief>
  {
    ContributionReliefs(ChildReliefs(PersonalReliefs([], a), a), a)
  }

  const EDUCATION_TIP := "Consider upskilling courses (RM2,000 sub-limit) or a professional qualification. Up to RM7,000."
  const LIFESTYLE_TIP := "Books, laptops, phones, internet bills, gym memberships all count. Up to RM2,500."
  const SSPN_TIP := "Open SSPN and deposit up to RM8,000 — save for your children's education AND reduce tax."
  const EPF_TIP := "Consider voluntary EPF top-up or increasing life insurance coverage."
  const EDU_MED_TIP := "Medical and education insurance premiums are claimable up to RM4,000."
  const PRS_TIP := "PRS gives up to RM3,000 relief AND builds retirement savings. Open an account before December!"

  function PersonalMissed(ms: seq<MissedOpportunity>, a: Answers): seq<MissedOpportunity>
  {
    ms
    + When(!Is(a, "selfEducation", "yes"),
           MissedOpportunity("Education fees", RELIEF_LIMITS.education, EDUCATION_TIP))
    + When(Lifestyle(a) < RELIEF_LIMITS.lifestyle,
           MissedOpportunity("Lifestyle relief", RELIEF_LIMITS.lifestyle - Lifestyle(a), LIFESTYLE_TIP))
  }

  /** The SSPN note goes to a taxpayer with children who deposited nothing. */
  function ChildMissed(ms: seq<MissedOpportunity>, a: Answers): seq<MissedOpportunity>
  {
    ms
    + When(!Is(a, "sspnDeposit", "yes") && Is(a, "hasChildren", "yes"),
           MissedOpportunity("SSPN deposit", RELIEF_LIMITS.sspn, SSPN_TIP))
  }

  function ContributionMissed(ms: seq<MissedOpportunity>, a: Answers): seq<MissedOpportunity>
  {
    ms
    + When(EpfLife(a) < RELIEF_LIMITS.epfLifeCombined,
           MissedOpportunity("EPF & life insurance", RELIEF_LIMITS.epfLifeCombined - EpfLife(a), EPF_TIP))
    + When(EduMed(a) < RELIEF_LIMITS.eduMedInsurance,
           MissedOpportunity("Medical / education insurance", RELIEF_LIMITS.eduMedInsurance - EduMed(a), EDU_MED_TIP))
    + When(!Is(a, "prsContribution", "yes"),
           MissedOpportunity("PRS contribution", RELIEF_LIMITS.prs, PRS_TIP))
  }

  function Missed(a: Answers): seq<MissedOpportunity>
  {
    ContributionMissed(ChildMissed(PersonalMissed([], a), a), a)
  }

  // ---------------------------------------------------------------------
  // Totals, tax and rebates

  /** `reduce((s, r) => s + r.amount, 0)`: a left fold. */
  function SumAmounts(rs: seq<Relief>): real
  {
    if rs == [] then 0.0 else SumAmounts(rs[..|rs| - 1]) + rs[|rs| - 1].amount
  }

  function TotalRelief(a: Answers): real
  {
    SumAmounts(Reliefs(a))
  }

  function ChargeableIncome(a: Answers): real
  {
    Max(0.0, AfterDeduction(a) - TotalRelief(a))
  }

  function DividendTax(a: Answers): real
  {
    Dividend(a) * RELIEF_LIMITS.dividendFlatRate
  }

  function Zakat(a: Answers): real
  {
    P(a, "zakatAmount")
  }

  function SelfRebate(chargeable: real): real
  {
    if chargeable <= 35000.0 then 400.0 else 0.0
  }

  function SpouseRebate(a: Answers, chargeable: real): real
  {
    if chargeable <= 35000.0 && Is(a, "maritalStatus", "married") && Is(a, "spouseWorking", "no") then 400.0 else 0.0
  }

  function TotalRebate(a: Answers): real
  {
    Zakat(a) + SelfRebate(ChargeableIncome(a)) + SpouseRebate(a, ChargeableIncome(a))
  }

  function FinalTax(a: Answers): real
  {
    Max(0.0, Tax(ChargeableIncome(a)) + DividendTax(a) - TotalRebate(a))
  }

  /** The tax had only the individual relief been claimed, less the final tax. */
  function TaxSaved(a: Answers): real
  {
    Tax(Max(0.0, AfterDeduction(a) - RELIEF_LIMITS.individual)) - FinalTax(a)
  }

  // ---------------------------------------------------------------------
  // Form BE lines

  function DonationCaption(): string
  {
    "Approved donations (max " + IntToString(RoundHalfUp(RELIEF_LIMITS.donationPercent * 100.0))
    + "% of aggregate income)"
  }

  /** Section B and C up to the aggregate: income, dividends and line C4. */
  function AggregateFields(a: Answers): seq<FormField>
  {
    [FormField("B", "C1", English(EmploymentLine), Employment(a), Employment(a) > 0.0, false),
     FormField("B", "C2", English(RentalLine), RentalNet(a), RentalNet(a) > 0.0, false),
     FormField("B", "C3", English(OtherIncomeLine), OtherStatutory(a), OtherStatutory(a) > 0.0, false)]
    + When(Dividend(a) > 0.0,
           FormField("B", "C3a", English(DividendLine),
                     Dividend(a), true, false))
    + [FormField("C", "C4", English(AggregateIncomeLine), TotalIncome(a) + Dividend(a), true, false)]
  }

  /** Section B and C: the aggregate lines, then the donation line C7. */
  function IncomeFields(a: Answers): seq<FormField>
  {
    AggregateFields(a) + When(Donations(a) > 0.0, FormField("C", "C7", DonationCaption(), Donations(a), true, false))
  }

  /** The section-D line `addRelief` pushes beside a relief. */
  function ReliefField(r: Relief): FormField
  {
    FormField("D", r.ref, r.name, r.amount, true, false)
  }

  function ReliefFields(rs: seq<Relief>): (fs: seq<FormField>)
    ensures |fs| == |rs|
    ensures forall k :: 0 <= k < |rs| ==> fs[k] == ReliefField(rs[k])
  {
    seq(|rs|, k requires 0 <= k < |rs| => ReliefField(rs[k]))
  }

  /** Sections D to F appended to `fs`: the totals, the tax, the rebates and
      the tax payable. */
  function SummaryFields(fs: seq<FormField>, a: Answers): seq<FormField>
  {
    var chargeable := ChargeableIncome(a);
    var selfRebate, spouseRebate := SelfRebate(chargeable), SpouseRebate(a, chargeable);
    fs
    + [FormField("D", "D_TOTAL", English(TotalReliefsLine), TotalRelief(a), true, true)]
    + [FormField("E", "E1", English(ChargeableLine), chargeable, true, true)]
    + [FormField("E", "E2", English(TaxOnChargeableLine), Tax(chargeable), true, false)]
    + When(DividendTax(a) > 0.0, FormField("E", "E2a", English(DividendTaxLine), DividendTax(a), true, false))
    + When(Zakat(a) > 0.0, FormField("F", "F1", English(ZakatLine), Zakat(a), true, false))
    + When(selfRebate > 0.0,
           FormField("F", "F2", English(SelfRebateLine), selfRebate, true, false))
    + When(spouseRebate > 0.0, FormField("F", "F3", English(SpouseRebateLine), spouseRebate, true, false))
    + [FormField("E", "E_FINAL", English(TaxPayableLine), FinalTax(a), true, true)]
  }

  function FormFields(a: Answers): seq<FormField>
  {
    SummaryFields(IncomeFields(a) + ReliefFields(Reliefs(a)), a)
  }

  /** The whole result of `computeAll`. */
  function Compute(a: Answers): ComputeResult
  {
    var chargeable := ChargeableIncome(a);
    ComputeResult(
      reliefs := Reliefs(a),
      missed := Missed(a),
      formFields := FormFields(a),
      totalIncome := TotalIncome(a),
      totalRelief := TotalRelief(a),
      chargeableIncome := chargeable,
      taxBeforeRebate := Tax(chargeable),
      dividend := Dividend(a),
      dividendTax := DividendTax(a),
      totalRebate := TotalRebate(a),
      finalTax := FinalTax(a),
      taxSaved := TaxSaved(a),
      zakat := Zakat(a),
      selfRebate := SelfRebate(chargeable),
      spouseRebate := SpouseRebate(a, chargeable))
  }

  // ---------------------------------------------------------------------
  // The pushes. Every method keeps the form lines equal to `pre` (the lines
  // pushed before the reliefs) followed by one section-D line per relief.

  /** A conditional `push` onto any array. */
  method PushWhen<T>(xs: seq<T>, cond: bool, x: T) returns (xs': seq<T>)
    ensures xs' == xs + When(cond, x)
  {
    xs' := xs;
    if cond {
      xs' := xs + [x];
    }
  }

  /** `addRelief`: the relief and its section-D line are pushed together. */
  method AddRelief(reliefs: seq<Relief>, formFields: seq<FormField>, ghost pre: seq<FormField>,
                   name: string, amount: real, ref: string)
    returns (reliefs': seq<Relief>, formFields': seq<FormField>)
    requires formFields == pre + ReliefFields(reliefs)
    ensures reliefs' == reliefs + [Relief(name, amount, ref)]
    ensures formFields' == pre + ReliefFields(reliefs')
  {
    reliefs' := reliefs + [Relief(name, amount, ref)];
    formFields' := formFields + [FormField("D", ref, name, amount, true, false)];
    assert ReliefFields(reliefs') == ReliefFields(reliefs) + [ReliefField(Relief(name, amount, ref))];
  }

  /** The block the source repeats for each capped claim: when the flag
      holds, clamp the claim and push only a positive amount. */
  method ClaimCapped(reliefs: seq<Relief>, formFields: seq<FormField>, ghost pre: seq<FormField>,
                     flag: bool, claim: real, cap: real, name: string, ref: string)
    returns (reliefs': seq<Relief>, formFields': seq<FormField>)
    requires formFields == pre + ReliefFields(reliefs)
    ensures reliefs' == reliefs + Capped(flag, claim, cap, name, ref)
    ensures formFields' == pre + ReliefFields(reliefs')
  {
    reliefs', formFields' := reliefs, formFields;
    if flag {
      var v := Min(claim, cap);
      if v > 0.0 {
        reliefs', formFields' := AddRelief(reliefs, formFields, pre, name, v, ref);
      }
    }
  }

  /** A fixed relief pushed when its flag holds. */
  method ClaimFixed(reliefs: seq<Relief>, formFields: seq<FormField>, ghost pre: seq<FormField>,
                    flag: bool, name: string, amount: real, ref: string)
    returns (reliefs': seq<Relief>, formFields': seq<FormField>)
    requires formFields == pre + ReliefFields(reliefs)
    ensures reliefs' == reliefs + When(flag, Relief(name, amount, ref))
    ensures formFields' == pre + ReliefFields(reliefs')
  {
    reliefs', formFields' := reliefs, formFields;
    if flag {
      reliefs', formFields' := AddRelief(reliefs, formFields, pre, name, amount, ref);
    }
  }

  /** A per-child relief pushed when the count is positive. */
  method ClaimPerUnit(reliefs: seq<Relief>, formFields: seq<FormField>, ghost pre: seq<FormField>,
                      count: int, unit: real, what: string, ref: string)
    returns (reliefs': seq<Relief>, formFields': seq<FormField>)
    requires 0.0 <= unit
    requires formFields == pre + ReliefFields(reliefs)
    ensures reliefs' == reliefs + PerUnit(count, unit, what, ref)
    ensures formFields' == pre + ReliefFields(reliefs')
  {
    reliefs', formFields' := reliefs, formFields;
    if count > 0 {
      reliefs', formFields' := AddRelief(reliefs, formFields, pre, PerUnitName(what, count, unit),
                                         count as real * unit, ref);
    }
  }

  /** D2: the spouse relief of a married taxpayer whose spouse has no
      income, or else the alimony relief of a divorced one. */
  method PushSpouse(reliefs: seq<Relief>, formFields: seq<FormField>, ghost pre: seq<FormField>, a: Answers)
    returns (reliefs': seq<Relief>, formFields': seq<FormField>)
    requires formFields == pre + ReliefFields(reliefs)
    ensures reliefs' == reliefs + SpouseRelief(a)
    ensures formFields' == pre + ReliefFields(reliefs')
  {
    reliefs', formFields' := reliefs, formFields;
    if Is(a, "maritalStatus", "married") && Is(a, "spouseWorking", "no") {
      reliefs', formFields' := AddRelief(reliefs, formFields, pre, English(SpouseNoIncome),
                                         RELIEF_LIMITS.spouse, "D2");
    } else if Is(a, "maritalStatus", "divorced") {
      reliefs', formFields' := AddRelief(reliefs, formFields, pre, English(Alimony),
                                         RELIEF_LIMITS.spouse, "D2");
    }
  }

  /** The pushes for D1 to D8 and their missed opportunities. */
  method PushPersonalReliefs(reliefs: seq<Relief>, missed: seq<MissedOpportunity>, formFields: seq<FormField>,
                             ghost pre: seq<FormField>, a: Answers)
    returns (reliefs': seq<Relief>, missed': seq<MissedOpportunity>, formFields': seq<FormField>)
    requires formFields == pre + ReliefFields(reliefs)
    ensures reliefs' == PersonalReliefs(reliefs, a)
    ensures missed' == PersonalMissed(missed, a)
    ensures formFields' == pre + ReliefFields(reliefs')
  {
    var rs, fs := reliefs, formFields;
    var ms := missed;
    rs, fs := AddRelief(rs, fs, pre, English(IndividualSelf), RELIEF_LIMITS.individual, "D1");
    rs, fs := PushSpouse(rs, fs, pre, a);
    rs, fs := ClaimFixed(rs, fs, pre, Is(a, "isDisabled", "yes"),
                         English(DisabledSelf), RELIEF_LIMITS.disabledSelf, "D2a");
    rs, fs := ClaimFixed(rs, fs, pre, Is(a, "spouseDisabled", "yes"),
                         English(DisabledSpouse), RELIEF_LIMITS.disabledSpouse, "D2b");

    rs, fs := ClaimCapped(rs, fs, pre, Is(a, "selfEducation", "yes"), P(a, "educationAmount"),
                          RELIEF_LIMITS.education, English(SelfEducation), "D3");
    ms := PushWhen(ms, !Is(a, "selfEducation", "yes"),
                   MissedOpportunity("Education fees", RELIEF_LIMITS.education, EDUCATION_TIP));

    rs, fs := ClaimCapped(rs, fs, pre, Is(a, "parentsMedical", "yes"), P(a, "parentsMedicalAmount"),
                          RELIEF_LIMITS.parentsMedical, English(ParentsMedical), "D4");
    rs, fs := ClaimCapped(rs, fs, pre, Is(a, "medicalSelf", "yes"), P(a, "medicalSelfAmount"),
                          RELIEF_LIMITS.medicalSelf, English(MedicalSelf), "D5");
    rs, fs := ClaimCapped(rs, fs, pre, Is(a, "learningDisability", "yes"), P(a, "learningDisabilityAmount"),
                          RELIEF_LIMITS.learningDisability, English(LearningDisability), "D5a");
    rs, fs := ClaimCapped(rs, fs, pre, Is(a, "disabledEquipment", "yes"), P(a, "disabledEquipmentAmount"),
                          RELIEF_LIMITS.disabledEquipment, English(DisabledEquipment), "D6");

    var lifestyle := Lifestyle(a);
    rs, fs := ClaimCapped(rs, fs, pre, true, P(a, "lifestyleSpending"), RELIEF_LIMITS.lifestyle,
                          English(LifestyleSpending), "D7");
    ms := PushWhen(ms, lifestyle < RELIEF_LIMITS.lifestyle,
                   MissedOpportunity("Lifestyle relief", RELIEF_LIMITS.lifestyle - lifestyle, LIFESTYLE_TIP));

    rs, fs := ClaimCapped(rs, fs, pre, Is(a, "additionalSports", "yes"), P(a, "additionalSportsAmount"),
                          RELIEF_LIMITS.additionalSports, English(AdditionalSports), "D8");
    reliefs', missed', formFields' := rs, ms, fs;
  }

  /** The pushes for D9 to D16 and the SSPN note. */
  method PushChildReliefs(reliefs: seq<Relief>, missed: seq<MissedOpportunity>, formFields: seq<FormField>,
                          ghost pre: seq<FormField>, a: Answers)
    returns (reliefs': seq<Relief>, missed': seq<MissedOpportunity>, formFields': seq<FormField>)
    requires formFields == pre + ReliefFields(reliefs)
    ensures reliefs' == ChildReliefs(reliefs, a)
    ensures missed' == ChildMissed(missed, a)
    ensures formFields' == pre + ReliefFields(reliefs')
  {
    var rs, fs := reliefs, formFields;
    var u18, he, pu, dk, dke :=
      N(a, "childrenUnder18"), N(a, "childrenHigherEdu"), N(a, "childrenPreU"),
      N(a, "disabledChildren"), N(a, "disabledChildInEdu");
    rs, fs := ClaimPerUnit(rs, fs, pre, u18, RELIEF_LIMITS.childUnder18, English(ChildrenUnder18), "D9");
    rs, fs := ClaimPerUnit(rs, fs, pre, he, RELIEF_LIMITS.childHigherEdu, English(ChildrenHigherEdu), "D10a");
    rs, fs := ClaimPerUnit(rs, fs, pre, pu, RELIEF_LIMITS.childPreU, English(ChildrenPreU), "D10b");
    rs, fs := ClaimPerUnit(rs, fs, pre, dk, RELIEF_LIMITS.disabledChild, English(DisabledChildren), "D11");
    rs, fs := ClaimPerUnit(rs, fs, pre, dke, RELIEF_LIMITS.disabledChildHigherEdu,
                           English(DisabledChildrenHigherEdu), "D12");

    rs, fs := ClaimCapped(rs, fs, pre, Is(a, "hasBreastfeedingChild", "yes"), P(a, "breastfeedingAmount"),
                          RELIEF_LIMITS.breastfeeding, English(Breastfeeding), "D13");
    rs, fs := ClaimCapped(rs, fs, pre, Is(a, "childcareFees", "yes"), P(a, "childcareAmount"),
                          RELIEF_LIMITS.childcare, English(Childcare), "D14");
    rs, fs := ClaimCapped(rs, fs, pre, Is(a, "sspnDeposit", "yes"), P(a, "sspnAmount"),
                          RELIEF_LIMITS.sspn, English(SspnDeposit), "D15");
    missed' := PushWhen(missed, !Is(a, "sspnDeposit", "yes") && Is(a, "hasChildren", "yes"),
                        MissedOpportunity("SSPN deposit", RELIEF_LIMITS.sspn, SSPN_TIP));
    rs, fs := ClaimCapped(rs, fs, pre, Is(a, "hasEV", "yes"), P(a, "evAmount"),
                          RELIEF_LIMITS.evCharging, English(EvCharging), "D16");
    reliefs', formFields' := rs, fs;
  }

  /** The pushes for D17 to D21 and their missed opportunities. The notes
      go to their own array, so they are pushed by `PushContributionNotes`. */
  method PushContributionReliefs(reliefs: seq<Relief>, missed: seq<MissedOpportunity>, formFields: seq<FormField>,
                                 ghost pre: seq<FormField>, a: Answers)
    returns (reliefs': seq<Relief>, missed': seq<MissedOpportunity>, formFields': seq<FormField>)
    requires formFields == pre + ReliefFields(reliefs)
    ensures reliefs' == ContributionReliefs(reliefs, a)
    ensures missed' == ContributionMissed(missed, a)
    ensures formFields' == pre + ReliefFields(reliefs')
  {
    var rs, fs := PushSavingsReliefs(reliefs, formFields, pre, a);
    reliefs', formFields' := PushPrsAndHousing(rs, fs, pre, a);
    missed' := PushContributionNotes(missed, a);
  }

  /** D17 to D19: EPF and life insurance, education and medical insurance,
      SOCSO. */
  method PushSavingsReliefs(reliefs: seq<Relief>, formFields: seq<FormField>, ghost pre: seq<FormField>, a: Answers)
    returns (reliefs': seq<Relief>, formFields': seq<FormField>)
    requires formFields == pre + ReliefFields(reliefs)
    ensures reliefs' == reliefs
      + Capped(true, Min(P(a, "epfAmount"), RELIEF_LIMITS.epf) + Min(P(a, "lifeInsurance"), RELIEF_LIMITS.lifeInsurance),
               RELIEF_LIMITS.epfLifeCombined, English(EpfAndLife), "D17")
      + Capped(true, P(a, "eduMedInsurance"), RELIEF_LIMITS.eduMedInsurance, English(EduMedInsurance), "D18")
      + Capped(true, P(a, "socso"), RELIEF_LIMITS.socso, English(SocsoEis), "D19")
    ensures formFields' == pre + ReliefFields(reliefs')
  {
    var rs, fs := reliefs, formFields;
    var epf := Min(P(a, "epfAmount"), RELIEF_LIMITS.epf);
    var life := Min(P(a, "lifeInsurance"), RELIEF_LIMITS.lifeInsurance);
    rs, fs := ClaimCapped(rs, fs, pre, true, epf + life, RELIEF_LIMITS.epfLifeCombined,
                          English(EpfAndLife), "D17");
    rs, fs := ClaimCapped(rs, fs, pre, true, P(a, "eduMedInsurance"), RELIEF_LIMITS.eduMedInsurance,
                          English(EduMedInsurance), "D18");
    rs, fs := ClaimCapped(rs, fs, pre, true, P(a, "socso"), RELIEF_LIMITS.socso, English(SocsoEis), "D19");
    reliefs', formFields' := rs, fs;
  }

  /** D20 and D21: PRS, and the first-home loan interest. */
  method PushPrsAndHousing(reliefs: seq<Relief>, formFields: seq<FormField>, ghost pre: seq<FormField>, a: Answers)
    returns (reliefs': seq<Relief>, formFields': seq<FormField>)
    requires formFields == pre + ReliefFields(reliefs)
    ensures reliefs' == reliefs
      + Capped(Is(a, "prsContribution", "yes"), P(a, "prsAmount"), RELIEF_LIMITS.prs,
               English(RetirementScheme), "D20")
      + Capped(HousingGate(a), P(a, "housingInterest"), HousingCap(a), English(HousingInterest), "D21")
    ensures formFields' == pre + ReliefFields(reliefs')
  {
    var rs, fs := reliefs, formFields;
    rs, fs := ClaimCapped(rs, fs, pre, Is(a, "prsContribution", "yes"), P(a, "prsAmount"),
                          RELIEF_LIMITS.prs, English(RetirementScheme), "D20");
    var cap := if Is(a, "housePrice", "under500k") then RELIEF_LIMITS.housingLoanUnder500k
               else RELIEF_LIMITS.housingLoan500kTo750k;
    rs, fs := ClaimCapped(rs, fs, pre, Is(a, "firstHomeLoan", "yes") && !Is(a, "housePrice", "above750k"),
                          P(a, "housingInterest"), cap, English(HousingInterest), "D21");
    reliefs', formFields' := rs, fs;
  }

  /** The EPF, insurance and PRS notes of the contribution block. */
  method PushContributionNotes(missed: seq<MissedOpportunity>, a: Answers) returns (missed': seq<MissedOpportunity>)
    ensures missed' == ContributionMissed(missed, a)
  {
    var ms := missed;
    var epf := Min(P(a, "epfAmount"), RELIEF_LIMITS.epf);
    var life := Min(P(a, "lifeInsurance"), RELIEF_LIMITS.lifeInsurance);
    var epfLife := Min(epf + life, RELIEF_LIMITS.epfLifeCombined);
    ms := PushWhen(ms, epfLife < RELIEF_LIMITS.epfLifeCombined,
                   MissedOpportunity("EPF & life insurance", RELIEF_LIMITS.epfLifeCombined - epfLife, EPF_TIP));
    var emi := Min(P(a, "eduMedInsurance"), RELIEF_LIMITS.eduMedInsurance);
    ms := PushWhen(ms, emi < RELIEF_LIMITS.eduMedInsurance,
                   MissedOpportunity("Medical / education insurance", RELIEF_LIMITS.eduMedInsurance - emi,
                                     EDU_MED_TIP));
    ms := PushWhen(ms, !Is(a, "prsContribution", "yes"),
                   MissedOpportunity("PRS contribution", RELIEF_LIMITS.prs, PRS_TIP));
    missed' := ms;
  }

  /** `reliefs.reduce((s, r) => s + r.amount, 0)`. */
  method SumReliefs(reliefs: seq<Relief>) returns (total: real)
    ensures total == SumAmounts(reliefs)
  {
    total := 0.0;
    for i := 0 to |reliefs|
      invariant total == SumAmounts(reliefs[..i])
    {
      assert reliefs[..i + 1][..i] == reliefs[..i];
      total := total + reliefs[i].amount;
    }
    assert reliefs[..|reliefs|] == reliefs;
  }

  /** Income, the section B and C lines, and the donation deduction. */
  method IncomeSection(a: Answers) returns (totalIncome: real, dividend: real, afterDed: real,
                                             formFields: seq<FormField>)
    ensures totalIncome == TotalIncome(a) && dividend == Dividend(a)
    ensures afterDed == AfterDeduction(a)
    ensures formFields == IncomeFields(a)
  {
    totalIncome, dividend, formFields := AggregateSection(a);
    var donationMax := totalIncome * RELIEF_LIMITS.donationPercent;
    var donations := if Is(a, "hasDonations", "yes") then Min(P(a, "donationAmount"), donationMax) else 0.0;
    assert donations == Donations(a);
    formFields := PushWhen(formFields, donations > 0.0,
                           FormField("C", "C7", DonationCaption(), donations, true, false));
    afterDed := Max(0.0, totalIncome - donations);
  }

  /** The income sums and the lines up to the aggregate income. */
  method AggregateSection(a: Answers) returns (totalIncome: real, dividend: real, formFields: seq<FormField>)
    ensures totalIncome == TotalIncome(a) && dividend == Dividend(a)
    ensures formFields == AggregateFields(a)
  {
    var employment, rentalNet, otherStatutory := Employment(a), RentalNet(a), OtherStatutory(a);
    dividend := Dividend(a);
    totalIncome := employment + rentalNet + otherStatutory;

    formFields := [
      FormField("B", "C1", English(EmploymentLine), employment, employment > 0.0, false),
      FormField("B", "C2", English(RentalLine), rentalNet, rentalNet > 0.0, false),
      FormField("B", "C3", English(OtherIncomeLine), otherStatutory, otherStatutory > 0.0, false)];
    formFields := PushWhen(formFields, dividend > 0.0,
                           FormField("B", "C3a", English(DividendLine),
                                     dividend, true, false));
    formFields := formFields + [FormField("C", "C4", English(AggregateIncomeLine), totalIncome + dividend, true, false)];
    AggregateFieldsOf(a, employment, rentalNet, otherStatutory, dividend, totalIncome);
  }

  /** `AggregateFields` written with the income amounts already read. */
  lemma AggregateFieldsOf(a: Answers, employment: real, rentalNet: real, otherStatutory: real,
                          dividend: real, totalIncome: real)
    requires employment == Employment(a) && rentalNet == RentalNet(a) && otherStatutory == OtherStatutory(a)
    requires dividend == Dividend(a) && totalIncome == TotalIncome(a)
    ensures AggregateFields(a) ==
      [FormField("B", "C1", English(EmploymentLine), employment, employment > 0.0, false),
       FormField("B", "C2", English(RentalLine), rentalNet, rentalNet > 0.0, false),
       FormField("B", "C3", English(OtherIncomeLine), otherStatutory, otherStatutory > 0.0, false)]
      + When(dividend > 0.0, FormField("B", "C3a", English(DividendLine), dividend, true, false))
      + [FormField("C", "C4", English(AggregateIncomeLine), totalIncome + dividend, true, false)]
  {
  }

  /** The computation: chargeable income, the bracket tax, the dividend tax,
      the rebates, the tax payable and the tax saved. */
  method Totals(a: Answers, afterDed: real, totalRelief: real, dividend: real)
    returns (chargeableIncome: real, taxBeforeRebate: real, dividendTax: real, zakat: real,
             selfRebate: real, spouseRebate: real, totalRebate: real, finalTax: real, taxSaved: real)
    requires afterDed == AfterDeduction(a) && totalRelief == TotalRelief(a) && dividend == Dividend(a)
    ensures chargeableIncome == ChargeableIncome(a) && taxBeforeRebate == Tax(chargeableIncome)
    ensures dividendTax == DividendTax(a) && zakat == Zakat(a)
    ensures selfRebate == SelfRebate(chargeableIncome) && spouseRebate == SpouseRebate(a, chargeableIncome)
    ensures totalRebate == TotalRebate(a) && finalTax == FinalTax(a) && taxSaved == TaxSaved(a)
  {
    chargeableIncome := Chargeable(a, afterDed, totalRelief);
    taxBeforeRebate := CalculateTax(chargeableIncome);
    dividendTax := DividendTaxOn(a, dividend);
    zakat, selfRebate, spouseRebate, totalRebate := Rebates(a, chargeableIncome);
    RebatesTotal(a, chargeableIncome, zakat, selfRebate, spouseRebate, totalRebate);
    finalTax := Payable(a, chargeableIncome, taxBeforeRebate, dividendTax, totalRebate);
    var taxWithoutRelief := CalculateTax(Max(0.0, afterDed - RELIEF_LIMITS.individual));
    taxSaved := taxWithoutRelief - finalTax;
    SavedAgainst(a, afterDed, finalTax, taxWithoutRelief, taxSaved);
  }

  /** The chargeable income: income after deductions less the reliefs,
      never below zero. */
  method Chargeable(a: Answers, afterDed: real, totalRelief: real) returns (chargeableIncome: real)
    requires afterDed == AfterDeduction(a) && totalRelief == TotalRelief(a)
    ensures chargeableIncome == ChargeableIncome(a)
  {
    chargeableIncome := Max(0.0, afterDed - totalRelief);
  }

  /** The flat tax on dividends. */
  method DividendTaxOn(a: Answers, dividend: real) returns (dividendTax: real)
    requires dividend == Dividend(a)
    ensures dividendTax == DividendTax(a)
  {
    dividendTax := dividend * RELIEF_LIMITS.dividendFlatRate;
  }

  /** Zakat and the two RM400 rebates on a chargeable income, and their sum. */
  method Rebates(a: Answers, chargeableIncome: real)
    returns (zakat: real, selfRebate: real, spouseRebate: real, totalRebate: real)
    ensures zakat == Zakat(a) && selfRebate == SelfRebate(chargeableIncome)
    ensures spouseRebate == SpouseRebate(a, chargeableIncome)
    ensures totalRebate == zakat + selfRebate + spouseRebate
  {
    zakat := P(a, "zakatAmount");
    selfRebate := if chargeableIncome <= 35000.0 then 400.0 else 0.0;
    spouseRebate := if chargeableIncome <= 35000.0 && Is(a, "maritalStatus", "married")
                       && Is(a, "spouseWorking", "no") then 400.0 else 0.0;
    totalRebate := zakat + selfRebate + spouseRebate;
  }

  lemma RebatesTotal(a: Answers, chargeableIncome: real, zakat: real, selfRebate: real, spouseRebate: real,
                      totalRebate: real)
    requires chargeableIncome == ChargeableIncome(a) && zakat == Zakat(a)
    requires selfRebate == SelfRebate(chargeableIncome) && spouseRebate == SpouseRebate(a, chargeableIncome)
    requires totalRebate == zakat + selfRebate + spouseRebate
    ensures totalRebate == TotalRebate(a)
  {
  }

  /** The tax payable: tax on chargeable income plus dividend tax, less the
      rebates, never below zero. */
  method Payable(a: Answers, chargeableIncome: real, taxBeforeRebate: real, dividendTax: real, totalRebate: real)
    returns (finalTax: real)
    requires chargeableIncome == ChargeableIncome(a) && taxBeforeRebate == Tax(chargeableIncome)
    requires dividendTax == DividendTax(a) && totalRebate == TotalRebate(a)
    ensures finalTax == FinalTax(a)
  {
    finalTax := Max(0.0, taxBeforeRebate + dividendTax - totalRebate);
  }

  lemma SavedAgainst(a: Answers, afterDed: real, finalTax: real, taxWithoutRelief: real, taxSaved: real)
    requires afterDed == AfterDeduction(a) && finalTax == FinalTax(a)
    requires taxWithoutRelief == Tax(Max(0.0, afterDed - RELIEF_LIMITS.individual))
    requires taxSaved == taxWithoutRelief - finalTax
    ensures taxSaved == TaxSaved(a)
  {
  }

  /** The section D total and the section E and F lines, appended. */
  method PushSummaryFields(formFields: seq<FormField>, a: Answers, totalRelief: real, chargeableIncome: real,
                           taxBeforeRebate: real, dividendTax: real, zakat: real, selfRebate: real,
                           spouseRebate: real, finalTax: real)
    returns (formFields': seq<FormField>)
    requires totalRelief == TotalRelief(a) && chargeableIncome == ChargeableIncome(a)
    requires taxBeforeRebate == Tax(chargeableIncome) && dividendTax == DividendTax(a) && zakat == Zakat(a)
    requires selfRebate == SelfRebate(chargeableIncome) && spouseRebate == SpouseRebate(a, chargeableIncome)
    requires finalTax == FinalTax(a)
    ensures formFields' == SummaryFields(formFields, a)
  {
    var fs := formFields;
    fs := fs + [FormField("D", "D_TOTAL", English(TotalReliefsLine), totalRelief, true, true)];
    fs := fs + [FormField("E", "E1", English(ChargeableLine), chargeableIncome, true, true)];
    fs := fs + [FormField("E", "E2", English(TaxOnChargeableLine), taxBeforeRebate, true, false)];
    fs := PushWhen(fs, dividendTax > 0.0,
                   FormField("E", "E2a", English(DividendTaxLine), dividendTax, true, false));
    fs := PushWhen(fs, zakat > 0.0, FormField("F", "F1", English(ZakatLine), zakat, true, false));
    fs := PushWhen(fs, selfRebate > 0.0,
                   FormField("F", "F2", English(SelfRebateLine), selfRebate, true, false));
    fs := PushWhen(fs, spouseRebate > 0.0, FormField("F", "F3", English(SpouseRebateLine), spouseRebate, true, false));
    fs := fs + [FormField("E", "E_FINAL", English(TaxPayableLine), finalTax, true, true)];
    formFields' := fs;
  }

  /** The three relief sections in turn, from empty relief and missed
      arrays, each relief also pushed as a form line after `formFields`. */
  method ReliefSections(formFields: seq<FormField>, a: Answers)
    returns (reliefs: seq<Relief>, missed: seq<MissedOpportunity>, formFields': seq<FormField>)
    ensures reliefs == Reliefs(a) && missed == Missed(a)
    ensures formFields' == formFields + ReliefFields(Reliefs(a))
  {
    ghost var pre := formFields;
    reliefs, missed, formFields' := [], [], formFields;
    assert formFields' == pre + ReliefFields(reliefs);
    reliefs, missed, formFields' := PushPersonalReliefs(reliefs, missed, formFields', pre, a);
    reliefs, missed, formFields' := PushChildReliefs(reliefs, missed, formFields', pre, a);
    reliefs, missed, formFields' := PushContributionReliefs(reliefs, missed, formFields', pre, a);
  }

  lemma TotalOfReliefs(a: Answers, reliefs: seq<Relief>, totalRelief: real)
    requires reliefs == Reliefs(a) && totalRelief == SumAmounts(reliefs)
    ensures totalRelief == TotalRelief(a)
  {
  }

  /** `computeAll`: income and donations, the three relief sections, the
      computation and the closing form lines, in the source's order. */
  method ComputeAll(a: Answers) returns (r: ComputeResult)
    ensures r == Compute(a)
  {
    var totalIncome, dividend, afterDed, formFields := IncomeSection(a);
    var reliefs, missed;
    reliefs, missed, formFields := ReliefSections(formFields, a);
    var totalRelief := SumReliefs(reliefs);
    TotalOfReliefs(a, reliefs, totalRelief);
    var chargeableIncome, taxBeforeRebate, dividendTax, zakat, selfRebate, spouseRebate, totalRebate,
        finalTax, taxSaved := Totals(a, afterDed, totalRelief, dividend);
    formFields := PushSummaryFields(formFields, a, totalRelief, chargeableIncome, taxBeforeRebate, dividendTax,
                                    zakat, selfRebate, spouseRebate, finalTax);

    r := ComputeResult(
      reliefs := reliefs, missed := missed, formFields := formFields,
      totalIncome := totalIncome, totalRelief := totalRelief, chargeableIncome := chargeableIncome,
      taxBeforeRebate := taxBeforeRebate, dividend := dividend, dividendTax := dividendTax,
      totalRebate := totalRebate, finalTax := finalTax, taxSaved := taxSaved,
      zakat := zakat, selfRebate := selfRebate, spouseRebate := spouseRebate);
  }
}
