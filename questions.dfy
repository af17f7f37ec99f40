/** The wizard's questions: each question's id, section, widget, options,
    visibility rule (`showIf`), input ceiling (`max`) and form line. The
    display text, tips and icons are not part of this model. */
module Questions {
  import opened Types
  import opened NumberParse
  import opened ReliefLimits
  import opened ReliefEngine

  /** Whether a `showIf` rule holds of the answers. An unanswered question
      is `undefined` in the source: it equals no string, and `parseInt` of
      it is NaN, which is not above 0. */
  predicate Holds(c: Cond, a: Answers)
  {
    match c
    case NotM => !Is(a, "formType", "M")
    case Eq(key, value) => Is(a, key, value)
    case Neq(key, value) => !Is(a, key, value)
    case IntAboveZero(key) => key in a && ParseInt(a[key]).Some? && ParseInt(a[key]).value > 0
    case And(left, right) => Holds(left, a) && Holds(right, a)
  }

  /** `!q.showIf || q.showIf(answers)`. */
  predicate Shown(q: Question, a: Answers)
  {
    q.showIf.None? || Holds(q.showIf.value, a)
  }

  /** The rule carries the `notM` guard: Form M hides the question. */
  predicate GuardedByNotM(c: Cond)
  {
    c == NotM || (c.And? && c.left == NotM)
  }

  /** The form type, employment income and the two Form B business figures. */
  const INCOME_QUESTIONS: seq<Question> := [
    /*  0 */ Question("formType", "secFormType", Select, ["BE", "B", "M"], None,
              None, None),
    /*  1 */ Question("employmentIncome", "secIncome", Currency, [], None,
              None, Some("C1")),
    /*  2 */ Question("businessGrossIncome", "secBusiness", Currency, [], Some(Eq("formType", "B")),
              None, Some("C6")),
    /*  3 */ Question("businessAdjustedIncome", "secBusiness", Currency, [], Some(Eq("formType", "B")),
              None, Some("C6"))
  ]

  /** Rental, interest, dividend, royalty, pension and other income. */
  const OTHER_INCOME_QUESTIONS: seq<Question> := [
    /*  4 */ Question("hasRentalIncome", "secOtherIncome", YesNo, [], None,
              None, None),
    /*  5 */ Question("rentalGross", "secOtherIncome", Currency, [], Some(Eq("hasRentalIncome", "yes")),
              None, Some("C2")),
    /*  6 */ Question("rentalExpenses", "secOtherIncome", Currency, [], Some(Eq("hasRentalIncome", "yes")),
              None, None),
    /*  7 */ Question("hasInterestIncome", "secOtherIncome", YesNo, [], None,
              None, None),
    /*  8 */ Question("interestIncome", "secOtherIncome", Currency, [], Some(Eq("hasInterestIncome", "yes")),
              None, Some("C3")),
    /*  9 */ Question("hasDividendIncome", "secOtherIncome", YesNo, [], None,
              None, None),
    /* 10 */ Question("dividendIncome", "secOtherIncome", Currency, [], Some(Eq("hasDividendIncome", "yes")),
              None, Some("C3a")),
    /* 11 */ Question("hasRoyaltyIncome", "secOtherIncome", YesNo, [], None,
              None, None),
    /* 12 */ Question("royaltyIncome", "secOtherIncome", Currency, [], Some(Eq("hasRoyaltyIncome", "yes")),
              None, Some("C3")),
    /* 13 */ Question("hasPensionIncome", "secOtherIncome", YesNo, [], None,
              None, None),
    /* 14 */ Question("pensionIncome", "secOtherIncome", Currency, [], Some(Eq("hasPensionIncome", "yes")),
              None, Some("C3")),
    /* 15 */ Question("hasOtherIncome", "secOtherIncome", YesNo, [], None,
              None, None),
    /* 16 */ Question("otherIncome", "secOtherIncome", Currency, [], Some(Eq("hasOtherIncome", "yes")),
              None, Some("C3"))
  ]

  /** Marital status, the spouse and disability. */
  const PERSONAL_QUESTIONS: seq<Question> := [
    /* 17 */ Question("maritalStatus", "secPersonal", Select, ["single", "married", "divorced"], Some(NotM),
              None, None),
    /* 18 */ Question("spouseWorking", "secPersonal", Select, ["no", "yes"], Some(And(NotM, Eq("maritalStatus", "married"))),
              None, None),
    /* 19 */ Question("isDisabled", "secPersonal", YesNo, [], Some(NotM),
              None, None),
    /* 20 */ Question("spouseDisabled", "secPersonal", YesNo, [], Some(And(NotM, Eq("maritalStatus", "married"))),
              None, None)
  ]

  /** Children counts and the child-related reliefs. */
  const CHILDREN_QUESTIONS: seq<Question> := [
    /* 21 */ Question("hasChildren", "secChildren", YesNo, [], Some(NotM),
              None, None),
    /* 22 */ Question("childrenUnder18", "secChildren", Number, [], Some(And(NotM, Eq("hasChildren", "yes"))),
              None, Some("D9")),
    /* 23 */ Question("childrenHigherEdu", "secChildren", Number, [], Some(And(NotM, Eq("hasChildren", "yes"))),
              None, Some("D10")),
    /* 24 */ Question("childrenPreU", "secChildren", Number, [], Some(And(NotM, Eq("hasChildren", "yes"))),
              None, Some("D10")),
    /* 25 */ Question("disabledChildren", "secChildren", Number, [], Some(And(NotM, Eq("hasChildren", "yes"))),
              None, Some("D11")),
    /* 26 */ Question("disabledChildInEdu", "secChildren", Number, [], Some(IntAboveZero("disabledChildren")),
              None, Some("D12")),
    /* 27 */ Question("hasBreastfeedingChild", "secChildren", YesNo, [], Some(And(NotM, Eq("hasChildren", "yes"))),
              None, None),
    /* 28 */ Question("breastfeedingAmount", "secChildren", Currency, [], Some(Eq("hasBreastfeedingChild", "yes")),
              Some(1000.0), Some("D13")),
    /* 29 */ Question("childcareFees", "secChildren", YesNo, [], Some(And(NotM, Eq("hasChildren", "yes"))),
              None, None),
    /* 30 */ Question("childcareAmount", "secChildren", Currency, [], Some(Eq("childcareFees", "yes")),
              Some(3000.0), Some("D14")),
    /* 31 */ Question("sspnDeposit", "secChildren", YesNo, [], Some(And(NotM, Eq("hasChildren", "yes"))),
              None, None),
    /* 32 */ Question("sspnAmount", "secChildren", Currency, [], Some(Eq("sspnDeposit", "yes")),
              Some(8000.0), Some("D15")),
    /* 33 */ Question("learningDisability", "secChildren", YesNo, [], Some(And(NotM, Eq("hasChildren", "yes"))),
              None, None),
    /* 34 */ Question("learningDisabilityAmount", "secChildren", Currency, [], Some(Eq("learningDisability", "yes")),
              Some(6000.0), Some("D5a"))
  ]

  /** Parents' medical costs, own education, lifestyle, sports and EV charging. */
  const PARENTS_EDUCATION_QUESTIONS: seq<Question> := [
    /* 35 */ Question("parentsMedical", "secParents", YesNo, [], Some(NotM),
              None, None),
    /* 36 */ Question("parentsMedicalAmount", "secParents", Currency, [], Some(Eq("parentsMedical", "yes")),
              Some(8000.0), Some("D4")),
    /* 37 */ Question("selfEducation", "secEduLifestyle", YesNo, [], Some(NotM),
              None, None),
    /* 38 */ Question("educationAmount", "secEduLifestyle", Currency, [], Some(Eq("selfEducation", "yes")),
              Some(7000.0), Some("D3")),
    /* 39 */ Question("lifestyleSpending", "secEduLifestyle", Currency, [], Some(NotM),
              Some(2500.0), Some("D7")),
    /* 40 */ Question("additionalSports", "secEduLifestyle", YesNo, [], Some(NotM),
              None, None),
    /* 41 */ Question("additionalSportsAmount", "secEduLifestyle", Currency, [], Some(Eq("additionalSports", "yes")),
              Some(1000.0), Some("D8")),
    /* 42 */ Question("hasEV", "secEduLifestyle", YesNo, [], Some(NotM),
              None, None),
    /* 43 */ Question("evAmount", "secEduLifestyle", Currency, [], Some(Eq("hasEV", "yes")),
              Some(2500.0), Some("D16"))
  ]

  /** Own medical costs, disability equipment, EPF, insurance, SOCSO and PRS. */
  const MEDICAL_INSURANCE_QUESTIONS: seq<Question> := [
    /* 44 */ Question("medicalSelf", "secMedical", YesNo, [], Some(NotM),
              None, None),
    /* 45 */ Question("medicalSelfAmount", "secMedical", Currency, [], Some(Eq("medicalSelf", "yes")),
              Some(10000.0), Some("D5")),
    /* 46 */ Question("disabledEquipment", "secMedical", YesNo, [], Some(NotM),
              None, None),
    /* 47 */ Question("disabledEquipmentAmount", "secMedical", Currency, [], Some(Eq("disabledEquipment", "yes")),
              Some(6000.0), Some("D6")),
    /* 48 */ Question("epfAmount", "secInsurance", Currency, [], Some(NotM),
              Some(4000.0), Some("D17a")),
    /* 49 */ Question("lifeInsurance", "secInsurance", Currency, [], Some(NotM),
              Some(3000.0), Some("D17b")),
    /* 50 */ Question("eduMedInsurance", "secInsurance", Currency, [], Some(NotM),
              Some(4000.0), Some("D18")),
    /* 51 */ Question("socso", "secInsurance", Currency, [], Some(NotM),
              Some(350.0), Some("D19")),
    /* 52 */ Question("prsContribution", "secInsurance", YesNo, [], Some(NotM),
              None, None),
    /* 53 */ Question("prsAmount", "secInsurance", Currency, [], Some(Eq("prsContribution", "yes")),
              Some(3000.0), Some("D20"))
  ]

  /** Housing loan interest, donations, PCB, zakat and the e-mail address. */
  const CLOSING_QUESTIONS: seq<Question> := [
    /* 54 */ Question("firstHomeLoan", "secHousing", YesNo, [], Some(NotM),
              None, None),
    /* 55 */ Question("housePrice", "secHousing", Select, ["under500k", "500k750k", "above750k"], Some(Eq("firstHomeLoan", "yes")),
              None, None),
    /* 56 */ Question("housingInterest", "secHousing", Currency, [], Some(And(Eq("firstHomeLoan", "yes"), Neq("housePrice", "above750k"))),
              Some(7000.0), Some("D21")),
    /* 57 */ Question("hasDonations", "secDeductions", YesNo, [], Some(NotM),
              None, None),
    /* 58 */ Question("donationAmount", "secDeductions", Currency, [], Some(Eq("hasDonations", "yes")),
              None, Some("C7")),
    /* 59 */ Question("pcbAmount", "secPcb", Currency, [], Some(Neq("formType", "M")),
              None, Some("H4")),
    /* 60 */ Question("zakatAmount", "secRebates", Currency, [], Some(NotM),
              None, Some("F1")),
    /* 61 */ Question("email", "secEmail", Email, [], None,
              None, None)
  ]

  /** The whole wizard, in the order it asks. */
  const QUESTIONS: seq<Question> :=
    INCOME_QUESTIONS + OTHER_INCOME_QUESTIONS + PERSONAL_QUESTIONS + CHILDREN_QUESTIONS
    + PARENTS_EDUCATION_QUESTIONS + MEDICAL_INSURANCE_QUESTIONS + CLOSING_QUESTIONS

  /** The table: 62 questions, opening with the form type and closing with
      the e-mail address. */
  lemma QuestionTable()
    ensures |QUESTIONS| == 62
    ensures QUESTIONS[0].id == "formType" && QUESTIONS[0].showIf.None?
    ensures QUESTIONS[61].id == "email" && QUESTIONS[61].showIf.None?
  {
  }

  /** The sections that collect the income figures (and the form type),
      as against the relief, rebate and e-mail sections that follow them. */
  predicate IncomeSection(section: string)
  {
    section == "secFormType" || section == "secIncome" || section == "secBusiness"
    || section == "secOtherIncome"
  }

  /** A rule that Form M always fails: the `notM` guard, or the PCB
      question's own `formType !== 'M'`. */
  predicate ResidentOnly(c: Cond)
  {
    GuardedByNotM(c) || c == Neq("formType", "M")
  }

  /** A rule that shows a question as the follow-up of an earlier answer:
      it compares that answer (`Eq`, possibly refined further) or reads a
      count above zero. */
  predicate FollowUp(c: Cond)
  {
    c.Eq? || c.IntAboveZero? || (c.And? && c.left.Eq?)
  }

  /** The shape of every relief and rebate question's rule: resident-only
      or a follow-up. */
  predicate ReliefRule(q: Question)
  {
    q.showIf.Some? && (ResidentOnly(q.showIf.value) || FollowUp(q.showIf.value))
  }

  lemma ResidentOnlyHidden(c: Cond, a: Answers)
    requires Is(a, "formType", "M") && ResidentOnly(c)
    ensures !Holds(c, a)
  {
  }

  lemma ReliefRulesPersonal()
    ensures forall k :: 0 <= k < |PERSONAL_QUESTIONS| ==> ReliefRule(PERSONAL_QUESTIONS[k])
    ensures forall k :: 0 <= k < |CHILDREN_QUESTIONS| ==> ReliefRule(CHILDREN_QUESTIONS[k])
  {
  }

  lemma ReliefRulesRest()
    ensures forall k :: 0 <= k < |PARENTS_EDUCATION_QUESTIONS| ==>
              ReliefRule(PARENTS_EDUCATION_QUESTIONS[k])
    ensures forall k :: 0 <= k < |MEDICAL_INSURANCE_QUESTIONS| ==>
              ReliefRule(MEDICAL_INSURANCE_QUESTIONS[k])
    ensures forall k :: 0 <= k < |CLOSING_QUESTIONS| - 1 ==> ReliefRule(CLOSING_QUESTIONS[k])
  {
  }

  /** Every question from marital status to zakat has a relief rule. */
  lemma ReliefRuleAt(k: int)
    requires 17 <= k < 61
    ensures ReliefRule(QUESTIONS[k])
  {
    ReliefRulesPersonal();
    ReliefRulesRest();
    var before := INCOME_QUESTIONS + OTHER_INCOME_QUESTIONS;
    var personal := before + PERSONAL_QUESTIONS;
    var children := personal + CHILDREN_QUESTIONS;
    var parents := children + PARENTS_EDUCATION_QUESTIONS;
    var medical := parents + MEDICAL_INSURANCE_QUESTIONS;
    assert QUESTIONS == medical + CLOSING_QUESTIONS;
    if k < 21 {
      assert QUESTIONS[k] == PERSONAL_QUESTIONS[k - 17];
    } else if k < 35 {
      assert QUESTIONS[k] == CHILDREN_QUESTIONS[k - 21];
    } else if k < 44 {
      assert QUESTIONS[k] == PARENTS_EDUCATION_QUESTIONS[k - 35];
    } else if k < 54 {
      assert QUESTIONS[k] == MEDICAL_INSURANCE_QUESTIONS[k - 44];
    } else {
      assert QUESTIONS[k] == CLOSING_QUESTIONS[k - 54];
    }
  }

  /** Under Form M a resident-only question is hidden, and every relief
      and rebate question (from marital status to zakat) that still shows
      is the follow-up of an earlier answer: a non-resident is asked no
      relief question unprompted. */
  lemma FormMHidesReliefs(a: Answers)
    requires Is(a, "formType", "M")
    ensures forall k :: (0 <= k < |QUESTIONS| && QUESTIONS[k].showIf.Some? &&
              ResidentOnly(QUESTIONS[k].showIf.value)) ==> !Shown(QUESTIONS[k], a)
    ensures forall k :: 17 <= k < 61 && Shown(QUESTIONS[k], a) ==>
              QUESTIONS[k].showIf.Some? && FollowUp(QUESTIONS[k].showIf.value)
  {
    forall k | 0 <= k < |QUESTIONS| && QUESTIONS[k].showIf.Some? &&
        ResidentOnly(QUESTIONS[k].showIf.value)
      ensures !Shown(QUESTIONS[k], a)
    {
      ResidentOnlyHidden(QUESTIONS[k].showIf.value, a);
    }
    forall k | 17 <= k < 61 && Shown(QUESTIONS[k], a)
      ensures QUESTIONS[k].showIf.Some? && FollowUp(QUESTIONS[k].showIf.value)
    {
      ReliefRuleAt(k);
    }
  }

  /** The two business questions are asked exactly of Form B filers. */
  lemma BusinessQuestions(a: Answers)
    ensures QUESTIONS[2].id == "businessGrossIncome" && QUESTIONS[3].id == "businessAdjustedIncome"
    ensures Shown(QUESTIONS[2], a) <==> Is(a, "formType", "B")
    ensures Shown(QUESTIONS[3], a) <==> Is(a, "formType", "B")
  {
  }

  /** The spouse's income and disability are asked exactly of a resident
      who answered "married", the one status under which the engine reads
      them. */
  lemma SpouseQuestions(a: Answers)
    ensures QUESTIONS[18].id == "spouseWorking" && QUESTIONS[20].id == "spouseDisabled"
    ensures Shown(QUESTIONS[18], a) <==> !Is(a, "formType", "M") && Is(a, "maritalStatus", "married")
    ensures Shown(QUESTIONS[20], a) <==> !Is(a, "formType", "M") && Is(a, "maritalStatus", "married")
  {
    var rule := And(NotM, Eq("maritalStatus", "married"));
    assert QUESTIONS[18].showIf == Some(rule) && QUESTIONS[20].showIf == Some(rule);
    assert Holds(rule, a) <==> Holds(NotM, a) && Holds(Eq("maritalStatus", "married"), a);
  }

  /** The count of disabled children in higher education is asked exactly
      when the count of disabled children, read the way the engine reads
      it, is above zero; it carries no Form M guard of its own. */
  lemma DisabledChildInEduQuestion(a: Answers)
    ensures QUESTIONS[26].id == "disabledChildInEdu"
    ensures Shown(QUESTIONS[26], a) <==> N(a, "disabledChildren") > 0
  {
    if "disabledChildren" !in a {
      AbsentReadsZero(a, "disabledChildren");
    }
  }

  /** The house price is asked of first-home buyers, and the interest
      question exactly when the engine's housing gate is open. */
  lemma HousingQuestions(a: Answers)
    ensures QUESTIONS[55].id == "housePrice" && QUESTIONS[56].id == "housingInterest"
    ensures Shown(QUESTIONS[55], a) <==> Is(a, "firstHomeLoan", "yes")
    ensures Shown(QUESTIONS[56], a) <==> HousingGate(a)
  {
    var rule := And(Eq("firstHomeLoan", "yes"), Neq("housePrice", "above750k"));
    assert QUESTIONS[56].showIf == Some(rule);
    assert Holds(rule, a) <==> Holds(rule.left, a) && Holds(rule.right, a);
  }

  /** The e-mail address is the last question and is asked of everyone. */
  lemma EmailAskedLast(a: Answers)
    ensures QUESTIONS[|QUESTIONS| - 1].id == "email"
    ensures Shown(QUESTIONS[|QUESTIONS| - 1], a)
  {
  }

  /** Every answer value the engine compares against is one the matching
      select question offers. */
  lemma EngineValuesOffered()
    ensures QUESTIONS[0].id == "formType" && "B" in QUESTIONS[0].options && "M" in QUESTIONS[0].options
    ensures QUESTIONS[17].id == "maritalStatus" && "married" in QUESTIONS[17].options
    ensures "divorced" in QUESTIONS[17].options
    ensures QUESTIONS[18].id == "spouseWorking" && "no" in QUESTIONS[18].options
    ensures QUESTIONS[55].id == "housePrice" && "under500k" in QUESTIONS[55].options
    ensures "above750k" in QUESTIONS[55].options
  {
  }

  /** The input ceiling of each claimed amount is the cap the engine
      clamps that amount to, and the form line it cites is the line of that
      relief: first the child-related amounts. */
  lemma ChildrenCeilings()
    ensures QUESTIONS[28].id == "breastfeedingAmount" && QUESTIONS[28].max == Some(RELIEF_LIMITS.breastfeeding)
            && QUESTIONS[28].formRef == Some("D13")
    ensures QUESTIONS[30].id == "childcareAmount" && QUESTIONS[30].max == Some(RELIEF_LIMITS.childcare)
            && QUESTIONS[30].formRef == Some("D14")
    ensures QUESTIONS[32].id == "sspnAmount" && QUESTIONS[32].max == Some(RELIEF_LIMITS.sspn)
            && QUESTIONS[32].formRef == Some("D15")
    ensures QUESTIONS[34].id == "learningDisabilityAmount" && QUESTIONS[34].max == Some(RELIEF_LIMITS.learningDisability)
            && QUESTIONS[34].formRef == Some("D5a")
  {
  }

  /** The same for the parents, education, lifestyle, sports and EV amounts. */
  lemma ParentsEducationCeilings()
    ensures QUESTIONS[36].id == "parentsMedicalAmount" && QUESTIONS[36].max == Some(RELIEF_LIMITS.parentsMedical)
            && QUESTIONS[36].formRef == Some("D4")
    ensures QUESTIONS[38].id == "educationAmount" && QUESTIONS[38].max == Some(RELIEF_LIMITS.education)
            && QUESTIONS[38].formRef == Some("D3")
    ensures QUESTIONS[39].id == "lifestyleSpending" && QUESTIONS[39].max == Some(RELIEF_LIMITS.lifestyle)
            && QUESTIONS[39].formRef == Some("D7")
    ensures QUESTIONS[41].id == "additionalSportsAmount" && QUESTIONS[41].max == Some(RELIEF_LIMITS.additionalSports)
            && QUESTIONS[41].formRef == Some("D8")
    ensures QUESTIONS[43].id == "evAmount" && QUESTIONS[43].max == Some(RELIEF_LIMITS.evCharging)
            && QUESTIONS[43].formRef == Some("D16")
  {
  }

  /** The same for the medical and equipment amounts. */
  lemma MedicalCeilings()
    ensures QUESTIONS[45].id == "medicalSelfAmount" && QUESTIONS[45].max == Some(RELIEF_LIMITS.medicalSelf)
            && QUESTIONS[45].formRef == Some("D5")
    ensures QUESTIONS[47].id == "disabledEquipmentAmount" && QUESTIONS[47].max == Some(RELIEF_LIMITS.disabledEquipment)
            && QUESTIONS[47].formRef == Some("D6")
  {
  }

  /** The same for the EPF, life, insurance, SOCSO and PRS amounts. */
  lemma InsuranceCeilings()
    ensures QUESTIONS[48].id == "epfAmount" && QUESTIONS[48].max == Some(RELIEF_LIMITS.epf)
            && QUESTIONS[48].formRef == Some("D17a")
    ensures QUESTIONS[49].id == "lifeInsurance" && QUESTIONS[49].max == Some(RELIEF_LIMITS.lifeInsurance)
            && QUESTIONS[49].formRef == Some("D17b")
    ensures QUESTIONS[50].id == "eduMedInsurance" && QUESTIONS[50].max == Some(RELIEF_LIMITS.eduMedInsurance)
            && QUESTIONS[50].formRef == Some("D18")
    ensures QUESTIONS[51].id == "socso" && QUESTIONS[51].max == Some(RELIEF_LIMITS.socso)
            && QUESTIONS[51].formRef == Some("D19")
    ensures QUESTIONS[53].id == "prsAmount" && QUESTIONS[53].max == Some(RELIEF_LIMITS.prs)
            && QUESTIONS[53].formRef == Some("D20")
  {
  }

  /** The housing-interest ceiling is the larger of the two caps the engine
      chooses between by house price. */
  lemma HousingCeiling()
    ensures QUESTIONS[56].id == "housingInterest" && QUESTIONS[56].max == Some(RELIEF_LIMITS.housingLoanUnder500k)
            && QUESTIONS[56].formRef == Some("D21")
  {
  }

  /** Whatever the house price, the engine's housing cap stays within the
      interest question's ceiling. */
  lemma HousingCapWithinCeiling(a: Answers)
    ensures QUESTIONS[56].max.Some? && HousingCap(a) <= QUESTIONS[56].max.value
    ensures Is(a, "housePrice", "under500k") ==> HousingCap(a) == QUESTIONS[56].max.value
  {
  }
}
