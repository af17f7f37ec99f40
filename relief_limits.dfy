/** The year-of-assessment 2025 relief caps, per-unit amounts and the two
    rates the engine applies, as one constant record (ringgit, exact). */
module ReliefLimits {

  datatype Limits = Limits(
    individual: real,
    spouse: real,
    disabledSelf: real,
    disabledSpouse: real,
    education: real,
    parentsMedical: real,
    medicalSelf: real,
    learningDisability: real,
    disabledEquipment: real,
    lifestyle: real,
    additionalSports: real,
    childUnder18: real,
    childHigherEdu: real,
    childPreU: real,
    disabledChild: real,
    disabledChildHigherEdu: real,
    breastfeeding: real,
    childcare: real,
    sspn: real,
    evCharging: real,
    epf: real,
    lifeInsurance: real,
    epfLifeCombined: real,
    eduMedInsurance: real,
    socso: real,
    prs: real,
    housingLoanUnder500k: real,
    housingLoan500kTo750k: real,
    donationPercent: real,
    dividendFlatRate: real,
    dividendExemptThreshold: real)

  const RELIEF_LIMITS: Limits := Limits(
    individual             := 9000.0,
    spouse                 := 4000.0,
    disabledSelf           := 7000.0,
    disabledSpouse         := 6000.0,
    education              := 7000.0,
    parentsMedical         := 8000.0,
    medicalSelf            := 10000.0,
    learningDisability     := 6000.0,
    disabledEquipment      := 6000.0,
    lifestyle              := 2500.0,
    additionalSports       := 1000.0,
    childUnder18           := 2000.0,
    childHigherEdu         := 8000.0,
    childPreU              := 2000.0,
    disabledChild          := 8000.0,
    disabledChildHigherEdu := 8000.0,
    breastfeeding          := 1000.0,
    childcare              := 3000.0,
    sspn                   := 8000.0,
    evCharging             := 2500.0,
    epf                    := 4000.0,
    lifeInsurance          := 3000.0,
    epfLifeCombined        := 7000.0,
    eduMedInsurance        := 4000.0,
    socso                  := 350.0,
    prs                    := 3000.0,
    housingLoanUnder500k   := 7000.0,
    housingLoan500kTo750k  := 5000.0,
    donationPercent        := 0.10,
    dividendFlatRate       := 0.02,
    dividendExemptThreshold := 100000.0)

  /** Every cap and per-unit amount of a record, in declaration order. */
  function Amounts(l: Limits): (xs: seq<real>)
    ensures |xs| == 29
    ensures xs[0] == l.individual && xs[22] == l.epfLifeCombined && xs[28] == l.dividendExemptThreshold
  {
    [l.individual, l.spouse, l.disabledSelf, l.disabledSpouse, l.education, l.parentsMedical,
     l.medicalSelf, l.learningDisability, l.disabledEquipment, l.lifestyle, l.additionalSports,
     l.childUnder18, l.childHigherEdu, l.childPreU, l.disabledChild, l.disabledChildHigherEdu,
     l.breastfeeding, l.childcare, l.sspn, l.evCharging, l.epf, l.lifeInsurance,
     l.epfLifeCombined, l.eduMedInsurance, l.socso, l.prs, l.housingLoanUnder500k,
     l.housingLoan500kTo750k, l.dividendExemptThreshold]
  }

  /** A record the engine can rely on: no negative amount, a combined
      EPF/life cap no larger than its two parts, a dearer house never
      earning a larger housing cap, and both rates fractions of one. */
  predicate Sane(l: Limits)
  {
    (forall k :: 0 <= k < |Amounts(l)| ==> 0.0 <= Amounts(l)[k]) &&
    l.epfLifeCombined <= l.epf + l.lifeInsurance &&
    l.housingLoan500kTo750k <= l.housingLoanUnder500k &&
    0.0 <= l.donationPercent <= 1.0 &&
    0.0 <= l.dividendFlatRate <= 1.0
  }

  lemma ReliefLimitsSane()
    ensures Sane(RELIEF_LIMITS)
    ensures RELIEF_LIMITS.individual > 0.0
    ensures RELIEF_LIMITS.epf <= RELIEF_LIMITS.epfLifeCombined
    ensures RELIEF_LIMITS.lifeInsurance <= RELIEF_LIMITS.epfLifeCombined
  {
  }
}
