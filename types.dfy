/** Shared record types of the tax engine and its question wizard, plus the
    small numeric and answer-lookup helpers every other module uses. */
module Types {

  /** A possibly absent value (the source's `undefined`). */
  datatype Option<+T> = None | Some(value: T)

  /** Answers given in the wizard: question id to the raw string typed or
      chosen. A key is absent when its question was never answered. */
  type Answers = map<string, string>

  /** `a.key === v`: the key is present and holds exactly `v`. An absent key
      (`undefined`) equals no string. */
  predicate Is(a: Answers, key: string, v: string)
  {
    key in a && a[key] == v
  }

  /** A claimed, clamped deduction. */
  datatype Relief = Relief(name: string, amount: real, ref: string)

  /** An advisory note about an unclaimed or partly claimed relief. */
  datatype MissedOpportunity = MissedOpportunity(name: string, potential: real, tip: string)

  /** One line of the official return (`caption` is the source's `label`, a
      reserved word here). `bold` stands for the optional flag,
      absent meaning false. */
  datatype FormField = FormField(section: string, ref: string, caption: string, value: real,
                                 highlight: bool, bold: bool)

  /** Everything `computeAll` returns for one snapshot of answers. */
  datatype ComputeResult = ComputeResult(
    reliefs: seq<Relief>,
    missed: seq<MissedOpportunity>,
    formFields: seq<FormField>,
    totalIncome: real,
    totalRelief: real,
    chargeableIncome: real,
    taxBeforeRebate: real,
    dividend: real,
    dividendTax: real,
    totalRebate: real,
    finalTax: real,
    taxSaved: real,
    zakat: real,
    selfRebate: real,
    spouseRebate: real)

  /** The input widget a question uses. */
  datatype QuestionType = Currency | Number | YesNo | Select | Email

  /** The boolean expressions the questions' `showIf` lambdas are made of. */
  datatype Cond =
    | NotM                          // `notM(a)`: a.formType !== 'M'
    | Eq(key: string, value: string)     // a.key === value
    | Neq(key: string, value: string)    // a.key !== value
    | IntAboveZero(key: string)     // parseInt(a.key) > 0
    | And(left: Cond, right: Cond)  // left && right

  /** A wizard question, without its display text, tip and icon. */
  datatype Question = Question(
    id: string,
    section: string,
    kind: QuestionType,
    options: seq<string>,
    showIf: Option<Cond>,
    max: Option<real>,
    formRef: Option<string>)

  function Min(x: real, y: real): (r: real)
    ensures r <= x && r <= y && (r == x || r == y)
  {
    if x <= y then x else y
  }

  function Max(x: real, y: real): (r: real)
    ensures r >= x && r >= y && (r == x || r == y)
  {
    if x >= y then x else y
  }

  /** The English captions the calculator writes on relief lines and on
      Form BE lines, one constructor per caption. */
  datatype Caption =
    AdditionalSports
    | AggregateIncomeLine
    | Alimony
    | Breastfeeding
    | ChargeableLine
    | Childcare
    | ChildrenHigherEdu
    | ChildrenPreU
    | ChildrenUnder18
    | DisabledChildren
    | DisabledChildrenHigherEdu
    | DisabledEquipment
    | DisabledSelf
    | DisabledSpouse
    | DividendLine
    | DividendTaxLine
    | EduMedInsurance
    | EmploymentLine
    | EpfAndLife
    | EvCharging
    | HousingInterest
    | IndividualSelf
    | LearningDisability
    | LifestyleSpending
    | MedicalSelf
    | OtherIncomeLine
    | ParentsMedical
    | RentalLine
    | RetirementScheme
    | SelfEducation
    | SelfRebateLine
    | SocsoEis
    | SpouseNoIncome
    | SpouseRebateLine
    | SspnDeposit
    | TaxOnChargeableLine
    | TaxPayableLine
    | TotalReliefsLine
    | ZakatLine

  /** The wording of each caption. */
  function English(c: Caption): string
  {
    match c
    case AdditionalSports => "Additional sports activity"
    case AggregateIncomeLine => "Aggregate income"
    case Alimony => "Alimony (formal agreement)"
    case Breastfeeding => "Breastfeeding equipment"
    case ChargeableLine => "Chargeable income"
    case Childcare => "Childcare / kindergarten"
    case ChildrenHigherEdu => "Children higher edu"
    case ChildrenPreU => "Children pre-U"
    case ChildrenUnder18 => "Children under 18"
    case DisabledChildren => "Disabled children"
    case DisabledChildrenHigherEdu => "Disabled children in higher edu"
    case DisabledEquipment => "Disabled equipment"
    case DisabledSelf => "Disabled individual (self)"
    case DisabledSpouse => "Disabled spouse"
    case DividendLine => "Dividend income (above RM100k — flat 2% tax, verify with LHDN)"
    case DividendTaxLine => "Tax on dividend income (2% flat)"
    case EduMedInsurance => "Education & medical insurance"
    case EmploymentLine => "Statutory employment income"
    case EpfAndLife => "EPF & life insurance / takaful"
    case EvCharging => "EV charging facility / compost machine"
    case HousingInterest => "Housing loan interest (first home)"
    case IndividualSelf => "Individual & dependents"
    case LearningDisability => "Learning disability treatment (child ≤18)"
    case LifestyleSpending => "Lifestyle (books, PC, internet, sports, gym)"
    case MedicalSelf => "Medical expenses (self / spouse / child)"
    case OtherIncomeLine => "Interest, discounts, royalties, premiums, pensions, annuities, other"
    case ParentsMedical => "Parents medical / carer expenses"
    case RentalLine => "Statutory rental income (net)"
    case RetirementScheme => "Private Retirement Scheme (PRS)"
    case SelfEducation => "Education fees (self)"
    case SelfRebateLine => "Self rebate (chargeable income ≤ RM35,000)"
    case SocsoEis => "SOCSO / EIS contributions"
    case SpouseNoIncome => "Spouse (no income / joint assessment)"
    case SpouseRebateLine => "Spouse rebate"
    case SspnDeposit => "SSPN net deposit"
    case TaxOnChargeableLine => "Tax on chargeable income"
    case TaxPayableLine => "TAX PAYABLE"
    case TotalReliefsLine => "Total tax reliefs"
    case ZakatLine => "Zakat / fitrah rebate"
  }
}
