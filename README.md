# CukaiKu tax engine in Dafny

This project models the core of CukaiKu, a Malaysian personal income-tax
calculator for year of assessment 2025, and proves properties of the model.
CukaiKu asks a taxpayer a series of questions and works out the tax on a
Form BE return. The core has these parts:

- The progressive bracket walk: `calculateTax`, over the 2025 bracket table.
- The relief engine: `computeAll`. It reads the answers map and aggregates
  income, keeping dividends out of bracket income. It caps donations, clamps
  each relief and writes the form lines. It then computes the chargeable
  income, the rebates, the tax payable and the missed-relief notes.
- The relief caps record: `RELIEF_LIMITS`.
- The wizard's 62 questions, with their `showIf` visibility rules and their
  input ceilings.
- The Bahasa Malaysia label rewriter used for the printed form guide:
  `getBmLabel`, with its tables.
- The wizard's state hook: `useCalculator`. It tracks the visible questions,
  the question index and the screen, and saves a checkpoint the first time
  each checkpoint fires.

Modules follow the source files:

| module | file | models |
|---|---|---|
| `Types` | types.dfy | the records of data/types.ts, `Cond` for `showIf` |
| `NumberParse` | number_parse.dfy | JavaScript `parseFloat`, `parseInt`, template printing of numbers, en-US `toLocaleString` |
| `TaxBrackets` | tax_brackets.dfy | data/taxBrackets.ts |
| `TaxCalculator` | tax_calculator.dfy | engine/taxCalculator.ts (imperative loop plus pure function) |
| `ReliefLimits` | relief_limits.dfy | data/reliefLimits.ts |
| `ReliefEngine` | relief_engine.dfy | engine/reliefEngine.ts: pure function `Compute` and the method `ComputeAll` proved equal to it |
| `ReliefProperties` | relief_properties.dfy | lemmas about the engine |
| `Questions` | questions.dfy | data/questions.ts |
| `BmLabels` | bm_labels.dfy | lib/pdf/bmLabels.ts |
| `Checkpoints` | checkpoints.dfy | the fire-once checkpoint log of hooks/useCalculator.ts |
| `CalculatorState` | calculator_state.dfy | hooks/useCalculator.ts as a class |

The tax saved that the engine reports (and the results e-mail shows as
"Tax saved vs zero relief") compares the bracket tax without reliefs with
the final tax, and the final tax also carries the 2% dividend tax. A
taxpayer with dividends and little other income can therefore be shown a
negative saving: `ReliefProperties.DividendMakesSavingNegative` derives
−1600 for RM100,000 of dividends and nothing else. The model keeps this
behaviour as written; `ReliefProperties.TaxSavedNonNegative` gives the
condition (dividend tax within the rebates) under which the figure is ≥ 0.

The English captions the engine writes on relief and form lines are
gathered in one datatype, `Types.Caption`, whose `English` function gives
each caption's text exactly as the engine spells it.

Money is an exact `real`; the only rates are integer percentages, 0.10 and
0.02. Answers are a `map<string, string>`, and an absent key plays the part
of `undefined`. `p(v)` and `n(v)` are modelled on a character-level model of
`parseFloat` and `parseInt`, and unparsable text reads as 0. Negative parsed
amounts are kept as they are, exactly as the code keeps them. A negative
declared donation therefore raises the income after donations above the
bracket income, as it does in the code; `DonationBounds` bounds it by the
income only for a donation that is not negative.

Three behaviours of the code that the model keeps as written:

- The code never checks its configuration tables. The model adds no check;
  it proves instead that the 2025 tables are well formed
  (`TaxBrackets.TaxBrackets2025WellFormed`, `ReliefLimits.ReliefLimitsSane`).
- `disabledChildInEdu` is not bounded by `disabledChildren`.
- `dividendExemptThreshold` is never used. No exemption threshold is applied
  to dividends.

## Model

| member | source | states |
|---|---|---|
| TaxCalculator.BracketTax | engine/taxCalculator.ts:14-20 | the band charges accumulated down the table: each band taxes min(remaining, band size) at its rate until nothing remains (properties in `BracketTaxNonNegative`, `BracketTaxMonotone`, `SlicesCoverIncome`) |
| TaxCalculator.Tax | engine/taxCalculator.ts:10-23 | `calculateTax` as a function: max(0, `BracketTax` over the 2025 table) (properties in `TaxMonotone`, `TaxMarginal`, `TaxExamples`) |
| TaxCalculator.CalculateTax | engine/taxCalculator.ts:10-23 | the loop's result is the bracket tax of the 2025 table (`Tax`), never negative, and 0 for any income ≤ 0 |
| TaxCalculator.BracketWalk | engine/taxCalculator.ts:11-22 | for any table the walk returns max(0, the accumulated band charges); non-negative; 0 when the income is ≤ 0 |
| TaxCalculator.ChainIsSound | data/taxBrackets.ts:11-20 | a contiguous chain has non-negative rates and every finite band has min ≤ max |
| TaxCalculator.BracketTaxNonNegative | engine/taxCalculator.ts:14-20 | with non-negative rates the accumulated tax is never negative |
| TaxCalculator.BracketTaxMonotone | engine/taxCalculator.ts:14-20 | for any sound table, more income never gives less tax |
| TaxCalculator.TaxMonotone | engine/taxCalculator.ts:10-23 | the 2025 tax is non-decreasing in chargeable income |
| TaxCalculator.FullBandStep | engine/taxCalculator.ts:16-19 | an income that fills the first band pays that band in full at its rate, and the rest continues from the next bracket |
| TaxCalculator.FirstBand | engine/taxCalculator.ts:16-18 | inside the first band the tax is linear at the first rate |
| TaxCalculator.MarginalFrom | engine/taxCalculator.ts:14-20 | for x in bracket i, tax(x) = tax(min_i) + (x − min_i)·rate_i/100, for any chain |
| TaxCalculator.TaxMarginal | engine/taxCalculator.ts:14-20 | the marginal form on the 2025 table |
| TaxCalculator.SlicesCoverIncome | engine/taxCalculator.ts:16-19 | each slice taxed is positive and no wider than its band (max − min), and the slices sum exactly to max(0, income): nothing is taxed twice or skipped |
| TaxCalculator.TaxExamples | engine/taxCalculator.ts:10-23 | tax(5000) = 0, tax(20000) = 150, tax(20001) = 150.03, tax(35000) = 600, tax(50000) = 1500, tax(51000) = 1610 |
| TaxBrackets.ChainFacts | data/taxBrackets.ts:8-9 | a chain ends unbounded, each finite max is the next min, the mins rise strictly, and the rates are non-negative and never fall |
| TaxBrackets.TaxBracketRows | data/taxBrackets.ts:11-20 | the ten rows of the 2025 table, each with its lower bound, upper bound and rate |
| TaxBrackets.TaxBrackets2025WellFormed | data/taxBrackets.ts:11-20 | the table has 10 brackets, starts at 0 with rate 0, is contiguous, only its last bracket is unbounded, every finite band is non-empty, and the rates climb from 0 to 30 |
| ReliefLimits.ReliefLimitsSane | data/reliefLimits.ts:6-47 | every cap and per-unit amount is ≥ 0; the combined EPF/life cap is ≤ epf + life and ≥ each part; the 500k–750k housing cap is ≤ the under-500k cap; both rates lie in [0, 1] |
| NumberParse.NatToString | engine/reliefEngine.ts:118-122 | a count prints as one or more decimal digits |
| NumberParse.DecimalOfNatToString | engine/reliefEngine.ts:118-122 | the printed digits read back as the count |
| NumberParse.ParseNatToString | engine/reliefEngine.ts:10-11 | `parseInt` and `parseFloat` of a printed count give the count back |
| NumberParse.ParseFloatZero | engine/reliefEngine.ts:10 | an absent answer, read as '0', is 0 |
| NumberParse.RoundHalfUp | engine/reliefEngine.ts:43 | `Math.round` lands within half a unit of its argument, halves going up |
| NumberParse.Grouped | engine/reliefEngine.ts:118-122 | en-US `toLocaleString` grouping gives a non-empty string |
| NumberParse.GroupedExamples | engine/reliefEngine.ts:118-122 | 2000 prints as "2,000", 8000 as "8,000", 1234567 as "1,234,567" |
| NumberParse.GroupedDigits | engine/reliefEngine.ts:118-122 | taking the commas out of the grouped numeral gives the plain decimal numeral: grouping only inserts separators |
| NumberParse.ParseFloat | engine/reliefEngine.ts:10 | JavaScript `parseFloat`: optional leading space and sign, the longest decimal prefix, `None` (NaN) when no digit is read (round trip in `ParseNatToString`) |
| NumberParse.ParseInt | engine/reliefEngine.ts:11 | JavaScript `parseInt` with no radix: optional space and sign, a `0x` hexadecimal prefix, the longest digit prefix, `None` (NaN) when no digit is read |
| NumberParse.FloatOrZero | engine/reliefEngine.ts:10 | `parseFloat(v)`, falling back to 0: the parsed value, 0 for NaN (`ParseFloatZero`, `ParseNatToString`) |
| NumberParse.IntOrZero | engine/reliefEngine.ts:11 | `parseInt(v)`, falling back to 0: the parsed value, 0 for NaN |
| ReliefEngine.P | engine/reliefEngine.ts:10 | the helper `p`: an answer read with `parseFloat`, a missing answer read as "0", NaN as 0 (`AbsentReadsZero`) |
| ReliefEngine.N | engine/reliefEngine.ts:11 | the helper `n`: the same with `parseInt` |
| ReliefEngine.TotalIncome | engine/reliefEngine.ts:14-30 | bracket income: employment + net rental + other statutory income, dividends excluded (`IncomeGates`, `DividendIsolation`) |
| ReliefEngine.Donations | engine/reliefEngine.ts:41-42 | approved donations, capped at the donation percentage of bracket income, only when declared (`DonationBounds`) |
| ReliefEngine.AfterDeduction | engine/reliefEngine.ts:44 | max(0, bracket income − donations) |
| ReliefEngine.Reliefs | engine/reliefEngine.ts:46-183 | the relief list the pushes build, section by section (`ReliefSections`, `ReliefsShape`) |
| ReliefEngine.Missed | engine/reliefEngine.ts:46-176 | the missed-relief notes the pushes build (`ReliefSections`, `MissedPositive`) |
| ReliefEngine.TotalRelief | engine/reliefEngine.ts:186 | the sum of the relief amounts (`SumReliefs`, `TotalsBounds`) |
| ReliefEngine.ChargeableIncome | engine/reliefEngine.ts:187 | max(0, income after donations − total relief) (`TotalsBounds`) |
| ReliefEngine.TotalRebate | engine/reliefEngine.ts:195-198 | zakat + self rebate + spouse rebate (`RebateRules`) |
| ReliefEngine.FinalTax | engine/reliefEngine.ts:188-199 | max(0, bracket tax + dividend tax − rebates) (`TotalsBounds`, `DividendOnlyTaxedFlat`) |
| ReliefEngine.TaxSaved | engine/reliefEngine.ts:201-203 | the bracket tax on income after donations less RM9,000, minus the final tax (`TaxSavedNonNegative`, `DividendMakesSavingNegative`) |
| ReliefEngine.Compute | engine/reliefEngine.ts:5-222 | the whole `ComputeResult` assembled from the functions above (`ComputeAll`) |
| ReliefEngine.AbsentReadsZero | engine/reliefEngine.ts:10-11 | an unanswered question reads as 0 through both `p` and `n` |
| ReliefEngine.ReliefFields | engine/reliefEngine.ts:47-50 | one section-D form line per relief, each built from that relief |
| ReliefEngine.PushWhen | engine/reliefEngine.ts:36 | a conditional push appends the item exactly when the condition holds |
| ReliefEngine.AddRelief | engine/reliefEngine.ts:47-50 | `addRelief` appends the relief and keeps the form lines equal to the income lines plus one line per relief |
| ReliefEngine.ClaimCapped | engine/reliefEngine.ts:67-69 | a flagged claim clamped to its cap is appended only when the clamped value is > 0, and the form-line invariant is kept |
| ReliefEngine.ClaimFixed | engine/reliefEngine.ts:63-64 | a fixed-amount relief is appended exactly when its flag holds, and the form-line invariant is kept |
| ReliefEngine.ClaimPerUnit | engine/reliefEngine.ts:118-122 | a per-child relief of count × unit is appended when the count is > 0, and the form-line invariant is kept |
| ReliefEngine.PushSpouse | engine/reliefEngine.ts:56-60 | the spouse relief (married to a spouse without income) or the alimony relief (divorced) is appended, both on line D2 |
| ReliefEngine.PushPersonalReliefs | engine/reliefEngine.ts:52-109 | the reliefs and missed notes from D1 to D8 are the pure function's, and the form-line invariant is kept |
| ReliefEngine.PushChildReliefs | engine/reliefEngine.ts:111-148 | the reliefs and missed notes from D9 to D16 are the pure function's, and the form-line invariant is kept |
| ReliefEngine.PushContributionReliefs | engine/reliefEngine.ts:150-183 | the reliefs and missed notes from D17 to D21 are the pure function's, and the form-line invariant is kept |
| ReliefEngine.PushSavingsReliefs | engine/reliefEngine.ts:150-168 | D17 (the EPF and life amounts, each clamped, then clamped together), D18 and D19 are appended as capped claims, and the form-line invariant is kept |
| ReliefEngine.PushPrsAndHousing | engine/reliefEngine.ts:170-183 | D20 when PRS is declared, and D21 behind the first-home gate with the price-dependent cap, are appended, and the form-line invariant is kept |
| ReliefEngine.PushContributionNotes | engine/reliefEngine.ts:155-176 | the EPF, insurance and PRS notes are appended exactly when the claim falls short of its cap or PRS is not declared |
| ReliefEngine.ReliefSections | engine/reliefEngine.ts:46-183 | the three relief sections from empty arrays give exactly the reliefs and notes of the pure functions, and one form line per relief after the income lines |
| ReliefEngine.SumReliefs | engine/reliefEngine.ts:186 | the `reduce` loop returns the sum of the relief amounts |
| ReliefEngine.IncomeSection | engine/reliefEngine.ts:13-44 | the loop-free income part returns the bracket income, the dividend, the income after donations and the section B/C lines |
| ReliefEngine.AggregateSection | engine/reliefEngine.ts:14-38 | the bracket income (employment + net rental + other statutory), the dividend, and the lines C1 to C4 with C3a only for a positive dividend |
| ReliefEngine.Totals | engine/reliefEngine.ts:186-203 | the chargeable income, bracket tax, dividend tax, zakat, rebates, final tax and tax saved match the pure functions |
| ReliefEngine.Chargeable | engine/reliefEngine.ts:187 | the chargeable income is max(0, income after donations − total relief) |
| ReliefEngine.DividendTaxOn | engine/reliefEngine.ts:191 | the dividend tax is the dividend times the 2% flat rate |
| ReliefEngine.Rebates | engine/reliefEngine.ts:195-198 | zakat as answered, 400 self rebate up to 35000, 400 spouse rebate when also married to a spouse without income, and their sum |
| ReliefEngine.Payable | engine/reliefEngine.ts:192-199 | the tax payable is max(0, bracket tax + dividend tax − rebates) |
| ReliefEngine.PushSummaryFields | engine/reliefEngine.ts:205-213 | the D_TOTAL, E, F and E_FINAL lines are appended as the pure function lists them |
| ReliefEngine.ComputeAll | engine/reliefEngine.ts:5-222 | `computeAll` returns exactly `Compute(a)`, the value the lemmas below describe |
| ReliefProperties.IncomeGates | engine/reliefEngine.ts:14-30 | net rental is max(0, gross − expenses) when declared and 0 otherwise; interest, royalty, pension and other income each count exactly when their own flag is "yes"; the dividend is 0 unless declared; bracket income is employment + net rental + the four gated incomes |
| ReliefProperties.DonationBounds | engine/reliefEngine.ts:41-44 | donations are 0 unless declared; when declared, at most 10% of bracket income; the income after donations is ≥ 0, and at most max(0, bracket income) when the donation is not negative |
| ReliefProperties.SameReads | engine/reliefEngine.ts:10-11 | changing the two dividend answers leaves every other answer's reading unchanged |
| ReliefProperties.DividendIsolation | engine/reliefEngine.ts:27-30 | whatever is answered about dividends, the bracket income and the income after donations stay the same |
| ReliefProperties.ReliefsIsolation | engine/reliefEngine.ts:46-183 | whatever is answered about dividends, the list of reliefs stays the same |
| ReliefProperties.RebateDependsOn | engine/reliefEngine.ts:195-198 | the total rebate depends only on zakat, the chargeable income and the two spouse answers |
| ReliefProperties.DividendOnlyTaxedFlat | engine/reliefEngine.ts:187-199 | the dividend changes neither the chargeable income nor the rebates; it reaches the tax payable only through the 2% term added after the bracket tax |
| ReliefProperties.CappedClamp | engine/reliefEngine.ts:67-69 | a capped claim is recorded exactly when its flag holds and the clamped value is > 0, and then it is min(claim, cap), in (0, cap] |
| ReliefProperties.ReliefsShape | engine/reliefEngine.ts:47-53 | the first relief is always D1 = 9000, and every recorded amount is positive |
| ReliefProperties.SumAppend | engine/reliefEngine.ts:186 | the reduce over a concatenation is the sum of the two reduces |
| ReliefProperties.SumAtLeastFirst | engine/reliefEngine.ts:186 | with positive amounts the total is at least the first amount |
| ReliefProperties.TotalsBounds | engine/reliefEngine.ts:186-199 | total relief ≥ 9000; 0 ≤ chargeable income ≤ max(0, income after donations − 9000); final tax ≥ 0 and ≥ bracket tax + dividend tax − rebates |
| ReliefProperties.RebateRules | engine/reliefEngine.ts:195-198 | the self rebate is 400 exactly when chargeable income ≤ 35000; the spouse rebate is 400 exactly when, in addition, the taxpayer is married to a spouse without income; zakat passes through uncapped |
| ReliefProperties.TaxSavedNonNegative | engine/reliefEngine.ts:201-203 | when the dividend tax does not exceed the rebates, the tax saved is ≥ 0 |
| ReliefProperties.DividendMakesSavingNegative | engine/reliefEngine.ts:201-203 | with no income after donations, no zakat, no marriage and a dividend tax of 2000, the chargeable income is 0, the rebate 400, the final tax 1600 and the tax saved −1600 |
| ReliefProperties.WithRef | engine/reliefEngine.ts:47-50 | the reliefs of one form line are reliefs of the list with that reference |
| ReliefProperties.ContributionEpfRef | engine/reliefEngine.ts:151-154 | the contribution section adds at most one D17 line: the EPF and life amounts, each clamped, then clamped together to 7000 |
| ReliefProperties.ContributionHousingRef | engine/reliefEngine.ts:179-183 | the contribution section adds at most one D21 line, behind the housing gate and cap |
| ReliefProperties.EarlierRefs | engine/reliefEngine.ts:52-148 | lines D1 to D16 never carry the EPF or the housing relief |
| ReliefProperties.EpfLifeLine | engine/reliefEngine.ts:150-154 | the reliefs on line D17 are exactly the one two-level clamped EPF and life claim |
| ReliefProperties.HousingLine | engine/reliefEngine.ts:178-183 | the reliefs on line D21 are exactly the one gated, capped housing-interest claim |
| ReliefProperties.EpfLifeRelief | engine/reliefEngine.ts:151-154 | line D17 is the two-level clamp: never above 7000 nor above min(epf, 4000) + min(life, 3000); it is 7000 whenever both parts reach their caps |
| ReliefProperties.HousingRelief | engine/reliefEngine.ts:179-183 | line D21 appears only for a first home not priced above 750k, with cap 7000 under 500k and 5000 otherwise |
| ReliefProperties.IncomeFieldsShape | engine/reliefEngine.ts:33-43 | the income lines are C1, C2, C3, then C3a exactly when there is a dividend, then C4 = bracket income + dividend, then C7 exactly when a donation is deducted |
| ReliefProperties.FormFieldsMirrorReliefs | engine/reliefEngine.ts:47-50 | right after the income lines, each relief has its own section-D line with the same reference, caption and amount, in the same order |
| ReliefProperties.FormFieldsTotals | engine/reliefEngine.ts:205-213 | the line after the reliefs is D_TOTAL holding the sum of the reliefs, and the last line is E_FINAL holding the tax payable |
| ReliefProperties.MissedPositive | engine/reliefEngine.ts:71-175 | there are at most six missed-relief notes, and each promises a positive saving |
| ReliefProperties.Unanswered | engine/reliefEngine.ts:10-11 | when only the salary is answered, every other question reads as 0 and as not "yes" |
| ReliefProperties.SalaryOnlyReliefs | engine/reliefEngine.ts:46-186 | with only a salary answered, the relief list is exactly D1 and the total relief 9000 |
| ReliefProperties.SalaryOnlyMissed | engine/reliefEngine.ts:46-176 | with only a salary answered, exactly five missed-relief notes are offered |
| ReliefProperties.SalaryOnlyIncome | engine/reliefEngine.ts:14-44 | with only a salary answered, bracket income is the salary, income after donations max(0, salary), and dividend and zakat 0 |
| ReliefProperties.SalaryOnlyTax | engine/reliefEngine.ts:5-222 | salary alone: only D1 is claimed, five notes are offered, and the tax is the bracket tax on salary − 9000, less the 400 self rebate when that income is ≤ 35000 |
| ReliefProperties.NoSalaryNoTax | engine/reliefEngine.ts:186-199 | with no positive salary and nothing else answered, chargeable income and tax payable are 0 |
| ReliefProperties.SalaryOf60000 | engine/reliefEngine.ts:186-199 | a salary of 60000 alone gives chargeable income 51000 and tax payable 1610 |
| ReliefProperties.NothingAnsweredExample | engine/reliefEngine.ts:5-222 | with no answers, the chargeable income, the tax and the tax saved are all 0 |
| ReliefProperties.SixtyThousandExample | engine/reliefEngine.ts:5-222 | a salary of 60000 alone: chargeable income 51000, tax payable 1610 |
| Questions.Holds | data/questions.ts:7 | a `showIf` rule evaluated on the answers: `notM`, equality and inequality of an answer, and `parseInt(..) > 0` (`ReliefRuleAt`, `DisabledChildInEduQuestion`) |
| Questions.Shown | hooks/useCalculator.ts:33 | a question without a rule is always shown, otherwise exactly when its rule holds (`FilterMembership`) |
| Questions.QuestionTable | data/questions.ts:9-440 | the wizard has 62 questions, opening with the form type and closing with the e-mail address, both always asked |
| Questions.ResidentOnlyHidden | data/questions.ts:7 | under Form M, a rule guarded by `notM` or by `formType !== 'M'` fails |
| Questions.ReliefRulesPersonal | data/questions.ts:132-161 | every marital-status, spouse and disability question is resident-only or a follow-up of an earlier answer |
| Questions.ReliefRulesRest | data/questions.ts:166-429 | the same for every child, parent, education, medical, insurance, housing, donation, PCB and zakat question |
| Questions.ReliefRuleAt | data/questions.ts:132-429 | every question from marital status to zakat has a resident-only or follow-up rule |
| Questions.FormMHidesReliefs | data/questions.ts:7 | under Form M every resident-only question is hidden, and every relief or rebate question still shown is the follow-up of an earlier answer |
| Questions.BusinessQuestions | data/questions.ts:32-43 | the two business-income questions are shown exactly when the form type is B |
| Questions.SpouseQuestions | data/questions.ts:142-161 | `spouseWorking` and `spouseDisabled` are shown exactly when the form is not M and the status is married |
| Questions.DisabledChildInEduQuestion | data/questions.ts:199-201 | `disabledChildInEdu` is shown exactly when the parsed count of disabled children is > 0; it has no Form M guard |
| Questions.HousingQuestions | data/questions.ts:383-396 | the house price is shown to first-home buyers; the interest question is shown exactly when the engine's housing gate is open |
| Questions.EmailAskedLast | data/questions.ts:433-438 | the e-mail question is last and has no rule, so it is always shown |
| Questions.EngineValuesOffered | data/questions.ts:16-146 | every option value the engine compares against (B, M, married, divorced, no, under500k, above750k) is one the select question offers |
| Questions.ChildrenCeilings | data/questions.ts:211-251 | the input ceilings of the breastfeeding, childcare, SSPN and learning-disability amounts are the engine's caps for them, and each cites that relief's form line |
| Questions.ParentsEducationCeilings | data/questions.ts:261-309 | the same for the parents medical, education, lifestyle, sports and EV amounts |
| Questions.MedicalCeilings | data/questions.ts:319-335 | the same for the medical and disabled-equipment amounts |
| Questions.InsuranceCeilings | data/questions.ts:339-373 | the same for the EPF, life, education and medical insurance, SOCSO and PRS amounts |
| Questions.HousingCeiling | data/questions.ts:393-398 | the housing-interest ceiling is the under-500k cap, the larger one, and the question cites line D21 |
| Questions.HousingCapWithinCeiling | data/questions.ts:393-396 | the engine's housing cap never exceeds the interest question's ceiling, and equals it under 500k |
| BmLabels.GetBmLabel | lib/pdf/bmLabels.ts:123-141 | the table entry when non-empty, else the first matching per-child stem rewritten, else the donation caption rewritten, else the label unchanged (one lemma per branch below) |
| BmLabels.IndexOf | lib/pdf/bmLabels.ts:128 | the search returns the first position at or after `from` where the pattern occurs |
| BmLabels.Replace | lib/pdf/bmLabels.ts:128-136 | `String.replace` with a string pattern: the first occurrence swapped, the text unchanged when absent (`ReplaceAtStart`) |
| BmLabels.ReplaceRestOfLine | lib/pdf/bmLabels.ts:138 | `replace(/Approved donations.*/, r)`: the first occurrence and the rest of its line swapped (`RestOfLine`) |
| BmLabels.LineEnd | lib/pdf/bmLabels.ts:138 | the end of the line, where `.` stops matching, is the first line terminator or the end of the text |
| BmLabels.ReplaceAtStart | lib/pdf/bmLabels.ts:127-136 | when the label starts with the pattern, `replace` swaps exactly that prefix and keeps the rest |
| BmLabels.RestOfLine | lib/pdf/bmLabels.ts:137-138 | on a one-line label, the pattern and everything after it are replaced |
| BmLabels.MapOfEntry | lib/pdf/bmLabels.ts:7-107 | every entry of the table comes from one of its literal pairs |
| BmLabels.BmLabelsFilled | lib/pdf/bmLabels.ts:7-107 | every table entry is non-empty and differs from its key, so the truthiness test is plain membership |
| BmLabels.TableLabel | lib/pdf/bmLabels.ts:124 | a label in the table always gets the table's wording, ahead of every pattern rule |
| BmLabels.SectionTitles | lib/pdf/bmLabels.ts:110-117 | the section titles are exactly B, C, D, E, F and H, each non-empty |
| BmLabels.CaptionPrefix | lib/pdf/bmLabels.ts:127-136 | a caption starts with its stem, and replacing the stem keeps the rest of the caption |
| BmLabels.ChildrenUnder18Label | lib/pdf/bmLabels.ts:127-128 | a D9 caption outside the table becomes "Anak bawah 18 tahun" and keeps its count and amount |
| BmLabels.ChildrenHigherEduLabel | lib/pdf/bmLabels.ts:129-130 | a D10a caption outside the table becomes "Anak pengajian tinggi" and keeps its count and amount |
| BmLabels.ChildrenPreULabel | lib/pdf/bmLabels.ts:131-132 | a D10b caption outside the table becomes "Anak pra-universiti" and keeps its count and amount |
| BmLabels.DisabledChildrenInHigherEduLabel | lib/pdf/bmLabels.ts:133-134 | a D12 caption outside the table gets its own wording, "Anak OKU dalam pengajian tinggi", not the shorter stem's |
| BmLabels.DisabledChildrenLabel | lib/pdf/bmLabels.ts:135-136 | a D11 caption outside the table becomes "Anak kurang upaya", and the longer D12 rule does not catch it |
| BmLabels.DonationLabel | lib/pdf/bmLabels.ts:137-138 | a one-line label outside the table that starts with "Approved donations" becomes the fixed donation wording |
| BmLabels.DonationCaptionLabel | lib/pdf/bmLabels.ts:137-138 | the engine's C7 caption, outside the table, becomes the fixed donation wording |
| BmLabels.UnmatchedLabel | lib/pdf/bmLabels.ts:140 | a label outside the table that starts with none of the per-child stems and does not mention approved donations comes back unchanged |
| Checkpoints.NamesAt | hooks/useCalculator.ts:37-48 | every name in the saved-names set was saved by some record |
| Checkpoints.NamesHas | hooks/useCalculator.ts:37-48 | every saved record's name is in the saved-names set |
| Checkpoints.Announce | hooks/useCalculator.ts:37-48 | firing a list of names saves at most one record per name |
| Checkpoints.AnnounceFresh | hooks/useCalculator.ts:38-45 | each saved record carries a name that had not fired, and the current answers |
| Checkpoints.AnnounceOnce | hooks/useCalculator.ts:38-39 | firing never saves one name twice |
| Checkpoints.AnnounceNames | hooks/useCalculator.ts:38-39 | the names saved are exactly those asked for that had not fired |
| Checkpoints.AnnounceAppend | hooks/useCalculator.ts:54-98 | firing two lists in turn equals firing their concatenation |
| Checkpoints.FireTwice | hooks/useCalculator.ts:54-98 | two firing steps compose into one over the concatenated names |
| CalculatorState.Filter | hooks/useCalculator.ts:33 | the visible questions are no more than the questions |
| CalculatorState.FilterMembership | hooks/useCalculator.ts:33 | a question is visible exactly when it is in the table and its rule holds |
| CalculatorState.FilterAppend | hooks/useCalculator.ts:33 | filtering keeps the table's order |
| CalculatorState.VisibleEndsWithEmail | hooks/useCalculator.ts:33-35 | whatever the answers, at least one question is visible, and the last visible one is the e-mail |
| CalculatorState.LeavingNames | hooks/useCalculator.ts:54-98 | leaving a question fires income_completed exactly when leaving secOtherIncome, prs_completed exactly when leaving secInsurance, and fully_completed exactly from the last visible question |
| CalculatorState.Calculator.Visible | hooks/useCalculator.ts:33 | the visible list holds exactly the table's questions whose rule holds for the current answers |
| CalculatorState.Calculator.Current | hooks/useCalculator.ts:34 | the current question exists exactly while the index is inside the visible list, and is then a visible question |
| CalculatorState.Calculator.Total | hooks/useCalculator.ts:35 | the number of visible questions is never 0 |
| CalculatorState.Calculator.constructor | hooks/useCalculator.ts:27-30 | the wizard starts on the questions screen at index 0 with no answers and nothing fired |
| CalculatorState.Calculator.FireCheckpoint | hooks/useCalculator.ts:37-48 | the name joins the fired set, and a record is saved only if the name had not fired since the last restart |
| CalculatorState.Calculator.SetAnswer | hooks/useCalculator.ts:50-52 | only key `id` changes; an e-mail containing '@' then fires email_captured (effect at lines 101-106) |
| CalculatorState.Calculator.FireWhen | hooks/useCalculator.ts:56-69 | fires the name exactly when the condition holds |
| CalculatorState.Calculator.GoNext | hooks/useCalculator.ts:54-76 | fires the section checkpoints, then moves one question on, or from the last question to the results screen, whose effect (lines 94-98) fires fully_completed |
| CalculatorState.Calculator.Leave | hooks/useCalculator.ts:54-76 | leaving question `qi` fires the section checkpoints for it, then moves one question on, or from the last question to the results screen; answers stay as they were |
| CalculatorState.Calculator.GoBack | hooks/useCalculator.ts:78-80 | steps back one question only when the index is above 0 |
| CalculatorState.Calculator.Restart | hooks/useCalculator.ts:82-87 | back to the landing screen at index 0 with no answers and an empty fired set; saved records stay saved |
| CalculatorState.Calculator.Start | hooks/useCalculator.ts:89-91 | moves to the questions screen |
| CalculatorState.SavedOncePerSession | hooks/useCalculator.ts:37-39 | between restarts every checkpoint is saved at most once, and the fired set is exactly the names saved since the restart |

## Left out

- Rendering, PDF layout, e-mail sending and the storage webhook are not
  modelled. `saveCheckpoint` is modelled only as appending a record to a log.
- The session id (`getSessionId`) and the record's timestamp are not
  modelled, because they come from the clock, `Math.random` and browser
  storage. The `formType` field of a saved record is the one in its answers.
- `formatRM` and `formatPercent` (engine/taxCalculator.ts:25-31) are not
  modelled; they are locale formatting.
- IEEE floating point is not modelled. Money and rates are exact reals, so
  results agree with the source only up to float rounding.
- `parseFloat` is modelled for a sign, digits, a fraction and an exponent.
  `parseInt` is modelled for a sign and a decimal or `0x` run. The text
  "Infinity", which `parseFloat` accepts, is not modelled.
- `toLocaleString` is fixed to the en-US locale, with comma grouping.
- React's render and effect timing is not modelled. Each effect in
  useCalculator.ts:94-106 runs right after the state change that triggers
  it, within the same method. `fireCheckpoint` reads the answers current at
  that point.
- JavaScript object prototype keys (such as "constructor") in the
  `BM_LABELS` lookup are not modelled. The lookup is a plain map.
- BmLabels.ChildrenUnder18Label: requires the label not to be a key of `BM_LABELS` rather
  than proving it; that side condition on the 44 literal keys is left to the caller.
- BmLabels.ChildrenHigherEduLabel: requires the label not to be a key of `BM_LABELS` rather
  than proving it; that side condition on the 44 literal keys is left to the caller.
- BmLabels.ChildrenPreULabel: requires the label not to be a key of `BM_LABELS` rather
  than proving it; that side condition on the 44 literal keys is left to the caller.
- BmLabels.DisabledChildrenInHigherEduLabel: requires the label not to be a key of `BM_LABELS` rather
  than proving it; that side condition on the 44 literal keys is left to the caller.
- BmLabels.DisabledChildrenLabel: requires the label not to be a key of `BM_LABELS` rather
  than proving it; that side condition on the 44 literal keys is left to the caller.
- BmLabels.DonationLabel: requires the label not to be a key of `BM_LABELS` rather
  than proving it; that side condition on the 44 literal keys is left to the caller.
- BmLabels.DonationCaptionLabel: requires the label not to be a key of `BM_LABELS` rather
  than proving it; that side condition on the 44 literal keys is left to the caller.
- BmLabels.UnmatchedLabel: requires the label not to be a key of `BM_LABELS` rather
  than proving it; that side condition on the 44 literal keys is left to the caller.
- BmLabels.DonationLabel: the rest-of-line rewrite is proved for one-line
  labels only. Captions with a line break are covered by
  `ReplaceRestOfLine` but not by a lemma.
- The `ComputeResult` fields `pcb`, `balanceDue` and `formType` that the
  result screens read are not modelled, because `computeAll` never sets
  them.
- The question texts, tips, icons and placeholders are not modelled. Each
  question keeps its id, section, kind, options, rule, ceiling and form
  line.
