/**
 * The loan-simulation wizard of app/simulations/new/page.tsx: five steps over
 * a form, four step guards, the totals derived for step 2, the selection
 * cascades, the `formModified` staleness flag and the delete-before-create
 * generation of a simulation.
 *
 * Every handler runs to completion in one call: the answer of each backend
 * call is a parameter (`None`, or `false`, where the call throws). The
 * simulation service's `delete` and `save`, which the service file does not
 * define, and its `create` are recorded in a log of calls.
 */
module SimulationWizard {
  import opened Wrappers
  import Seqs
  import Text
  import Numbers
  import SubsidyTypes
  import EligibilityTypes
  import PropertyTypes
  import CustomerTypes
  import LoanProgramTypes
  import LoanSimulationTypes
  import FinancialInstitutionTypes

  type Step = s: int | 1 <= s <= 5 witness 1

  type Bono = EligibilityTypes.BonoEligibilityEntity
  type Eligibility = EligibilityTypes.EligibilityWithPropertyEntity
  type Property = PropertyTypes.PropertyEntity
  type RateRange = FinancialInstitutionTypes.RateRangeEntity
  type Request = LoanSimulationTypes.CreateSimulationRequest

  /** `selectedBonos`, keyed by bono type; a type is selected when it maps to true. */
  type Bonos = map<SubsidyTypes.SubsidyType, bool>

  datatype FormState = FormState(
    customerId: string,
    propertyId: string,
    userContribution: string,
    selectedBonos: Bonos,
    interestRate: string,
    rateType: LoanSimulationTypes.RateType,
    discountRate: string,
    institutionId: string,
    termInMonths: string,
    gracePeriodMonths: string,
    graceType: LoanSimulationTypes.GraceType)

  const InitialForm: FormState :=
    FormState("", "", "", map[], "", LoanSimulationTypes.EFFECTIVE, "", "", "", "0", LoanSimulationTypes.TOTAL)

  // ---------------- updateField ----------------

  /** The arguments of `updateField(key, value)`: the field named and its new value. */
  datatype Update =
    | CustomerId(text: string)
    | PropertyId(text: string)
    | UserContribution(text: string)
    | SelectedBonos(bonos: Bonos)
    | InterestRate(text: string)
    | RateType(rateType: LoanSimulationTypes.RateType)
    | DiscountRate(text: string)
    | InstitutionId(text: string)
    | TermInMonths(text: string)
    | GracePeriodMonths(text: string)
    | GraceType(graceType: LoanSimulationTypes.GraceType)

  /** The position of the field an update names, in the order `FormState` declares them. */
  function Key(u: Update): nat {
    match u
    case CustomerId(_) => 0
    case PropertyId(_) => 1
    case UserContribution(_) => 2
    case SelectedBonos(_) => 3
    case InterestRate(_) => 4
    case RateType(_) => 5
    case DiscountRate(_) => 6
    case InstitutionId(_) => 7
    case TermInMonths(_) => 8
    case GracePeriodMonths(_) => 9
    case GraceType(_) => 10
  }

  /** `form[key] === value`. */
  predicate Holds(f: FormState, u: Update) {
    match u
    case CustomerId(v) => f.customerId == v
    case PropertyId(v) => f.propertyId == v
    case UserContribution(v) => f.userContribution == v
    case SelectedBonos(v) => f.selectedBonos == v
    case InterestRate(v) => f.interestRate == v
    case RateType(v) => f.rateType == v
    case DiscountRate(v) => f.discountRate == v
    case InstitutionId(v) => f.institutionId == v
    case TermInMonths(v) => f.termInMonths == v
    case GracePeriodMonths(v) => f.gracePeriodMonths == v
    case GraceType(v) => f.graceType == v
  }

  /** `{ ...prev, [key]: value }`: the named field takes the value. */
  function Apply(f: FormState, u: Update): (r: FormState)
    ensures Holds(r, u)
  {
    match u
    case CustomerId(v) => f.(customerId := v)
    case PropertyId(v) => f.(propertyId := v)
    case UserContribution(v) => f.(userContribution := v)
    case SelectedBonos(v) => f.(selectedBonos := v)
    case InterestRate(v) => f.(interestRate := v)
    case RateType(v) => f.(rateType := v)
    case DiscountRate(v) => f.(discountRate := v)
    case InstitutionId(v) => f.(institutionId := v)
    case TermInMonths(v) => f.(termInMonths := v)
    case GracePeriodMonths(v) => f.(gracePeriodMonths := v)
    case GraceType(v) => f.(graceType := v)
  }

  /** An update leaves every field it does not name as it was. */
  lemma ApplyKeepsOthers(f: FormState, u: Update, v: Update)
    requires Key(v) != Key(u)
    ensures Holds(Apply(f, u), v) <==> Holds(f, v)
  {
  }

  lemma ApplyInterestRate(f: FormState, rate: string)
    ensures Apply(f, InterestRate(rate)) == f.(interestRate := rate)
  {
  }

  // ---------------- bonos ----------------

  predicate Selected(m: Bonos, t: SubsidyTypes.SubsidyType) {
    t in m && m[t]
  }

  /** The map the eligibility handler builds: every eligible bono's type set to true, and nothing else. */
  function Preselected(bonos: seq<Bono>): (m: Bonos)
    ensures forall t :: t in m ==> m[t]
    ensures forall t :: t in m <==> exists i :: 0 <= i < |bonos| && bonos[i].eligible && bonos[i].bonoType == t
  {
    if bonos == [] then map[]
    else
      var b := bonos[|bonos| - 1];
      var m := Preselected(bonos[..|bonos| - 1]);
      assert forall i :: 0 <= i < |bonos| - 1 ==> bonos[..|bonos| - 1][i] == bonos[i];
      if b.eligible then m[b.bonoType := true] else m
  }

  /** The `filter(eligible).forEach(set true)` loop that fills the bono map. */
  method PreselectBonos(bonos: seq<Bono>) returns (m: Bonos)
    ensures m == Preselected(bonos)
  {
    m := map[];
    var i := 0;
    while i < |bonos|
      invariant 0 <= i <= |bonos|
      invariant m == Preselected(bonos[..i])
    {
      assert bonos[..i + 1][..i] == bonos[..i];
      if bonos[i].eligible {
        m := m[bonos[i].bonoType := true];
      }
      i := i + 1;
    }
    assert bonos[..|bonos|] == bonos;
  }

  /** Whether the totals add this bono: its type is selected and its amount is neither null nor 0. */
  predicate Counts(b: Bono, selected: Bonos) {
    Selected(selected, b.bonoType) && b.amount.Some? && b.amount.value != 0.0
  }

  /** The sum of the amounts of the bonos that count. */
  function BonoSum(bonos: seq<Bono>, selected: Bonos): real {
    if bonos == [] then 0.0
    else
      var b := bonos[|bonos| - 1];
      BonoSum(bonos[..|bonos| - 1], selected) + (if Counts(b, selected) then b.amount.value else 0.0)
  }

  /** The sum of the non-zero amounts of the bonos the backend calls eligible. */
  function EligibleSum(bonos: seq<Bono>): real {
    if bonos == [] then 0.0
    else
      var b := bonos[|bonos| - 1];
      EligibleSum(bonos[..|bonos| - 1]) + (if b.eligible && b.amount.Some? && b.amount.value != 0.0 then b.amount.value else 0.0)
  }

  /** With nothing selected no bono counts. */
  lemma {:induction false} NothingSelectedSumsToZero(bonos: seq<Bono>)
    ensures BonoSum(bonos, map[]) == 0.0
  {
    if bonos != [] {
      NothingSelectedSumsToZero(bonos[..|bonos| - 1]);
    }
  }

  /** When exactly the eligible bonos are selected, the bono total is the sum of the eligible amounts. */
  lemma {:induction false} SumOfSelectedEligible(bonos: seq<Bono>, selected: Bonos)
    requires forall i :: 0 <= i < |bonos| ==> (Selected(selected, bonos[i].bonoType) <==> bonos[i].eligible)
    ensures BonoSum(bonos, selected) == EligibleSum(bonos)
  {
    if bonos != [] {
      var init := bonos[..|bonos| - 1];
      assert forall i :: 0 <= i < |init| ==> init[i] == bonos[i];
      SumOfSelectedEligible(init, selected);
    }
  }

  /**
   * After a successful eligibility fetch, when no two bonos share a type, the
   * bono total is the sum of the eligible bonos' amounts.
   */
  lemma PreselectedTotal(bonos: seq<Bono>)
    requires forall i, j :: 0 <= i < j < |bonos| ==> bonos[i].bonoType != bonos[j].bonoType
    ensures BonoSum(bonos, Preselected(bonos)) == EligibleSum(bonos)
  {
    var m := Preselected(bonos);
    forall i | 0 <= i < |bonos| ensures Selected(m, bonos[i].bonoType) <==> bonos[i].eligible {
      if Selected(m, bonos[i].bonoType) {
        var j :| 0 <= j < |bonos| && bonos[j].eligible && bonos[j].bonoType == bonos[i].bonoType;
        assert j == i;
      }
    }
    SumOfSelectedEligible(bonos, m);
  }

  // ---------------- calculatedTotals ----------------

  datatype Totals = Totals(
    userContrib: real,
    totalBonos: real,
    totalInitialPayment: real,
    propertyPrice: real,
    loanAmount: real)

  function AvailableBonos(eligibility: Option<Eligibility>): seq<Bono> {
    if eligibility.Some? then eligibility.value.mivivienda.availableBonos else []
  }

  /** `currentProperty?.pricing?.priceAmount`, or 0 when absent or 0. */
  function PropertyPrice(p: Option<Property>): real {
    if p.Some? && p.value.pricing.priceAmount != 0.0 then p.value.pricing.priceAmount else 0.0
  }

  /** `Math.max(0, x)`. */
  function Clamp(x: real): (r: real)
    ensures r >= 0.0 && r >= x && (r == 0.0 || r == x)
  {
    if x > 0.0 then x else 0.0
  }

  /** The totals of step 2: contribution plus bonos, and the loan clamped at 0. */
  function CalculatedTotals(form: FormState, eligibility: Option<Eligibility>, currentProperty: Option<Property>): (t: Totals)
    ensures t.totalInitialPayment == t.userContrib + t.totalBonos
    ensures t.loanAmount >= 0.0 && t.loanAmount >= t.propertyPrice - t.totalInitialPayment
    ensures t.loanAmount == 0.0 || t.loanAmount == t.propertyPrice - t.totalInitialPayment
    ensures currentProperty.None? ==> t.propertyPrice == 0.0
    ensures eligibility.None? ==> t.totalBonos == 0.0
    ensures t.userContrib == Numbers.OrZero(Numbers.ParseFloat(form.userContribution))
  {
    var userContrib := Numbers.OrZero(Numbers.ParseFloat(form.userContribution));
    var totalBonos := BonoSum(AvailableBonos(eligibility), form.selectedBonos);
    var price := PropertyPrice(currentProperty);
    var initial := userContrib + totalBonos;
    Totals(userContrib, totalBonos, initial, price, Clamp(price - initial))
  }

  /** The `forEach` loop that adds up the bonos that count. */
  method SumBonos(bonos: seq<Bono>, selected: Bonos) returns (total: real)
    ensures total == BonoSum(bonos, selected)
  {
    total := 0.0;
    var i := 0;
    while i < |bonos|
      invariant 0 <= i <= |bonos|
      invariant total == BonoSum(bonos[..i], selected)
    {
      assert bonos[..i + 1][..i] == bonos[..i];
      var bono := bonos[i];
      if Selected(selected, bono.bonoType) && bono.amount.Some? && bono.amount.value != 0.0 {
        total := total + bono.amount.value;
      }
      i := i + 1;
    }
    assert bonos[..|bonos|] == bonos;
  }

  /** The `useMemo` that computes the totals. */
  method ComputeTotals(form: FormState, eligibility: Option<Eligibility>, currentProperty: Option<Property>) returns (t: Totals)
    ensures t == CalculatedTotals(form, eligibility, currentProperty)
  {
    var userContrib := Numbers.OrZero(Numbers.ParseFloat(form.userContribution));
    var totalBonos := SumBonos(AvailableBonos(eligibility), form.selectedBonos);
    var totalInitialPayment := userContrib + totalBonos;
    var propertyPrice := PropertyPrice(currentProperty);
    t := Totals(userContrib, totalBonos, totalInitialPayment, propertyPrice, Clamp(propertyPrice - totalInitialPayment));
  }

  // ---------------- step guards ----------------

  predicate CanProceedFromStep1(form: FormState, eligibility: Option<Eligibility>) {
    form.customerId != "" && form.propertyId != "" && eligibility.Some? && eligibility.value.mivivienda.eligible
  }

  /** The down payment is at least a tenth of the price. */
  predicate CanProceedFromStep2(t: Totals) {
    t.totalInitialPayment >= t.propertyPrice * 0.1
  }

  /** A comparison with NaN is false, so an unparsable rate fails. */
  predicate CanProceedFromStep3(form: FormState, rateRange: Option<RateRange>) {
    var rate := Numbers.ParseFloat(form.interestRate);
    form.interestRate != "" && form.institutionId != "" && rateRange.Some?
    && rate.Some? && rate.value >= rateRange.value.minRate && rate.value <= rateRange.value.maxRate
  }

  /** A term of 5 to 25 years; an unparsable term fails. */
  predicate CanProceedFromStep4(form: FormState) {
    var term := Numbers.ParseInt(form.termInMonths);
    term.Some? && term.value >= 60 && term.value <= 300
  }

  predicate CanGenerateSimulation(form: FormState, eligibility: Option<Eligibility>, currentProperty: Option<Property>, rateRange: Option<RateRange>) {
    CanProceedFromStep1(form, eligibility)
    && CanProceedFromStep2(CalculatedTotals(form, eligibility, currentProperty))
    && CanProceedFromStep3(form, rateRange)
    && CanProceedFromStep4(form)
  }

  /** The guard `handleNext` checks on `step`; step 5 has none. */
  predicate CanProceed(step: Step, form: FormState, eligibility: Option<Eligibility>, currentProperty: Option<Property>, rateRange: Option<RateRange>) {
    if step == 1 then CanProceedFromStep1(form, eligibility)
    else if step == 2 then CanProceedFromStep2(CalculatedTotals(form, eligibility, currentProperty))
    else if step == 3 then CanProceedFromStep3(form, rateRange)
    else if step == 4 then CanProceedFromStep4(form)
    else true
  }

  /** Once guard 2 passes, the loan is at most nine tenths of the price. */
  lemma GuardTwoCapsLoan(form: FormState, eligibility: Option<Eligibility>, currentProperty: Option<Property>)
    requires CanProceedFromStep2(CalculatedTotals(form, eligibility, currentProperty))
    requires PropertyPrice(currentProperty) >= 0.0
    ensures CalculatedTotals(form, eligibility, currentProperty).loanAmount <= CalculatedTotals(form, eligibility, currentProperty).propertyPrice * 0.9
  {
    var t := CalculatedTotals(form, eligibility, currentProperty);
    assert t.propertyPrice == PropertyPrice(currentProperty);
  }

  /** A rate typed as a whole number passes guard 3 exactly when it lies in the range, both ends included. */
  lemma RateGuardInclusive(form: FormState, range: RateRange, n: nat)
    requires form.institutionId != ""
    ensures CanProceedFromStep3(form.(interestRate := Numbers.NatToString(n)), Some(range))
            <==> range.minRate <= n as real <= range.maxRate
  {
    Numbers.ParseFloatNatToString(n);
  }

  /** A term typed as a whole number of months passes guard 4 exactly when it is between 60 and 300. */
  lemma TermGuardRange(form: FormState, n: nat)
    ensures CanProceedFromStep4(form.(termInMonths := Numbers.NatToString(n))) <==> 60 <= n <= 300
  {
    Numbers.ParseIntNatToString(n);
  }

  /** Without a rate range guard 3 fails, whatever the rate. */
  lemma NoRangeNoStepThree(form: FormState)
    ensures !CanProceedFromStep3(form, None)
  {
  }

  // ---------------- handleNext / handleBack ----------------

  /** The step `handleNext` moves to, its branches as written. */
  function NextStep(step: Step, guardOk: bool, generated: bool, modified: bool): (r: Step)
    ensures !guardOk ==> r == step
    ensures guardOk ==> r == (if step < 5 then step + 1 else 5)
  {
    if !guardOk then step
    else if step == 4 && generated && !modified then 5
    else if step + 1 < 5 then step + 1 else 5
  }

  /** The step `handleBack` moves to. */
  function PreviousStep(step: Step): (r: Step)
    ensures r == (if step > 1 then step - 1 else 1)
  {
    if step - 1 > 1 then step - 1 else 1
  }

  /** Back undoes a successful next, and next undoes back. */
  lemma BackAndNext(step: Step, generated: bool, modified: bool)
    ensures step < 5 ==> PreviousStep(NextStep(step, true, generated, modified)) == step
    ensures step > 1 ==> NextStep(PreviousStep(step), true, generated, modified) == step
  {
  }

  // ---------------- footer buttons ----------------

  datatype FooterButton = NextButton | GenerateButton | SaveButton

  /** The footer's main button: "Siguiente", "Generar"/"Regenerar Crédito" or "Guardar Crédito". */
  function Footer(step: Step, generated: bool, modified: bool): (b: FooterButton)
    ensures b == SaveButton <==> step == 5
    ensures b == GenerateButton <==> step == 4 && (!generated || modified)
    ensures b == NextButton && step == 4 ==> generated
  {
    if step < 4 then NextButton
    else if step == 4 then (if generated && !modified then NextButton else GenerateButton)
    else SaveButton
  }

  /** Whether the footer's main button can be pressed. */
  predicate FooterEnabled(b: FooterButton, canGenerate: bool, generated: bool, submitting: bool, generating: bool) {
    match b
    case NextButton => !(submitting || generating)
    case GenerateButton => !(!canGenerate || generating)
    case SaveButton => !(submitting || !generated)
    }

  predicate BackEnabled(step: Step, submitting: bool, generating: bool) {
    !(step == 1 || submitting || generating)
  }

  /**
   * Through the footer, step 5 is reached by "Siguiente" only with a generated
   * simulation that the form has not changed since.
   */
  lemma FooterGuardsStepFive(step: Step, guardOk: bool, generated: bool, modified: bool)
    requires Footer(step, generated, modified) == NextButton
    ensures NextStep(step, guardOk, generated, modified) == 5 ==> generated && !modified
  {
  }

  /** The step-4 "Siguiente" of `handleNext` alone does not require a generated simulation. */
  lemma NextIgnoresGeneration(modified: bool)
    ensures NextStep(4, true, false, modified) == 5
  {
  }

  // ---------------- default program ----------------

  /** The `find` predicate for the default program. */
  predicate IsMiViviendaProgram(p: LoanProgramTypes.LoanProgramEntity) {
    var name := LoanProgramTypes.LoanProgramsName(p.name);
    Text.Contains(name, "NUEVO_CREDITO_MIVIVIENDA") || Text.Contains(name, "MIVIVIENDA")
  }

  /** Of the two programs, only NUEVO_CREDITO_MIVIVIENDA names MIVIVIENDA. */
  lemma MiViviendaProgramIff(p: LoanProgramTypes.LoanProgramEntity)
    ensures IsMiViviendaProgram(p) <==> p.name == LoanProgramTypes.NUEVO_CREDITO_MIVIVIENDA
  {
    var name := LoanProgramTypes.LoanProgramsName(p.name);
    if p.name == LoanProgramTypes.NUEVO_CREDITO_MIVIVIENDA {
      Text.ContainsSelf(name);
    } else {
      var q, q' := "NUEVO_CREDITO_MIVIVIENDA", "MIVIVIENDA";
      Text.ContainsIff(name, q);
      Text.ContainsIff(name, q');
      assert name == "TECHO_PROPIO";
      forall k | 0 <= k <= |name| - |q'| ensures !Text.OccursAt(name, q', k) {
        assert name[k..k + |q'|][0] == name[k] != q'[0];
      }
    }
  }

  /** The default program: the first NUEVO_CREDITO_MIVIVIENDA program of the list, if any. */
  function DefaultProgram(programs: seq<LoanProgramTypes.LoanProgramEntity>): (r: Option<LoanProgramTypes.LoanProgramEntity>)
    ensures r.Some? ==> r.value in programs && r.value.name == LoanProgramTypes.NUEVO_CREDITO_MIVIVIENDA
    ensures r.None? <==> forall i :: 0 <= i < |programs| ==> programs[i].name != LoanProgramTypes.NUEVO_CREDITO_MIVIVIENDA
  {
    var r := Seqs.Find(programs, IsMiViviendaProgram);
    if r.Some? then MiViviendaProgramIff(r.value); r
    else
      assert forall i :: 0 <= i < |programs| ==> !IsMiViviendaProgram(programs[i]);
      forall i | 0 <= i < |programs| ensures programs[i].name != LoanProgramTypes.NUEVO_CREDITO_MIVIVIENDA {
        MiViviendaProgramIff(programs[i]);
      }
      r
  }

  // ---------------- the create request ----------------

  /** A percentage as a fraction; NaN stays NaN. */
  function Fraction(x: Option<real>): Option<real> {
    if x.Some? then Some(x.value / 100.0) else None
  }

  function Pen(amount: real): LoanSimulationTypes.MoneyResponse {
    LoanSimulationTypes.MoneyResponse(amount, "PEN")
  }

  /** The request `handleGenerate` sends, from the form, the default program and the totals. */
  function CreateRequest(form: FormState, loanProgramId: string, t: Totals): (r: Request)
    ensures r.customerId == form.customerId && r.propertyId == Some(form.propertyId)
    ensures r.institutionId == form.institutionId && r.loanProgramId == loanProgramId
  {
    var grace := Numbers.ParseInt(form.gracePeriodMonths);
    LoanSimulationTypes.CreateSimulationRequest(
      form.customerId,
      Some(form.propertyId),
      form.institutionId,
      loanProgramId,
      LoanSimulationTypes.RequestedParameters(
        Pen(t.propertyPrice),
        Pen(t.totalInitialPayment),
        Pen(t.loanAmount),
        Numbers.ParseInt(form.termInMonths),
        "PEN",
        LoanSimulationTypes.RequestedInterestRate(
          Fraction(Numbers.ParseFloat(form.interestRate)),
          LoanSimulationTypes.RateTypeName(form.rateType),
          None),
        LoanSimulationTypes.GracePeriodResponse(
          (if grace.Some? && grace.value != 0 then grace.value else 0) as real,
          LoanSimulationTypes.GraceTypeName(form.graceType)),
        if form.discountRate != "" then Some(Fraction(Numbers.ParseFloat(form.discountRate))) else None))
  }

  /** A fraction is defined exactly when the percentage is, and is a hundredth of it. */
  lemma FractionOfPercentage(x: Option<real>)
    ensures Fraction(x).Some? <==> x.Some?
    ensures x.Some? ==> Fraction(x).value * 100.0 == x.value
  {
  }

  /** The request's amounts: every currency is PEN and the amounts are the totals. */
  lemma RequestAmounts(form: FormState, loanProgramId: string, t: Totals)
    ensures var p := CreateRequest(form, loanProgramId, t).parameters;
      && p.currency == "PEN" && p.propertyPrice.currency == "PEN"
      && p.initialDownPayment.currency == "PEN" && p.loanAmount.currency == "PEN"
      && p.propertyPrice.amount == t.propertyPrice && p.initialDownPayment.amount == t.totalInitialPayment
      && p.loanAmount.amount == t.loanAmount
      && p.termInMonths == Numbers.ParseInt(form.termInMonths)
      && p.interestRate.capitalizationPeriod.None?
  {
  }

  /**
   * The request's rates: the rate and the discount go as fractions of the typed
   * percentages, an empty discount goes as null, and an unparsable grace period
   * as 0 months.
   */
  lemma RequestRates(form: FormState, loanProgramId: string, t: Totals)
    ensures var p := CreateRequest(form, loanProgramId, t).parameters;
      && (p.interestRate.rate.Some? <==> Numbers.ParseFloat(form.interestRate).Some?)
      && (p.interestRate.rate.Some? ==> p.interestRate.rate.value * 100.0 == Numbers.ParseFloat(form.interestRate).value)
      && (p.discountRate.None? <==> form.discountRate == "")
      && (p.discountRate.Some? ==> (p.discountRate.value.Some? <==> Numbers.ParseFloat(form.discountRate).Some?))
      && (p.discountRate.Some? && p.discountRate.value.Some? ==>
            p.discountRate.value.value * 100.0 == Numbers.ParseFloat(form.discountRate).value)
      && (Numbers.ParseInt(form.gracePeriodMonths).None? ==> p.gracePeriod.durationInMonths == 0.0)
      && (Numbers.ParseInt(form.gracePeriodMonths).Some? ==>
            p.gracePeriod.durationInMonths == Numbers.ParseInt(form.gracePeriodMonths).value as real)
  {
    FractionOfPercentage(Numbers.ParseFloat(form.interestRate));
    FractionOfPercentage(Numbers.ParseFloat(form.discountRate));
  }

  /** The rate and grace type go by the names `mapStringToEnum` reads back. */
  lemma RequestEnumsRoundTrip(form: FormState, loanProgramId: string, t: Totals)
    ensures var p := CreateRequest(form, loanProgramId, t).parameters;
      && LoanSimulationTypes.RateTypeFrom(Some(p.interestRate.rateType), LoanSimulationTypes.EFFECTIVE) == form.rateType
      && LoanSimulationTypes.GraceTypeFrom(Some(p.gracePeriod.graceType), LoanSimulationTypes.TOTAL) == form.graceType
  {
    LoanSimulationTypes.RateTypeFromName(form.rateType, LoanSimulationTypes.EFFECTIVE);
    LoanSimulationTypes.GraceTypeFromName(form.graceType, LoanSimulationTypes.TOTAL);
  }

  // ---------------- the page ----------------

  /** A call to the simulation service; a delete records whether it succeeded. */
  datatype Call = Delete(id: string, ok: bool) | Create(request: Request) | Save(id: string)

  predicate Removes(c: Call) {
    c.Delete? && c.ok
  }

  /** The ids of the simulations deleted so far. */
  function Deleted(calls: seq<Call>): (ids: set<string>)
    ensures forall i :: 0 <= i < |calls| && Removes(calls[i]) ==> calls[i].id in ids
    ensures forall x :: x in ids ==> exists i :: 0 <= i < |calls| && Removes(calls[i]) && calls[i].id == x
  {
    set i | 0 <= i < |calls| && Removes(calls[i]) :: calls[i].id
  }

  /** A call adds its id to the deleted ones exactly when it is a delete that succeeded. */
  lemma DeletedSnoc(calls: seq<Call>, c: Call)
    ensures Deleted(calls + [c]) == Deleted(calls) + (if Removes(c) then {c.id} else {})
  {
    var l, r := Deleted(calls + [c]), Deleted(calls) + (if Removes(c) then {c.id} else {});
    forall x | x in l ensures x in r {
      var i :| 0 <= i < |calls + [c]| && Removes((calls + [c])[i]) && (calls + [c])[i].id == x;
      if i < |calls| {
        assert calls[i] == (calls + [c])[i];
      }
    }
    forall x | x in r ensures x in l {
      if x in Deleted(calls) {
        var i :| 0 <= i < |calls| && Removes(calls[i]) && calls[i].id == x;
        assert (calls + [c])[i] == calls[i];
      } else {
        assert (calls + [c])[|calls|] == c;
      }
    }
  }

  /** The lists the page loads when it mounts. */
  datatype Catalog = Catalog(
    customers: seq<CustomerTypes.CustomerEntity>,
    properties: seq<Property>,
    programs: seq<LoanProgramTypes.LoanProgramEntity>,
    institutions: seq<FinancialInstitutionTypes.FinancialInstitutionEntity>)

  class Wizard {
    var step: Step
    var form: FormState
    var generatedSimulation: Option<LoanSimulationTypes.LoanSimulationEntity>
    var formModified: bool
    var catalog: Catalog
    var defaultProgramId: string
    var currentCustomer: Option<CustomerTypes.CustomerEntity>
    var currentProperty: Option<Property>
    var eligibility: Option<Eligibility>
    var rateRange: Option<RateRange>
    var filteredInstitutions: seq<FinancialInstitutionTypes.InstitutionRateEntity>
    var selectedInstitutionRate: Option<FinancialInstitutionTypes.InstitutionRateEntity>
    /** The calls made to the simulation service, oldest first. */
    var calls: seq<Call>
    /** Whether the page has navigated to the simulations list. */
    var leftPage: bool

    constructor()
      ensures step == 1 && form == InitialForm && generatedSimulation.None? && !formModified
      ensures catalog == Catalog([], [], [], []) && defaultProgramId == ""
      ensures currentCustomer.None? && currentProperty.None? && eligibility.None? && rateRange.None?
      ensures filteredInstitutions == [] && selectedInstitutionRate.None? && calls == [] && !leftPage
    {
      step := 1;
      form := InitialForm;
      generatedSimulation := None;
      formModified := false;
      catalog := Catalog([], [], [], []);
      defaultProgramId := "";
      currentCustomer := None;
      currentProperty := None;
      eligibility := None;
      rateRange := None;
      filteredInstitutions := [];
      selectedInstitutionRate := None;
      calls := [];
      leftPage := false;
    }

    /** The eligibility snapshot, when there is one, is the one for the selected customer and property. */
    predicate EligibilityCurrent()
      reads this
    {
      eligibility.Some? ==> eligibility.value.customerId == form.customerId && eligibility.value.propertyId == form.propertyId
    }

    /** The generated simulation, when there is one, has not been deleted. */
    predicate SimulationLive()
      reads this
    {
      generatedSimulation.Some? ==> generatedSimulation.value.id !in Deleted(calls)
    }

    /** The customer, property and institution lists as loaded at mount; a failed load leaves a list empty. */
    method Load(customers: seq<CustomerTypes.CustomerEntity>, properties: seq<Property>,
                institutions: seq<FinancialInstitutionTypes.FinancialInstitutionEntity>)
      modifies this`catalog
      ensures catalog == old(catalog).(customers := customers, properties := properties, institutions := institutions)
    {
      catalog := catalog.(customers := customers, properties := properties, institutions := institutions);
    }

    /**
     * The programs loaded, and the effect that follows: the default program's id
     * is kept and its rate range fetched (`range` is `None` when that fetch throws).
     */
    method LoadPrograms(programs: seq<LoanProgramTypes.LoanProgramEntity>, range: Option<RateRange>)
      modifies this`catalog, this`defaultProgramId, this`rateRange
      ensures catalog == old(catalog).(programs := programs)
      ensures DefaultProgram(programs).Some? ==> defaultProgramId == DefaultProgram(programs).value.id
      ensures DefaultProgram(programs).None? ==> defaultProgramId == old(defaultProgramId)
      ensures rateRange == if DefaultProgram(programs).Some? && range.Some? then range else old(rateRange)
    {
      catalog := catalog.(programs := programs);
      if |programs| > 0 {
        var program := DefaultProgram(programs);
        if program.Some? {
          defaultProgramId := program.value.id;
          if range.Some? {
            rateRange := range;
          }
        }
      }
    }

    /** `updateField`: the field changes, and the form counts as modified once a simulation exists. */
    method UpdateField(u: Update)
      modifies this`form, this`formModified
      ensures form == Apply(old(form), u)
      ensures formModified == (old(formModified) || old(generatedSimulation).Some?)
    {
      form := Apply(form, u);
      if generatedSimulation.Some? {
        formModified := true;
      }
    }

    /** `handleCustomerChange`: the customer is selected and everything that depends on it is reset. */
    method SelectCustomer(customerId: string)
      modifies this`form, this`formModified, this`currentCustomer, this`eligibility, this`currentProperty
      ensures form == old(form).(customerId := customerId, selectedBonos := map[], propertyId := "")
      ensures formModified == (old(formModified) || old(generatedSimulation).Some?)
      ensures currentCustomer == Seqs.Find(old(catalog).customers, (c: CustomerTypes.CustomerEntity) => c.id == customerId)
      ensures eligibility.None? && currentProperty.None?
      ensures !CanProceedFromStep1(form, eligibility) && EligibilityCurrent()
    {
      UpdateField(CustomerId(customerId));
      currentCustomer := Seqs.Find(catalog.customers, (c: CustomerTypes.CustomerEntity) => c.id == customerId);
      eligibility := None;
      UpdateField(SelectedBonos(map[]));
      UpdateField(PropertyId(""));
      currentProperty := None;
    }

    /**
     * `handlePropertyChange`: the property is selected and, with a customer
     * selected, eligibility is fetched (`outcome` is `None` when the fetch throws);
     * a fetched snapshot replaces the old one and pre-selects its eligible bonos.
     */
    method SelectProperty(propertyId: string, outcome: Option<Eligibility>)
      modifies this`form, this`formModified, this`currentProperty, this`eligibility
      ensures var fetched := old(form).customerId != "" && propertyId != "" && outcome.Some?;
        && form == old(form).(propertyId := propertyId,
             selectedBonos := if fetched then Preselected(outcome.value.mivivienda.availableBonos) else old(form).selectedBonos)
        && eligibility == (if fetched then outcome else old(eligibility))
      ensures formModified == (old(formModified) || old(generatedSimulation).Some?)
      ensures currentProperty == Seqs.Find(old(catalog).properties, (p: Property) => p.id == propertyId)
    {
      var customerId := form.customerId;
      UpdateField(PropertyId(propertyId));
      currentProperty := Seqs.Find(catalog.properties, (p: Property) => p.id == propertyId);
      if customerId != "" && propertyId != "" {
        if outcome.Some? {
          eligibility := outcome;
          var bonos := PreselectBonos(outcome.value.mivivienda.availableBonos);
          UpdateField(SelectedBonos(bonos));
        }
      }
    }

    /**
     * The property selection with the snapshot and the bonos cleared before the
     * fetch, as the customer selection clears them: a failed fetch leaves no
     * snapshot behind, so the snapshot is always the selected pair's.
     */
    method SelectPropertyCorrected(propertyId: string, outcome: Option<Eligibility>)
      requires outcome.Some? ==> outcome.value.customerId == form.customerId && outcome.value.propertyId == propertyId
      modifies this`form, this`formModified, this`currentProperty, this`eligibility
      ensures var fetched := old(form).customerId != "" && propertyId != "" && outcome.Some?;
        && form == old(form).(propertyId := propertyId,
             selectedBonos := if fetched then Preselected(outcome.value.mivivienda.availableBonos) else map[])
        && eligibility == (if fetched then outcome else None)
      ensures formModified == (old(formModified) || old(generatedSimulation).Some?)
      ensures currentProperty == Seqs.Find(old(catalog).properties, (p: Property) => p.id == propertyId)
      ensures EligibilityCurrent()
    {
      var customerId := form.customerId;
      UpdateField(PropertyId(propertyId));
      currentProperty := Seqs.Find(catalog.properties, (p: Property) => p.id == propertyId);
      eligibility := None;
      UpdateField(SelectedBonos(map[]));
      if customerId != "" && propertyId != "" {
        if outcome.Some? {
          eligibility := outcome;
          var bonos := PreselectBonos(outcome.value.mivivienda.availableBonos);
          UpdateField(SelectedBonos(bonos));
        }
      }
    }

    /**
     * The search that follows a rate change: the institutions offering the rate
     * are searched for (`outcome` is `None` when the search throws) when the rate
     * is a non-zero number and a default program `programId` is known; otherwise
     * the list is emptied.
     */
    method SearchInstitutions(rate: string, programId: string, outcome: Option<seq<FinancialInstitutionTypes.InstitutionRateEntity>>)
      modifies this`filteredInstitutions
      ensures filteredInstitutions ==
        if Numbers.TruthyNumber(Numbers.ParseFloat(rate)) && programId != "" && outcome.Some? then outcome.value else []
    {
      var rateNum := Numbers.ParseFloat(rate);
      if !Numbers.TruthyNumber(rateNum) || programId == "" {
        filteredInstitutions := [];
        return;
      }
      if outcome.Some? {
        filteredInstitutions := outcome.value;
      } else {
        filteredInstitutions := [];
      }
    }

    /** `handleInterestRateChange`: the rate is updated, then the institutions are searched for. */
    method ChangeInterestRate(rate: string, outcome: Option<seq<FinancialInstitutionTypes.InstitutionRateEntity>>)
      modifies this`form, this`formModified, this`filteredInstitutions
      ensures form == old(form).(interestRate := rate)
      ensures formModified == (old(formModified) || old(generatedSimulation).Some?)
      ensures filteredInstitutions ==
        if Numbers.TruthyNumber(Numbers.ParseFloat(rate)) && old(defaultProgramId) != "" && outcome.Some? then outcome.value else []
    {
      var programId := defaultProgramId;
      ApplyInterestRate(form, rate);
      UpdateField(InterestRate(rate));
      SearchInstitutions(rate, programId, outcome);
    }

    /** `handleInstitutionChange`: with a default program, the institution's rate details are fetched. */
    method ChangeInstitution(institutionId: string, outcome: Option<FinancialInstitutionTypes.InstitutionRateEntity>)
      modifies this`form, this`formModified, this`selectedInstitutionRate
      ensures form == old(form).(institutionId := institutionId)
      ensures formModified == (old(formModified) || old(generatedSimulation).Some?)
      ensures selectedInstitutionRate == if old(defaultProgramId) != "" && outcome.Some? then outcome else old(selectedInstitutionRate)
    {
      UpdateField(InstitutionId(institutionId));
      if defaultProgramId != "" && outcome.Some? {
        selectedInstitutionRate := outcome;
      }
    }

    /** `handleNext`, as written: the step-4 shortcut applies whenever guard 4 passes. */
    method Next()
      modifies this`step
      ensures step == old(NextStep(step, CanProceed(step, form, eligibility, currentProperty, rateRange),
                                   generatedSimulation.Some?, formModified))
    {
      if step == 1 && !CanProceedFromStep1(form, eligibility) {
        return;
      }
      if step == 2 {
        var totals := ComputeTotals(form, eligibility, currentProperty);
        if !CanProceedFromStep2(totals) {
          return;
        }
      }
      if step == 3 && !CanProceedFromStep3(form, rateRange) {
        return;
      }
      if step == 4 && !CanProceedFromStep4(form) {
        return;
      }
      if step == 4 && generatedSimulation.Some? && !formModified {
        step := 5;
        return;
      }
      step := if step + 1 < 5 then step + 1 else 5;
    }

    /** `handleBack`. */
    method Back()
      modifies this`step
      ensures step == PreviousStep(old(step))
    {
      step := if step - 1 > 1 then step - 1 else 1;
    }

    /**
     * The delete that precedes a create, when a simulation with an id is held:
     * `deleteOk` is false when that call throws. `proceed` is whether the create follows.
     */
    method DeletePrevious(deleteOk: bool) returns (proceed: bool)
      modifies this`calls
      ensures var prior := old(generatedSimulation).Some? && old(generatedSimulation).value.id != "";
        && calls == old(calls) + (if prior then [Delete(old(generatedSimulation).value.id, deleteOk)] else [])
        && proceed == (!prior || deleteOk)
    {
      proceed := true;
      if generatedSimulation.Some? && generatedSimulation.value.id != "" {
        calls := calls + [Delete(generatedSimulation.value.id, deleteOk)];
        proceed := deleteOk;
      }
    }

    /** The create and, when it answers, the move to the results. */
    method CreateSimulation(request: Request, created: Option<LoanSimulationTypes.LoanSimulationEntity>)
      modifies this`step, this`generatedSimulation, this`formModified, this`calls
      ensures calls == old(calls) + [Create(request)]
      ensures generatedSimulation == (if created.Some? then created else old(generatedSimulation))
      ensures formModified == (if created.Some? then false else old(formModified))
      ensures step == (if created.Some? then 5 else old(step))
    {
      calls := calls + [Create(request)];
      if created.Some? {
        generatedSimulation := created;
        formModified := false;
        step := 5;
      }
    }

    /**
     * The calls `handleGenerate` makes once its guard has been evaluated to `ok`:
     * a previous simulation is deleted first, and when that delete throws nothing
     * is created; `request` is sent and `created` is the backend's answer (`None`
     * when the call throws). Success moves to step 5 with the form unmodified.
     */
    method SendGenerate(ok: bool, request: Request, deleteOk: bool, created: Option<LoanSimulationTypes.LoanSimulationEntity>)
      modifies this`step, this`generatedSimulation, this`formModified, this`calls
      ensures var prior := old(generatedSimulation).Some? && old(generatedSimulation).value.id != "";
        var reached := ok && (!prior || deleteOk);
        var succeeded := reached && created.Some?;
        && calls == old(calls) + (if ok && prior then [Delete(old(generatedSimulation).value.id, deleteOk)] else [])
                               + (if reached then [Create(request)] else [])
        && generatedSimulation == (if succeeded then created else old(generatedSimulation))
        && formModified == (if succeeded then false else old(formModified))
        && step == (if succeeded then 5 else old(step))
    {
      if !ok {
        return;
      }
      var proceed := DeletePrevious(deleteOk);
      if !proceed {
        return;
      }
      CreateSimulation(request, created);
    }

    /** `handleGenerate`, as written: the guard, then the calls of `SendGenerate` with the request built from the totals. */
    method Generate(deleteOk: bool, created: Option<LoanSimulationTypes.LoanSimulationEntity>)
      modifies this`step, this`generatedSimulation, this`formModified, this`calls
      ensures var ok := old(CanGenerateSimulation(form, eligibility, currentProperty, rateRange));
        var prior := old(generatedSimulation).Some? && old(generatedSimulation).value.id != "";
        var request := old(CreateRequest(form, defaultProgramId, CalculatedTotals(form, eligibility, currentProperty)));
        var reached := ok && (!prior || deleteOk);
        var succeeded := reached && created.Some?;
        && calls == old(calls) + (if ok && prior then [Delete(old(generatedSimulation).value.id, deleteOk)] else [])
                               + (if reached then [Create(request)] else [])
        && generatedSimulation == (if succeeded then created else old(generatedSimulation))
        && formModified == (if succeeded then false else old(formModified))
        && step == (if succeeded then 5 else old(step))
    {
      var totals := ComputeTotals(form, eligibility, currentProperty);
      var request := CreateRequest(form, defaultProgramId, totals);
      SendGenerate(CanGenerateSimulation(form, eligibility, currentProperty, rateRange), request, deleteOk, created);
    }

    /**
     * `SendGenerate` with the held simulation forgotten as soon as its delete
     * succeeds. When the backend never hands out an id it has deleted, the
     * simulation the page holds is never a deleted one.
     */
    method SendGenerateCorrected(ok: bool, request: Request, deleteOk: bool, created: Option<LoanSimulationTypes.LoanSimulationEntity>)
      requires SimulationLive()
      requires created.Some? ==> (created.value.id !in Deleted(calls)
        && !(generatedSimulation.Some? && created.value.id == generatedSimulation.value.id))
      modifies this`step, this`generatedSimulation, this`formModified, this`calls
      ensures var prior := old(generatedSimulation).Some? && old(generatedSimulation).value.id != "";
        var reached := ok && (!prior || deleteOk);
        var succeeded := reached && created.Some?;
        && calls == old(calls) + (if ok && prior then [Delete(old(generatedSimulation).value.id, deleteOk)] else [])
                               + (if reached then [Create(request)] else [])
        && generatedSimulation == (if succeeded then created else if reached && prior then None else old(generatedSimulation))
        && formModified == (if succeeded then false else old(formModified))
        && step == (if succeeded then 5 else old(step))
      ensures SimulationLive()
    {
      if !ok {
        return;
      }
      if generatedSimulation.Some? && generatedSimulation.value.id != "" {
        var id := generatedSimulation.value.id;
        DeletedSnoc(calls, Delete(id, deleteOk));
        calls := calls + [Delete(id, deleteOk)];
        if !deleteOk {
          return;
        }
        generatedSimulation := None;
      }
      DeletedSnoc(calls, Create(request));
      CreateSimulation(request, created);
    }

    /** `handleGenerate` with the correction of `SendGenerateCorrected`. */
    method GenerateCorrected(deleteOk: bool, created: Option<LoanSimulationTypes.LoanSimulationEntity>)
      requires SimulationLive()
      requires created.Some? ==> (created.value.id !in Deleted(calls)
        && !(generatedSimulation.Some? && created.value.id == generatedSimulation.value.id))
      modifies this`step, this`generatedSimulation, this`formModified, this`calls
      ensures var ok := old(CanGenerateSimulation(form, eligibility, currentProperty, rateRange));
        var prior := old(generatedSimulation).Some? && old(generatedSimulation).value.id != "";
        var request := old(CreateRequest(form, defaultProgramId, CalculatedTotals(form, eligibility, currentProperty)));
        var reached := ok && (!prior || deleteOk);
        var succeeded := reached && created.Some?;
        && calls == old(calls) + (if ok && prior then [Delete(old(generatedSimulation).value.id, deleteOk)] else [])
                               + (if reached then [Create(request)] else [])
        && generatedSimulation == (if succeeded then created else if reached && prior then None else old(generatedSimulation))
        && formModified == (if succeeded then false else old(formModified))
        && step == (if succeeded then 5 else old(step))
      ensures SimulationLive()
    {
      var totals := ComputeTotals(form, eligibility, currentProperty);
      var request := CreateRequest(form, defaultProgramId, totals);
      SendGenerateCorrected(CanGenerateSimulation(form, eligibility, currentProperty, rateRange), request, deleteOk, created);
    }

    /**
     * `handleSubmit`: with a generated simulation, it is saved (`saveOk` is false
     * when that call throws) and the page then goes to the simulations list.
     */
    method Submit(saveOk: bool)
      modifies this`calls, this`leftPage
      ensures var id := if generatedSimulation.Some? then generatedSimulation.value.id else "";
        && calls == old(calls) + (if id != "" then [Save(id)] else [])
        && leftPage == (old(leftPage) || (generatedSimulation.Some? && (id == "" || saveOk)))
      ensures SimulationLive() ==> forall i :: |old(calls)| <= i < |calls| ==> calls[i].Save? && calls[i].id !in Deleted(calls)
    {
      if generatedSimulation.None? {
        return;
      }
      var id := generatedSimulation.value.id;
      if id != "" {
        calls := calls + [Save(id)];
        DeletedSnoc(old(calls), Save(generatedSimulation.value.id));
        if !saveOk {
          return;
        }
      }
      leftPage := true;
    }

    /**
     * `handleCancel`: a generated simulation is saved, as written, and the page
     * then goes to the simulations list; a failed save keeps the page.
     */
    method Cancel(saveOk: bool)
      modifies this`calls, this`leftPage
      ensures var id := if generatedSimulation.Some? then generatedSimulation.value.id else "";
        && calls == old(calls) + (if id != "" then [Save(id)] else [])
        && leftPage == (old(leftPage) || id == "" || saveOk)
      ensures SimulationLive() ==> forall i :: |old(calls)| <= i < |calls| ==> calls[i].Save? && calls[i].id !in Deleted(calls)
    {
      if generatedSimulation.Some? && generatedSimulation.value.id != "" {
        calls := calls + [Save(generatedSimulation.value.id)];
        DeletedSnoc(old(calls), Save(generatedSimulation.value.id));
        if !saveOk {
          return;
        }
      }
      leftPage := true;
    }
  }

  /**
   * A failed re-fetch keeps the previous property's snapshot: after choosing
   * property p1 (eligible) and then p2 with the fetch throwing, guard 1 passes
   * on p1's snapshot while p2 is selected.
   */
  method StaleEligibility() returns (w: Wizard)
    ensures w.form.propertyId == "p2" && w.eligibility.Some? && w.eligibility.value.propertyId == "p1"
    ensures CanProceedFromStep1(w.form, w.eligibility) && !w.EligibilityCurrent()
  {
    w := new Wizard();
    w.SelectCustomer("c1");
    var e := EligibilityTypes.EligibilityWithPropertyEntity("c1", "p1",
      EligibilityTypes.MiViviendaEligibilityEntity(true, [], [], []),
      EligibilityTypes.TechoPropioEligibilityEntity(false, [], [], None, []));
    w.SelectProperty("p1", Some(e));
    w.SelectProperty("p2", None);
  }

  /**
   * A delete that succeeds followed by a create that throws leaves the page
   * holding the deleted simulation, which a later cancel or generation names again.
   */
  method DeletedSimulationKept(w: Wizard)
    requires CanGenerateSimulation(w.form, w.eligibility, w.currentProperty, w.rateRange)
    requires w.generatedSimulation.Some? && w.generatedSimulation.value.id != ""
    modifies w
    ensures w.generatedSimulation == old(w.generatedSimulation)
    ensures !w.SimulationLive()
  {
    w.Generate(true, None);
    assert w.calls[|w.calls| - 2] == Delete(w.generatedSimulation.value.id, true);
  }

  /**
   * In the state `DeletedSimulationKept` leaves, the header's "Cancelar", which is
   * always shown, asks the service to save the simulation it has already deleted.
   */
  method CancelSavesDeleted(w: Wizard, saveOk: bool)
    requires w.generatedSimulation.Some? && w.generatedSimulation.value.id != ""
    requires !w.SimulationLive()
    modifies w`calls, w`leftPage
    ensures |w.calls| > 0 && w.calls[|w.calls| - 1] == Save(w.generatedSimulation.value.id)
    ensures w.generatedSimulation.value.id in Deleted(w.calls)
  {
    var id := w.generatedSimulation.value.id;
    ghost var before := w.calls;
    w.Cancel(saveOk);
    DeletedSnoc(before, Save(id));
  }
}
