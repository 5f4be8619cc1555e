/**
 * app/customers/new/page.tsx: the three-step customer intake form, its step
 * guards, and the creation request it submits.
 */
module NewCustomerPage {
  import opened Wrappers
  import Text
  import Numbers
  import opened CustomerTypes

  /** `FormState`: every input as the form holds it (numbers still as text). */
  datatype CustomerForm = CustomerForm(
    firstName: string,
    lastName: string,
    middleName: string,
    email: string,
    phoneNumber: string,
    street: string,
    district: string,
    province: string,
    department: string,
    zipCode: string,
    birthDate: string,
    maritalStatus: MaritalStatus,
    nationality: string,
    educationLevel: EducationLevel,
    isPermanentResident: bool,
    residenceCardNumber: string,
    occupation: string,
    profession: string,
    employmentType: EmploymentType,
    monthlyIncomeAmount: string,
    monthlyIncomeCurrency: string,
    monthlyExpensesAmount: string,
    monthlyExpensesCurrency: string,
    hasOtherLoans: bool,
    creditScore: string,
    totalFamilyIncomeAmount: string,
    totalFamilyIncomeCurrency: string,
    dependents: string,
    hasWheelchairUser: bool,
    hasOtherProperties: bool,
    hasReceivedStateHousingSupport: bool,
    stateHousingSupportDetails: string,
    fundOrigin: FundOriginType,
    fundOriginOther: string,
    spouseFirstName: string,
    spouseLastName: string,
    spouseDocumentType: string,
    spouseDocumentNumber: string,
    spouseOccupation: string,
    spouseMonthlyIncomeAmount: string,
    spouseMonthlyIncomeCurrency: string)

  /** `initialState`. */
  const InitialForm: CustomerForm := CustomerForm(
    "", "", "", "", "", "", "", "", "", "", "",
    SINGLE, "Peruana", UNIVERSITY, true, "",
    "", "", DEPENDENT, "", "PEN", "", "PEN", false, "", "", "PEN", "0", false,
    false, false, "", FINANCIAL_SYSTEM_SAVINGS, "",
    "", "", "", "", "", "", "PEN")

  /** `hasSpouseSection`: the spouse inputs apply to married and cohabiting customers. */
  predicate HasSpouseSection(f: CustomerForm) {
    f.maritalStatus == MARRIED || f.maritalStatus == COHABITING
  }

  /** The personal-data step is complete: its required texts are non-blank and a birth date is chosen. */
  predicate Step1Complete(f: CustomerForm) {
    && !Text.Blank(f.firstName) && !Text.Blank(f.lastName) && !Text.Blank(f.email)
    && !Text.Blank(f.phoneNumber) && !Text.Blank(f.street) && !Text.Blank(f.district)
    && f.birthDate != ""
  }

  /** The economic step is complete: occupation and profession non-blank, the three amounts filled in. */
  predicate Step2Complete(f: CustomerForm) {
    && !Text.Blank(f.occupation) && !Text.Blank(f.profession)
    && f.monthlyIncomeAmount != "" && f.monthlyExpensesAmount != "" && f.totalFamilyIncomeAmount != ""
  }

  /** Where `handleNext` leads from `step`. */
  function NextStep(step: int, f: CustomerForm): (r: int)
    ensures step == 1 ==> (r == 2 <==> Step1Complete(f)) && (r != 2 ==> r == 1)
    ensures step == 2 ==> (r == 3 <==> Step2Complete(f)) && (r != 3 ==> r == 2)
    ensures step != 1 && step != 2 ==> r == step
  {
    if step == 1 then (if Step1Complete(f) then 2 else 1)
    else if step == 2 then (if Step2Complete(f) then 3 else 2)
    else step
  }

  /** Where `handleBack` leads: one step back, never before step 1. */
  function PreviousStep(step: int): (r: int)
    ensures step == 1 ==> r == 1
    ensures step != 1 ==> r == step - 1
  {
    if step == 1 then 1 else step - 1
  }

  /** `s.trim() || null`. */
  function TrimOrNull(s: string): (r: Option<string>)
    ensures r.None? <==> Text.Blank(s)
    ensures r.Some? ==> r.value == Text.Trim(s) && r.value != [] && Text.Tight(r.value)
  {
    Text.TrimTight(s);
    var t := Text.Trim(s);
    if t != "" then Some(t) else None
  }

  /** A submitted optional text is already trimmed: normalising it again changes nothing. */
  lemma TrimOrNullIdempotent(s: string)
    ensures TrimOrNull(s).Some? ==> TrimOrNull(TrimOrNull(s).value) == TrimOrNull(s)
  {
    if TrimOrNull(s).Some? {
      Text.TrimIdempotent(s);
    }
  }

  /** A spouse text: its trimmed value when the section applies and it is non-blank, null otherwise. */
  function SpouseText(section: bool, s: string): (r: Option<string>)
    ensures r.Some? <==> section && !Text.Blank(s)
    ensures r.Some? ==> r.value == Text.Trim(s)
  {
    if section && Text.Trim(s) != "" then Some(Text.Trim(s)) else None
  }

  /** `s ? Number(s) : null`; a NaN is sent as null by `JSON.stringify`, so it is `None` too. */
  function NumberOrNull(s: string): (r: Option<real>)
    ensures s == "" ==> r.None?
    ensures s != "" ==> r == Numbers.NumberOf(s)
  {
    if s != "" then Numbers.NumberOf(s) else None
  }

  /** `Number(s) || 0`. */
  function AmountOrZero(s: string): real {
    Numbers.OrZero(Numbers.NumberOf(s))
  }

  /** The `payload` object literal of `handleSubmit`. */
  function Payload(f: CustomerForm): (p: CreateCustomerRequest)
    ensures p.maritalStatus == f.maritalStatus && p.fundOrigin == f.fundOrigin && p.birthDate == f.birthDate
  {
    var section := HasSpouseSection(f);
    var spouseIncome := section && f.spouseMonthlyIncomeAmount != "";
    CreateCustomerRequest(
      Text.Trim(f.firstName), Text.Trim(f.lastName), TrimOrNull(f.middleName),
      Text.Trim(f.phoneNumber), Text.Trim(f.email),
      Text.Trim(f.street), Text.Trim(f.district), Text.Trim(f.province), Text.Trim(f.department), Text.Trim(f.zipCode),
      f.birthDate, f.maritalStatus, Text.Trim(f.nationality), f.educationLevel,
      f.isPermanentResident, TrimOrNull(f.residenceCardNumber),
      Text.Trim(f.occupation), Text.Trim(f.profession), f.employmentType,
      AmountOrZero(f.monthlyIncomeAmount), f.monthlyIncomeCurrency,
      AmountOrZero(f.monthlyExpensesAmount), f.monthlyExpensesCurrency,
      f.hasOtherLoans, NumberOrNull(f.creditScore),
      AmountOrZero(f.totalFamilyIncomeAmount), f.totalFamilyIncomeCurrency,
      AmountOrZero(f.dependents), f.hasWheelchairUser,
      SpouseText(section, f.spouseFirstName), SpouseText(section, f.spouseLastName),
      SpouseText(section, f.spouseDocumentType), SpouseText(section, f.spouseDocumentNumber),
      SpouseText(section, f.spouseOccupation),
      if spouseIncome then Numbers.NumberOf(f.spouseMonthlyIncomeAmount) else None,
      if spouseIncome then Some(f.spouseMonthlyIncomeCurrency) else None,
      f.hasOtherProperties, f.hasReceivedStateHousingSupport, TrimOrNull(f.stateHousingSupportDetails),
      f.fundOrigin, TrimOrNull(f.fundOriginOther))
  }

  /** The required texts are sent trimmed; each optional text is sent trimmed, or null when blank. */
  lemma PayloadNormalised(f: CustomerForm)
    ensures var p := Payload(f);
            && p.firstName == Text.Trim(f.firstName) && p.lastName == Text.Trim(f.lastName)
            && p.middleName == TrimOrNull(f.middleName)
            && p.residenceCardNumber == TrimOrNull(f.residenceCardNumber)
            && p.stateHousingSupportDetails == TrimOrNull(f.stateHousingSupportDetails)
            && p.fundOriginOther == TrimOrNull(f.fundOriginOther)
            && p.creditScore == NumberOrNull(f.creditScore)
            && p.monthlyIncomeAmount == AmountOrZero(f.monthlyIncomeAmount)
  {
  }

  /** Each spouse field is sent only when the section applies and the input is filled in. */
  lemma PayloadSpouse(f: CustomerForm)
    ensures var p, section := Payload(f), HasSpouseSection(f);
            && p.spouseFirstName == SpouseText(section, f.spouseFirstName)
            && p.spouseLastName == SpouseText(section, f.spouseLastName)
            && p.spouseDocumentType == SpouseText(section, f.spouseDocumentType)
            && p.spouseDocumentNumber == SpouseText(section, f.spouseDocumentNumber)
            && p.spouseOccupation == SpouseText(section, f.spouseOccupation)
            && (p.spouseMonthlyIncomeAmount.Some? ==> section && f.spouseMonthlyIncomeAmount != "")
            && (section && f.spouseMonthlyIncomeAmount != "" ==>
                  p.spouseMonthlyIncomeAmount == Numbers.NumberOf(f.spouseMonthlyIncomeAmount))
            && (p.spouseMonthlyIncomeCurrency.Some? <==> section && f.spouseMonthlyIncomeAmount != "")
            && (p.spouseMonthlyIncomeCurrency.Some? ==> p.spouseMonthlyIncomeCurrency.value == f.spouseMonthlyIncomeCurrency)
  {
  }

  /** Without a spouse section no spouse data is sent, whatever was typed into the spouse inputs. */
  lemma NoSpouseNoSpouseData(f: CustomerForm)
    requires !HasSpouseSection(f)
    ensures var p := Payload(f);
            && p.spouseFirstName.None? && p.spouseLastName.None? && p.spouseDocumentType.None?
            && p.spouseDocumentNumber.None? && p.spouseOccupation.None?
            && p.spouseMonthlyIncomeAmount.None? && p.spouseMonthlyIncomeCurrency.None?
  {
    PayloadSpouse(f);
  }

  /** Every optional text the payload sends is non-empty and already trimmed. */
  lemma PayloadTextsTrimmed(f: CustomerForm)
    ensures var p := Payload(f);
            && (p.middleName.Some? ==> p.middleName.value != [] && Text.Trim(p.middleName.value) == p.middleName.value)
            && (p.spouseFirstName.Some? ==> p.spouseFirstName.value != [] && Text.Trim(p.spouseFirstName.value) == p.spouseFirstName.value)
            && (p.fundOriginOther.Some? ==> Text.Trim(p.fundOriginOther.value) == p.fundOriginOther.value)
  {
    PayloadNormalised(f);
    PayloadSpouse(f);
    Text.TrimIdempotent(f.middleName);
    Text.TrimIdempotent(f.spouseFirstName);
    Text.TrimIdempotent(f.fundOriginOther);
  }

  /** A form that passed the first step also passes the name check of `handleSubmit`. */
  lemma Step1PassesSubmitCheck(f: CustomerForm)
    requires Step1Complete(f)
    ensures !Text.Blank(f.firstName) && !Text.Blank(f.lastName)
    ensures Payload(f).firstName != [] && Payload(f).lastName != []
  {
    PayloadNormalised(f);
  }

  /** The intake page: the step shown, the form, the submitting flag and the creation requests sent. */
  class CustomerIntake {
    var step: int
    var form: CustomerForm
    var submitting: bool
    var sent: seq<CreateCustomerRequest>

    constructor ()
      ensures step == 1 && form == InitialForm && !submitting && sent == []
    {
      step := 1;
      form := InitialForm;
      submitting := false;
      sent := [];
    }

    /** `updateField` (any key): the form becomes `f`. */
    method UpdateForm(f: CustomerForm)
      modifies this`form
      ensures form == f
    {
      form := f;
    }

    /** `handleNext`. */
    method Next()
      modifies this`step
      ensures step == NextStep(old(step), old(form))
    {
      var f := form;
      if step == 1 {
        if !Step1Complete(f) {
          return;
        }
        step := 2;
      } else if step == 2 {
        if !Step2Complete(f) {
          return;
        }
        step := 3;
      }
    }

    /** `handleBack`. */
    method Back()
      modifies this`step
      ensures step == PreviousStep(old(step))
    {
      step := if step == 1 then 1 else step - 1;
    }

    /**
     * `handleSubmit` up to the service call: ignored while a submission is running,
     * sent back to step 1 when a name is blank, otherwise the payload is sent.
     */
    method Submit()
      modifies this`step, this`submitting, this`sent
      ensures old(submitting) ==> step == old(step) && submitting && sent == old(sent)
      ensures !old(submitting) && (Text.Blank(old(form).firstName) || Text.Blank(old(form).lastName)) ==>
                step == 1 && !submitting && sent == old(sent)
      ensures !old(submitting) && !Text.Blank(old(form).firstName) && !Text.Blank(old(form).lastName) ==>
                step == old(step) && submitting && sent == old(sent) + [Payload(old(form))]
    {
      Send(!Text.Blank(form.firstName) && !Text.Blank(form.lastName), Payload(form));
    }

    /** `handleSubmit` once the name check has been evaluated to `named` and the payload built. */
    method Send(named: bool, payload: CreateCustomerRequest)
      modifies this`step, this`submitting, this`sent
      ensures old(submitting) ==> step == old(step) && submitting && sent == old(sent)
      ensures !old(submitting) && !named ==> step == 1 && !submitting && sent == old(sent)
      ensures !old(submitting) && named ==> step == old(step) && submitting && sent == old(sent) + [payload]
    {
      if submitting {
        return;
      }
      if !named {
        step := 1;
        return;
      }
      submitting := true;
      sent := sent + [payload];
    }

    /** The `finally` of `handleSubmit`, once the service call has settled. */
    method Settle()
      modifies this`submitting
      ensures !submitting
    {
      submitting := false;
    }
  }
}
