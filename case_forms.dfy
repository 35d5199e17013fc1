// The two case forms: the new-case page and the case form on the call page,
// with the call page's customer card, the manual and AI case drafts and
// the submission of a finished case.
module CaseForms {
  import opened Wrappers
  import opened Strings
  import Phone
  import Connect

  /** The inputs of a case form, by their `name` attribute. */
  datatype CaseField = Status | CaseId | Todo | Name | ContactCode | ContactNumber | Email | Product
                     | Summary | Actions | Priority

  /**
   * A case object as the forms and drafts hold it: one entry per key, and
   * `None` for a key the object does not have (or holds as `undefined`).
   */
  datatype CaseDraft = CaseDraft(
    status: Option<string>, caseId: Option<string>, todo: Option<string>, name: Option<string>,
    contactCode: Option<string>, contactNumber: Option<string>, email: Option<string>,
    product: Option<string>, summary: Option<string>, actions: Option<string>, priority: Option<string>,
    contactId: Option<string>)
  {
    function Get(f: CaseField): Option<string> {
      match f
      case Status => status
      case CaseId => caseId
      case Todo => todo
      case Name => name
      case ContactCode => contactCode
      case ContactNumber => contactNumber
      case Email => email
      case Product => product
      case Summary => summary
      case Actions => actions
      case Priority => priority
    }

    /** `{ ...prev, [name]: value }` */
    function With(f: CaseField, value: string): (r: CaseDraft)
      ensures forall g :: r.Get(g) == if g == f then Some(value) else Get(g)
      ensures r.contactId == contactId
    {
      match f
      case Status => this.(status := Some(value))
      case CaseId => this.(caseId := Some(value))
      case Todo => this.(todo := Some(value))
      case Name => this.(name := Some(value))
      case ContactCode => this.(contactCode := Some(value))
      case ContactNumber => this.(contactNumber := Some(value))
      case Email => this.(email := Some(value))
      case Product => this.(product := Some(value))
      case Summary => this.(summary := Some(value))
      case Actions => this.(actions := Some(value))
      case Priority => this.(priority := Some(value))
    }
  }

  const REQUIRED_SUFFIX := " is required."

  /** The inputs both forms insist on, with the labels the alerts use, in the order they are checked. */
  const REQUIRED_FIELDS: seq<(CaseField, string)> := [
    (Name, "Customer Name"),
    (Email, "Email"),
    (ContactNumber, "Contact Number"),
    (Product, "Product Concerned"),
    (Summary, "Summary of Issue")
  ]

  /** `!form[field] || form[field].trim() === ''` */
  predicate Missing(form: CaseDraft, field: CaseField) {
    form.Get(field).None? || IsBlank(form.Get(field).value)
  }

  /** The first required input, from position `i` on, that is missing. */
  function FirstMissingFrom(form: CaseDraft, i: nat): (r: Option<nat>)
    requires i <= |REQUIRED_FIELDS|
    ensures r.None? <==> forall k :: i <= k < |REQUIRED_FIELDS| ==> !Missing(form, REQUIRED_FIELDS[k].0)
    ensures r.Some? ==>
              i <= r.value < |REQUIRED_FIELDS| && Missing(form, REQUIRED_FIELDS[r.value].0) &&
              forall k :: i <= k < r.value ==> !Missing(form, REQUIRED_FIELDS[k].0)
    decreases |REQUIRED_FIELDS| - i
  {
    if i == |REQUIRED_FIELDS| then None
    else if Missing(form, REQUIRED_FIELDS[i].0) then Some(i)
    else FirstMissingFrom(form, i + 1)
  }

  /** The position of the first required input that is missing, if any. */
  function FirstMissing(form: CaseDraft): (r: Option<nat>)
    ensures r.None? <==> forall k :: 0 <= k < |REQUIRED_FIELDS| ==> !Missing(form, REQUIRED_FIELDS[k].0)
    ensures r.Some? ==>
              r.value < |REQUIRED_FIELDS| && Missing(form, REQUIRED_FIELDS[r.value].0) &&
              forall k :: 0 <= k < r.value ==> !Missing(form, REQUIRED_FIELDS[k].0)
  {
    FirstMissingFrom(form, 0)
  }

  /** The alert or toast a form with a missing input raises: `${label} is required.` */
  function RequiredMessage(form: CaseDraft): Option<string> {
    var m := FirstMissing(form);
    if m.Some? then Some(REQUIRED_FIELDS[m.value].1 + REQUIRED_SUFFIX) else None
  }

  /**
   * The `for (const { field, label } of requiredFields)` loop both forms
   * run: the first missing input stops it with its message.
   */
  method CheckRequired(form: CaseDraft) returns (message: Option<string>)
    ensures message == RequiredMessage(form)
    ensures message.None? <==> forall k :: 0 <= k < |REQUIRED_FIELDS| ==> !Missing(form, REQUIRED_FIELDS[k].0)
  {
    var i := 0;
    while i < |REQUIRED_FIELDS|
      invariant 0 <= i <= |REQUIRED_FIELDS|
      invariant FirstMissing(form) == FirstMissingFrom(form, i)
    {
      var field, caption := REQUIRED_FIELDS[i].0, REQUIRED_FIELDS[i].1;
      var value := form.Get(field);
      if value.None? || Trim(value.value) == "" {
        BlankIffTrimEmpty(value.GetOr(""));
        assert Missing(form, field);
        return Some(caption + REQUIRED_SUFFIX);
      }
      BlankIffTrimEmpty(value.value);
      assert !Missing(form, field);
      i := i + 1;
    }
    return None;
  }

  /** Changing an input that is not required never changes what the check reports. */
  lemma {:induction false} OptionalFieldIgnored(form: CaseDraft, field: CaseField, value: string, i: nat)
    requires i <= |REQUIRED_FIELDS|
    requires forall k :: 0 <= k < |REQUIRED_FIELDS| ==> REQUIRED_FIELDS[k].0 != field
    ensures FirstMissingFrom(form.With(field, value), i) == FirstMissingFrom(form, i)
    decreases |REQUIRED_FIELDS| - i
  {
    if i < |REQUIRED_FIELDS| {
      var f := REQUIRED_FIELDS[i].0;
      assert f != field;
      assert Missing(form.With(field, value), f) == Missing(form, f);
      OptionalFieldIgnored(form, field, value, i + 1);
    }
  }

  /** Neither `actions`, `todo` nor `priority` is ever required. */
  lemma ActionsTodoPriorityOptional(form: CaseDraft, value: string)
    ensures RequiredMessage(form.With(Actions, value)) == RequiredMessage(form)
    ensures RequiredMessage(form.With(Todo, value)) == RequiredMessage(form)
    ensures RequiredMessage(form.With(Priority, value)) == RequiredMessage(form)
  {
    OptionalFieldIgnored(form, Actions, value, 0);
    OptionalFieldIgnored(form, Todo, value, 0);
    OptionalFieldIgnored(form, Priority, value, 0);
  }

  /** A draft with no keys stops at the customer name. */
  lemma EmptyDraftStopsAtName()
    ensures RequiredMessage(NO_DRAFT) == Some(REQUIRED_FIELDS[0].1 + REQUIRED_SUFFIX)
  {
    assert Missing(NO_DRAFT, Name);
  }

  /** The object with no keys. */
  const NO_DRAFT := CaseDraft(None, None, None, None, None, None, None, None, None, None, None, None)

  // ---------------------------------------------------------------------
  // The new-case page

  /** The new-case form's text inputs as it opens. */
  const NEW_CASE_FORM := CaseDraft(Some("pending"), Some(""), Some(""), Some(""), Some("+64"), Some(""),
                                   Some(""), Some(""), Some(""), Some(""), None, None)

  const SAVED_TOAST := "Case saved successfully"
  const SAVE_FAILED_TOAST := "Failed to save case. Please try again."
  const CASES_ROUTE := "/cases"

  /** How the create request ended: any response, or a thrown error. */
  datatype SaveOutcome = SaveResponded | SaveThrew

  /** The new-case page's state. */
  class NewCaseEditor {
    var form: CaseDraft
    /** `activeStartTime`, set from the clock when the page opens. */
    const activeStartTime: int
    /** Every case sent to the server, with its start time. */
    var requests: seq<(CaseDraft, int)>
    var navigatedTo: Option<string>

    constructor (now: int)
      ensures form == NEW_CASE_FORM && activeStartTime == now && requests == [] && navigatedTo.None?
    {
      form, activeStartTime, requests, navigatedTo := NEW_CASE_FORM, now, [], None;
    }

    /** `handleChange`: only the named input changes. */
    method HandleChange(name: CaseField, value: string)
      modifies this`form
      ensures form == old(form).With(name, value)
    {
      form := form.With(name, value);
    }

    /** `handleCancel` */
    method HandleCancel()
      modifies this`navigatedTo
      ensures navigatedTo == Some(CASES_ROUTE)
    {
      navigatedTo := Some(CASES_ROUTE);
    }

    /**
     * `handleSave` with the request settled: a missing input stops with its
     * toast and sends nothing; otherwise the form is sent, and any response
     * (its code is not looked at) counts as saved.
     */
    method HandleSave(outcome: SaveOutcome) returns (toast: string)
      modifies this`requests, this`navigatedTo
      ensures RequiredMessage(form).Some? ==>
                toast == RequiredMessage(form).value && requests == old(requests) && navigatedTo == old(navigatedTo)
      ensures RequiredMessage(form).None? ==> requests == old(requests) + [(form, activeStartTime)]
      ensures RequiredMessage(form).None? && outcome.SaveResponded? ==>
                toast == SAVED_TOAST && navigatedTo == Some(CASES_ROUTE)
      ensures RequiredMessage(form).None? && outcome.SaveThrew? ==>
                toast == SAVE_FAILED_TOAST && navigatedTo == old(navigatedTo)
    {
      var missing := CheckRequired(form);
      if missing.Some? {
        return missing.value;
      }
      requests := requests + [(form, activeStartTime)];
      if outcome.SaveResponded? {
        toast := SAVED_TOAST;
        navigatedTo := Some(CASES_ROUTE);
      } else {
        toast := SAVE_FAILED_TOAST;
      }
    }
  }

  // ---------------------------------------------------------------------
  // The call page

  const UNKNOWN_CUSTOMER := "Unknown Customer"

  /** The `customerInfo` a call notification carries; every attribute may be absent. */
  datatype CallerDetails = CallerDetails(
    customerName: Option<string>, customerPhone: Option<string>, recentCaseId: Option<string>,
    recentCaseTitle: Option<string>, recentCaseStatus: Option<string>, productInfo: Option<string>,
    totalCases: Option<int>, lastContactDate: Option<string>)

  /** The customer card of the call page. */
  datatype CustomerInfo = CustomerInfo(
    name: string, phoneNumber: string, email: string, location: string, customerId: string,
    recentCaseTitle: string, recentCaseStatus: string, productInfo: string, totalCases: int,
    lastContactDate: string)

  /**
   * The card built from a notification: every absent text becomes `''`
   * except the name, which falls back to a placeholder, so the card always
   * has a name; e-mail and location are never known.
   */
  function CustomerCard(details: CallerDetails): (r: CustomerInfo)
    ensures r.name != ""
    ensures r.name == UNKNOWN_CUSTOMER <==> details.customerName.None? || details.customerName.value in {"", UNKNOWN_CUSTOMER}
    ensures r.email == "" && r.location == ""
    ensures r.phoneNumber == details.customerPhone.GetOr("")
    ensures r.customerId == details.recentCaseId.GetOr("")
    ensures r.totalCases == (if details.totalCases.Some? then details.totalCases.value else 0)
  {
    CustomerInfo(
      Or(details.customerName, UNKNOWN_CUSTOMER), Or(details.customerPhone, ""), "", "",
      Or(details.recentCaseId, ""), Or(details.recentCaseTitle, ""), Or(details.recentCaseStatus, ""),
      Or(details.productInfo, ""), details.totalCases.GetOr(0), Or(details.lastContactDate, ""))
  }

  /**
   * The ids an AI case is generated for: the call id from the URL, else the
   * last call's contact id; the last call's number, else the current phone.
   */
  function AICaseIds(callId: Option<string>, lastCall: Option<Connect.CallInfo>, phoneNumber: string): (r: (Option<string>, string))
    ensures callId.Some? && callId.value != "" ==> r.0 == callId
    ensures !(callId.Some? && callId.value != "") && lastCall.Some? ==> r.0 == Some(lastCall.value.contactId)
    ensures r.0.None? <==> !(callId.Some? && callId.value != "") && lastCall.None?
    ensures lastCall.None? || lastCall.value.contactNumber == "" ==> r.1 == phoneNumber
    ensures lastCall.Some? && lastCall.value.contactNumber != "" ==> r.1 == lastCall.value.contactNumber
  {
    var contactId := if callId.Some? && callId.value != "" then callId
                     else if lastCall.Some? then Some(lastCall.value.contactId) else None;
    var contactNumber := if lastCall.Some? then Or(Some(lastCall.value.contactNumber), phoneNumber) else phoneNumber;
    (contactId, contactNumber)
  }

  /**
   * The draft behind the AI case form: the generated case data with the
   * contact id and number written over it.
   */
  function AIDraft(caseData: CaseDraft, contactId: Option<string>, contactNumber: string): (r: CaseDraft)
    ensures r.contactNumber == Some(contactNumber) && r.contactId == contactId
    ensures forall f :: f != ContactNumber ==> r.Get(f) == caseData.Get(f)
  {
    caseData.(contactNumber := Some(contactNumber), contactId := contactId)
  }

  /** The manual draft: pending, the card's name and e-mail (or `''`), the given phone fields and the call id. */
  function ManualDraftWith(code: string, number: string, customer: Option<CustomerInfo>, callId: Option<string>): CaseDraft {
    CaseDraft(
      Some("pending"), Some(""), Some(""), Some(if customer.Some? then customer.value.name else ""),
      Some(code), Some(number), Some(if customer.Some? then customer.value.email else ""),
      Some(""), Some(""), Some(""), None, callId)
  }

  /**
   * `handleManualCase` as written: the current phone is split by
   * `parsePhoneNumber` and the draft carries the code and the local part
   * separately.
   */
  function ManualDraftAsWritten(phoneNumber: string, customer: Option<CustomerInfo>, callId: Option<string>): (r: CaseDraft)
    ensures r.status == Some("pending") && r.contactId == callId
    ensures r.contactCode == Some(Phone.ParsePhoneNumber(phoneNumber).contactCode)
    ensures r.contactNumber == Some(Phone.ParsePhoneNumber(phoneNumber).contactNumber)
  {
    var phone := Phone.ParsePhoneNumber(phoneNumber);
    ManualDraftWith(phone.contactCode, phone.contactNumber, customer, callId)
  }

  /**
   * `handleManualCase` corrected: the draft carries the whole number, as
   * the AI draft does, and the case form splits it once.
   */
  function ManualDraft(phoneNumber: string, customer: Option<CustomerInfo>, callId: Option<string>): (r: CaseDraft)
    ensures r.status == Some("pending") && r.contactNumber == Some(phoneNumber) && r.contactId == callId
    ensures r.name == Some(if customer.Some? then customer.value.name else "")
    ensures r.email == Some(if customer.Some? then customer.value.email else "")
    ensures r.product == Some("") && r.summary == Some("")
  {
    ManualDraftWith(Phone.ParsePhoneNumber(phoneNumber).contactCode, phoneNumber, customer, callId)
  }

  /**
   * The call page's case form as it opens on a draft: `contactCode` and
   * `contactNumber` come from splitting the draft's `contactNumber`, the
   * status defaults to pending and every other text to `''`. The draft's
   * `contactId` is not carried over.
   */
  function InitialCaseForm(draft: CaseDraft): (r: CaseDraft)
    ensures r.status == Some(Or(draft.status, "pending"))
    ensures r.contactCode == Some(Phone.ParsePhoneNumber(draft.contactNumber.GetOr("")).contactCode)
    ensures r.contactNumber == Some(Phone.ParsePhoneNumber(draft.contactNumber.GetOr("")).contactNumber)
    ensures r.contactId.None?
    ensures forall f :: f != Status && f != ContactCode && f != ContactNumber ==> r.Get(f) == Some(Or(draft.Get(f), ""))
  {
    var phone := Phone.ParsePhoneNumber(draft.contactNumber.GetOr(""));
    var r := CaseDraft(
      Some(Or(draft.status, "pending")), Some(Or(draft.caseId, "")), Some(Or(draft.todo, "")),
      Some(Or(draft.name, "")), Some(phone.contactCode), Some(phone.contactNumber),
      Some(Or(draft.email, "")), Some(Or(draft.product, "")), Some(Or(draft.summary, "")),
      Some(Or(draft.actions, "")), Some(Or(draft.priority, "")), None);
    TextFieldsDefaulted(draft, r);
    r
  }

  /** Every text input other than the status and the phone holds the draft's value, or `''`. */
  lemma TextFieldsDefaulted(draft: CaseDraft, r: CaseDraft)
    requires r.caseId == Some(Or(draft.caseId, "")) && r.todo == Some(Or(draft.todo, ""))
    requires r.name == Some(Or(draft.name, "")) && r.email == Some(Or(draft.email, ""))
    requires r.product == Some(Or(draft.product, "")) && r.summary == Some(Or(draft.summary, ""))
    requires r.actions == Some(Or(draft.actions, "")) && r.priority == Some(Or(draft.priority, ""))
    ensures forall f :: f != Status && f != ContactCode && f != ContactNumber ==> r.Get(f) == Some(Or(draft.Get(f), ""))
  {
    forall f | f != Status && f != ContactCode && f != ContactNumber
      ensures r.Get(f) == Some(Or(draft.Get(f), ""))
    {
      match f
      case CaseId =>
      case Todo =>
      case Name =>
      case Email =>
      case Product =>
      case Summary =>
      case Actions =>
      case Priority =>
    }
  }

  /**
   * As written, every caller from a country other than New Zealand gets a
   * manual case form with the New Zealand code: the local part is split a
   * second time and, lacking a `+`, gets the default code.
   */
  lemma {:induction false} ManualCaseLosesCountryCode(code: string, number: string, customer: Option<CustomerInfo>, callId: Option<string>)
    requires code in Phone.COUNTRY_CODES && code != Phone.DEFAULT_CODE
    requires number != "" && Phone.DigitsOnly(number)
    ensures Phone.ParsePhoneNumber(code + number) == Phone.PhoneParts(code, number)
    ensures InitialCaseForm(ManualDraftAsWritten(code + number, customer, callId)).contactCode == Some(Phone.DEFAULT_CODE)
  {
    Phone.ParseFormatRoundTrip(code, number);
    assert Phone.FormatPhoneNumber(code, number) == code + number;
    Phone.CleanKeepsPhoneChars(number);
    Phone.LocalNumberGetsDefaultCode(number);
  }

  /** For instance an Australian mobile number, `+61412345678`, opens with `+64`. */
  lemma AustralianManualCase()
    ensures InitialCaseForm(ManualDraftAsWritten("+61412345678", None, None)).contactCode == Some("+64")
  {
    assert "+61412345678" == "+61" + "412345678";
    ManualCaseLosesCountryCode("+61", "412345678", None, None);
  }

  /** Corrected, the manual case form shows exactly the split of the caller's number. */
  lemma ManualCaseKeepsPhone(phoneNumber: string, customer: Option<CustomerInfo>, callId: Option<string>)
    ensures InitialCaseForm(ManualDraft(phoneNumber, customer, callId)).contactCode == Some(Phone.ParsePhoneNumber(phoneNumber).contactCode)
    ensures InitialCaseForm(ManualDraft(phoneNumber, customer, callId)).contactNumber == Some(Phone.ParsePhoneNumber(phoneNumber).contactNumber)
  {
  }

  /** The call page's case form. */
  class CallCaseForm {
    var form: CaseDraft

    constructor (draft: CaseDraft)
      ensures form == InitialCaseForm(draft)
    {
      form := InitialCaseForm(draft);
    }

    /** `handleChange`: only the named input changes. */
    method HandleChange(name: CaseField, value: string)
      modifies this`form
      ensures form == old(form).With(name, value)
    {
      form := form.With(name, value);
    }

    /** `handleSubmit`: a missing input raises its alert; otherwise the form goes to `onSubmit`. */
    method HandleSubmit() returns (alert: Option<string>, submitted: Option<CaseDraft>)
      ensures alert == RequiredMessage(form)
      ensures submitted.Some? <==> alert.None?
      ensures submitted.Some? ==> submitted.value == form
    {
      alert := CheckRequired(form);
      submitted := if alert.None? then Some(form) else None;
    }
  }

  const NAME_REQUIRED_ALERT := "Name is required. Please fill in the customer name."
  const CREATED_ALERT := "Case created successfully!"
  const CREATE_FAILED_PREFIX := "Failed to create case: "
  const CREATE_ERROR_PREFIX := "Error creating case: "

  /** How the create request ended: a response with its code and message, or a thrown error. */
  datatype CreateResponse = CreateResponded(code: int, message: string) | CreateThrew(message: string)

  /** The call page's state. */
  class CallPanel {
    var phoneNumber: string
    var customerInfo: Option<CustomerInfo>
    var caseFormData: Option<CaseDraft>
    var showCaseForm: bool
    var navigatedTo: Option<string>
    /** Every case sent to the server. */
    var created: seq<CaseDraft>

    constructor ()
      ensures phoneNumber == "" && customerInfo.None? && caseFormData.None? && !showCaseForm
      ensures navigatedTo.None? && created == []
    {
      phoneNumber, customerInfo, caseFormData, showCaseForm := "", None, None, false;
      navigatedTo, created := None, [];
    }

    /** An `incomingCall` event with customer details: the card is replaced, the phone only when one is given. */
    method HandleIncomingCall(details: CallerDetails)
      modifies this`customerInfo, this`phoneNumber
      ensures customerInfo == Some(CustomerCard(details))
      ensures phoneNumber == Or(details.customerPhone, old(phoneNumber))
    {
      customerInfo := Some(CustomerCard(details));
      if details.customerPhone.Some? && details.customerPhone.value != "" {
        phoneNumber := details.customerPhone.value;
      }
    }

    /** Without a card, the current contact's `CustomerPhone` (when given) becomes the phone. */
    method HandleContactFallback(contactPhone: Option<string>)
      modifies this`phoneNumber
      ensures customerInfo.None? ==> phoneNumber == Or(contactPhone, old(phoneNumber))
      ensures customerInfo.Some? ==> phoneNumber == old(phoneNumber)
    {
      if customerInfo.None? {
        var number := Or(contactPhone, "");
        if number != "" {
          phoneNumber := number;
        }
      }
    }

    /** `handleAICaseGeneration` after the service returned `caseData`. */
    method HandleAICase(callId: Option<string>, lastCall: Option<Connect.CallInfo>, caseData: CaseDraft)
      modifies this`caseFormData, this`showCaseForm
      ensures var ids := AICaseIds(callId, lastCall, phoneNumber);
              caseFormData == Some(AIDraft(caseData, ids.0, ids.1))
      ensures showCaseForm
    {
      var ids := AICaseIds(callId, lastCall, phoneNumber);
      caseFormData := Some(AIDraft(caseData, ids.0, ids.1));
      showCaseForm := true;
    }

    /** `handleManualCase`, corrected: the draft for the current caller with the whole number. */
    method HandleManualCase(callId: Option<string>)
      modifies this`caseFormData, this`showCaseForm
      ensures caseFormData == Some(ManualDraft(phoneNumber, customerInfo, callId))
      ensures showCaseForm
    {
      caseFormData := Some(ManualDraft(phoneNumber, customerInfo, callId));
      showCaseForm := true;
    }

    /**
     * `handleCaseSubmit`: a missing name stops with an alert; only a 201
     * response closes the form and goes to the case list.
     */
    method HandleCaseSubmit(formData: CaseDraft, response: CreateResponse) returns (alert: string)
      modifies this`caseFormData, this`showCaseForm, this`navigatedTo, this`created
      ensures Missing(formData, Name) ==>
                alert == NAME_REQUIRED_ALERT && created == old(created) && caseFormData == old(caseFormData) &&
                showCaseForm == old(showCaseForm) && navigatedTo == old(navigatedTo)
      ensures !Missing(formData, Name) ==> created == old(created) + [formData]
      ensures !Missing(formData, Name) && response.CreateResponded? && response.code == 201 ==>
                alert == CREATED_ALERT && !showCaseForm && caseFormData.None? && navigatedTo == Some(CASES_ROUTE)
      ensures !Missing(formData, Name) && !(response.CreateResponded? && response.code == 201) ==>
                caseFormData == old(caseFormData) && showCaseForm == old(showCaseForm) && navigatedTo == old(navigatedTo) &&
                alert == (if response.CreateThrew? then CREATE_ERROR_PREFIX else CREATE_FAILED_PREFIX) + response.message
    {
      if Missing(formData, Name) {
        return NAME_REQUIRED_ALERT;
      }
      created := created + [formData];
      alert := SettleCreate(response);
    }

    /** The create request's endings: only a 201 closes the form and goes to the case list. */
    method SettleCreate(response: CreateResponse) returns (alert: string)
      modifies this`caseFormData, this`showCaseForm, this`navigatedTo
      ensures response.CreateResponded? && response.code == 201 ==>
                alert == CREATED_ALERT && !showCaseForm && caseFormData.None? && navigatedTo == Some(CASES_ROUTE)
      ensures !(response.CreateResponded? && response.code == 201) ==>
                caseFormData == old(caseFormData) && showCaseForm == old(showCaseForm) && navigatedTo == old(navigatedTo) &&
                alert == (if response.CreateThrew? then CREATE_ERROR_PREFIX else CREATE_FAILED_PREFIX) + response.message
    {
      match response {
        case CreateResponded(code, message) =>
          if code == 201 {
            alert := CREATED_ALERT;
            showCaseForm, caseFormData, navigatedTo := false, None, Some(CASES_ROUTE);
          } else {
            alert := CREATE_FAILED_PREFIX + message;
          }
        case CreateThrew(message) =>
          alert := CREATE_ERROR_PREFIX + message;
      }
    }

    /** `handleCaseCancel` */
    method HandleCaseCancel()
      modifies this`caseFormData, this`showCaseForm
      ensures caseFormData.None? && !showCaseForm
    {
      caseFormData, showCaseForm := None, false;
    }
  }
}
