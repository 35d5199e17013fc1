// The user administration screen: the add-user form with its validation,
// and the paging of the server's user list.
module Users {
  import opened Wrappers
  import opened Strings
  import opened FormErrors
  import Pagination

  const PAGE_SIZE: nat := 10
  const MAX_NAME := 50
  const MAX_EMAIL := 100
  const MIN_PASSWORD := 6

  const NAME_REQUIRED := "Name is required"
  const NAME_TOO_LONG := "Name must be less than 50 characters"
  const EMAIL_REQUIRED := "Email is required"
  const EMAIL_INVALID := "Email is invalid"
  const EMAIL_TOO_LONG := "Email must be less than 100 characters"
  const PASSWORD_REQUIRED := "Password is required"
  const PASSWORD_TOO_SHORT := "Password must be at least 6 characters"
  const POSITION_REQUIRED := "User position is required"

  /** The inputs of the add-user form, by their `name` attribute. */
  datatype UserField = NameField | EmailField | PasswordField | PositionField

  /** The error record: a message per field, and the server's message under `submit`. */
  datatype UserErrors = UserErrors(name: Option<string>, email: Option<string>, password: Option<string>,
                                   userPosition: Option<string>, submit: Option<string>)
  {
    /** `Object.keys(errors).length === 0` */
    predicate Empty() {
      name.None? && email.None? && password.None? && userPosition.None? && submit.None?
    }

    function Get(f: UserField): Option<string> {
      match f
      case NameField => name
      case EmailField => email
      case PasswordField => password
      case PositionField => userPosition
    }

    /** `{ ...prev, [name]: '' }` when that message is shown. */
    function ClearField(f: UserField): (r: UserErrors)
      ensures forall g :: r.Get(g) == if g == f then Cleared(Get(f)) else Get(g)
      ensures r.submit == submit
    {
      match f
      case NameField => this.(name := Cleared(name))
      case EmailField => this.(email := Cleared(email))
      case PasswordField => this.(password := Cleared(password))
      case PositionField => this.(userPosition := Cleared(userPosition))
    }
  }

  const NO_ERRORS := UserErrors(None, None, None, None, None)

  datatype UserForm = UserForm(name: string, email: string, password: string, userPosition: string)
  {
    function Get(f: UserField): string {
      match f
      case NameField => name
      case EmailField => email
      case PasswordField => password
      case PositionField => userPosition
    }

    /** `{ ...prev, [name]: value }` */
    function With(f: UserField, value: string): (r: UserForm)
      ensures forall g :: r.Get(g) == if g == f then value else Get(g)
    {
      match f
      case NameField => this.(name := value)
      case EmailField => this.(email := value)
      case PasswordField => this.(password := value)
      case PositionField => this.(userPosition := value)
    }
  }

  /** The form as it opens and as every reset leaves it. */
  const EMPTY_FORM := UserForm("", "", "", "user")

  /**
   * `/\S+@\S+\.\S+/.test(s)`: somewhere in `s` a non-space, an `@`, one or
   * more non-spaces, a `.` and a non-space follow each other.
   */
  predicate EmailShaped(s: string) {
    AtFrom(s, 1)
  }

  /** An `@` at position `a` or later, after a non-space, starts a domain. */
  predicate AtFrom(s: string, a: nat)
    requires a >= 1
    decreases |s| - a
  {
    a < |s| && ((s[a] == '@' && !IsSpace(s[a - 1]) && DomainFrom(s, a + 1, true)) || AtFrom(s, a + 1))
  }

  /**
   * From position `i` on, a run of non-spaces reaches a `.` that is not the
   * run's first character and is followed by a non-space.
   */
  predicate DomainFrom(s: string, i: nat, first: bool)
    decreases |s| - i
  {
    i < |s| && !IsSpace(s[i]) &&
      ((!first && s[i] == '.' && i + 1 < |s| && !IsSpace(s[i + 1])) || DomainFrom(s, i + 1, false))
  }

  /** A string shaped like an address has an `@`, so it is not blank. */
  lemma {:induction false} ShapedNotBlank(s: string, a: nat)
    requires a >= 1
    ensures AtFrom(s, a) ==> !IsBlank(s)
    decreases |s| - a
  {
    if a < |s| {
      if s[a] == '@' && !IsSpace(s[a - 1]) && DomainFrom(s, a + 1, true) {
        assert s[a] == '@';
      } else {
        ShapedNotBlank(s, a + 1);
      }
    }
  }

  /** The shortest address shape passes, and a missing dot or a space around `@` fails. */
  lemma EmailShapeExamples()
    ensures EmailShaped("a@b.c")
    ensures !EmailShaped("a@b") && !EmailShaped("a @b.c") && !EmailShaped("a@ b.c")
  {
    assert DomainFrom("a@b.c", 3, false);
    assert !DomainFrom("a@b", 2, true);
    assert !AtFrom("a @b.c", 3);
    assert !DomainFrom("a@ b.c", 2, true);
  }

  /** The name's rule: present after trimming and at most 50 characters. */
  function NameError(name: string): (r: Option<string>)
    ensures r.None? <==> !IsBlank(name) && |name| <= MAX_NAME
  {
    if IsBlank(name) then Some(NAME_REQUIRED)
    else if |name| > MAX_NAME then Some(NAME_TOO_LONG)
    else None
  }

  /** The e-mail's rule: present, shaped like an address, at most 100 characters; the first failure is reported. */
  function EmailError(email: string): (r: Option<string>)
    ensures r.None? <==> EmailShaped(email) && |email| <= MAX_EMAIL
    ensures r == Some(EMAIL_TOO_LONG) <==> EmailShaped(email) && |email| > MAX_EMAIL
  {
    if IsBlank(email) then
      ShapedNotBlank(email, 1);
      Some(EMAIL_REQUIRED)
    else if !EmailShaped(email) then Some(EMAIL_INVALID)
    else if |email| > MAX_EMAIL then Some(EMAIL_TOO_LONG)
    else None
  }

  /** The password's rule: present after trimming and, untrimmed, at least 6 characters. */
  function PasswordError(password: string): (r: Option<string>)
    ensures r.None? <==> !IsBlank(password) && |password| >= MIN_PASSWORD
  {
    if IsBlank(password) then Some(PASSWORD_REQUIRED)
    else if |password| < MIN_PASSWORD then Some(PASSWORD_TOO_SHORT)
    else None
  }

  /** The position's rule: any non-empty value. */
  function PositionError(position: string): (r: Option<string>)
    ensures r.None? <==> position != ""
  {
    if position == "" then Some(POSITION_REQUIRED) else None
  }

  /** The record `validateForm` builds: one message for each field that breaks its rule, and nothing else. */
  function Validate(form: UserForm): UserErrors {
    UserErrors(NameError(form.name), EmailError(form.email), PasswordError(form.password),
               PositionError(form.userPosition), None)
  }

  /** The form is accepted exactly when every rule holds. */
  lemma ValidIffRulesHold(form: UserForm)
    ensures Validate(form).Empty() <==>
              !IsBlank(form.name) && |form.name| <= MAX_NAME &&
              EmailShaped(form.email) && |form.email| <= MAX_EMAIL &&
              !IsBlank(form.password) && |form.password| >= MIN_PASSWORD &&
              form.userPosition != ""
  {
  }

  /** A freshly opened form is never accepted: name, e-mail and password are missing. */
  lemma EmptyFormRejected()
    ensures Validate(EMPTY_FORM) == UserErrors(Some(NAME_REQUIRED), Some(EMAIL_REQUIRED), Some(PASSWORD_REQUIRED), None, None)
  {
    assert IsBlank("");
  }

  /**
   * The delete handler's page correction: when the deleted user's list had
   * `total > 0` users and the current page lies past the last page of the
   * remaining `total - 1`, go to that last page (at least page 1).
   */
  function PageAfterDelete(page: int, total: Option<int>): (r: int)
    ensures 1 <= page ==> 1 <= r
    ensures total.Some? && total.value > 0 ==> r <= Pagination.Max(1, Pagination.PageCount(total.value - 1, PAGE_SIZE))
    ensures r != page ==> total.Some? && total.value > 0 && page > Pagination.PageCount(total.value - 1, PAGE_SIZE)
  {
    if total.Some? && total.value > 0 then
      var pages := Pagination.PageCount(total.value - 1, PAGE_SIZE);
      if page > pages then Pagination.Max(1, pages) else page
    else page
  }

  /** After a delete that leaves users, the page the screen shows still holds some of them. */
  lemma PageAfterDeleteNotEmpty(page: int, total: int)
    requires 1 <= page && total > 1
    ensures (PageAfterDelete(page, Some(total)) - 1) * PAGE_SIZE < total - 1
  {
    var pages := Pagination.PageCount(total - 1, PAGE_SIZE);
    var r := PageAfterDelete(page, Some(total));
    assert 1 <= r <= pages;
    assert (r - 1) * PAGE_SIZE <= (pages - 1) * PAGE_SIZE;
  }

  /** What the create request ended with. */
  datatype CreateOutcome = Created | CreateFailed(message: string)

  /** The user administration screen's state. */
  class UserAdmin {
    var showAddForm: bool
    var formData: UserForm
    var errors: UserErrors
    var currentPage: int
    var searchTerm: string
    var isSearching: bool

    constructor ()
      ensures !showAddForm && formData == EMPTY_FORM && errors == NO_ERRORS
      ensures currentPage == 1 && searchTerm == "" && !isSearching
    {
      showAddForm, formData, errors := false, EMPTY_FORM, NO_ERRORS;
      currentPage, searchTerm, isSearching := 1, "", false;
    }

    /** `handleInputChange`: the field takes the value, and only that field's shown message is cleared. */
    method HandleInputChange(field: UserField, value: string)
      modifies this`formData, this`errors
      ensures formData == old(formData).With(field, value)
      ensures errors == old(errors).ClearField(field)
    {
      formData := formData.With(field, value);
      var shown := errors.Get(field);
      if shown.Some? && shown.value != "" {
        errors := errors.ClearField(field);
      }
    }

    /** `validateForm`: the messages are collected field by field into a new record. */
    method ValidateForm() returns (valid: bool)
      modifies this`errors
      ensures errors == Validate(formData)
      ensures valid <==> errors.Empty()
    {
      var form := formData;
      var newErrors := NO_ERRORS;
      if IsBlank(form.name) {
        newErrors := newErrors.(name := Some(NAME_REQUIRED));
      } else if |form.name| > MAX_NAME {
        newErrors := newErrors.(name := Some(NAME_TOO_LONG));
      }
      assert newErrors.name == NameError(form.name);
      if IsBlank(form.email) {
        newErrors := newErrors.(email := Some(EMAIL_REQUIRED));
      } else if !EmailShaped(form.email) {
        newErrors := newErrors.(email := Some(EMAIL_INVALID));
      } else if |form.email| > MAX_EMAIL {
        newErrors := newErrors.(email := Some(EMAIL_TOO_LONG));
      }
      assert newErrors.email == EmailError(form.email);
      if IsBlank(form.password) {
        newErrors := newErrors.(password := Some(PASSWORD_REQUIRED));
      } else if |form.password| < MIN_PASSWORD {
        newErrors := newErrors.(password := Some(PASSWORD_TOO_SHORT));
      }
      assert newErrors.password == PasswordError(form.password);
      if form.userPosition == "" {
        newErrors := newErrors.(userPosition := Some(POSITION_REQUIRED));
      }
      errors := newErrors;
      valid := newErrors.Empty();
    }

    /**
     * `handleSubmit` with the create request settled: nothing is sent unless
     * the form validates; a created user resets the form, closes it and
     * shows page 1; a failure keeps the form and shows only the server's
     * message.
     */
    method HandleSubmit(outcome: CreateOutcome) returns (submitted: bool)
      modifies this`showAddForm, this`formData, this`errors, this`currentPage
      ensures submitted <==> Validate(old(formData)).Empty()
      ensures !submitted ==>
                errors == Validate(old(formData)) && formData == old(formData) &&
                currentPage == old(currentPage) && showAddForm == old(showAddForm)
      ensures submitted && outcome.Created? ==>
                formData == EMPTY_FORM && errors == NO_ERRORS && currentPage == 1 && !showAddForm
      ensures submitted && outcome.CreateFailed? ==>
                errors == NO_ERRORS.(submit := Some(outcome.message)) && formData == old(formData) &&
                currentPage == old(currentPage) && showAddForm == old(showAddForm)
    {
      ghost var report := Validate(formData);
      submitted := ValidateForm();
      assert errors == report && (submitted <==> report.Empty());
      if submitted {
        Settle(outcome);
      }
    }

    /** The mutation's callbacks: `onSuccess` resets and closes the form, `onError` shows the server's message. */
    method Settle(outcome: CreateOutcome)
      modifies this`showAddForm, this`formData, this`errors, this`currentPage
      ensures outcome.Created? ==> formData == EMPTY_FORM && errors == NO_ERRORS && currentPage == 1 && !showAddForm
      ensures outcome.CreateFailed? ==>
                errors == NO_ERRORS.(submit := Some(outcome.message)) && formData == old(formData) &&
                currentPage == old(currentPage) && showAddForm == old(showAddForm)
    {
      match outcome {
        case Created =>
          showAddForm := false;
          formData := EMPTY_FORM;
          errors := NO_ERRORS;
          currentPage := 1;
        case CreateFailed(message) =>
          errors := NO_ERRORS.(submit := Some(message));
      }
    }

    /** The add button opens the form as it was left. */
    method OpenForm()
      modifies this`showAddForm
      ensures showAddForm
    {
      showAddForm := true;
    }

    /** The close and cancel buttons: the form closes and is reset. */
    method CloseForm()
      modifies this`showAddForm, this`formData, this`errors
      ensures !showAddForm && formData == EMPTY_FORM && errors == NO_ERRORS
    {
      showAddForm, formData, errors := false, EMPTY_FORM, NO_ERRORS;
    }

    /** The delete request's success: `total` is the list's total before the delete, if the server gave one. */
    method HandleDeleteSucceeded(total: Option<int>)
      modifies this`currentPage
      ensures currentPage == PageAfterDelete(old(currentPage), total)
    {
      if total.Some? && total.value > 0 {
        var pages := Pagination.PageCount(total.value - 1, PAGE_SIZE);
        if currentPage > pages {
          currentPage := Pagination.Max(1, pages);
        }
      }
    }

    method HandlePageChange(newPage: int)
      modifies this`currentPage
      ensures currentPage == newPage
    {
      currentPage := newPage;
    }

    /** Previous moves back one page, never below page 1. */
    method HandlePreviousPage()
      modifies this`currentPage
      ensures old(currentPage) > 1 ==> currentPage == old(currentPage) - 1
      ensures old(currentPage) <= 1 ==> currentPage == old(currentPage)
      ensures old(currentPage) >= 1 ==> currentPage >= 1
    {
      if currentPage > 1 {
        currentPage := currentPage - 1;
      }
    }

    /** Next moves on one page, never past the server's page count (and not at all without one). */
    method HandleNextPage(totalPages: Option<int>)
      modifies this`currentPage
      ensures totalPages.Some? && old(currentPage) < totalPages.value ==> currentPage == old(currentPage) + 1
      ensures !(totalPages.Some? && old(currentPage) < totalPages.value) ==> currentPage == old(currentPage)
      ensures totalPages.Some? && old(currentPage) <= totalPages.value ==> currentPage <= totalPages.value
    {
      if totalPages.Some? && currentPage < totalPages.value {
        currentPage := currentPage + 1;
      }
    }

    /** Typing in the search box starts again from page 1. */
    method HandleSearchChange(term: string)
      modifies this`searchTerm, this`currentPage
      ensures searchTerm == term && currentPage == 1
    {
      searchTerm, currentPage := term, 1;
    }

    /** Submitting a non-blank search shows page 1 and the searching indicator. */
    method HandleSearchSubmit()
      modifies this`isSearching, this`currentPage
      ensures IsBlank(searchTerm) ==> isSearching == old(isSearching) && currentPage == old(currentPage)
      ensures !IsBlank(searchTerm) ==> isSearching && currentPage == 1
    {
      if !IsBlank(searchTerm) {
        isSearching, currentPage := true, 1;
      }
    }

    /** The 300 ms timer after a search submit ends. */
    method SearchDelayElapsed()
      modifies this`isSearching
      ensures !isSearching
    {
      isSearching := false;
    }
  }
}
