/** The sign-in page: a username and a password, a light validation, and the
    call to `signIn` that only a valid form reaches. */
module SignInPage {
  import opened Wrappers
  import opened JsText
  import opened Forms
  import opened Api

  /** The keys of the page's error dictionary: the two inputs and `general`. */
  datatype Field = Username | Password | General

  datatype SignInForm = SignInForm(username: string, password: string)

  const EmptyForm := SignInForm("", "")

  /** `{ ...prev, [name]: value }` for one of the two inputs. */
  function WithValue(form: SignInForm, f: Field, value: string): (r: SignInForm)
    requires f != General
    ensures f == Username ==> r.username == value && r.password == form.password
    ensures f == Password ==> r.password == value && r.username == form.username
  {
    if f == Username then form.(username := value) else form.(password := value)
  }

  const UsernameRequired := "Please enter your username"
  const UsernameTooShort := "Username must be at least 3 characters"
  const PasswordRequired := "Password is required"
  const PasswordTooShort := "Password must be at least 3 characters"

  /** The username: required (a blank one is missing), then three characters
      counted on the text as typed, spaces included. */
  function UsernameError(s: string): (e: Option<string>)
    ensures e.None? <==> !IsBlank(s) && |s| >= 3
    ensures IsBlank(s) ==> e == Some(UsernameRequired)
    ensures !IsBlank(s) && |s| < 3 ==> e == Some(UsernameTooShort)
  {
    if IsBlank(s) then Some(UsernameRequired)
    else if |s| < 3 then Some(UsernameTooShort)
    else None
  }

  /** The password: required (only the empty one is missing), then three
      characters. */
  function PasswordError(p: string): (e: Option<string>)
    ensures e.None? <==> |p| >= 3
    ensures p == "" ==> e == Some(PasswordRequired)
    ensures p != "" && |p| < 3 ==> e == Some(PasswordTooShort)
  {
    if p == "" then Some(PasswordRequired)
    else if |p| < 3 then Some(PasswordTooShort)
    else None
  }

  /** The message (if any) `validateForm` gives a key; it never sets `general`. */
  function FieldError(form: SignInForm, f: Field): Option<string> {
    match f
    case Username => UsernameError(form.username)
    case Password => PasswordError(form.password)
    case General => None
  }

  /** The order in which `validateForm` tests the inputs. */
  const FieldOrder := [Username, Password]

  function Check(form: SignInForm): Field -> Option<string> {
    f => FieldError(form, f)
  }

  /** The dictionary `validateForm` returns. */
  function ValidationErrors(form: SignInForm): map<Field, string> {
    ErrorsOver(Check(form), FieldOrder)
  }

  /** The dictionary has a key exactly for the failing inputs, with that input's
      message, and never a `general` key. */
  lemma ValidationErrorsKeyed(form: SignInForm, f: Field)
    ensures f in ValidationErrors(form) <==> FieldError(form, f).Some?
    ensures f in ValidationErrors(form) ==> ValidationErrors(form)[f] == FieldError(form, f).value
    ensures General !in ValidationErrors(form)
  {
    ErrorsOverKeyed(Check(form), FieldOrder, f);
    ErrorsOverKeyed(Check(form), FieldOrder, General);
  }

  /** The form passes validation exactly when the username has a non-space
      character and three characters, and the password three characters. */
  lemma ValidationAccepts(form: SignInForm)
    ensures ValidationErrors(form) == map[] <==>
      !IsBlank(form.username) && |form.username| >= 3 && |form.password| >= 3
  {
    ErrorsOverEmpty(Check(form), FieldOrder);
    assert Check(form)(FieldOrder[0]) == UsernameError(form.username);
    assert Check(form)(FieldOrder[1]) == PasswordError(form.password);
  }

  /** The length test counts the surrounding spaces: a username of two letters
      passes once it is padded, while three spaces alone do not. */
  lemma PaddedUsername()
    ensures UsernameError(" ab").None?
    ensures UsernameError("   ") == Some(UsernameRequired)
  {
    BlankIffAllWhiteSpace(" ab");
    assert !IsWhiteSpace(" ab"[1]);
    BlankIffAllWhiteSpace("   ");
  }

  /** `response.first_name || response.username`. */
  function DisplayName(r: AuthResponse): (n: string)
    ensures n == r.firstName || n == r.username
    ensures n == "" ==> r.firstName == "" && r.username == ""
    ensures r.firstName != "" ==> n == r.firstName
  {
    if r.firstName != "" then r.firstName else r.username
  }

  const GreetingHead := "Welcome back, "
  const GreetingTail := "! You have been successfully signed in."

  /** Text of the success modal. */
  function Greeting(r: AuthResponse): string {
    GreetingHead + DisplayName(r) + GreetingTail
  }

  class SignInPage {
    var formData: SignInForm
    var loading: bool
    var errors: map<Field, string>
    var successModal: Modal
    var errorModal: Modal

    constructor ()
      ensures formData == EmptyForm && !loading && errors == map[]
      ensures successModal == Closed && errorModal == Closed
    {
      formData := EmptyForm;
      loading := false;
      errors := map[];
      successModal := Closed;
      errorModal := Closed;
    }

    /** `validateForm`: the username test, then the password test. */
    method ValidateForm() returns (newErrors: map<Field, string>)
      ensures newErrors == ValidationErrors(formData)
    {
      ghost var check := Check(formData);
      newErrors := map[];
      var username := FieldError(formData, Username);
      newErrors := AddError(newErrors, Username, username);
      ErrorsOverPrefix(check, FieldOrder, 0);
      var password := FieldError(formData, Password);
      newErrors := AddError(newErrors, Password, password);
      ErrorsOverPrefix(check, FieldOrder, 1);
      assert FieldOrder[..2] == FieldOrder;
    }

    /** `handleChange`: the input takes the value, and both its own message and
        the general one are blanked. */
    method HandleChange(f: Field, value: string)
      requires f != General
      modifies this
      ensures formData == WithValue(old(formData), f, value)
      ensures errors == ClearError(ClearError(old(errors), f), General)
      ensures !HasError(errors, f) && !HasError(errors, General)
      ensures loading == old(loading) && successModal == old(successModal) && errorModal == old(errorModal)
    {
      formData := WithValue(formData, f, value);
      errors := ClearError(errors, f);
      errors := ClearError(errors, General);
    }

    /** `handleSubmit`: an invalid form shows its messages and calls nothing; a
        valid one is sent as typed, and the outcome opens the greeting or the
        error modal. */
    method HandleSubmit(api: ApiService, exchange: Exchange<AuthResponse>)
      returns (submitted: Option<SignInRequest>, sent: Option<Request>)
      requires api.Valid()
      modifies this, api
      ensures api.Valid() && !loading && formData == old(formData)
      ensures var v := ValidationErrors(old(formData));
        && (submitted.Some? <==> v == map[])
        && (v != map[] ==> errors == v && api.token == old(api.token) && api.storage == old(api.storage)
                           && successModal == old(successModal) && errorModal == old(errorModal))
      ensures submitted.None? ==> sent == None
      ensures submitted.Some? ==>
        errors == map[] && submitted.value == SignInRequest(formData.username, formData.password)
      ensures submitted.Some? ==>
        sent == Some(Request(POST, api.baseURL + SignInPath, JsonHeaders(old(api.token)), SignInBody(submitted.value)))
      ensures submitted.Some? && Outcome(exchange).Ok? ==>
        && successModal == Modal(true, Greeting(Outcome(exchange).value))
        && errorModal == old(errorModal)
        && api.token == Some(Outcome(exchange).value.token)
        && api.storage == old(api.storage)[TokenKey := Outcome(exchange).value.token]
      ensures submitted.Some? && Outcome(exchange).Err? ==>
        && errorModal == Modal(true, Outcome(exchange).error)
        && successModal == old(successModal)
        && api.token == old(api.token) && api.storage == old(api.storage)
    {
      var validationErrors := ValidateForm();
      loading := true;
      errors := map[];
      if validationErrors != map[] {
        errors := validationErrors;
        loading := false;
        submitted, sent := None, None;
        return;
      }
      var credentials := SignInRequest(formData.username, formData.password);
      var request := SignIn(api, credentials, exchange);
      loading := false;
      submitted, sent := Some(credentials), Some(request);
    }

    /** The `try` block of `handleSubmit`: the credentials are posted, and the
        outcome opens the greeting or the error modal. */
    method SignIn(api: ApiService, credentials: SignInRequest, exchange: Exchange<AuthResponse>)
      returns (sent: Request)
      requires api.Valid()
      modifies this, api
      ensures api.Valid()
      ensures sent == Request(POST, api.baseURL + SignInPath, JsonHeaders(old(api.token)), SignInBody(credentials))
      ensures formData == old(formData) && errors == old(errors) && loading == old(loading)
      ensures Outcome(exchange).Ok? ==>
        && successModal == Modal(true, Greeting(Outcome(exchange).value))
        && errorModal == old(errorModal)
        && api.token == Some(Outcome(exchange).value.token)
        && api.storage == old(api.storage)[TokenKey := Outcome(exchange).value.token]
      ensures Outcome(exchange).Err? ==>
        && errorModal == Modal(true, Outcome(exchange).error)
        && successModal == old(successModal)
        && api.token == old(api.token) && api.storage == old(api.storage)
    {
      var result;
      sent, result := api.SignIn(credentials, exchange);
      if result.Ok? {
        successModal := Modal(true, Greeting(result.value));
      } else {
        errorModal := Modal(true, result.error);
      }
    }

    /** Closing the greeting leads to the dashboard. */
    method CloseSuccessModal() returns (path: string)
      modifies this
      ensures successModal == Closed && path == "/dashboard"
      ensures formData == old(formData) && errors == old(errors)
      ensures loading == old(loading) && errorModal == old(errorModal)
    {
      successModal := Closed;
      path := "/dashboard";
    }

    method CloseErrorModal()
      modifies this
      ensures errorModal == Closed
      ensures formData == old(formData) && errors == old(errors)
      ensures loading == old(loading) && successModal == old(successModal)
    {
      errorModal := Closed;
    }
  }
}
