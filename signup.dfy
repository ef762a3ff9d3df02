/** The sign-up page: six text fields, a password-strength meter, per-field
    validation, and the call to `signUp` that only a valid form reaches. */
module SignUpPage {
  import opened Wrappers
  import opened JsText
  import opened Forms
  import opened Api

  datatype Field = FirstName | LastName | Email | Username | Password | ConfirmPassword

  datatype SignUpForm = SignUpForm(
    firstName: string, lastName: string, email: string, username: string,
    password: string, confirmPassword: string)

  const EmptyForm := SignUpForm("", "", "", "", "", "")

  function Value(form: SignUpForm, f: Field): string {
    match f
    case FirstName => form.firstName
    case LastName => form.lastName
    case Email => form.email
    case Username => form.username
    case Password => form.password
    case ConfirmPassword => form.confirmPassword
  }

  /** `{ ...prev, [name]: value }`: the one field takes the new value. */
  function WithValue(form: SignUpForm, f: Field, value: string): (r: SignUpForm)
    ensures Value(r, f) == value
    ensures forall g :: g != f ==> Value(r, g) == Value(form, g)
  {
    match f
    case FirstName => form.(firstName := value)
    case LastName => form.(lastName := value)
    case Email => form.(email := value)
    case Username => form.(username := value)
    case Password => form.(password := value)
    case ConfirmPassword => form.(confirmPassword := value)
  }

  // --------------------------------------------------------- password strength

  predicate IsLowerAscii(c: char) { 'a' <= c <= 'z' }
  predicate IsUpperAscii(c: char) { 'A' <= c <= 'Z' }
  predicate IsDigitAscii(c: char) { '0' <= c <= '9' }

  /** `/[a-z]/.test(p)` and its three siblings. */
  predicate HasLower(p: string) { exists i | 0 <= i < |p| :: IsLowerAscii(p[i]) }
  predicate HasUpper(p: string) { exists i | 0 <= i < |p| :: IsUpperAscii(p[i]) }
  predicate HasDigit(p: string) { exists i | 0 <= i < |p| :: IsDigitAscii(p[i]) }
  /** `/[^A-Za-z0-9]/.test(p)`. */
  predicate HasSymbol(p: string) {
    exists i | 0 <= i < |p| :: !IsLowerAscii(p[i]) && !IsUpperAscii(p[i]) && !IsDigitAscii(p[i])
  }

  function Count(b: bool): nat { if b then 1 else 0 }

  /** How many of the four character classes the password uses. */
  function ClassesUsed(p: string): nat {
    Count(HasLower(p)) + Count(HasUpper(p)) + Count(HasDigit(p)) + Count(HasSymbol(p))
  }

  /** The strength score: 25 for each of the five conditions (length at least 8
      and the four classes), capped at 100. */
  function Strength(p: string): (s: int)
    ensures s == 0 || s == 25 || s == 50 || s == 75 || s == 100
    ensures s == if Count(|p| >= 8) + ClassesUsed(p) < 4 then 25 * (Count(|p| >= 8) + ClassesUsed(p)) else 100
  {
    var raw := 25 * (Count(|p| >= 8) + ClassesUsed(p));
    if raw < 100 then raw else 100
  }

  /** `calculatePasswordStrength`: adds 25 per satisfied condition, then caps. */
  method PasswordStrength(password: string) returns (strength: int)
    ensures strength == Strength(password)
  {
    strength := 0;
    if |password| >= 8 {
      strength := strength + 25;
    }
    if HasLower(password) {
      strength := strength + 25;
    }
    if HasUpper(password) {
      strength := strength + 25;
    }
    if HasDigit(password) {
      strength := strength + 25;
    }
    if HasSymbol(password) {
      strength := strength + 25;
    }
    strength := if strength < 100 then strength else 100;
  }

  /** A password of eight or more characters reaches 75 exactly when it uses at
      least two character classes. */
  lemma StrongIffTwoClasses(p: string)
    requires |p| >= 8
    ensures Strength(p) >= 75 <==> ClassesUsed(p) >= 2
  {
  }

  /** Eight lower-case letters score 50 and are refused as too weak. */
  lemma EightLowercaseIsTooWeak()
    ensures Strength("abcdefgh") == 50
    ensures PasswordError("abcdefgh", Strength("abcdefgh")) == Some(PasswordTooWeak)
  {
    var p := "abcdefgh";
    assert IsLowerAscii(p[0]);
    assert forall i | 0 <= i < |p| :: IsLowerAscii(p[i]);
  }

  /** `getPasswordStrengthText`. */
  function StrengthText(strength: int): (t: string)
    ensures t == "Weak" <==> strength < 25
    ensures t == "Fair" <==> 25 <= strength < 50
    ensures t == "Good" <==> 50 <= strength < 75
    ensures t == "Strong" <==> strength >= 75
  {
    if strength < 25 then "Weak"
    else if strength < 50 then "Fair"
    else if strength < 75 then "Good"
    else "Strong"
  }

  /** `getPasswordStrengthColor`: the same four bands. */
  function StrengthColor(strength: int): (c: string)
    ensures c == "bg-accent-red" <==> StrengthText(strength) == "Weak"
    ensures c == "bg-yellow-500" <==> StrengthText(strength) == "Fair"
    ensures c == "bg-blue-500" <==> StrengthText(strength) == "Good"
    ensures c == "bg-green-500" <==> StrengthText(strength) == "Strong"
  {
    if strength < 25 then "bg-accent-red"
    else if strength < 50 then "bg-yellow-500"
    else if strength < 75 then "bg-blue-500"
    else "bg-green-500"
  }

  // ---------------------------------------------------------------- messages

  const FirstNameRequired := "First name is required"
  const FirstNameTooShort := "First name must be at least 2 characters"
  const LastNameRequired := "Last name is required"
  const LastNameTooShort := "Last name must be at least 2 characters"
  const EmailRequired := "Email address is required"
  const EmailInvalid := "Please enter a valid email address"
  const UsernameRequired := "Username is required"
  const UsernameTooShort := "Username must be at least 3 characters"
  const UsernameCharacters := "Only letters, numbers and underscores allowed"
  const PasswordRequired := "Password is required"
  const PasswordTooShort := "Password must be at least 8 characters"
  const PasswordTooWeak := "Please choose a stronger password"
  const ConfirmRequired := "Please confirm your password"
  const PasswordsDiffer := "Passwords do not match"

  // ------------------------------------------------------------ field checks

  /** A character of `[a-zA-Z0-9_]`. */
  predicate IsWordChar(c: char) {
    IsLowerAscii(c) || IsUpperAscii(c) || IsDigitAscii(c) || c == '_'
  }

  predicate AllWordChars(s: string) {
    forall i :: 0 <= i < |s| ==> IsWordChar(s[i])
  }

  lemma WordCharsNotBlank(s: string)
    ensures AllWordChars(s) && s != [] ==> !IsBlank(s)
  {
    BlankIffAllWhiteSpace(s);
    if AllWordChars(s) && s != [] {
      assert !IsWhiteSpace(s[0]);
    }
  }

  /** The username: required, then three characters (untrimmed), then only
      letters, digits and underscores. A username of word characters is never
      blank, so the first test is subsumed. */
  function UsernameError(s: string): (e: Option<string>)
    ensures e.None? <==> |s| >= 3 && AllWordChars(s)
    ensures IsBlank(s) ==> e == Some(UsernameRequired)
    ensures !IsBlank(s) && |s| < 3 ==> e == Some(UsernameTooShort)
    ensures |s| >= 3 && !AllWordChars(s) && !IsBlank(s) ==> e == Some(UsernameCharacters)
  {
    WordCharsNotBlank(s);
    if IsBlank(s) then Some(UsernameRequired)
    else if |s| < 3 then Some(UsernameTooShort)
    else if !AllWordChars(s) then Some(UsernameCharacters)
    else None
  }

  /** The password: required, then eight characters, then a strength of 75. */
  function PasswordError(p: string, strength: int): (e: Option<string>)
    ensures e.None? <==> |p| >= 8 && strength >= 75
    ensures p == "" ==> e == Some(PasswordRequired)
    ensures p != "" && |p| < 8 ==> e == Some(PasswordTooShort)
    ensures |p| >= 8 && strength < 75 ==> e == Some(PasswordTooWeak)
  {
    if p == "" then Some(PasswordRequired)
    else if |p| < 8 then Some(PasswordTooShort)
    else if strength < 75 then Some(PasswordTooWeak)
    else None
  }

  /** The confirmation: required, then equal to the password. */
  function ConfirmError(p: string, c: string): (e: Option<string>)
    ensures e.None? <==> c != "" && c == p
    ensures c == "" ==> e == Some(ConfirmRequired)
    ensures c != "" && c != p ==> e == Some(PasswordsDiffer)
  {
    if c == "" then Some(ConfirmRequired)
    else if p != c then Some(PasswordsDiffer)
    else None
  }

  /** The one message (if any) `validateForm` gives a field. */
  function FieldError(form: SignUpForm, strength: int, f: Field): Option<string> {
    match f
    case FirstName => TrimmedLengthError(form.firstName, 2, FirstNameRequired, FirstNameTooShort)
    case LastName => TrimmedLengthError(form.lastName, 2, LastNameRequired, LastNameTooShort)
    case Email => EmailError(form.email, EmailRequired, EmailInvalid)
    case Username => UsernameError(form.username)
    case Password => PasswordError(form.password, strength)
    case ConfirmPassword => ConfirmError(form.password, form.confirmPassword)
  }

  /** The order in which `validateForm` tests the fields. */
  const FieldOrder := [FirstName, LastName, Email, Username, Password, ConfirmPassword]

  /** The dictionary `validateForm` returns. */
  function ValidationErrors(form: SignUpForm, strength: int): map<Field, string> {
    ErrorsOver(Check(form, strength), FieldOrder)
  }

  function Check(form: SignUpForm, strength: int): Field -> Option<string> {
    f => FieldError(form, strength, f)
  }

  /** The dictionary has a key exactly for the failing fields, holding that
      field's one message. */
  lemma ValidationErrorsKeyed(form: SignUpForm, strength: int, f: Field)
    ensures f in ValidationErrors(form, strength) <==> FieldError(form, strength, f).Some?
    ensures f in ValidationErrors(form, strength) ==>
      ValidationErrors(form, strength)[f] == FieldError(form, strength, f).value
  {
    ErrorsOverKeyed(Check(form, strength), FieldOrder, f);
  }

  /** What the sign-up form accepts, in words. */
  predicate Acceptable(form: SignUpForm) {
    && |Trim(form.firstName)| >= 2 && |Trim(form.lastName)| >= 2
    && MatchesEmailPattern(form.email)
    && |form.username| >= 3 && AllWordChars(form.username)
    && |form.password| >= 8 && ClassesUsed(form.password) >= 2
    && form.confirmPassword == form.password
  }

  /** The form passes validation exactly when no field has a message. */
  lemma ValidationPasses(form: SignUpForm, strength: int)
    ensures ValidationErrors(form, strength) == map[] <==> forall f :: FieldError(form, strength, f).None?
  {
    var check := Check(form, strength);
    ErrorsOverEmpty(check, FieldOrder);
    forall f ensures f in FieldOrder && check(f) == FieldError(form, strength, f) {
      match f
      case FirstName => assert FieldOrder[0] == f;
      case LastName => assert FieldOrder[1] == f;
      case Email => assert FieldOrder[2] == f;
      case Username => assert FieldOrder[3] == f;
      case Password => assert FieldOrder[4] == f;
      case ConfirmPassword => assert FieldOrder[5] == f;
    }
  }

  /** With the meter in step with the password, the form passes validation
      exactly when it is acceptable. */
  lemma ValidationAccepts(form: SignUpForm)
    ensures ValidationErrors(form, Strength(form.password)) == map[] <==> Acceptable(form)
  {
    var strength := Strength(form.password);
    ValidationPasses(form, strength);
    FieldsPass(form, strength);
    if |form.password| >= 8 {
      StrongIffTwoClasses(form.password);
    }
  }

  /** Every field passes exactly when each field's own condition holds. */
  lemma FieldsPass(form: SignUpForm, strength: int)
    ensures (forall f :: FieldError(form, strength, f).None?) <==>
      && |Trim(form.firstName)| >= 2 && |Trim(form.lastName)| >= 2
      && MatchesEmailPattern(form.email)
      && |form.username| >= 3 && AllWordChars(form.username)
      && |form.password| >= 8 && strength >= 75
      && form.confirmPassword == form.password
  {
    if forall f :: FieldError(form, strength, f).None? {
      assert FieldError(form, strength, FirstName).None? && FieldError(form, strength, LastName).None?;
      assert FieldError(form, strength, Email).None? && FieldError(form, strength, Username).None?;
      assert FieldError(form, strength, Password).None? && FieldError(form, strength, ConfirmPassword).None?;
    }
  }

  /** Welcome text of the success modal. */
  function WelcomeMessage(firstName: string): string {
    WelcomeHead + firstName + WelcomeTail
  }

  const WelcomeHead := "Welcome to AsphaltAid, "
  const WelcomeTail := "! Your account has been created successfully. You can now start reporting road issues."

  class SignUpPage {
    var formData: SignUpForm
    var loading: bool
    var errors: map<Field, string>
    var passwordStrength: int
    var successModal: Modal
    var errorModal: Modal

    /** The meter always shows the strength of the password as typed. */
    predicate Valid()
      reads this
    {
      passwordStrength == Strength(formData.password)
    }

    constructor ()
      ensures Valid()
      ensures formData == EmptyForm && !loading && errors == map[] && passwordStrength == 0
      ensures successModal == Closed && errorModal == Closed
    {
      formData := EmptyForm;
      loading := false;
      errors := map[];
      passwordStrength := 0;
      successModal := Closed;
      errorModal := Closed;
    }

    /** `validateForm`: one test per field, each adding at most one message. */
    method ValidateForm() returns (newErrors: map<Field, string>)
      ensures newErrors == ValidationErrors(formData, passwordStrength)
    {
      ghost var check := Check(formData, passwordStrength);
      newErrors := map[];
      var firstName := FieldError(formData, passwordStrength, FirstName);
      newErrors := AddError(newErrors, FirstName, firstName);
      ErrorsOverPrefix(check, FieldOrder, 0);
      var lastName := FieldError(formData, passwordStrength, LastName);
      newErrors := AddError(newErrors, LastName, lastName);
      ErrorsOverPrefix(check, FieldOrder, 1);
      var email := FieldError(formData, passwordStrength, Email);
      newErrors := AddError(newErrors, Email, email);
      ErrorsOverPrefix(check, FieldOrder, 2);
      var username := FieldError(formData, passwordStrength, Username);
      newErrors := AddError(newErrors, Username, username);
      ErrorsOverPrefix(check, FieldOrder, 3);
      var password := FieldError(formData, passwordStrength, Password);
      newErrors := AddError(newErrors, Password, password);
      ErrorsOverPrefix(check, FieldOrder, 4);
      var confirm := FieldError(formData, passwordStrength, ConfirmPassword);
      newErrors := AddError(newErrors, ConfirmPassword, confirm);
      ErrorsOverPrefix(check, FieldOrder, 5);
      assert FieldOrder[..6] == FieldOrder;
    }

    /** `handleChange`: the field takes the value and loses its message; a new
        password is scored; a new confirmation is checked against the password
        at once. */
    method HandleChange(f: Field, value: string)
      requires Valid()
      modifies this
      ensures Valid()
      ensures formData == WithValue(old(formData), f, value)
      ensures f != ConfirmPassword ==> errors == ClearError(old(errors), f)
      ensures f == ConfirmPassword ==>
        errors == old(errors)[ConfirmPassword := if old(formData).password != value then PasswordsDiffer else ""]
      ensures f == ConfirmPassword ==> (HasError(errors, ConfirmPassword) <==> value != formData.password)
      ensures loading == old(loading) && successModal == old(successModal) && errorModal == old(errorModal)
    {
      var password := formData.password;
      formData := WithValue(formData, f, value);
      errors := ClearError(errors, f);
      if f == Password {
        passwordStrength := PasswordStrength(value);
      }
      if f == ConfirmPassword && password != value {
        errors := errors[ConfirmPassword := PasswordsDiffer];
      } else if f == ConfirmPassword && password == value {
        errors := errors[ConfirmPassword := ""];
      }
    }

    /** `handleSubmit`: an invalid form shows its messages and calls nothing; a
        valid one is sent as typed, and the outcome opens the success or the
        error modal. */
    method HandleSubmit(api: ApiService, exchange: Exchange<AuthResponse>)
      returns (submitted: Option<SignUpRequest>, sent: Option<Request>)
      requires Valid() && api.Valid()
      modifies this, api
      ensures Valid() && api.Valid() && !loading && formData == old(formData)
      ensures var v := ValidationErrors(old(formData), old(passwordStrength));
        && (submitted.Some? <==> v == map[])
        && (v != map[] ==> errors == v && api.token == old(api.token) && api.storage == old(api.storage)
                           && successModal == old(successModal) && errorModal == old(errorModal))
      ensures submitted.None? ==> sent == None
      ensures submitted.Some? ==>
        sent == Some(Request(POST, api.baseURL + SignUpPath, JsonHeaders(old(api.token)), SignUpBody(submitted.value)))
      ensures submitted.Some? ==> errors == map[] && submitted.value == SignUpRequest(
        formData.username, formData.email, formData.password, formData.confirmPassword,
        formData.firstName, formData.lastName)
      ensures submitted.Some? && Outcome(exchange).Ok? ==>
        && successModal == Modal(true, WelcomeMessage(Outcome(exchange).value.firstName))
        && errorModal == old(errorModal)
        && api.token == Some(Outcome(exchange).value.token)
        && api.storage == old(api.storage)[TokenKey := Outcome(exchange).value.token]
      ensures submitted.Some? && Outcome(exchange).Err? ==>
        && errorModal == Modal(true, Outcome(exchange).error)
        && successModal == old(successModal)
        && api.token == old(api.token) && api.storage == old(api.storage)
    {
      var validationErrors := ValidateForm();
      loading := true;
      errors := map[];
      if validationErrors != map[] {
        errors := validationErrors;
        loading := false;
        submitted, sent := None, None;
        return;
      }
      var userData := SignUpRequest(
        formData.username, formData.email, formData.password, formData.confirmPassword,
        formData.firstName, formData.lastName);
      var request := SignUp(api, userData, exchange);
      loading := false;
      submitted, sent := Some(userData), Some(request);
    }

    /** The `try` block of `handleSubmit`: the user data is posted, and the
        outcome opens the welcome or the error modal. */
    method SignUp(api: ApiService, userData: SignUpRequest, exchange: Exchange<AuthResponse>)
      returns (sent: Request)
      requires Valid() && api.Valid()
      modifies this, api
      ensures Valid() && api.Valid()
      ensures sent == Request(POST, api.baseURL + SignUpPath, JsonHeaders(old(api.token)), SignUpBody(userData))
      ensures formData == old(formData) && errors == old(errors) && loading == old(loading)
      ensures passwordStrength == old(passwordStrength)
      ensures Outcome(exchange).Ok? ==>
        && successModal == Modal(true, WelcomeMessage(Outcome(exchange).value.firstName))
        && errorModal == old(errorModal)
        && api.token == Some(Outcome(exchange).value.token)
        && api.storage == old(api.storage)[TokenKey := Outcome(exchange).value.token]
      ensures Outcome(exchange).Err? ==>
        && errorModal == Modal(true, Outcome(exchange).error)
        && successModal == old(successModal)
        && api.token == old(api.token) && api.storage == old(api.storage)
    {
      var result;
      sent, result := api.SignUp(userData, exchange);
      if result.Ok? {
        successModal := Modal(true, WelcomeMessage(result.value.firstName));
      } else {
        errorModal := Modal(true, result.error);
      }
    }

    /** Closing the success modal leads to the dashboard. */
    method CloseSuccessModal() returns (path: string)
      modifies this
      ensures successModal == Closed && path == "/dashboard"
      ensures formData == old(formData) && errors == old(errors) && passwordStrength == old(passwordStrength)
      ensures loading == old(loading) && errorModal == old(errorModal)
    {
      successModal := Closed;
      path := "/dashboard";
    }

    method CloseErrorModal()
      modifies this
      ensures errorModal == Closed
      ensures formData == old(formData) && errors == old(errors) && passwordStrength == old(passwordStrength)
      ensures loading == old(loading) && successModal == old(successModal)
    {
      errorModal := Closed;
    }
  }
}
