/** The contact page: four fields, per-field validation, and a submission that
    (as the page stands) only acknowledges the message and clears the form. */
module ContactPage {
  import opened Wrappers
  import opened JsText
  import opened Forms

  /** The keys of the page's error dictionary: the four inputs and `general`. */
  datatype Field = Name | Email | Subject | Message | General

  datatype ContactForm = ContactForm(name: string, email: string, subject: string, message: string)

  const EmptyForm := ContactForm("", "", "", "")

  /** `{ ...prev, [name]: value }` for one of the four inputs. */
  function WithValue(form: ContactForm, f: Field, value: string): (r: ContactForm)
    requires f != General
    ensures f == Name ==> r == form.(name := value)
    ensures f == Email ==> r == form.(email := value)
    ensures f == Subject ==> r == form.(subject := value)
    ensures f == Message ==> r == form.(message := value)
  {
    match f
    case Name => form.(name := value)
    case Email => form.(email := value)
    case Subject => form.(subject := value)
    case Message => form.(message := value)
  }

  const NameRequired := "Name is required"
  const EmailRequired := "Email is required"
  const EmailInvalid := "Please enter a valid email address"
  const SubjectRequired := "Subject is required"
  const MessageRequired := "Message is required"
  const MessageTooShort := "Message must be at least 10 characters"

  /** The message (if any) `validateForm` gives a key; it never sets `general`. */
  function FieldError(form: ContactForm, f: Field): Option<string> {
    match f
    case Name => RequiredError(form.name, NameRequired)
    case Email => EmailError(form.email, EmailRequired, EmailInvalid)
    case Subject => RequiredError(form.subject, SubjectRequired)
    case Message => TrimmedLengthError(form.message, 10, MessageRequired, MessageTooShort)
    case General => None
  }

  /** The order in which `validateForm` tests the fields. */
  const FieldOrder := [Name, Email, Subject, Message]

  function Check(form: ContactForm): Field -> Option<string> {
    f => FieldError(form, f)
  }

  /** The dictionary `validateForm` returns. */
  function ValidationErrors(form: ContactForm): map<Field, string> {
    ErrorsOver(Check(form), FieldOrder)
  }

  /** The dictionary has a key exactly for the failing fields, with that
      field's message, and never a `general` key. */
  lemma ValidationErrorsKeyed(form: ContactForm, f: Field)
    ensures f in ValidationErrors(form) <==> FieldError(form, f).Some?
    ensures f in ValidationErrors(form) ==> ValidationErrors(form)[f] == FieldError(form, f).value
    ensures General !in ValidationErrors(form)
  {
    ErrorsOverKeyed(Check(form), FieldOrder, f);
    ErrorsOverKeyed(Check(form), FieldOrder, General);
  }

  /** Every tested field passes. */
  predicate AllPass(form: ContactForm) {
    && FieldError(form, Name).None? && FieldError(form, Email).None?
    && FieldError(form, Subject).None? && FieldError(form, Message).None?
  }

  /** The form passes validation exactly when no field has a message. */
  lemma ValidationPasses(form: ContactForm)
    ensures ValidationErrors(form) == map[] <==> AllPass(form)
  {
    ErrorsOverFourEmpty(Check(form), Name, Email, Subject, Message);
  }

  /** Every field passes exactly when each field's own condition holds. */
  lemma FieldsPass(form: ContactForm)
    ensures AllPass(form) <==>
      && !IsBlank(form.name) && MatchesEmailPattern(form.email) && !IsBlank(form.subject)
      && |Trim(form.message)| >= 10
  {
  }

  /** The form passes validation exactly when name and subject are not blank,
      the address matches the pattern and the trimmed message has ten
      characters. */
  lemma ValidationAccepts(form: ContactForm)
    ensures ValidationErrors(form) == map[] <==>
      && !IsBlank(form.name) && MatchesEmailPattern(form.email) && !IsBlank(form.subject)
      && |Trim(form.message)| >= 10
  {
    ValidationPasses(form);
    FieldsPass(form);
  }

  class ContactPage {
    var formData: ContactForm
    var loading: bool
    var errors: map<Field, string>
    var submitted: bool

    constructor ()
      ensures formData == EmptyForm && !loading && errors == map[] && !submitted
    {
      formData := EmptyForm;
      loading := false;
      errors := map[];
      submitted := false;
    }

    /** `handleChange`: the input takes the value and loses its message; every
        other message stays. */
    method HandleChange(f: Field, value: string)
      requires f != General
      modifies this
      ensures formData == WithValue(old(formData), f, value)
      ensures errors == ClearError(old(errors), f)
      ensures loading == old(loading) && submitted == old(submitted)
    {
      formData := WithValue(formData, f, value);
      errors := ClearError(errors, f);
    }

    /** `validateForm`: name, e-mail, subject, then the message. */
    method ValidateForm() returns (newErrors: map<Field, string>)
      ensures newErrors == ValidationErrors(formData)
    {
      ghost var check := Check(formData);
      newErrors := map[];
      var name := FieldError(formData, Name);
      newErrors := AddError(newErrors, Name, name);
      ErrorsOverPrefix(check, FieldOrder, 0);
      var email := FieldError(formData, Email);
      newErrors := AddError(newErrors, Email, email);
      ErrorsOverPrefix(check, FieldOrder, 1);
      var subject := FieldError(formData, Subject);
      newErrors := AddError(newErrors, Subject, subject);
      ErrorsOverPrefix(check, FieldOrder, 2);
      var message := FieldError(formData, Message);
      newErrors := AddError(newErrors, Message, message);
      ErrorsOverPrefix(check, FieldOrder, 3);
      assert FieldOrder[..4] == FieldOrder;
    }

    /** `handleSubmit`: an invalid form shows its messages and is not sent; a
        valid one is acknowledged and every field is emptied. The value returned
        is the form as it was sent. */
    method HandleSubmit() returns (sentForm: Option<ContactForm>)
      modifies this
      ensures !loading
      ensures var v := ValidationErrors(old(formData));
        && (sentForm.Some? <==> v == map[])
        && (v != map[] ==> errors == v && submitted == old(submitted) && formData == old(formData))
        && (v == map[] ==> errors == map[] && submitted && formData == EmptyForm && sentForm.value == old(formData))
    {
      var validationErrors := ValidateForm();
      loading := true;
      errors := map[];
      if validationErrors != map[] {
        errors := validationErrors;
        loading := false;
        sentForm := None;
        return;
      }
      sentForm := Some(formData);
      submitted := true;
      formData := EmptyForm;
      loading := false;
    }

    /** "Send Another Message": the form is shown again. */
    method SendAnother()
      modifies this
      ensures !submitted
      ensures formData == old(formData) && errors == old(errors) && loading == old(loading)
    {
      submitted := false;
    }
  }
}
