/** The report-creation page: four text fields, an optional image checked for
    type and size, per-field validation, and the multipart `createReport` call
    that only a valid form reaches. */
module CreateReportPage {
  import opened Wrappers
  import opened JsText
  import opened Forms
  import opened Api

  /** The keys of the page's error dictionary: the four inputs and the image. */
  datatype Field = Name | Description | Address | ReportType | Image

  datatype ReportForm = ReportForm(name: string, description: string, address: string, reportType: string)

  /** The type the select starts on. */
  const DefaultType := "pothole"

  const EmptyForm := ReportForm("", "", "", DefaultType)

  /** `{ ...prev, [name]: value }` for one of the four inputs. */
  function WithValue(form: ReportForm, f: Field, value: string): (r: ReportForm)
    requires f != Image
    ensures f == Name ==> r == form.(name := value)
    ensures f == Description ==> r == form.(description := value)
    ensures f == Address ==> r == form.(address := value)
    ensures f == ReportType ==> r == form.(reportType := value)
  {
    match f
    case Name => form.(name := value)
    case Description => form.(description := value)
    case Address => form.(address := value)
    case ReportType => form.(reportType := value)
  }

  const NameRequired := "Report name is required"
  const NameTooShort := "Report name must be at least 3 characters"
  const DescriptionRequired := "Description is required"
  const DescriptionTooShort := "Description must be at least 10 characters"
  const AddressRequired := "Address is required"
  const AddressTooShort := "Please provide a more detailed address"
  const TypeRequired := "Please select a report type"

  /** The report type: any non-empty value passes. */
  function TypeError(t: string): (e: Option<string>)
    ensures e.None? <==> t != ""
    ensures e.Some? ==> e.value == TypeRequired
  {
    if t == "" then Some(TypeRequired) else None
  }

  /** The message (if any) `validateForm` gives a key; the image is not one of
      the fields it tests. */
  function FieldError(form: ReportForm, f: Field): Option<string> {
    match f
    case Name => TrimmedLengthError(form.name, 3, NameRequired, NameTooShort)
    case Description => TrimmedLengthError(form.description, 10, DescriptionRequired, DescriptionTooShort)
    case Address => TrimmedLengthError(form.address, 5, AddressRequired, AddressTooShort)
    case ReportType => TypeError(form.reportType)
    case Image => None
  }

  /** The order in which `validateForm` tests the fields. */
  const FieldOrder := [Name, Description, Address, ReportType]

  function Check(form: ReportForm): Field -> Option<string> {
    f => FieldError(form, f)
  }

  /** The dictionary `validateForm` returns. */
  function ValidationErrors(form: ReportForm): map<Field, string> {
    ErrorsOver(Check(form), FieldOrder)
  }

  /** The dictionary has a key exactly for the failing fields, with that
      field's message, and never an `image` key. */
  lemma ValidationErrorsKeyed(form: ReportForm, f: Field)
    ensures f in ValidationErrors(form) <==> FieldError(form, f).Some?
    ensures f in ValidationErrors(form) ==> ValidationErrors(form)[f] == FieldError(form, f).value
    ensures Image !in ValidationErrors(form)
  {
    ErrorsOverKeyed(Check(form), FieldOrder, f);
    ErrorsOverKeyed(Check(form), FieldOrder, Image);
  }

  /** The form passes validation exactly when the trimmed name, description and
      address reach 3, 10 and 5 characters and a type is selected. */
  lemma ValidationAccepts(form: ReportForm)
    ensures ValidationErrors(form) == map[] <==>
      && |Trim(form.name)| >= 3 && |Trim(form.description)| >= 10 && |Trim(form.address)| >= 5
      && form.reportType != ""
  {
    ErrorsOverFourEmpty(Check(form), Name, Description, Address, ReportType);
  }

  /** The largest image accepted: 10 MB. */
  const MaxImageSize := 10 * 1024 * 1024
  const ImageMimePrefix := "image/"
  const ImageTypeInvalid := "Please select a valid image file"
  const ImageTooLarge := "Image size must be less than 10MB"

  /** The checks of `handleImageChange`: the MIME type first, then the size. */
  function ImageError(file: File): (e: Option<string>)
    ensures e.None? <==> StartsWith(file.mimeType, ImageMimePrefix) && file.size <= MaxImageSize
    ensures !StartsWith(file.mimeType, ImageMimePrefix) ==> e == Some(ImageTypeInvalid)
    ensures StartsWith(file.mimeType, ImageMimePrefix) && file.size > MaxImageSize ==> e == Some(ImageTooLarge)
  {
    if !StartsWith(file.mimeType, ImageMimePrefix) then Some(ImageTypeInvalid)
    else if file.size > MaxImageSize then Some(ImageTooLarge)
    else None
  }

  /** The success modal also remembers the id of the created report. */
  datatype SuccessModal = SuccessModal(isOpen: bool, message: string, reportId: Option<int>)

  const SuccessClosed := SuccessModal(false, "", None)

  const SubmittedHead := "Your report \""
  const SubmittedTail := "\" has been successfully submitted! We'll review it and take appropriate action."

  /** Text of the success modal for the report the backend returned. */
  function SubmittedMessage(name: string): string {
    SubmittedHead + name + SubmittedTail
  }

  const ReportsRoute := "/reports"

  /** `handleSuccessModalClose`: a truthy id (present and not 0) leads to that
      report's page, anything else to the list. */
  function CloseTarget(reportId: Option<int>): (path: string)
    ensures StartsWith(path, ReportsRoute)
    ensures path == ReportsRoute <==> reportId.None? || reportId.value == 0
    ensures path != ReportsRoute ==> path == ReportsRoute + "/" + IntToString(reportId.value)
  {
    if reportId.Some? && reportId.value != 0 then
      var p := ReportsRoute + "/" + IntToString(reportId.value);
      assert p[..|ReportsRoute|] == ReportsRoute;
      p
    else ReportsRoute
  }

  /** Two created reports with truthy ids lead to two different pages. */
  lemma CloseTargetDistinguishes(a: int, b: int)
    requires a != 0 && b != 0
    ensures CloseTarget(Some(a)) == CloseTarget(Some(b)) ==> a == b
  {
    var prefix := ReportsRoute + "/";
    if CloseTarget(Some(a)) == CloseTarget(Some(b)) {
      assert IntToString(a) == CloseTarget(Some(a))[|prefix|..];
      assert IntToString(b) == CloseTarget(Some(b))[|prefix|..];
      IntToStringInjective(a, b);
    }
  }

  const SignInRoute := "/auth/signin"

  class CreateReportPage {
    var formData: ReportForm
    var imageFile: Option<File>
    var imagePreview: Option<string>
    var loading: bool
    var errors: map<Field, string>
    var successModal: SuccessModal
    var errorModal: Modal

    /** The selected image, if any, passed the type and size checks: only
        `handleImageChange` sets it, and only after both. */
    predicate Valid()
      reads this
    {
      imageFile.Some? ==> ImageError(imageFile.value).None?
    }

    constructor ()
      ensures Valid()
      ensures formData == EmptyForm && imageFile == None && imagePreview == None
      ensures !loading && errors == map[] && successModal == SuccessClosed && errorModal == Closed
    {
      formData := EmptyForm;
      imageFile := None;
      imagePreview := None;
      loading := false;
      errors := map[];
      successModal := SuccessClosed;
      errorModal := Closed;
    }

    /** The mount effect: an unauthenticated visitor is sent to sign in. */
    method Mount(api: ApiService) returns (redirect: Option<string>)
      ensures redirect.Some? <==> !api.IsAuthenticated()
      ensures redirect.Some? ==> redirect.value == SignInRoute
    {
      redirect := None;
      if !api.IsAuthenticated() {
        redirect := Some(SignInRoute);
      }
    }

    /** `handleChange`: the input takes the value and loses its message; every
        other message stays. */
    method HandleChange(f: Field, value: string)
      requires f != Image
      requires Valid()
      modifies this
      ensures Valid()
      ensures formData == WithValue(old(formData), f, value)
      ensures errors == ClearError(old(errors), f)
      ensures imageFile == old(imageFile) && imagePreview == old(imagePreview) && loading == old(loading)
      ensures successModal == old(successModal) && errorModal == old(errorModal)
    {
      formData := WithValue(formData, f, value);
      errors := ClearError(errors, f);
    }

    /** `handleImageChange` for the chosen file, if any: a file of another type
        or above 10 MB only sets the image message and keeps the image already
        selected; an acceptable file becomes the image and clears the message.
        The preview is read asynchronously and is not modelled. */
    method HandleImageChange(file: Option<File>)
      requires Valid()
      modifies this
      ensures Valid()
      ensures file.None? ==> imageFile == old(imageFile) && errors == old(errors)
      ensures file.Some? && ImageError(file.value).Some? ==>
        imageFile == old(imageFile) && errors == old(errors)[Image := ImageError(file.value).value]
      ensures file.Some? && ImageError(file.value).None? ==>
        imageFile == file && errors == old(errors)[Image := ""]
      ensures formData == old(formData) && imagePreview == old(imagePreview) && loading == old(loading)
      ensures successModal == old(successModal) && errorModal == old(errorModal)
    {
      if file.Some? {
        var f := file.value;
        if !StartsWith(f.mimeType, ImageMimePrefix) {
          errors := errors[Image := ImageTypeInvalid];
          return;
        }
        if f.size > MaxImageSize {
          errors := errors[Image := ImageTooLarge];
          return;
        }
        imageFile := file;
        errors := errors[Image := ""];
      }
    }

    /** `removeImage`: no file, no preview, no image message. */
    method RemoveImage()
      requires Valid()
      modifies this
      ensures Valid()
      ensures imageFile == None && imagePreview == None
      ensures errors == old(errors)[Image := ""] && !HasError(errors, Image)
      ensures formData == old(formData) && loading == old(loading)
      ensures successModal == old(successModal) && errorModal == old(errorModal)
    {
      imageFile := None;
      imagePreview := None;
      errors := errors[Image := ""];
    }

    /** `validateForm`: name, description, address, then the type. */
    method ValidateForm() returns (newErrors: map<Field, string>)
      ensures newErrors == ValidationErrors(formData)
    {
      ghost var check := Check(formData);
      newErrors := map[];
      var name := FieldError(formData, Name);
      newErrors := AddError(newErrors, Name, name);
      ErrorsOverPrefix(check, FieldOrder, 0);
      var description := FieldError(formData, Description);
      newErrors := AddError(newErrors, Description, description);
      ErrorsOverPrefix(check, FieldOrder, 1);
      var address := FieldError(formData, Address);
      newErrors := AddError(newErrors, Address, address);
      ErrorsOverPrefix(check, FieldOrder, 2);
      var reportType := FieldError(formData, ReportType);
      newErrors := AddError(newErrors, ReportType, reportType);
      ErrorsOverPrefix(check, FieldOrder, 3);
      assert FieldOrder[..4] == FieldOrder;
    }

    /** The `reportData` of `handleSubmit`: the three texts trimmed, the type as
        selected, and the image only when one is selected. */
    method ReportData() returns (reportData: CreateReportRequest)
      ensures reportData.name == Trim(formData.name)
      ensures reportData.description == Trim(formData.description)
      ensures reportData.address == Trim(formData.address)
      ensures reportData.reportType == formData.reportType
      ensures reportData.image == imageFile
    {
      reportData := CreateReportRequest(
        Trim(formData.name), Trim(formData.description), Trim(formData.address), formData.reportType, None);
      if imageFile.Some? {
        reportData := reportData.(image := imageFile);
      }
    }

    /** `handleSubmit`: an invalid form shows its messages and calls nothing; a
        valid one is posted with the trimmed texts, and the outcome opens the
        success modal (with the new report's id) or the error modal. */
    method HandleSubmit(api: ApiService, exchange: Exchange<ReportDetailResponse>)
      returns (submitted: Option<CreateReportRequest>, sent: Option<Request>)
      requires Valid()
      modifies this
      ensures Valid()
      ensures !loading && formData == old(formData) && imageFile == old(imageFile) && imagePreview == old(imagePreview)
      ensures var v := ValidationErrors(old(formData));
        && (submitted.Some? <==> v == map[])
        && (v != map[] ==> errors == v && sent == None
                           && successModal == old(successModal) && errorModal == old(errorModal))
      ensures submitted.Some? ==> errors == map[] && sent.Some? && sent.value.body == Multipart(ReportParts(submitted.value))
      ensures submitted.Some? ==> sent.Some? && sent.value.verb == POST && sent.value.url == api.baseURL + ReportsPath
      ensures submitted.Some? ==>
        && sent.Some? && ContentType !in sent.value.headers
        && sent.value.headers.Keys <= {Authorization}
        && (Authorization in sent.value.headers <==> api.IsAuthenticated())
        && (api.IsAuthenticated() ==> sent.value.headers[Authorization] == AuthorizationValue(api.token.value))
      ensures submitted.Some? && submitted.value.image.Some? ==> ImageError(submitted.value.image.value).None?
      ensures submitted.Some? ==> submitted.value == CreateReportRequest(
        Trim(formData.name), Trim(formData.description), Trim(formData.address), formData.reportType, imageFile)
      ensures submitted.Some? && Outcome(exchange).Ok? ==>
        && successModal == SuccessModal(true, SubmittedMessage(Outcome(exchange).value.report.name),
                                        Some(Outcome(exchange).value.report.id))
        && errorModal == old(errorModal)
      ensures submitted.Some? && Outcome(exchange).Err? ==>
        errorModal == Modal(true, Outcome(exchange).error) && successModal == old(successModal)
    {
      var validationErrors := ValidateForm();
      loading := true;
      errors := map[];
      if validationErrors != map[] {
        errors := validationErrors;
        loading := false;
        submitted, sent := None, None;
        return;
      }
      var reportData := ReportData();
      var request := Submit(api, reportData, exchange);
      loading := false;
      submitted, sent := Some(reportData), Some(request);
    }

    /** The `try` block of `handleSubmit`: the report is posted and the outcome
        opens one of the two modals. */
    method Submit(api: ApiService, reportData: CreateReportRequest, exchange: Exchange<ReportDetailResponse>)
      returns (sent: Request)
      requires Valid()
      modifies this
      ensures Valid()
      ensures sent.verb == POST && sent.url == api.baseURL + ReportsPath
      ensures sent.body == Multipart(ReportParts(reportData))
      ensures ContentType !in sent.headers && sent.headers.Keys <= {Authorization}
      ensures Authorization in sent.headers <==> api.IsAuthenticated()
      ensures api.IsAuthenticated() ==> sent.headers[Authorization] == AuthorizationValue(api.token.value)
      ensures formData == old(formData) && imageFile == old(imageFile) && imagePreview == old(imagePreview)
      ensures errors == old(errors) && loading == old(loading)
      ensures Outcome(exchange).Ok? ==>
        && successModal == SuccessModal(true, SubmittedMessage(Outcome(exchange).value.report.name),
                                        Some(Outcome(exchange).value.report.id))
        && errorModal == old(errorModal)
      ensures Outcome(exchange).Err? ==>
        errorModal == Modal(true, Outcome(exchange).error) && successModal == old(successModal)
    {
      var result;
      sent, result := api.CreateReport(reportData, exchange);
      if result.Ok? {
        successModal := SuccessModal(true, SubmittedMessage(result.value.report.name), Some(result.value.report.id));
      } else {
        errorModal := Modal(true, result.error);
      }
    }

    /** `handleSuccessModalClose`: the modal closes and the page navigates to
        the report it announced, or to the list. */
    method CloseSuccessModal() returns (path: string)
      requires Valid()
      modifies this
      ensures Valid()
      ensures successModal == SuccessClosed
      ensures path == CloseTarget(old(successModal).reportId)
      ensures formData == old(formData) && imageFile == old(imageFile) && imagePreview == old(imagePreview)
      ensures errors == old(errors) && loading == old(loading) && errorModal == old(errorModal)
    {
      var reportId := successModal.reportId;
      successModal := SuccessClosed;
      if reportId.Some? && reportId.value != 0 {
        path := ReportsRoute + "/" + IntToString(reportId.value);
      } else {
        path := ReportsRoute;
      }
    }

    method CloseErrorModal()
      requires Valid()
      modifies this
      ensures Valid()
      ensures errorModal == Closed
      ensures formData == old(formData) && imageFile == old(imageFile) && imagePreview == old(imagePreview)
      ensures errors == old(errors) && loading == old(loading) && successModal == old(successModal)
    {
      errorModal := Closed;
    }
  }
}
