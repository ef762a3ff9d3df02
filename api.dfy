/** The client for the reporting backend (`ApiService`): it holds the bearer
    token, persists it in the browser's local storage, shapes each request
    (URL, headers, body) and turns each response into a value or an error
    message. The network is an input: every call receives the `Exchange` that
    `fetch` would have produced. */
module Api {
  import opened Wrappers
  import opened JsText

  const BaseUrl := "http://localhost:8000/api"

  /** The local-storage key under which the token is persisted. */
  const TokenKey := "asphaltaid_token"

  const ContentType := "Content-Type"
  const JsonMediaType := "application/json"
  const Authorization := "Authorization"

  const SignInPath := "/users/auth/signin/"
  const SignUpPath := "/users/auth/signup/"
  const ReportsPath := "/reports/reports/"

  datatype AuthResponse = AuthResponse(
    token: string, username: string, firstName: string, lastName: string, email: string)

  datatype SignInRequest = SignInRequest(username: string, password: string)

  datatype SignUpRequest = SignUpRequest(
    username: string, email: string, password: string, confirmPassword: string,
    firstName: string, lastName: string)

  /** A report as the backend returns it; `createdAt` and `updatedAt` stand for
      the instants the backend's date strings denote. */
  datatype Report = Report(
    id: int, image: Option<string>, severity: int, description: string, name: string,
    address: string, status: string, reportType: string, createdAt: int, updatedAt: int,
    user: int)

  datatype ReportsListResponse = ReportsListResponse(detail: string, count: int, reports: seq<Report>)

  datatype ReportDetailResponse = ReportDetailResponse(detail: string, report: Report)

  /** A file chosen in the browser: its name, MIME type and size in bytes. */
  datatype File = File(name: string, mimeType: string, size: int)

  datatype CreateReportRequest = CreateReportRequest(
    name: string, description: string, address: string, reportType: string, image: Option<File>)

  /** The body of a response as `response.json()` reads it: either it is not JSON
      (and the parse rejects with a message), or it is a JSON object whose
      `message` and `detail` members may be absent, and which reads as `data`. */
  datatype Body<T> = NotJson(syntaxMessage: string) | Json(message: Option<string>, detail: Option<string>, data: T)

  datatype Response<T> = Response(ok: bool, status: int, statusText: string, body: Body<T>)

  /** What `fetch` produces: a rejection (no response at all) or a response. */
  datatype Exchange<T> = NetworkError(reason: string) | Received(response: Response<T>)

  /** One entry of a multipart body. */
  datatype Part = Field(name: string, value: string) | FilePart(name: string, file: File)

  /** A request body: none, `JSON.stringify` of an object (its members in order),
      or a `FormData`. */
  datatype Payload = NoBody | JsonObject(members: seq<(string, string)>) | Multipart(parts: seq<Part>)

  datatype Verb = GET | POST

  datatype Request = Request(verb: Verb, url: string, headers: map<string, string>, body: Payload)

  /** JavaScript truthiness of an optional string member. */
  predicate Truthy(v: Option<string>) {
    v.Some? && v.value != ""
  }

  /** The `Authorization` header value for a token. */
  function AuthorizationValue(token: string): string {
    "Token " + token
  }

  /** The headers `getHeaders` builds for the token `token`. */
  function JsonHeaders(token: Option<string>): (h: map<string, string>)
    ensures ContentType in h && h[ContentType] == JsonMediaType
    ensures Authorization in h <==> Truthy(token)
    ensures Truthy(token) ==> h[Authorization] == AuthorizationValue(token.value)
    ensures h.Keys <= {ContentType, Authorization}
  {
    var h := map[ContentType := JsonMediaType];
    if Truthy(token) then h[Authorization := AuthorizationValue(token.value)] else h
  }

  /** The message of the `Error` that `handleResponse` throws for a response that
      is not ok. */
  function FailureMessage<T>(status: int, statusText: string, body: Body<T>): (m: string)
    ensures m != ""
    ensures body.Json? && Truthy(body.message) ==> m == body.message.value
    ensures body.Json? && !Truthy(body.message) && Truthy(body.detail) ==> m == body.detail.value
    ensures body.Json? && !Truthy(body.message) && !Truthy(body.detail) ==> m == "Request failed"
    ensures body.NotJson? ==> m == "HTTP " + IntToString(status) + ": " + statusText
  {
    match body
    case NotJson(_) => "HTTP " + IntToString(status) + ": " + statusText
    case Json(message, detail, _) =>
      if Truthy(message) then message.value
      else if Truthy(detail) then detail.value
      else "Request failed"
  }

  /** `handleResponse`: an ok response yields its parsed body, any other response
      throws with a non-empty message. */
  function HandleResponse<T>(r: Response<T>): (res: Result<T, string>)
    ensures res.Ok? <==> r.ok && r.body.Json?
    ensures res.Ok? ==> res.value == r.body.data
    ensures !r.ok ==> res == Err(FailureMessage(r.status, r.statusText, r.body)) && res.error != ""
    ensures r.ok && r.body.NotJson? ==> res == Err(r.body.syntaxMessage)
  {
    if !r.ok then Err(FailureMessage(r.status, r.statusText, r.body))
    else match r.body
      case NotJson(syntaxMessage) => Err(syntaxMessage)
      case Json(_, _, data) => Ok(data)
  }

  /** `await fetch(...)` followed by `handleResponse`: a rejected fetch propagates
      its own error. */
  function Outcome<T>(e: Exchange<T>): (res: Result<T, string>)
    ensures e.NetworkError? ==> res == Err(e.reason)
    ensures e.Received? ==> res == HandleResponse(e.response)
  {
    match e
    case NetworkError(reason) => Err(reason)
    case Received(r) => HandleResponse(r)
  }

  /** The JSON object `signIn` posts. */
  function SignInBody(credentials: SignInRequest): Payload {
    JsonObject([("username", credentials.username), ("password", credentials.password)])
  }

  /** The JSON object `signUp` posts, with the backend's member names. */
  function SignUpBody(userData: SignUpRequest): Payload {
    JsonObject([("username", userData.username), ("email", userData.email),
                ("password", userData.password), ("confirm_password", userData.confirmPassword),
                ("first_name", userData.firstName), ("last_name", userData.lastName)])
  }

  /** The multipart fields `createReport` appends, in order. */
  function ReportParts(data: CreateReportRequest): (parts: seq<Part>)
    ensures |parts| == if data.image.Some? then 5 else 4
    ensures parts[..4] == [Field("name", data.name), Field("description", data.description),
                           Field("address", data.address), Field("report_type", data.reportType)]
    ensures data.image.Some? ==> parts[4] == FilePart("image", data.image.value)
  {
    [Field("name", data.name), Field("description", data.description),
     Field("address", data.address), Field("report_type", data.reportType)]
    + (if data.image.Some? then [FilePart("image", data.image.value)] else [])
  }

  class ApiService {
    const baseURL: string
    var token: Option<string>
    /** The browser's local storage (shared by the whole front end). */
    ghost var storage: map<string, string>

    /** The token in memory is the token in storage. */
    ghost predicate Valid()
      reads this
    {
      && (TokenKey in storage <==> token.Some?)
      && (token.Some? ==> storage[TokenKey] == token.value)
    }

    /** `isAuthenticated`: `!!this.token`, so a missing and an empty token are
        both unauthenticated. */
    predicate IsAuthenticated()
      reads this
    {
      Truthy(token)
    }

    function GetToken(): Option<string>
      reads this
    {
      token
    }

    /** The client starts with whatever token local storage holds
        (`stored` is what `localStorage.getItem` returns). */
    constructor (baseURL: string, ghost storage0: map<string, string>, stored: Option<string>)
      requires stored == if TokenKey in storage0 then Some(storage0[TokenKey]) else None
      ensures Valid()
      ensures this.baseURL == baseURL && token == stored && storage == storage0
    {
      this.baseURL := baseURL;
      token := stored;
      storage := storage0;
    }

    /** `getHeaders`: always the JSON content type, and the token when there is one. */
    method GetHeaders() returns (headers: map<string, string>)
      ensures headers == JsonHeaders(token)
    {
      headers := map[ContentType := JsonMediaType];
      if token.Some? && token.value != "" {
        headers := headers[Authorization := AuthorizationValue(token.value)];
      }
    }

    /** Stores the token of a successful authentication in memory and in storage. */
    method StoreToken(t: string)
      requires Valid()
      modifies this
      ensures Valid()
      ensures token == Some(t) && storage == old(storage)[TokenKey := t]
    {
      token := Some(t);
      storage := storage[TokenKey := t];
    }

    /** `signIn`: posts the credentials; on success the returned token becomes the
        session's, on any failure the session is left as it was. */
    method SignIn(credentials: SignInRequest, exchange: Exchange<AuthResponse>)
      returns (sent: Request, result: Result<AuthResponse, string>)
      requires Valid()
      modifies this
      ensures Valid()
      ensures sent == Request(POST, baseURL + SignInPath, JsonHeaders(old(token)),
        SignInBody(credentials))
      ensures result == Outcome(exchange)
      ensures result.Ok? ==> token == Some(result.value.token) && storage == old(storage)[TokenKey := result.value.token]
      ensures result.Ok? && result.value.token != "" ==> IsAuthenticated() && GetToken() == Some(result.value.token)
      ensures result.Err? ==> token == old(token) && storage == old(storage)
    {
      var headers := GetHeaders();
      sent := Request(POST, baseURL + SignInPath, headers,
        SignInBody(credentials));
      result := Outcome(exchange);
      if result.Ok? {
        StoreToken(result.value.token);
      }
    }

    /** `signUp`: like `signIn`, posting the six registration fields. */
    method SignUp(userData: SignUpRequest, exchange: Exchange<AuthResponse>)
      returns (sent: Request, result: Result<AuthResponse, string>)
      requires Valid()
      modifies this
      ensures Valid()
      ensures sent == Request(POST, baseURL + SignUpPath, JsonHeaders(old(token)),
        SignUpBody(userData))
      ensures result == Outcome(exchange)
      ensures result.Ok? ==> token == Some(result.value.token) && storage == old(storage)[TokenKey := result.value.token]
      ensures result.Ok? && result.value.token != "" ==> IsAuthenticated() && GetToken() == Some(result.value.token)
      ensures result.Err? ==> token == old(token) && storage == old(storage)
    {
      var headers := GetHeaders();
      sent := Request(POST, baseURL + SignUpPath, headers,
        SignUpBody(userData));
      result := Outcome(exchange);
      if result.Ok? {
        StoreToken(result.value.token);
      }
    }

    /** `signOut`: forgets the token in memory and in storage, whatever it was;
        the backend is not called. */
    method SignOut()
      requires Valid()
      modifies this
      ensures Valid()
      ensures token == None && !IsAuthenticated()
      ensures storage == old(storage) - {TokenKey}
    {
      token := None;
      storage := storage - {TokenKey};
    }

    /** `getReports`: the whole collection, with the session's headers. */
    method GetReports(exchange: Exchange<ReportsListResponse>)
      returns (sent: Request, result: Result<ReportsListResponse, string>)
      ensures sent == Request(GET, baseURL + ReportsPath, JsonHeaders(token), NoBody)
      ensures result == Outcome(exchange)
    {
      var headers := GetHeaders();
      sent := Request(GET, baseURL + ReportsPath, headers, NoBody);
      result := Outcome(exchange);
    }

    /** `getReport(id)`: one report, addressed by its id. */
    method GetReport(id: int, exchange: Exchange<ReportDetailResponse>)
      returns (sent: Request, result: Result<ReportDetailResponse, string>)
      ensures sent == Request(GET, baseURL + ReportsPath + IntToString(id) + "/", JsonHeaders(token), NoBody)
      ensures result == Outcome(exchange)
    {
      var headers := GetHeaders();
      sent := Request(GET, baseURL + ReportsPath + IntToString(id) + "/", headers, NoBody);
      result := Outcome(exchange);
    }

    /** `createReport`: a multipart post of the four fields and the optional image;
        no `Content-Type` header (the browser supplies the multipart boundary),
        and the token when there is one. */
    method CreateReport(reportData: CreateReportRequest, exchange: Exchange<ReportDetailResponse>)
      returns (sent: Request, result: Result<ReportDetailResponse, string>)
      ensures sent.verb == POST && sent.url == baseURL + ReportsPath
      ensures sent.body == Multipart(ReportParts(reportData))
      ensures ContentType !in sent.headers
      ensures Authorization in sent.headers <==> IsAuthenticated()
      ensures IsAuthenticated() ==> sent.headers[Authorization] == AuthorizationValue(token.value)
      ensures sent.headers.Keys <= {Authorization}
      ensures result == Outcome(exchange)
    {
      var parts := [];
      parts := parts + [Field("name", reportData.name)];
      parts := parts + [Field("description", reportData.description)];
      parts := parts + [Field("address", reportData.address)];
      parts := parts + [Field("report_type", reportData.reportType)];
      if reportData.image.Some? {
        parts := parts + [FilePart("image", reportData.image.value)];
      }
      var headers: map<string, string> := map[];
      if token.Some? && token.value != "" {
        headers := headers[Authorization := AuthorizationValue(token.value)];
      }
      sent := Request(POST, baseURL + ReportsPath, headers, Multipart(parts));
      result := Outcome(exchange);
    }
  }
}
