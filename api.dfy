/** The HTTP wrapper (src/services/api.ts): the request headers, and how `apiRequest`
    turns a response into a value or an error — redirects, status 0, 401/409, other
    failures, 204 and the body by content type — and how `checkServerStatus` reads a
    health probe. The transport is a `Response` value or the exception `fetch` threw. */
module Api {
  import opened Common

  /** A value thrown in JavaScript: a `TypeError`, another `Error` with its `name`
      (`"Error"`, `"AbortError"`, ...), or something that is not an `Error`. */
  datatype JsException = TypeError(message: string) | Error(name: string, message: string) | NonError

  /** `new Error(message)` */
  function Raise(message: string): JsException
  {
    Error("Error", message)
  }

  /** The outcome of reading a body with `json()` or `text()`. */
  datatype Read<+T> = Parsed(value: T) | ReadFailed(e: JsException)

  /** A JSON error body, with the two fields the wrapper looks at and the text
      `JSON.stringify(body, null, 2)` gives. */
  datatype JsonBody = JsonBody(message: Option<string>, title: Option<string>, stringified: string)

  datatype ResponseType = Basic | Cors | Opaque | OpaqueRedirect

  /** What `fetch` resolved to, with what reading its body would give either way. */
  datatype Response = Response(
    status: nat,
    statusText: string,
    responseType: ResponseType,
    location: Option<string>,
    contentType: Option<string>,
    json: Read<JsonBody>,
    text: Read<string>)

  datatype FetchOutcome = Responded(response: Response) | FetchThrew(e: JsException)

  /** What the wrapper resolves to. */
  datatype Value = JsonValue(body: JsonBody) | TextValue(text: string) | EmptyObject
  datatype ApiResult = Returned(value: Value) | Raised(e: JsException)

  const BackendUrl := "https://uouaitutor.duckdns.org"

  /** `import.meta.env.VITE_API_URL || BACKEND_URL` */
  function ApiBase(configured: string): (base: string)
    ensures base != ""
  {
    if configured != "" then configured else BackendUrl
  }

  /** A JavaScript string or null used as a condition. */
  predicate Truthy(s: Option<string>)
  {
    s.Some? && s.value != ""
  }

  // ---------------------------------------------------------------------------
  // Headers

  const ContentTypeKey := "Content-Type"
  const ContentTypeLower := "content-type"
  const AuthorizationKey := "Authorization"
  const JsonMime := "application/json"

  /** createHeaders: JSON content type unless the body is form data, and the bearer
      token when authentication is wanted and a token is stored. */
  method CreateHeaders(includeAuth: bool, isFormData: bool, token: Option<string>) returns (headers: map<string, string>)
    ensures headers.Keys <= {ContentTypeKey, AuthorizationKey}
    ensures ContentTypeKey in headers <==> !isFormData
    ensures ContentTypeKey in headers ==> headers[ContentTypeKey] == JsonMime
    ensures AuthorizationKey in headers <==> includeAuth && Truthy(token)
    ensures AuthorizationKey in headers ==> headers[AuthorizationKey] == "Bearer " + token.value
  {
    headers := map[];
    if !isFormData {
      headers := headers[ContentTypeKey := JsonMime];
    }
    if includeAuth {
      if Truthy(token) {
        headers := headers[AuthorizationKey := "Bearer " + token.value];
      }
    }
  }

  /** The headers sent: the created ones overridden by the caller's, and for form data
      no content type in either spelling, so the browser sets the boundary. */
  method FinalHeaders(includeAuth: bool, isFormData: bool, token: Option<string>, extra: map<string, string>)
    returns (headers: map<string, string>)
    ensures isFormData ==> ContentTypeKey !in headers && ContentTypeLower !in headers
    ensures !isFormData ==>
      ContentTypeKey in headers && headers[ContentTypeKey] == if ContentTypeKey in extra then extra[ContentTypeKey] else JsonMime
    ensures forall k :: k in extra && k != ContentTypeKey && k != ContentTypeLower ==> k in headers && headers[k] == extra[k]
    ensures AuthorizationKey in headers <==> AuthorizationKey in extra || (includeAuth && Truthy(token))
    ensures AuthorizationKey in headers ==>
      headers[AuthorizationKey] == if AuthorizationKey in extra then extra[AuthorizationKey] else "Bearer " + token.value
    ensures forall k :: k in headers ==> k in extra || k == ContentTypeKey || k == AuthorizationKey
  {
    var created := CreateHeaders(includeAuth, isFormData, token);
    headers := created + extra;
    if isFormData {
      headers := headers - {ContentTypeKey};
      headers := headers - {ContentTypeLower};
    }
  }

  /** `!!finalHeaders['Authorization']` */
  predicate HasAuthHeader(headers: map<string, string>)
  {
    AuthorizationKey in headers && headers[AuthorizationKey] != ""
  }

  // ---------------------------------------------------------------------------
  // Classifying a response

  const LoginRequiredText := "로그인이 필요합니다. 로그인 페이지로 이동해주세요."
  const BackendAuthText := "백엔드 인증 오류가 발생했습니다. "
    + "토큰은 유지되며, 잠시 후 다시 시도하거나 브라우저를 새로고침해주세요."
  const NetworkFailureText := "네트워크 연결 실패"
  const UnreadableBodyText := "응답 본문을 읽을 수 없습니다"
  const Default401Text := "이메일 또는 비밀번호가 올바르지 않습니다."
  const Default409Text := "이미 존재하는 이메일입니다."

  /** The backend-configuration error of a redirected login or sign-up request. */
  function BackendConfigText(endpoint: string): string
  {
    "백엔드 설정 문제: 로그인/회원가입 API가 리다이렉트를 반환하고 있습니다.\n\n"
    + "해결 방법 (백엔드):\n"
    + "1. /api/auth/login, /api/auth/signup 엔드포인트를 Security 필터에서 제외\n"
    + "2. permitAll() 설정 추가\n"
    + "3. OPTIONS 요청(CORS preflight)에 대해 리다이렉트 대신 200 OK 반환\n\n"
    + "현재 요청: " + endpoint
  }

  /** The CORS error of a redirected preflight that did carry the token. */
  function CorsText(endpoint: string): string
  {
    "백엔드 CORS 설정 문제로 인해 요청이 실패했습니다.\n\n"
    + "해결 방법:\n"
    + "1. 백엔드에서 OPTIONS 요청에 대해 리다이렉트 대신 200 OK를 반환하도록 설정\n"
    + "2. CORS 설정에서 Authorization 헤더를 허용하도록 설정\n"
    + "3. Access-Control-Allow-Headers에 \"Authorization\" 포함\n"
    + "4. CORS 필터가 Security 필터보다 먼저 실행되도록 설정\n\n"
    + "현재 요청: " + endpoint
  }

  predicate IsRedirect(r: Response)
  {
    r.responseType == OpaqueRedirect || r.status in {301, 302, 307, 308}
  }

  predicate IsAuthEndpoint(endpoint: string)
  {
    Contains(endpoint, "/api/auth/login") || Contains(endpoint, "/api/auth/signup")
  }

  predicate IsJsonType(contentType: Option<string>)
  {
    Truthy(contentType) && Contains(contentType.value, JsonMime)
  }

  predicate IsOk(status: nat)
  {
    200 <= status <= 299
  }

  /** The redirect branch: never a value. */
  function RedirectError(endpoint: string, hasToken: bool, hasAuthHeader: bool, r: Response): (e: JsException)
    requires IsRedirect(r)
  {
    if IsAuthEndpoint(endpoint) then Raise(BackendConfigText(endpoint))
    else if r.responseType == OpaqueRedirect && !Truthy(r.location) then
      if hasToken && hasAuthHeader then Raise(CorsText(endpoint)) else Raise(LoginRequiredText)
    else if Truthy(r.location) && Contains(r.location.value, "/oauth2/authorization/") then
      if !hasToken || !hasAuthHeader then Raise(LoginRequiredText) else Raise(BackendAuthText)
    else if !hasToken || !hasAuthHeader then Raise(LoginRequiredText)
    else Raise(BackendAuthText)
  }

  /** A successful body: JSON when the content type says so, text otherwise. */
  function ReadBody(r: Response): ApiResult
  {
    if IsJsonType(r.contentType) then
      match r.json
      case Parsed(j) => Returned(JsonValue(j))
      case ReadFailed(e) => Raised(e)
    else
      match r.text
      case Parsed(t) => Returned(TextValue(t))
      case ReadFailed(e) => Raised(e)
  }

  /** `a || b` over an optional string. */
  function OrElse(a: Option<string>, b: string): (r: string)
    ensures Truthy(a) ==> r == a.value
    ensures !Truthy(a) ==> r == b
  {
    if Truthy(a) then a.value else b
  }

  /** The error body of a failed response: the parsed JSON if any, and its text. */
  datatype ErrorBody = ErrorBody(json: Option<JsonBody>, text: string)

  function ReadErrorBody(r: Response): (b: ErrorBody)
    ensures !IsJsonType(r.contentType) ==> b.json.None?
  {
    if IsJsonType(r.contentType) then
      match r.json
      case Parsed(j) => ErrorBody(Some(j), j.stringified)
      case ReadFailed(_) => ErrorBody(None, UnreadableBodyText)
    else
      match r.text
      case Parsed(t) => ErrorBody(None, t)
      case ReadFailed(_) => ErrorBody(None, UnreadableBodyText)
  }

  /** `errorJson?.message || errorJson?.title || errorText || fallback` */
  function BackendMessage(b: ErrorBody, fallback: string): string
  {
    var message := if b.json.Some? then b.json.value.message else None;
    var title := if b.json.Some? then b.json.value.title else None;
    OrElse(message, OrElse(title, if b.text != "" then b.text else fallback))
  }

  function ApiErrorPrefix(r: Response): string
  {
    "API Error (" + NatToString(r.status) + " " + r.statusText + "): "
  }

  /** The error of a response that is not OK. */
  function FailureError(r: Response): JsException
  {
    var b := ReadErrorBody(r);
    if r.status == 401 then Raise(BackendMessage(b, Default401Text))
    else if r.status == 409 then Raise(BackendMessage(b, Default409Text))
    else if Contains(b.text, "ERR_NGROK") || Contains(b.text, "ngrok") || Contains(b.text, "<!DOCTYPE html>") then
      if Contains(b.text, "ERR_NGROK_3200") || Contains(b.text, "is offline") then
        Raise(ApiErrorPrefix(r) + "ngrok 터널이 오프라인 상태입니다. 터널이 종료되었거나 연결이 끊어진 것 같습니다.")
      else Raise(ApiErrorPrefix(r) + "ngrok 관련 오류가 발생했습니다. 터널 상태를 확인해주세요.")
    else Raise(ApiErrorPrefix(r) + BackendMessage(b, ""))
  }

  /** The body of apiRequest's `try` once `fetch` has answered. */
  function Classify(endpoint: string, hasToken: bool, hasAuthHeader: bool, r: Response): ApiResult
  {
    if IsRedirect(r) then Raised(RedirectError(endpoint, hasToken, hasAuthHeader, r))
    else if r.status == 0 then Raised(Raise(NetworkFailureText))
    else if r.status == 201 then ReadBody(r)
    else if !IsOk(r.status) then Raised(FailureError(r))
    else if r.status == 204 then Returned(EmptyObject)
    else ReadBody(r)
  }

  /** apiRequest's `catch`: a `TypeError` about fetching becomes a network failure
      naming the URL; anything else is rethrown as it is. */
  function Surface(url: string, res: ApiResult): (out: ApiResult)
    ensures res.Returned? ==> out == res
  {
    if res.Raised? && res.e.TypeError? && Contains(res.e.message, "fetch")
    then Raised(Raise(NetworkFailureText + ": " + url))
    else res
  }

  /** apiRequest: builds the headers, sends, and classifies what came back. */
  method ApiRequest(configuredBase: string, endpoint: string, isFormData: bool, includeAuth: bool,
                    token: Option<string>, extra: map<string, string>, fetched: FetchOutcome)
    returns (result: ApiResult, sent: map<string, string>)
    ensures isFormData ==> ContentTypeKey !in sent && ContentTypeLower !in sent
    ensures AuthorizationKey !in extra ==> (HasAuthHeader(sent) <==> includeAuth && Truthy(token))
    ensures fetched.FetchThrew? ==> result == Surface(ApiBase(configuredBase) + endpoint, Raised(fetched.e))
    ensures fetched.Responded? ==>
      result == Surface(ApiBase(configuredBase) + endpoint,
                        Classify(endpoint, Truthy(token), HasAuthHeader(sent), fetched.response))
  {
    var url := ApiBase(configuredBase) + endpoint;
    sent := FinalHeaders(includeAuth, isFormData, token, extra);
    var hasAuthHeader := HasAuthHeader(sent);
    match fetched {
      case FetchThrew(e) =>
        result := Surface(url, Raised(e));
      case Responded(response) =>
        result := Surface(url, Classify(endpoint, Truthy(token), hasAuthHeader, response));
    }
  }

  // ---------------------------------------------------------------------------
  // What the classification promises

  lemma LoginRequiredIsNotCors(endpoint: string)
    ensures CorsText(endpoint) != LoginRequiredText && BackendAuthText != LoginRequiredText
  {
    assert CorsText(endpoint)[0] != LoginRequiredText[0];
    assert LoginRequiredText[0] == '로';
    assert BackendAuthText[0] == '백';
  }

  /** A redirect never yields data, and the catch passes its error through unchanged;
      for login and sign-up it is the backend-configuration error. */
  lemma RedirectNeverReturns(url: string, endpoint: string, hasToken: bool, hasAuthHeader: bool, r: Response)
    requires IsRedirect(r)
    ensures Surface(url, Classify(endpoint, hasToken, hasAuthHeader, r)) == Raised(RedirectError(endpoint, hasToken, hasAuthHeader, r))
    ensures IsAuthEndpoint(endpoint) ==>
      Classify(endpoint, hasToken, hasAuthHeader, r) == Raised(Raise(BackendConfigText(endpoint)))
  {
  }

  /** For any other endpoint a redirect means "log in" exactly when the token or the
      authorization header is missing; otherwise it is a CORS error (an opaque
      redirect without location) or a backend authentication error. */
  lemma RedirectLoginRequired(endpoint: string, hasToken: bool, hasAuthHeader: bool, r: Response)
    requires IsRedirect(r) && !IsAuthEndpoint(endpoint)
    ensures RedirectError(endpoint, hasToken, hasAuthHeader, r) == Raise(LoginRequiredText) <==> !hasToken || !hasAuthHeader
    ensures hasToken && hasAuthHeader ==>
      RedirectError(endpoint, hasToken, hasAuthHeader, r) ==
        if r.responseType == OpaqueRedirect && !Truthy(r.location) then Raise(CorsText(endpoint)) else Raise(BackendAuthText)
  {
    LoginRequiredIsNotCors(endpoint);
  }

  /** Status 0 outside a redirect is a network failure. */
  lemma StatusZero(url: string, endpoint: string, hasToken: bool, hasAuthHeader: bool, r: Response)
    requires r.status == 0 && r.responseType != OpaqueRedirect
    ensures Surface(url, Classify(endpoint, hasToken, hasAuthHeader, r)) == Raised(Raise(NetworkFailureText))
  {
  }

  /** A `TypeError` from `fetch` mentioning "fetch" (such as "Failed to fetch") is
      reported as a network failure with the URL; any other exception is rethrown. */
  lemma FetchTypeError(url: string, message: string)
    ensures Surface(url, Raised(TypeError("Failed to fetch"))) == Raised(Raise(NetworkFailureText + ": " + url))
    ensures !Contains(message, "fetch") ==> Surface(url, Raised(TypeError(message))) == Raised(TypeError(message))
  {
    assert "Failed to fetch" == "Failed to " + "fetch";
    assert Contains("Failed to fetch", "fetch") by {
      assert OccursAt("Failed to fetch", "fetch", 10);
      ContainsIffOccurs("Failed to fetch", "fetch");
    }
  }

  /** 401 and 409 raise the backend's message, taken from the JSON `message`, then
      `title`, then the body text, then a fixed default. */
  lemma ConflictAndUnauthorized(endpoint: string, hasToken: bool, hasAuthHeader: bool, r: Response)
    requires r.status == 401 || r.status == 409
    requires r.responseType != OpaqueRedirect
    ensures var b := ReadErrorBody(r);
      var fallback := if r.status == 401 then Default401Text else Default409Text;
      var msg := Classify(endpoint, hasToken, hasAuthHeader, r).e.message;
      && Classify(endpoint, hasToken, hasAuthHeader, r).Raised?
      && (b.json.Some? && Truthy(b.json.value.message) ==> msg == b.json.value.message.value)
      && (b.json.Some? && !Truthy(b.json.value.message) && Truthy(b.json.value.title) ==> msg == b.json.value.title.value)
      && ((b.json.None? || (!Truthy(b.json.value.message) && !Truthy(b.json.value.title))) ==>
            msg == if b.text != "" then b.text else fallback)
  {
  }

  /** An OK response: 204 is an empty object; otherwise JSON when the content type names
      it, text otherwise. */
  lemma OkResponses(endpoint: string, hasToken: bool, hasAuthHeader: bool, r: Response)
    requires IsOk(r.status) && r.responseType != OpaqueRedirect
    ensures r.status == 204 ==> Classify(endpoint, hasToken, hasAuthHeader, r) == Returned(EmptyObject)
    ensures r.status != 204 && IsJsonType(r.contentType) && r.json.Parsed? ==>
      Classify(endpoint, hasToken, hasAuthHeader, r) == Returned(JsonValue(r.json.value))
    ensures r.status != 204 && !IsJsonType(r.contentType) && r.text.Parsed? ==>
      Classify(endpoint, hasToken, hasAuthHeader, r) == Returned(TextValue(r.text.value))
  {
  }

  // ---------------------------------------------------------------------------
  // checkServerStatus

  datatype ServerStatus = ServerStatus(online: bool, message: Option<string>)

  const ServerErrorText := "서버 오류"
  const UnreachableText := "서버에 연결할 수 없습니다"
  const TimeoutText := "서버 응답 시간 초과"
  const CheckFailedText := "서버 상태 확인 실패"

  /** The probe's reading; the 3-second timeout aborts the request, which then rejects
      with an `AbortError`. */
  function ServerStatusOf(probe: FetchOutcome): (s: ServerStatus)
    ensures s.online <==> probe.Responded? && probe.response.status < 500
    ensures s.online <==> s.message.None?
    ensures probe.FetchThrew? && probe.e.Error? && probe.e.name == "AbortError" ==> s == ServerStatus(false, Some(TimeoutText))
    ensures probe.FetchThrew? && probe.e.TypeError? && Contains(probe.e.message, "fetch") ==>
      s == ServerStatus(false, Some(UnreachableText))
  {
    match probe
    case Responded(r) => if r.status < 500 then ServerStatus(true, None) else ServerStatus(false, Some(ServerErrorText))
    case FetchThrew(e) =>
      if e.TypeError? && Contains(e.message, "fetch") then ServerStatus(false, Some(UnreachableText))
      else if e.Error? && e.name == "AbortError" then ServerStatus(false, Some(TimeoutText))
      else ServerStatus(false, Some(CheckFailedText))
  }
}
