/** The simple storage service: uploading a file for an organisation and
    requesting a signed URL for one. Each operation validates its arguments in the
    order the SDK does, builds the request, and sends it through the base
    service. */
module SimpleStorage {

  import opened Common
  import opened OrgNames
  import opened BaseServices

  /** `HttpMethod`: the methods a signed URL can be asked for. */
  datatype HttpMethod = GET | PUT | POST | DELETE | PATCH | HEAD | OPTIONS

  /** The string value of each enum member. */
  function MethodValue(m: HttpMethod): (v: string)
    ensures v in METHOD_VALUES
  {
    match m
    case GET => "GET"
    case PUT => "PUT"
    case POST => "POST"
    case DELETE => "DELETE"
    case PATCH => "PATCH"
    case HEAD => "HEAD"
    case OPTIONS => "OPTIONS"
  }

  /** `[m.value for m in HttpMethod]`, in declaration order. */
  const METHOD_VALUES: seq<string> := ["GET", "PUT", "POST", "DELETE", "PATCH", "HEAD", "OPTIONS"]

  /** `HttpMethod(s)`: the member whose value is `s`, if any. */
  function MethodFromValue(s: string): (r: Option<HttpMethod>)
    ensures r.Some? <==> s in METHOD_VALUES
    ensures r.Some? ==> MethodValue(r.value) == s
  {
    if s == "GET" then Some(GET)
    else if s == "PUT" then Some(PUT)
    else if s == "POST" then Some(POST)
    else if s == "DELETE" then Some(DELETE)
    else if s == "PATCH" then Some(PATCH)
    else if s == "HEAD" then Some(HEAD)
    else if s == "OPTIONS" then Some(OPTIONS)
    else None
  }

  /** Every member is found again from its value, so no two members share one. */
  lemma MethodValueRoundTrip(m: HttpMethod)
    ensures MethodFromValue(MethodValue(m)) == Some(m)
  {
  }

  lemma MethodValueInjective(m1: HttpMethod, m2: HttpMethod)
    ensures MethodValue(m1) == MethodValue(m2) <==> m1 == m2
  {
    MethodValueRoundTrip(m1);
    MethodValueRoundTrip(m2);
  }

  /** `sign_url` takes the method as an enum member or as a string. */
  datatype MethodArg = EnumMethod(member: HttpMethod) | TextMethod(text: string)

  const INVALID_METHOD: Error := ValueError("Method must be one of ['GET', 'PUT', 'POST', 'DELETE', 'PATCH', 'HEAD', 'OPTIONS']")
  const INVALID_ORG_NAME: Error := ValueError("organization_name is not valid")
  const INVALID_EXPIRY: Error := ValueError("value must be at least 1")

  /** The method conversion of `sign_url`: an enum member gives its value, a
      string is accepted only when it is one of the values, matched exactly. */
  function ResolveMethod(arg: MethodArg): (r: Result<string>)
    ensures r.Success? <==> arg.EnumMethod? || arg.text in METHOD_VALUES
    ensures r.Success? ==> r.value in METHOD_VALUES
    ensures arg.EnumMethod? ==> r == Success(MethodValue(arg.member))
    ensures arg.TextMethod? && r.Success? ==> r.value == arg.text
    ensures r.Failure? ==> r.error == INVALID_METHOD
  {
    match arg
    case EnumMethod(m) => Success(MethodValue(m))
    case TextMethod(s) => if s in METHOD_VALUES then Success(s) else Failure(INVALID_METHOD)
  }

  /** Passing a member or its value is the same request. */
  lemma ResolveMethodEnumOrText(m: HttpMethod)
    ensures ResolveMethod(EnumMethod(m)) == ResolveMethod(TextMethod(MethodValue(m)))
  {
  }

  /** `Validator(int).min_value(1)`. */
  function CheckMinOne(v: int): (r: Result<int>)
    ensures r.Success? <==> v >= 1
    ensures r.Success? ==> r.value == v
    ensures r.Failure? ==> r.error == INVALID_EXPIRY
  {
    if v >= 1 then Success(v) else Failure(INVALID_EXPIRY)
  }

  const ORG_PARAM: string := "organization_name"
  const FILE_PARAM: string := "filename"

  function FilesUrl(baseUrl: string): string {
    baseUrl + "/organizations/{organization_name}/files/{filename}"
  }

  function FileTokensUrl(baseUrl: string): string {
    baseUrl + "/organizations/{organization_name}/file_tokens/{filename}"
  }

  function PathParams(org: string, filename: string): (p: map<string, string>)
    ensures p.Keys == {ORG_PARAM, FILE_PARAM} && p[ORG_PARAM] == org && p[FILE_PARAM] == filename
  {
    map[ORG_PARAM := org, FILE_PARAM := filename]
  }

  /** The multipart form of `upload_file`: the file, its MIME type and the sign
      flag, and the signature expiry only when one is given. */
  function UploadForm(file: Bytes, mimeType: string, sign: bool, signatureExp: Option<int>)
    : (form: map<string, FormField>)
    ensures form.Keys == {"file", "mimeType", "sign"} + (if signatureExp.Some? then {"signatureExp"} else {})
    ensures form["file"] == FilePart(file) && form["mimeType"] == ValuePart(Str(mimeType))
    ensures form["sign"] == ValuePart(Bool(sign))
    ensures signatureExp.Some? ==> form["signatureExp"] == ValuePart(Int(signatureExp.value))
  {
    var base := map["file" := FilePart(file), "mimeType" := ValuePart(Str(mimeType)), "sign" := ValuePart(Bool(sign))];
    if signatureExp.Some? then base["signatureExp" := ValuePart(Int(signatureExp.value))] else base
  }

  /** The request `upload_file` sends: the organisation name is checked first,
      then a given signature expiry; the upload is a PUT of a multipart form to
      the organisation's file path. */
  function UploadFileRequest(baseUrl: string, auth: Option<ApiKeyAuth>, org: string, filename: string,
                             file: Bytes, mimeType: string, sign: bool, signatureExp: Option<int>)
    : (r: Result<Request>)
    ensures r.Success? <==> ValidOrgName(org) && (signatureExp.Some? ==> signatureExp.value >= 1)
    ensures !ValidOrgName(org) ==> r == Failure(INVALID_ORG_NAME)
    ensures ValidOrgName(org) && signatureExp.Some? && signatureExp.value < 1 ==> r == Failure(INVALID_EXPIRY)
    ensures r.Success? ==> r.value == Request("PUT", FilesUrl(baseUrl), PathParams(org, filename), auth,
                                              MultipartForm(UploadForm(file, mimeType, sign, signatureExp)))
  {
    if !ValidOrgName(org) then Failure(INVALID_ORG_NAME)
    else if signatureExp.Some? && signatureExp.value < 1 then Failure(INVALID_EXPIRY)
    else Success(Request("PUT", FilesUrl(baseUrl), PathParams(org, filename), auth,
                         MultipartForm(UploadForm(file, mimeType, sign, signatureExp))))
  }

  /** The JSON body of `sign_url`: exactly the method and the expiry. */
  function SignBody(httpMethod: string, exp: int): (v: Value)
    ensures v.Object? && v.fields.Keys == {"method", "exp"}
    ensures v.fields["method"] == Str(httpMethod) && v.fields["exp"] == Int(exp)
  {
    Object(map["method" := Str(httpMethod), "exp" := Int(exp)])
  }

  /** The request `sign_url` sends once its organisation-name check gave
      `orgAccepted`: the expiry is checked next, then the method; the request is
      a POST of the JSON body to the organisation's file-token path. */
  function SignUrlRequestAfterOrgCheck(orgAccepted: bool, baseUrl: string, auth: Option<ApiKeyAuth>,
                                       org: string, filename: string, httpMethod: MethodArg, exp: int)
    : (r: Result<Request>)
    ensures r.Success? <==> orgAccepted && exp >= 1 && ResolveMethod(httpMethod).Success?
    ensures !orgAccepted ==> r == Failure(INVALID_ORG_NAME)
    ensures orgAccepted && exp < 1 ==> r == Failure(INVALID_EXPIRY)
    ensures orgAccepted && exp >= 1 && ResolveMethod(httpMethod).Failure? ==> r == Failure(INVALID_METHOD)
    ensures r.Success? ==> r.value == Request("POST", FileTokensUrl(baseUrl), PathParams(org, filename), auth,
                                              JsonBody(SignBody(ResolveMethod(httpMethod).value, exp)))
  {
    if !orgAccepted then Failure(INVALID_ORG_NAME)
    else
      var e :- CheckMinOne(exp);
      var m :- ResolveMethod(httpMethod);
      Success(Request("POST", FileTokensUrl(baseUrl), PathParams(org, filename), auth, JsonBody(SignBody(m, e))))
  }

  /** `sign_url` as written: its organisation-name pattern is malformed and
      accepts only two-character names. */
  function SignUrlRequestAsWritten(baseUrl: string, auth: Option<ApiKeyAuth>, org: string, filename: string,
                                   httpMethod: MethodArg, exp: int)
    : (r: Result<Request>)
    ensures r.Success? ==> |org| == 2
    ensures r == SignUrlRequestAfterOrgCheck(SignUrlOrgNameAsWritten(org), baseUrl, auth, org, filename, httpMethod, exp)
  {
    SignUrlPatternMeaning(org);
    SignUrlRequestAfterOrgCheck(SignUrlOrgNameAsWritten(org), baseUrl, auth, org, filename, httpMethod, exp)
  }

  /** `sign_url` with the organisation-name rule of the other operations. */
  function SignUrlRequest(baseUrl: string, auth: Option<ApiKeyAuth>, org: string, filename: string,
                          httpMethod: MethodArg, exp: int)
    : (r: Result<Request>)
    ensures r.Success? <==> OrgNameShape(org) && exp >= 1 && ResolveMethod(httpMethod).Success?
    ensures r == SignUrlRequestAfterOrgCheck(ValidOrgName(org), baseUrl, auth, org, filename, httpMethod, exp)
  {
    ValidOrgNameMeaning(org);
    SignUrlRequestAfterOrgCheck(ValidOrgName(org), baseUrl, auth, org, filename, httpMethod, exp)
  }

  /** The consequence of the malformed pattern: a signed URL for the organisation
      `salad-1`, which `upload_file` accepts, is refused by `sign_url` as written
      and granted by the corrected check. */
  lemma SignUrlAsWrittenRefusesValidOrg(baseUrl: string, auth: Option<ApiKeyAuth>, filename: string,
                                        file: Bytes, mimeType: string)
    ensures UploadFileRequest(baseUrl, auth, "salad-1", filename, file, mimeType, false, None).Success?
    ensures SignUrlRequestAsWritten(baseUrl, auth, "salad-1", filename, EnumMethod(GET), 60) == Failure(INVALID_ORG_NAME)
    ensures SignUrlRequest(baseUrl, auth, "salad-1", filename, EnumMethod(GET), 60).Success?
  {
    SignUrlPatternRejectsValidNames();
  }

  /** The organisation name checked by both operations never breaks out of its
      path segment: it holds no `/`, `?`, `#`, `{` or `}`. */
  lemma ValidOrgNameStaysInPathSegment(org: string)
    requires ValidOrgName(org)
    ensures forall i :: 0 <= i < |org| ==> org[i] !in {'/', '?', '#', '{', '}'}
  {
    ValidOrgNameMeaning(org);
  }

  /** `SimpleStorageService(base_url, api_key)`: the API key is set only when it
      is given and non-empty. */
  method NewSimpleStorageService(baseUrl: string, apiKey: Option<string>) returns (svc: BaseService)
    ensures fresh(svc) && svc.Valid()
    ensures svc.baseUrl == baseUrl && svc.timeout == DEFAULT_TIMEOUT_MS
    ensures svc.GetApiKey() == if apiKey.Some? && apiKey.value != "" then Some(ApiKeyAuth(apiKey.value, DEFAULT_API_KEY_HEADER)) else None
  {
    svc := new BaseService(baseUrl);
    if apiKey.Some? && apiKey.value != "" {
      var _ := svc.SetApiKey(apiKey.value);
    }
  }

  /** `upload_file`: the body of the response to the built request; a request
      that fails validation is never sent. */
  method UploadFile(svc: BaseService, org: string, filename: string, file: Bytes, mimeType: string,
                    sign: bool, signatureExp: Option<int>, send: Send)
    returns (r: Result<Value>)
    requires svc.Valid()
    ensures var req := UploadFileRequest(svc.baseUrl, svc.GetApiKey(), org, filename, file, mimeType, sign, signatureExp);
            && (req.Failure? ==> r == Failure(req.error))
            && (req.Success? ==> r == Success(send(RequestHandlerFor(svc.timeout), req.value).body))
  {
    var req := UploadFileRequest(svc.baseUrl, svc.GetApiKey(), org, filename, file, mimeType, sign, signatureExp);
    if req.Failure? {
      return Failure(req.error);
    }
    var t := svc.SendRequest(req.value, send);
    r := Success(t.0);
  }

  /** `sign_url`, with the corrected organisation-name check. */
  method SignUrl(svc: BaseService, org: string, filename: string, httpMethod: MethodArg, exp: int, send: Send)
    returns (r: Result<Value>)
    requires svc.Valid()
    ensures var req := SignUrlRequest(svc.baseUrl, svc.GetApiKey(), org, filename, httpMethod, exp);
            && (req.Failure? ==> r == Failure(req.error))
            && (req.Success? ==> r == Success(send(RequestHandlerFor(svc.timeout), req.value).body))
  {
    var req := SignUrlRequest(svc.baseUrl, svc.GetApiKey(), org, filename, httpMethod, exp);
    if req.Failure? {
      return Failure(req.error);
    }
    var t := svc.SendRequest(req.value, send);
    r := Success(t.0);
  }
}
