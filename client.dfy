/** `HingeSDK/hingesdk/client.py`: the client's default headers and the request
    handler that merges headers, performs the call and classifies its failures. */
module Client {
  import opened Wrappers
  import opened Seqs
  import opened Dicts
  import opened Strings
  import opened Json
  import opened Exceptions

  const BaseUrl := "https://prod-api.hingeaws.net"
  const MediaUrl := "https://media.hingenexus.com"
  const DefaultAppVersion := "9.105.0"
  const DefaultOsVersion := "26.3"
  const DefaultDeviceModel := "iPhone17,3"
  const DefaultPlatform := "iOS"

  type Headers = Dict<string, string>

  /** The device description that picks and fills the platform header set. */
  datatype Device = Device(appVersion: string, osVersion: string, deviceModel: string,
                           installId: Option<string>, deviceId: Option<string>, platform: string)

  /** `x or ""` for an optional string. */
  function OrEmpty(o: Option<string>): (r: string)
    ensures Given(o) ==> r == o.value
    ensures !Given(o) ==> r == ""
  {
    if Given(o) then o.value else ""
  }

  const IosHeaderNames: seq<string> :=
    [ "Accept", "Accept-Encoding", "Accept-Language", "Connection", "Content-Type", "Host",
      "User-Agent", "X-App-Identifier", "X-App-Version", "X-Build-Number", "X-Device-Id",
      "X-Device-Model", "X-Device-Model-Code", "X-Device-Platform", "X-Device-Region",
      "X-Install-Id", "X-OS-Version" ]

  const AndroidHeaderNames: seq<string> :=
    [ "x-app-version", "x-os-version", "x-os-version-code", "x-device-model", "x-device-model-code",
      "x-device-manufacturer", "x-build-number", "x-device-platform", "x-install-id", "x-device-id",
      "accept-language", "x-device-region", "host", "connection", "accept-encoding", "user-agent" ]

  lemma IosHeaderNamesDistinct()
    ensures Distinct(IosHeaderNames)
  {
  }

  lemma AndroidHeaderNamesDistinct()
    ensures Distinct(AndroidHeaderNames)
  {
  }

  /** The iOS header values, position by position with `IosHeaderNames`. */
  function IosHeaderValues(dev: Device): seq<string>
  {
    [ "*/*", "gzip, deflate, br", "en", "keep-alive", "application/json", "prod-api.hingeaws.net",
      "Hinge/11668 CFNetwork/3860.400.22 Darwin/25.3.0", "co.hinge.mobile.ios", dev.appVersion, "11668",
      OrEmpty(dev.deviceId), "unknown", dev.deviceModel, "iOS", "US",
      OrEmpty(dev.installId), dev.osVersion ]
  }

  /** The Android header values, position by position with `AndroidHeaderNames`. */
  function AndroidHeaderValues(dev: Device): seq<string>
  {
    [ dev.appVersion, dev.osVersion, "34", dev.deviceModel, dev.deviceModel,
      "Google", "168200482", "android", OrEmpty(dev.installId), OrEmpty(dev.deviceId),
      "en-US", "US", "prod-api.hingeaws.net", "Keep-Alive", "gzip", "okhttp/4.12.0" ]
  }

  function IosHeaders(dev: Device): (h: Headers)
    ensures Keys(h) == IosHeaderNames
  {
    Zip(IosHeaderNames, IosHeaderValues(dev))
  }

  function AndroidHeaders(dev: Device): (h: Headers)
    ensures Keys(h) == AndroidHeaderNames
  {
    Zip(AndroidHeaderNames, AndroidHeaderValues(dev))
  }

  /** Exactly the platform string `"iOS"` selects the iOS set; any other selects Android's. */
  function PlatformHeaders(dev: Device): Headers
  {
    if dev.platform == "iOS" then IosHeaders(dev) else AndroidHeaders(dev)
  }

  function DeviceIdHeader(platform: string): string
  {
    if platform == "iOS" then "X-Device-Id" else "x-device-id"
  }

  function InstallIdHeader(platform: string): string
  {
    if platform == "iOS" then "X-Install-Id" else "x-install-id"
  }

  lemma IosHeadersLookup(dev: Device)
    ensures Get(IosHeaders(dev), "X-Device-Id") == Some(OrEmpty(dev.deviceId))
    ensures Get(IosHeaders(dev), "X-Install-Id") == Some(OrEmpty(dev.installId))
  {
    var ks, vs := IosHeaderNames, IosHeaderValues(dev);
    assert ks[10] == "X-Device-Id" && vs[10] == OrEmpty(dev.deviceId);
    assert ks[15] == "X-Install-Id" && vs[15] == OrEmpty(dev.installId);
    assert forall j :: 0 <= j < 15 ==> ks[j] != ks[15];
    ZipLookup(ks, vs, 10);
    ZipLookup(ks, vs, 15);
  }

  lemma AndroidHeadersLookup(dev: Device)
    ensures Get(AndroidHeaders(dev), "x-device-id") == Some(OrEmpty(dev.deviceId))
    ensures Get(AndroidHeaders(dev), "x-install-id") == Some(OrEmpty(dev.installId))
  {
    var ks, vs := AndroidHeaderNames, AndroidHeaderValues(dev);
    assert ks[8] == "x-install-id" && vs[8] == OrEmpty(dev.installId);
    assert ks[9] == "x-device-id" && vs[9] == OrEmpty(dev.deviceId);
    assert forall j :: 0 <= j < 9 ==> ks[j] != ks[9];
    ZipLookup(ks, vs, 8);
    ZipLookup(ks, vs, 9);
  }

  lemma PlatformHeadersWf(dev: Device)
    ensures Wf(PlatformHeaders(dev))
  {
    IosHeaderNamesDistinct();
    AndroidHeaderNamesDistinct();
  }

  lemma PlatformHeadersLack(dev: Device)
    ensures "Authorization" !in Keys(PlatformHeaders(dev))
    ensures "X-Session-Id" !in Keys(PlatformHeaders(dev))
  {
    assert "Authorization" !in IosHeaderNames && "Authorization" !in AndroidHeaderNames;
    assert "X-Session-Id" !in IosHeaderNames && "X-Session-Id" !in AndroidHeaderNames;
  }

  /** The bearer token and the session added to a set of headers, each when given. */
  function WithCredentials(h: Headers, authToken: Option<string>, sessionId: Option<string>): Headers
  {
    var h := if Given(authToken) then Put(h, "Authorization", "Bearer " + authToken.value) else h;
    if Given(sessionId) then Put(h, "X-Session-Id", sessionId.value) else h
  }

  /** The headers the constructor leaves in `default_headers`. */
  function DefaultHeaders(authToken: Option<string>, sessionId: Option<string>, dev: Device): Headers
  {
    WithCredentials(PlatformHeaders(dev), authToken, sessionId)
  }

  /** Adding the credentials keeps the existing headers first, in order and unchanged, and
      adds `Authorization` and `X-Session-Id` exactly when the token and the session are given. */
  lemma WithCredentialsFacts(p: Headers, authToken: Option<string>, sessionId: Option<string>)
    requires "Authorization" !in Keys(p) && "X-Session-Id" !in Keys(p)
    ensures var h := WithCredentials(p, authToken, sessionId);
      && |p| <= |h| && Keys(h)[..|p|] == Keys(p)
      && Get(h, "Authorization") == (if Given(authToken) then Some("Bearer " + authToken.value) else None)
      && Get(h, "X-Session-Id") == (if Given(sessionId) then Some(sessionId.value) else None)
  {
    var h1 := if Given(authToken) then Put(p, "Authorization", "Bearer " + authToken.value) else p;
    if Given(authToken) {
      PutKeepsOrder(p, "Authorization", "Bearer " + authToken.value);
    }
    assert |p| <= |h1| && Keys(h1)[..|p|] == Keys(p);
    var h2 := if Given(sessionId) then Put(h1, "X-Session-Id", sessionId.value) else h1;
    assert h2 == WithCredentials(p, authToken, sessionId);
    if Given(sessionId) {
      PutKeepsOrder(h1, "X-Session-Id", sessionId.value);
      PrefixTrans(Keys(p), Keys(h1), Keys(h2));
    }
  }

  /** Adding the credentials leaves every other header as it was. */
  lemma WithCredentialsKeeps(p: Headers, authToken: Option<string>, sessionId: Option<string>, k: string)
    requires k != "Authorization" && k != "X-Session-Id"
    ensures Get(WithCredentials(p, authToken, sessionId), k) == Get(p, k)
  {
  }

  lemma WithCredentialsWf(p: Headers, authToken: Option<string>, sessionId: Option<string>)
    requires Wf(p)
    ensures Wf(WithCredentials(p, authToken, sessionId))
  {
    var h1 := if Given(authToken) then Put(p, "Authorization", "Bearer " + authToken.value) else p;
    if Given(authToken) {
      PutWf(p, "Authorization", "Bearer " + authToken.value);
    }
    if Given(sessionId) {
      PutWf(h1, "X-Session-Id", sessionId.value);
    }
  }

  /** The default headers keep the platform set first and in order, and carry the bearer
      token and the session exactly when these are given. */
  lemma DefaultHeadersCredentials(authToken: Option<string>, sessionId: Option<string>, dev: Device)
    ensures Wf(DefaultHeaders(authToken, sessionId, dev))
    ensures |PlatformHeaders(dev)| <= |DefaultHeaders(authToken, sessionId, dev)|
    ensures Keys(DefaultHeaders(authToken, sessionId, dev))[..|PlatformHeaders(dev)|] == Keys(PlatformHeaders(dev))
    ensures Get(DefaultHeaders(authToken, sessionId, dev), "Authorization")
            == if Given(authToken) then Some("Bearer " + authToken.value) else None
    ensures Get(DefaultHeaders(authToken, sessionId, dev), "X-Session-Id")
            == if Given(sessionId) then Some(sessionId.value) else None
  {
    PlatformHeadersLack(dev);
    WithCredentialsFacts(PlatformHeaders(dev), authToken, sessionId);
    PlatformHeadersWf(dev);
    WithCredentialsWf(PlatformHeaders(dev), authToken, sessionId);
  }

  /** The default headers carry the device and install identifiers, empty when absent,
      under the platform's spelling of their names. */
  lemma DefaultHeadersDevice(authToken: Option<string>, sessionId: Option<string>, dev: Device)
    ensures Get(DefaultHeaders(authToken, sessionId, dev), DeviceIdHeader(dev.platform)) == Some(OrEmpty(dev.deviceId))
    ensures Get(DefaultHeaders(authToken, sessionId, dev), InstallIdHeader(dev.platform)) == Some(OrEmpty(dev.installId))
  {
    var p := PlatformHeaders(dev);
    WithCredentialsKeeps(p, authToken, sessionId, DeviceIdHeader(dev.platform));
    WithCredentialsKeeps(p, authToken, sessionId, InstallIdHeader(dev.platform));
    if dev.platform == "iOS" { IosHeadersLookup(dev); } else { AndroidHeadersLookup(dev); }
  }

  /** `headers.update(self.default_headers)`: the caller's headers, overridden by the defaults. */
  function MergeHeaders(caller: Headers, defaults: Headers): (r: Headers)
    requires Wf(defaults)
    ensures forall k :: Get(r, k) == if k in Keys(defaults) then Get(defaults, k) else Get(caller, k)
    ensures |caller| <= |r| && Keys(r)[..|caller|] == Keys(caller)
    ensures Wf(caller) ==> Wf(r)
  {
    Update(caller, defaults)
  }

  /** Keeps the header names that differ from `authorization` in every letter case. */
  predicate Disclosable(name: string)
  {
    Lower(name) != "authorization"
  }

  /** The request headers as reported in an error: every authorization header removed. */
  function Redact(h: Headers): (r: Headers)
    ensures forall k :: Get(r, k) == if Disclosable(k) then Get(h, k) else None
    ensures forall i :: 0 <= i < |r| ==> Disclosable(r[i].0)
    ensures forall p :: p in r <==> p in h && Disclosable(p.0)
    ensures Wf(h) ==> Wf(r)
  {
    FilterFacts(h, Disclosable);
    Filter(h, Disclosable)
  }

  /** `dict(headers)` as reported: each header under its name, holding its value. */
  function HeadersJson(h: Headers): (j: Json)
    ensures j.Obj? && Keys(j.fields) == Keys(h)
    ensures forall i :: 0 <= i < |h| ==> j.fields[i].1 == Str(h[i].1)
  {
    Obj(seq(|h|, i requires 0 <= i < |h| => (h[i].0, Str(h[i].1))))
  }

  /** Looking a name up in the reported headers gives the value it was sent with. */
  lemma HeadersJsonGet(h: Headers, k: string)
    ensures Get(HeadersJson(h).fields, k) ==
      if Get(h, k).Some? then Some(Str(Get(h, k).value)) else None
  {
    var j := HeadersJson(h).fields;
    if k in Keys(h) {
      var i := IndexOf(h, k);
      GetFirstEntry(h, i);
      forall n | 0 <= n < i ensures j[n].0 != j[i].0 {
        assert Keys(j)[n] == Keys(h)[n];
      }
      assert Keys(j)[i] == Keys(h)[i];
      GetFirstEntry(j, i);
    }
  }

  /** `json or data`: the body reported with the request. */
  function RequestBody(json: Json, data: Json): Json
  {
    if Truthy(json) then json else data
  }

  /** What was handed to the transport. */
  datatype Sent = Sent(verb: string, url: string, headers: Headers, params: Dict<string, string>, json: Json, data: Json)

  datatype Response = Response(status: int, text: string, body: Json)

  /** What the transport does with a request: a response, with the text `str(e)` that
      `raise_for_status` would give, or a transport exception of the named type. */
  datatype Transport = Delivered(response: Response, httpErrorText: string)
                     | Broken(exceptionType: string, errorText: string)

  /** `raise_for_status` raises for the client and server error ranges. */
  predicate IsHttpError(status: int)
  {
    400 <= status < 600
  }

  datatype Outcome = Returned(response: Response) | Raised(failure: Failure)

  /** The pair `(response, error)` that a call ended with stands for `o`. */
  ghost predicate Reports(response: Option<Response>, error: ApiError?, o: Outcome)
    reads error
  {
    match o
    case Returned(r) => response == Some(r) && error == null
    case Raised(f) => response.None? && error != null && error.View() == f
  }

  /** The details reported for an HTTP error. */
  function HttpErrorDetails(sent: Sent, r: Response): (d: Dict<string, Json>)
  {
    var d := RequestDetails(r.status, Some(r.text));
    var d := Put(d, "endpoint", Str(sent.url));
    var d := Put(d, "request_headers", HeadersJson(Redact(sent.headers)));
    Put(d, "request_body", RequestBody(sent.json, sent.data))
  }

  /** How `_request` ends for a transport outcome. */
  function Classify(sent: Sent, t: Transport, traceback: string): Outcome
  {
    match t
    case Delivered(r, text) =>
      if !IsHttpError(r.status) then Returned(r)
      else if r.status == 401 then
        Raised(Failure(AuthErrorKind, AuthPrefix + "Authentication failed", HttpErrorDetails(sent, r), traceback))
      else
        Raised(Failure(RequestErrorKind, RequestPrefix + text, HttpErrorDetails(sent, r), traceback))
    case Broken(ty, text) =>
      Raised(Failure(ApiErrorKind, "Request failed: " + text,
                     [("exception_type", Str(ty)), ("url", Str(sent.url)), ("method", Str(sent.verb))], traceback))
  }

  /** An HTTP error's details keep the five request-error keys in order; they name the
      endpoint, the status, the body sent, and the headers sent minus authorization. */
  lemma HttpErrorDetailsFacts(sent: Sent, r: Response)
    ensures var d := HttpErrorDetails(sent, r);
      && Wf(d)
      && Keys(d) == ["status_code", "response_body", "endpoint", "request_headers", "request_body"]
      && Get(d, "status_code") == Some(Int(r.status))
      && Get(d, "response_body") == Some(Str(if r.text != "" then r.text else NoResponseBody))
      && Get(d, "endpoint") == Some(Str(sent.url))
      && Get(d, "request_headers") == Some(HeadersJson(Redact(sent.headers)))
      && Get(d, "request_body") == Some(RequestBody(sent.json, sent.data))
  {
    RequestDetailsLookup(r.status, Some(r.text));
    var d0 := RequestDetails(r.status, Some(r.text));
    var d1 := Put(d0, "endpoint", Str(sent.url));
    PutWf(d0, "endpoint", Str(sent.url));
    var d2 := Put(d1, "request_headers", HeadersJson(Redact(sent.headers)));
    PutWf(d1, "request_headers", HeadersJson(Redact(sent.headers)));
    PutWf(d2, "request_body", RequestBody(sent.json, sent.data));
  }

  /** `_request` returns exactly the responses outside the error ranges, unchanged. */
  lemma ClassifyReturns(sent: Sent, t: Transport, traceback: string)
    ensures Classify(sent, t, traceback).Returned? <==> t.Delivered? && !IsHttpError(t.response.status)
    ensures Classify(sent, t, traceback).Returned? ==> Classify(sent, t, traceback).response == t.response
  {
  }

  /** A 401 is an authentication error with a fixed message, other error statuses are
      request errors carrying `str(e)`, and every error keeps the traceback. */
  lemma ClassifyHttpErrors(sent: Sent, r: Response, text: string, traceback: string)
    requires IsHttpError(r.status)
    ensures var f := Classify(sent, Delivered(r, text), traceback).failure;
      && f.traceback == traceback
      && f.details == HttpErrorDetails(sent, r)
      && (f.kind == AuthErrorKind <==> r.status == 401)
      && (f.kind == RequestErrorKind <==> r.status != 401)
      && (r.status == 401 ==> f.message == AuthPrefix + "Authentication failed")
      && (r.status != 401 ==> f.message == RequestPrefix + text)
  {
  }

  /** A transport failure is a plain API error naming the exception type, URL and verb. */
  lemma ClassifyBroken(sent: Sent, exceptionType: string, text: string, traceback: string)
    ensures var f := Classify(sent, Broken(exceptionType, text), traceback).failure;
      && f.kind == ApiErrorKind && f.traceback == traceback
      && f.message == "Request failed: " + text
      && Keys(f.details) == ["exception_type", "url", "method"]
      && f.details[0].1 == Str(exceptionType) && f.details[1].1 == Str(sent.url) && f.details[2].1 == Str(sent.verb)
  {
  }

  /** The constructor's header assembly: the platform set, then the bearer token and the
      session when given. */
  method BuildDefaultHeaders(authToken: Option<string>, sessionId: Option<string>, dev: Device)
    returns (h: Headers)
    ensures h == DefaultHeaders(authToken, sessionId, dev)
  {
    h := if dev.platform == "iOS" then IosHeaders(dev) else AndroidHeaders(dev);
    if Given(authToken) {
      h := Put(h, "Authorization", "Bearer " + authToken.value);
    }
    if Given(sessionId) {
      h := Put(h, "X-Session-Id", sessionId.value);
    }
  }

  class HingeClient {
    var authToken: Option<string>
    var sessionId: Option<string>
    var userId: Option<string>
    var defaultHeaders: Headers

    ghost predicate Valid()
      reads this
    {
      Wf(defaultHeaders)
    }

    constructor (authToken: Option<string>, appVersion: string, osVersion: string, deviceModel: string,
                 installId: Option<string>, deviceId: Option<string>, userId: Option<string>,
                 sessionId: Option<string>, platform: string)
      ensures this.authToken == authToken && this.sessionId == sessionId && this.userId == userId
      ensures defaultHeaders == DefaultHeaders(authToken, sessionId,
                                               Device(appVersion, osVersion, deviceModel, installId, deviceId, platform))
      ensures Valid()
    {
      var dev := Device(appVersion, osVersion, deviceModel, installId, deviceId, platform);
      var h := BuildDefaultHeaders(authToken, sessionId, dev);
      DefaultHeadersCredentials(authToken, sessionId, dev);
      this.authToken := authToken;
      this.sessionId := sessionId;
      this.userId := userId;
      defaultHeaders := h;
    }

    /** `_request`: sends the caller's headers overridden by the defaults and either returns
        the response or builds the error `Classify` names. */
    method Request(verb: string, url: string, headers: Headers, params: Dict<string, string>, json: Json, data: Json,
                   send: Sent -> Transport, traceback: string)
      returns (response: Option<Response>, error: ApiError?)
      requires Valid()
      ensures var sent := Sent(verb, url, MergeHeaders(headers, defaultHeaders), params, json, data);
        Reports(response, error, Classify(sent, send(sent), traceback))
      ensures error != null ==> fresh(error)
    {
      var merged := Update(headers, defaultHeaders);
      var sent := Sent(verb, url, merged, params, json, data);
      var t := send(sent);
      if t.Broken? {
        error := new ApiError.Base("Request failed: " + t.errorText,
                                   Some([("exception_type", Str(t.exceptionType)), ("url", Str(url)), ("method", Str(verb))]),
                                   traceback);
        response := None;
      } else if !IsHttpError(t.response.status) {
        response, error := Some(t.response), null;
      } else {
        var r := t.response;
        var e := new ApiError.Request(r.status, t.httpErrorText, Some(r.text), traceback);
        e.SetDetail("endpoint", Str(url));
        e.SetDetail("request_headers", HeadersJson(Redact(merged)));
        e.SetDetail("request_body", RequestBody(json, data));
        if r.status == 401 {
          error := new ApiError.Auth("Authentication failed", Some(e.details), traceback);
        } else {
          error := e;
        }
        response := None;
      }
    }
  }
}
