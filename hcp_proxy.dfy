/** The `hcp-proxy` edge function that web clients go through: it answers the CORS
    preflight, checks for the endpoint and the key, forwards the request to Housecall
    Pro with a bearer token, and relays or wraps the answer. The network is the
    `upstream` parameter. */
module HcpProxy {
  import opened Wrappers
  import opened Text
  import opened Http
  import HousecallProService

  const HCP_API_BASE: string := "https://api.housecallpro.com"

  const CORS_HEADERS: Headers := [
    ("Access-Control-Allow-Origin", "*"),
    ("Access-Control-Allow-Headers", "authorization, x-client-info, apikey, content-type, x-hcp-api-key"),
    ("Access-Control-Allow-Methods", "GET, POST, PATCH, DELETE, OPTIONS")]

  /** `{ ...corsHeaders, 'Content-Type': 'application/json' }`. */
  const JSON_HEADERS: Headers := CORS_HEADERS + [("Content-Type", "application/json")]

  const MISSING_ENDPOINT: string := "Missing endpoint parameter"
  const MISSING_KEY: string := "Missing HCP API key"
  const MULTIPART: string := "multipart/form-data"

  /** What the Housecall Pro API did with the forwarded request: it could not be
      reached (the error's message), or it replied with a status and a text, together
      with what `JSON.parse` makes of that text. */
  datatype Upstream = Unreachable(message: string) | Replied(status: int, text: string, parsed: Option<JsonFields>)

  /** A `Response` the proxy builds. */
  datatype Reply = Reply(status: int, headers: Headers, body: Body)

  /** One request through the proxy: what it forwarded, if anything, and its reply. */
  datatype Exchange = Exchange(forwarded: Option<Request>, reply: Reply)

  /** A reply whose body is `JSON.stringify` of an object. */
  function JsonReply(status: int, fields: JsonFields): Reply
  {
    Reply(status, JSON_HEADERS, JsonObject(fields))
  }

  /** `req.headers.get('content-type') || ''`. */
  function ContentType(req: Request): string
  {
    OrElse(HeaderGet(req.headers, "content-type"), "")
  }

  /** `contentType.includes('multipart/form-data')`. */
  predicate IsFileUpload(req: Request)
  {
    Contains(ContentType(req), MULTIPART)
  }

  /** Whether `await req.text()` is non-empty: a text body that is not empty, or a
      multipart form, whose text always holds at least its boundary. */
  predicate HasText(body: RequestBody)
  {
    (body.TextBody? && body.text != "") || body.FormData?
  }

  predicate ForwardsBody(httpMethod: string)
  {
    httpMethod == "POST" || httpMethod == "PATCH"
  }

  /** The request sent to Housecall Pro for `endpoint` with key `key`. */
  function ForwardRequest(req: Request, key: string, endpoint: string): Request
  {
    var upload := IsFileUpload(req);
    Request(HCP_API_BASE + endpoint, req.httpMethod,
      [("Authorization", "Bearer " + key), ("Content-Type", if upload then ContentType(req) else "application/json")],
      if !ForwardsBody(req.httpMethod) then NoBody
      else if upload || HasText(req.body) then req.body
      else NoBody)
  }

  /** The steps that fill `hcpHeaders` and `hcpRequestInit`. */
  method BuildForward(req: Request, key: string, endpoint: string) returns (fwd: Request)
    ensures fwd == ForwardRequest(req, key, endpoint)
  {
    var hcpUrl := HCP_API_BASE + endpoint;
    var contentType := ContentType(req);
    var isFileUpload := Contains(contentType, MULTIPART);
    var hcpHeaders: Headers := [("Authorization", "Bearer " + key)];
    if !isFileUpload {
      hcpHeaders := hcpHeaders + [("Content-Type", "application/json")];
    } else {
      hcpHeaders := hcpHeaders + [("Content-Type", contentType)];
    }
    var body := NoBody;
    if req.httpMethod == "POST" || req.httpMethod == "PATCH" {
      if isFileUpload {
        body := req.body;
      } else if HasText(req.body) {
        body := req.body;
      }
    }
    fwd := Request(hcpUrl, req.httpMethod, hcpHeaders, body);
  }

  /** The forwarded request goes to the API base followed by the endpoint, with the same
      method, the key as a bearer token and no `x-hcp-api-key`; its Content-Type is the
      original one for a multipart upload and JSON otherwise. A body goes along only for
      POST and PATCH: an upload's raw body always, otherwise only a non-empty text, and
      then unchanged. */
  lemma ForwardRequestMeaning(req: Request, key: string, endpoint: string)
    ensures var fwd := ForwardRequest(req, key, endpoint);
      fwd.url == HCP_API_BASE + endpoint && fwd.httpMethod == req.httpMethod &&
      HeaderGet(fwd.headers, "authorization") == Some("Bearer " + key) &&
      HeaderGet(fwd.headers, "content-type") == Some(if IsFileUpload(req) then ContentType(req) else "application/json") &&
      HeaderGet(fwd.headers, "x-hcp-api-key").None?
    ensures var fwd := ForwardRequest(req, key, endpoint);
      (fwd.body != NoBody <==>
        ForwardsBody(req.httpMethod) && (if IsFileUpload(req) then req.body != NoBody else HasText(req.body))) &&
      (fwd.body != NoBody ==> fwd.body == req.body)
  {
    HeaderNamesCompare();
    var auth := ("Authorization", "Bearer " + key);
    var ct := ("Content-Type", if IsFileUpload(req) then ContentType(req) else "application/json");
    assert ForwardRequest(req, key, endpoint).headers == [auth, ct];
    HeaderGetTwo(auth, ct, "authorization");
    HeaderGetTwo(auth, ct, "content-type");
    HeaderGetTwo(auth, ct, "x-hcp-api-key");
  }

  /** A null body status of the Fetch standard: a `Response` with one cannot have a body. */
  predicate NullBodyStatus(status: int)
  {
    status == 101 || status == 103 || status == 204 || status == 205 || status == 304
  }

  /** Whether `new Response(body, { status })` with a body accepts the status: it is in
      200..599 and not a null body status. */
  predicate Constructible(status: int)
  {
    200 <= status <= 599 && !NullBodyStatus(status)
  }

  const NULL_BODY_STATUS_ERROR: string := "Response with null body status cannot have body"

  /** The message of the error the `Response` constructor throws for a status it does not
      accept: the range is checked before the body. */
  function ConstructionError(status: int): (m: string)
    ensures !(200 <= status <= 599) ==> m == "The status provided (" + IntToString(status) + ") is outside the range [200, 599]."
    ensures 200 <= status <= 599 ==> m == NULL_BODY_STATUS_ERROR
    ensures m != ""
  {
    if !(200 <= status <= 599) then "The status provided (" + IntToString(status) + ") is outside the range [200, 599]."
    else NULL_BODY_STATUS_ERROR
  }

  /** How the answer of Housecall Pro becomes the proxy's reply. Both replies built from
      an answer reuse its status, so one the constructor refuses throws, and the catch
      turns that into a 500 reply with the constructor's message. */
  function Relay(hcpUrl: string, u: Upstream): (r: Reply)
    ensures r.headers == JSON_HEADERS
    ensures r.status == if u.Unreachable? || !Constructible(u.status) then 500 else u.status
    ensures u.Unreachable? ==> r.body == JsonObject(NO_FIELDS.(error := Some(u.message)))
    ensures u.Replied? && !Constructible(u.status) ==>
      r.body == JsonObject(NO_FIELDS.(error := Some(ConstructionError(u.status))))
    ensures u.Replied? && Constructible(u.status) && !(200 <= u.status <= 299) ==>
      r.body == JsonObject(NO_FIELDS.(error := Some("HCP API Error: " + IntToString(u.status)),
                                      details := Some(u.text), url := Some(hcpUrl)))
    ensures u.Replied? && Constructible(u.status) && 200 <= u.status <= 299 ==> r.body == Text(u.text, u.parsed)
  {
    match u
    case Unreachable(message) => JsonReply(500, NO_FIELDS.(error := Some(message)))
    case Replied(status, text, parsed) =>
      if !Constructible(status) then JsonReply(500, NO_FIELDS.(error := Some(ConstructionError(status))))
      else if !(200 <= status <= 299) then
        JsonReply(status, NO_FIELDS.(error := Some("HCP API Error: " + IntToString(status)),
                                     details := Some(text), url := Some(hcpUrl)))
      else Reply(status, JSON_HEADERS, Text(text, parsed))
  }

  /** An empty ok answer such as 204 No Content does not reach the client as such: it
      becomes a 500 with the constructor's error. */
  lemma NoContentBecomesError(hcpUrl: string, status: int, text: string, parsed: Option<JsonFields>)
    requires status == 204 || status == 205
    ensures Relay(hcpUrl, Replied(status, text, parsed)) ==
      JsonReply(500, NO_FIELDS.(error := Some(NULL_BODY_STATUS_ERROR)))
  {
  }

  /** The handler: the preflight, the two checks in their order, then the forward. */
  function Handle(req: Request, upstream: Request -> Upstream): (ex: Exchange)
    ensures req.httpMethod == "OPTIONS" ==> ex == Exchange(None, Reply(200, CORS_HEADERS, Text("ok", None)))
    ensures var endpoint := QueryGet(QueryOf(req.url), "endpoint");
      req.httpMethod != "OPTIONS" && !Truthy(endpoint) ==>
        ex == Exchange(None, JsonReply(400, NO_FIELDS.(error := Some(MISSING_ENDPOINT))))
    ensures var endpoint := QueryGet(QueryOf(req.url), "endpoint");
      var key := HeaderGet(req.headers, "x-hcp-api-key");
      req.httpMethod != "OPTIONS" && Truthy(endpoint) && !Truthy(key) ==>
        ex == Exchange(None, JsonReply(401, NO_FIELDS.(error := Some(MISSING_KEY))))
    ensures var endpoint := QueryGet(QueryOf(req.url), "endpoint");
      var key := HeaderGet(req.headers, "x-hcp-api-key");
      ex.forwarded.Some? <==> req.httpMethod != "OPTIONS" && Truthy(endpoint) && Truthy(key)
    ensures var endpoint := QueryGet(QueryOf(req.url), "endpoint");
      var key := HeaderGet(req.headers, "x-hcp-api-key");
      ex.forwarded.Some? ==>
        ex.forwarded.value == ForwardRequest(req, key.value, endpoint.value) &&
        ex.reply == Relay(HCP_API_BASE + endpoint.value, upstream(ex.forwarded.value))
  {
    if req.httpMethod == "OPTIONS" then Exchange(None, Reply(200, CORS_HEADERS, Text("ok", None)))
    else
      var endpoint := QueryGet(QueryOf(req.url), "endpoint");
      if !Truthy(endpoint) then Exchange(None, JsonReply(400, NO_FIELDS.(error := Some(MISSING_ENDPOINT))))
      else
        var key := HeaderGet(req.headers, "x-hcp-api-key");
        if !Truthy(key) then Exchange(None, JsonReply(401, NO_FIELDS.(error := Some(MISSING_KEY))))
        else
          var fwd := ForwardRequest(req, key.value, endpoint.value);
          Exchange(Some(fwd), Relay(fwd.url, upstream(fwd)))
  }

  lemma OriginName()
    ensures SameName("Access-Control-Allow-Origin", "access-control-allow-origin")
  {
    var origin := "Access-Control-Allow-Origin";
    forall i | 0 <= i < |origin|
      ensures LowerChar(origin[i]) == LowerChar("access-control-allow-origin"[i])
    {
    }
  }

  /** Both header sets allow any origin; the JSON set declares JSON. */
  lemma HeaderSets()
    ensures HeaderGet(CORS_HEADERS, "access-control-allow-origin") == Some("*")
    ensures HeaderGet(JSON_HEADERS, "access-control-allow-origin") == Some("*")
    ensures HeaderGet(JSON_HEADERS, "content-type") == Some("application/json")
  {
    OriginName();
    assert JSON_HEADERS[0] == CORS_HEADERS[0];
    var h1 := JSON_HEADERS[1..];
    var h2 := h1[1..];
    var h3 := h2[1..];
    HeaderGetSkip(JSON_HEADERS, "content-type");
    HeaderGetSkip(h1, "content-type");
    HeaderGetSkip(h2, "content-type");
    assert h3 == [("Content-Type", "application/json")];
    HeaderNamesCompare();
  }

  /** Every reply allows any origin; every reply but the preflight's is declared JSON. */
  lemma RepliesCarryCors(req: Request, upstream: Request -> Upstream)
    ensures HeaderGet(Handle(req, upstream).reply.headers, "access-control-allow-origin") == Some("*")
    ensures req.httpMethod != "OPTIONS" ==>
      HeaderGet(Handle(req, upstream).reply.headers, "content-type") == Some("application/json")
  {
    HeaderSets();
    var r := Handle(req, upstream).reply;
    assert r.headers == CORS_HEADERS || r.headers == JSON_HEADERS;
    assert req.httpMethod != "OPTIONS" ==> r.headers == JSON_HEADERS;
  }

  /** A request that passes both checks is forwarded as `ForwardRequest` builds it. */
  lemma HandleForwards(req: Request, upstream: Request -> Upstream, endpoint: string, key: string)
    requires req.httpMethod != "OPTIONS"
    requires QueryGet(QueryOf(req.url), "endpoint") == Some(endpoint) && endpoint != ""
    requires HeaderGet(req.headers, "x-hcp-api-key") == Some(key) && key != ""
    ensures Handle(req, upstream).forwarded == Some(ForwardRequest(req, key, endpoint))
  {
  }

  /** A status the proxy chose itself is 200 for the preflight, 400 or 401 for a failed
      check and 500 for an unreachable API or a status the `Response` constructor
      refuses; any other status is Housecall Pro's own. */
  lemma ReplyStatus(req: Request, upstream: Request -> Upstream)
    ensures var ex := Handle(req, upstream);
      ex.forwarded.None? ==> ex.reply.status in {200, 400, 401}
    ensures var ex := Handle(req, upstream);
      ex.forwarded.Some? ==>
        ex.reply.status == (match upstream(ex.forwarded.value)
                            case Unreachable(_) => 500
                            case Replied(s, _, _) => if Constructible(s) then s else 500)
  {
  }

  // ---------------------------------------------------------------- with the web client

  /** The client sees the status and body of a reply; a `Response` built by the proxy
      has an empty status text. */
  function AsResponse(r: Reply): Response
  {
    Response(r.status, "", r.body)
  }

  lemma ShorterContentType()
    ensures !Contains("application/json", MULTIPART)
  {
    ShorterNotContains("application/json", MULTIPART);
  }

  /** A web call of `hcpFetch` with an ASCII endpoint reaches Housecall Pro as exactly the
      request a native call sends, provided its method is not OPTIONS and any body is a
      non-empty one sent with POST or PATCH (otherwise the proxy drops it). */
  lemma WebCallForwardedAsNative(supabaseUrl: string, key: string, endpoint: string,
                                 options: HousecallProService.FetchOptions, upstream: Request -> Upstream)
    requires '?' !in supabaseUrl && '#' !in supabaseUrl
    requires key != "" && endpoint != "" && IsAscii(endpoint)
    requires options.httpMethod != Some("OPTIONS")
    requires options.body.Some? ==>
      options.httpMethod.Some? && ForwardsBody(options.httpMethod.value) && options.body.value != ""
    ensures Handle(HousecallProService.BuildRequest(Web, supabaseUrl, key, endpoint, options), upstream).forwarded ==
      Some(HousecallProService.BuildRequest(Native, supabaseUrl, key, endpoint, options))
  {
    var req := HousecallProService.BuildRequest(Web, supabaseUrl, key, endpoint, options);
    var native := HousecallProService.BuildRequest(Native, supabaseUrl, key, endpoint, options);
    HousecallProService.ProxyUrlCarriesEndpoint(supabaseUrl, endpoint);
    HousecallProService.KeyHeaders(Web, supabaseUrl, key, endpoint, options);
    HandleForwards(req, upstream, endpoint, key);
    assert ContentType(req) == "application/json";
    ShorterContentType();
    var fwd := ForwardRequest(req, key, endpoint);
    assert fwd.headers == native.headers;
    assert fwd.body == native.body;
  }

  /** An API error reaches the web client as the API's error text itself, or, when that
      is empty, as `HCP API Error: <status>` — never as the parsed `details` or `message`
      a native call would report; the two agree on a non-empty text that is not JSON. */
  lemma WebErrorViaProxy<T>(hcpUrl: string, status: int, text: string, parsed: Option<JsonFields>, statusText: string, json: HousecallProService.JsonOutcome<T>)
    requires !(200 <= status <= 299)
    ensures Constructible(status) ==>
      HousecallProService.FetchAnswer(HousecallProService.Answered(AsResponse(Relay(hcpUrl, Replied(status, text, parsed))), json)) ==
      Err(if text != "" then text else "HCP API Error: " + IntToString(status))
    ensures !Constructible(status) ==>
      HousecallProService.FetchAnswer(HousecallProService.Answered(AsResponse(Relay(hcpUrl, Replied(status, text, parsed))), json)) ==
      Err(ConstructionError(status))
    ensures text != "" && parsed.None? ==>
      HousecallProService.FetchAnswer(HousecallProService.Answered(Response(status, statusText, Text(text, parsed)), json)) ==
      Err(text)
  {
  }

  /** When the API cannot be reached, the web client reports the same message a native
      call's failed `fetch` does, unless that message is empty. */
  lemma UnreachableViaProxy<T>(hcpUrl: string, message: string, json: HousecallProService.JsonOutcome<T>)
    ensures HousecallProService.FetchAnswer(HousecallProService.Answered(AsResponse(Relay(hcpUrl, Unreachable(message))), json)) ==
      Err(if message != "" then message else HttpStatusMessage(500, ""))
    ensures message != "" ==>
      HousecallProService.FetchAnswer<T>(HousecallProService.Threw(message)) == Err(message)
  {
  }

  /** The headers of a multipart form body as the browser sends it: with the
      Content-Type and boundary it adds itself. */
  function WithMultipartType(h: Headers, boundary: string): Headers
  {
    h + [("Content-Type", MULTIPART + "; boundary=" + boundary)]
  }

  lemma AttachmentsEndpointIsAscii(jobId: string)
    requires IsAscii(jobId)
    ensures IsAscii("/jobs/" + jobId + "/attachments") && "/jobs/" + jobId + "/attachments" != ""
  {
    var e := "/jobs/" + jobId + "/attachments";
    forall i | 0 <= i < |e|
      ensures e[i] as int < 128
    {
      if i < 6 {
        assert e[i] == "/jobs/"[i];
      } else if i < 6 + |jobId| {
        assert e[i] == jobId[i - 6];
      } else {
        assert e[i] == "/attachments"[i - 6 - |jobId|];
      }
    }
  }

  /** The upload as the proxy receives it from the browser. */
  function DeliveredUpload(supabaseUrl: string, key: string, jobId: string, fileName: string, mimeType: string,
                           boundary: string): Request
  {
    var sent := HousecallProService.UploadRequest(Web, supabaseUrl, key, jobId, fileName, mimeType);
    sent.(headers := WithMultipartType(sent.headers, boundary))
  }

  lemma DeliveredUploadShape(supabaseUrl: string, key: string, jobId: string, fileName: string, mimeType: string,
                             boundary: string)
    ensures var req := DeliveredUpload(supabaseUrl, key, jobId, fileName, mimeType, boundary);
      req.url == HousecallProService.ProxyEndpointUrl(supabaseUrl, "/jobs/" + jobId + "/attachments") &&
      req.httpMethod == "POST" && req.body == FormData(fileName, None) &&
      req.headers == [("x-hcp-api-key", key), ("Content-Type", MULTIPART + "; boundary=" + boundary)]
  {
  }

  /** The forward of a multipart POST whose key and Content-Type are read. */
  lemma UploadForward(req: Request, key: string, ct: string, endpoint: string)
    requires req.httpMethod == "POST" && req.headers == [("x-hcp-api-key", key), ("Content-Type", ct)]
    requires MULTIPART <= ct
    ensures ForwardRequest(req, key, endpoint) ==
      Request(HCP_API_BASE + endpoint, "POST", [("Authorization", "Bearer " + key), ("Content-Type", ct)], req.body)
  {
    UploadHeaders(key, ct);
    assert Contains(ct, MULTIPART);
  }

  /** A web attachment upload reaches Housecall Pro as a POST of the same form to
      `/jobs/<jobId>/attachments` with a bearer token and the browser's multipart
      Content-Type; unlike a native upload, the file carries no type of its own. */
  lemma WebUploadForwarded(supabaseUrl: string, key: string, jobId: string, fileName: string, mimeType: string,
                           boundary: string, upstream: Request -> Upstream)
    requires '?' !in supabaseUrl && '#' !in supabaseUrl
    requires key != "" && IsAscii(jobId)
    ensures Handle(DeliveredUpload(supabaseUrl, key, jobId, fileName, mimeType, boundary), upstream).forwarded ==
      Some(Request(HCP_API_BASE + ("/jobs/" + jobId + "/attachments"), "POST",
        [("Authorization", "Bearer " + key), ("Content-Type", MULTIPART + "; boundary=" + boundary)],
        FormData(fileName, None)))
  {
    var endpoint := "/jobs/" + jobId + "/attachments";
    var ct := MULTIPART + "; boundary=" + boundary;
    var req := DeliveredUpload(supabaseUrl, key, jobId, fileName, mimeType, boundary);
    DeliveredUploadShape(supabaseUrl, key, jobId, fileName, mimeType, boundary);
    AttachmentsEndpointIsAscii(jobId);
    HousecallProService.ProxyUrlCarriesEndpoint(supabaseUrl, endpoint);
    UploadHeaders(key, ct);
    HandleForwards(req, upstream, endpoint, key);
    MultipartPrefix(boundary);
    UploadForward(req, key, ct, endpoint);
  }

  lemma MultipartPrefix(boundary: string)
    ensures MULTIPART <= MULTIPART + "; boundary=" + boundary
  {
    assert MULTIPART + "; boundary=" + boundary == MULTIPART + ("; boundary=" + boundary);
  }

  lemma UploadHeaders(key: string, ct: string)
    ensures HeaderGet([("x-hcp-api-key", key), ("Content-Type", ct)], "x-hcp-api-key") == Some(key)
    ensures HeaderGet([("x-hcp-api-key", key), ("Content-Type", ct)], "content-type") == Some(ct)
  {
    HeaderNamesCompare();
    HeaderGetTwo(("x-hcp-api-key", key), ("Content-Type", ct), "x-hcp-api-key");
    HeaderGetTwo(("x-hcp-api-key", key), ("Content-Type", ct), "content-type");
  }

  /** A failed web upload reports the API's error text, or `HTTP <status>: ` when it is
      empty: the proxy's `error` field is not read. */
  lemma WebUploadErrorViaProxy(hcpUrl: string, status: int, text: string, parsed: Option<JsonFields>)
    requires !(200 <= status <= 299)
    ensures var r := AsResponse(Relay(hcpUrl, Replied(status, text, parsed)));
      Constructible(status) ==>
      HousecallProService.UploadErrorWeb(ErrorFields(r.body), r.status, r.statusText) ==
      if text != "" then text else HttpStatusMessage(status, "")
    ensures var r := AsResponse(Relay(hcpUrl, Replied(status, text, parsed)));
      !Constructible(status) ==>
      HousecallProService.UploadErrorWeb(ErrorFields(r.body), r.status, r.statusText) == HttpStatusMessage(500, "")
  {
  }
}
