/** The Housecall Pro client: the stored API key, the request `hcpFetch` sends on each
    platform, the error message it picks, the job-list query, the connection test and
    the attachment upload. The network is the `fetch` parameter. */
module HousecallProService {
  import opened Wrappers
  import opened Text
  import opened Http

  const HCP_API_BASE: string := "https://api.housecallpro.com"
  const NOT_CONFIGURED: string := "Housecall Pro API key not configured"

  /** `HCP_PROXY_URL`. */
  function ProxyUrl(supabaseUrl: string): string { supabaseUrl + "/functions/v1/hcp-proxy" }

  /** The proxy URL carrying `endpoint` as its encoded `endpoint` query parameter. */
  function ProxyEndpointUrl(supabaseUrl: string, endpoint: string): string
  {
    ProxyUrl(supabaseUrl) + "?endpoint=" + EncodeUriComponent(endpoint)
  }

  // ---------------------------------------------------------------- the stored key

  /** The `api_key` column of the company's active `housecall_pro` integration row. */
  datatype IntegrationRow = IntegrationRow(apiKey: Option<string>)

  /** `getApiKey`: nothing when the lookup fails or finds no row, else the stored key,
      which may itself be null. */
  function GetApiKey(response: DbResponse<IntegrationRow>): (key: Option<string>)
    ensures response.error.Some? || response.data.None? ==> key.None?
    ensures response.error.None? && response.data.Some? ==> key == response.data.value.apiKey
  {
    if response.error.Some? || response.data.None? then None else response.data.value.apiKey
  }

  /** `isConnected`: `!!apiKey`. */
  predicate IsConnected(response: DbResponse<IntegrationRow>)
  {
    Truthy(GetApiKey(response))
  }

  lemma IsConnectedExactly(response: DbResponse<IntegrationRow>)
    ensures IsConnected(response) <==>
      response.error.None? && response.data.Some? && response.data.value.apiKey.Some?
      && response.data.value.apiKey.value != ""
  {
  }

  // ---------------------------------------------------------------- the request

  /** The `RequestInit` callers pass on: a method and a text body. No caller passes
      headers. */
  datatype FetchOptions = FetchOptions(httpMethod: Option<string>, body: Option<string>)

  const NO_OPTIONS: FetchOptions := FetchOptions(None, None)

  /** The request `hcpFetch` sends with the key `key`: on web to the proxy, with the
      endpoint as the encoded `endpoint` query parameter and the key in `x-hcp-api-key`;
      on native straight to the API with a bearer token. `fetch` defaults to GET. */
  function BuildRequest(platform: Platform, supabaseUrl: string, key: string, endpoint: string, options: FetchOptions): (req: Request)
    ensures req.httpMethod == (if options.httpMethod.Some? then options.httpMethod.value else "GET")
    ensures req.body == (if options.body.Some? then TextBody(options.body.value) else NoBody)
    ensures platform == Web ==> req.url == ProxyEndpointUrl(supabaseUrl, endpoint)
  {
    var m := if options.httpMethod.Some? then options.httpMethod.value else "GET";
    var body := if options.body.Some? then TextBody(options.body.value) else NoBody;
    match platform
    case Web =>
      Request(ProxyEndpointUrl(supabaseUrl, endpoint), m,
        [("x-hcp-api-key", key), ("Content-Type", "application/json")], body)
    case Native =>
      Request(HCP_API_BASE + endpoint, m,
        [("Authorization", "Bearer " + key), ("Content-Type", "application/json")], body)
  }

  /** Where the key travels: only in `x-hcp-api-key` on web, only as a bearer token on
      native; the body is declared as JSON on both. */
  lemma KeyHeaders(platform: Platform, supabaseUrl: string, key: string, endpoint: string, options: FetchOptions)
    ensures var h := BuildRequest(platform, supabaseUrl, key, endpoint, options).headers;
      HeaderGet(h, "content-type") == Some("application/json") &&
      (platform == Web ==> HeaderGet(h, "x-hcp-api-key") == Some(key) && HeaderGet(h, "authorization").None?) &&
      (platform == Native ==> HeaderGet(h, "authorization") == Some("Bearer " + key) && HeaderGet(h, "x-hcp-api-key").None?)
  {
    HeaderNamesCompare();
    var h := BuildRequest(platform, supabaseUrl, key, endpoint, options).headers;
    var first := if platform == Web then ("x-hcp-api-key", key) else ("Authorization", "Bearer " + key);
    var json := ("Content-Type", "application/json");
    assert h == [first, json];
    HeaderGetTwo(first, json, "content-type");
    HeaderGetTwo(first, json, "x-hcp-api-key");
    HeaderGetTwo(first, json, "authorization");
  }

  /** Native requests go to the API base followed by the endpoint. */
  lemma NativeUrl(supabaseUrl: string, key: string, endpoint: string, options: FetchOptions)
    ensures BuildRequest(Native, supabaseUrl, key, endpoint, options).url == HCP_API_BASE + endpoint
  {
  }

  /** The proxy reads back the endpoint from the query: for an ASCII endpoint,
      `searchParams.get('endpoint')` of the proxy URL is the endpoint itself. */
  lemma ProxyUrlCarriesEndpoint(supabaseUrl: string, endpoint: string)
    requires '?' !in supabaseUrl && '#' !in supabaseUrl
    requires IsAscii(endpoint)
    ensures QueryGet(QueryOf(ProxyEndpointUrl(supabaseUrl, endpoint)), "endpoint") == Some(endpoint)
  {
    var encoded := EncodeUriComponent(endpoint);
    var base := ProxyUrl(supabaseUrl);
    ProxyUrlHasNoQuery(supabaseUrl);
    EncodedIsPlain(endpoint);
    EndpointNameIsPlain();
    assert ProxyEndpointUrl(supabaseUrl, endpoint) == base + "?" + "endpoint" + "=" + encoded;
    QueryGetSingle(base, "endpoint", encoded);
    FormDecodeOfEncodeUriComponent(endpoint);
  }

  lemma ProxyUrlHasNoQuery(supabaseUrl: string)
    requires '?' !in supabaseUrl && '#' !in supabaseUrl
    ensures '?' !in ProxyUrl(supabaseUrl) && '#' !in ProxyUrl(supabaseUrl)
  {
    assert '?' !in "/functions/v1/hcp-proxy" && '#' !in "/functions/v1/hcp-proxy";
  }

  lemma EndpointNameIsPlain()
    ensures '&' !in "endpoint" && '=' !in "endpoint" && '#' !in "endpoint" && '%' !in "endpoint" && '+' !in "endpoint"
  {
  }

  /** `encodeURIComponent` leaves no `&`, `=`, `?` or `#`. */
  lemma EncodedIsPlain(s: string)
    ensures var e := EncodeUriComponent(s); '&' !in e && '=' !in e && '#' !in e && '?' !in e && IsAscii(e)
  {
    var e := EncodeUriComponent(s);
    forall i | 0 <= i < |e|
      ensures e[i] != '&' && e[i] != '=' && e[i] != '#' && e[i] != '?' && e[i] as int < 128
    {
      assert UriUnreserved(e[i]) || e[i] == '%' || IsUpperHex(e[i]);
    }
  }

  // ---------------------------------------------------------------- the answer

  /** What `response.json()` did with an ok answer's body: it gave a value, or it threw
      (the body was not JSON) with a message. */
  datatype JsonOutcome<T> = Parsed(value: T) | NotJson(message: string)

  /** What `fetch` did: it threw, or it answered; `json` is what reading an ok answer's
      body as JSON does (an error answer's body is read through `body` instead). */
  datatype FetchOutcome<T> = Threw(message: string) | Answered(response: Response, json: JsonOutcome<T>)

  /** The error chain of `hcpFetch`: `details`, `message`, `error`, `raw`, then the
      status line. */
  function FetchErrorMessage(f: JsonFields, status: int, statusText: string): (m: string)
    ensures Truthy(f.details) ==> m == f.details.value
    ensures !Truthy(f.details) && Truthy(f.message) ==> m == f.message.value
    ensures !Truthy(f.details) && !Truthy(f.message) && Truthy(f.error) ==> m == f.error.value
    ensures !Truthy(f.details) && !Truthy(f.message) && !Truthy(f.error) && Truthy(f.raw) ==> m == f.raw.value
    ensures !Truthy(f.details) && !Truthy(f.message) && !Truthy(f.error) && !Truthy(f.raw) ==>
      m == HttpStatusMessage(status, statusText)
    ensures m != ""
  {
    OrElse(f.details, OrElse(f.message, OrElse(f.error, OrElse(f.raw, HttpStatusMessage(status, statusText)))))
  }

  /** An error body that is not JSON is reported as its own text, or as the status line
      when it is empty. */
  lemma NonJsonErrorIsText(text: string, status: int, statusText: string)
    ensures FetchErrorMessage(ErrorFields(Text(text, None)), status, statusText) ==
      if text != "" then text else HttpStatusMessage(status, statusText)
  {
  }

  /** An ok answer's result: its JSON value, or the parse error's message. */
  function OkBody<T>(json: JsonOutcome<T>): (r: ApiResponse<T>)
    ensures json.Parsed? <==> r.error.None?
    ensures json.Parsed? ==> r.data == Some(json.value)
    ensures json.NotJson? ==> r.data.None? && r.error == Some(json.message)
  {
    match json
    case Parsed(value) => Ok(value)
    case NotJson(message) => Err(message)
  }

  /** How `hcpFetch` turns what `fetch` did into its result. */
  function FetchAnswer<T>(outcome: FetchOutcome<T>): (r: ApiResponse<T>)
    ensures outcome.Threw? ==> r == Err(outcome.message)
    ensures outcome.Answered? && IsOk(outcome.response) && outcome.json.Parsed? ==> r == Ok(outcome.json.value)
    ensures outcome.Answered? && IsOk(outcome.response) && outcome.json.NotJson? ==> r == Err(outcome.json.message)
    ensures outcome.Answered? && !IsOk(outcome.response) ==>
      r == Err(FetchErrorMessage(ErrorFields(outcome.response.body), outcome.response.status, outcome.response.statusText))
  {
    match outcome
    case Threw(message) => Err(message)
    case Answered(response, json) =>
      if IsOk(response) then OkBody(json)
      else Err(FetchErrorMessage(ErrorFields(response.body), response.status, response.statusText))
  }

  /** A call to the API: the request it sent, if any, and its result. */
  datatype Call<T> = Call(sent: Option<Request>, result: ApiResponse<T>)

  /** `hcpFetch`: without a truthy key nothing is sent; otherwise the platform's request
      is sent and its answer read. */
  function HcpFetch<T>(platform: Platform, supabaseUrl: string, key: Option<string>, endpoint: string,
                       options: FetchOptions, fetch: Request -> FetchOutcome<T>): (c: Call<T>)
    ensures !Truthy(key) ==> c == Call(None, Err(NOT_CONFIGURED))
    ensures Truthy(key) ==> c.sent == Some(BuildRequest(platform, supabaseUrl, key.value, endpoint, options))
    ensures Truthy(key) ==> c.result == FetchAnswer(fetch(c.sent.value))
  {
    if !Truthy(key) then Call(None, Err(NOT_CONFIGURED))
    else
      var req := BuildRequest(platform, supabaseUrl, key.value, endpoint, options);
      Call(Some(req), FetchAnswer(fetch(req)))
  }

  /** A call always ends with exactly one of data and error: an answered request has no
      error exactly when the answer was ok and its body parsed; an error from an answer
      that was not ok is never empty, and an ok body that did not parse gives the parse
      error. */
  lemma HcpFetchErrors<T>(platform: Platform, supabaseUrl: string, key: Option<string>, endpoint: string,
                          options: FetchOptions, fetch: Request -> FetchOutcome<T>)
    ensures var c := HcpFetch(platform, supabaseUrl, key, endpoint, options, fetch);
      c.sent.None? <==> !Truthy(key)
    ensures var c := HcpFetch(platform, supabaseUrl, key, endpoint, options, fetch);
      c.sent.Some? && fetch(c.sent.value).Answered? ==>
        var o := fetch(c.sent.value);
        (c.result.error.None? <==> IsOk(o.response) && o.json.Parsed?) &&
        (c.result.error.Some? ==> c.result.data.None?) &&
        (!IsOk(o.response) ==> c.result.error.Some? && c.result.error.value != "") &&
        (IsOk(o.response) && o.json.NotJson? ==> c.result.error == Some(o.json.message))
  {
  }

  // ---------------------------------------------------------------- jobs

  /** The filters `getJobs` accepts. */
  datatype JobsOptions = JobsOptions(
    workStatus: Option<string>,
    page: Option<int>,
    pageSize: Option<int>,
    scheduledStartMin: Option<string>,
    scheduledStartMax: Option<string>)

  const NO_FILTERS: JobsOptions := JobsOptions(None, None, None, None, None)

  /** The query parameters `getJobs` may send. */
  datatype JobParam = Page | PageSize | WorkStatus | ScheduledStartMin | ScheduledStartMax

  /** The order in which `getJobs` appends them. */
  function Rank(p: JobParam): nat
  {
    match p
    case Page => 0
    case PageSize => 1
    case WorkStatus => 2
    case ScheduledStartMin => 3
    case ScheduledStartMax => 4
  }

  function ParamAt(r: nat): (p: JobParam)
    requires r < 5
    ensures Rank(p) == r
  {
    if r == 0 then Page else if r == 1 then PageSize else if r == 2 then WorkStatus
    else if r == 3 then ScheduledStartMin else ScheduledStartMax
  }

  function ParamName(p: JobParam): string
  {
    match p
    case Page => "page"
    case PageSize => "page_size"
    case WorkStatus => "work_status"
    case ScheduledStartMin => "scheduled_start_min"
    case ScheduledStartMax => "scheduled_start_max"
  }

  /** The five names are different ASCII strings. */
  lemma ParamNames(p: JobParam, q: JobParam)
    ensures ParamName(p) == ParamName(q) <==> p == q
    ensures IsAscii(ParamName(p))
  {
    assert "scheduled_start_min"[17] != "scheduled_start_max"[17];
  }

  /** The text an option contributes when it is truthy: numbers as decimal text. */
  function OptionText(o: JobsOptions, p: JobParam): Option<string>
  {
    match p
    case Page => if TruthyNumber(o.page) then Some(IntToString(o.page.value)) else None
    case PageSize => if TruthyNumber(o.pageSize) then Some(IntToString(o.pageSize.value)) else None
    case WorkStatus => if Truthy(o.workStatus) then o.workStatus else None
    case ScheduledStartMin => if Truthy(o.scheduledStartMin) then o.scheduledStartMin else None
    case ScheduledStartMax => if Truthy(o.scheduledStartMax) then o.scheduledStartMax else None
  }

  /** One parameter's pair, if its option is truthy. */
  function Param(o: JobsOptions, p: JobParam): seq<(JobParam, string)>
  {
    if OptionText(o, p).Some? then [(p, OptionText(o, p).value)] else []
  }

  /** The parameters of `getJobs`. */
  function JobsParams(o: JobsOptions): seq<(JobParam, string)>
  {
    Param(o, Page) + Param(o, PageSize) + Param(o, WorkStatus) + Param(o, ScheduledStartMin) + Param(o, ScheduledStartMax)
  }

  /** The `params.append` steps of `getJobs`. */
  method AppendJobsParams(o: JobsOptions) returns (params: seq<(JobParam, string)>)
    ensures params == JobsParams(o)
  {
    params := [];
    if TruthyNumber(o.page) {
      params := params + [(Page, IntToString(o.page.value))];
    }
    assert params == Param(o, Page);
    if TruthyNumber(o.pageSize) {
      params := params + [(PageSize, IntToString(o.pageSize.value))];
    }
    assert params == Param(o, Page) + Param(o, PageSize);
    if Truthy(o.workStatus) {
      params := params + [(WorkStatus, o.workStatus.value)];
    }
    assert params == Param(o, Page) + Param(o, PageSize) + Param(o, WorkStatus);
    if Truthy(o.scheduledStartMin) {
      params := params + [(ScheduledStartMin, o.scheduledStartMin.value)];
    }
    assert params == Param(o, Page) + Param(o, PageSize) + Param(o, WorkStatus) + Param(o, ScheduledStartMin);
    if Truthy(o.scheduledStartMax) {
      params := params + [(ScheduledStartMax, o.scheduledStartMax.value)];
    }
  }

  /** `params.get(name)` on the parameter list: the first value under `p`. */
  function Lookup(params: seq<(JobParam, string)>, p: JobParam): Option<string>
  {
    if params == [] then None
    else if params[0].0 == p then Some(params[0].1)
    else Lookup(params[1..], p)
  }

  lemma {:induction false} LookupAppend(a: seq<(JobParam, string)>, b: seq<(JobParam, string)>, p: JobParam)
    ensures Lookup(a + b, p) == if Lookup(a, p).Some? then Lookup(a, p) else Lookup(b, p)
  {
    if a != [] {
      assert (a + b)[0] == a[0];
      assert (a + b)[1..] == a[1..] + b;
      LookupAppend(a[1..], b, p);
    } else {
      assert a + b == b;
    }
  }

  /** The parameters from place `r` on. */
  function ParamsFrom(o: JobsOptions, r: nat): seq<(JobParam, string)>
    requires r <= 5
    decreases 5 - r
  {
    if r == 5 then [] else Param(o, ParamAt(r)) + ParamsFrom(o, r + 1)
  }

  /** Ranks strictly increasing along a parameter list. */
  predicate Ordered(ps: seq<(JobParam, string)>)
  {
    forall i, j :: 0 <= i < j < |ps| ==> Rank(ps[i].0) < Rank(ps[j].0)
  }

  /** From place `r` on, there are at most `5 - r` parameters, all of rank `r` or more. */
  lemma {:induction false} ParamsFromRanks(o: JobsOptions, r: nat)
    requires r <= 5
    decreases 5 - r
    ensures |ParamsFrom(o, r)| <= 5 - r
    ensures forall k :: 0 <= k < |ParamsFrom(o, r)| ==> r <= Rank(ParamsFrom(o, r)[k].0)
  {
    if r < 5 {
      ParamsFromRanks(o, r + 1);
      var c := Param(o, ParamAt(r));
      var rest := ParamsFrom(o, r + 1);
      var ps := c + rest;
      assert ParamsFrom(o, r) == ps;
      forall k | 0 <= k < |ps|
        ensures r <= Rank(ps[k].0)
      {
        if k >= |c| {
          assert ps[k] == rest[k - |c|];
        }
      }
    }
  }

  /** From place `r` on, the parameters are in rank order. */
  lemma {:induction false} ParamsFromOrdered(o: JobsOptions, r: nat)
    requires r <= 5
    decreases 5 - r
    ensures Ordered(ParamsFrom(o, r))
  {
    if r < 5 {
      ParamsFromOrdered(o, r + 1);
      ParamsFromRanks(o, r + 1);
      var c := Param(o, ParamAt(r));
      var rest := ParamsFrom(o, r + 1);
      var ps := c + rest;
      assert ParamsFrom(o, r) == ps;
      forall i, j | 0 <= i < j < |ps|
        ensures Rank(ps[i].0) < Rank(ps[j].0)
      {
        assert ps[j] == rest[j - |c|];
        if i >= |c| {
          assert ps[i] == rest[i - |c|];
        }
      }
    }
  }

  /** From place `r` on, each parameter of rank `r` or more is found with its option's
      text exactly when that option is truthy, and no other is found. */
  lemma {:induction false} ParamsFromLookup(o: JobsOptions, r: nat, p: JobParam)
    requires r <= 5
    decreases 5 - r
    ensures Lookup(ParamsFrom(o, r), p) == if Rank(p) >= r then OptionText(o, p) else None
  {
    if r < 5 {
      ParamsFromLookup(o, r + 1, p);
      var c := Param(o, ParamAt(r));
      var rest := ParamsFrom(o, r + 1);
      assert ParamsFrom(o, r) == c + rest;
      LookupAppend(c, rest, p);
      if c != [] {
        assert c[1..] == [];
      }
      if Rank(p) == r {
        assert p == ParamAt(r);
      }
    }
  }

  lemma JobsParamsFrom(o: JobsOptions)
    ensures JobsParams(o) == ParamsFrom(o, 0)
  {
    var a, b, c := Param(o, Page), Param(o, PageSize), Param(o, WorkStatus);
    var d, e := Param(o, ScheduledStartMin), Param(o, ScheduledStartMax);
    assert ParamsFrom(o, 4) == e + [] == e;
    assert ParamsFrom(o, 3) == d + e;
    assert ParamsFrom(o, 2) == c + (d + e);
    assert ParamsFrom(o, 1) == b + (c + (d + e));
    assert ParamsFrom(o, 0) == a + (b + (c + (d + e)));
    SeqAssoc5(a, b, c, d, e);
  }

  lemma SeqAssoc5<T>(a: seq<T>, b: seq<T>, c: seq<T>, d: seq<T>, e: seq<T>)
    ensures a + b + c + d + e == a + (b + (c + (d + e)))
  {
    assert a + b + c == a + (b + c);
    assert a + b + c + d == a + (b + (c + d));
  }

  /** Each parameter carries its option's text exactly when the option is truthy. */
  lemma JobsLookup(o: JobsOptions, p: JobParam)
    ensures Lookup(JobsParams(o), p) == OptionText(o, p)
  {
    JobsParamsFrom(o);
    ParamsFromLookup(o, 0, p);
  }

  /** The parameters come in the fixed order page, page_size, work_status,
      scheduled_start_min, scheduled_start_max; each is there exactly when its option
      is truthy, with the option's text, so a page of 0 is left out. */
  lemma JobsParamsMeaning(o: JobsOptions)
    ensures |JobsParams(o)| <= 5 && Ordered(JobsParams(o))
    ensures forall p :: Lookup(JobsParams(o), p) == OptionText(o, p)
    ensures Lookup(JobsParams(o), Page) == if TruthyNumber(o.page) then Some(IntToString(o.page.value)) else None
    ensures Lookup(JobsParams(o), WorkStatus) == if Truthy(o.workStatus) then o.workStatus else None
  {
    JobsParamsFrom(o);
    ParamsFromRanks(o, 0);
    ParamsFromOrdered(o, 0);
    forall p
      ensures Lookup(JobsParams(o), p) == OptionText(o, p)
    {
      JobsLookup(o, p);
    }
  }

  /** `URLSearchParams.toString()`: the encoded pairs joined by `&`. */
  function SerializeParams(params: seq<(JobParam, string)>): string
  {
    if params == [] then ""
    else
      var pair := FormEncode(ParamName(params[0].0)) + "=" + FormEncode(params[0].1);
      if |params| == 1 then pair else pair + ("&" + SerializeParams(params[1..]))
  }

  /** `/jobs?${params}`, with the bare `?` kept when there are no filters. */
  function JobsEndpoint(o: JobsOptions): string
  {
    "/jobs?" + SerializeParams(JobsParams(o))
  }

  predicate AsciiValues(params: seq<(JobParam, string)>)
  {
    forall k :: 0 <= k < |params| ==> IsAscii(params[k].1)
  }

  /** ASCII text without `?` or `#`: it can stand after the `?` of a URL as it is. */
  predicate QuerySafe(s: string)
  {
    forall i :: 0 <= i < |s| ==> s[i] != '#' && s[i] != '?' && s[i] as int < 128
  }

  lemma QuerySafeConcat(a: string, b: string)
    requires QuerySafe(a) && QuerySafe(b)
    ensures QuerySafe(a + b)
  {
    forall i | 0 <= i < |a + b|
      ensures (a + b)[i] != '#' && (a + b)[i] != '?' && (a + b)[i] as int < 128
    {
      if i >= |a| {
        assert (a + b)[i] == b[i - |a|];
      }
    }
  }

  /** The encoded text contains no `&` or `=`, and is safe in a query. */
  lemma FormEncodeIsPlain(s: string)
    ensures var e := FormEncode(s); '&' !in e && '=' !in e && QuerySafe(e)
  {
    var e := FormEncode(s);
    forall i | 0 <= i < |e|
      ensures e[i] != '&' && e[i] != '=' && e[i] != '#' && e[i] != '?' && e[i] as int < 128
    {
      assert FormUnreserved(e[i]) || e[i] == '+' || e[i] == '%' || IsUpperHex(e[i]);
    }
  }

  lemma {:induction false} SerializedParamsArePlain(params: seq<(JobParam, string)>)
    ensures QuerySafe(SerializeParams(params))
  {
    if params != [] {
      var k := FormEncode(ParamName(params[0].0));
      var v := FormEncode(params[0].1);
      FormEncodeIsPlain(ParamName(params[0].0));
      FormEncodeIsPlain(params[0].1);
      assert QuerySafe("=") && QuerySafe("&");
      QuerySafeConcat(k, "=");
      QuerySafeConcat(k + "=", v);
      if |params| > 1 {
        var rest := SerializeParams(params[1..]);
        SerializedParamsArePlain(params[1..]);
        QuerySafeConcat("&", rest);
        QuerySafeConcat(k + "=" + v, "&" + rest);
      }
    }
  }

  /** One encoded pair followed by the rest of the query. */
  lemma PairReadsBack(p: JobParam, v: string, rest: Option<string>, q: JobParam)
    requires IsAscii(v)
    ensures rest.None? ==>
      (QueryGet(FormEncode(ParamName(p)) + "=" + FormEncode(v), ParamName(q)) == if p == q then Some(v) else None)
    ensures rest.Some? ==>
      (QueryGet(FormEncode(ParamName(p)) + "=" + FormEncode(v) + ("&" + rest.value), ParamName(q)) ==
       if p == q then Some(v) else QueryGet(rest.value, ParamName(q)))
  {
    ParamNames(p, q);
    FormEncodeIsPlain(ParamName(p));
    FormEncodeIsPlain(v);
    FormDecodeOfFormEncode(ParamName(p));
    FormDecodeOfFormEncode(v);
    QueryGetFirstPair(FormEncode(ParamName(p)), FormEncode(v), rest, ParamName(q));
    assert rest.None? ==> FormEncode(ParamName(p)) + "=" + FormEncode(v) + "" == FormEncode(ParamName(p)) + "=" + FormEncode(v);
  }

  /** The serialised query reads back, by `URLSearchParams.get`, every parameter it was
      built from. */
  lemma {:induction false} SerializedParamsReadBack(params: seq<(JobParam, string)>, q: JobParam)
    requires AsciiValues(params)
    ensures QueryGet(SerializeParams(params), ParamName(q)) == Lookup(params, q)
  {
    if params != [] {
      var p0 := params[0].0;
      var v0 := params[0].1;
      assert IsAscii(v0);
      if |params| == 1 {
        PairReadsBack(p0, v0, None, q);
      } else {
        var rest := SerializeParams(params[1..]);
        PairReadsBack(p0, v0, Some(rest), q);
        assert AsciiValues(params[1..]) by {
          assert forall j :: 0 <= j < |params[1..]| ==> params[1..][j] == params[j + 1];
        }
        SerializedParamsReadBack(params[1..], q);
      }
    }
  }

  /** `getJobs`. */
  function GetJobs<T>(platform: Platform, supabaseUrl: string, key: Option<string>, o: JobsOptions,
                      fetch: Request -> FetchOutcome<T>): (c: Call<T>)
    ensures Truthy(key) && platform == Native ==> c.sent.Some? && c.sent.value.url == HCP_API_BASE + JobsEndpoint(o)
  {
    HcpFetch(platform, supabaseUrl, key, JobsEndpoint(o), NO_OPTIONS, fetch)
  }

  lemma JobsPathIsPlain()
    ensures '?' !in HCP_API_BASE + "/jobs" && '#' !in HCP_API_BASE + "/jobs"
  {
  }

  lemma NativeJobsUrl(o: JobsOptions)
    ensures HCP_API_BASE + JobsEndpoint(o) == (HCP_API_BASE + "/jobs") + "?" + SerializeParams(JobsParams(o))
  {
  }

  /** The query Housecall Pro receives from a native `getJobs` call reads back, for each
      parameter, the option's text when the option was truthy, and nothing otherwise. */
  lemma JobsQueryReadsBack(o: JobsOptions, p: JobParam)
    requires AsciiValues(JobsParams(o))
    ensures QueryGet(QueryOf(HCP_API_BASE + JobsEndpoint(o)), ParamName(p)) == OptionText(o, p)
  {
    var q := SerializeParams(JobsParams(o));
    SerializedParamsArePlain(JobsParams(o));
    assert '#' !in q;
    JobsPathIsPlain();
    QueryOfJoined(HCP_API_BASE + "/jobs", q);
    NativeJobsUrl(o);
    SerializedParamsReadBack(JobsParams(o), p);
    JobsLookup(o, p);
  }

  /** With no filters, or only a page of 0, the endpoint is `/jobs?`. */
  lemma JobsWithoutFilters()
    ensures JobsEndpoint(NO_FILTERS) == "/jobs?"
    ensures JobsEndpoint(NO_FILTERS.(page := Some(0))) == "/jobs?"
  {
  }

  /** `getScheduledJobs`: always `/jobs`. */
  function GetScheduledJobs<T>(platform: Platform, supabaseUrl: string, key: Option<string>, page: int, pageSize: int,
                               fetch: Request -> FetchOutcome<T>): (c: Call<T>)
    ensures Truthy(key) && platform == Native ==> c.sent.Some? && c.sent.value.url == HCP_API_BASE + "/jobs"
  {
    HcpFetch(platform, supabaseUrl, key, "/jobs", NO_OPTIONS, fetch)
  }

  /** The page and page size make no difference to `getScheduledJobs`. */
  lemma ScheduledJobsIgnorePaging<T>(platform: Platform, supabaseUrl: string, key: Option<string>,
                                     page1: int, size1: int, page2: int, size2: int, fetch: Request -> FetchOutcome<T>)
    ensures GetScheduledJobs(platform, supabaseUrl, key, page1, size1, fetch) ==
      GetScheduledJobs(platform, supabaseUrl, key, page2, size2, fetch)
  {
  }

  // ---------------------------------------------------------------- connection test

  /** `testConnection` on the result of fetching `/employees`: true exactly when there
      was no error; on an error the result is `false` together with the error. */
  function TestConnection<T>(fetched: ApiResponse<T>): (r: ApiResponse<bool>)
    ensures r.data == Some(!Truthy(fetched.error))
    ensures Truthy(fetched.error) ==> r.error == fetched.error
    ensures !Truthy(fetched.error) ==> r.error.None?
  {
    if Truthy(fetched.error) then ApiResponse(Some(false), fetched.error) else ApiResponse(Some(true), None)
  }

  function TestConnectionCall<T>(platform: Platform, supabaseUrl: string, key: Option<string>,
                                 fetch: Request -> FetchOutcome<T>): (r: ApiResponse<bool>)
    ensures r == TestConnection(HcpFetch(platform, supabaseUrl, key, "/employees", NO_OPTIONS, fetch).result)
  {
    TestConnection(HcpFetch(platform, supabaseUrl, key, "/employees", NO_OPTIONS, fetch).result)
  }

  /** Without a key the test fails with the not-configured message; with one it passes
      exactly when the API answers `/employees` ok and the body parses as JSON, or the
      parse error's message is empty (`if (error)` does not see an empty one). */
  lemma TestConnectionOutcome<T>(platform: Platform, supabaseUrl: string, key: Option<string>,
                                 fetch: Request -> FetchOutcome<T>)
    ensures !Truthy(key) ==> TestConnectionCall(platform, supabaseUrl, key, fetch) == ApiResponse(Some(false), Some(NOT_CONFIGURED))
    ensures Truthy(key) ==>
      var o := fetch(BuildRequest(platform, supabaseUrl, key.value, "/employees", NO_OPTIONS));
      o.Answered? ==> (TestConnectionCall(platform, supabaseUrl, key, fetch).data == Some(true) <==>
        IsOk(o.response) && (o.json.Parsed? || o.json.message == ""))
  {
  }

  // ---------------------------------------------------------------- attachments

  /** The web upload's error chain: `details`, `message`, `raw`, then the status line;
      `error` is not read. */
  function UploadErrorWeb(f: JsonFields, status: int, statusText: string): (m: string)
    ensures Truthy(f.details) ==> m == f.details.value
    ensures !Truthy(f.details) && Truthy(f.message) ==> m == f.message.value
    ensures !Truthy(f.details) && !Truthy(f.message) && Truthy(f.raw) ==> m == f.raw.value
    ensures !Truthy(f.details) && !Truthy(f.message) && !Truthy(f.raw) ==> m == HttpStatusMessage(status, statusText)
    ensures m != ""
  {
    OrElse(f.details, OrElse(f.message, OrElse(f.raw, HttpStatusMessage(status, statusText))))
  }

  /** `response.json().catch(() => ({}))` on the native upload's error body. */
  function UploadErrorFieldsNative(body: Body): (f: JsonFields)
    ensures body.Text? && body.parsed.None? ==> f == NO_FIELDS
    ensures body.Text? && body.parsed.Some? ==> f == body.parsed.value
  {
    match body
    case JsonObject(fields) => fields
    case Text(_, parsed) => if parsed.Some? then parsed.value else NO_FIELDS
  }

  /** The native upload's error chain: `message`, then the status line. */
  function UploadErrorNative(f: JsonFields, status: int, statusText: string): (m: string)
    ensures Truthy(f.message) ==> m == f.message.value
    ensures !Truthy(f.message) ==> m == HttpStatusMessage(status, statusText)
  {
    OrElse(f.message, HttpStatusMessage(status, statusText))
  }

  /** The three chains disagree: an error body holding only `error` is reported by
      `hcpFetch` but not by the web upload, and one holding only `details` is reported
      by both of those but not by the native upload. */
  lemma ErrorChainsDiffer(e: string, status: int, statusText: string)
    requires e != ""
    ensures var f := NO_FIELDS.(error := Some(e));
      FetchErrorMessage(f, status, statusText) == e && UploadErrorWeb(f, status, statusText) == HttpStatusMessage(status, statusText)
    ensures var f := NO_FIELDS.(details := Some(e));
      UploadErrorWeb(f, status, statusText) == e && UploadErrorNative(f, status, statusText) == HttpStatusMessage(status, statusText)
  {
  }

  /** The upload request: a multipart form holding the file, POSTed to
      `/jobs/<jobId>/attachments`, through the proxy on web (no Content-Type of its own)
      and directly on native. */
  function UploadRequest(platform: Platform, supabaseUrl: string, key: string, jobId: string, fileName: string, mimeType: string): (req: Request)
    ensures req.httpMethod == "POST"
    ensures platform == Web ==> req.headers == [("x-hcp-api-key", key)] && req.body == FormData(fileName, None)
    ensures platform == Native ==> req.headers == [("Authorization", "Bearer " + key)] && req.body == FormData(fileName, Some(mimeType))
    ensures platform == Native ==> req.url == HCP_API_BASE + "/jobs/" + jobId + "/attachments"
    ensures platform == Web ==> req.url == ProxyEndpointUrl(supabaseUrl, "/jobs/" + jobId + "/attachments")
  {
    var endpoint := "/jobs/" + jobId + "/attachments";
    match platform
    case Web => Request(ProxyEndpointUrl(supabaseUrl, endpoint), "POST", [("x-hcp-api-key", key)], FormData(fileName, None))
    case Native => Request(HCP_API_BASE + endpoint, "POST", [("Authorization", "Bearer " + key)], FormData(fileName, Some(mimeType)))
  }

  /** `uploadJobAttachment`: the same short-circuit as `hcpFetch`, then the platform's
      request and error chain. On web the file is first read back as a blob with
      `fetch(fileUri)`; `blobFailure` is the message of an exception that reading throws,
      after which nothing is sent. */
  function UploadJobAttachment<T>(platform: Platform, supabaseUrl: string, key: Option<string>, jobId: string,
                                  fileName: string, mimeType: string, blobFailure: Option<string>,
                                  fetch: Request -> FetchOutcome<T>): (c: Call<T>)
    ensures !Truthy(key) ==> c == Call(None, Err(NOT_CONFIGURED))
    ensures Truthy(key) && platform == Web && blobFailure.Some? ==> c == Call(None, Err(blobFailure.value))
    ensures Truthy(key) && !(platform == Web && blobFailure.Some?) ==>
      c.sent == Some(UploadRequest(platform, supabaseUrl, key.value, jobId, fileName, mimeType))
    ensures c.sent.Some? && fetch(c.sent.value).Threw? ==> c.result == Err(fetch(c.sent.value).message)
    ensures c.sent.Some? && fetch(c.sent.value).Answered? ==>
      var r := fetch(c.sent.value).response;
      c.result == if IsOk(r) then OkBody(fetch(c.sent.value).json)
        else if platform == Web then Err(UploadErrorWeb(ErrorFields(r.body), r.status, r.statusText))
        else Err(UploadErrorNative(UploadErrorFieldsNative(r.body), r.status, r.statusText))
  {
    if !Truthy(key) then Call(None, Err(NOT_CONFIGURED))
    else if platform == Web && blobFailure.Some? then Call(None, Err(blobFailure.value))
    else
      var req := UploadRequest(platform, supabaseUrl, key.value, jobId, fileName, mimeType);
      var outcome := fetch(req);
      var result := match outcome
        case Threw(message) => Err(message)
        case Answered(response, json) =>
          if IsOk(response) then OkBody(json)
          else if platform == Web then Err(UploadErrorWeb(ErrorFields(response.body), response.status, response.statusText))
          else Err(UploadErrorNative(UploadErrorFieldsNative(response.body), response.status, response.statusText));
      Call(Some(req), result)
  }
}
