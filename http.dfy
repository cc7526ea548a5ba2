/** The pieces of HTTP the Housecall Pro client and its proxy share: header lists,
    request and response values, the string fields of a JSON error body, and the
    query-string lookup behind `URL.searchParams.get`. */
module Http {
  import opened Wrappers
  import opened Text

  /** Header name/value pairs in the order they were written. */
  type Headers = seq<(string, string)>

  /** Header names are compared ignoring ASCII case. */
  predicate SameName(a: string, b: string)
  {
    |a| == |b| && forall i :: 0 <= i < |a| ==> LowerChar(a[i]) == LowerChar(b[i])
  }

  /** `headers.get(name)`: the first header whose name matches. */
  function HeaderGet(h: Headers, name: string): (v: Option<string>)
    ensures v.Some? <==> exists k :: 0 <= k < |h| && SameName(h[k].0, name)
    ensures v.Some? ==> exists k :: 0 <= k < |h| && SameName(h[k].0, name) && h[k].1 == v.value
  {
    if h == [] then None
    else if SameName(h[0].0, name) then Some(h[0].1)
    else
      var rest := HeaderGet(h[1..], name);
      assert forall k :: 1 <= k < |h| ==> h[k] == h[1..][k - 1];
      rest
  }

  /** `get` on a list of two headers. */
  lemma HeaderGetTwo(a: (string, string), b: (string, string), name: string)
    ensures HeaderGet([a, b], name) ==
      if SameName(a.0, name) then Some(a.1)
      else if SameName(b.0, name) then Some(b.1)
      else None
  {
    assert [a, b][1..] == [b];
    assert [b][1..] == [];
  }

  /** `get` skips a first header of another name. */
  lemma HeaderGetSkip(h: Headers, name: string)
    requires h != [] && !SameName(h[0].0, name)
    ensures HeaderGet(h, name) == HeaderGet(h[1..], name)
  {
  }

  /** How the header names the client writes compare with the ones the proxy reads. */
  lemma HeaderNamesCompare()
    ensures SameName("Content-Type", "content-type")
    ensures SameName("x-hcp-api-key", "x-hcp-api-key") && SameName("Authorization", "authorization")
    ensures !SameName("Content-Type", "x-hcp-api-key") && !SameName("Content-Type", "authorization")
    ensures !SameName("x-hcp-api-key", "content-type") && !SameName("Authorization", "content-type")
    ensures !SameName("Authorization", "x-hcp-api-key") && !SameName("x-hcp-api-key", "authorization")
  {
    assert LowerChar("Authorization"[0]) != LowerChar("x-hcp-api-key"[0]);
  }

  /** The string-valued members of a JSON error object that the code reads. */
  datatype JsonFields = JsonFields(
    details: Option<string>,
    message: Option<string>,
    error: Option<string>,
    raw: Option<string>,
    url: Option<string>)

  const NO_FIELDS: JsonFields := JsonFields(None, None, None, None, None)

  /** A response body: a JSON object built by the code itself, or text received from
      elsewhere together with what `JSON.parse` makes of it (`None` when it is not JSON). */
  datatype Body = JsonObject(fields: JsonFields) | Text(text: string, parsed: Option<JsonFields>)

  datatype Response = Response(status: int, statusText: string, body: Body)

  /** `response.ok`. */
  predicate IsOk(r: Response) { 200 <= r.status <= 299 }

  /** A request body: none, text, or a multipart form holding one file. */
  datatype RequestBody = NoBody | TextBody(text: string) | FormData(fileName: string, fileType: Option<string>)

  datatype Request = Request(url: string, httpMethod: string, headers: Headers, body: RequestBody)

  /** The `errorData` of an error response: the parsed JSON object, or `{ raw: text }`
      when the text is not JSON. */
  function ErrorFields(body: Body): (f: JsonFields)
    ensures body.Text? && body.parsed.None? ==> f == NO_FIELDS.(raw := Some(body.text))
    ensures body.Text? && body.parsed.Some? ==> f == body.parsed.value
    ensures body.JsonObject? ==> f == body.fields
  {
    match body
    case JsonObject(fields) => fields
    case Text(text, parsed) => if parsed.Some? then parsed.value else NO_FIELDS.(raw := Some(text))
  }

  /** `HTTP <status>: <statusText>`, the last fallback of every error chain. */
  function HttpStatusMessage(status: int, statusText: string): (m: string)
    ensures |m| > 5 && m[..5] == "HTTP "
  {
    "HTTP " + IntToString(status) + ": " + statusText
  }

  // ---------------------------------------------------------------- query strings

  /** The text before the first `c`, or all of `s`. */
  function UpTo(s: string, c: char): (r: string)
    ensures r <= s && c !in r
    ensures c !in s ==> r == s
    ensures c in s ==> |r| < |s| && s[|r|] == c
  {
    if s == [] then []
    else if s[0] == c then []
    else [s[0]] + UpTo(s[1..], c)
  }

  /** The text after the first `c`, if there is one. */
  function AfterFirst(s: string, c: char): (r: Option<string>)
    ensures r.None? <==> c !in s
    ensures r.Some? ==> s == UpTo(s, c) + [c] + r.value
  {
    if s == [] then None
    else if s[0] == c then Some(s[1..])
    else
      var rest := AfterFirst(s[1..], c);
      assert rest.Some? ==> s == [s[0]] + s[1..];
      rest
  }

  /** The query of a URL: what follows the first `?`, up to any `#`. */
  function QueryOf(url: string): string
  {
    var beforeFragment := UpTo(url, '#');
    var query := AfterFirst(beforeFragment, '?');
    if query.Some? then query.value else ""
  }

  /** `URLSearchParams.get(name)` on a query: the decoded value of the first non-empty
      pair whose decoded name is `name`; a pair without `=` has the empty value. */
  function QueryGet(query: string, name: string): Option<string>
    decreases |query|
  {
    var pair := UpTo(query, '&');
    var value := AfterFirst(pair, '=');
    var rest := AfterFirst(query, '&');
    if pair != "" && FormDecode(UpTo(pair, '=')) == name then Some(FormDecode(if value.Some? then value.value else ""))
    else if rest.Some? then QueryGet(rest.value, name)
    else None
  }

  /** A URL whose query is the single pair `name=value`, with no `&`, `=` or `#` after
      the `?`, yields the decoded value for that name. */
  lemma QueryGetSingle(base: string, name: string, value: string)
    requires '?' !in base && '#' !in base
    requires '&' !in name && '=' !in name && '#' !in name
    requires '%' !in name && '+' !in name
    requires '&' !in value && '=' !in value && '#' !in value
    ensures QueryGet(QueryOf(base + "?" + name + "=" + value), name) == Some(FormDecode(value))
  {
    var url := base + "?" + name + "=" + value;
    var query := name + "=" + value;
    assert url == base + ['?'] + query;
    assert '#' !in url;
    assert UpTo(url, '#') == url;
    UpToThenRest(base, '?', query);
    assert AfterFirst(url, '?') == Some(query);
    assert QueryOf(url) == query;
    assert '&' !in query;
    assert UpTo(query, '&') == query;
    UpToThenRest(name, '=', value);
    assert query == name + ['='] + value;
    assert forall i :: 0 <= i < |name| ==> name[i] != '%' && name[i] != '+';
    FormDecodePlain(name);
  }

  /** The query of `base?q`, when `base` has no `?` or `#` and `q` no `#`. */
  lemma QueryOfJoined(base: string, q: string)
    requires '?' !in base && '#' !in base && '#' !in q
    ensures QueryOf(base + "?" + q) == q
  {
    var url := base + "?" + q;
    assert url == base + ['?'] + q;
    assert '#' !in url;
    assert UpTo(url, '#') == url;
    UpToThenRest(base, '?', q);
  }

  /** The first pair of a query decides the lookup when its name matches; otherwise the
      lookup goes on after the `&`. */
  lemma QueryGetFirstPair(key: string, value: string, rest: Option<string>, name: string)
    requires '&' !in key && '=' !in key && '&' !in value
    ensures QueryGet(key + "=" + value + (if rest.Some? then "&" + rest.value else ""), name) ==
      if FormDecode(key) == name then Some(FormDecode(value))
      else if rest.Some? then QueryGet(rest.value, name)
      else None
  {
    var pair := key + "=" + value;
    var query := pair + (if rest.Some? then "&" + rest.value else "");
    assert pair == key + ['='] + value;
    UpToThenRest(key, '=', value);
    assert '&' !in pair;
    if rest.Some? {
      assert query == pair + ['&'] + rest.value;
      UpToThenRest(pair, '&', rest.value);
    } else {
      assert query == pair;
    }
    assert pair != "" by { assert pair[|key|] == '='; }
  }

  /** Splitting `a + [c] + b` at the first `c`, when `a` has none. */
  lemma {:induction false} UpToThenRest(a: string, c: char, b: string)
    requires c !in a
    ensures UpTo(a + [c] + b, c) == a
    ensures AfterFirst(a + [c] + b, c) == Some(b)
  {
    if a != [] {
      UpToThenRest(a[1..], c, b);
      assert (a + [c] + b)[1..] == a[1..] + [c] + b;
      assert a == [a[0]] + a[1..];
    } else {
      assert (a + [c] + b)[1..] == b;
    }
  }
}
