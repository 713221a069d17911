/** The interceptors of src/utils/interceptors.ts: a request interceptor
    that insists on an https URL and sanitises header values, a response
    interceptor that rejects rate-limited and non-JSON responses, and a
    security-header check whose table of required headers is empty. */
module Interceptors {
  import opened Js
  import opened Http
  import opened Validation
  import BaseApi

  /** `RequestOptions & { headers: CustomHeaders }`: header values may be undefined. */
  datatype InterceptedRequest = InterceptedRequest(
    options: BaseApi.RequestOptions,
    baseURL: Option<string>,
    headers: seq<(string, Option<string>)>)

  /** A header record is a JavaScript object: its keys are distinct. */
  predicate DistinctKeys<V>(h: seq<(string, V)>) {
    forall i, j :: 0 <= i < j < |h| ==> h[i].0 != h[j].0
  }

  /** The string-valued entries of a header record, each value mapped by
      `f`, in the record's order. */
  function MapStrings(h: seq<(string, Option<string>)>, f: string -> string): (r: Query)
    ensures |r| <= |h|
  {
    if h == [] then []
    else
      var last := h[|h| - 1];
      MapStrings(h[..|h| - 1], f) + (if last.1.Some? then [(last.0, f(last.1.value))] else [])
  }

  /** The string-valued headers, sanitised. */
  function Sanitized(h: seq<(string, Option<string>)>): Query {
    MapStrings(h, SanitizeString)
  }

  /** The `forEach` over `Object.entries(request.headers)`. */
  method SanitizeHeaders(h: seq<(string, Option<string>)>) returns (out: Query)
    ensures out == Sanitized(h)
  {
    out := [];
    var i := 0;
    while i < |h|
      invariant 0 <= i <= |h|
      invariant out == MapStrings(h[..i], SanitizeString)
    {
      assert h[..i + 1][..i] == h[..i];
      if h[i].1.Some? {
        out := out + [(h[i].0, SanitizeString(h[i].1.value))];
      }
      i := i + 1;
    }
    assert h[..|h|] == h;
  }

  /** An entry survives exactly when its value was a string, and then it
      carries the mapped value. */
  lemma {:induction false} MapStringsMembership(h: seq<(string, Option<string>)>, f: string -> string,
                                                key: string, value: string)
    ensures (key, value) in MapStrings(h, f) <==>
            exists i :: 0 <= i < |h| && h[i].0 == key && h[i].1.Some? && value == f(h[i].1.value)
    decreases |h|
  {
    if h != [] {
      var init := h[..|h| - 1];
      MapStringsMembership(init, f, key, value);
      if (key, value) in MapStrings(init, f) {
        var i :| 0 <= i < |init| && init[i].0 == key && init[i].1.Some? && value == f(init[i].1.value);
        assert h[i] == init[i];
      }
      if exists i :: 0 <= i < |h| && h[i].0 == key && h[i].1.Some? && value == f(h[i].1.value) {
        var i :| 0 <= i < |h| && h[i].0 == key && h[i].1.Some? && value == f(h[i].1.value);
        if i < |init| {
          assert init[i] == h[i];
        }
      }
    }
  }

  /** Distinct input keys stay distinct. */
  lemma {:induction false} MapStringsDistinct(h: seq<(string, Option<string>)>, f: string -> string, n: nat, m: nat)
    requires DistinctKeys(h) && n < m < |MapStrings(h, f)|
    ensures MapStrings(h, f)[n].0 != MapStrings(h, f)[m].0
    decreases |h|
  {
    var init := h[..|h| - 1];
    var last := h[|h| - 1];
    assert DistinctKeys(init) by {
      forall i, j | 0 <= i < j < |init| ensures init[i].0 != init[j].0 {
        assert init[i] == h[i] && init[j] == h[j];
      }
    }
    if m < |MapStrings(init, f)| {
      MapStringsDistinct(init, f, n, m);
    } else {
      assert MapStrings(h, f)[m].0 == last.0;
      var entry := MapStrings(h, f)[n];
      assert entry == MapStrings(init, f)[n];
      MapStringsMembership(init, f, entry.0, entry.1);
      var i :| 0 <= i < |init| && init[i].0 == entry.0 && init[i].1.Some? && entry.1 == f(init[i].1.value);
      assert init[i] == h[i];
    }
  }

  /** Sanitised headers keep distinct keys, and every value is the
      sanitised form of a string header and holds no markup character. */
  lemma SanitizedSafe(h: seq<(string, Option<string>)>)
    requires DistinctKeys(h)
    ensures DistinctKeys(Sanitized(h))
    ensures forall n, k :: 0 <= n < |Sanitized(h)| && 0 <= k < |Sanitized(h)[n].1| ==> !Unsafe(Sanitized(h)[n].1[k])
  {
    var out := Sanitized(h);
    forall n, m | 0 <= n < m < |out|
      ensures out[n].0 != out[m].0
    {
      MapStringsDistinct(h, SanitizeString, n, m);
    }
    forall n, k | 0 <= n < |out| && 0 <= k < |out[n].1|
      ensures !Unsafe(out[n].1[k])
    {
      MapStringsMembership(h, SanitizeString, out[n].0, out[n].1);
      var i :| 0 <= i < |h| && h[i].0 == out[n].0 && h[i].1.Some? && out[n].1 == SanitizeString(h[i].1.value);
      SanitizeStringGuarantees(h[i].1.value);
    }
  }

  const RequestUrlName := "Request URL"
  const HttpsOnly := UrlOptions(true, Some(["https"]))

  /** The URL the request interceptor checks: an absent base URL reads as "undefined". */
  function RequestUrl(req: InterceptedRequest): (url: string)
    ensures req.baseURL.Some? ==> url == req.baseURL.value + req.options.path
    ensures req.baseURL.None? ==> url == "undefined" + req.options.path
    ensures url == "" <==> req.baseURL == Some("") && req.options.path == ""
  {
    Display(OptStr(req.baseURL)) + req.options.path
  }

  /** `defaultRequestInterceptor`: the URL must parse and use `https`, and the
      header values are sanitised. The URL check is `validateUrl` as written,
      so a non-https URL is reported as not a valid URL (see
      `Validation.ProtocolMessageSwallowed`). */
  method DefaultRequestInterceptor(req: InterceptedRequest, parse: string -> Option<string>)
    returns (r: Result<InterceptedRequest>)
    ensures r.Ok? <==> UrlAccepted(JStr(RequestUrl(req)), HttpsOnly, parse)
    ensures r.Throw? && RequestUrl(req) == "" ==> r == Throw(JsErr("Error", RequestUrlName + " is required"))
    ensures r.Throw? && RequestUrl(req) != "" ==> r == Throw(JsErr("Error", RequestUrlName + " must be a valid URL"))
    ensures r.Ok? ==> r.value.options == req.options && r.value.baseURL == req.baseURL
                      && r.value.headers == Lift(Sanitized(req.headers))
  {
    var url := RequestUrl(req);
    var check := ValidateUrl(JStr(url), RequestUrlName, HttpsOnly, parse);
    if check.Throw? {
      assert Truthy(JStr(url)) <==> url != "";
      return Throw(check.thrown);
    }
    var headers := SanitizeHeaders(req.headers);
    r := Ok(req.(headers := Lift(headers)));
  }

  /** `CustomHeaders` whose values are all strings. */
  function Lift(q: Query): (h: seq<(string, Option<string>)>)
    ensures |h| == |q| && forall i :: 0 <= i < |q| ==> h[i] == (q[i].0, Some(q[i].1))
  {
    seq(|q|, i requires 0 <= i < |q| => (q[i].0, Some(q[i].1)))
  }

  // ---------------------------------------------------------------------
  // Response interceptors

  /** A 429 carrying a non-empty `Retry-After`. */
  function RateLimited(resp: Response): (limited: bool)
    ensures limited ==> resp.status == 429 && HeaderValues(resp.headers, "Retry-After") != []
  {
    resp.status == 429 && HeaderGet(resp.headers, "Retry-After").Some?
    && HeaderGet(resp.headers, "Retry-After").value != ""
  }

  /** A response either declares no content type or a JSON one. */
  function JsonOrUntyped(resp: Response): (accepted: bool)
    ensures HeaderValues(resp.headers, "Content-Type") == [] ==> accepted
  {
    var ct := HeaderGet(resp.headers, "Content-Type");
    ct.None? || ct.value == "" || Includes(ct.value, "application/json")
  }

  /** `defaultResponseInterceptor`; the clone it returns is the same response. */
  function DefaultResponseInterceptor(resp: Response): (r: Result<Response>)
    ensures r.Ok? <==> !RateLimited(resp) && JsonOrUntyped(resp)
    ensures r.Ok? ==> r.value == resp
    ensures RateLimited(resp) ==>
              r == Throw(JsErr("Error", "Rate limit exceeded. Retry after "
                                        + HeaderGet(resp.headers, "Retry-After").value + " seconds"))
    ensures !RateLimited(resp) && !JsonOrUntyped(resp) ==>
              r == Throw(JsErr("Error", "Unexpected content type: " + HeaderGet(resp.headers, "Content-Type").value))
  {
    var retryAfter := HeaderGet(resp.headers, "Retry-After");
    if resp.status == 429 && retryAfter.Some? && retryAfter.value != "" then
      Throw(JsErr("Error", "Rate limit exceeded. Retry after " + retryAfter.value + " seconds"))
    else
      var contentType := HeaderGet(resp.headers, "Content-Type");
      if contentType.Some? && contentType.value != "" && !Includes(contentType.value, "application/json") then
        Throw(JsErr("Error", "Unexpected content type: " + contentType.value))
      else Ok(resp)
  }

  /** A 429 without a usable `Retry-After` is treated like any other status:
      it gets the verdict a 200 with the same headers would get. */
  lemma RateLimitWithoutRetryAfterPasses(headers: Query, body: Body)
    requires HeaderGet(headers, "Retry-After").None? || HeaderGet(headers, "Retry-After").value == ""
    ensures DefaultResponseInterceptor(Response(429, headers, body)).Ok?
              == DefaultResponseInterceptor(Response(200, headers, body)).Ok?
    ensures DefaultResponseInterceptor(Response(429, headers, body)).Throw? ==>
              DefaultResponseInterceptor(Response(429, headers, body)) == DefaultResponseInterceptor(Response(200, headers, body))
  {
    var limited, ok := Response(429, headers, body), Response(200, headers, body);
    assert !RateLimited(limited) && !RateLimited(ok);
    assert JsonOrUntyped(limited) == JsonOrUntyped(ok);
  }

  /** The required security headers and their expected values: none. */
  const SecurityHeaders: Query := []

  /** The names of the required headers that are missing or differ. */
  function MissingHeaders(table: Query, headers: Query): (names: seq<string>)
    ensures |names| <= |table|
  {
    if table == [] then []
    else
      var last := table[|table| - 1];
      var value := HeaderGet(headers, last.0);
      MissingHeaders(table[..|table| - 1], headers)
      + (if value.None? || value.value == "" || value.value != last.1 then [last.0] else [])
  }

  /** The `forEach` over the table: one warning per missing or wrong header. */
  method CheckSecurityHeaders(table: Query, resp: Response) returns (warnings: seq<string>)
    ensures |warnings| == |MissingHeaders(table, resp.headers)|
    ensures forall i :: 0 <= i < |warnings| ==>
              warnings[i] == "Missing or invalid security header: " + MissingHeaders(table, resp.headers)[i]
  {
    warnings := [];
    ghost var names: seq<string> := [];
    for i := 0 to |table|
      invariant names == MissingHeaders(table[..i], resp.headers)
      invariant |warnings| == |names|
      invariant forall k :: 0 <= k < |warnings| ==> warnings[k] == "Missing or invalid security header: " + names[k]
    {
      assert table[..i + 1][..i] == table[..i];
      var value := HeaderGet(resp.headers, table[i].0);
      if value.None? || value.value == "" || value.value != table[i].1 {
        warnings := warnings + ["Missing or invalid security header: " + table[i].0];
        names := names + [table[i].0];
      }
    }
    assert table[..|table|] == table;
  }

  /** `securityResponseInterceptor`: the response passes unchanged, and with
      the empty table no warning is ever emitted. */
  method SecurityResponseInterceptor(resp: Response) returns (r: Response, warnings: seq<string>)
    ensures r == resp && warnings == []
  {
    warnings := CheckSecurityHeaders(SecurityHeaders, resp);
    r := resp;
  }
}
