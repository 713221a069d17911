/** `BaseApi` from src/api/baseApi.ts: the one request pipeline every API
    group goes through. It obtains a token from the client, builds the URL,
    headers and form body, sends the request, parses the body, checks the
    status against the expected set, and normalises every failure into an
    `ApiError`. */
module BaseApi {
  import opened Js
  import opened Http
  import Client
  import TokenApi

  /** A concrete API group's `baseURL` and `basePath`. */
  datatype Surface = Surface(baseURL: string, basePath: string)

  /** `RequestOptions`: `body` is a record turned into a form, and
      `expectedStatus` defaults to `[200]` when left out. */
  datatype RequestOptions = RequestOptions(
    verb: string,
    path: string,
    params: Option<Query>,
    body: Option<seq<Prop>>,
    expectedStatus: Option<seq<int>>)

  /** What is handed to `fetch`. */
  datatype HttpRequest = HttpRequest(verb: string, url: string, headers: Query, form: Option<Query>)

  const GenericMessage := "API request failed"
  const FormContentType := "application/x-www-form-urlencoded"

  function ExpectedOf(opts: RequestOptions): (expected: seq<int>)
    ensures opts.expectedStatus.None? ==> expected == [200]
  {
    if opts.expectedStatus.Some? then opts.expectedStatus.value else [200]
  }

  /** The `get`, `post` and `patch` shorthands. */
  function GetOptions(path: string, params: Option<Query>): (o: RequestOptions)
    ensures o.verb == "GET" && o.path == path && o.params == params && o.body.None? && ExpectedOf(o) == [200]
  {
    RequestOptions("GET", path, params, None, None)
  }

  function PostOptions(path: string, body: seq<Prop>): (o: RequestOptions)
    ensures o.verb == "POST" && o.path == path && o.params.None? && o.body == Some(body) && ExpectedOf(o) == [200]
  {
    RequestOptions("POST", path, None, Some(body), None)
  }

  function PatchOptions(path: string, body: seq<Prop>): (o: RequestOptions)
    ensures o.verb == "PATCH" && o.path == path && o.params.None? && o.body == Some(body) && ExpectedOf(o) == [200]
  {
    RequestOptions("PATCH", path, None, Some(body), None)
  }

  /** The URL: base URL, base path and path, then `?` and the query only
      when the serialised query is non-empty. */
  function BuildUrl(surface: Surface, path: string, params: Option<Query>): (url: string)
    ensures surface.baseURL + surface.basePath + path <= url
    ensures params.None? || params.value == [] ==> url == surface.baseURL + surface.basePath + path
    ensures params.Some? && params.value != [] ==>
              url == surface.baseURL + surface.basePath + path + "?" + Serialize(params.value)
  {
    var query := if params.Some? then Serialize(params.value) else "";
    assert params.Some? ==> (query == "" <==> params.value == []) by {
      if params.Some? {
        SerializeEmptyIff(params.value);
      }
    }
    surface.baseURL + surface.basePath + path + (if query != "" then "?" + query else "")
  }

  /** `new URLSearchParams(record)` */
  function FormOf(body: seq<Prop>): (form: Query)
    ensures |form| == |body|
    ensures forall i :: 0 <= i < |body| ==> form[i] == (body[i].key, Display(body[i].val))
  {
    seq(|body|, i requires 0 <= i < |body| => (body[i].key, Display(body[i].val)))
  }

  /** The header record: bearer token and JSON accept always, the form
      content type exactly when there is a body. */
  function RequestHeaders(token: Json, hasBody: bool): (h: Query)
    ensures Get(h, "Authorization") == Some("Bearer " + Display(token))
    ensures Get(h, "Accept") == Some("application/json")
    ensures Get(h, "Content-Type") == if hasBody then Some(FormContentType) else None
    ensures |h| == if hasBody then 3 else 2
  {
    var h := [("Authorization", "Bearer " + Display(token)), ("Accept", "application/json")];
    assert "Authorization"[1] != "Accept"[1] && "Authorization"[0] != "Content-Type"[0] && "Accept"[1] != "Content-Type"[1];
    if hasBody then
      var withType := h + [("Content-Type", FormContentType)];
      assert withType[1..][1..] == [("Content-Type", FormContentType)];
      assert Get(withType, "Content-Type") == Get(withType[1..], "Content-Type") == Get(withType[1..][1..], "Content-Type");
      withType
    else
      assert h[1..][1..] == [];
      assert Get(h, "Content-Type") == Get(h[1..], "Content-Type") == Get(h[1..][1..], "Content-Type");
      h
  }

  /** The request `fetch` receives once a token was obtained. */
  function Outgoing(surface: Surface, opts: RequestOptions, token: Json): HttpRequest {
    HttpRequest(opts.verb, BuildUrl(surface, opts.path, opts.params), RequestHeaders(token, opts.body.Some?),
                if opts.body.Some? then Some(FormOf(opts.body.value)) else None)
  }

  /** `createApiError`: reading `data.message` throws a TypeError when the
      body is null or undefined. The message falls back to the generic one
      and the code to the status when the body's own are falsy. */
  function CreateApiError(status: int, data: Json): (r: Result<ApiError>)
    ensures r.Throw? <==> Nullish(data)
    ensures r.Throw? ==> r.thrown.JsErr? && r.thrown.name == "TypeError"
    ensures r.Ok? ==> r.value.status == status && r.value.details == Field(data, "more_info")
    ensures r.Ok? ==> r.value.message == if Truthy(Field(data, "message")) then Display(Field(data, "message")) else GenericMessage
    ensures r.Ok? ==> r.value.code == if Truthy(Field(data, "code")) then Field(data, "code") else JNum(status)
  {
    match GetProp(data, "message")
    case Throw(e) => Throw(e)
    case Ok(message) =>
      var text := if Truthy(message) then Display(message) else GenericMessage;
      Ok(ApiError(text, Or(Field(data, "code"), JNum(status)), status, Field(data, "more_info")))
  }

  /** The `try` block once a token is in hand. */
  function Attempt(expected: seq<int>, t: Transport): (r: Result<Json>)
    ensures r.Ok? <==> t.Responded? && Readable(t.response) && t.response.status in expected
    ensures r.Ok? ==> r.value == t.response.body.json
  {
    match t
    case NetworkFailure(name, message) => Throw(JsErr(name, message))
    case Responded(resp) =>
      match ReadJson(resp)
      case Throw(e) => Throw(e)
      case Ok(data) =>
        if resp.status in expected then Ok(data)
        else match CreateApiError(resp.status, data)
          case Ok(a) => Throw(ApiErr(a))
          case Throw(te) => Throw(te)
  }

  /** The `try` block as evidently intended: an expected status whose
      response has no body (a 204, say) resolves with undefined instead of
      reading the absent body. */
  function AttemptIntended(expected: seq<int>, t: Transport): (r: Result<Json>)
    ensures r.Ok? <==> t.Responded? && t.response.status in expected
                       && (NullBodyStatus(t.response.status) || t.response.body.Parsed?)
    ensures t.Responded? && NullBodyStatus(t.response.status) && t.response.status in expected ==> r == Ok(JUndefined)
  {
    if t.Responded? && NullBodyStatus(t.response.status) && t.response.status in expected then Ok(JUndefined)
    else Attempt(expected, t)
  }

  /** The two versions differ exactly on an expected null-body status, which
      the code as written rejects with the empty-text SyntaxError. */
  lemma AttemptVersionsDiffer(expected: seq<int>, t: Transport)
    ensures AttemptIntended(expected, t) != Attempt(expected, t) <==>
              t.Responded? && NullBodyStatus(t.response.status) && t.response.status in expected
    ensures t.Responded? && NullBodyStatus(t.response.status) ==>
              Attempt(expected, t) == Throw(JsErr("SyntaxError", EmptyJsonMessage))
  {
  }

  /** The `catch` block: an `ApiError` passes through, anything else becomes
      an `ApiError` with status 0 carrying the original message. A thrown
      null or undefined makes the `name` read itself throw. */
  function Normalise(e: Thrown): (r: Thrown)
    ensures e.ApiErr? ==> r == e
    ensures e.JsErr? && e.name != "ApiError" ==>
              r.ApiErr? && r.apiError.status == 0 && r.apiError.code == JNum(0)
              && r.apiError.message == (if e.message == "" then GenericMessage else e.message)
    ensures e.Raw? && Nullish(e.value) ==> r.JsErr? && r.name == "TypeError"
    ensures e.Raw? && !Nullish(e.value) && Field(e.value, "name") == JStr("ApiError") ==> r == e
    ensures e.Raw? && !Nullish(e.value) && Field(e.value, "name") != JStr("ApiError") ==>
              r.ApiErr? && r.apiError.status == 0 && r.apiError.code == JNum(0)
              && r.apiError.message == (if Truthy(Field(e.value, "message")) then Display(Field(e.value, "message"))
                                        else GenericMessage)
    ensures r.ApiErr? || r == e || (r.JsErr? && r.name == "TypeError")
  {
    match e
    case ApiErr(_) => e
    case JsErr(name, message) =>
      if name == "ApiError" then e else ApiErr(ZeroStatusError(JStr(message)))
    case Raw(v) =>
      match GetProp(v, "name")
      case Throw(te) => te
      case Ok(name) =>
        if name == JStr("ApiError") then e
        else ApiErr(ZeroStatusError(Field(v, "message")))
  }

  /** `createApiError(0, { message })` */
  function ZeroStatusError(message: Json): (a: ApiError)
    ensures a.status == 0 && a.code == JNum(0) && a.details == JUndefined
    ensures a.message == if Truthy(message) then Display(message) else GenericMessage
  {
    var data := JObj([Prop("message", message)]);
    assert Lookup(data.fields, "code") == JUndefined && Lookup(data.fields, "more_info") == JUndefined by {
      assert data.fields[..0] == [];
    }
    CreateApiError(0, data).value
  }

  /** A settled `try` block seen from outside: a value is returned as is,
      anything thrown goes through the `catch` block. */
  function Settle(x: Result<Json>): (r: Result<Json>)
    ensures r.Ok? <==> x.Ok?
    ensures x.Ok? ==> r == x
    ensures x.Throw? ==> r == Throw(Normalise(x.thrown))
  {
    match x
    case Ok(v) => Ok(v)
    case Throw(e) => Throw(Normalise(e))
  }

  /** How `request` settles, given how the token was obtained and how `fetch` went. */
  function Pipeline(token: Result<Json>, expected: seq<int>, t: Transport): (r: Result<Json>)
    ensures r.Ok? <==> token.Ok? && t.Responded? && Readable(t.response) && t.response.status in expected
    ensures r.Ok? ==> r.value == t.response.body.json
    ensures token.Throw? ==> r == Throw(Normalise(token.thrown))
    ensures token.Ok? && r.Throw? ==> r.thrown.ApiErr? || (t.NetworkFailure? && t.name == "ApiError")
    ensures token.Ok? && t.Responded? && Readable(t.response) && t.response.status !in expected
            && !Nullish(t.response.body.json) ==>
              r == Throw(ApiErr(CreateApiError(t.response.status, t.response.body.json).value))
    ensures token.Ok? && ((t.NetworkFailure? && t.name != "ApiError") || (t.Responded? && !Readable(t.response))) ==>
              r.Throw? && r.thrown.ApiErr? && r.thrown.apiError.status == 0
  {
    if token.Ok? then Settle(Attempt(expected, t)) else Settle(token)
  }

  /** What the outside world does during one `request`: the clock when the
      token's expiry is checked and when a new one is stamped, what the token
      endpoint answers, what `fetch` yields, and how long the exchange takes. */
  datatype Env = Env(now: int, stampedAt: int, authority: Transport, transport: Transport, latency: nat)

  /** One `request` on values: the request handed to `fetch` (if a token was
      obtained), how it settles, and the client's token state afterwards. */
  datatype Exchanged = Exchanged(sent: Option<HttpRequest>, result: Result<Json>, cache: Client.Cache)

  /** The client's token state after one request: what obtaining the token
      left behind, whatever `fetch` then yields. */
  function TokenStateAfter(c: Client.Cache, env: Env): Client.Cache {
    Client.TokenStep(c, env.now, env.stampedAt, TokenApi.Outcome(env.authority)).cache
  }

  function Exchange(c: Client.Cache, surface: Surface, opts: RequestOptions, env: Env): (x: Exchanged)
    ensures x.cache == TokenStateAfter(c, env)
    ensures x.sent.Some? ==> x.sent.value.verb == opts.verb
                              && x.sent.value.url == BuildUrl(surface, opts.path, opts.params)
                              && (x.sent.value.form.Some? <==> opts.body.Some?)
    ensures x.result.Ok? ==> x.sent.Some? && env.transport.Responded?
                             && env.transport.response.status in ExpectedOf(opts)
  {
    var s := Client.TokenStep(c, env.now, env.stampedAt, TokenApi.Outcome(env.authority));
    Exchanged(if s.result.Ok? then Some(Outgoing(surface, opts, s.result.value)) else None,
              Pipeline(s.result, ExpectedOf(opts), env.transport),
              s.cache)
  }

  /** `request`: obtain a token from the client (which may refresh it), then
      send the request and settle. */
  method Request(client: Client.KoreClient, surface: Surface, opts: RequestOptions, env: Env)
    returns (sent: Option<HttpRequest>, result: Result<Json>)
    modifies client
    ensures Exchanged(sent, result, client.State()) == Exchange(old(client.State()), surface, opts, env)
    ensures client.tokenRequests == old(client.tokenRequests)
              + (if Client.NeedsRefresh(old(client.State()), env.now) then 1 else 0)
  {
    var token := client.GetValidToken(env.now, env.stampedAt, env.authority);
    if token.Throw? {
      return None, Throw(Normalise(token.thrown));
    }
    var url := BuildUrl(surface, opts.path, opts.params);
    var headers := RequestHeaders(token.value, false);
    if opts.body.Some? {
      headers := headers + [("Content-Type", FormContentType)];
    }
    var form := if opts.body.Some? then Some(FormOf(opts.body.value)) else None;
    sent := Some(HttpRequest(opts.verb, url, headers, form));
    var expected := if opts.expectedStatus.Some? then opts.expectedStatus.value else [200];
    result := Settle(Attempt(expected, env.transport));
  }

  /** `PaginationParams`; each field may be left out. */
  datatype PaginationParams = PaginationParams(pageSize: Option<int>, page: Option<int>, pageToken: Option<string>)

  function PaginationCandidates(p: PaginationParams): seq<Prop> {
    [Prop("PageSize", OptNum(p.pageSize)), Prop("Page", OptNum(p.page)), Prop("PageToken", OptStr(p.pageToken))]
  }

  /** `buildPaginationParams`: append each truthy field, in fixed order. */
  method BuildPaginationParams(p: PaginationParams) returns (q: Query)
    ensures q == Keep(PaginationCandidates(p))
  {
    ghost var seen: seq<Prop> := [];
    q := [];
    q := AppendIfTruthy(q, seen, "PageSize", OptNum(p.pageSize));
    seen := seen + [Prop("PageSize", OptNum(p.pageSize))];
    q := AppendIfTruthy(q, seen, "Page", OptNum(p.page));
    seen := seen + [Prop("Page", OptNum(p.page))];
    q := AppendIfTruthy(q, seen, "PageToken", OptStr(p.pageToken));
    seen := seen + [Prop("PageToken", OptStr(p.pageToken))];
    assert seen == PaginationCandidates(p);
  }

  // ---------------------------------------------------------------------
  // Properties of the pipeline

  /** A zero page size or page number is left out of the query, like an
      absent one; a present non-zero one is sent in decimal. */
  lemma PaginationQueryReadsBack(p: PaginationParams)
    ensures Get(Keep(PaginationCandidates(p)), "PageSize")
         == if p.pageSize.Some? && p.pageSize.value != 0 then Some(IntToString(p.pageSize.value)) else None
    ensures Get(Keep(PaginationCandidates(p)), "Page")
         == if p.page.Some? && p.page.value != 0 then Some(IntToString(p.page.value)) else None
    ensures Get(Keep(PaginationCandidates(p)), "PageToken")
         == if p.pageToken.Some? && p.pageToken.value != "" then p.pageToken else None
  {
    var c := PaginationCandidates(p);
    assert "PageSize" != "Page" && "PageSize" != "PageToken" && "Page" != "PageToken" by {
      assert |"PageSize"| != |"Page"| && |"Page"| != |"PageToken"| && "PageSize"[4] != "PageToken"[4];
    }
    KeepGet(c, 0, "PageSize");
    KeepGet(c, 1, "Page");
    KeepGet(c, 2, "PageToken");
  }

  /** Every failure after the token was obtained reaches the caller as an
      `ApiError`; failures that never produced an HTTP status carry status 0,
      so the default retry predicate does not retry them. */
  lemma TransportFailuresHaveStatusZero(token: Json, expected: seq<int>, name: string, message: string)
    requires name != "ApiError"
    ensures var r := Pipeline(Ok(token), expected, NetworkFailure(name, message));
      r.Throw? && r.thrown.ApiErr? && r.thrown.apiError.status == 0
      && r.thrown.apiError.message == (if message == "" then GenericMessage else message)
  {
  }

  /** A null body on an unexpected status makes `createApiError` itself throw
      a TypeError, which the catch block turns into a status-0 error: the
      response's real status is lost. */
  lemma NullErrorBodyLosesStatus(token: Json, expected: seq<int>, status: int, headers: Query)
    requires status !in expected
    ensures var r := Pipeline(Ok(token), expected, Responded(Response(status, headers, Parsed(JNull))));
      r.Throw? && r.thrown.ApiErr? && r.thrown.apiError.status == 0
      && r.thrown.apiError.message == if NullBodyStatus(status) then EmptyJsonMessage
                                      else "Cannot read properties of null (reading 'message')"
  {
    var resp := Response(status, headers, Parsed(JNull));
    var name := if NullBodyStatus(status) then "SyntaxError" else "TypeError";
    var message := if NullBodyStatus(status) then EmptyJsonMessage
                   else "Cannot read properties of null (reading 'message')";
    assert Attempt(expected, Responded(resp)) == Throw(JsErr(name, message)) by {
      if !NullBodyStatus(status) {
        assert ReadJson(resp) == Ok(JNull);
        NullMessageRead();
      }
    }
    assert name != "ApiError" && message != "" by {
      assert name[0] != 'A' && |message| > 0;
    }
  }

  /** The TypeError of reading `message` of null. */
  lemma NullMessageRead()
    ensures NullishRead(JNull, "message") == JsErr("TypeError", "Cannot read properties of null (reading 'message')")
  {
  }

  /** A token endpoint answering an error status with a null body escapes
      as a TypeError rather than an `ApiError`. */
  lemma NullTokenRejectionEscapes(expected: seq<int>, t: Transport)
    ensures Pipeline(Throw(Raw(JNull)), expected, t).Throw?
    ensures Pipeline(Throw(Raw(JNull)), expected, t).thrown == NullishRead(JNull, "name")
  {
  }

  /** A token endpoint that answers an error status with an object body makes
      `getToken` throw that body, and the catch block turns it into a
      status-0, code-0 `ApiError`: the token endpoint's status is lost, and
      nothing is sent. A body that names itself "ApiError" passes unchanged. */
  lemma TokenRejectionLosesStatus(c: Client.Cache, surface: Surface, opts: RequestOptions, env: Env,
                                  status: int, headers: Query, body: seq<Prop>)
    requires Client.NeedsRefresh(c, env.now)
    requires env.authority == Responded(Response(status, headers, Parsed(JObj(body))))
    requires !IsOk(status) && !NullBodyStatus(status)
    ensures var x := Exchange(c, surface, opts, env);
      x.sent.None? && x.cache == c
      && (Lookup(body, "name") != JStr("ApiError") ==>
            x.result.Throw? && x.result.thrown.ApiErr?
            && x.result.thrown.apiError.status == 0 && x.result.thrown.apiError.code == JNum(0)
            && x.result.thrown.apiError.message == (if Truthy(Lookup(body, "message")) then Display(Lookup(body, "message"))
                                                    else GenericMessage))
      && (Lookup(body, "name") == JStr("ApiError") ==> x.result == Throw(Raw(JObj(body))))
  {
    var reply := TokenApi.Outcome(env.authority);
    assert reply == Throw(Raw(JObj(body)));
  }
}
