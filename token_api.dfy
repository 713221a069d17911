/** `TokenApi` from src/api/tokenApi.ts: one form-encoded POST to the token
    endpoint with the client credentials, and the classification of what
    comes back. */
module TokenApi {
  import opened Js
  import opened Http

  const DefaultBaseURL := "https://api.korewireless.com/api-services"
  const DefaultGrantType := "client_credentials"
  const TokenPath := "/v1/auth/token"
  const FailurePrefix := "Failed to get token: "

  /** The request `getToken` hands to `fetch`. */
  datatype TokenRequest = TokenRequest(verb: string, url: string, headers: Query, form: Query)

  const TokenHeaders: Query := [("Content-Type", "application/x-www-form-urlencoded"), ("cache-control", "no-cache")]

  /** The three `params.append` calls. */
  method CredentialsForm(clientId: string, clientSecret: string, grantType: string) returns (form: Query)
    ensures Get(form, "client_id") == Some(clientId)
    ensures Get(form, "client_secret") == Some(clientSecret)
    ensures Get(form, "grant_type") == Some(grantType)
    ensures |form| == 3 && form[0].0 == "client_id" && form[1].0 == "client_secret" && form[2].0 == "grant_type"
  {
    form := [];
    form := form + [("client_id", clientId)];
    form := form + [("client_secret", clientSecret)];
    form := form + [("grant_type", grantType)];
    assert form[1..][1..] == [("grant_type", grantType)];
    assert "client_id"[0] != "grant_type"[0] && "client_secret"[0] != "grant_type"[0];
    assert Get(form, "grant_type") == Get(form[1..], "grant_type") == Get(form[1..][1..], "grant_type");
  }

  /** The `try` block after `fetch`: network failures and unparsable bodies
      surface as the Error they reject with; a non-ok status throws the
      parsed body itself (for 401 and every other status alike). */
  function Attempt(t: Transport): (r: Result<Json>)
    ensures r.Ok? <==> t.Responded? && Readable(t.response) && IsOk(t.response.status)
    ensures r.Ok? ==> r.value == t.response.body.json
    ensures t.Responded? && Readable(t.response) && !IsOk(t.response.status) ==>
              r == Throw(Raw(t.response.body.json))
    ensures t.NetworkFailure? ==> r == Throw(JsErr(t.name, t.message))
    ensures t.Responded? && !Readable(t.response) ==> r.Throw? && r.thrown.JsErr? && r.thrown.name == "SyntaxError"
  {
    match t
    case NetworkFailure(name, message) => Throw(JsErr(name, message))
    case Responded(resp) =>
      match ReadJson(resp)
      case Throw(e) => Throw(e)
      case Ok(data) => if IsOk(resp.status) then Ok(data) else Throw(Raw(data))
  }

  /** The `catch` block: an Error instance is rewrapped, anything else rethrown. */
  function Rewrap(e: Thrown): (r: Thrown)
    ensures e.Raw? ==> r == e
    ensures !e.Raw? ==> r.JsErr? && r.name == "Error" && FailurePrefix <= r.message
  {
    match e
    case JsErr(_, message) => JsErr("Error", FailurePrefix + message)
    case ApiErr(a) => JsErr("Error", FailurePrefix + a.message)
    case Raw(_) => e
  }

  /** How `getToken` settles for a given transport outcome. */
  function Outcome(t: Transport): (r: Result<Json>)
    ensures r.Ok? <==> t.Responded? && Readable(t.response) && IsOk(t.response.status)
    ensures r.Ok? ==> r.value == t.response.body.json
    ensures r.Throw? ==>
              || (r.thrown.Raw? && t.Responded? && Readable(t.response) && !IsOk(t.response.status)
                  && r.thrown.value == t.response.body.json)
              || (r.thrown.JsErr? && r.thrown.name == "Error" && FailurePrefix <= r.thrown.message
                  && (t.NetworkFailure? || !Readable(t.response)))
  {
    match Attempt(t)
    case Ok(data) => Ok(data)
    case Throw(e) => Throw(Rewrap(e))
  }

  class TokenClient {
    const baseURL: string

    constructor (baseURL: Option<string>)
      ensures this.baseURL == (if baseURL.Some? then baseURL.value else DefaultBaseURL)
    {
      this.baseURL := if baseURL.Some? then baseURL.value else DefaultBaseURL;
    }

    /** `getToken`: the request it sends and how it settles. */
    method GetToken(clientId: string, clientSecret: string, grantType: Option<string>, transport: Transport)
      returns (sent: TokenRequest, result: Result<Json>)
      ensures sent.verb == "POST" && sent.url == baseURL + TokenPath && sent.headers == TokenHeaders
      ensures Get(sent.form, "client_id") == Some(clientId)
      ensures Get(sent.form, "client_secret") == Some(clientSecret)
      ensures Get(sent.form, "grant_type") == Some(if grantType.Some? then grantType.value else DefaultGrantType)
      ensures |sent.form| == 3 && sent.form[0].0 == "client_id" && sent.form[1].0 == "client_secret"
              && sent.form[2].0 == "grant_type"
      ensures result == Outcome(transport)
    {
      var form := CredentialsForm(clientId, clientSecret, if grantType.Some? then grantType.value else DefaultGrantType);
      sent := TokenRequest("POST", baseURL + TokenPath, TokenHeaders, form);
      result := Outcome(transport);
    }
  }

  // ---------------------------------------------------------------------
  // Properties of the classification

  /** A rejected credential (401) is thrown as the server's own body, not
      wrapped into an Error: callers see the raw `UnauthorizedError` record. */
  lemma UnauthorizedThrowsBody(headers: Query, data: Json)
    ensures Outcome(Responded(Response(401, headers, Parsed(data)))) == Throw(Raw(data))
  {
  }

  /** A failure that is an Error keeps its original message after the prefix. */
  lemma FailureMessageKept(name: string, message: string)
    ensures Outcome(NetworkFailure(name, message)) == Throw(JsErr("Error", FailurePrefix + message))
  {
  }

  /** A body that is not JSON fails even with a successful status; a 204 or
      205 has no body at all and fails with the empty-text message. */
  lemma UnparsableBodyFails(status: int, headers: Query, message: string)
    requires IsOk(status)
    ensures Outcome(Responded(Response(status, headers, Unparsable(message))))
         == Throw(JsErr("Error", FailurePrefix + (if NullBodyStatus(status) then EmptyJsonMessage else message)))
  {
  }
}
