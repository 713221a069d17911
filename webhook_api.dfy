/** `WebhookApi` from src/api/webhookApi.ts: the webhook secrets endpoints.
    Its constructor builds a rate limiter of 10 requests per second, but its
    calls go straight to the base `request`: nothing is queued on the limiter
    and nothing is retried. */
module WebhookApi {
  import opened Js
  import opened Http
  import Client
  import BaseApi
  import Limiter

  const Surface := BaseApi.Surface("https://webhook.api.korewireless.com", "/v1")
  const RequestsPerSecond := 10

  /** The options of `createSecret`: the name as the only form field. */
  function CreateSecretOptions(name: string): (o: BaseApi.RequestOptions)
    ensures o.verb == "POST" && o.path == "/secrets" && o.params.None?
    ensures o.body == Some([Prop("Name", JStr(name))]) && BaseApi.ExpectedOf(o) == [201]
  {
    BaseApi.RequestOptions("POST", "/secrets", None, Some([Prop("Name", JStr(name))]), Some([201]))
  }

  /** The fields `modifySecret` sends: each one that is not undefined, in
      the order Name, Status. */
  function SecretFields(name: Option<string>, status: Option<string>): seq<Prop> {
    (if name.Some? then [Prop("Name", JStr(name.value))] else [])
    + (if status.Some? then [Prop("Status", JStr(status.value))] else [])
  }

  /** Reading the body back gives each argument, undefined when left out; an
      empty string is still sent, unlike in the query strings. */
  lemma SecretFieldsReadBack(name: Option<string>, status: Option<string>)
    ensures var body := SecretFields(name, status);
      Lookup(body, "Name") == OptStr(name) && Lookup(body, "Status") == OptStr(status)
      && |body| == (if name.Some? then 1 else 0) + (if status.Some? then 1 else 0)
  {
    assert "Name" != "Status" by {
      assert |"Name"| != |"Status"|;
    }
  }

  /** The body of `modifySecret`, built field by field. */
  method ModifySecretBody(name: Option<string>, status: Option<string>) returns (body: seq<Prop>)
    ensures body == SecretFields(name, status)
  {
    body := [];
    if name.Some? {
      body := body + [Prop("Name", JStr(name.value))];
    }
    if status.Some? {
      body := body + [Prop("Status", JStr(status.value))];
    }
  }

  function ModifySecretOptions(id: string, body: seq<Prop>): (o: BaseApi.RequestOptions)
    ensures o.verb == "PATCH" && o.path == "/secrets/" + id && o.params.None?
    ensures o.body == Some(body) && BaseApi.ExpectedOf(o) == [200]
  {
    BaseApi.RequestOptions("PATCH", "/secrets/" + id, None, Some(body), Some([200]))
  }

  function ListSecretsCandidates(pageSize: Option<int>, pageNumber: Option<int>): seq<Prop> {
    [Prop("page_size", OptNum(pageSize)), Prop("page_number", OptNum(pageNumber))]
  }

  /** The query of `listSecrets`: each argument only when truthy. */
  method ListSecretsQuery(pageSize: Option<int>, pageNumber: Option<int>) returns (q: Query)
    ensures q == Keep(ListSecretsCandidates(pageSize, pageNumber))
  {
    ghost var seen: seq<Prop> := [];
    q := [];
    q := AppendIfTruthy(q, seen, "page_size", OptNum(pageSize));
    seen := seen + [Prop("page_size", OptNum(pageSize))];
    q := AppendIfTruthy(q, seen, "page_number", OptNum(pageNumber));
    seen := seen + [Prop("page_number", OptNum(pageNumber))];
    assert seen == ListSecretsCandidates(pageSize, pageNumber);
  }

  /** A zero or absent page size or number is left out of the query. */
  lemma ListSecretsQueryReadsBack(pageSize: Option<int>, pageNumber: Option<int>)
    ensures var q := Keep(ListSecretsCandidates(pageSize, pageNumber));
      Get(q, "page_size") == SentNum(pageSize) && Get(q, "page_number") == SentNum(pageNumber)
  {
    var c := ListSecretsCandidates(pageSize, pageNumber);
    assert DistinctNames(c);
    KeepReadsBack(c, 0);
    KeepReadsBack(c, 1);
  }

  function ListSecretsOptions(q: Query): (o: BaseApi.RequestOptions)
    ensures o.verb == "GET" && o.path == "/secrets" && o.params == Some(q)
    ensures o.body.None? && BaseApi.ExpectedOf(o) == [200]
  {
    BaseApi.RequestOptions("GET", "/secrets", Some(q), None, Some([200]))
  }

  class WebhookApi {
    const client: Client.KoreClient
    const rateLimiter: Limiter.RateLimiter

    constructor (client: Client.KoreClient, clock: nat)
      ensures this.client == client && fresh(rateLimiter) && rateLimiter.Valid()
      ensures rateLimiter.minInterval == Limiter.MinIntervalFor(RequestsPerSecond).value
      ensures rateLimiter.admitted == [] && !rateLimiter.processing
    {
      this.client := client;
      rateLimiter := new Limiter.RateLimiter(RequestsPerSecond, clock);
    }

    /** `createSecret`: one exchange, the rate limiter untouched. */
    method CreateSecret(name: string, env: BaseApi.Env) returns (sent: Option<BaseApi.HttpRequest>, result: Result<Json>)
      modifies client
      ensures BaseApi.Exchanged(sent, result, client.State())
           == BaseApi.Exchange(old(client.State()), Surface, CreateSecretOptions(name), env)
    {
      sent, result := BaseApi.Request(client, Surface, CreateSecretOptions(name), env);
    }

    /** `modifySecret` */
    method ModifySecret(id: string, name: Option<string>, status: Option<string>, env: BaseApi.Env)
      returns (sent: Option<BaseApi.HttpRequest>, result: Result<Json>)
      modifies client
      ensures BaseApi.Exchanged(sent, result, client.State())
           == BaseApi.Exchange(old(client.State()), Surface, ModifySecretOptions(id, SecretFields(name, status)), env)
    {
      var body := ModifySecretBody(name, status);
      sent, result := BaseApi.Request(client, Surface, ModifySecretOptions(id, body), env);
    }

    /** `listSecrets` */
    method ListSecrets(pageSize: Option<int>, pageNumber: Option<int>, env: BaseApi.Env)
      returns (sent: Option<BaseApi.HttpRequest>, result: Result<Json>)
      modifies client
      ensures BaseApi.Exchanged(sent, result, client.State())
           == BaseApi.Exchange(old(client.State()), Surface,
                               ListSecretsOptions(Keep(ListSecretsCandidates(pageSize, pageNumber))), env)
    {
      var q := ListSecretsQuery(pageSize, pageNumber);
      sent, result := BaseApi.Request(client, Surface, ListSecretsOptions(q), env);
    }
  }
}
