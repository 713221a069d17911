/** `WirelessApi` from src/api/wirelessApi.ts: the programmable-wireless
    endpoints (usage records, rate plans, SIMs, commands, data sessions),
    each a `RequestOptions` sent through the base pipeline, and a `request`
    that queues every call on a rate limiter and retries it.

    The outside world of the k-th attempt of a request is `env(k)`. */
module WirelessApi {
  import opened Js
  import opened Http
  import Client
  import TokenApi
  import BaseApi
  import Retry
  import Limiter

  const Surface := BaseApi.Surface("https://programmable-wireless.api.korewireless.com", "/v1")
  const DefaultRequestsPerSecond := 10

  // ---------------------------------------------------------------------
  // Query strings
  //
  // Each listing appends its filters when truthy, then `PageSize`, `Page` and
  // `PageToken` when truthy: those last three appends are the same as
  // `buildPaginationParams`, which is what the model calls for them.

  /** The filters of `listDataUsage` and `listDataUsageForSim`, with pagination. */
  datatype UsageParams = UsageParams(start: Option<string>, end: Option<string>, granularity: Option<string>,
                                     paging: BaseApi.PaginationParams)

  function UsageFilters(p: UsageParams): seq<Prop> {
    [Prop("Start", OptStr(p.start)), Prop("End", OptStr(p.end)), Prop("Granularity", OptStr(p.granularity))]
  }

  function UsageCandidates(p: UsageParams): seq<Prop> {
    UsageFilters(p) + BaseApi.PaginationCandidates(p.paging)
  }

  /** The query of the two usage-record listings. */
  method UsageQuery(p: UsageParams) returns (q: Query)
    ensures q == Keep(UsageCandidates(p))
  {
    ghost var seen: seq<Prop> := [];
    q := [];
    q := AppendIfTruthy(q, seen, "Start", OptStr(p.start));
    seen := seen + [Prop("Start", OptStr(p.start))];
    q := AppendIfTruthy(q, seen, "End", OptStr(p.end));
    seen := seen + [Prop("End", OptStr(p.end))];
    q := AppendIfTruthy(q, seen, "Granularity", OptStr(p.granularity));
    seen := seen + [Prop("Granularity", OptStr(p.granularity))];
    assert seen == UsageFilters(p);
    var paging := BaseApi.BuildPaginationParams(p.paging);
    assert Keep(seen) + paging == Keep(seen + BaseApi.PaginationCandidates(p.paging)) by {
      KeepAppend(seen, BaseApi.PaginationCandidates(p.paging));
    }
    q := q + paging;
  }

  /** Each usage filter is sent exactly when it is a non-empty string or a
      non-zero number, under its own name. */
  lemma UsageQueryReadsBack(p: UsageParams)
    ensures var q := Keep(UsageCandidates(p));
      Get(q, "Start") == SentStr(p.start) && Get(q, "End") == SentStr(p.end)
      && Get(q, "Granularity") == SentStr(p.granularity)
      && Get(q, "PageSize") == SentNum(p.paging.pageSize) && Get(q, "Page") == SentNum(p.paging.page)
      && Get(q, "PageToken") == SentStr(p.paging.pageToken)
  {
    var c := UsageCandidates(p);
    assert DistinctNames(c);
    KeepReadsBack(c, 0);
    KeepReadsBack(c, 1);
    KeepReadsBack(c, 2);
    KeepReadsBack(c, 3);
    KeepReadsBack(c, 4);
    KeepReadsBack(c, 5);
  }

  /** The filters of `listSims`, with pagination. */
  datatype SimsParams = SimsParams(status: Option<string>, iccid: Option<string>, ratePlan: Option<string>,
                                   eId: Option<string>, simRegistrationCode: Option<string>,
                                   paging: BaseApi.PaginationParams)

  function SimsFilters(p: SimsParams): seq<Prop> {
    [Prop("Status", OptStr(p.status)), Prop("Iccid", OptStr(p.iccid)), Prop("RatePlan", OptStr(p.ratePlan)),
     Prop("EId", OptStr(p.eId)), Prop("SimRegistrationCode", OptStr(p.simRegistrationCode))]
  }

  function SimsCandidates(p: SimsParams): seq<Prop> {
    SimsFilters(p) + BaseApi.PaginationCandidates(p.paging)
  }

  /** The query of `listSims`. */
  method SimsQuery(p: SimsParams) returns (q: Query)
    ensures q == Keep(SimsCandidates(p))
  {
    ghost var seen: seq<Prop> := [];
    q := [];
    q := AppendIfTruthy(q, seen, "Status", OptStr(p.status));
    seen := seen + [Prop("Status", OptStr(p.status))];
    q := AppendIfTruthy(q, seen, "Iccid", OptStr(p.iccid));
    seen := seen + [Prop("Iccid", OptStr(p.iccid))];
    q := AppendIfTruthy(q, seen, "RatePlan", OptStr(p.ratePlan));
    seen := seen + [Prop("RatePlan", OptStr(p.ratePlan))];
    q := AppendIfTruthy(q, seen, "EId", OptStr(p.eId));
    seen := seen + [Prop("EId", OptStr(p.eId))];
    q := AppendIfTruthy(q, seen, "SimRegistrationCode", OptStr(p.simRegistrationCode));
    seen := seen + [Prop("SimRegistrationCode", OptStr(p.simRegistrationCode))];
    assert seen == SimsFilters(p);
    var paging := BaseApi.BuildPaginationParams(p.paging);
    assert Keep(seen) + paging == Keep(seen + BaseApi.PaginationCandidates(p.paging)) by {
      KeepAppend(seen, BaseApi.PaginationCandidates(p.paging));
    }
    q := q + paging;
  }

  lemma SimsQueryReadsBack(p: SimsParams)
    ensures var q := Keep(SimsCandidates(p));
      Get(q, "Status") == SentStr(p.status) && Get(q, "Iccid") == SentStr(p.iccid)
      && Get(q, "RatePlan") == SentStr(p.ratePlan) && Get(q, "EId") == SentStr(p.eId)
      && Get(q, "SimRegistrationCode") == SentStr(p.simRegistrationCode)
      && Get(q, "PageSize") == SentNum(p.paging.pageSize) && Get(q, "Page") == SentNum(p.paging.page)
      && Get(q, "PageToken") == SentStr(p.paging.pageToken)
  {
    var c := SimsCandidates(p);
    assert DistinctNames(c) by {
      forall i, j | 0 <= i < j < |c|
        ensures c[i].key != c[j].key
      {
        if |c[i].key| == |c[j].key| {
          assert c[i].key[0] != c[j].key[0];
        }
      }
    }
    KeepReadsBack(c, 0);
    KeepReadsBack(c, 1);
    KeepReadsBack(c, 2);
    KeepReadsBack(c, 3);
    KeepReadsBack(c, 4);
    KeepReadsBack(c, 5);
    KeepReadsBack(c, 6);
    KeepReadsBack(c, 7);
  }

  /** The filters of `getCommand`, with pagination. */
  datatype CommandParams = CommandParams(sim: Option<string>, status: Option<string>, direction: Option<string>,
                                         transport: Option<string>, paging: BaseApi.PaginationParams)

  function CommandFilters(p: CommandParams): seq<Prop> {
    [Prop("Sim", OptStr(p.sim)), Prop("Status", OptStr(p.status)), Prop("Direction", OptStr(p.direction)), Prop("Transport", OptStr(p.transport))]
  }

  function CommandCandidates(p: CommandParams): seq<Prop> {
    CommandFilters(p) + BaseApi.PaginationCandidates(p.paging)
  }

  /** The query of `getCommand`. */
  method CommandQuery(p: CommandParams) returns (q: Query)
    ensures q == Keep(CommandCandidates(p))
  {
    ghost var seen: seq<Prop> := [];
    q := [];
    q := AppendIfTruthy(q, seen, "Sim", OptStr(p.sim));
    seen := seen + [Prop("Sim", OptStr(p.sim))];
    q := AppendIfTruthy(q, seen, "Status", OptStr(p.status));
    seen := seen + [Prop("Status", OptStr(p.status))];
    q := AppendIfTruthy(q, seen, "Direction", OptStr(p.direction));
    seen := seen + [Prop("Direction", OptStr(p.direction))];
    q := AppendIfTruthy(q, seen, "Transport", OptStr(p.transport));
    seen := seen + [Prop("Transport", OptStr(p.transport))];
    assert seen == CommandFilters(p);
    var paging := BaseApi.BuildPaginationParams(p.paging);
    assert Keep(seen) + paging == Keep(seen + BaseApi.PaginationCandidates(p.paging)) by {
      KeepAppend(seen, BaseApi.PaginationCandidates(p.paging));
    }
    q := q + paging;
  }

  lemma CommandQueryReadsBack(p: CommandParams)
    ensures var q := Keep(CommandCandidates(p));
      Get(q, "Sim") == SentStr(p.sim) && Get(q, "Status") == SentStr(p.status)
      && Get(q, "Direction") == SentStr(p.direction) && Get(q, "Transport") == SentStr(p.transport)
      && Get(q, "PageSize") == SentNum(p.paging.pageSize) && Get(q, "Page") == SentNum(p.paging.page)
      && Get(q, "PageToken") == SentStr(p.paging.pageToken)
  {
    var c := CommandCandidates(p);
    assert DistinctNames(c);
    KeepReadsBack(c, 0);
    KeepReadsBack(c, 1);
    KeepReadsBack(c, 2);
    KeepReadsBack(c, 3);
    KeepReadsBack(c, 4);
    KeepReadsBack(c, 5);
    KeepReadsBack(c, 6);
  }

  // ---------------------------------------------------------------------
  // Endpoints

  /** One call of the wireless API and its arguments; request bodies are records. */
  datatype Endpoint =
    | ListDataUsage(usage: UsageParams)
    | ListDataUsageForSim(sid: string, usage: UsageParams)
    | ListRatePlans(paging: BaseApi.PaginationParams)
    | CreateRatePlan(data: seq<Prop>)
    | GetRatePlan(sid: string)
    | UpdateRatePlan(sid: string, data: seq<Prop>)
    | DeleteRatePlan(sid: string)
    | ListSims(sims: SimsParams)
    | GetSim(sid: string)
    | UpdateSim(sid: string, data: seq<Prop>)
    | DeleteSim(sid: string)
    | GetCommand(commands: CommandParams)
    | CreateCommand(data: seq<Prop>)
    | DeleteCommand(sid: string)
    | GetDataSessions(sid: string, paging: BaseApi.PaginationParams)

  predicate IsDelete(e: Endpoint) {
    e.DeleteRatePlan? || e.DeleteSim? || e.DeleteCommand?
  }

  /** The calls that send a record as a form body. */
  predicate Writes(e: Endpoint) {
    e.CreateRatePlan? || e.UpdateRatePlan? || e.UpdateSim? || e.CreateCommand?
  }

  /** The calls that send a query string. */
  predicate Lists(e: Endpoint) {
    e.ListDataUsage? || e.ListDataUsageForSim? || e.ListRatePlans? || e.ListSims? || e.GetCommand? || e.GetDataSessions?
  }

  function QueryCandidates(e: Endpoint): seq<Prop>
    requires Lists(e)
  {
    match e
    case ListDataUsage(u) => UsageCandidates(u)
    case ListDataUsageForSim(_, u) => UsageCandidates(u)
    case ListRatePlans(pg) => BaseApi.PaginationCandidates(pg)
    case ListSims(sp) => SimsCandidates(sp)
    case GetCommand(cp) => CommandCandidates(cp)
    case GetDataSessions(_, pg) => BaseApi.PaginationCandidates(pg)
  }

  function PathOf(e: Endpoint): string {
    match e
    case ListDataUsage(_) => "/UsageRecords"
    case ListDataUsageForSim(sid, _) => "/Sims/" + sid + "/UsageRecords"
    case ListRatePlans(_) => "/RatePlans"
    case CreateRatePlan(_) => "/RatePlans"
    case GetRatePlan(sid) => "/RatePlans/" + sid
    case UpdateRatePlan(sid, _) => "/RatePlans/" + sid
    case DeleteRatePlan(sid) => "/RatePlans/" + sid
    case ListSims(_) => "/Sims"
    case GetSim(sid) => "/Sims/" + sid
    case UpdateSim(sid, _) => "/Sims/" + sid
    case DeleteSim(sid) => "/Sims/" + sid
    case GetCommand(_) => "/Commands"
    case CreateCommand(_) => "/Commands"
    case DeleteCommand(sid) => "/Commands/" + sid
    case GetDataSessions(sid, _) => "/Sims/" + sid + "/DataSessions"
  }

  function ExpectedFor(e: Endpoint): (xs: seq<int>)
    ensures 200 in xs <==> !IsDelete(e) && !e.CreateCommand?
    ensures 201 in xs <==> e.CreateCommand?
    ensures 202 in xs <==> e.CreateRatePlan? || e.UpdateSim? || e.CreateCommand? || e.DeleteCommand?
    ensures 204 in xs <==> IsDelete(e)
    ensures forall s :: s in xs ==> s == 200 || s == 201 || s == 202 || s == 204
  {
    match e
    case CreateRatePlan(_) => [200, 202]
    case UpdateSim(_, _) => [200, 202]
    case CreateCommand(_) => [201, 202]
    case DeleteRatePlan(_) => [204]
    case DeleteSim(_) => [204]
    case DeleteCommand(_) => [202, 204]
    case _ => [200]
  }

  /** The `RequestOptions` each API method hands to `request`: deletes use
      DELETE and accept 204 but never 200; the calls with a body use POST
      (updates included); everything else is a GET expecting 200 alone. */
  function EndpointOptions(e: Endpoint): (o: BaseApi.RequestOptions)
    ensures o.path == PathOf(e)
    ensures o.verb == if IsDelete(e) then "DELETE" else if Writes(e) then "POST" else "GET"
    ensures o.body.Some? <==> Writes(e)
    ensures o.body.Some? ==> o.body.value == e.data
    ensures o.params.Some? <==> Lists(e)
    ensures o.params.Some? ==> o.params.value == Keep(QueryCandidates(e))
    ensures BaseApi.ExpectedOf(o) == ExpectedFor(e)
  {
    var verb := if IsDelete(e) then "DELETE" else if Writes(e) then "POST" else "GET";
    var params := if Lists(e) then Some(Keep(QueryCandidates(e))) else None;
    var body := if Writes(e) then Some(e.data) else None;
    BaseApi.RequestOptions(verb, PathOf(e), params, body, Some(ExpectedFor(e)))
  }

  // ---------------------------------------------------------------------
  // The retried request

  /** The client's token state before attempt `k` of a retried request. */
  function CacheAfter(c0: Client.Cache, opts: BaseApi.RequestOptions, env: nat -> BaseApi.Env, k: nat): Client.Cache {
    if k == 0 then c0 else BaseApi.TokenStateAfter(CacheAfter(c0, opts, env, k - 1), env(k - 1))
  }

  /** How attempt `k` settles: one `super.request` from the state the
      earlier attempts left behind. */
  function Attempts(c0: Client.Cache, opts: BaseApi.RequestOptions, env: nat -> BaseApi.Env): nat -> Result<Json> {
    (k: nat) => BaseApi.Exchange(CacheAfter(c0, opts, env, k), Surface, opts, env(k)).result
  }

  /** `retry(() => super.request(options), retryOptions)` as a reference run. */
  function Retried(c0: Client.Cache, opts: BaseApi.RequestOptions, options: Retry.RetryOptions,
                   env: nat -> BaseApi.Env): Retry.Run<Json> {
    Retry.RetryRun(Attempts(c0, opts, env), Retry.MaxRetriesOf(options), Retry.RetryDelayOf(options),
                   Retry.ShouldRetryOf(options), 0)
  }

  /** Attempt `k` of a retried request: one `super.request` from the token
      state the earlier attempts left behind. */
  method AttemptOnce(client: Client.KoreClient, opts: BaseApi.RequestOptions, env: nat -> BaseApi.Env,
                     ghost c0: Client.Cache, k: nat)
    returns (outcome: Result<Json>)
    requires client.State() == CacheAfter(c0, opts, env, k)
    modifies client
    ensures outcome == Attempts(c0, opts, env)(k)
    ensures client.State() == CacheAfter(c0, opts, env, k + 1)
  {
    var _, result := BaseApi.Request(client, Surface, opts, env(k));
    outcome := result;
  }

  /** The retry loop around `super.request`. Each attempt goes through the
      client, which may refresh its token, so the operation is not a pure
      function: the loop is written out here, and proved to follow the
      reference run of the `retry` utility on the attempts it makes. */
  method RetriedRequest(client: Client.KoreClient, opts: BaseApi.RequestOptions, options: Retry.RetryOptions,
                        env: nat -> BaseApi.Env)
    returns (completion: Result<Json>, calls: nat, delays: seq<int>)
    modifies client
    ensures Retry.Run(completion, calls, delays) == Retried(old(client.State()), opts, options, env)
    ensures client.State() == CacheAfter(old(client.State()), opts, env, calls)
  {
    ghost var c0 := client.State();
    ghost var fn := Attempts(c0, opts, env);
    var maxRetries, retryDelay, shouldRetry :=
      Retry.MaxRetriesOf(options), Retry.RetryDelayOf(options), Retry.ShouldRetryOf(options);
    ghost var whole := Retry.RetryRun(fn, maxRetries, retryDelay, shouldRetry, 0);
    calls, delays := 0, [];
    var attempt: nat := 0;
    while attempt < maxRetries
      invariant calls == attempt && |delays| == attempt
      invariant attempt > 0 ==> attempt < maxRetries
      invariant whole == Retry.Prefixed(calls, delays, Retry.RetryRun(fn, maxRetries, retryDelay, shouldRetry, attempt))
      invariant client.State() == CacheAfter(c0, opts, env, attempt)
      decreases maxRetries - attempt
    {
      var outcome := AttemptOnce(client, opts, env, c0, attempt);
      Retry.RunStep(fn, maxRetries, retryDelay, shouldRetry, attempt, calls, delays);
      ghost var rest := Retry.RetryRun(fn, maxRetries, retryDelay, shouldRetry, attempt + 1);
      calls := calls + 1;
      if outcome.Ok? || !shouldRetry(outcome.thrown) || attempt == maxRetries - 1 {
        assert whole == Retry.Run(outcome, calls, delays);
        return outcome, calls, delays;
      }
      delays := delays + [retryDelay * Retry.Pow2(attempt)];
      assert whole == Retry.Prefixed(calls, delays, rest);
      attempt := attempt + 1;
    }
    completion := Throw(Raw(JUndefined));
  }

  /** How long the first `calls` attempts took on the wire. */
  function Latency(env: nat -> BaseApi.Env, calls: nat): nat {
    if calls == 0 then 0 else Latency(env, calls - 1) + env(calls - 1).latency
  }

  /** How long `setTimeout` waited; a negative delay waits no time. */
  function Waits(delays: seq<int>): nat {
    if delays == [] then 0 else Waits(delays[..|delays| - 1]) + (if delays[|delays| - 1] < 0 then 0 else delays[|delays| - 1])
  }

  /** The task a retried request becomes on the rate limiter's queue. */
  function TaskOf(run: Retry.Run<Json>, env: nat -> BaseApi.Env): Limiter.Task {
    Limiter.Task(Latency(env, run.calls) + Waits(run.delays), run.completion)
  }

  /** The query an API method builds: only the listings build one. */
  method QueryFor(e: Endpoint) returns (params: Option<Query>)
    ensures params == if Lists(e) then Some(Keep(QueryCandidates(e))) else None
  {
    params := None;
    match e {
      case ListDataUsage(u) =>
        var q := UsageQuery(u);
        params := Some(q);
      case ListDataUsageForSim(_, u) =>
        var q := UsageQuery(u);
        params := Some(q);
      case ListRatePlans(pg) =>
        var q := BaseApi.BuildPaginationParams(pg);
        params := Some(q);
      case ListSims(sp) =>
        var q := SimsQuery(sp);
        params := Some(q);
      case GetCommand(cp) =>
        var q := CommandQuery(cp);
        params := Some(q);
      case GetDataSessions(_, pg) =>
        var q := BaseApi.BuildPaginationParams(pg);
        params := Some(q);
      case _ =>
    }
  }

  class WirelessApi {
    const client: Client.KoreClient
    const rateLimiter: Limiter.RateLimiter
    const retryOptions: Retry.RetryOptions

    /** The constructor for an accepted rate; `NewWirelessApi` covers the
        default and the throw. */
    constructor (client: Client.KoreClient, requestsPerSecond: int, retryOptions: Retry.RetryOptions, clock: nat)
      requires requestsPerSecond > 0
      ensures this.client == client && this.retryOptions == retryOptions
      ensures fresh(rateLimiter) && rateLimiter.Valid() && !rateLimiter.processing
      ensures rateLimiter.minInterval == Limiter.MinIntervalFor(requestsPerSecond).value
      ensures rateLimiter.admitted == [] && rateLimiter.dispatched == []
    {
      this.client := client;
      rateLimiter := new Limiter.RateLimiter(requestsPerSecond, clock);
      this.retryOptions := retryOptions;
    }

    /** `request`: queue the retried call on the rate limiter and let the
        dispatcher run it. The limiter is idle between calls. */
    method Request(opts: BaseApi.RequestOptions, env: nat -> BaseApi.Env) returns (result: Result<Json>)
      requires rateLimiter.Valid() && !rateLimiter.processing
      modifies client, rateLimiter
      ensures var run := Retried(old(client.State()), opts, retryOptions, env);
        result == run.completion && client.State() == CacheAfter(old(client.State()), opts, env, run.calls)
        && rateLimiter.admitted == old(rateLimiter.admitted) + [TaskOf(run, env)]
        && Limiter.Tasks(rateLimiter.dispatched) == Limiter.Tasks(old(rateLimiter.dispatched)) + [TaskOf(run, env)]
      ensures rateLimiter.Valid() && !rateLimiter.processing
    {
      ghost var run := Retried(client.State(), opts, retryOptions, env);
      var completion, calls, delays := RetriedRequest(client, opts, retryOptions, env);
      var task := Limiter.Task(Latency(env, calls) + Waits(delays), completion);
      assert task == TaskOf(run, env);
      var _ := rateLimiter.Add(task);
      rateLimiter.ProcessQueue();
      result := completion;
    }

    /** Every API method: build the query, if any, and send the options
        through `request`. */
    method Call(e: Endpoint, env: nat -> BaseApi.Env) returns (result: Result<Json>)
      requires rateLimiter.Valid() && !rateLimiter.processing
      modifies client, rateLimiter
      ensures var run := Retried(old(client.State()), EndpointOptions(e), retryOptions, env);
        result == run.completion
        && client.State() == CacheAfter(old(client.State()), EndpointOptions(e), env, run.calls)
        && rateLimiter.admitted == old(rateLimiter.admitted) + [TaskOf(run, env)]
      ensures rateLimiter.Valid() && !rateLimiter.processing
    {
      var params := QueryFor(e);
      var verb := if IsDelete(e) then "DELETE" else if Writes(e) then "POST" else "GET";
      var body := if Writes(e) then Some(e.data) else None;
      var opts := BaseApi.RequestOptions(verb, PathOf(e), params, body, Some(ExpectedFor(e)));
      assert opts == EndpointOptions(e);
      result := Request(opts, env);
    }
  }

  /** The wireless API's constructor: 10 requests per second unless given,
      and the rate limiter's error for a non-positive rate. */
  method NewWirelessApi(client: Client.KoreClient, requestsPerSecond: Option<int>,
                        retryOptions: Retry.RetryOptions, clock: nat)
    returns (r: Result<WirelessApi>)
    ensures var rps := if requestsPerSecond.Some? then requestsPerSecond.value else DefaultRequestsPerSecond;
      (r.Throw? <==> rps <= 0) && (r.Throw? ==> r.thrown == Limiter.NonPositiveRate)
      && (r.Ok? ==> fresh(r.value) && r.value.client == client && r.value.retryOptions == retryOptions
                    && r.value.rateLimiter.Valid() && !r.value.rateLimiter.processing
                    && r.value.rateLimiter.minInterval == Limiter.MinIntervalFor(rps).value)
  {
    var rps := if requestsPerSecond.Some? then requestsPerSecond.value else DefaultRequestsPerSecond;
    if rps <= 0 {
      return Throw(Limiter.NonPositiveRate);
    }
    var api := new WirelessApi(client, rps, retryOptions, clock);
    r := Ok(api);
  }

  // ---------------------------------------------------------------------
  // How the retried request behaves under the default retry options

  /** The token step of the first attempt, from the client's state before the call. */
  function FirstToken(c0: Client.Cache, env: nat -> BaseApi.Env): Result<Json> {
    Client.TokenStep(c0, env(0).now, env(0).stampedAt, TokenApi.Outcome(env(0).authority)).result
  }

  /** A network failure becomes a status-0 `ApiError`, which the default
      predicate does not retry: it is reported after one attempt. */
  lemma NetworkFailureReportedAtOnce(c0: Client.Cache, opts: BaseApi.RequestOptions, env: nat -> BaseApi.Env)
    requires FirstToken(c0, env).Ok?
    requires env(0).transport.NetworkFailure? && env(0).transport.name != "ApiError"
    ensures var run := Retried(c0, opts, Retry.NoOptions, env);
      run.calls == 1 && run.delays == [] && run.completion.Throw?
      && run.completion.thrown.ApiErr? && run.completion.thrown.apiError.status == 0
  {
    var fn := Attempts(c0, opts, env);
    var t := env(0).transport;
    assert fn(0) == BaseApi.Pipeline(FirstToken(c0, env), BaseApi.ExpectedOf(opts), t);
    BaseApi.TransportFailuresHaveStatusZero(FirstToken(c0, env).value, BaseApi.ExpectedOf(opts), t.name, t.message);
    Retry.RejectedErrorRethrownAtOnce(fn, 3, 1000, Retry.ShouldRetryOf(Retry.NoOptions));
  }

  /** A client error (any unexpected status below 500 other than 429) is
      reported after one attempt, as an `ApiError` carrying that status. */
  lemma ClientErrorReportedAtOnce(c0: Client.Cache, opts: BaseApi.RequestOptions, env: nat -> BaseApi.Env)
    requires FirstToken(c0, env).Ok?
    requires var t := env(0).transport;
      t.Responded? && t.response.status < 500 && t.response.status != 429
      && t.response.status !in BaseApi.ExpectedOf(opts)
      && Readable(t.response) && !Nullish(t.response.body.json)
    ensures var run := Retried(c0, opts, Retry.NoOptions, env);
      run.calls == 1 && run.delays == [] && run.completion.Throw? && run.completion.thrown.ApiErr?
      && run.completion.thrown.apiError.status == env(0).transport.response.status
  {
    var fn := Attempts(c0, opts, env);
    assert fn(0) == BaseApi.Pipeline(FirstToken(c0, env), BaseApi.ExpectedOf(opts), env(0).transport);
    Retry.RejectedErrorRethrownAtOnce(fn, 3, 1000, Retry.ShouldRetryOf(Retry.NoOptions));
  }

  /** The deletes accept 204, but a 204 has no body: `response.json()`
      rejects, the catch block turns the SyntaxError into a status-0
      `ApiError`, and the default predicate does not retry it. A delete the
      server carried out is reported as failed after one attempt. */
  lemma DeleteOn204Fails(e: Endpoint, c0: Client.Cache, env: nat -> BaseApi.Env)
    requires IsDelete(e) && FirstToken(c0, env).Ok?
    requires env(0).transport.Responded? && env(0).transport.response.status == 204
    ensures var run := Retried(c0, EndpointOptions(e), Retry.NoOptions, env);
      run.calls == 1 && run.delays == [] && run.completion.Throw? && run.completion.thrown.ApiErr?
      && run.completion.thrown.apiError.status == 0 && run.completion.thrown.apiError.message == EmptyJsonMessage
  {
    var opts := EndpointOptions(e);
    var fn := Attempts(c0, opts, env);
    assert fn(0) == BaseApi.Pipeline(FirstToken(c0, env), BaseApi.ExpectedOf(opts), env(0).transport);
    Retry.RejectedErrorRethrownAtOnce(fn, 3, 1000, Retry.ShouldRetryOf(Retry.NoOptions));
  }

  /** With the intended `try` block the same 204 resolves every delete. */
  lemma DeleteOn204ResolvesIntended(e: Endpoint, response: Response)
    requires IsDelete(e) && response.status == 204
    ensures BaseApi.AttemptIntended(BaseApi.ExpectedOf(EndpointOptions(e)), Responded(response)) == Ok(JUndefined)
  {
  }

  /** While the cached token stays valid, no attempt touches it. */
  lemma {:induction false} CachedTokenKept(c0: Client.Cache, opts: BaseApi.RequestOptions, env: nat -> BaseApi.Env, k: nat)
    requires forall j :: !Client.NeedsRefresh(c0, env(j).now)
    ensures CacheAfter(c0, opts, env, k) == c0
    decreases k
  {
    if k > 0 {
      CachedTokenKept(c0, opts, env, k - 1);
    }
  }

  /** A server that keeps failing with 5xx is tried three times, 1000 ms and
      then 2000 ms apart, the last failure is reported, and a valid cached
      token is reused by every attempt. */
  lemma PersistentServerErrorRetried(c0: Client.Cache, opts: BaseApi.RequestOptions, env: nat -> BaseApi.Env)
    requires forall j :: !Client.NeedsRefresh(c0, env(j).now)
    requires forall j :: env(j).transport.Responded? && env(j).transport.response.status >= 500
                         && env(j).transport.response.status !in BaseApi.ExpectedOf(opts)
                         && env(j).transport.response.body.Parsed? && !Nullish(env(j).transport.response.body.json)
    ensures var run := Retried(c0, opts, Retry.NoOptions, env);
      run.calls == 3 && run.delays == [1000, 2000] && CacheAfter(c0, opts, env, 3) == c0
      && run.completion.Throw? && run.completion.thrown.ApiErr?
      && run.completion.thrown.apiError.status == env(2).transport.response.status
  {
    var fn := Attempts(c0, opts, env);
    forall k: nat
      ensures fn(k).Throw? && fn(k).thrown.ApiErr? && fn(k).thrown.apiError.status == env(k).transport.response.status
    {
      CachedTokenKept(c0, opts, env, k);
    }
    Retry.DefaultsAlwaysRetryable(fn);
    CachedTokenKept(c0, opts, env, 3);
  }
}
