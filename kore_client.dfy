/** `KoreClient` from src/api/koreClient.ts: the cached OAuth token and its
    expiry, refreshed from the token endpoint when absent or expired.

    `new Date()` and `Date.now()` are explicit millisecond inputs: `now` when
    the expiry is checked, `stampedAt` when the refreshed token's expiry is
    computed. What the token endpoint answers is a `Transport` input. */
module Client {
  import opened Js
  import opened Http
  import TokenApi

  const ExpiryBufferSeconds := 300
  /** The largest magnitude a JavaScript `Date` can hold, in milliseconds. */
  const MaxTimeValue := 8_640_000_000_000_000

  /** A `Date` object: a time value, or an Invalid Date (NaN). */
  datatype Expiry = At(ms: int) | InvalidDate

  /** `new Date(stampedAt + (expiresIn - 300) * 1000)` */
  function ExpiryAfter(stampedAt: int, expiresIn: Json): (e: Expiry)
    ensures e.At? <==> ToNumber(expiresIn).Some?
                       && -MaxTimeValue <= stampedAt + (ToNumber(expiresIn).value - ExpiryBufferSeconds) * 1000 <= MaxTimeValue
    ensures e.At? ==> e.ms + ExpiryBufferSeconds * 1000 == stampedAt + ToNumber(expiresIn).value * 1000
  {
    match ToNumber(expiresIn)
    case None => InvalidDate
    case Some(n) =>
      var t := stampedAt + (n - ExpiryBufferSeconds) * 1000;
      if -MaxTimeValue <= t <= MaxTimeValue then At(t) else InvalidDate
  }

  /** `isTokenExpired`: no expiry recorded, or one at or before `now`. An
      Invalid Date compares false with everything, so it never expires. */
  function IsTokenExpired(expiry: Option<Expiry>, now: int): (expired: bool)
    ensures expiry.None? ==> expired
    ensures expiry == Some(InvalidDate) ==> !expired
  {
    match expiry
    case None => true
    case Some(At(t)) => t <= now
    case Some(InvalidDate) => false
  }

  /** The client's token state: `tokenData` (undefined until the first
      refresh) and `tokenExpiryTime`. */
  datatype Cache = Cache(tokenData: Json, expiry: Option<Expiry>)

  const EmptyCache := Cache(JUndefined, None)

  /** The guard of `getValidToken`. */
  function NeedsRefresh(c: Cache, now: int): (needs: bool)
    ensures !needs <==> Truthy(c.tokenData) && c.expiry.Some?
                        && (c.expiry.value.InvalidDate? || now < c.expiry.value.ms)
  {
    !Truthy(c.tokenData) || IsTokenExpired(c.expiry, now)
  }

  datatype Refreshed = Refreshed(completion: Result<()>, cache: Cache)

  /** `refreshToken` given what `getToken` settled with. The new data is
      stored before `expires_in` is read, so a null body is stored and then
      throws a TypeError with the old expiry still in place. */
  function Refresh(c: Cache, stampedAt: int, reply: Result<Json>): (r: Refreshed)
    ensures reply.Throw? ==> r.completion == Throw(reply.thrown) && r.cache == c
    ensures reply.Ok? ==> r.cache.tokenData == reply.value
    ensures r.completion.Ok? <==> reply.Ok? && !Nullish(reply.value)
    ensures r.completion.Ok? ==> r.cache.expiry == Some(ExpiryAfter(stampedAt, Field(reply.value, "expires_in")))
    ensures reply.Ok? && Nullish(reply.value) ==> r.cache.expiry == c.expiry && r.completion.thrown.JsErr?
  {
    match reply
    case Throw(e) => Refreshed(Throw(e), c)
    case Ok(data) =>
      match GetProp(data, "expires_in")
      case Throw(te) => Refreshed(Throw(te), Cache(data, c.expiry))
      case Ok(expiresIn) => Refreshed(Ok(()), Cache(data, Some(ExpiryAfter(stampedAt, expiresIn))))
  }

  /** One `getValidToken`: its completion, the new state, and whether the
      token endpoint was called. */
  datatype Step = Step(result: Result<Json>, cache: Cache, refreshed: bool)

  function TokenStep(c: Cache, now: int, stampedAt: int, reply: Result<Json>): (s: Step)
    ensures s.refreshed <==> NeedsRefresh(c, now)
    ensures !s.refreshed ==> s.cache == c && s.result == Ok(Field(c.tokenData, "access_token"))
    ensures s.refreshed ==> s.cache == Refresh(c, stampedAt, reply).cache
    ensures s.refreshed && reply.Throw? ==> s.result == reply && s.cache == c
    ensures s.result.Ok? <==> !s.refreshed || (reply.Ok? && !Nullish(reply.value))
    ensures s.result.Ok? ==> !Nullish(s.cache.tokenData) && s.result.value == Field(s.cache.tokenData, "access_token")
  {
    if !NeedsRefresh(c, now) then Step(GetProp(c.tokenData, "access_token"), c, false)
    else
      var f := Refresh(c, stampedAt, reply);
      match f.completion
      case Throw(e) => Step(Throw(e), f.cache, true)
      case Ok(_) => Step(GetProp(f.cache.tokenData, "access_token"), f.cache, true)
  }

  class KoreClient {
    const clientId: string
    const clientSecret: string
    const tokenApi: TokenApi.TokenClient
    var tokenData: Json
    var tokenExpiryTime: Option<Expiry>
    /** How many times the token endpoint was called. */
    ghost var tokenRequests: nat

    function State(): Cache
      reads this
    {
      Cache(tokenData, tokenExpiryTime)
    }

    constructor (clientId: string, clientSecret: string)
      ensures this.clientId == clientId && this.clientSecret == clientSecret
      ensures tokenApi.baseURL == TokenApi.DefaultBaseURL
      ensures State() == EmptyCache && tokenRequests == 0
    {
      this.clientId := clientId;
      this.clientSecret := clientSecret;
      tokenApi := new TokenApi.TokenClient(None);
      tokenData, tokenExpiryTime := JUndefined, None;
      tokenRequests := 0;
    }

    /** `refreshToken` */
    method RefreshToken(stampedAt: int, authority: Transport) returns (completion: Result<()>)
      modifies this
      ensures Refreshed(completion, State()) == Refresh(old(State()), stampedAt, TokenApi.Outcome(authority))
      ensures tokenRequests == old(tokenRequests) + 1
    {
      var _, reply := tokenApi.GetToken(clientId, clientSecret, None, authority);
      tokenRequests := tokenRequests + 1;
      if reply.Throw? {
        return Throw(reply.thrown);
      }
      tokenData := reply.value;
      if Nullish(tokenData) {
        return Throw(NullishRead(tokenData, "expires_in"));
      }
      tokenExpiryTime := Some(ExpiryAfter(stampedAt, Field(tokenData, "expires_in")));
      completion := Ok(());
    }

    /** `getValidToken` */
    method GetValidToken(now: int, stampedAt: int, authority: Transport) returns (token: Result<Json>)
      modifies this
      ensures var s := TokenStep(old(State()), now, stampedAt, TokenApi.Outcome(authority));
        token == s.result && State() == s.cache
        && tokenRequests == old(tokenRequests) + (if s.refreshed then 1 else 0)
    {
      if !Truthy(tokenData) || IsTokenExpired(tokenExpiryTime, now) {
        var refreshed := RefreshToken(stampedAt, authority);
        if refreshed.Throw? {
          return Throw(refreshed.thrown);
        }
      }
      token := GetProp(tokenData, "access_token");
    }
  }

  // ---------------------------------------------------------------------
  // Properties of the token cache

  /** The expiry instant itself already counts as expired. */
  /** Once the client needs a refresh, it keeps needing one as time passes. */
  lemma RefreshStaysNeeded(c: Cache, now: int, later: int)
    requires now <= later && NeedsRefresh(c, now)
    ensures NeedsRefresh(c, later)
  {
  }

  lemma ExpiryInstantIsExpired(t: int)
    ensures IsTokenExpired(Some(At(t)), t)
    ensures !IsTokenExpired(Some(At(t)), t - 1)
  {
  }

  /** A fresh client always calls the token endpoint first. */
  lemma FirstCallRefreshes(now: int, stampedAt: int, reply: Result<Json>)
    ensures TokenStep(EmptyCache, now, stampedAt, reply).refreshed
  {
  }

  /** Once a truthy token was obtained, further calls before its expiry reuse
      it without calling the token endpoint, whatever it would answer. */
  lemma CachedTokenReused(c: Cache, now: int, stampedAt: int, reply: Result<Json>,
                          later: int, laterStamp: int, laterReply: Result<Json>)
    requires var s := TokenStep(c, now, stampedAt, reply);
      s.result.Ok? && Truthy(s.cache.tokenData) && !IsTokenExpired(s.cache.expiry, later)
    ensures var s := TokenStep(c, now, stampedAt, reply);
      TokenStep(s.cache, later, laterStamp, laterReply) == Step(s.result, s.cache, false)
  {
  }

  /** A token granted for at most the five-minute buffer is stored already
      expired, so the next call refreshes again. */
  lemma ShortLivedTokenRefreshedAgain(c: Cache, now: int, stampedAt: int, fields: seq<Prop>, n: int, later: int)
    requires NeedsRefresh(c, now)
    requires Lookup(fields, "expires_in") == JNum(n) && 0 <= n <= ExpiryBufferSeconds
    requires 0 <= stampedAt <= MaxTimeValue && later >= stampedAt
    ensures var s := TokenStep(c, now, stampedAt, Ok(JObj(fields)));
      s.result.Ok? && NeedsRefresh(s.cache, later)
  {
    var s := TokenStep(c, now, stampedAt, Ok(JObj(fields)));
    assert s.cache.expiry == Some(ExpiryAfter(stampedAt, JNum(n)));
    assert (n - ExpiryBufferSeconds) * 1000 <= 0;
  }

  /** A token answered without a numeric `expires_in` gets an Invalid Date as
      its expiry and is then reused forever. */
  lemma MissingExpiryNeverRefreshed(c: Cache, now: int, stampedAt: int, fields: seq<Prop>, later: int)
    requires NeedsRefresh(c, now)
    requires Lookup(fields, "expires_in") == JUndefined
    ensures var s := TokenStep(c, now, stampedAt, Ok(JObj(fields)));
      s.cache.expiry == Some(InvalidDate) && !NeedsRefresh(s.cache, later)
  {
  }
}
