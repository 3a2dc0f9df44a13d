/** The client side of the OAuth2 client-credentials grant (section 4.4 of
    RFC 6749) as both revisions of `HaloITSMAPI.get_access_token` perform it:
    a cached bearer token with an expiry, reused while more than 60 seconds
    of validity remain, fetched from `{auth_server}/token` otherwise. */
module TokenCache {
  import opened PyValue
  import opened Errors

  /** The two fields the client keeps: `access_token` and `token_expires_at`. */
  datatype Cache = Cache(token: Value, expiresAt: int)

  /** The state `__init__` leaves: no token, expiry 0. */
  const Empty := Cache(None, 0)

  /** What the token endpoint does if it is asked: a 2xx reply whose body
      parsed as JSON, or a `requests` failure (a transport error, a non-2xx
      status raised by `raise_for_status`, a body that is not JSON). */
  datatype Grant = Granted(body: Value) | Refused(message: string)

  /** One call of `get_access_token`: the clock reading `time.time()` gives
      and the endpoint's behaviour should it be contacted. */
  datatype TokenCall = TokenCall(now: int, grant: Grant)

  /** The cache-hit test: a truthy token with more than 60 seconds left. */
  predicate Valid(c: Cache, now: int) {
    Truthy(c.token) && now < c.expiresAt - 60
  }

  /** The outcome of one call: the new cache, the token or the exception, and
      whether the token endpoint was contacted. */
  datatype Fetch = Fetch(cache: Cache, result: Result<Value>, network: bool)

  const UnsupportedAddition := "unsupported operand type(s) for +: 'float' and '"

  /** `expires_in` as the sum `current_time + expires_in` sees it: 3600 when
      absent; a bool or int adds as a number; anything else is a TypeError. */
  function ExpiresIn(body: map<string, Value>): (r: Result<int>)
    ensures "expires_in" !in body ==> r == Ok(3600)
    ensures "expires_in" in body && body["expires_in"].Int? ==> r == Ok(body["expires_in"].i)
    // a bool adds as 0 or 1
    ensures "expires_in" in body && body["expires_in"].Bool? ==> r == Ok(if body["expires_in"].b then 1 else 0)
    ensures r.Err? <==> "expires_in" in body && !IsInt(body["expires_in"])
  {
    var e := GetOr(body, "expires_in", Int(3600));
    if IsInt(e) then Ok(Num(e))
    else Err(Other("TypeError", UnsupportedAddition + TypeNameOf(e) + "'"))
  }

  const TokenFailureCause := "Failed to obtain OAuth2 token"
  const TokenFailureHelp := "Check your client credentials and authorization server URL"

  /** `get_access_token` (both revisions). */
  function GetAccessToken(c: Cache, call: TokenCall): (f: Fetch)
    // no network call, and the cached token is returned, exactly on a cache hit
    ensures !f.network <==> Valid(c, call.now)
    ensures !f.network ==> f.cache == c && f.result == Ok(c.token)
    // a successful fetch stores the token and an expiry of now + expires_in
    ensures f.network && f.result.Ok? ==>
      call.grant.Granted? && call.grant.body.Dict?
      && ExpiresIn(call.grant.body.fields).Ok?
      && f.result.value == Get(call.grant.body.fields, "access_token")
      && f.cache == Cache(f.result.value, call.now + ExpiresIn(call.grant.body.fields).value)
    // a fetch of a JSON object with a usable expires_in always succeeds
    ensures f.network && call.grant.Granted? && call.grant.body.Dict? && ExpiresIn(call.grant.body.fields).Ok? ==>
      f.result.Ok?
    // an unusable expires_in raises after the new token was stored, with the old expiry kept
    ensures f.network && call.grant.Granted? && call.grant.body.Dict? && ExpiresIn(call.grant.body.fields).Err? ==>
      f.result == Err(ExpiresIn(call.grant.body.fields).error)
      && f.cache == Cache(Get(call.grant.body.fields, "access_token"), c.expiresAt)
    // a cache without a truthy token (a fresh client, or what a 401 leaves) always fetches
    ensures !Truthy(c.token) ==> f.network
    // a requests failure raises PluginException and leaves the cache alone
    ensures f.network && call.grant.Refused? ==>
      f.cache == c && f.result.Err? && f.result.error.Plugin?
      && f.result.error.cause == TokenFailureCause && f.result.error.data == call.grant.message
    // a reply that is not a JSON object fails before anything is stored
    ensures f.network && call.grant.Granted? && !call.grant.body.Dict? ==>
      f.cache == c && f.result.Err? && !f.result.error.IsPluginException()
  {
    if Valid(c, call.now) then Fetch(c, Ok(c.token), false)
    else
      match call.grant
      case Refused(m) =>
        Fetch(c, Err(Plugin(TokenFailureCause, TokenFailureHelp, m)), true)
      case Granted(body) =>
        if !body.Dict? then Fetch(c, Err(NoAttribute(body, "get")), true)
        else
          // `access_token` is assigned before `expires_in` is added to the clock
          var token := Get(body.fields, "access_token");
          match ExpiresIn(body.fields)
          case Ok(e) => Fetch(Cache(token, call.now + e), Ok(token), true)
          case Err(err) => Fetch(Cache(token, c.expiresAt), Err(err), true)
  }

  /** The first call on a fresh client always contacts the endpoint. */
  lemma FirstCallFetches(call: TokenCall)
    ensures GetAccessToken(Empty, call).network
  {
  }

  /** A cleared token (what a 401 leaves) always forces a fetch. */
  lemma ClearedTokenFetches(expiresAt: int, call: TokenCall)
    ensures GetAccessToken(Cache(None, expiresAt), call).network
  {
  }

  /** Two calls inside the validity window make exactly one network call, and
      the second returns the token the first fetched; once the window has
      closed, a further call fetches again. */
  lemma TwoCalls(c: Cache, first: TokenCall, second: TokenCall)
    requires !Valid(c, first.now)
    requires GetAccessToken(c, first).result.Ok?
    ensures var f1 := GetAccessToken(c, first);
      var f2 := GetAccessToken(f1.cache, second);
      f1.network
      && (Truthy(f1.result.value) && second.now < f1.cache.expiresAt - 60 ==>
            !f2.network && f2.result == f1.result)
      && (second.now >= f1.cache.expiresAt - 60 ==> f2.network)
  {
  }

  /** With the default lifetime a granted token is reused for 3540 seconds. */
  lemma DefaultLifetime(c: Cache, now: int, token: string, later: int)
    requires !Valid(c, now) && token != ""
    requires now <= later < now + 3540
    ensures var f1 := GetAccessToken(c, TokenCall(now, Granted(Dict(map["access_token" := Str(token)]))));
      f1.cache == Cache(Str(token), now + 3600)
      && forall g :: !GetAccessToken(f1.cache, TokenCall(later, g)).network
  {
  }
}
