/** The newer `Connection`: `connect` stores the parameters field by field,
    validates them and builds the client; `test` classifies what the token
    request and a `/tickettypes` probe do. */
module IconConnection {
  import opened PyValue
  import opened Errors
  import opened TokenCache
  import opened Retry
  import opened ApiClient
  import opened Schema
  import opened ConnectionParams

  /** `client_secret`: the `secretKey` of a credential dict, a plain string as
      it is, and None for anything else. */
  function SecretOf(v: Value): (r: Value)
    ensures v.Dict? ==> r == Get(v.fields, "secretKey")
    ensures v.Str? ==> r == v
    ensures !v.Dict? && !v.Str? ==> r == None
  {
    if v.Dict? then Get(v.fields, "secretKey") else if v.Str? then v else None
  }

  /** A secret given as a plain string and the same secret in a credential
      dict are stored alike. */
  lemma SecretForms(s: string)
    ensures SecretOf(Str(s)) == SecretOf(Dict(map["secretKey" := Str(s)])) == Str(s)
  {
  }

  const NoParameters: Error := Plugin("No connection parameters provided", "Connection parameters are required", "")

  const InitCause := "Connection initialization failed"
  const UnexpectedError := "An unexpected error occurred: "

  /** `connect`'s wrapping of any exception that is not a PluginException. */
  function InitFailure(e: Error): (r: Error)
    ensures r.Plugin? && r.cause == InitCause
    // the message is kept whole: as data, and after the fixed text of the assistance
    ensures r.data == Text(e)
    ensures |r.assistance| == |UnexpectedError| + |r.data|
    ensures r.assistance[..|UnexpectedError|] == UnexpectedError && r.assistance[|UnexpectedError|..] == r.data
  {
    Plugin(InitCause, UnexpectedError + Text(e), Text(e))
  }

  /** Two failures are reported alike exactly when their messages agree:
      the wrapping loses the exception's type and nothing of its message. */
  lemma InitFailureByText(e1: Error, e2: Error)
    ensures InitFailure(e1) == InitFailure(e2) <==> Text(e1) == Text(e2)
  {
  }

  const UnexpectedCause := "Connection test failed with unexpected error"

  /** `test`'s handler chain: a ConnectionTestException passes through, a
      PluginException is re-raised as a ConnectionTestException with the same
      three fields, anything else becomes the "unexpected error" failure. */
  function AsTestFailure(e: Error): (r: Error)
    ensures r.ConnectionTest?
    ensures e.ConnectionTest? ==> r == e
    ensures e.Plugin? ==> r.cause == e.cause && r.assistance == e.assistance && r.data == e.data
    ensures !e.IsPluginException() ==>
      r.cause == UnexpectedCause && r.assistance == UnableToConnect + Text(e)
      && r.data == TypeName(e) + ": " + Text(e)
  {
    match e
    case ConnectionTest(_, _, _) => e
    case Plugin(c, a, d) => ConnectionTest(c, a, d)
    case Other(t, m) => ConnectionTest(UnexpectedCause, UnableToConnect + m, t + ": " + m)
  }

  const NoToken: Error := ConnectionTest("Failed to obtain access token", "OAuth2 authentication returned no token", "")

  /** `client_id[:10]` works on strings and lists; the log line only slices a
      truthy value. */
  predicate Sliceable(v: Value) {
    !Truthy(v) || v.Str? || v.List?
  }

  /** `len(token)` works on strings, lists and dicts. */
  predicate HasLen(v: Value) {
    v.Str? || v.List? || v.Dict?
  }

  const ProbeParams: Value := Dict(map["pageinate" := Str("false"), "count" := Str("1")])

  class Connection {
    /** `self.client`, None until a `connect` succeeds. */
    var client: Client?
    var accessToken: Value
    var authServer: Value
    var resourceServer: Value
    /** Whether `connect` got as far as storing the parameters; before that
        the attributes below do not exist on the Python object. */
    var stored: bool
    var clientId: Value
    var clientSecret: Value
    var tenant: Value
    var sslVerify: Value
    var defaults: Defaults

    /** The client a connection builds is always of its own revision. */
    predicate Valid()
      reads this`client
    {
      client != null ==> client.flavour == Icon
    }

    /** `__init__`. */
    constructor ()
      ensures Valid()
      ensures client == null && accessToken == None && authServer == None && resourceServer == None
      ensures !stored
    {
      client := null;
      accessToken := None;
      authServer := None;
      resourceServer := None;
      stored := false;
      clientId := None;
      clientSecret := None;
      tenant := None;
      sslVerify := None;
      defaults := Defaults(None, None, None, None, None);
    }

    /** `connect(params)`. */
    method Connect(params: Value) returns (r: Result<()>)
      requires Valid()
      modifies this
      ensures Valid()
      // falsy or non-dict parameters fail before any field is set
      ensures !Truthy(params) ==> r == Err(NoParameters) && unchanged(this)
      ensures Truthy(params) && !params.Dict? ==> r == Err(InitFailure(NoAttribute(params, "get"))) && unchanged(this)
      // otherwise every parameter is stored, the defaults included
      ensures Truthy(params) && params.Dict? ==>
        var p := params.fields;
        && stored && clientId == Get(p, ClientId) && clientSecret == SecretOf(Get(p, ClientSecret))
        && authServer == Get(p, AuthorizationServer) && resourceServer == Get(p, ResourceServer)
        && tenant == Get(p, Tenant) && sslVerify == GetOr(p, SslVerify, Bool(true))
        && defaults == DefaultsOf(p) && accessToken == old(accessToken)
      // a client is built exactly when the five fields are truthy and its constructor accepts the URLs
      ensures r.Ok? <==> Truthy(params) && params.Dict?
                         && Required(clientId, clientSecret, authServer, resourceServer, tenant)
                         && PrepareServers(Icon, authServer, resourceServer).Ok?
      ensures r.Err? ==> client == old(client)
      ensures r.Err? && Truthy(params) && params.Dict? ==>
        if !Required(clientId, clientSecret, authServer, resourceServer, tenant) then r.error == MissingParameters
        else var e := PrepareServers(Icon, authServer, resourceServer).error;
          r.error == if e.IsPluginException() then e else InitFailure(e)
      ensures r.Ok? ==>
        && client != null && fresh(client) && client.flavour == Icon
        && client.clientId == clientId && client.clientSecret == clientSecret
        && client.tenant == tenant && client.sslVerify == sslVerify
        && Servers(client.authServer, client.resourceServer) == PrepareServers(Icon, authServer, resourceServer).value
        && client.CacheState() == Empty
    {
      if !Truthy(params) {
        return Err(NoParameters);
      }
      if !params.Dict? {
        return Err(InitFailure(NoAttribute(params, "get")));
      }
      Store(params.fields);
      r := BuildClient();
    }

    /** The assignments at the head of `connect`'s `try`. */
    method Store(p: map<string, Value>)
      modifies this
      ensures stored && clientId == Get(p, ClientId) && clientSecret == SecretOf(Get(p, ClientSecret))
        && authServer == Get(p, AuthorizationServer) && resourceServer == Get(p, ResourceServer)
        && tenant == Get(p, Tenant) && sslVerify == GetOr(p, SslVerify, Bool(true))
        && defaults == DefaultsOf(p)
      ensures accessToken == old(accessToken) && client == old(client)
    {
      stored, clientId, clientSecret := true, Get(p, ClientId), SecretOf(Get(p, ClientSecret));
      authServer, resourceServer, tenant := Get(p, AuthorizationServer), Get(p, ResourceServer), Get(p, Tenant);
      sslVerify, defaults := GetOr(p, SslVerify, Bool(true)), DefaultsOf(p);
    }

    /** The rest of `connect` once the parameters are stored: check the five
        required fields, then let the client's constructor check the URLs. */
    method BuildClient() returns (r: Result<()>)
      requires Valid()
      modifies this`client
      ensures Valid()
      ensures r.Ok? <==> Required(clientId, clientSecret, authServer, resourceServer, tenant)
                         && PrepareServers(Icon, authServer, resourceServer).Ok?
      ensures r.Err? ==> client == old(client)
      ensures r.Err? ==>
        if !Required(clientId, clientSecret, authServer, resourceServer, tenant) then r.error == MissingParameters
        else var e := PrepareServers(Icon, authServer, resourceServer).error;
          r.error == if e.IsPluginException() then e else InitFailure(e)
      ensures r.Ok? ==>
        && client != null && fresh(client) && client.flavour == Icon
        && client.clientId == clientId && client.clientSecret == clientSecret
        && client.tenant == tenant && client.sslVerify == sslVerify
        && Servers(client.authServer, client.resourceServer) == PrepareServers(Icon, authServer, resourceServer).value
        && client.CacheState() == Empty
    {
      if !Required(clientId, clientSecret, authServer, resourceServer, tenant) {
        return Err(MissingParameters);
      }
      var servers := PrepareServers(Icon, authServer, resourceServer);
      if servers.Err? {
        return Err(if servers.error.IsPluginException() then servers.error else InitFailure(servers.error));
      }
      client := new Client(Icon, clientId, clientSecret, servers.value, tenant, sslVerify);
      return Ok(());
    }

    /** `test()`. `token` is the clock and token endpoint of its own
        `get_access_token` call and `probe` the server behind the
        `/tickettypes` request, whose events the trace records. */
    method Test(token: TokenCall, probe: Server) returns (r: Result<Value>, probeTrace: seq<Event>)
      requires Valid()
      modifies client
      // whatever goes wrong, test raises a ConnectionTestException
      ensures r.Err? ==> r.error.ConnectionTest?
      ensures r.Err? ==> probeTrace == []
      ensures !stored || !Sliceable(clientId) || client == null ==> r.Err? && r.error.cause == UnexpectedCause
      ensures stored && Sliceable(clientId) && client != null ==>
        var f := TokenCache.GetAccessToken(old(client.CacheState()), token);
        && (f.result.Err? ==> r == Err(AsTestFailure(f.result.error)) && client.CacheState() == f.cache)
        && (f.result.Ok? && !Truthy(f.result.value) ==> r == Err(NoToken) && client.CacheState() == f.cache)
        && (f.result.Ok? && Truthy(f.result.value) && !HasLen(f.result.value) ==>
              r.Err? && r.error.cause == UnexpectedCause && client.CacheState() == f.cache)
        // with a usable token the test passes, whatever the probe does
        && (f.result.Ok? && Truthy(f.result.value) && HasLen(f.result.value) ==>
              var run := Retry.MakeRequest(Icon, f.cache, client.resourceServer + "/tickettypes", "GET",
                                           ProbeParams, None, 1, 15, probe);
              r == Ok(Passed) && probeTrace == run.trace && client.CacheState() == run.cache
              && |Sent(probeTrace)| <= 1)
    {
      probeTrace := [];
      if !stored {
        return Err(AsTestFailure(Other("AttributeError", "'Connection' object has no attribute 'tenant'"))), [];
      }
      if !Sliceable(clientId) {
        return Err(AsTestFailure(Other("TypeError", "'" + TypeNameOf(clientId) + "' object is not subscriptable"))), [];
      }
      if client == null {
        return Err(AsTestFailure(NoAttribute(None, "get_access_token"))), [];
      }
      ghost var f := TokenCache.GetAccessToken(client.CacheState(), token);
      var t, _ := client.GetAccessToken(token);
      assert t == f.result && client.CacheState() == f.cache;
      if t.Err? {
        return Err(AsTestFailure(t.error)), [];
      }
      if !Truthy(t.value) {
        return Err(NoToken), [];
      }
      if !HasLen(t.value) {
        return Err(AsTestFailure(Other("TypeError", "object of type '" + TypeNameOf(t.value) + "' has no len()"))), [];
      }
      // the probe's failure is logged and ignored
      ghost var run := Retry.MakeRequest(Icon, f.cache, client.resourceServer + "/tickettypes", "GET",
                                         ProbeParams, None, 1, 15, probe);
      var _, trace := client.MakeRequest("GET", "/tickettypes", ProbeParams, None, 1, 15, probe);
      assert trace == run.trace && client.CacheState() == run.cache;
      return Ok(Passed), trace;
    }
  }
}
