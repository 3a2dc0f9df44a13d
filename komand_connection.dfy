/** The older `Connection`: both credentials are read from secret-store
    dicts, nothing is wrapped in `connect`, and `test` turns every failure of
    the token request or of a `/tickets` probe into one error. */
module KomandConnection {
  import opened PyValue
  import opened Errors
  import opened TokenCache
  import opened Retry
  import opened ApiClient
  import opened Schema
  import opened ConnectionParams

  /** `params.get(key, {}).get("secretKey")`. */
  function CredentialOf(p: map<string, Value>, key: string): (r: Result<Value>)
    // an absent parameter reads as None
    ensures key !in p ==> r == Ok(None)
    ensures key in p && p[key].Dict? ==> r == Ok(Get(p[key].fields, "secretKey"))
    // anything but a dict under the key has no `get`
    ensures key in p && !p[key].Dict? ==> r == Err(NoAttribute(p[key], "get"))
  {
    var holder := GetOr(p, key, Dict(map[]));
    if holder.Dict? then Ok(Get(holder.fields, "secretKey")) else Err(NoAttribute(holder, "get"))
  }

  const TestCause := "Connection test failed"

  /** `test`'s single handler. */
  function TestFailure(e: Error): (r: Error)
    // every failure is the one ConnectionTestException cause
    ensures r.ConnectionTest? && r.cause == TestCause
    // the message is kept whole: as data, and after the fixed text of the assistance
    ensures r.data == Text(e)
    ensures |r.assistance| == |UnableToConnect| + |r.data|
    ensures r.assistance[..|UnableToConnect|] == UnableToConnect && r.assistance[|UnableToConnect|..] == r.data
  {
    ConnectionTest(TestCause, UnableToConnect + Text(e), Text(e))
  }

  /** Two failures of `test` are reported alike exactly when their messages
      agree. */
  lemma TestFailureByText(e1: Error, e2: Error)
    ensures TestFailure(e1) == TestFailure(e2) <==> Text(e1) == Text(e2)
  {
  }

  const ProbeParams: Value := Dict(map["count" := Int(1)])

  class Connection {
    var client: Client?
    var accessToken: Value
    var authServer: Value
    var resourceServer: Value
    var clientId: Value
    var clientSecret: Value
    var tenant: Value
    var sslVerify: Value
    var defaults: Defaults

    /** The client a connection builds is always of its own revision. */
    predicate Valid()
      reads this`client
    {
      client != null ==> client.flavour == Komand
    }

    /** `__init__`; the attributes it does not set are modelled as None. */
    constructor ()
      ensures Valid()
      ensures client == null && accessToken == None && authServer == None && resourceServer == None
    {
      client := null;
      accessToken := None;
      authServer := None;
      resourceServer := None;
      clientId := None;
      clientSecret := None;
      tenant := None;
      sslVerify := None;
      defaults := Defaults(None, None, None, None, None);
    }

    /** `connect(params)`: every exception propagates as it is. */
    method Connect(params: Value) returns (r: Result<()>)
      requires Valid()
      modifies this`client, this`clientId, this`clientSecret, this`authServer, this`resourceServer,
        this`tenant, this`sslVerify, this`defaults
      ensures Valid()
      ensures !params.Dict? ==> r == Err(NoAttribute(params, "get")) && unchanged(this)
      ensures params.Dict? && CredentialOf(params.fields, ClientId).Err? ==>
        r == Err(CredentialOf(params.fields, ClientId).error) && unchanged(this)
      ensures params.Dict? && CredentialOf(params.fields, ClientId).Ok? ==>
        clientId == CredentialOf(params.fields, ClientId).value
      ensures params.Dict? && CredentialOf(params.fields, ClientId).Ok? && CredentialOf(params.fields, ClientSecret).Err? ==>
        && r == Err(CredentialOf(params.fields, ClientSecret).error) && client == old(client)
        // only `client_id` has been assigned when reading `client_secret` raises
        && clientSecret == old(clientSecret) && authServer == old(authServer)
        && resourceServer == old(resourceServer) && tenant == old(tenant)
        && sslVerify == old(sslVerify) && defaults == old(defaults)
      // `connect` never sets the token
      ensures accessToken == old(accessToken)
      // once both credentials are read, every other parameter is stored
      ensures params.Dict? && CredentialOf(params.fields, ClientId).Ok? && CredentialOf(params.fields, ClientSecret).Ok? ==>
        var p := params.fields;
        && clientSecret == CredentialOf(p, ClientSecret).value
        && authServer == Get(p, AuthorizationServer) && resourceServer == Get(p, ResourceServer)
        && tenant == Get(p, Tenant) && sslVerify == GetOr(p, SslVerify, Bool(true))
        && defaults == DefaultsOf(p)
        && (!Required(clientId, clientSecret, authServer, resourceServer, tenant) ==>
              r == Err(MissingParameters) && client == old(client))
        && (Required(clientId, clientSecret, authServer, resourceServer, tenant) ==>
              var servers := PrepareServers(Komand, authServer, resourceServer);
              (servers.Err? ==> r == Err(servers.error) && client == old(client))
              && (servers.Ok? ==>
                    r.Ok? && client != null && fresh(client) && client.flavour == Komand
                    && client.clientId == clientId && client.clientSecret == clientSecret
                    && Servers(client.authServer, client.resourceServer) == servers.value
                    && client.tenant == tenant && client.sslVerify == sslVerify
                    && client.CacheState() == Empty))
      ensures r.Ok? ==> Required(clientId, clientSecret, authServer, resourceServer, tenant)
    {
      if !params.Dict? {
        return Err(NoAttribute(params, "get"));
      }
      var p := params.fields;
      var id := CredentialOf(p, ClientId);
      if id.Err? {
        return Err(id.error);
      }
      clientId := id.value;
      var secret := CredentialOf(p, ClientSecret);
      if secret.Err? {
        return Err(secret.error);
      }
      Store(p, secret.value);
      r := BuildClient();
    }

    /** The assignments of `connect` after both credentials are read. */
    method Store(p: map<string, Value>, secret: Value)
      modifies this`clientSecret, this`authServer, this`resourceServer, this`tenant, this`sslVerify, this`defaults
      ensures clientSecret == secret
        && authServer == Get(p, AuthorizationServer) && resourceServer == Get(p, ResourceServer)
        && tenant == Get(p, Tenant) && sslVerify == GetOr(p, SslVerify, Bool(true))
        && defaults == DefaultsOf(p)
    {
      clientSecret, authServer, resourceServer := secret, Get(p, AuthorizationServer), Get(p, ResourceServer);
      tenant, sslVerify, defaults := Get(p, Tenant), GetOr(p, SslVerify, Bool(true)), DefaultsOf(p);
    }

    /** The rest of `connect`: the required-fields check, then the client,
        whose constructor checks nothing but strips the URLs. */
    method BuildClient() returns (r: Result<()>)
      requires Valid()
      modifies this`client
      ensures Valid()
      ensures !Required(clientId, clientSecret, authServer, resourceServer, tenant) ==>
        r == Err(MissingParameters) && client == old(client)
      ensures Required(clientId, clientSecret, authServer, resourceServer, tenant) ==>
        var servers := PrepareServers(Komand, authServer, resourceServer);
        && (servers.Err? ==> r == Err(servers.error) && client == old(client))
        && (servers.Ok? ==>
              r.Ok? && client != null && fresh(client) && client.flavour == Komand
              && client.clientId == clientId && client.clientSecret == clientSecret
              && Servers(client.authServer, client.resourceServer) == servers.value
              && client.tenant == tenant && client.sslVerify == sslVerify
              && client.CacheState() == Empty)
    {
      if !Required(clientId, clientSecret, authServer, resourceServer, tenant) {
        return Err(MissingParameters);
      }
      var servers := PrepareServers(Komand, authServer, resourceServer);
      if servers.Err? {
        return Err(servers.error);
      }
      client := new Client(Komand, clientId, clientSecret, servers.value, tenant, sslVerify);
      return Ok(());
    }

    /** `test()`: a token request, then `GET /tickets?count=1` with the
        default three attempts; the older client's requests always use a
        60-second timeout. */
    method Test(token: TokenCall, probe: Server) returns (r: Result<Value>, probeTrace: seq<Event>)
      requires Valid()
      modifies client
      ensures r.Err? ==> r.error.ConnectionTest? && r.error.cause == TestCause
      ensures client == null ==> r == Err(TestFailure(NoAttribute(None, "get_access_token"))) && probeTrace == []
      ensures client != null ==>
        var f := TokenCache.GetAccessToken(old(client.CacheState()), token);
        && (f.result.Err? ==> r == Err(TestFailure(f.result.error)) && probeTrace == [] && client.CacheState() == f.cache)
        // the token's value is not inspected: the probe decides
        && (f.result.Ok? ==>
              var run := Retry.MakeRequest(Komand, f.cache, client.resourceServer + "/tickets", "GET",
                                           ProbeParams, None, 3, 60, probe);
              && probeTrace == run.trace && client.CacheState() == run.cache
              && (run.result.Ok? ==> r == Ok(Passed))
              && (run.result.Err? ==> r == Err(TestFailure(run.result.error))))
    {
      if client == null {
        return Err(TestFailure(NoAttribute(None, "get_access_token"))), [];
      }
      ghost var f := TokenCache.GetAccessToken(client.CacheState(), token);
      var t, _ := client.GetAccessToken(token);
      assert t == f.result && client.CacheState() == f.cache;
      if t.Err? {
        return Err(TestFailure(t.error)), [];
      }
      ghost var run := Retry.MakeRequest(Komand, f.cache, client.resourceServer + "/tickets", "GET",
                                         ProbeParams, None, 3, 60, probe);
      var response;
      response, probeTrace := client.MakeRequest("GET", "/tickets", ProbeParams, None, 3, 60, probe);
      assert response == run.result && probeTrace == run.trace && client.CacheState() == run.cache;
      if response.Err? {
        return Err(TestFailure(response.error)), probeTrace;
      }
      return Ok(Passed), probeTrace;
    }
  }
}
