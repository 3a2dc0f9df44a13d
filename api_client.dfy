/** `HaloITSMAPI`, the authenticated client of both revisions: its
    constructor's URL handling, the token cache it keeps in two fields, the
    retry loop of `make_request`, and the helpers that unwrap responses. */
module ApiClient {
  import opened PyValue
  import opened Errors
  import opened TokenCache
  import opened Retry

  /** The two URLs `__init__` stores. */
  datatype Servers = Servers(auth: string, resource: string)

  /** What `__init__` makes of the two server URLs. The icon client strips
      trailing slashes only from truthy values (AttributeError for a truthy
      non-string), computes both before checking either, and rejects an empty
      result; the komand client calls `rstrip` on whatever it is given. */
  function PrepareServers(fl: Flavour, authServer: Value, resourceServer: Value): (r: Result<Servers>)
    ensures r.Ok? ==> authServer.Str? && resourceServer.Str?
    ensures r.Ok? ==> r.value.auth == RStripSlash(authServer.s) && r.value.resource == RStripSlash(resourceServer.s)
    // no trailing '/' survives
    ensures r.Ok? ==>
      (r.value.auth == "" || r.value.auth[|r.value.auth| - 1] != '/')
      && (r.value.resource == "" || r.value.resource[|r.value.resource| - 1] != '/')
    ensures fl == Icon ==>
      (r.Ok? <==> authServer.Str? && resourceServer.Str?
                  && RStripSlash(authServer.s) != "" && RStripSlash(resourceServer.s) != "")
    ensures fl == Komand ==> (r.Ok? <==> authServer.Str? && resourceServer.Str?)
    // a missing or all-slash authorization server is reported before the resource server
    ensures fl == Icon && (authServer.Str? || !Truthy(authServer)) && (resourceServer.Str? || !Truthy(resourceServer))
            && (!authServer.Str? || RStripSlash(authServer.s) == "") ==>
      r.Err? && r.error.Plugin? && r.error.cause == "Invalid authorization server"
  {
    if fl == Icon then
      if Truthy(authServer) && !authServer.Str? then Err(NoAttribute(authServer, "rstrip"))
      else if Truthy(resourceServer) && !resourceServer.Str? then Err(NoAttribute(resourceServer, "rstrip"))
      else
        var a := if Truthy(authServer) then RStripSlash(authServer.s) else "";
        var rs := if Truthy(resourceServer) then RStripSlash(resourceServer.s) else "";
        if a == "" then Err(Plugin("Invalid authorization server", "Authorization server URL cannot be empty", ""))
        else if rs == "" then Err(Plugin("Invalid resource server", "Resource server URL cannot be empty", ""))
        else Ok(Servers(a, rs))
    else
      if !authServer.Str? then Err(NoAttribute(authServer, "rstrip"))
      else if !resourceServer.Str? then Err(NoAttribute(resourceServer, "rstrip"))
      else Ok(Servers(RStripSlash(authServer.s), RStripSlash(resourceServer.s)))
  }

  class Client {
    const flavour: Flavour
    const clientId: Value
    const clientSecret: Value
    const authServer: string
    const resourceServer: string
    const tenant: Value
    const sslVerify: Value
    var accessToken: Value
    var tokenExpiresAt: int

    function CacheState(): Cache
      reads this
    {
      Cache(accessToken, tokenExpiresAt)
    }

    /** `__init__` once `PrepareServers` has accepted the URLs. */
    constructor (fl: Flavour, clientId: Value, clientSecret: Value, servers: Servers, tenant: Value, sslVerify: Value)
      ensures flavour == fl && this.clientId == clientId && this.clientSecret == clientSecret
      ensures authServer == servers.auth && resourceServer == servers.resource
      ensures this.tenant == tenant && this.sslVerify == sslVerify
      ensures CacheState() == Empty
    {
      flavour := fl;
      this.clientId := clientId;
      this.clientSecret := clientSecret;
      authServer := servers.auth;
      resourceServer := servers.resource;
      this.tenant := tenant;
      this.sslVerify := sslVerify;
      accessToken := None;
      tokenExpiresAt := 0;
    }

    /** `get_access_token`, updating the two cache fields as the source does. */
    method GetAccessToken(call: TokenCall) returns (r: Result<Value>, network: bool)
      modifies this
      ensures var f := TokenCache.GetAccessToken(old(CacheState()), call);
        r == f.result && network == f.network && CacheState() == f.cache
    {
      if Truthy(accessToken) && call.now < tokenExpiresAt - 60 {
        return Ok(accessToken), false;
      }
      network := true;
      match call.grant
      case Refused(m) =>
        r := Err(Plugin(TokenFailureCause, TokenFailureHelp, m));
      case Granted(body) =>
        if !body.Dict? {
          r := Err(NoAttribute(body, "get"));
          return;
        }
        accessToken := Get(body.fields, "access_token");
        var e := ExpiresIn(body.fields);
        if e.Err? {
          r := Err(e.error);
          return;
        }
        tokenExpiresAt := call.now + e.value;
        r := Ok(accessToken);
    }

    /** `make_request`: the token call, then the `for attempt` loop. */
    method MakeRequest(verb: string, endpoint: string, params: Value, json: Value,
                       retryCount: int, timeout: int, srv: Server)
      returns (result: Result<Value>, trace: seq<Event>)
      modifies this
      ensures var spec := Retry.MakeRequest(flavour, old(CacheState()), resourceServer + endpoint,
                                            verb, params, json, retryCount, timeout, srv);
        result == spec.result && trace == spec.trace && CacheState() == spec.cache
    {
      var token, fetched := GetAccessToken(srv.token(0));
      trace := if fetched then [TokenFetch(0)] else [];
      if token.Err? {
        return token, trace;
      }
      var req := Request(verb, resourceServer + endpoint, params, json, TimeoutFor(flavour, timeout));
      var events;
      result, events := RunLoop(req, Authorization(token.value), retryCount, srv);
      trace := trace + events;
    }

    /** The `for attempt in range(retry_count)` loop, from attempt 0 with the
        header `auth`. */
    method RunLoop(req: Request, auth: string, retryCount: int, srv: Server)
      returns (result: Result<Value>, trace: seq<Event>)
      modifies this
      ensures var run := Loop(flavour, old(CacheState()), auth, 0, retryCount, req, srv);
        result == run.result && trace == run.trace && CacheState() == run.cache
    {
      LoopFromIsLoop(flavour, CacheState(), auth, 0, retryCount, req, srv, []);
      ghost var spec := LoopFrom(flavour, CacheState(), auth, 0, retryCount, req, srv, []);
      trace := [];
      var header := auth;
      var attempt: nat := 0;
      while attempt < retryCount
        invariant LoopFrom(flavour, CacheState(), header, attempt, retryCount, req, srv, trace) == spec
        decreases retryCount - attempt
      {
        var done, res, header', events := RunAttempt(attempt, retryCount, req, header, srv);
        if done {
          return res, trace + events;
        }
        trace := trace + events;
        header := header';
        attempt := attempt + 1;
      }
      return Ok(None), trace;
    }

    /** One pass of the loop body: a 401 on a non-final attempt refreshes the
        token and `continue`s; a reply that does not raise is returned; a
        failure raises on the final attempt and is followed by the backoff
        sleep otherwise. */
    method RunAttempt(attempt: nat, retryCount: int, req: Request, auth: string, srv: Server)
      returns (done: bool, result: Result<Value>, auth': string, events: seq<Event>)
      requires attempt < retryCount
      modifies this
      ensures var st := Attempt(flavour, old(CacheState()), auth, attempt, retryCount, req, srv);
        && events == st.events && CacheState() == st.cache
        && (done <==> st.Finish?)
        && (st.Finish? ==> result == st.result)
        && (st.Again? ==> auth' == st.authorization)
    {
      ghost var c0 := CacheState();
      ghost var step := Attempt(flavour, c0, auth, attempt, retryCount, req, srv);
      auth' := auth;
      result := Ok(None);
      var reply := srv.reply(attempt);
      events := [Send(attempt, req, auth)];
      if reply.Response? && reply.status == 401 && attempt < retryCount - 1 {
        accessToken := None;
        var t, _ := GetAccessToken(srv.token(attempt + 1));
        events := [Send(attempt, req, auth), TokenFetch(attempt + 1)];
        if t.Ok? {
          auth' := Authorization(t.value);
          return false, result, auth', events;
        }
        if flavour == Komand {
          return true, t, auth', events;
        }
        // icon: the catch-all handler swallows the failed refresh
        assert flavour == Icon && t.Err?;
      } else if Succeeds(reply) {
        return true, Ok(Payload(reply)), auth', events;
      } else if flavour == Komand && reply.Crashed? {
        return true, Err(Other(reply.typeName, reply.message)), auth', events;
      } else if attempt == retryCount - 1 {
        return true, Err(Failure(flavour, reply, req.timeout)), auth', events;
      }
      events := events + [Sleep(attempt + 1)];
      done := false;
    }
  }

  /** A `make_request` call as the helpers and the actions issue it. */
  datatype Call = Call(verb: string, endpoint: string, params: Value, json: Value)

  /** `make_request` seen from outside the client: what it returns or raises. */
  type Api = Call -> Result<Value>

  /** An answer of a helper or an action: its result and the calls it made. */
  datatype Answer = Answer(result: Result<Value>, calls: seq<Call>)

  /** The unwrapping `create_ticket`, `update_ticket` and `add_comment` apply:
      the first element of a non-empty list, otherwise the response itself. */
  function FirstIfList(v: Value): (r: Value)
    // nothing is invented: the response itself or one of its elements
    ensures r == v || (v.List? && r in v.items)
    ensures v.List? && v.items != [] ==> r == v.items[0]
    // a one-element array echoed back is unwrapped to its element
    ensures v.List? && |v.items| == 1 ==> r == v.items[0]
    // anything that is not a non-empty list, the empty list included, is kept
    ensures !v.List? || v.items == [] ==> r == v
  {
    if v.List? && |v.items| > 0 then v.items[0] else v
  }

  /** The unwrapping `search_tickets` applies: the `tickets` field of a dict
      that has one, a list as it is, and an empty list for anything else. */
  function TicketsOf(v: Value): (r: Value)
    // nothing is invented: the response, its `tickets` entry, or no tickets
    ensures r == v || r == List([]) || (v.Dict? && "tickets" in v.fields && r == v.fields["tickets"])
    // a dict reads as `response.get("tickets", [])`
    ensures v.Dict? ==> r == GetOr(v.fields, "tickets", List([]))
    ensures v.List? ==> r == v
    // a scalar response means no tickets
    ensures !v.Dict? && !v.List? ==> r == List([])
    // the result is a list unless the dict's own `tickets` entry is not one
    ensures !r.List? ==> v.Dict? && "tickets" in v.fields
  {
    if v.Dict? && "tickets" in v.fields then v.fields["tickets"]
    else if v.List? then v
    else List([])
  }

  function TicketPath(id: Value): string {
    "/tickets/" + PyStr(id)
  }

  /** Different integer ids address different tickets. */
  lemma TicketPathsDistinct(i: int, j: int)
    requires i != j
    ensures TicketPath(Int(i)) != TicketPath(Int(j))
  {
    if TicketPath(Int(i)) == TicketPath(Int(j)) {
      assert IntToStr(i) == TicketPath(Int(i))[9..] == TicketPath(Int(j))[9..] == IntToStr(j);
      IntToStrInjective(i, j);
    }
  }

  /** `get_ticket`: the response as it is. */
  function GetTicket(api: Api, id: Value): (a: Answer)
    // one bodiless GET of the ticket's own path
    ensures |a.calls| == 1 && a.calls[0].verb == "GET" && a.calls[0].params == None && a.calls[0].json == None
    ensures a.calls[0].endpoint == "/tickets/" + PyStr(id)
    // the response or the error comes back untouched
    ensures a.result == api(a.calls[0])
  {
    var call := Call("GET", TicketPath(id), None, None);
    Answer(api(call), [call])
  }

  /** A POST of a one-element array, unwrapped by `FirstIfList`. */
  function PostOne(api: Api, endpoint: string, item: Value): (a: Answer)
    ensures a.calls == [Call("POST", endpoint, None, List([item]))]
    ensures a.result.Err? <==> api(a.calls[0]).Err?
    ensures a.result.Err? ==> a.result == api(a.calls[0])
    ensures a.result.Ok? ==> a.result.value == FirstIfList(api(a.calls[0]).value)
    // a server echoing the posted array gives back the posted item
    ensures api(a.calls[0]) == Ok(List([item])) ==> a.result == Ok(item)
  {
    var call := Call("POST", endpoint, None, List([item]));
    match api(call)
    case Ok(v) => Answer(Ok(FirstIfList(v)), [call])
    case Err(e) => Answer(Err(e), [call])
  }

  /** `create_ticket`: HaloITSM expects an array of tickets. */
  function CreateTicket(api: Api, data: Value): (a: Answer)
    ensures a.calls == [Call("POST", "/tickets", None, List([data]))]
    ensures a.result.Err? ==> a.result == api(a.calls[0])
    ensures a.result.Ok? ==>
      && api(a.calls[0]).Ok?
      && var v := api(a.calls[0]).value;
         a.result.value == if v.List? && v.items != [] then v.items[0] else v
  {
    PostOne(api, "/tickets", data)
  }

  /** `update_ticket`: refuses data without an "id" before any request. */
  function UpdateTicket(api: Api, data: map<string, Value>): (a: Answer)
    ensures "id" !in data ==> a.calls == [] && a.result.Err? && a.result.error.Plugin?
                              && a.result.error.cause == "Ticket ID missing"
    ensures "id" in data ==> a == PostOne(api, "/tickets", Dict(data))
  {
    if "id" !in data then
      Answer(Err(Plugin("Ticket ID missing", "Ticket data must include an 'id' field to update", "")), [])
    else
      PostOne(api, "/tickets", Dict(data))
  }

  /** `search_tickets`: the filters go in the query string. */
  function SearchTickets(api: Api, filters: Value): (a: Answer)
    ensures a.calls == [Call("GET", "/tickets", filters, None)]
    ensures a.result.Err? <==> api(a.calls[0]).Err?
    ensures a.result.Ok? ==> a.result.value == TicketsOf(api(a.calls[0]).value)
    // the result is a list unless the response carried a non-list "tickets" field
    ensures a.result.Ok? && !a.result.value.List? ==>
      var v := api(a.calls[0]).value; v.Dict? && "tickets" in v.fields
  {
    var call := Call("GET", "/tickets", filters, None);
    match api(call)
    case Ok(v) => Answer(Ok(TicketsOf(v)), [call])
    case Err(e) => Answer(Err(e), [call])
  }

  /** `delete_ticket`: True once the request did not raise. */
  function DeleteTicket(api: Api, id: Value): (a: Answer)
    ensures a.calls == [Call("DELETE", TicketPath(id), None, None)]
    ensures a.result.Ok? <==> api(a.calls[0]).Ok?
    ensures a.result.Ok? ==> a.result.value == Bool(true)
  {
    var call := Call("DELETE", TicketPath(id), None, None);
    match api(call)
    case Ok(_) => Answer(Ok(Bool(true)), [call])
    case Err(e) => Answer(Err(e), [call])
  }

  /** The icon client's `add_comment(note_data)`. */
  function AddNote(api: Api, note: Value): (a: Answer)
    ensures a.calls == [Call("POST", "/ticketnotes", None, List([note]))]
    ensures a.result.Err? ==> a.result == api(a.calls[0])
    // a single created note is returned unwrapped
    ensures api(a.calls[0]) == Ok(List([note])) ==> a.result == Ok(note)
    ensures a.result.Ok? ==> api(a.calls[0]).Ok? && a.result.value == FirstIfList(api(a.calls[0]).value)
  {
    PostOne(api, "/ticketnotes", note)
  }

  /** The note the komand client's `add_comment(ticket_id, comment, is_private=False)` posts. */
  function CommentData(ticketId: Value, comment: Value, isPrivate: Value): (d: Value)
    ensures d.Dict? && d.fields.Keys == {"ticket_id", "note", "isprivate"}
    ensures d.fields["ticket_id"] == ticketId && d.fields["note"] == comment && d.fields["isprivate"] == isPrivate
  {
    Dict(map["ticket_id" := ticketId, "note" := comment, "isprivate" := isPrivate])
  }

  /** A call of the komand client's `add_comment` with positional arguments,
      bound as Python binds them: two or three arguments, `is_private`
      defaulting to False; any other count is a TypeError before any request. */
  function AddComment(api: Api, args: seq<Value>): (a: Answer)
    ensures |args| < 2 || 3 < |args| ==> a.calls == [] && a.result.Err? && a.result.error == Other("TypeError", ArityMessage(|args|))
    ensures 2 <= |args| <= 3 ==>
      a == PostOne(api, "/ticketnotes", CommentData(args[0], args[1], if |args| == 3 then args[2] else Bool(false)))
  {
    if |args| < 2 || 3 < |args| then Answer(Err(Other("TypeError", ArityMessage(|args|))), [])
    else PostOne(api, "/ticketnotes", CommentData(args[0], args[1], if |args| == 3 then args[2] else Bool(false)))
  }

  function ArityMessage(given: nat): string {
    if given == 0 then "HaloITSMAPI.add_comment() missing 2 required positional arguments: 'ticket_id' and 'comment'"
    else if given == 1 then "HaloITSMAPI.add_comment() missing 1 required positional argument: 'comment'"
    else "HaloITSMAPI.add_comment() takes from 3 to 4 positional arguments but " + IntToStr(given + 1) + " were given"
  }

  /** Given the same three fields, the komand client's `add_comment` and the
      icon client's `add_comment(note_data)` make the same request with the
      same outcome. */
  lemma SameNoteBothRevisions(api: Api, ticketId: Value, comment: Value, isPrivate: Value)
    ensures AddComment(api, [ticketId, comment, isPrivate]) == AddNote(api, CommentData(ticketId, comment, isPrivate))
  {
  }

  /** The komand client's `add_comment(ticket_id, comment)` sends exactly one
      note with the three fields and `isprivate` False. */
  lemma KomandCommentPayload(api: Api, ticketId: Value, comment: Value)
    ensures var a := AddComment(api, [ticketId, comment]);
      a.calls == [Call("POST", "/ticketnotes", None, List([CommentData(ticketId, comment, Bool(false))]))]
      && CommentData(ticketId, comment, Bool(false)).fields["isprivate"] == Bool(false)
  {
  }
}
