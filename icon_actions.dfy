/** The newer plugin's actions. Each `run` reads its parameters, may refuse
    them before any request, then calls the client (modelled by `Api`, what
    `make_request` returns or raises for a call) and shapes the output.
    `_ensure_client()` is taken to do nothing. */
module IconActions {
  import opened PyValue
  import opened Errors
  import opened ApiClient
  import opened Normalize
  import opened Payloads
  import opened Schema
  import opened ConnectionParams
  import opened ActionCommon

  const MissingTicketType: Error :=
    Plugin("Missing ticket type ID",
           "Please provide tickettype_id in action parameters or set default_ticket_type_id in connection configuration", "")

  // ---------------------------------------------------------------- create

  const CreateCause := "Failed to create ticket"

  /** `CreateTicket.run`: the ticket type is checked before anything is sent;
      the `field_defaults` loop then fills the optional fields. A response
      that is not a dict fails at `result.get('id')`. */
  method CreateTicket(api: Api, params: map<string, Value>, d: Defaults) returns (a: Answer)
    ensures !Truthy(TicketType(params, d)) ==> a == Answer(Err(MissingTicketType), [])
    ensures Truthy(TicketType(params, d)) ==>
      var sent := ApiClient.CreateTicket(api, Dict(CreateData(params, d)));
      && a.calls == sent.calls
      && (sent.result.Err? ==> a.result == Err(Rethrow(sent.result.error, CreateCause)))
      && (sent.result.Ok? && sent.result.value.Dict? ==>
            a.result == Ok(TicketOutput(ActionNormalize(sent.result.value).value, true)))
      && (sent.result.Ok? && !sent.result.value.Dict? ==>
            a.result == Err(Rethrow(NoAttribute(sent.result.value, "get"), CreateCause)))
    // whatever fails, the action raises a PluginException
    ensures a.result.Err? ==> a.result.error.IsPluginException()
  {
    var data := map["summary" := Get(params, Summary), "details" := Get(params, Details), "actioncode" := Int(0)];
    var ticketType := Or(Get(params, TickettypeId), d.ticketType);
    if !Truthy(ticketType) {
      return Answer(Err(MissingTicketType), []);
    }
    data := data["tickettype_id" := ticketType];
    var rows := CreateRows(d);
    var i := 0;
    while i < |rows|
      invariant 0 <= i <= |rows|
      invariant Fill(data, params, rows[i..]) == Fill(CreateBase(params, ticketType), params, rows)
    {
      assert rows[i..][0] == rows[i] && rows[i..][1..] == rows[i + 1..];
      var value := RowValue(params, rows[i]);
      if !value.None? {
        data := data[rows[i].field := value];
      }
      i := i + 1;
    }
    var custom := GetOr(params, Customfields, List([]));
    if Truthy(custom) {
      data := data["customfields" := custom];
    }
    assert data == CreateData(params, d);
    var sent := ApiClient.CreateTicket(api, Dict(data));
    if sent.result.Err? {
      return Answer(Err(Rethrow(sent.result.error, CreateCause)), sent.calls);
    }
    var result := sent.result.value;
    if !result.Dict? {
      return Answer(Err(Rethrow(NoAttribute(result, "get"), CreateCause)), sent.calls);
    }
    var ticket := ActionNormalize(result);
    return Answer(Ok(TicketOutput(ticket.value, true)), sent.calls);
  }

  /** With only summary and details given, the connection defaults fill the
      ticket type, priority, team, agent and category. */
  lemma CreateUsesConnectionDefaults()
    ensures CreateData(map[Summary := Str("Test Ticket with Defaults"), Details := Str("Test Details")],
                       Defaults(Int(1), Int(3), Int(15), Int(42), Int(8)))
         == map["summary" := Str("Test Ticket with Defaults"), "details" := Str("Test Details"),
                "actioncode" := Int(0), "tickettype_id" := Int(1), "priority_id" := Int(3),
                "team_id" := Int(15), "agent_id" := Int(42), "category_id" := Int(8)]
  {
    var p := map[Summary := Str("Test Ticket with Defaults"), Details := Str("Test Details")];
    var d := Defaults(Int(1), Int(3), Int(15), Int(42), Int(8));
    var expected := map["summary" := Str("Test Ticket with Defaults"), "details" := Str("Test Details"),
                        "actioncode" := Int(0), "tickettype_id" := Int(1), "priority_id" := Int(3),
                        "team_id" := Int(15), "agent_id" := Int(42), "category_id" := Int(8)];
    CreateDataShape(p, d);
    var data := CreateData(p, d);
    var rows := CreateRows(d);
    assert RowValue(p, rows[0]) == Int(3) && rows[0].field == "priority_id";
    assert RowValue(p, rows[1]) == None && rows[1].field == "status_id";
    assert RowValue(p, rows[2]) == Int(8) && rows[2].field == "category_id";
    assert RowValue(p, rows[3]) == Int(42) && rows[3].field == "agent_id";
    assert RowValue(p, rows[4]) == Int(15) && rows[4].field == "team_id";
    assert RowValue(p, rows[5]) == None && rows[5].field == "site_id";
    assert RowValue(p, rows[6]) == None && rows[6].field == "user_id";
    assert !Truthy(GetOr(p, Customfields, List([])));
    assert data.Keys == expected.Keys;
  }

  // ---------------------------------------------------------------- update

  const UpdateCause := "Failed to update ticket"

  /** `UpdateTicket.run`: the `field_mapping` loop keeps every parameter that
      is not None; the output is the action normalizer's view of the result. */
  method UpdateTicket(api: Api, params: map<string, Value>) returns (a: Answer)
    ensures var sent := ApiClient.UpdateTicket(api, UpdateData(params));
      && a.calls == sent.calls
      && (sent.result.Err? ==> a.result == Err(Rethrow(sent.result.error, UpdateCause)))
      && (sent.result.Ok? && sent.result.value.Dict? ==>
            a.result == Ok(TicketOutput(ActionNormalize(sent.result.value).value, true)))
      && (sent.result.Ok? && !sent.result.value.Dict? ==>
            a.result == Err(Rethrow(ActionNormalize(sent.result.value).error, UpdateCause)))
    // the request is always made: the payload always carries "id"
    ensures |a.calls| == 1 && a.calls[0] == Call("POST", "/tickets", None, List([Dict(UpdateData(params))]))
    ensures a.result.Err? ==> a.result.error.IsPluginException()
  {
    var data := map["id" := Get(params, TicketId), "actioncode" := Int(1)];
    var rows := UpdateRows;
    var i := 0;
    while i < |rows|
      invariant 0 <= i <= |rows|
      invariant Fill(data, params, rows[i..]) == Fill(UpdateBase(params), params, rows)
    {
      assert rows[i..][0] == rows[i] && rows[i..][1..] == rows[i + 1..];
      var value := Get(params, rows[i].input);
      if !value.None? {
        data := data[rows[i].field := value];
      }
      i := i + 1;
    }
    var custom := GetOr(params, Customfields, List([]));
    if Truthy(custom) {
      data := data["customfields" := custom];
    }
    assert data == UpdateData(params);
    UpdateDataShape(params);
    var sent := ApiClient.UpdateTicket(api, data);
    if sent.result.Err? {
      return Answer(Err(Rethrow(sent.result.error, UpdateCause)), sent.calls);
    }
    var ticket := ActionNormalize(sent.result.value);
    if ticket.Err? {
      return Answer(Err(Rethrow(ticket.error, UpdateCause)), sent.calls);
    }
    return Answer(Ok(TicketOutput(ticket.value, true)), sent.calls);
  }

  // ---------------------------------------------------------------- get

  const RetrieveCause := "Failed to retrieve ticket"

  /** `GetTicket.run`. */
  function GetTicket(api: Api, resourceServer: string, params: map<string, Value>): (a: Answer)
    // refused ids are refused before any request, missing first
    ensures CheckTicketId(Get(params, TicketId)).Err? ==>
      a == Answer(Err(CheckTicketId(Get(params, TicketId)).error), [])
    ensures CheckTicketId(Get(params, TicketId)).Ok? ==>
      var id := Get(params, TicketId);
      var reply := api(Call("GET", TicketPath(id), None, None));
      && a.calls == [Call("GET", TicketPath(id), None, None)]
      && (reply.Err? ==> a.result == Err(Rethrow(reply.error, RetrieveCause)))
      // the "not found" PluginException is raised inside the try and passes through
      && (reply.Ok? && !Truthy(reply.value) ==> a.result == Err(NotFound(id)))
      && (reply.Ok? && Truthy(reply.value) ==> a.result == Ok(TicketOutput(ClientNormalize(resourceServer, reply.value), true)))
    ensures a.result.Err? ==> a.result.error.IsPluginException()
  {
    var id := Get(params, TicketId);
    match CheckTicketId(id)
    case Err(e) => Answer(Err(e), [])
    case Ok(_) =>
      var g := ApiClient.GetTicket(api, id);
      match g.result
      case Err(e) => Answer(Err(Rethrow(e, RetrieveCause)), g.calls)
      case Ok(ticket) =>
        if !Truthy(ticket) then Answer(Err(NotFound(id)), g.calls)
        else Answer(Ok(TicketOutput(ClientNormalize(resourceServer, ticket), true)), g.calls)
  }

  /** The ids the tests reject: 0 is missing, "invalid" and -5 are invalid. */
  lemma TicketIdExamples()
    ensures CheckTicketId(Int(0)) == Err(MissingTicketId)
    ensures CheckTicketId(Str("invalid")) == Err(InvalidTicketId)
    ensures CheckTicketId(Int(-5)) == Err(InvalidTicketId)
    ensures CheckTicketId(Int(12345)) == Ok(12345)
  {
  }

  // ---------------------------------------------------------------- search

  const SearchCause := "Failed to search tickets"

  /** `SearchTickets.run`: the query, then a loop normalizing every ticket in
      order. */
  method SearchTickets(api: Api, resourceServer: string, params: map<string, Value>) returns (a: Answer)
    ensures var sent := ApiClient.SearchTickets(api, Dict(SearchParams(params)));
      && a.calls == sent.calls
      && (sent.result.Err? ==> a.result == Err(Rethrow(sent.result.error, SearchCause)))
      && (sent.result.Ok? && Elements(sent.result.value).Err? ==>
            a.result == Err(Rethrow(Elements(sent.result.value).error, SearchCause)))
      && (sent.result.Ok? && Elements(sent.result.value).Ok? ==>
            a.result == Ok(SearchOutput(NormalizeAll(resourceServer, Elements(sent.result.value).value))))
    ensures a.result.Err? ==> a.result.error.IsPluginException()
  {
    var search := GetOr(params, Search, Str(""));
    var count := GetOr(params, Count, Int(50));
    var pageNo := GetOr(params, PageNo, Int(1));
    var query := map["count" := count, "page_no" := pageNo];
    if Truthy(search) {
      query := query["search" := search];
    }
    assert query == SearchParams(params);
    var sent := ApiClient.SearchTickets(api, Dict(query));
    if sent.result.Err? {
      return Answer(Err(Rethrow(sent.result.error, SearchCause)), sent.calls);
    }
    var tickets := Elements(sent.result.value);
    if tickets.Err? {
      return Answer(Err(Rethrow(tickets.error, SearchCause)), sent.calls);
    }
    var normalized: seq<Value> := [];
    var i := 0;
    while i < |tickets.value|
      invariant 0 <= i <= |tickets.value|
      invariant |normalized| == i
      invariant forall j :: 0 <= j < i ==> normalized[j] == ClientNormalize(resourceServer, tickets.value[j])
    {
      normalized := normalized + [ClientNormalize(resourceServer, tickets.value[i])];
      i := i + 1;
    }
    NormalizedPointwise(resourceServer, tickets.value, normalized);
    return Answer(Ok(SearchOutput(normalized)), sent.calls);
  }

  // ---------------------------------------------------------------- close

  /** The update `CloseTicket.run` sends: id and status, and the resolution
      with a matching details line exactly when the resolution is truthy. */
  function CloseData(id: Value, status: Value, resolution: Value): (r: map<string, Value>)
    ensures "id" in r && "status_id" in r && r["id"] == id && r["status_id"] == status
    ensures Truthy(resolution) ==>
      r.Keys == {"id", "status_id", "resolution", "details"} && r["resolution"] == resolution
      && r["details"] == Str("Ticket closed with resolution: " + PyStr(resolution))
    ensures !Truthy(resolution) ==> r.Keys == {"id", "status_id"}
  {
    var data := map["id" := id, "status_id" := status];
    if Truthy(resolution) then
      data["resolution" := resolution]["details" := Str("Ticket closed with resolution: " + PyStr(resolution))]
    else data
  }

  function CloseCause(id: Value): string {
    "Failed to close ticket " + PyStr(id)
  }

  /** The ticket reported when the read-back fails after a successful close. */
  function ClosedFallback(id: Value, status: Value): Value {
    Dict(map["id" := id, "summary" := Str("Ticket closed successfully"), "status_id" := status])
  }

  /** `CloseTicket.run` (status 4, "Resolved", unless given). The outer
      handler's wrapping never applies: every failure that reaches it is
      already a PluginException. */
  method CloseTicket(api: Api, resourceServer: string, params: map<string, Value>) returns (a: Answer)
    ensures !Truthy(Get(params, TicketId)) ==> a == Answer(Err(MissingTicketId), [])
    ensures Truthy(Get(params, TicketId)) ==>
      var id := Get(params, TicketId);
      var status := GetOr(params, StatusId, Int(4));
      var update := Call("POST", "/tickets", None, List([Dict(CloseData(id, status, GetOr(params, Resolution, Str(""))))]));
      var read := Call("GET", TicketPath(id), None, None);
      && 1 <= |a.calls| <= 2 && a.calls[0] == update
      && (api(update).Err? ==> a == Answer(Err(Rethrow(api(update).error, CloseCause(id))), [update]))
      && (api(update).Ok? && !Truthy(FirstIfList(api(update).value)) ==>
            a == Answer(Err(Plugin(CloseCause(id), "The ticket update operation returned no result", "")), [update]))
      // after a successful close the action succeeds, with or without the read-back
      && (api(update).Ok? && Truthy(FirstIfList(api(update).value)) ==>
            a.calls == [update, read]
            && (api(read).Ok? ==> a.result == Ok(TicketOutput(ClientNormalize(resourceServer, api(read).value), true)))
            && (api(read).Err? ==> a.result == Ok(TicketOutput(ClosedFallback(id, status), true))))
    ensures a.result.Err? ==> a.result.error.IsPluginException()
  {
    var id := Get(params, TicketId);
    var resolution := GetOr(params, Resolution, Str(""));
    var status := GetOr(params, StatusId, Int(4));
    if !Truthy(id) {
      return Answer(Err(MissingTicketId), []);
    }
    var data := map["id" := id, "status_id" := status];
    if Truthy(resolution) {
      data := data["resolution" := resolution];
      data := data["details" := Str("Ticket closed with resolution: " + PyStr(resolution))];
    }
    assert data == CloseData(id, status, resolution);
    var u := ApiClient.UpdateTicket(api, data);
    if u.result.Err? {
      return Answer(Err(Rethrow(u.result.error, CloseCause(id))), u.calls);
    }
    if !Truthy(u.result.value) {
      return Answer(Err(Plugin(CloseCause(id), "The ticket update operation returned no result", "")), u.calls);
    }
    var g := ApiClient.GetTicket(api, id);
    var ticket;
    if g.result.Ok? {
      ticket := ClientNormalize(resourceServer, g.result.value);
    } else {
      ticket := ClosedFallback(id, status);
    }
    return Answer(Ok(TicketOutput(ticket, true)), u.calls + g.calls);
  }

  // ---------------------------------------------------------------- comment

  /** The newer `add_comment` guard: no id, or a note that is empty or only
      whitespace, means test mode. `note_html.strip()` is reached only for a
      truthy note, and raises for one that is not a string. */
  function TestMode(id: Value, note: Value): (r: Result<bool>)
    ensures r.Err? <==> Truthy(id) && Truthy(note) && !note.Str?
    ensures r.Err? ==> r.error == NoAttribute(note, "strip")
    ensures r == Ok(false) <==> Truthy(id) && note.Str? && note.s != "" && !Blank(note.s)
  {
    if !Truthy(id) || PyEq(id, Int(0)) || !Truthy(note) then Ok(true)
    else if !note.Str? then Err(NoAttribute(note, "strip"))
    else Ok(Blank(note.s))
  }

  /** The output in test mode. */
  function TestModeOutput(id: Value): Value {
    TicketOutput(Dict(map["id" := (if Truthy(id) then id else Int(0)),
                          "summary" := Str("Test mode - no actual operation performed")]), false)
  }

  function CommentFailed(id: Value): Error {
    Plugin("Failed to add comment to ticket " + PyStr(id), "The comment creation operation returned no result", "")
  }

  /** `AddComment.run` (newer). Exceptions from `add_comment` propagate as
      they are; a failing read-back is replaced by a minimal ticket. */
  function AddComment(api: Api, resourceServer: string, params: map<string, Value>): (a: Answer)
    ensures var id := Get(params, TicketId);
      var note := GetOr(params, NoteHtml, Str(""));
      && (TestMode(id, note).Err? ==> a == Answer(Err(TestMode(id, note).error), []))
      // test mode makes no request and reports success False
      && (TestMode(id, note) == Ok(true) ==> a == Answer(Ok(TestModeOutput(id)), []))
      && (TestMode(id, note) == Ok(false) ==>
            var post := Call("POST", "/ticketnotes", None, List([Dict(NoteData(params, note))]));
            var read := Call("GET", TicketPath(id), None, None);
            && 1 <= |a.calls| <= 2 && a.calls[0] == post
            && (api(post).Err? ==> a == Answer(api(post), [post]))
            && (api(post).Ok? && !Truthy(FirstIfList(api(post).value)) ==> a == Answer(Err(CommentFailed(id)), [post]))
            && (api(post).Ok? && Truthy(FirstIfList(api(post).value)) ==>
                  a.calls == [post, read]
                  && (api(read).Ok? ==> a.result == Ok(TicketOutput(ClientNormalize(resourceServer, api(read).value), true)))
                  && (api(read).Err? ==>
                        a.result == Ok(TicketOutput(Dict(map["id" := id, "summary" := Str("Comment added successfully")]), true)))))
  {
    var id := Get(params, TicketId);
    var note := GetOr(params, NoteHtml, Str(""));
    match TestMode(id, note)
    case Err(e) => Answer(Err(e), [])
    case Ok(test) =>
      if test then Answer(Ok(TestModeOutput(id)), [])
      else
        var posted := AddNote(api, Dict(NoteData(params, note)));
        match posted.result
        case Err(e) => Answer(Err(e), posted.calls)
        case Ok(result) =>
          if !Truthy(result) then Answer(Err(CommentFailed(id)), posted.calls)
          else
            var g := ApiClient.GetTicket(api, id);
            var ticket := if g.result.Ok? then ClientNormalize(resourceServer, g.result.value)
                          else Dict(map["id" := id, "summary" := Str("Comment added successfully")]);
            Answer(Ok(TicketOutput(ticket, true)), posted.calls + g.calls)
  }

  // ---------------------------------------------------------------- agent, user

  /** The shared shape of `GetAgent.run` and `GetUser.run`: one GET, "not
      found" for a falsy response, the first element of a list. */
  function GetRecord(api: Api, noun: string, endpoint: string, outKey: string, id: Value): (a: Answer)
    ensures a.calls == [Call("GET", endpoint + PyStr(id), None, None)]
    ensures var reply := api(a.calls[0]);
      && (reply.Err? ==> a.result == Err(RethrowText(reply.error, "Failed to get " + Lower(noun) + " " + PyStr(id))))
      // a falsy response, an empty list included, is "not found"
      && (reply.Ok? && !Truthy(reply.value) ==>
            a.result == Err(Plugin(noun + " " + PyStr(id) + " not found", "Verify the " + Lower(noun) + " ID exists in HaloITSM", "")))
      && (reply.Ok? && Truthy(reply.value) ==>
            a.result == Ok(Dict(map[outKey := (if reply.value.List? then reply.value.items[0] else reply.value),
                                    SuccessOut := Bool(true)])))
    ensures a.result.Err? ==> a.result.error.IsPluginException()
  {
    var call := Call("GET", endpoint + PyStr(id), None, None);
    match api(call)
    case Err(e) => Answer(Err(RethrowText(e, "Failed to get " + Lower(noun) + " " + PyStr(id))), [call])
    case Ok(response) =>
      if !Truthy(response) then
        Answer(Err(Plugin(noun + " " + PyStr(id) + " not found", "Verify the " + Lower(noun) + " ID exists in HaloITSM", "")), [call])
      else
        var record := if response.List? then response.items[0] else response;
        Answer(Ok(Dict(map[outKey := record, SuccessOut := Bool(true)])), [call])
  }

  function Lower(noun: string): string {
    if noun == "Agent" then "agent" else if noun == "User" then "user" else noun
  }

  /** `GetAgent.run`: GET /agent/{agent_id}. */
  function GetAgent(api: Api, params: map<string, Value>): (a: Answer)
    ensures var id := Get(params, AgentId);
      a.calls == [Call("GET", "/agent/" + PyStr(id), None, None)]
    // every error leaving the action is a PluginException
    ensures a.result.Err? ==> a.result.error.IsPluginException()
    ensures var id := Get(params, AgentId);
      var reply := api(a.calls[0]);
      && (reply.Ok? && !Truthy(reply.value) ==> a.result.Err? && a.result.error.cause == "Agent " + PyStr(id) + " not found")
      && (reply.Err? && reply.error.IsPluginException() ==> a.result == reply)
      && (reply.Err? && !reply.error.IsPluginException() ==>
            a.result.Err? && a.result.error.cause == "Failed to get agent " + PyStr(id)
            && a.result.error.assistance == Text(reply.error))
      && (reply.Ok? && Truthy(reply.value) ==>
            a.result == Ok(Dict(map[AgentOut := FirstIfList(reply.value), SuccessOut := Bool(true)])))
  {
    GetRecord(api, "Agent", "/agent/", AgentOut, Get(params, AgentId))
  }

  /** `GetUser.run`: GET /users/{user_id}. */
  function GetUser(api: Api, params: map<string, Value>): (a: Answer)
    ensures var id := Get(params, UserId);
      a.calls == [Call("GET", "/users/" + PyStr(id), None, None)]
    // every error leaving the action is a PluginException
    ensures a.result.Err? ==> a.result.error.IsPluginException()
    ensures var id := Get(params, UserId);
      var reply := api(a.calls[0]);
      && (reply.Ok? && !Truthy(reply.value) ==> a.result.Err? && a.result.error.cause == "User " + PyStr(id) + " not found")
      && (reply.Err? && reply.error.IsPluginException() ==> a.result == reply)
      && (reply.Err? && !reply.error.IsPluginException() ==>
            a.result.Err? && a.result.error.cause == "Failed to get user " + PyStr(id)
            && a.result.error.assistance == Text(reply.error))
      && (reply.Ok? && Truthy(reply.value) ==>
            a.result == Ok(Dict(map[UserOut := FirstIfList(reply.value), SuccessOut := Bool(true)])))
  {
    GetRecord(api, "User", "/users/", UserOut, Get(params, UserId))
  }
}
