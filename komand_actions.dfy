/** The older plugin's actions. They call `client._normalize_ticket` and
    `client.add_comment(note_data)`, but the older client defines no
    `_normalize_ticket` and its `add_comment` takes `(ticket_id, comment,
    is_private=False)`. `KomandClient` chooses between the client as it
    ships and a repaired one that has the newer client's two methods. Every
    failure inside an action's `try` is rewrapped with the action's cause. */
module KomandActions {
  import opened PyValue
  import opened Errors
  import opened ApiClient
  import opened Normalize
  import opened Payloads
  import opened Schema
  import opened ActionCommon

  /** The client the actions run against. */
  datatype KomandClient = AsShipped | Repaired(resourceServer: string)

  /** The AttributeError of the missing method. */
  const NoNormalizer: Error := Other("AttributeError", "'HaloITSMAPI' object has no attribute '_normalize_ticket'")

  /** `self.connection.client._normalize_ticket(t)`. */
  function KomandNormalize(kc: KomandClient, t: Value): (r: Result<Value>)
    // as shipped every call fails, whatever the ticket, and not with a
    // PluginException, so the actions' handlers rewrap it
    ensures r.Ok? <==> kc.Repaired?
    ensures kc.AsShipped? ==> r == Err(NoNormalizer) && !r.error.IsPluginException()
    // repaired, it is the newer client's normalizer (see `DictTicketShape`)
    ensures kc.Repaired? ==> r == Ok(ClientNormalize(kc.resourceServer, t))
  {
    match kc
    case AsShipped => Err(NoNormalizer)
    case Repaired(rs) => Ok(ClientNormalize(rs, t))
  }

  /** `self.connection.client.add_comment(note_data)`: one positional
      argument to the older client's method, or the newer client's
      `add_comment(note_data)`. */
  function PostNote(kc: KomandClient, api: Api, note: Value): (a: Answer)
    ensures kc.AsShipped? ==> a == Answer(Err(Other("TypeError", ArityMessage(1))), [])
    ensures kc.Repaired? ==> a == AddNote(api, note)
  {
    match kc
    case AsShipped => ApiClient.AddComment(api, [note])
    case Repaired(_) => AddNote(api, note)
  }

  // ---------------------------------------------------------------- assign

  const MissingTarget: Error :=
    Plugin("Missing assignment target", "Please provide either agent_id or team_id for assignment", "")

  function AssignCause(id: Value): string {
    "Failed to assign ticket " + PyStr(id)
  }

  /** The assignment update: the id, and the agent and the team each exactly
      when truthy. */
  function AssignData(id: Value, agent: Value, team: Value): (r: map<string, Value>)
    ensures "id" in r && r["id"] == id
    ensures "agent_id" in r <==> Truthy(agent)
    ensures "team_id" in r <==> Truthy(team)
    ensures "agent_id" in r ==> r["agent_id"] == agent
    ensures "team_id" in r ==> r["team_id"] == team
    ensures r.Keys <= {"id", "agent_id", "team_id"}
  {
    var data := map["id" := id];
    var data := if Truthy(agent) then data["agent_id" := agent] else data;
    if Truthy(team) then data["team_id" := team] else data
  }

  /** `AssignTicket.run`: both checks come before any request; inside the
      `try`, even its own "no result" PluginException is rewrapped. */
  method AssignTicket(kc: KomandClient, api: Api, params: map<string, Value>) returns (a: Answer)
    ensures !Truthy(Get(params, TicketId)) ==> a == Answer(Err(MissingTicketId), [])
    ensures Truthy(Get(params, TicketId)) && !Truthy(Get(params, AgentId)) && !Truthy(Get(params, TeamId)) ==>
      a == Answer(Err(MissingTarget), [])
    ensures Truthy(Get(params, TicketId)) && (Truthy(Get(params, AgentId)) || Truthy(Get(params, TeamId))) ==>
      var id := Get(params, TicketId);
      var update := Call("POST", "/tickets", None, List([Dict(AssignData(id, Get(params, AgentId), Get(params, TeamId)))]));
      var read := Call("GET", TicketPath(id), None, None);
      && 1 <= |a.calls| <= 2 && a.calls[0] == update
      // every failure past the checks has the assignment cause
      && (a.result.Err? ==> a.result.error.Plugin? && a.result.error.cause == AssignCause(id))
      && (api(update).Err? ==> a == Answer(Err(Rewrap(api(update).error, AssignCause(id))), [update]))
      && (api(update).Ok? && !Truthy(FirstIfList(api(update).value)) ==>
            a == Answer(Err(Rewrap(Plugin(AssignCause(id), "The ticket assignment operation returned no result", ""), AssignCause(id))), [update]))
      && (api(update).Ok? && Truthy(FirstIfList(api(update).value)) ==>
            a.calls == [update, read]
            && (api(read).Err? ==> a.result == Err(Rewrap(api(read).error, AssignCause(id))))
            && (api(read).Ok? && kc.AsShipped? ==> a.result == Err(Rewrap(NoNormalizer, AssignCause(id))))
            && (api(read).Ok? && kc.Repaired? ==>
                  a.result == Ok(TicketOutput(ClientNormalize(kc.resourceServer, api(read).value), true))))
    // as shipped the action never succeeds
    ensures kc.AsShipped? ==> a.result.Err?
  {
    var id := Get(params, TicketId);
    var agent := Get(params, AgentId);
    var team := Get(params, TeamId);
    if !Truthy(id) {
      return Answer(Err(MissingTicketId), []);
    }
    if !Truthy(agent) && !Truthy(team) {
      return Answer(Err(MissingTarget), []);
    }
    var cause := AssignCause(id);
    var data := map["id" := id];
    if Truthy(agent) {
      data := data["agent_id" := agent];
    }
    if Truthy(team) {
      data := data["team_id" := team];
    }
    assert data == AssignData(id, agent, team);
    var u := ApiClient.UpdateTicket(api, data);
    if u.result.Err? {
      return Answer(Err(Rewrap(u.result.error, cause)), u.calls);
    }
    if !Truthy(u.result.value) {
      var noResult := Plugin(cause, "The ticket assignment operation returned no result", "");
      return Answer(Err(Rewrap(noResult, cause)), u.calls);
    }
    var g := ApiClient.GetTicket(api, id);
    var calls := u.calls + g.calls;
    if g.result.Err? {
      return Answer(Err(Rewrap(g.result.error, cause)), calls);
    }
    var ticket := KomandNormalize(kc, g.result.value);
    if ticket.Err? {
      return Answer(Err(Rewrap(ticket.error, cause)), calls);
    }
    return Answer(Ok(TicketOutput(ticket.value, true)), calls);
  }

  // ---------------------------------------------------------------- comment

  const MissingNote: Error := Plugin("Missing note content", "Please provide note content in note_html parameter", "")

  function CommentCause(id: Value): string {
    "Failed to add comment to ticket " + PyStr(id)
  }

  /** `AddComment.run` (older): the note is read without a default, and
      there is no fallback when the read-back fails. */
  function AddComment(kc: KomandClient, api: Api, params: map<string, Value>): (a: Answer)
    ensures !Truthy(Get(params, TicketId)) ==> a == Answer(Err(MissingTicketId), [])
    ensures Truthy(Get(params, TicketId)) && !Truthy(Get(params, NoteHtml)) ==> a == Answer(Err(MissingNote), [])
    ensures Truthy(Get(params, TicketId)) && Truthy(Get(params, NoteHtml)) ==>
      var id := Get(params, TicketId);
      var posted := PostNote(kc, api, Dict(NoteData(params, Get(params, NoteHtml))));
      && (a.result.Err? ==> a.result.error.Plugin? && a.result.error.cause == CommentCause(id))
      && (posted.result.Err? ==> a == Answer(Err(Rewrap(posted.result.error, CommentCause(id))), posted.calls))
      && (posted.result.Ok? && !Truthy(posted.result.value) ==>
            a == Answer(Err(Rewrap(Plugin(CommentCause(id), "The comment creation operation returned no result", ""), CommentCause(id))),
                        posted.calls))
      && (posted.result.Ok? && Truthy(posted.result.value) ==>
            var read := Call("GET", TicketPath(id), None, None);
            && a.calls == posted.calls + [read]
            && (api(read).Err? ==> a.result == Err(Rewrap(api(read).error, CommentCause(id))))
            && (api(read).Ok? ==> a.result == (match KomandNormalize(kc, api(read).value)
                                               case Err(e) => Err(Rewrap(e, CommentCause(id)))
                                               case Ok(t) => Ok(TicketOutput(t, true)))))
  {
    var id := Get(params, TicketId);
    var note := Get(params, NoteHtml);
    if !Truthy(id) then Answer(Err(MissingTicketId), [])
    else if !Truthy(note) then Answer(Err(MissingNote), [])
    else
      var cause := CommentCause(id);
      var posted := PostNote(kc, api, Dict(NoteData(params, note)));
      match posted.result
      case Err(e) => Answer(Err(Rewrap(e, cause)), posted.calls)
      case Ok(result) =>
        if !Truthy(result) then
          Answer(Err(Rewrap(Plugin(cause, "The comment creation operation returned no result", ""), cause)), posted.calls)
        else
          var g := ApiClient.GetTicket(api, id);
          var calls := posted.calls + g.calls;
          match g.result
          case Err(e) => Answer(Err(Rewrap(e, cause)), calls)
          case Ok(t) =>
            match KomandNormalize(kc, t)
            case Err(e) => Answer(Err(Rewrap(e, cause)), calls)
            case Ok(n) => Answer(Ok(TicketOutput(n, true)), calls)
  }

  /** As shipped, a comment that passes the checks is never posted: the
      one-argument call fails to bind before any request. */
  lemma AddCommentAsShippedFails(api: Api, params: map<string, Value>)
    requires Truthy(Get(params, TicketId)) && Truthy(Get(params, NoteHtml))
    ensures var a := AddComment(AsShipped, api, params);
      && a.calls == []
      && a.result == Err(Rewrap(Other("TypeError", "HaloITSMAPI.add_comment() missing 1 required positional argument: 'comment'"),
                                CommentCause(Get(params, TicketId))))
  {
  }

  /** With the repaired client the five-field note is posted, and once the
      server answers both requests the action returns the normalized ticket. */
  lemma AddCommentRepaired(rs: string, api: Api, params: map<string, Value>)
    requires Truthy(Get(params, TicketId)) && Truthy(Get(params, NoteHtml))
    ensures var id := Get(params, TicketId);
      var post := Call("POST", "/ticketnotes", None, List([Dict(NoteData(params, Get(params, NoteHtml)))]));
      var read := Call("GET", TicketPath(id), None, None);
      var a := AddComment(Repaired(rs), api, params);
      && a.calls[0] == post
      && (api(post).Ok? && Truthy(FirstIfList(api(post).value)) && api(read).Ok? ==>
            a == Answer(Ok(TicketOutput(ClientNormalize(rs, api(read).value), true)), [post, read]))
  {
  }

  // ---------------------------------------------------------------- update

  function UpdateCause(id: Value): string {
    "Failed to update ticket " + PyStr(id)
  }

  /** `UpdateTicket.run` (older). The result goes through the older
      `CreateTicket._normalize_ticket`, which is not part of this model and
      is passed in as `normalize`. */
  method UpdateTicket(api: Api, normalize: Value -> Result<Value>, params: map<string, Value>) returns (a: Answer)
    ensures var id := Get(params, TicketId);
      var sent := ApiClient.UpdateTicket(api, UpdateData(params));
      && a.calls == sent.calls
      && (sent.result.Err? ==> a.result == Err(Rewrap(sent.result.error, UpdateCause(id))))
      && (sent.result.Ok? && normalize(sent.result.value).Err? ==>
            a.result == Err(Rewrap(normalize(sent.result.value).error, UpdateCause(id))))
      && (sent.result.Ok? && normalize(sent.result.value).Ok? ==>
            a.result == Ok(TicketOutput(normalize(sent.result.value).value, true)))
    // the request is always made: the payload always carries "id"
    ensures |a.calls| == 1 && a.calls[0] == Call("POST", "/tickets", None, List([Dict(UpdateData(params))]))
    ensures a.result.Err? ==> a.result.error.Plugin? && a.result.error.cause == UpdateCause(Get(params, TicketId))
  {
    var id := Get(params, TicketId);
    var data := map["id" := id, "actioncode" := Int(1)];
    var rows := UpdateRows;
    var i := 0;
    while i < |rows|
      invariant 0 <= i <= |rows|
      invariant Fill(data, params, rows[i..]) == Fill(UpdateBase(params), params, rows)
    {
      assert rows[i..][0] == rows[i] && rows[i..][1..] == rows[i + 1..];
      var value := Get(params, rows[i].input);
      if value != None {
        data := data[rows[i].field := value];
      }
      i := i + 1;
    }
    var custom := GetOr(params, Customfields, List([]));
    if Truthy(custom) {
      data := data["customfields" := custom];
    }
    assert data == UpdateData(params);
    UpdateDataShape(params);
    var sent := ApiClient.UpdateTicket(api, data);
    if sent.result.Err? {
      return Answer(Err(Rewrap(sent.result.error, UpdateCause(id))), sent.calls);
    }
    var ticket := normalize(sent.result.value);
    if ticket.Err? {
      return Answer(Err(Rewrap(ticket.error, UpdateCause(id))), sent.calls);
    }
    return Answer(Ok(TicketOutput(ticket.value, true)), sent.calls);
  }

  // ---------------------------------------------------------------- get

  function RetrieveCause(id: Value): string {
    "Failed to retrieve ticket " + PyStr(id)
  }

  /** `GetTicket.run` (older): the checks as in the newer action, but every
      failure inside the `try`, "not found" included, is rewrapped. */
  function GetTicket(kc: KomandClient, api: Api, params: map<string, Value>): (a: Answer)
    ensures CheckTicketId(Get(params, TicketId)).Err? ==>
      a == Answer(Err(CheckTicketId(Get(params, TicketId)).error), [])
    ensures CheckTicketId(Get(params, TicketId)).Ok? ==>
      var id := Get(params, TicketId);
      var reply := api(Call("GET", TicketPath(id), None, None));
      && a.calls == [Call("GET", TicketPath(id), None, None)]
      && (a.result.Err? ==> a.result.error.Plugin? && a.result.error.cause == RetrieveCause(id))
      && (reply.Err? ==> a.result == Err(Rewrap(reply.error, RetrieveCause(id))))
      && (reply.Ok? && !Truthy(reply.value) ==> a.result == Err(Rewrap(NotFound(id), RetrieveCause(id))))
      && (reply.Ok? && Truthy(reply.value) ==>
            a.result == (match KomandNormalize(kc, reply.value)
                         case Err(e) => Err(Rewrap(e, RetrieveCause(id)))
                         case Ok(t) => Ok(TicketOutput(t, true))))
  {
    var id := Get(params, TicketId);
    match CheckTicketId(id)
    case Err(e) => Answer(Err(e), [])
    case Ok(_) =>
      var g := ApiClient.GetTicket(api, id);
      match g.result
      case Err(e) => Answer(Err(Rewrap(e, RetrieveCause(id))), g.calls)
      case Ok(ticket) =>
        if !Truthy(ticket) then Answer(Err(Rewrap(NotFound(id), RetrieveCause(id))), g.calls)
        else
          match KomandNormalize(kc, ticket)
          case Err(e) => Answer(Err(Rewrap(e, RetrieveCause(id))), g.calls)
          case Ok(t) => Answer(Ok(TicketOutput(t, true)), g.calls)
  }

  /** As shipped, a ticket that exists is never returned. */
  lemma GetTicketAsShippedFails(api: Api, params: map<string, Value>)
    requires CheckTicketId(Get(params, TicketId)).Ok?
    requires var reply := api(Call("GET", TicketPath(Get(params, TicketId)), None, None));
      reply.Ok? && Truthy(reply.value)
    ensures GetTicket(AsShipped, api, params).result == Err(Rewrap(NoNormalizer, RetrieveCause(Get(params, TicketId))))
  {
  }

  /** With the repaired client an existing ticket comes back normalized. */
  lemma GetTicketRepaired(rs: string, api: Api, params: map<string, Value>)
    requires CheckTicketId(Get(params, TicketId)).Ok?
    requires var reply := api(Call("GET", TicketPath(Get(params, TicketId)), None, None));
      reply.Ok? && Truthy(reply.value)
    ensures var reply := api(Call("GET", TicketPath(Get(params, TicketId)), None, None));
      GetTicket(Repaired(rs), api, params).result == Ok(TicketOutput(ClientNormalize(rs, reply.value), true))
  {
  }

  // ---------------------------------------------------------------- search

  const SearchCause := "Failed to search tickets"

  /** `SearchTickets.run` (older): the loop stops at the first ticket the
      client cannot normalize, so as shipped only an empty result succeeds. */
  method SearchTickets(kc: KomandClient, api: Api, params: map<string, Value>) returns (a: Answer)
    ensures var sent := ApiClient.SearchTickets(api, Dict(SearchParams(params)));
      && a.calls == sent.calls
      && (a.result.Err? ==> a.result.error.Plugin? && a.result.error.cause == SearchCause)
      && (sent.result.Err? ==> a.result == Err(Rewrap(sent.result.error, SearchCause)))
      && (sent.result.Ok? && Elements(sent.result.value).Err? ==>
            a.result == Err(Rewrap(Elements(sent.result.value).error, SearchCause)))
      && (sent.result.Ok? && Elements(sent.result.value).Ok? ==>
            var xs := Elements(sent.result.value).value;
            && (kc.Repaired? ==> a.result == Ok(SearchOutput(NormalizeAll(kc.resourceServer, xs))))
            && (kc.AsShipped? && xs == [] ==> a.result == Ok(SearchOutput([])))
            && (kc.AsShipped? && xs != [] ==> a.result == Err(Rewrap(NoNormalizer, SearchCause))))
  {
    var search := GetOr(params, Search, Str(""));
    var count := GetOr(params, Count, Int(50));
    var pageNo := GetOr(params, PageNo, Int(1));
    var query := map["count" := count, "page_no" := pageNo];
    if Truthy(search) {
      query := query["search" := search];
    }
    assert query == SearchParams(params);
    var sent := ApiClient.SearchTickets(api, Dict(query));
    if sent.result.Err? {
      return Answer(Err(Rewrap(sent.result.error, SearchCause)), sent.calls);
    }
    var tickets := Elements(sent.result.value);
    if tickets.Err? {
      return Answer(Err(Rewrap(tickets.error, SearchCause)), sent.calls);
    }
    var normalized := NormalizeEach(kc, tickets.value);
    if normalized.Err? {
      return Answer(Err(Rewrap(normalized.error, SearchCause)), sent.calls);
    }
    return Answer(Ok(SearchOutput(normalized.value)), sent.calls);
  }

  /** The search action's `for ticket in tickets` loop over the client's
      normalizer, which stops at the first failure. */
  method NormalizeEach(kc: KomandClient, tickets: seq<Value>) returns (r: Result<seq<Value>>)
    ensures kc.Repaired? ==> r == Ok(NormalizeAll(kc.resourceServer, tickets))
    ensures kc.AsShipped? ==> r == if tickets == [] then Ok([]) else Err(NoNormalizer)
  {
    var normalized: seq<Value> := [];
    var i := 0;
    while i < |tickets|
      invariant 0 <= i <= |tickets|
      invariant |normalized| == i
      invariant kc.AsShipped? ==> i == 0
      invariant kc.Repaired? ==>
        forall j :: 0 <= j < i ==> normalized[j] == ClientNormalize(kc.resourceServer, tickets[j])
    {
      var ticket := KomandNormalize(kc, tickets[i]);
      if ticket.Err? {
        return Err(ticket.error);
      }
      normalized := normalized + [ticket.value];
      i := i + 1;
    }
    if kc.Repaired? {
      NormalizedPointwise(kc.resourceServer, tickets, normalized);
    }
    return Ok(normalized);
  }
}
