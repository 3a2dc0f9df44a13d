/** The two ticket normalizers: the icon client's `_normalize_ticket` (with
    `_get_nested_name`), which flattens a HaloITSM ticket into 27 fields and
    drops the empty ones, and `CreateTicket._normalize_ticket`, which keeps
    the 11 fields of the action's output schema. */
module Normalize {
  import opened PyValue
  import opened Errors

  /** `_get_nested_name`: the `name` of a dict (defaulting to ""), a string
      as it is, and "" for anything else. */
  function NestedName(v: Value): (r: Value)
    ensures v.Dict? ==> r == GetOr(v.fields, "name", Str(""))
    ensures v.Str? ==> r == v
    ensures !v.Dict? && !v.Str? ==> r == Str("")
    // only a dict's "name" entry can bring anything but a string
    ensures !r.Str? ==> v.Dict? && "name" in v.fields && r == v.fields["name"]
  {
    match v
    case Dict(m) => GetOr(m, "name", Str(""))
    case Str(_) => v
    case _ => Str("")
  }

  /** The eight relation fields: the ticket's key and the normalized key. */
  const Relations: seq<(string, string)> :=
    [("status", "status"), ("priority", "priority"), ("tickettype", "ticket_type"),
     ("agent", "agent"), ("team", "team"), ("client", "client"), ("site", "site"),
     ("user", "user")]

  /** The host part of the ticket link: the resource server with every "/api"
      removed, or nothing when the server is empty. */
  function LinkBase(resourceServer: string): string {
    if resourceServer != "" then ReplaceAll(resourceServer, "/api", "") else ""
  }

  /** The `url` entry: the link base, "/tickets/" and `str(ticket.get('id', ''))`. */
  function TicketUrl(resourceServer: string, t: map<string, Value>): (r: Value)
    ensures r.Str?
    // the link ends with the ticket's own path
    ensures var path := "/tickets/" + PyStr(GetOr(t, "id", Str("")));
      |path| <= |r.s| && r.s[|r.s| - |path|..] == path
    ensures r.s == LinkBase(resourceServer) + "/tickets/" + PyStr(GetOr(t, "id", Str("")))
    // without a resource server the link is just the path
    ensures resourceServer == "" ==> r.s == "/tickets/" + PyStr(GetOr(t, "id", Str("")))
  {
    Str(LinkBase(resourceServer) + "/tickets/" + PyStr(GetOr(t, "id", Str(""))))
  }

  /** The usual resource server, a host followed by "/api", links tickets
      under the host itself, provided no other "/api" starts inside it. */
  lemma ApiServerLinks(host: string, t: map<string, Value>)
    requires forall i :: 0 <= i < |host| ==> !StartsAt(host + "/api", "/api", i)
    ensures TicketUrl(host + "/api", t) == Str(host + "/tickets/" + PyStr(GetOr(t, "id", Str(""))))
  {
    ReplaceAllTail(host, "/api", "/api", "");
    assert ReplaceAll("/api", "/api", "") == "" + ReplaceAll("", "/api", "");
    assert host + "" == host;
  }

  /** The 27 keys of the dict literal `_normalize_ticket` builds. */
  const FlatKeys: set<string> :=
    {"id", "summary", "details", "status", "status_id", "priority", "priority_id",
     "ticket_type", "ticket_type_id", "agent", "agent_id", "team", "team_id",
     "created_date", "last_updated", "client", "client_id", "site", "site_id",
     "user", "user_id", "category_1", "category_2", "category_3", "category_4",
     "resolution", "url"}

  /** The entry of that literal under key `k`. */
  function FlatField(resourceServer: string, t: map<string, Value>, k: string): Value {
    if k == "url" then TicketUrl(resourceServer, t)
    else if k == "ticket_type" then NestedName(Get(t, "tickettype"))
    else if k == "ticket_type_id" then Get(t, "tickettype_id")
    else if k == "created_date" then GetOr(t, "dateoccurred", Str(""))
    else if k == "last_updated" then GetOr(t, "dateupdated", Str(""))
    else if k in {"status", "priority", "agent", "team", "client", "site", "user"} then NestedName(Get(t, k))
    else if k in {"summary", "details", "category_1", "category_2", "category_3", "category_4", "resolution"} then
      GetOr(t, k, Str(""))
    else Get(t, k)
  }

  /** The dict literal `_normalize_ticket` builds before dropping Nones. */
  function Flattened(resourceServer: string, t: map<string, Value>): (r: map<string, Value>)
    ensures r.Keys == FlatKeys
  {
    map k | k in FlatKeys :: FlatField(resourceServer, t, k)
  }

  /** `{k: v for k, v in normalized.items() if v is not None}`. */
  function DropNones(m: map<string, Value>): (r: map<string, Value>)
    ensures forall k :: k in r <==> k in m && !m[k].None?
    ensures forall k :: k in r ==> r[k] == m[k]
  {
    map k | k in m && !m[k].None? :: m[k]
  }

  /** The icon client's `_normalize_ticket`. For a dict nothing in the body
      can raise; for a truthy non-dict the first `.get` raises and the
      handler returns the minimal ticket, without dropping its None. */
  function ClientNormalize(resourceServer: string, v: Value): (r: Value)
    ensures r.Dict?
    ensures !Truthy(v) ==> r == Dict(map[])
    ensures Truthy(v) && !v.Dict? ==> r == Dict(map["id" := None, "summary" := Str(PyStr(v))])
    ensures Truthy(v) && v.Dict? ==> r == Dict(DropNones(Flattened(resourceServer, v.fields)))
  {
    if !Truthy(v) then Dict(map[])
    else if v.Dict? then Dict(DropNones(Flattened(resourceServer, v.fields)))
    else Dict(map["id" := None, "summary" := Str(PyStr(v))])
  }

  /** For a ticket dict the result holds no None, always has a `url`, and has
      no key outside the 27 it builds. */
  lemma DictTicketShape(resourceServer: string, t: map<string, Value>)
    requires |t| > 0
    ensures var r := ClientNormalize(resourceServer, Dict(t)).fields;
      && (forall k :: k in r ==> !r[k].None?)
      && r.Keys <= FlatKeys
      && "url" in r && r["url"] == TicketUrl(resourceServer, t)
  {
  }

  /** Every relation field is present and holds the dict's `name` (default
      ""), the string itself, or "" for any other value; it is missing only
      when the ticket's object carries a `name` of None. */
  lemma {:induction false} RelationFields(resourceServer: string, t: map<string, Value>, i: nat)
    requires |t| > 0 && i < |Relations|
    ensures var (src, dst) := Relations[i];
      var r := ClientNormalize(resourceServer, Dict(t)).fields;
      var o := Get(t, src);
      && (dst !in r <==> o.Dict? && "name" in o.fields && o.fields["name"].None?)
      && (dst in r && o.Dict? ==> r[dst] == GetOr(o.fields, "name", Str("")))
      && (dst in r && o.Str? ==> r[dst] == o)
      && (!o.Dict? && !o.Str? ==> dst in r && r[dst] == Str(""))
  {
    var (src, dst) := Relations[i];
    assert dst in FlatKeys && FlatField(resourceServer, t, dst) == NestedName(Get(t, src));
  }

  /** The `_normalize_ticket` that `CreateTicket` and the icon triggers use:
      `ticket_data.get` raises for anything but a dict. */
  function ActionNormalize(v: Value): (r: Result<Value>)
    ensures r.Ok? <==> v.Dict?
    ensures r.Err? ==> r.error == NoAttribute(v, "get")
    ensures r.Ok? ==> r.value.Dict? && r.value.fields.Keys == ActionKeys
    ensures r.Ok? ==> forall k :: k in ActionCopied && k in r.value.fields ==>
      r.value.fields[k] == GetOr(v.fields, k, if k in ActionDefaulted then Str("") else None)
    ensures r.Ok? ==>
      && r.value.fields["status_name"] == NameOf(Get(v.fields, "status"), "name")
      && r.value.fields["agent_name"] == NameOf(Get(v.fields, "agent"), "name")
      && r.value.fields["agent_email"] == NameOf(Get(v.fields, "agent"), "emailaddress")
  {
    match v
    case Dict(t) => Ok(Dict(map k | k in ActionKeys :: ActionField(t, k)))
    case _ => Err(NoAttribute(v, "get"))
  }

  /** The 11 keys of the action's ticket output. */
  const ActionKeys: set<string> :=
    {"id", "summary", "details", "status_id", "status_name", "priority_id", "agent_id",
     "agent_name", "agent_email", "datecreated", "url"}

  /** The keys copied from the ticket, and those of them that default to "". */
  const ActionCopied: set<string> :=
    {"id", "summary", "details", "status_id", "priority_id", "agent_id", "datecreated", "url"}
  const ActionDefaulted: set<string> := {"summary", "details", "datecreated", "url"}

  /** The entry of the action's output under key `k`. */
  function ActionField(t: map<string, Value>, k: string): Value {
    if k == "status_name" then NameOf(Get(t, "status"), "name")
    else if k == "agent_name" then NameOf(Get(t, "agent"), "name")
    else if k == "agent_email" then NameOf(Get(t, "agent"), "emailaddress")
    else GetOr(t, k, if k in ActionDefaulted then Str("") else None)
  }

  /** A nested name or email as the action extracts it: the entry of a dict
      (default ""), with None turned into "", and "" for anything else. */
  function NameOf(o: Value, field: string): Value {
    if o.Dict? && field in o.fields && !o.fields[field].None? then o.fields[field] else Str("")
  }

  /** `status_name`, `agent_name` and `agent_email` are never None, and are
      "" unless the object is a dict holding that entry. */
  lemma ActionNames(t: map<string, Value>)
    ensures var r := ActionNormalize(Dict(t)).value.fields;
      forall k :: k in {"status_name", "agent_name", "agent_email"} ==> !r[k].None?
    ensures var r := ActionNormalize(Dict(t)).value.fields;
      var s := Get(t, "status");
      r["status_name"] != Str("") ==> s.Dict? && "name" in s.fields && r["status_name"] == s.fields["name"]
    ensures var r := ActionNormalize(Dict(t)).value.fields;
      var a := Get(t, "agent");
      && (r["agent_name"] != Str("") ==> a.Dict? && "name" in a.fields && r["agent_name"] == a.fields["name"])
      && (r["agent_email"] != Str("") ==> a.Dict? && "emailaddress" in a.fields && r["agent_email"] == a.fields["emailaddress"])
  {
  }
}
