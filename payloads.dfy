/** The request bodies the actions build: the ticket dicts of
    `create_ticket` and `update_ticket` (filled by a loop over a field table),
    the five-field note of `add_comment` and the query of `search_tickets`,
    and Python's `for x in v` over the values a response can hold. */
module Payloads {
  import opened PyValue
  import opened Errors
  import opened Schema
  import opened ConnectionParams

  /** One row of a field table: the parameter read, the API field written
      and, in `create_ticket`, the connection default behind an `or`. */
  datatype Row = Defaulted(input: string, field: string, fallback: Value) | Kept(input: string, field: string)

  /** What a row contributes: `params.get(input) or default` in
      `create_ticket`, `params.get(input)` in `update_ticket`. The field is
      written when this is not None. */
  function RowValue(p: map<string, Value>, row: Row): Value {
    match row
    case Defaulted(i, _, d) => Or(Get(p, i), d)
    case Kept(i, _) => Get(p, i)
  }

  /** The `for` loop over a field table, one row at a time. */
  function Fill(data: map<string, Value>, p: map<string, Value>, rows: seq<Row>): map<string, Value>
    decreases |rows|
  {
    if rows == [] then data
    else
      var v := RowValue(p, rows[0]);
      Fill(if v.None? then data else data[rows[0].field := v], p, rows[1..])
  }

  predicate DistinctFields(rows: seq<Row>) {
    forall i, j :: 0 <= i < j < |rows| ==> rows[i].field != rows[j].field
  }

  /** A key no row writes keeps whatever the dict held. */
  lemma {:induction false} FillOutside(data: map<string, Value>, p: map<string, Value>, rows: seq<Row>, k: string)
    requires forall i :: 0 <= i < |rows| ==> rows[i].field != k
    ensures var f := Fill(data, p, rows); (k in f <==> k in data) && (k in data ==> f[k] == data[k])
    decreases |rows|
  {
    if rows != [] {
      var v := RowValue(p, rows[0]);
      FillOutside(if v.None? then data else data[rows[0].field := v], p, rows[1..], k);
    }
  }

  /** Row j's field holds its value when that is not None, and is otherwise
      left as it was. */
  lemma {:induction false} FillRow(data: map<string, Value>, p: map<string, Value>, rows: seq<Row>, j: nat)
    requires DistinctFields(rows) && j < |rows|
    ensures var f := Fill(data, p, rows); var v := RowValue(p, rows[j]); var k := rows[j].field;
      && (!v.None? ==> k in f && f[k] == v)
      && (v.None? ==> (k in f <==> k in data) && (k in data ==> f[k] == data[k]))
    decreases |rows|
  {
    var v0 := RowValue(p, rows[0]);
    var next := if v0.None? then data else data[rows[0].field := v0];
    assert Fill(data, p, rows) == Fill(next, p, rows[1..]);
    if j == 0 {
      FillOutside(next, p, rows[1..], rows[0].field);
    } else {
      FillRow(next, p, rows[1..], j - 1);
      assert rows[1..][j - 1] == rows[j];
      assert rows[0].field != rows[j].field;
    }
  }

  /** The loop adds no key outside the table's fields. */
  lemma {:induction false} FillKeys(data: map<string, Value>, p: map<string, Value>, rows: seq<Row>)
    ensures forall k :: k in Fill(data, p, rows) ==> k in data || exists i :: 0 <= i < |rows| && rows[i].field == k
    decreases |rows|
  {
    if rows != [] {
      var v := RowValue(p, rows[0]);
      var next := if v.None? then data else data[rows[0].field := v];
      FillKeys(next, p, rows[1..]);
      assert Fill(data, p, rows) == Fill(next, p, rows[1..]);
      forall k | k in Fill(data, p, rows) ensures k in data || exists i :: 0 <= i < |rows| && rows[i].field == k {
        if k !in data && k != rows[0].field {
          var i :| 0 <= i < |rows[1..]| && rows[1..][i].field == k;
          assert rows[i + 1].field == k;
        }
      }
    }
  }

  /** `custom_fields = params.get(CUSTOMFIELDS, [])`, added when non-empty. */
  function WithCustomFields(data: map<string, Value>, p: map<string, Value>): map<string, Value> {
    var c := GetOr(p, Customfields, List([]));
    if Truthy(c) then data["customfields" := c] else data
  }

  /** `params.get(TICKETTYPE_ID) or connection.default_ticket_type_id`. */
  function TicketType(p: map<string, Value>, d: Defaults): Value {
    Or(Get(p, TickettypeId), d.ticketType)
  }

  /** The `field_defaults` table of `create_ticket`. */
  function CreateRows(d: Defaults): seq<Row> {
    [Defaulted(PriorityId, "priority_id", d.priority), Defaulted(StatusId, "status_id", None),
     Defaulted(CategoryId, "category_id", d.category), Defaulted(AgentId, "agent_id", d.agent),
     Defaulted(TeamId, "team_id", d.team), Defaulted(SiteId, "site_id", None),
     Defaulted(UserId, "user_id", None)]
  }

  /** The `field_mapping` table of `update_ticket` (both revisions). */
  const UpdateRows: seq<Row> :=
    [Kept(Summary, "summary"), Kept(Details, "details"), Kept(StatusId, "status_id"),
     Kept(PriorityId, "priority_id"), Kept(AgentId, "agent_id")]

  /** The dict `create_ticket` starts from, once the ticket type is known. */
  function CreateBase(p: map<string, Value>, ticketType: Value): map<string, Value> {
    map["summary" := Get(p, Summary), "details" := Get(p, Details), "actioncode" := Int(0),
        "tickettype_id" := ticketType]
  }

  /** The dict `update_ticket` starts from. */
  function UpdateBase(p: map<string, Value>): map<string, Value> {
    map["id" := Get(p, TicketId), "actioncode" := Int(1)]
  }

  /** The ticket dict `create_ticket` sends. */
  function CreateData(p: map<string, Value>, d: Defaults): map<string, Value> {
    WithCustomFields(Fill(CreateBase(p, TicketType(p, d)), p, CreateRows(d)), p)
  }

  /** The ticket dict `update_ticket` sends. */
  function UpdateData(p: map<string, Value>): map<string, Value> {
    WithCustomFields(Fill(UpdateBase(p), p, UpdateRows), p)
  }

  const CreateFixed: set<string> := {"summary", "details", "actioncode", "tickettype_id"}
  const CreateOptional: set<string> := {"priority_id", "status_id", "category_id", "agent_id", "team_id", "site_id", "user_id"}

  lemma CreateRowsDistinct(d: Defaults)
    ensures DistinctFields(CreateRows(d))
    ensures forall i :: 0 <= i < |CreateRows(d)| ==> CreateRows(d)[i].field in CreateOptional
  {
  }

  /** The loop's part of the create payload: the four fixed entries survive,
      each optional field is written exactly when `param or default` is not
      None, and nothing else is added. */
  lemma CreateFillShape(p: map<string, Value>, d: Defaults)
    ensures var base := CreateBase(p, TicketType(p, d));
      var f := Fill(base, p, CreateRows(d));
      && (forall k :: k in CreateFixed ==> k in f && f[k] == base[k])
      && (forall j :: 0 <= j < |CreateRows(d)| ==>
            var v := RowValue(p, CreateRows(d)[j]);
            (CreateRows(d)[j].field in f <==> !v.None?) && (!v.None? ==> f[CreateRows(d)[j].field] == v))
      && f.Keys <= CreateFixed + CreateOptional
  {
    var rows := CreateRows(d);
    var base := CreateBase(p, TicketType(p, d));
    CreateRowsDistinct(d);
    forall k | k in CreateFixed ensures k in Fill(base, p, rows) && Fill(base, p, rows)[k] == base[k] {
      FillOutside(base, p, rows, k);
    }
    forall j | 0 <= j < |rows| ensures var v := RowValue(p, rows[j]);
      (rows[j].field in Fill(base, p, rows) <==> !v.None?) && (!v.None? ==> Fill(base, p, rows)[rows[j].field] == v) {
      FillRow(base, p, rows, j);
    }
    FillKeys(base, p, rows);
  }

  /** The create payload: summary, details, actioncode 0 and the ticket type
      always; each optional field exactly when `param or default` is not
      None, holding that value; custom fields exactly when non-empty; and
      nothing else. */
  lemma CreateDataShape(p: map<string, Value>, d: Defaults)
    ensures var data := CreateData(p, d);
      && CreateFixed <= data.Keys
      && data["summary"] == Get(p, Summary) && data["details"] == Get(p, Details)
      && data["actioncode"] == Int(0) && data["tickettype_id"] == TicketType(p, d)
      && (forall j :: 0 <= j < |CreateRows(d)| ==>
            var v := RowValue(p, CreateRows(d)[j]);
            (CreateRows(d)[j].field in data <==> !v.None?)
            && (!v.None? ==> data[CreateRows(d)[j].field] == v))
      && ("customfields" in data <==> Truthy(GetOr(p, Customfields, List([]))))
      && ("customfields" in data ==> data["customfields"] == GetOr(p, Customfields, List([])))
      && data.Keys <= CreateFixed + CreateOptional + {"customfields"}
  {
    CreateFillShape(p, d);
    CreateRowsDistinct(d);
    assert "customfields" !in CreateFixed + CreateOptional;
  }

  /** A truthy explicit value beats the connection default, and a field
      with no default (status, site, user) is sent exactly when its
      parameter is truthy: a falsy value is dropped, not sent. */
  lemma CreateOverrides(p: map<string, Value>, d: Defaults)
    ensures var data := CreateData(p, d);
      && (forall j :: 0 <= j < |CreateRows(d)| && Truthy(Get(p, CreateRows(d)[j].input)) ==>
            CreateRows(d)[j].field in data && data[CreateRows(d)[j].field] == Get(p, CreateRows(d)[j].input))
      && ("status_id" in data <==> Truthy(Get(p, StatusId)))
      && ("site_id" in data <==> Truthy(Get(p, SiteId)))
      && ("user_id" in data <==> Truthy(Get(p, UserId)))
  {
    CreateDataShape(p, d);
    assert CreateRows(d)[1] == Defaulted(StatusId, "status_id", None);
    assert CreateRows(d)[5] == Defaulted(SiteId, "site_id", None);
    assert CreateRows(d)[6] == Defaulted(UserId, "user_id", None);
  }

  const UpdateFields: set<string> := {"id", "actioncode", "summary", "details", "status_id", "priority_id", "agent_id", "customfields"}

  /** The update payload: "id" (the raw parameter, possibly None) and
      actioncode 1 always; each mapped field exactly when its parameter is
      not None, so 0 and "" are sent; custom fields exactly when non-empty;
      nothing else. */
  lemma UpdateDataShape(p: map<string, Value>)
    ensures var data := UpdateData(p);
      && "id" in data && "actioncode" in data && data["id"] == Get(p, TicketId) && data["actioncode"] == Int(1)
      && (forall j :: 0 <= j < |UpdateRows| ==>
            (UpdateRows[j].field in data <==> !Get(p, UpdateRows[j].input).None?)
            && (!Get(p, UpdateRows[j].input).None? ==> data[UpdateRows[j].field] == Get(p, UpdateRows[j].input)))
      && ("customfields" in data <==> Truthy(GetOr(p, Customfields, List([]))))
      && ("customfields" in data ==> data["customfields"] == GetOr(p, Customfields, List([])))
      && data.Keys <= UpdateFields
  {
    var base := UpdateBase(p);
    var f := Fill(base, p, UpdateRows);
    forall k | k in {"id", "actioncode"} ensures k in f && f[k] == base[k] {
      FillOutside(base, p, UpdateRows, k);
    }
    forall j | 0 <= j < |UpdateRows| ensures
      (UpdateRows[j].field in f <==> !Get(p, UpdateRows[j].input).None?)
      && (!Get(p, UpdateRows[j].input).None? ==> f[UpdateRows[j].field] == Get(p, UpdateRows[j].input)) {
      FillRow(base, p, UpdateRows, j);
    }
    FillKeys(base, p, UpdateRows);
  }

  /** The five-field note both `add_comment` actions send; the note text is
      read with a default of "" (newer) or None (older) by the caller. */
  function NoteData(p: map<string, Value>, note: Value): (r: map<string, Value>)
    ensures r.Keys == {"ticket_id", "note_html", "outcome", "who_can_view_id", "note_type_id"}
    ensures r["ticket_id"] == Get(p, TicketId) && r["note_html"] == note
    ensures r["outcome"] == GetOr(p, Outcome, Str(""))
    ensures r["who_can_view_id"] == GetOr(p, WhoCanViewId, Int(1)) && r["note_type_id"] == GetOr(p, NoteTypeId, Int(1))
  {
    map["ticket_id" := Get(p, TicketId), "note_html" := note, "outcome" := GetOr(p, Outcome, Str("")),
        "who_can_view_id" := GetOr(p, WhoCanViewId, Int(1)), "note_type_id" := GetOr(p, NoteTypeId, Int(1))]
  }

  /** The query `search_tickets` sends: count and page_no with defaults 50
      and 1 when absent, and the search text exactly when it is truthy. */
  function SearchParams(p: map<string, Value>): (r: map<string, Value>)
    ensures "count" in r && "page_no" in r
    ensures r["count"] == GetOr(p, Count, Int(50)) && r["page_no"] == GetOr(p, PageNo, Int(1))
    ensures "search" in r <==> Truthy(GetOr(p, Search, Str("")))
    ensures "search" in r ==> r["search"] == p[Search]
    ensures r.Keys <= {"count", "page_no", "search"}
  {
    var q := map["count" := GetOr(p, Count, Int(50)), "page_no" := GetOr(p, PageNo, Int(1))];
    var search := GetOr(p, Search, Str(""));
    if Truthy(search) then q["search" := search] else q
  }

  /** Python's `for x in v`: a list yields its items and a string its
      characters; None, bools and ints are not iterable. Iterating a dict
      yields its keys in insertion order, which unordered maps cannot
      express, so that case is reported as an error here. */
  function Elements(v: Value): (r: Result<seq<Value>>)
    ensures v.List? ==> r == Ok(v.items)
    ensures v.Str? ==> r.Ok? && |r.value| == |v.s| && forall i :: 0 <= i < |v.s| ==> r.value[i] == Str([v.s[i]])
    ensures r.Err? <==> !v.List? && !v.Str?
  {
    match v
    case List(xs) => Ok(xs)
    case Str(s) => Ok(seq(|s|, i requires 0 <= i < |s| => Str([s[i]])))
    case Dict(_) => Err(Other("TypeError", "iteration over a dict is not modelled"))
    case _ => Err(Other("TypeError", "'" + TypeNameOf(v) + "' object is not iterable"))
  }
}
