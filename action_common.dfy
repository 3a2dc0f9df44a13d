/** What the actions of both plugins share: the output shape, the ticket id
    checks of `get_ticket`, and the normalized list of `search_tickets`. */
module ActionCommon {
  import opened PyValue
  import opened Errors
  import opened Normalize
  import opened Schema

  /** `{TICKET: ticket, SUCCESS: success}`. */
  function TicketOutput(ticket: Value, success: bool): Value {
    Dict(map[TicketOut := ticket, SuccessOut := Bool(success)])
  }

  const MissingTicketId: Error := Plugin("Missing ticket ID", "Please provide a valid ticket ID", "")
  const InvalidTicketId: Error := Plugin("Invalid ticket ID", "Ticket ID must be a positive integer", "")
  /** The id checks both `get_ticket` actions make, in order. */
  function CheckTicketId(id: Value): (r: Result<int>)
    ensures !Truthy(id) ==> r == Err(MissingTicketId)
    ensures Truthy(id) && (!IsInt(id) || Num(id) <= 0) ==> r == Err(InvalidTicketId)
    ensures r.Ok? <==> IsInt(id) && Num(id) > 0
    ensures r.Ok? ==> r.value == Num(id) && r.value > 0
  {
    if !Truthy(id) then Err(MissingTicketId)
    else if !IsInt(id) || Num(id) <= 0 then Err(InvalidTicketId)
    else Ok(Num(id))
  }

  function NotFound(id: Value): Error {
    Plugin("Ticket " + PyStr(id) + " not found", "Please verify the ticket ID exists in HaloITSM", "")
  }

  /** `[client._normalize_ticket(t) for t in tickets]` with the newer client. */
  function NormalizeAll(resourceServer: string, tickets: seq<Value>): (r: seq<Value>)
    ensures |r| == |tickets|
    ensures forall i :: 0 <= i < |tickets| ==> r[i] == ClientNormalize(resourceServer, tickets[i])
  {
    if tickets == [] then []
    else
      var head, rest := ClientNormalize(resourceServer, tickets[0]), NormalizeAll(resourceServer, tickets[1..]);
      [head] + rest
  }

  /** A list built element by element with the newer client's normalizer is
      `NormalizeAll` of the tickets. */
  lemma NormalizedPointwise(resourceServer: string, tickets: seq<Value>, normalized: seq<Value>)
    requires |normalized| == |tickets|
    requires forall j :: 0 <= j < |tickets| ==> normalized[j] == ClientNormalize(resourceServer, tickets[j])
    ensures normalized == NormalizeAll(resourceServer, tickets)
  {
    var all := NormalizeAll(resourceServer, tickets);
    assert forall j :: 0 <= j < |tickets| ==> normalized[j] == all[j];
  }

  /** `{TICKETS: tickets, SUCCESS: True, COUNT: len(tickets)}`. */
  function SearchOutput(tickets: seq<Value>): (r: Value)
    ensures r.Dict? && r.fields.Keys == {TicketsOut, SuccessOut, CountOut}
    ensures r.fields[TicketsOut] == List(tickets) && r.fields[CountOut] == Int(|tickets|)
    ensures r.fields[SuccessOut] == Bool(true)
  {
    Dict(map[TicketsOut := List(tickets), SuccessOut := Bool(true), CountOut := Int(|tickets|)])
  }
}
