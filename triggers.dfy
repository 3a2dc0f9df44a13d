/** The four triggers. Each runs `while True` over inputs that never change
    inside the loop, so one pass is modelled as a decision: emit an output,
    skip, or let an exception escape `run`. `Poll` repeats a pass. */
module Triggers {
  import opened PyValue
  import opened Errors
  import opened Normalize
  import opened Schema

  /** One pass of a polling loop: what it sends, and whether it reaches a
      `time.sleep(0.1)`. */
  datatype Pass = Emit(output: Value, slept: bool) | Skip(slept: bool) | Crash(error: Error)

  /** `not filter or t.get(key) == filter`: a falsy filter lets everything
      through. */
  predicate Passes(filter: Value, t: map<string, Value>, key: string) {
    !Truthy(filter) || PyEq(Get(t, key), filter)
  }

  /** `params.get('ticket', {})`. */
  function TicketOf(m: map<string, Value>): Value {
    GetOr(m, "ticket", Dict(map[]))
  }

  // ---------------------------------------------------------------- newer plugin

  /** A pass of the newer `TicketCreated.run`. The filters are applied
      outside the `try`: for a ticket that is not a dict their `.get`
      escapes. Inside the `try` a normalization failure is only logged. */
  function TicketCreated(params: map<string, Value>): (r: Pass)
    ensures var t := TicketOf(params);
      r.Crash? <==> Truthy(t) && !t.Dict? && (Truthy(Get(params, TickettypeId)) || Truthy(Get(params, PriorityId)))
    ensures var t := TicketOf(params);
      r.Emit? <==> t.Dict? && Truthy(t)
                   && Passes(Get(params, TickettypeId), t.fields, "tickettype_id")
                   && Passes(Get(params, PriorityId), t.fields, "priority_id")
    ensures r.Emit? ==> r.output == Dict(map[TicketOut := ActionNormalize(TicketOf(params)).value])
    // every pass that does not escape sleeps once
    ensures !r.Crash? ==> r.slept
  {
    var t := TicketOf(params);
    var byType := Get(params, TickettypeId);
    var byPriority := Get(params, PriorityId);
    if !Truthy(t) then Skip(true)
    else if Truthy(byType) && !t.Dict? then Crash(NoAttribute(t, "get"))
    else if Truthy(byType) && !PyEq(Get(t.fields, "tickettype_id"), byType) then Skip(true)
    else if Truthy(byPriority) && !t.Dict? then Crash(NoAttribute(t, "get"))
    else if Truthy(byPriority) && !PyEq(Get(t.fields, "priority_id"), byPriority) then Skip(true)
    else
      match ActionNormalize(t)
      case Err(_) => Skip(true)
      case Ok(n) => Emit(Dict(map[TicketOut := n]), true)
  }

  /** A pass of `TicketUpdated.run`. With the status filter on, a ticket
      whose status equals the previous one is skipped, and so is one where
      both are missing. */
  function TicketUpdated(params: map<string, Value>): (r: Pass)
    ensures var t := TicketOf(params);
      r.Crash? <==> Truthy(t) && !t.Dict? && (Truthy(Get(params, TicketId)) || Truthy(GetOr(params, StatusChanged, Bool(false))))
    ensures var t := TicketOf(params);
      var previous := Get(params, "previous_status_id");
      r.Emit? <==> t.Dict? && Truthy(t) && Passes(Get(params, TicketId), t.fields, "id")
                   && !(Truthy(GetOr(params, StatusChanged, Bool(false))) && PyEq(previous, Get(t.fields, "status_id")))
    // the previous status is reported exactly when it is given
    ensures var previous := Get(params, "previous_status_id");
      r.Emit? ==> r.slept && r.output.Dict? && TicketOut in r.output.fields
                  && r.output.fields[TicketOut] == ActionNormalize(TicketOf(params)).value
                  && (PreviousStatusIdOut in r.output.fields <==> !previous.None?)
                  && (!previous.None? ==> r.output.fields[PreviousStatusIdOut] == previous)
                  && r.output.fields.Keys <= {TicketOut, PreviousStatusIdOut}
    ensures !r.Crash? ==> r.slept
  {
    var t := TicketOf(params);
    var previous := Get(params, "previous_status_id");
    var byId := Get(params, TicketId);
    var statusChanged := GetOr(params, StatusChanged, Bool(false));
    if !Truthy(t) then Skip(true)
    else if Truthy(byId) && !t.Dict? then Crash(NoAttribute(t, "get"))
    else if Truthy(byId) && !PyEq(Get(t.fields, "id"), byId) then Skip(true)
    else if Truthy(statusChanged) && !t.Dict? then Crash(NoAttribute(t, "get"))
    else if Truthy(statusChanged) && PyEq(previous, Get(t.fields, "status_id")) then Skip(true)
    else
      match ActionNormalize(t)
      case Err(_) => Skip(true)
      case Ok(n) =>
        var output := map[TicketOut := n];
        Emit(Dict(if !previous.None? then output[PreviousStatusIdOut := previous] else output), true)
  }

  /** `v if v is not None else 0`. */
  function OrZero(v: Value): (r: Value)
    ensures !r.None?
    ensures !v.None? ==> r == v
  {
    if v.None? then Int(0) else v
  }

  /** A pass of `TicketStatusChanged.run`. The new status is read before any
      check, so a truthy ticket that is not a dict always escapes. */
  function TicketStatusChanged(params: map<string, Value>): (r: Pass)
    ensures var t := TicketOf(params);
      r.Crash? <==> Truthy(t) && !t.Dict?
    ensures var t := TicketOf(params);
      var oldStatus := Get(params, "old_status_id");
      r.Emit? <==> t.Dict? && Truthy(t) && Passes(Get(params, TicketId), t.fields, "id")
                   && Passes(Get(params, NewStatusId), t.fields, "status_id")
                   && (oldStatus.None? || !PyEq(oldStatus, Get(t.fields, "status_id")))
    // both statuses are always reported, a missing one as 0
    ensures r.Emit? ==> r.slept && r.output.Dict?
                        && r.output.fields.Keys == {TicketOut, OldStatusIdOut, NewStatusIdOut}
                        && r.output.fields[TicketOut] == ActionNormalize(TicketOf(params)).value
                        && r.output.fields[OldStatusIdOut] == OrZero(Get(params, "old_status_id"))
                        && r.output.fields[NewStatusIdOut] == OrZero(Get(TicketOf(params).fields, "status_id"))
    ensures !r.Crash? ==> r.slept
  {
    var t := TicketOf(params);
    var oldStatus := Get(params, "old_status_id");
    if Truthy(t) && !t.Dict? then Crash(NoAttribute(t, "get"))
    else
      var newStatus := if Truthy(t) then Get(t.fields, "status_id") else None;
      var byId := Get(params, TicketId);
      var byStatus := Get(params, NewStatusId);
      if !Truthy(t) then Skip(true)
      else if Truthy(byId) && !PyEq(Get(t.fields, "id"), byId) then Skip(true)
      else if Truthy(byStatus) && !PyEq(newStatus, byStatus) then Skip(true)
      else if !oldStatus.None? && PyEq(oldStatus, newStatus) then Skip(true)
      else
        match ActionNormalize(t)
        case Err(_) => Skip(true)
        case Ok(n) => Emit(Dict(map[TicketOut := n, OldStatusIdOut := OrZero(oldStatus), NewStatusIdOut := OrZero(newStatus)]), true)
  }

  // ---------------------------------------------------------------- older plugin

  /** Whether the host has set `self.webhook_payload`. */
  datatype Webhook = NoPayload | Payload(body: Value)

  /** A pass of the older `TicketCreated.run`. Everything is inside the
      `try`, so nothing escapes; a filter mismatch `continue`s past the
      sleep. The older `CreateTicket._normalize_ticket` is not part of this
      model and is passed in as `normalize`. */
  function KomandTicketCreated(params: map<string, Value>, hook: Webhook, normalize: Value -> Result<Value>): (r: Pass)
    ensures !r.Crash?
    // without a payload nothing is sent
    ensures hook.NoPayload? ==> r == Skip(true)
    ensures r.Emit? ==> hook.Payload? && hook.body.Dict? && TicketOf(hook.body.fields).Dict? && r.slept
    ensures r.Emit? ==>
      var t := TicketOf(hook.body.fields);
      && Passes(Get(params, TickettypeId), t.fields, "tickettype_id")
      && Passes(Get(params, PriorityId), t.fields, "priority_id")
      && normalize(t).Ok? && r.output == Dict(map[TicketOut := normalize(t).value])
    // only a filter mismatch skips the sleep
    ensures r == Skip(false) ==>
      hook.Payload? && hook.body.Dict? &&
      var t := TicketOf(hook.body.fields);
      t.Dict? && !(Passes(Get(params, TickettypeId), t.fields, "tickettype_id") && Passes(Get(params, PriorityId), t.fields, "priority_id"))
    // and every mismatch does
    ensures hook.Payload? && hook.body.Dict? && TicketOf(hook.body.fields).Dict? ==>
      var t := TicketOf(hook.body.fields);
      !(Passes(Get(params, TickettypeId), t.fields, "tickettype_id") && Passes(Get(params, PriorityId), t.fields, "priority_id")) ==>
      r == Skip(false)
    // a ticket dict that passes both filters is sent once normalized
    ensures hook.Payload? && hook.body.Dict? && TicketOf(hook.body.fields).Dict? ==>
      var t := TicketOf(hook.body.fields);
      Passes(Get(params, TickettypeId), t.fields, "tickettype_id") && Passes(Get(params, PriorityId), t.fields, "priority_id") ==>
      r == if normalize(t).Ok? then Emit(Dict(map[TicketOut := normalize(t).value]), true) else Skip(true)
    // a payload that is not a dict, or whose ticket is not one, is skipped with the sleep
    ensures hook.Payload? && (!hook.body.Dict? || !TicketOf(hook.body.fields).Dict?) ==> r == Skip(true)
  {
    var byType := Get(params, TickettypeId);
    var byPriority := Get(params, PriorityId);
    match hook
    case NoPayload => Skip(true)
    case Payload(body) =>
      if !body.Dict? then Skip(true)
      else
        var t := TicketOf(body.fields);
        if Truthy(byType) && !t.Dict? then Skip(true)
        else if Truthy(byType) && !PyEq(Get(t.fields, "tickettype_id"), byType) then Skip(false)
        else if Truthy(byPriority) && !t.Dict? then Skip(true)
        else if Truthy(byPriority) && !PyEq(Get(t.fields, "priority_id"), byPriority) then Skip(false)
        else
          match normalize(t)
          case Err(_) => Skip(true)
          case Ok(n) => if !t.Dict? then Skip(true) else Emit(Dict(map[TicketOut := n]), true)
  }

  /** With no filters, an empty payload ticket is still normalized and sent. */
  lemma KomandEmptyTicketSent(normalize: Value -> Result<Value>)
    requires normalize(Dict(map[])).Ok?
    ensures KomandTicketCreated(map[], Payload(Dict(map[])), normalize) == Emit(Dict(map[TicketOut := normalize(Dict(map[])).value]), true)
  {
  }

  // ---------------------------------------------------------------- loop

  /** `rounds` passes of a trigger's `while True` loop. The inputs are the
      same on every pass, so every pass decides as `pass` does: a passing
      ticket is sent again on every pass; an escaping exception ends `run`
      on the first. */
  method Poll(pass: Pass, rounds: nat) returns (sent: seq<Value>, sleeps: nat, escaped: Result<()>)
    ensures pass.Crash? ==> sent == [] && sleeps == 0
    ensures pass.Crash? && rounds > 0 ==> escaped == Err(pass.error)
    ensures !pass.Crash? || rounds == 0 ==> escaped == Ok(())
    ensures !pass.Crash? ==> sleeps == (if pass.slept then rounds else 0)
    ensures pass.Skip? ==> sent == []
    ensures pass.Emit? ==> |sent| == rounds && forall i :: 0 <= i < rounds ==> sent[i] == pass.output
  {
    sent, sleeps := [], 0;
    var round := 0;
    while round < rounds
      invariant 0 <= round <= rounds
      invariant pass.Crash? ==> round == 0
      invariant sleeps == (if !pass.Crash? && pass.slept then round else 0)
      invariant pass.Skip? || pass.Crash? ==> sent == []
      invariant pass.Emit? ==> |sent| == round && forall i :: 0 <= i < round ==> sent[i] == pass.output
    {
      match pass {
        case Crash(e) =>
          return [], 0, Err(e);
        case Emit(output, slept) =>
          sent := sent + [output];
          if slept {
            sleeps := sleeps + 1;
          }
        case Skip(slept) =>
          if slept {
            sleeps := sleeps + 1;
          }
      }
      round := round + 1;
    }
    return sent, sleeps, Ok(());
  }
}
