/** What both revisions of `Connection.connect` share: the five default IDs
    kept for the actions, the required-field check and the value `test()`
    returns on success. */
module ConnectionParams {
  import opened PyValue
  import opened Errors
  import opened Schema

  /** The connection defaults `create_ticket` falls back on. */
  datatype Defaults = Defaults(ticketType: Value, priority: Value, team: Value, agent: Value, category: Value)

  /** The five `default_*` parameters, each stored as given or None. */
  function DefaultsOf(p: map<string, Value>): Defaults {
    Defaults(Get(p, DefaultTicketTypeId), Get(p, DefaultPriorityId), Get(p, DefaultTeamId),
             Get(p, DefaultAgentId), Get(p, DefaultCategoryId))
  }

  /** `all([client_id, client_secret, auth_server, resource_server, tenant])`. */
  predicate Required(clientId: Value, clientSecret: Value, authServer: Value, resourceServer: Value, tenant: Value) {
    Truthy(clientId) && Truthy(clientSecret) && Truthy(authServer) && Truthy(resourceServer) && Truthy(tenant)
  }

  const MissingParameters: Error :=
    Plugin("Missing required connection parameters", "Please provide all required connection parameters", "")

  /** `{"success": True}`. */
  const Passed: Value := Dict(map["success" := Bool(true)])
}
