/** The parameter and output names of the plugin's connection, action and
    trigger schemas. The generated `schema.py` files are not part of this
    model: each name is the spelling of its `Input.*`/`Output.*` constant in
    lower case, which is how the tests address the same parameters. */
module Schema {
  // connection
  const ClientId := "client_id"
  const ClientSecret := "client_secret"
  const AuthorizationServer := "authorization_server"
  const ResourceServer := "resource_server"
  const Tenant := "tenant"
  const SslVerify := "ssl_verify"
  const DefaultTicketTypeId := "default_ticket_type_id"
  const DefaultPriorityId := "default_priority_id"
  const DefaultTeamId := "default_team_id"
  const DefaultAgentId := "default_agent_id"
  const DefaultCategoryId := "default_category_id"

  // actions and triggers
  const TicketId := "ticket_id"
  const Summary := "summary"
  const Details := "details"
  const TickettypeId := "tickettype_id"
  const PriorityId := "priority_id"
  const StatusId := "status_id"
  const CategoryId := "category_id"
  const AgentId := "agent_id"
  const TeamId := "team_id"
  const SiteId := "site_id"
  const UserId := "user_id"
  const Customfields := "customfields"
  const Search := "search"
  const Count := "count"
  const PageNo := "page_no"
  const Resolution := "resolution"
  const NoteHtml := "note_html"
  const Outcome := "outcome"
  const WhoCanViewId := "who_can_view_id"
  const NoteTypeId := "note_type_id"
  const StatusChanged := "status_changed"
  const NewStatusId := "new_status_id"

  // outputs
  const TicketOut := "ticket"
  const TicketsOut := "tickets"
  const SuccessOut := "success"
  const CountOut := "count"
  const AgentOut := "agent"
  const UserOut := "user"
  const PreviousStatusIdOut := "previous_status_id"
  const OldStatusIdOut := "old_status_id"
  const NewStatusIdOut := "new_status_id"
}
