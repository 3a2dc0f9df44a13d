# HaloITSM connector — a verified model

This project models the core of a HaloITSM connector for the Rapid7 InsightConnect platform. The connector ships in two revisions:

- the newer plugin, `icon_haloitsm`;
- the older one, `komand_haloitsm`.

Each revision has the same parts:

- **An authenticated API client, `HaloITSMAPI`.** It obtains an OAuth2 client-credentials token (RFC 6749 section 4.4) and caches it with a 60-second safety margin. Every request carries a bearer header (RFC 6750 section 2.1). A `make_request` loop retries failures with a linear backoff and refreshes the token after a 401. The client also has a few endpoint helpers that unwrap HaloITSM's list-shaped responses, and a ticket normalizer.
- **A `Connection`.** `connect` validates and stores the connection parameters and builds the client. `test` checks the credentials with a token request and a probe request.
- **Actions and triggers.**
  - The actions are create, update, get, search, close, comment, assign, get agent and get user.
  - The triggers are ticket created, ticket updated and ticket status changed.
  - Each action validates its parameters and builds a ticket payload. It calls the client and shapes the output. It handles errors in the style of its revision.

The model, file by file:

- `py_value.dfy`: the Python values the code handles, with truthiness, `or`, `dict.get`, `==` and `str()`.
- `errors.dfy`: exceptions as values, with the three handler shapes the actions use. These are re-raise-or-wrap with a 200-character cut, re-raise-or-wrap with `str(e)`, and wrap-everything.
- `token_cache.dfy`: `get_access_token` as a function on the two cache fields.
- `retry.dfy`: the retry loop of both revisions as a function over a scripted server. It records requests, token fetches and sleeps in a trace.
- `api_client.dfy`: the client class.
  - Its `GetAccessToken` and `MakeRequest` methods update the cache fields in place. Each is proved equal to the pure definition.
  - Its endpoint helpers run over an abstract `Api`, which maps a call to the value `make_request` returns or the exception it raises.
- `normalize.dfy`: the client's `_normalize_ticket`/`_get_nested_name` and the create action's `_normalize_ticket`.
- `payloads.dfy`: the ticket, note and search payloads the actions build.
- `icon_connection.dfy`, `komand_connection.dfy`: the two `Connection` classes.
- `action_common.dfy`, `icon_actions.dfy`, `komand_actions.dfy`: the actions.
  - The loops that build payloads in place are methods. Each is proved against the payload function.
  - The actions that only compute are functions.
- `triggers.dfy`: one pass of each trigger's polling loop as a decision, and the loop itself for a bounded number of passes.
- `schema.dfy`, `connection_params.dfy`: parameter names, connection defaults and the required-field check.

## Model

| member | source | states |
|---|---|---|
| TokenCache.GetAccessToken | plugins/haloitsm/icon_haloitsm/util/api.py:46-95 | A cache hit happens exactly when the token is truthy and now < expiry − 60, and then makes no network call and leaves the cache unchanged. A cache without a truthy token always fetches. A fetched JSON object with a usable `expires_in` always succeeds, storing the token and expiry now + expires_in. An unusable `expires_in` raises after the new token is stored, with the old expiry kept. A request failure raises "Failed to obtain OAuth2 token" and leaves the cache unchanged. A reply that is not a JSON object fails before anything is stored. |
| TokenCache.ExpiresIn | plugins/haloitsm/icon_haloitsm/util/api.py:80-82 | The lifetime is 3600 when `expires_in` is absent, the given int otherwise, and 1 or 0 for True or False. Anything else fails the addition. |
| TokenCache.FirstCallFetches | plugins/haloitsm/icon_haloitsm/util/api.py:28-29 | Instance of the no-token clause of GetAccessToken: a fresh client (no token, expiry 0) always fetches on its first call. |
| TokenCache.ClearedTokenFetches | plugins/haloitsm/icon_haloitsm/util/api.py:136-144 | Instance of the no-token clause of GetAccessToken: once a 401 has cleared the token, the next call always fetches. |
| TokenCache.TwoCalls | plugins/haloitsm/komand_haloitsm/util/api.py:33-75 | Two calls inside the validity window make exactly one network call, and the second returns the first's token. A call after the window fetches again. |
| TokenCache.DefaultLifetime | plugins/haloitsm/komand_haloitsm/util/api.py:68-70 | With no `expires_in`, a granted token is reused without a network call for 3540 seconds. |
| ApiClient.PrepareServers | plugins/haloitsm/icon_haloitsm/util/api.py:12-44 | The stored URLs are the given strings without trailing slashes. The icon client accepts them exactly when both are strings that are non-empty after stripping, and reports the authorization server first. The komand client accepts any two strings. |
| ApiClient.Client.constructor | plugins/haloitsm/icon_haloitsm/util/api.py:12-34 | Stores the credentials, URLs, tenant and ssl flag. The cache starts empty. |
| ApiClient.Client.GetAccessToken | plugins/haloitsm/icon_haloitsm/util/api.py:46-95 | Updates `access_token`/`token_expires_at` in place, exactly as `TokenCache.GetAccessToken` prescribes. The result and the network flag agree with it. |
| ApiClient.Client.MakeRequest | plugins/haloitsm/icon_haloitsm/util/api.py:97-198 | The result, trace and final cache are those of `Retry.MakeRequest` on the old cache. |
| ApiClient.Client.RunLoop | plugins/haloitsm/icon_haloitsm/util/api.py:120-198 | The `for attempt` loop updates the cache in place. Its result, trace and final cache are those of `Retry.Loop` from attempt 0. |
| ApiClient.Client.RunAttempt | plugins/haloitsm/icon_haloitsm/util/api.py:121-198 | One loop body: its events, new cache, stop or continue decision, result and new header agree with `Retry.Attempt`. |
| Retry.Failure | plugins/haloitsm/icon_haloitsm/util/api.py:152-198 | The final-attempt exception of each kind, all of them PluginExceptions. The icon client reports "HTTP unknown error", with its texts cut to 200 and 500 characters. The komand client reports the status code. A timeout is a "Request timeout" (icon) or "Request failed" (komand). Transport errors prefix "Unable to connect to HaloITSM API: ". |
| Retry.Attempt | plugins/haloitsm/icon_haloitsm/util/api.py:120-198 | Each attempt sends exactly one request, with the current header. The loop continues only when another attempt remains, with at most one sleep of attempt + 1 seconds. The token endpoint is called, as call k + 1, exactly when the reply is a 401 and another attempt remains. A returned value is the payload of a reply that did not raise. The icon client raises only on the final attempt. |
| Retry.AttemptRetried | plugins/haloitsm/icon_haloitsm/util/api.py:144-198 | A reply that is retried (not a success, not a 401, not a komand crash) raises its failure on the final attempt. On any other attempt it sleeps and goes on with the same cache and header. |
| Retry.AttemptRefreshes | plugins/haloitsm/icon_haloitsm/util/api.py:136-142 | A non-final 401 whose refresh succeeds continues with the refreshed cache, the new Bearer header, and the events "send k, fetch k + 1". |
| Retry.Succeeds | plugins/haloitsm/icon_haloitsm/util/api.py:144-150 | No contract of its own; a reply the loop returns from at once is a response that `raise_for_status` lets through. Used by the success clauses of Retry.Attempt, Retry.LoopReturns and Retry.SuccessReturns. |
| Retry.RaisesForStatus | plugins/haloitsm/icon_haloitsm/util/api.py:144 | No contract of its own; `raise_for_status` raises for 4xx and 5xx. Retry.FinalUnauthorizedRaises and Retry.Failure state its consequences. |
| Retry.Payload | plugins/haloitsm/icon_haloitsm/util/api.py:146-150 | No contract of its own; `response.json()`, or the text when the body is not JSON. Retry.SuccessReturns and Retry.LoopReturns state what it returns. |
| Retry.TimeoutFor | plugins/haloitsm/komand_haloitsm/util/api.py:112 | No contract of its own; the icon client passes its `timeout` argument, the komand client always 60 seconds. KomandConnection.Connection.Test states the 60-second probe. |
| Retry.LoopStep | plugins/haloitsm/icon_haloitsm/util/api.py:120 | One unfolding of the `for attempt in range(retry_count)` loop. |
| Retry.Loop | plugins/haloitsm/icon_haloitsm/util/api.py:120-198 | No contract of its own; the `for attempt in range(retry_count)` loop. Its properties are in Retry.LoopStep, Retry.LoopSends, Retry.LoopSleeps, Retry.LoopKeepsCache, Retry.LoopReturns, Retry.LoopRaises, Retry.PersistentFailure and Retry.PersistentSleeps. |
| Retry.LoopSends | plugins/haloitsm/komand_haloitsm/util/api.py:103-148 | At most n − k requests are sent, numbered k, k+1, … in order. |
| Retry.LoopSleeps | plugins/haloitsm/icon_haloitsm/util/api.py:196-198 | Every backoff lasts between k + 1 and n − 1 seconds. The final attempt never sleeps. |
| Retry.LoopKeepsCache | plugins/haloitsm/icon_haloitsm/util/api.py:136-144 | Without a token fetch the cache is unchanged. |
| Retry.LoopReturns | plugins/haloitsm/icon_haloitsm/util/api.py:145-150 | With an attempt left, a returned value is the payload of the reply to the last request sent, and that reply did not raise. |
| Retry.LoopRaises | plugins/haloitsm/icon_haloitsm/util/api.py:152-198 | An icon error comes only after all remaining attempts were sent. |
| Retry.LoopFromIsLoop | plugins/haloitsm/icon_haloitsm/util/api.py:120-198 | The loop run with the events of the attempts already made, as the method keeps them, is that trace followed by the trace of the remaining attempts, with the same final cache and result. |
| Retry.LoopFrom | plugins/haloitsm/icon_haloitsm/util/api.py:120-198 | No contract of its own; the same loop with the events so far carried along, as ApiClient.Client.RunLoop keeps them. Retry.LoopFromIsLoop proves that it equals Retry.Loop. |
| Retry.UnauthorizedRefreshes | plugins/haloitsm/icon_haloitsm/util/api.py:136-144 | A 401 on a non-final attempt clears the token, fetches a new one, rewrites the header and retries without sleeping. |
| Retry.FinalUnauthorizedRaises | plugins/haloitsm/icon_haloitsm/util/api.py:136-167 | A 401 on the final attempt is raised like any other HTTP error, after one request. |
| Retry.IconRefreshFailureRetries | plugins/haloitsm/icon_haloitsm/util/api.py:186-198 | In the icon client a failed refresh is caught by the catch-all. The loop sleeps and retries with the old header. |
| Retry.KomandRefreshFailurePropagates | plugins/haloitsm/komand_haloitsm/util/api.py:116-148 | In the komand client a failed refresh ends the call with the token error. |
| Retry.CrashHandling | plugins/haloitsm/komand_haloitsm/util/api.py:132-148 | The komand client lets an exception that `requests` does not define escape at once. The icon client sleeps and retries it. |
| Retry.SuccessReturns | plugins/haloitsm/icon_haloitsm/util/api.py:145-150 | A non-error reply is returned at once: its JSON, or its text when the body is not JSON. |
| Retry.PersistentFailure | plugins/haloitsm/icon_haloitsm/util/api.py:152-198 | When every attempt fails in a retried way, all n − k requests are made, the cache is unchanged and the last failure is raised. |
| Retry.PersistentSleeps | plugins/haloitsm/icon_haloitsm/util/api.py:196-198 | Under the same failures, the sleeps are exactly k+1, k+2, …, n−1 seconds, in order. |
| Retry.Backoffs | plugins/haloitsm/icon_haloitsm/util/api.py:198 | The backoffs from `a` to `n - 1`: n − a entries, in order, the i-th being a + i. |
| Retry.MakeRequest | plugins/haloitsm/icon_haloitsm/util/api.py:97-198 | At most max(0, retry_count) requests are sent, numbered 0, 1, … in order. A failing initial token raises before any request. An empty `range` returns None. |
| Retry.MakeRequestReturns | plugins/haloitsm/icon_haloitsm/util/api.py:145-150 | With retry_count > 0, a returned value is the payload of the reply to the last request, which did not raise. |
| Retry.MakeRequestRaises | plugins/haloitsm/icon_haloitsm/util/api.py:97-198 | Once the icon client has its token, an error follows exactly retry_count requests. |
| Retry.MakeRequestUnfold | plugins/haloitsm/icon_haloitsm/util/api.py:109-120 | Once the first token call succeeds, `make_request` is the loop from attempt 0 with the Bearer header, after that call's event. |
| ApiClient.FirstIfList | plugins/haloitsm/icon_haloitsm/util/api.py:217-219 | The result is the response itself or one of its elements, never anything new. A non-empty list gives its first element, so a one-element array echoed back is unwrapped. Anything else, the empty list included, is kept as it is. |
| ApiClient.TicketsOf | plugins/haloitsm/icon_haloitsm/util/api.py:249-253 | The result is the response, its `tickets` entry or no tickets, never anything new. A dict reads as `get("tickets", [])`, a list passes, a scalar means no tickets. It is a list unless the dict's own `tickets` entry is not one. |
| ApiClient.GetTicket | plugins/haloitsm/icon_haloitsm/util/api.py:200-206 | One GET of /tickets/{id} with no query or body. The response or the error comes back untouched. |
| ApiClient.TicketPathsDistinct | plugins/haloitsm/icon_haloitsm/util/api.py:200-206 | Different integer ids request different paths: `str` of an int is injective, so no ticket is fetched for another id. |
| ApiClient.PostOne | plugins/haloitsm/icon_haloitsm/util/api.py:208-219 | One POST of a one-element array. An error propagates. A success is unwrapped with `FirstIfList`, so a server echoing the posted array gives back the posted item. |
| ApiClient.CreateTicket | plugins/haloitsm/icon_haloitsm/util/api.py:208-219 | One POST to /tickets with the ticket wrapped in a one-element array. A failed request raises as it is. A non-empty list response yields its first element, any other response comes back unchanged. |
| ApiClient.UpdateTicket | plugins/haloitsm/icon_haloitsm/util/api.py:221-239 | Data without "id" is refused with "Ticket ID missing" and no request. Otherwise POST /tickets with [data]. |
| ApiClient.SearchTickets | plugins/haloitsm/icon_haloitsm/util/api.py:241-253 | GET /tickets with the filters as query. The unwrapped result is a list unless the response's `tickets` field is not one. |
| ApiClient.DeleteTicket | plugins/haloitsm/icon_haloitsm/util/api.py:255-261 | One DELETE, returning True exactly when it does not raise. |
| ApiClient.AddNote | plugins/haloitsm/icon_haloitsm/util/api.py:263-273 | One POST to /ticketnotes with [note_data]. A failed request raises as it is. A response that is a one-element list returns its element, unwrapped; when the server echoes [note_data], add_comment returns note_data. |
| ApiClient.CommentData | plugins/haloitsm/komand_haloitsm/util/api.py:213-224 | The komand note has exactly ticket_id, note and isprivate. |
| ApiClient.AddComment | plugins/haloitsm/komand_haloitsm/util/api.py:213-229 | The arguments bind as Python binds them. Two or three arguments post one note, with is_private defaulting to False. Any other count is a TypeError before any request. |
| ApiClient.KomandCommentPayload | plugins/haloitsm/komand_haloitsm/util/api.py:213-224 | `add_comment(id, comment)` sends exactly [{ticket_id, note, isprivate: False}]. |
| ApiClient.SameNoteBothRevisions | plugins/haloitsm/komand_haloitsm/util/api.py:213-229 | Called with the same ticket id, comment and privacy flag, the komand `add_comment` makes the same request as the icon `add_comment(note_data)` and gets the same outcome. |
| Normalize.NestedName | plugins/haloitsm/icon_haloitsm/util/api.py:322-328 | Gives a dict's `name` (default ""), a string as it is, and "" for anything else. Only a dict entry can bring a non-string. |
| Normalize.LinkBase | plugins/haloitsm/icon_haloitsm/util/api.py:308 | No contract of its own; the resource server with every "/api" removed, or "" without a server. Normalize.TicketUrl and Normalize.ApiServerLinks state it. |
| Normalize.TicketUrl | plugins/haloitsm/icon_haloitsm/util/api.py:308 | The link always ends with /tickets/{id}. It starts with the resource server minus every "/api", and is just the path when there is no server. |
| Normalize.ApiServerLinks | plugins/haloitsm/icon_haloitsm/util/api.py:308 | For the usual resource server `{host}/api`, with no other "/api" starting inside the host, a ticket links to `{host}/tickets/{id}`. |
| Normalize.Flattened | plugins/haloitsm/icon_haloitsm/util/api.py:280-309 | The literal before filtering has exactly the 27 normalized keys. |
| Normalize.FlatField | plugins/haloitsm/icon_haloitsm/util/api.py:281-308 | No contract of its own; the entry of the dict literal under each key. Normalize.DictTicketShape and Normalize.RelationFields state its properties. |
| Normalize.DropNones | plugins/haloitsm/icon_haloitsm/util/api.py:312 | Keeps exactly the entries that are not None, with their values. |
| Normalize.ClientNormalize | plugins/haloitsm/icon_haloitsm/util/api.py:275-320 | A falsy ticket gives {}. A dict gives the flattened ticket without Nones. Any other truthy value falls to the handler's minimal {id: None, summary: str(ticket)}. |
| Normalize.DictTicketShape | plugins/haloitsm/icon_haloitsm/util/api.py:280-312 | A normalized ticket dict has no None value and no key outside the 27, and always has `url`. |
| Normalize.RelationFields | plugins/haloitsm/icon_haloitsm/util/api.py:284-300 | Each of the eight relation fields is the nested name. It is missing exactly when the object is a dict whose `name` is None. |
| Normalize.ActionNormalize | plugins/haloitsm/icon_haloitsm/actions/create_ticket/action.py:84-117 | Succeeds exactly for a dict, and otherwise raises AttributeError on `.get`. The result has exactly the 11 schema keys, with the copied fields and their "" or None defaults. |
| Normalize.ActionField | plugins/haloitsm/icon_haloitsm/actions/create_ticket/action.py:104-114 | No contract of its own; the entry of the action's output under each key. Normalize.ActionNormalize states its keys and defaults. |
| Normalize.NameOf | plugins/haloitsm/icon_haloitsm/actions/create_ticket/action.py:92-111 | No contract of its own; a nested name or email ("" unless a dict holds it, and None read as ""). Normalize.ActionNames states it. |
| Normalize.ActionNames | plugins/haloitsm/icon_haloitsm/actions/create_ticket/action.py:91-111 | `status_name`, `agent_name` and `agent_email` are never None. They are "" unless the nested object is a dict holding that entry. |
| Payloads.CreateRowsDistinct | plugins/haloitsm/icon_haloitsm/actions/create_ticket/action.py:41-49 | The seven `field_defaults` rows write seven different optional fields. |
| Payloads.RowValue | plugins/haloitsm/icon_haloitsm/actions/create_ticket/action.py:52 | No contract of its own; `params.get(input) or default` for a create row, `params.get(input)` for an update row. Payloads.CreateFillShape states the fields it fills. |
| Payloads.Fill | plugins/haloitsm/icon_haloitsm/actions/create_ticket/action.py:51-54 | No contract of its own; the loop over a field table. Payloads.FillRow, Payloads.FillOutside and Payloads.FillKeys state its properties. IconActions.CreateTicket and IconActions.UpdateTicket run it as loops proved equal to it. |
| Payloads.FillRow | plugins/haloitsm/icon_haloitsm/actions/create_ticket/action.py:51-54 | With distinct fields, a row's field holds its value when that is not None, and is left as it was otherwise. |
| Payloads.FillOutside | plugins/haloitsm/icon_haloitsm/actions/create_ticket/action.py:51-54 | A key that no row writes keeps whatever the dict held. |
| Payloads.FillKeys | plugins/haloitsm/icon_haloitsm/actions/create_ticket/action.py:51-54 | The loop adds no key outside the table's fields. |
| Payloads.CreateRows | plugins/haloitsm/icon_haloitsm/actions/create_ticket/action.py:41-49 | No contract of its own; the `field_defaults` table. Payloads.CreateRowsDistinct states that it writes seven distinct optional fields. |
| Payloads.CreateBase | plugins/haloitsm/icon_haloitsm/actions/create_ticket/action.py:25-38 | No contract of its own; summary, details, actioncode 0 and the ticket type. Payloads.CreateDataShape states them. |
| Payloads.TicketType | plugins/haloitsm/icon_haloitsm/actions/create_ticket/action.py:32 | No contract of its own; the explicit type or the connection default. Payloads.CreateOverrides and IconActions.CreateTicket state it. |
| Payloads.WithCustomFields | plugins/haloitsm/icon_haloitsm/actions/create_ticket/action.py:56-59 | No contract of its own; `customfields` is added exactly when truthy. Payloads.CreateDataShape and Payloads.UpdateDataShape state it. |
| Payloads.CreateData | plugins/haloitsm/icon_haloitsm/actions/create_ticket/action.py:24-59 | No contract of its own; the dict `create_ticket` sends. Payloads.CreateDataShape, Payloads.CreateOverrides and IconActions.CreateUsesConnectionDefaults state its properties. |
| Payloads.CreateFillShape | plugins/haloitsm/icon_haloitsm/actions/create_ticket/action.py:51-54 | The loop keeps the four fixed entries. It writes each optional field exactly when `param or default` is not None, and adds nothing else. |
| Payloads.CreateDataShape | plugins/haloitsm/icon_haloitsm/actions/create_ticket/action.py:24-59 | The create payload holds summary, details, actioncode 0 and the ticket type. It holds each optional field exactly when `param or default` is not None, custom fields exactly when non-empty, and nothing else. |
| Payloads.CreateOverrides | plugins/haloitsm/tests/test_create_ticket_defaults.py:76-123 | A truthy explicit value beats the connection default. Status, site and user are sent exactly when truthy. |
| Payloads.UpdateDataShape | plugins/haloitsm/icon_haloitsm/actions/update_ticket/action.py:24-48 | The update payload always holds the raw id and actioncode 1. It holds each mapped field exactly when not None (so 0 and "" are sent), custom fields exactly when non-empty, and nothing else. |
| Payloads.UpdateBase | plugins/haloitsm/icon_haloitsm/actions/update_ticket/action.py:26-29 | No contract of its own; the raw id and actioncode 1. Payloads.UpdateDataShape states them. |
| Payloads.UpdateData | plugins/haloitsm/icon_haloitsm/actions/update_ticket/action.py:25-48 | No contract of its own; the dict `update_ticket` sends. Payloads.UpdateDataShape states its keys. |
| Payloads.NoteData | plugins/haloitsm/icon_haloitsm/actions/add_comment/action.py:44-51 | The note has exactly five fields, with outcome "", who_can_view_id 1 and note_type_id 1 as defaults. |
| Payloads.SearchParams | plugins/haloitsm/icon_haloitsm/actions/search_tickets/action.py:18-33 | count (default 50) and page_no (default 1) are always present. search is present exactly when truthy. Nothing else is sent. |
| Payloads.Elements | plugins/haloitsm/icon_haloitsm/actions/search_tickets/action.py:40 | `for ticket in tickets`: a list yields its items and a string its characters. Anything else is not iterated. |
| Errors.Rethrow | plugins/haloitsm/icon_haloitsm/actions/create_ticket/action.py:74-82 | A PluginException passes through unchanged. Any other exception becomes a PluginException with the given cause and assistance "{type}: " plus at most 200 characters of its text. |
| Errors.RethrowText | plugins/haloitsm/icon_haloitsm/actions/get_agent/action.py:44-50 | Whatever was raised, a PluginException leaves the action. One that already was passes through unchanged. Any other keeps its message, but not its type, as the assistance under the given cause. |
| Errors.RethrowTextStable | plugins/haloitsm/icon_haloitsm/actions/get_agent/action.py:44-50 | An outer handler of either shape changes nothing, so the innermost cause is the one reported. |
| Errors.Rewrap | plugins/haloitsm/komand_haloitsm/actions/get_ticket/action.py:53-58 | Every exception, the action's own PluginExceptions included, becomes a plain PluginException with the given cause. The original message follows that cause in the new exception's text. |
| Errors.RewrapKeepsOnlyText | plugins/haloitsm/komand_haloitsm/actions/get_ticket/action.py:53-58 | Two exceptions with the same message rewrap alike. The type and a PluginException's own cause are lost. |
| IconConnection.SecretOf | plugins/haloitsm/icon_haloitsm/connection/connection.py:31-38 | The secret is the `secretKey` of a dict, a string as it is, and None otherwise. |
| ConnectionParams.DefaultsOf | plugins/haloitsm/icon_haloitsm/connection/connection.py:47-51 | No contract of its own; the five `default_*` reads. IconConnection.Connection.Store and KomandConnection.Connection.Store state where they land. |
| ConnectionParams.Required | plugins/haloitsm/icon_haloitsm/connection/connection.py:54 | No contract of its own; `all([...])` over the five fields. BuildClient and Connect in both connections state that a client is built only when it holds. |
| IconConnection.SecretForms | plugins/haloitsm/icon_haloitsm/connection/connection.py:31-38 | Instance of the contract of SecretOf: a plain-string secret and the same secret in a credential dict are stored alike. |
| IconConnection.InitFailure | plugins/haloitsm/icon_haloitsm/connection/connection.py:77-84 | `connect` reports a foreign exception as "Connection initialization failed". Its message is kept whole, as the data and after the fixed assistance text, from which it can be read back. |
| IconConnection.InitFailureByText | plugins/haloitsm/icon_haloitsm/connection/connection.py:77-84 | Two failures are reported alike exactly when their messages agree: the wrapping loses the type and nothing of the message. |
| IconConnection.AsTestFailure | plugins/haloitsm/icon_haloitsm/connection/connection.py:133-148 | Every failure of `test` becomes a ConnectionTestException. A ConnectionTestException passes through, and a PluginException keeps its three fields. |
| IconConnection.Connection.constructor | plugins/haloitsm/icon_haloitsm/connection/connection.py:9-14 | No client, token or servers yet. |
| IconConnection.Connection.Connect | plugins/haloitsm/icon_haloitsm/connection/connection.py:16-84 | Falsy or non-dict parameters fail with nothing stored. Otherwise every parameter is stored, with ssl_verify defaulting to True. A client of this revision is built exactly when the five required fields are truthy and the URLs are accepted. A failure leaves the old client. |
| IconConnection.Connection.Store | plugins/haloitsm/icon_haloitsm/connection/connection.py:29-51 | Each parameter lands in its attribute: the secret is taken from a credential dict or a plain string, ssl_verify defaults to True, and the five ticket defaults are read. The token and the client are left alone. |
| IconConnection.Connection.BuildClient | plugins/haloitsm/icon_haloitsm/connection/connection.py:53-84 | Missing required fields raise the missing-parameters error before any URL is looked at. A URL the client constructor rejects keeps its PluginException or is wrapped as an initialization failure. Otherwise a fresh client of this revision holds the stored fields and an empty token cache. |
| IconConnection.Connection.Test | plugins/haloitsm/icon_haloitsm/connection/connection.py:86-148 | Every error is a ConnectionTestException. A failing or falsy token fails the test. With a usable token the test passes whatever the /tickettypes probe does. The probe is one attempt with a 15 s timeout, and the client cache ends as the probe leaves it. |
| KomandConnection.CredentialOf | plugins/haloitsm/komand_haloitsm/connection/connection.py:23-24 | An absent key reads as None and a dict gives its `secretKey`. Any other value raises on `.get`. |
| KomandConnection.TestFailure | plugins/haloitsm/komand_haloitsm/connection/connection.py:75-79 | Every failure of `test` becomes the one ConnectionTestException "Connection test failed". Its message is kept whole, as the data and after the fixed assistance text. |
| KomandConnection.TestFailureByText | plugins/haloitsm/komand_haloitsm/connection/connection.py:75-79 | Two failures of `test` are reported alike exactly when their messages agree. |
| KomandConnection.Connection.constructor | plugins/haloitsm/komand_haloitsm/connection/connection.py:9-14 | No client, token or servers yet. |
| KomandConnection.Connection.Connect | plugins/haloitsm/komand_haloitsm/connection/connection.py:16-56 | Credentials are read first, and their errors propagate raw. When `client_secret` raises, only `client_id` has been assigned and every other attribute is kept. Once both are read, all other parameters are stored. A client is built only when the five required fields are truthy. The access token is never touched. |
| KomandConnection.Connection.Store | plugins/haloitsm/komand_haloitsm/connection/connection.py:24-35 | After the credentials, each parameter lands in its attribute: ssl_verify defaults to True and the five ticket defaults are read. Nothing else changes. |
| KomandConnection.Connection.BuildClient | plugins/haloitsm/komand_haloitsm/connection/connection.py:37-54 | Missing required fields raise the missing-parameters error and keep the old client. Otherwise a fresh client of this revision holds the stored fields, the stripped URLs and an empty token cache. |
| KomandConnection.Connection.Test | plugins/haloitsm/komand_haloitsm/connection/connection.py:58-79 | Every error is "Connection test failed". The token's value is not inspected. The result is that of GET /tickets?count=1, with 3 attempts and a 60 s timeout. |
| ActionCommon.CheckTicketId | plugins/haloitsm/icon_haloitsm/actions/get_ticket/action.py:24-35 | A falsy id is "Missing ticket ID" and is checked first. Any other id passes exactly when `isinstance(id, int)` holds (bools included) and it is positive. |
| ActionCommon.NotFound | plugins/haloitsm/icon_haloitsm/actions/get_ticket/action.py:42-46 | No contract of its own; "Ticket {id} not found". IconActions.GetTicket and KomandActions.GetTicket state when it is raised. |
| ActionCommon.TicketOutput | plugins/haloitsm/icon_haloitsm/actions/get_ticket/action.py:54-57 | No contract of its own; `{ticket, success}`. The action rows state what ticket each returns. |
| ActionCommon.NormalizeAll | plugins/haloitsm/icon_haloitsm/actions/search_tickets/action.py:39-42 | Same length and order, each element normalized. |
| ActionCommon.NormalizedPointwise | plugins/haloitsm/icon_haloitsm/actions/search_tickets/action.py:39-42 | A list that matches the normalizer element by element is `NormalizeAll` of the tickets. |
| ActionCommon.SearchOutput | plugins/haloitsm/icon_haloitsm/actions/search_tickets/action.py:46-50 | The output holds exactly tickets, success True and count = len(tickets). |
| IconActions.CreateTicket | plugins/haloitsm/icon_haloitsm/actions/create_ticket/action.py:15-82 | A missing ticket type fails before any request. Otherwise the payload sent is `CreateData`, built by the loop. A dict result comes back through the action normalizer, and a non-dict fails on `.get`. Every error is a PluginException. |
| IconActions.CreateUsesConnectionDefaults | plugins/haloitsm/tests/test_create_ticket_defaults.py:28-69 | With only summary and details, the five connection defaults fill the payload exactly as the test expects. |
| IconActions.UpdateTicket | plugins/haloitsm/icon_haloitsm/actions/update_ticket/action.py:15-73 | The payload is `UpdateData`, built by the loop. The request is always made, because "id" is always present. Every error is a PluginException. |
| IconActions.GetTicket | plugins/haloitsm/icon_haloitsm/actions/get_ticket/action.py:16-67 | Bad ids are refused before any request. A falsy response raises "Ticket {id} not found" unwrapped. Success is the client-normalized ticket. |
| IconActions.TicketIdExamples | plugins/haloitsm/tests/test_get_ticket.py:55-67 | Instance of the contract of ActionCommon.CheckTicketId on the tested ids: 0 is missing, while "invalid" and −5 are invalid. |
| IconActions.SearchTickets | plugins/haloitsm/icon_haloitsm/actions/search_tickets/action.py:16-60 | The query is `SearchParams`. The output lists every ticket normalized, in order, with count equal to the number of tickets. Errors are PluginExceptions. |
| IconActions.CloseData | plugins/haloitsm/icon_haloitsm/actions/close_ticket/action.py:29-39 | The update holds id and status. Resolution and a matching details line are added exactly when the resolution is truthy. |
| IconActions.CloseTicket | plugins/haloitsm/icon_haloitsm/actions/close_ticket/action.py:16-90 | A missing id is refused with no request. The status defaults to 4. A falsy update result fails. After a successful close the action succeeds, with the read-back ticket or the fallback. |
| IconActions.TestMode | plugins/haloitsm/icon_haloitsm/actions/add_comment/action.py:28-29 | The guard takes the test-mode path exactly unless the id is truthy and the note is a non-blank string. `.strip()` raises only for a truthy non-string note. |
| IconActions.AddComment | plugins/haloitsm/icon_haloitsm/actions/add_comment/action.py:16-68 | Test mode makes no request and reports success False. Otherwise the five-field note is posted. Its errors propagate, and a falsy result fails. A failed read-back gives the minimal ticket. |
| IconActions.GetRecord | plugins/haloitsm/icon_haloitsm/actions/get_agent/action.py:16-50 | One GET. A falsy response (an empty list included) is "not found". A list gives its first element. Non-plugin errors are wrapped with `str(e)`. |
| IconActions.GetAgent | plugins/haloitsm/icon_haloitsm/actions/get_agent/action.py:16-50 | One GET of /agent/{agent_id}, and every error leaving the action is a PluginException. A falsy response is "Agent {id} not found". A PluginException from the request passes through unchanged. Any other error becomes "Failed to get agent {id}" with its message. A truthy response yields the record (the first of a list) and success True. |
| IconActions.GetUser | plugins/haloitsm/icon_haloitsm/actions/get_user/action.py:16-50 | One GET of /users/{user_id}, and every error leaving the action is a PluginException. A falsy response is "User {id} not found". A PluginException from the request passes through unchanged. Any other error becomes "Failed to get user {id}" with its message. A truthy response yields the record (the first of a list) and success True. |
| KomandActions.KomandNormalize | plugins/haloitsm/komand_haloitsm/util/api.py:1-229 | As shipped, every call fails, whatever the ticket, with an AttributeError. That is not a PluginException, so the actions' handlers rewrap it. Repaired, it is the newer client's normalizer, whose shape `Normalize.DictTicketShape` states. |
| KomandActions.PostNote | plugins/haloitsm/komand_haloitsm/actions/add_comment/action.py:47 | As shipped the one-argument call is a TypeError with no request. Repaired, it posts the note. |
| KomandActions.AssignData | plugins/haloitsm/komand_haloitsm/actions/assign_ticket/action.py:36-46 | The payload is {id}, plus agent_id exactly when truthy and team_id exactly when truthy. |
| KomandActions.AssignTicket | plugins/haloitsm/komand_haloitsm/actions/assign_ticket/action.py:16-79 | The id is checked before the target, both before any request. Every later failure is rewrapped as "Failed to assign ticket {id}". As shipped the action never succeeds. Repaired, it returns the normalized read-back. |
| KomandActions.AddComment | plugins/haloitsm/komand_haloitsm/actions/add_comment/action.py:16-71 | The id is checked before the note, both before any request. Every later failure, including the read-back, is rewrapped as "Failed to add comment to ticket {id}". |
| KomandActions.AddCommentAsShippedFails | plugins/haloitsm/komand_haloitsm/actions/add_comment/action.py:47 | As shipped, a valid comment is never posted: the call fails to bind. |
| KomandActions.AddCommentRepaired | plugins/haloitsm/komand_haloitsm/actions/add_comment/action.py:38-64 | Repaired, the five-field note is posted and the normalized ticket is returned. |
| KomandActions.UpdateTicket | plugins/haloitsm/komand_haloitsm/actions/update_ticket/action.py:15-67 | The payload is `UpdateData`, and it is always sent. Every failure is "Failed to update ticket {id}". The result goes through the supplied normalizer. |
| KomandActions.GetTicket | plugins/haloitsm/komand_haloitsm/actions/get_ticket/action.py:16-58 | The checks are those of the newer action. Every failure inside the try, "not found" included, is rewrapped as "Failed to retrieve ticket {id}". |
| KomandActions.GetTicketAsShippedFails | plugins/haloitsm/komand_haloitsm/actions/get_ticket/action.py:44 | As shipped, an existing ticket is never returned. |
| KomandActions.GetTicketRepaired | plugins/haloitsm/komand_haloitsm/actions/get_ticket/action.py:44-51 | Repaired, an existing ticket comes back normalized. |
| KomandActions.SearchTickets | plugins/haloitsm/komand_haloitsm/actions/search_tickets/action.py:16-54 | Every failure is "Failed to search tickets". Repaired, the output is every ticket normalized in order. As shipped, only an empty result succeeds. |
| KomandActions.NormalizeEach | plugins/haloitsm/komand_haloitsm/actions/search_tickets/action.py:36-39 | Repaired, every ticket is normalized in order. As shipped, only an empty list gets through, and any ticket fails on the missing method. |
| Triggers.TicketCreated | plugins/haloitsm/icon_haloitsm/triggers/ticket_created/trigger.py:16-56 | A pass emits exactly for a non-empty dict ticket that passes both filters. A truthy filter over a non-dict ticket escapes `run`. Every other pass sleeps once. |
| Triggers.TicketOf | plugins/haloitsm/icon_haloitsm/triggers/ticket_created/trigger.py:30 | No contract of its own; `params.get('ticket', {})`. Triggers.TicketCreated and Triggers.KomandTicketCreated state its cases. |
| Triggers.Passes | plugins/haloitsm/icon_haloitsm/triggers/ticket_created/trigger.py:34-40 | No contract of its own; a falsy filter lets everything through; otherwise the field must equal it. The trigger rows state emit and skip in terms of it. |
| Triggers.TicketUpdated | plugins/haloitsm/icon_haloitsm/triggers/ticket_updated/trigger.py:16-68 | With the status filter on, an unchanged status skips (including both missing). previous_status_id is reported exactly when given. |
| Triggers.OrZero | plugins/haloitsm/icon_haloitsm/triggers/ticket_status_changed/trigger.py:59-60 | Never None, and keeps any other value. |
| Triggers.TicketStatusChanged | plugins/haloitsm/icon_haloitsm/triggers/ticket_status_changed/trigger.py:16-67 | A truthy non-dict ticket always escapes. A pass emits exactly when the filters pass and the status changed or the old one is missing. Both statuses are reported, with a missing one as 0. |
| Triggers.KomandTicketCreated | plugins/haloitsm/komand_haloitsm/triggers/ticket_created/trigger.py:16-57 | Nothing escapes, and nothing is sent without a payload. A ticket dict that passes both filters is sent as {ticket: normalized}, or skipped with the sleep if normalizing fails. A filter mismatch, and only a mismatch, `continue`s past the sleep. A payload or ticket that is not a dict is skipped with the sleep. |
| Triggers.KomandEmptyTicketSent | plugins/haloitsm/komand_haloitsm/triggers/ticket_created/trigger.py:33-50 | With no filters, an empty ticket is still normalized and sent. |
| Triggers.Poll | plugins/haloitsm/icon_haloitsm/triggers/ticket_created/trigger.py:28-56 | Over n passes, a passing ticket is sent n times, a skip sends nothing and an escape ends `run` on the first pass. Sleeps are counted per pass. |

## Left out

- HTTP, TLS and `requests`: a request is abstracted to its outcome (`Reply`, `Api`). Headers other than `Authorization` are not modelled, and neither are `verify`.
- The clock and the sleeps: `time.time()` is an integer parameter of each token call. The backoff sleeps are trace events, and the triggers' 0.1 s sleeps are a flag.
- Floating point: `expires_at` is an integer.
- Logging: `self.logger` calls have no effect on the model. The komand assign action's `assignment_info` list only feeds a log line, so it is not modelled.
- Dictionary order: maps are unordered. Iterating a dict, such as a search response whose `tickets` field is a dict, is reported as an error instead of yielding keys.
- `str()` of containers, `str(e)` and the runtime's rendering of PluginException. These are placeholder texts, so only causes, prefixes and truncation bounds are exact.
- Unicode beyond the whitespace classes used by `strip()`.
- The exact TypeError text for slicing a non-sequence `client_id`, which varies between Python versions.
- `connection._ensure_client()`, called by the newer actions, is not defined in this plugin's files; it may come from the runtime base class `insightconnect_plugin_runtime.Connection`, which is not part of this model. It is treated as doing nothing.
- The older plugin's `CreateTicket._normalize_ticket`, used by the older update action and trigger, is not part of this model. It is a function parameter (`normalize`).
- The endless `while True` loops of the triggers and `self.send`: one pass is a decision, and `Poll` runs a bounded number of passes.
- The status of an HTTP error in the icon client: `e.response` is a failed, falsy `Response`, so the message always says "unknown".
- The schema modules (`schema.py`) are not part of this model. Parameter names are the lower-case spellings of their constants.
- Attributes that the Python object lacks until `connect` runs are modelled as None, plus a `stored` flag.
- `HaloITSMAPI.__init__` is split in two: `PrepareServers` (URL checks) and the constructor (field assignment).

## Findings

| source | as written | input that shows it | evidently intended | confidence | as-written member | corrected member |
|---|---|---|---|---|---|---|
| plugins/haloitsm/komand_haloitsm/actions/get_ticket/action.py:44 | The older actions call `client._normalize_ticket`, which the older client (plugins/haloitsm/komand_haloitsm/util/api.py) does not define. | A valid id whose ticket exists: the AttributeError is rewrapped as "Failed to retrieve ticket {id}". Assign, add-comment and a non-empty search fail the same way. | The newer client's normalizer. | not executed | KomandActions.GetTicketAsShippedFails | KomandActions.GetTicketRepaired |
| plugins/haloitsm/komand_haloitsm/actions/add_comment/action.py:47 | `add_comment(note_data)` passes one dict to a method that takes `(ticket_id, comment, is_private=False)`. | Any valid ticket id and note: a TypeError ("missing 1 required positional argument: 'comment'") before any request. | Post the five-field note, as the newer client's `add_comment(note_data)` does. | not executed | KomandActions.AddCommentAsShippedFails | KomandActions.AddCommentRepaired |
