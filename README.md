# m365-mcp in Dafny

A model of the core of m365-mcp, an MCP (Model Context Protocol) server that
lets an assistant work with a Microsoft 365 account through Microsoft Graph.
It has two front ends:

- **The streamable-HTTP MCP server** (`src/server/index.js`). It keeps a table
  from session id to `{ transport, server }`. A POST without a session id
  whose body is an `initialize` request opens a session. Every other request
  must name a session in the table. The four tools the server hosts
  (`src/tools/*.js`) call Graph through a client built with a retry
  middleware (`src/utils/graph-client.js`).
- **The stand-alone HTTP server** (`m365-mcp.js`). It has:
  - a per-IP fixed-window rate limiter;
  - an in-memory OAuth token store that refreshes tokens close to expiry;
  - the `send_email` and `list_events` tools.

A third file, `src/server.js`, is a tiny router for `/api/` paths.

Modules, one per source file:

| module | models |
|---|---|
| `McpSessions` | the session table and the POST/GET/DELETE `/mcp` handlers (class `SessionServer`) |
| `RateLimit` | `customRateLimiter` and its `ipRateLimits` map (class `RateLimiter`) |
| `Tokens` | `userTokens`, the callback that stores a token, logout, `getValidAccessToken` (class `TokenStore`) |
| `M365Tools` | the `send_email` and `list_events` handlers of `m365-mcp.js` |
| `GraphClient` | the retry middleware |
| `OutlookTasks`, `OutlookCalendar`, `OutlookEmail`, `OutlookContacts` | the four tool classes |
| `Router` | `handleRequest` of `src/server.js` |

Shared modules:

- `Wrappers`: `Option` and `Result`.
- `Json`: JavaScript values. A missing property reads as `undefined`, and a later assignment of a key wins.
- `Text`: `join`, `split`, `startsWith`, integer rendering and `encodeURIComponent`.
- `Graph`: requests and the Graph service as an oracle.
- `ToolResult`: the `{ content, isError }` envelope, with the payload kept before `JSON.stringify`.
- `Payload`: the recipient, date-time and body shapes, each with a reader that inverts it.

How the model handles effects and external code:

- **Effects become parameters.** The clock (`Date.now()`, `new Date()`), `randomUUID`, `crypto.randomBytes`, the refresh request and the MCP transport's handling of a request are all parameters.
- **Graph is an oracle.** It is a function from a request to a response object or an error message. A tool whose `initialize` has not run has no client, and its call fails with the TypeError JavaScript raises.
- **Payloads are checked by reading them back.** Each request payload has a reader that recovers the fields Graph would read. The contracts state that reading a built payload gives back exactly the caller's parameters, with the source's defaults applied.

Behaviour of the source that the model keeps on purpose:

- **Two servers per session.** The initialize branch calls `createServer` twice: once to connect the transport (line 79) and once inside `onsessioninitialized` (line 65). The server stored in the table is therefore never the connected one. `McpSessions.ValidTable` states this.
- **A missing `config` fails the initialize request.** Without `params.config`, `createServer` throws a TypeError while reading `config.tenantId`. The initialize request is then answered with 500 and no session is stored.
- **An update without `eventId` is sent to a literal "undefined" path.** The calendar update and delete build the path `/me/calendar/events/undefined` (`OutlookCalendar.EventPath`).
- **Contact updates pass email addresses through unchanged.** `update_contact` sends `emailAddresses` as given, as plain strings. It does not use the `{ address, name }` shape that create uses.
- **A token without `expires_at` is never refreshed.** The difference is `NaN`, and `NaN < 300` is false.
- **An undefined path on GET or POST gets a 500.** Calling `path.startsWith` on an undefined path throws, and `src/server.js` answers 500.

## Model

| member | source | states |
|---|---|---|
| McpSessions.BadRequestBody | src/server/index.js:81-91 | the 400 body is JSON-RPC 2.0 with error code -32000, message "Bad Request: No valid session ID provided", no `data`, and `id: null` |
| McpSessions.InternalErrorBody | src/server/index.js:96-106 | the 500 body has code -32000, message "Internal server error", `data` set to the thrown message, and `id: null` |
| McpSessions.CreateServerError | src/server/index.js:17-34 | `createServer` throws exactly when the config is undefined or null (it reads `config.tenantId`) |
| McpSessions.AddTransport | src/server/index.js:61-69 | registering a transport under a handle not allocated before keeps the table invariant |
| McpSessions.AddSession | src/server/index.js:67 | storing a session under a non-empty id whose transport knows that id, with a server other than the connected one, keeps the table invariant |
| McpSessions.SessionServer.constructor | src/server/index.js:12 | the table starts empty |
| McpSessions.SessionServer.Route | src/server/index.js:56-92 | a known session id reuses its stored transport; a session is opened iff the id is absent and the body is an initialize request; an unknown id is rejected even with an initialize body |
| McpSessions.SessionServer.OpenSession | src/server/index.js:59-107 | a new transport is created. On a `createServer` failure the table is unchanged and the answer is the 500 body with its message. Otherwise the table gains exactly `freshId ↦ {transport, second server}` iff the transport initialises the session, even when it throws afterwards. The answer is the 500 body with the thrown message iff the transport throws, and otherwise the request is delegated to the transport |
| McpSessions.SessionServer.Post | src/server/index.js:50-107 | reject: 400 and nothing created or stored. Reuse: the table is unchanged, and the request goes to the stored transport, or gets the 500 body with the message if the transport throws. Open: the same response, table and transport as `OpenSession`, body included. The table invariant is kept |
| McpSessions.SessionServer.RouteToSession | src/server/index.js:111-132 | GET and DELETE are delegated to the stored transport iff the id is present and known, and otherwise answered 400 "Invalid or missing session ID" |
| McpSessions.SessionServer.OnClose | src/server/index.js:72-76 | closing a transport deletes exactly the entry under its session id, if it has one, and otherwise leaves the table untouched; afterwards no session uses that transport |
| McpSessions.SessionLifecycle | src/server/index.js:50-132 | an initialize request opens a session whose id then reaches its transport, and after the transport closes that id is refused with 400 |
| RateLimit.TooManyBody | m365-mcp.js:71-74 | the 429 body is `{error: 'Too many requests, please try again later.'}` |
| RateLimit.RateLimiter.constructor | m365-mcp.js:59 | no IP has an entry |
| RateLimit.RateLimiter.Handle | m365-mcp.js:61-76 | only the requesting IP's entry changes, to the next window state; the request is passed on iff its updated count is at most 100, and otherwise answered 429 |
| RateLimit.WithinWindow | m365-mcp.js:64-75 | requests no more than 900000 ms after the window start each add exactly one to the count and keep the start; the number passed on is capped by what is left of the 100 |
| RateLimit.FreshWindow | m365-mcp.js:56-76 | an IP with no entry sending n requests within 15 minutes of its first has count n, and exactly min(n, 100) of them are passed on |
| RateLimit.ExpiredWindowAdmits | m365-mcp.js:64-67 | a request more than 900000 ms after the window start resets the entry to `{count: 1, start: now}` and is passed on |
| Tokens.NeedsRefresh | m365-mcp.js:810-816 | `floor((expires_at - now) / 1000) < 300` holds iff an expiry exists and it is less than 300000 ms after `now` |
| Tokens.FloorDiv | m365-mcp.js:813 | the quotient is the floor: `q*b <= a < q*b + b` |
| Tokens.Decide | m365-mcp.js:805-848 | no token means unauthenticated; a token with at least 5 minutes left is used as stored; otherwise the new token is used iff a refresh token exists and the refresh succeeded, and the user is expired in every other case |
| Tokens.StoredOf | m365-mcp.js:806 | the stored token is present iff the user has an entry, and then it is that entry |
| Tokens.Reply | m365-mcp.js:805-848 | the call resolves iff the token is current or refreshed; it throws "User not authenticated" or "Authentication expired, please login again" otherwise |
| Tokens.TokenStore.constructor | m365-mcp.js:54 | the store starts empty |
| Tokens.TokenStore.Save | m365-mcp.js:749-750 | the callback stores the exchanged token under the fresh user id, and other entries are unchanged |
| Tokens.TokenStore.Logout | m365-mcp.js:795-802 | the session's user entry is deleted when the session names a user, and otherwise nothing changes |
| Tokens.TokenStore.GetValidAccessToken | m365-mcp.js:805-848 | unknown user: throws "User not authenticated" and nothing changes; at least 5 minutes left: returns the stored token and nothing changes; otherwise a successful refresh replaces the entry and returns the new token, and a missing refresh token or a failed refresh deletes the entry and throws "Authentication expired, please login again" |
| Tokens.AccessOutcome | m365-mcp.js:805-848 | other users' tokens are never touched; afterwards the user holds a token good for 5 minutes, or the refreshed one, or none exactly when the call threw |
| M365Tools.IntToStringHasNoAmpersand | m365-mcp.js:1133 | the rendered `maxResults` holds no `&` |
| M365Tools.FixedParamsHaveNoAmpersand | m365-mcp.js:1132-1136 | the `$top`, `$select` and `$orderby` parameters hold no `&` |
| M365Tools.TimeParamHasNoAmpersand | m365-mcp.js:1138-1139 | a `startDateTime=`/`endDateTime=` parameter holds no `&`, because its value is URI-encoded |
| M365Tools.EndpointSplits | m365-mcp.js:1131-1141 | the endpoint's path before `?` is `/me/calendar/events`, and what follows splits on `&` back into the exact parameter list |
| M365Tools.EventsEndpoint | m365-mcp.js:1131-1141 | the endpoint is `/me/calendar/events?` followed by parameters that split back into `$top`, `$select` and `$orderby` in that order, then `startDateTime` iff a start was given and `endDateTime` iff an end was given, each with the encoded time |
| M365Tools.Mail | m365-mcp.js:1070-1086 | reading the message back gives the subject, the body content typed 'HTML' or 'Text' after `isHtml` (default true), and the to, cc and bcc addresses in order, with cc and bcc `[]` when missing |
| M365Tools.SendMailBody | m365-mcp.js:1070-1088 | the request body has exactly `message` and `saveToSentItems: true` |
| M365Tools.EmailSentPayload | m365-mcp.js:1093-1099 | the success payload has `success: true` and message "Email sent successfully" |
| M365Tools.Authorized | m365-mcp.js:1066-1115 | a token error becomes the error envelope with its message; otherwise the Graph call runs with a client on that token; the result is an error iff either step failed |
| M365Tools.SendEmail | m365-mcp.js:1065-1116 | the token store changes as `getValidAccessToken` says; without a token no request is sent and the answer is "Failed to send email" with the reason; with one, exactly the sendMail POST is sent |
| M365Tools.ListEvents | m365-mcp.js:1126-1165 | the token store changes as `getValidAccessToken` says; without a token nothing is sent and the answer is "Failed to list events"; with one, one GET to an endpoint as `EventsEndpoint` states (`maxResults` default 10), answered with the response's `value` or the error envelope |
| GraphClient.Retry | src/utils/graph-client.js:19-56 | the loop's outcome, call count and waits are those of the recursive specification `Middleware` |
| GraphClient.RunFromShape | src/utils/graph-client.js:24-52 | from call k on: at most `maxRetries + 1 - k` calls; one wait between consecutive calls, the i-th equal to the back-off of retry k+i; every call but the last a retryable failure; a last call that failed retryably is the `maxRetries + 1`-th, so a retryable failure with retries left is always retried; the outcome is the last call's |
| GraphClient.MiddlewareShape | src/utils/graph-client.js:20-56 | the chain is called between 1 and `maxRetries + 1` times and stops exactly at the first success, the first non-retryable error, or the retryable error of the `maxRetries + 1`-th call, whose answer it passes on; only with a negative `maxRetries` does it throw the undefined `lastError` without calling |
| GraphClient.DelayBounds | src/utils/graph-client.js:44-47 | each wait is at most `maxRetryDelay`, and with a non-negative base delay the waits never decrease |
| GraphClient.DefaultSchedule | src/utils/graph-client.js:6-11 | with the defaults, a request that keeps failing with a retryable status is tried 4 times, with waits of 1000, 2000 and 4000 ms, and the fourth error is thrown |
| GraphClient.NonRetryableStops | src/utils/graph-client.js:36-41 | an error whose status is not retryable is thrown after one call with no wait |
| OutlookTasks.TaskPathInjective | src/tools/outlook-tasks.js:177 | the task path determines the list id and the task id, for list ids without `/` |
| OutlookTasks.CreateTaskBody | src/tools/outlook-tasks.js:112-125 | the task has exactly title, dueDateTime, importance and body; reading it back gives the title, importance defaulting to 'normal', and dueDateTime and body present iff supplied (undefined otherwise) |
| OutlookTasks.CreatedImportanceValid | src/tools/outlook-tasks.js:112 | a created task's importance is one of low, normal and high |
| OutlookTasks.PatchProps | src/tools/outlook-tasks.js:159-174 | the patch's keys are exactly the truthy updates; due dates are wrapped as UTC and bodies as text content |
| OutlookTasks.ReadTaskOf | src/tools/outlook-tasks.js:159-174 | reading a patch back gives each update value iff it was supplied |
| OutlookTasks.TaskPatch | src/tools/outlook-tasks.js:157-174 | the patch holds title, status, importance, dueDateTime and body exactly when each is truthy (so never `listId` or `taskId`), and reads back to the supplied values |
| OutlookTasks.OutlookTasksTool.constructor | src/tools/outlook-tasks.js:6-13 | a new tool has no Graph client |
| OutlookTasks.OutlookTasksTool.Initialize | src/tools/outlook-tasks.js:71-73 | `initialize` installs the client |
| OutlookTasks.OutlookTasksTool.ListTasks | src/tools/outlook-tasks.js:75-108 | GET the list's tasks with `maxResults` (default 50) and order (default 'createdDateTime desc'), filtered only when a filter is given; the result is the `value` list or "Failed to list tasks" |
| OutlookTasks.OutlookTasksTool.CreateTask | src/tools/outlook-tasks.js:110-153 | POST `CreateTaskBody` to the list (default 'default'); the result is `{success, taskId, task}` or "Failed to create task" |
| OutlookTasks.OutlookTasksTool.UpdateTask | src/tools/outlook-tasks.js:155-201 | PATCH the task path with a patch whose keys are exactly the truthy updates and which reads back to the supplied title, status, importance, UTC due date and text body. The result is `{success, task}` or "Failed to update task" |
| OutlookTasks.OutlookTasksTool.DeleteTask | src/tools/outlook-tasks.js:203-231 | DELETE the task path; the result is `{success: true}` or "Failed to delete task" |
| OutlookTasks.OutlookTasksTool.ListTaskLists | src/tools/outlook-tasks.js:233-261 | GET `/me/todo/lists` with `maxResults` (default 50); the result is the `value` list or "Failed to list task lists" |
| OutlookCalendar.Attendees | src/tools/outlook-calendar.js:50-53 | one attendee per address, in order |
| OutlookCalendar.AttendeeListRoundTrip | src/tools/outlook-calendar.js:50-53 | reading the attendee list back gives the addresses, each of type 'required'; missing attendees stay undefined |
| OutlookCalendar.CreateEventBody | src/tools/outlook-calendar.js:45-54 | the event has exactly subject, start, end, body and attendees; start and end are UTC-wrapped; body is present iff truthy |
| OutlookCalendar.PatchProps | src/tools/outlook-calendar.js:70-74 | the update's keys are exactly the truthy subject, start, end and body; `attendees` and `eventId` are never set |
| OutlookCalendar.ReadPatch | src/tools/outlook-calendar.js:70-74 | reading the update back gives each field iff it was supplied |
| OutlookCalendar.EventPatch | src/tools/outlook-calendar.js:69-74 | the update holds subject, start and end (UTC-wrapped) and an HTML body exactly when each is truthy, and reads back to them |
| OutlookCalendar.ListRequest | src/tools/outlook-calendar.js:30-36 | the list request asks for at most 10 events ordered by `start/dateTime`, with no filter |
| OutlookCalendar.InvalidAction | src/tools/outlook-calendar.js:101-111 | an unknown action gives `isError` with "Invalid action" and "Invalid action provided" |
| OutlookCalendar.OutlookCalendarTool.constructor | src/tools/outlook-calendar.js:17-19 | a new tool has no Graph client |
| OutlookCalendar.OutlookCalendarTool.Initialize | src/tools/outlook-calendar.js:21-23 | `initialize` installs the client |
| OutlookCalendar.OutlookCalendarTool.Call | src/tools/outlook-calendar.js:25-125 | an unknown action sends nothing and answers "Invalid action"; each known action sends its one request; a failing request answers "Failed to perform action" with the message; a success answers the action's payload |
| OutlookEmail.ListEmailsRequest | src/tools/outlook-email.js:83-93 | GET the folder's messages (default 'inbox'), `maxResults` default 10, order default 'receivedDateTime desc', filter only when given |
| OutlookEmail.ListEmailsPageBounded | src/tools/outlook-email.js:83 | a schema-valid call asks for between 1 and 50 messages |
| OutlookEmail.AttachmentsRoundTrip | src/tools/outlook-email.js:135-139 | each attachment becomes a fileAttachment whose name and contentBytes read back to the input, in order |
| OutlookEmail.Message | src/tools/outlook-email.js:118-140 | the message has exactly six keys; it reads back to the subject, the HTML body, and the to, cc, bcc and attachments in order, with cc, bcc and attachments `[]` when missing |
| OutlookEmail.SendMailBody | src/tools/outlook-email.js:142-144 | the request body is exactly `{ message }` |
| OutlookEmail.SentMessageHasRecipient | src/tools/outlook-email.js:126-128 | a schema-valid send names at least one recipient |
| OutlookEmail.MoveBody | src/tools/outlook-email.js:204-206 | the move body is exactly `{ destinationId }` |
| OutlookEmail.OutlookEmailTool.constructor | src/tools/outlook-email.js:6-13 | a new tool has no Graph client |
| OutlookEmail.OutlookEmailTool.Initialize | src/tools/outlook-email.js:77-79 | `initialize` installs the client |
| OutlookEmail.OutlookEmailTool.ListEmails | src/tools/outlook-email.js:81-114 | the result is an error iff the request fails ("Failed to list emails"), and otherwise the `value` list |
| OutlookEmail.OutlookEmailTool.SendEmail | src/tools/outlook-email.js:116-167 | POST the message; the result is `{success, messageId}` or "Failed to send email" |
| OutlookEmail.OutlookEmailTool.GetEmail | src/tools/outlook-email.js:169-196 | GET the message with the detail fields; the response or "Failed to get email" |
| OutlookEmail.OutlookEmailTool.MoveEmail | src/tools/outlook-email.js:198-229 | POST to the message's `/move`; `{success, newMessageId}` or "Failed to move email" |
| OutlookEmail.OutlookEmailTool.DeleteEmail | src/tools/outlook-email.js:231-259 | DELETE the message; `{success: true}` or "Failed to delete email" |
| OutlookEmail.OutlookEmailTool.ListFolders | src/tools/outlook-email.js:261-289 | GET `/me/mailFolders` with `maxResults` (default 50); the `value` list or "Failed to list folders" |
| OutlookContacts.ListContactsRequest | src/tools/outlook-contacts.js:68-78 | GET `/me/contacts`, `maxResults` default 50, order default 'displayName', filter only when given |
| OutlookContacts.EmailEntries | src/tools/outlook-contacts.js:107-110 | one entry per address, in order |
| OutlookContacts.EmailEntriesRoundTrip | src/tools/outlook-contacts.js:107-110 | every entry reads back to its address, labelled with the display name, same length and order |
| OutlookContacts.CreateContactBody | src/tools/outlook-contacts.js:103-115 | the contact has exactly six keys and reads back to the parameters, with businessPhones `[]` when missing |
| OutlookContacts.ContactUpdates | src/tools/outlook-contacts.js:147-151 | the patch is the parameters minus `contactId`, every other key unchanged |
| OutlookContacts.OutlookContactsTool.constructor | src/tools/outlook-contacts.js:6-13 | a new tool has no Graph client |
| OutlookContacts.OutlookContactsTool.Initialize | src/tools/outlook-contacts.js:62-64 | `initialize` installs the client |
| OutlookContacts.OutlookContactsTool.ListContacts | src/tools/outlook-contacts.js:66-99 | an error iff the request fails ("Failed to list contacts"), and otherwise the `value` list |
| OutlookContacts.OutlookContactsTool.CreateContact | src/tools/outlook-contacts.js:101-143 | POST the contact; `{success, contactId, contact}` or "Failed to create contact" |
| OutlookContacts.OutlookContactsTool.UpdateContact | src/tools/outlook-contacts.js:145-174 | PATCH `/me/contacts/{contactId}` with the other parameters; `{success, contact}` or "Failed to update contact" |
| OutlookContacts.OutlookContactsTool.DeleteContact | src/tools/outlook-contacts.js:176-204 | DELETE the contact; `{success: true}` or "Failed to delete contact" |
| Payload.UtcWrapperRoundTrip | src/tools/outlook-calendar.js:47-48 | a `{dateTime, timeZone: 'UTC'}` wrapper reads back to its date-time, including an undefined one |
| Payload.BodyRoundTrip | src/tools/outlook-tasks.js:121-124 | an item body reads back to its content under its content type, in either key order |
| Payload.RecipientsRoundTrip | src/tools/outlook-email.js:126-134 | a mapped recipient list reads back to the addresses, in order |
| Payload.StringsRoundTrip | src/tools/outlook-contacts.js:111 | a string array reads back to the strings |
| Text.SplitJoin | m365-mcp.js:1141 | splitting a join on a separator no part contains gives back the parts |
| Text.EncodeUriComponent | m365-mcp.js:1138-1139 | every output character is `%` or one `encodeURIComponent` leaves unescaped; input made only of such characters is returned unchanged |
| ToolResult.Failure | src/tools/outlook-tasks.js:96-106 | the error envelope is `isError` with exactly `error` and `details` |
| ToolResult.Perform | src/tools/outlook-tasks.js:75-108 | a tool result is an error iff the Graph call throws, then carries the operation's message and the error's; otherwise it carries the success payload of the response |
| Router.UnderApi | src/server.js:9 | `path.startsWith('/api/')` throws iff the path is undefined, and otherwise holds iff the path begins with `/api/` |
| Router.HandleRequest | src/server.js:3-26 | 200 with the GET or POST acknowledgement iff a GET or POST has a path under `/api/`; 404 `{error: 'Not found'}` for every other method or path; 500 "Failed to process request" with the TypeError's message iff a GET or POST has no path |

## Left out

- The OAuth exchange, the CSRF state check and the HTML pages of `m365-mcp.js` (`/`, `/auth/login`, `/auth/success`, `/auth/status`). These are HTTP redirects around the OAuth library. The token the exchange yields and the fresh user id are parameters of `Tokens.TokenStore.Save`.
- Express, helmet, cors, express-session and winston setup. This is framework and logging wiring.
- The `mcpTools` array of `m365-mcp.js` (lines 201-700). It defines a second set of tools, including an older `send_email` and `list_events`. Only the `server.tool` registrations at lines 1055-1166 are modelled.
- The `/v2/mcp` route and the MCP SDK (`McpServer`, `StreamableHTTPServerTransport`, `isInitializeRequest`). A transport is a handle. What it does with a request is a parameter: whether it initialises a new session, and the error it throws, if any. Whether a body is an initialize request is a boolean.
- `Promise.race` with the 30-second timeout, and the `setTimeout` sleeps. The waits are recorded as numbers, and a timeout is one of the errors the chain oracle may answer.
- `createGraphClient` and `ClientSecretCredential`. The client they build is the oracle handed to `Initialize`. The only `createServer` failure modelled is reading `config.tenantId` from an undefined or null config (`McpSessions.CreateServerError`). For any object config, `{}` included, the model assumes that `ClientSecretCredential`'s own argument checks (src/utils/graph-client.js:63-67) accept it, so a session is opened.
- zod validators such as `.email()` and `.datetime()`, and the JSON schemas. Only the numeric and length bounds are modelled, as `Valid…` predicates. The zod defaults are applied by the handlers as `GetOr` defaults.
- Non-integer `maxResults`. The schemas are `z.number()` and admit a value such as 2.5, which the source passes to `.top()` unchanged or renders as `$top=2.5` (m365-mcp.js:1133). The model types `maxResults` as an integer (`Option<int>`) in `OutlookTasks`, `OutlookEmail`, `OutlookContacts` and `M365Tools`, so fractional page sizes are not modelled.
- `JSON.stringify` of tool payloads. Payloads are kept as values, so a `details` of `undefined` (an error without a message) is not distinguished from a missing key once serialised.
- `Tokens.TokenStore.GetValidAccessToken`: the refresh client configuration and the logger call are left out. The refresh outcome is a parameter.
- `Tokens.TokenStore.GetValidAccessToken`: `userTokens` is a plain object (m365-mcp.js:54), so a `user_id` naming an inherited property (`constructor`, `toString`, `__proto__`) passes the `!userTokens[userId]` test at line 806, and line 811 then throws a TypeError reading `token.expires_at`. The model's store is a map without inherited keys and answers "User not authenticated" for such an id.
- `Tokens.TokenStore.GetValidAccessToken`, `Tokens.TokenStore.Logout`, `McpSessions.SessionServer.Post`: each handler is one atomic step, so interleavings at the await points are not modelled. In the source, `getValidAccessToken` awaits the refresh (m365-mcp.js:836) before writing at line 837 or deleting at line 842. A logout (line 797) while a refresh is pending is undone by that write, and a concurrent failed refresh deletes the token that another call has just stored. Likewise, the POST handler awaits `server.connect` and `transport.handleRequest` (src/server/index.js:80,95), and other requests may change the session table meanwhile.
- `M365Tools.SendEmail`: Graph's sendMail answer may have no body. The model treats any non-error answer as success, as the handler does.
- `OutlookEmail.OutlookEmailTool.SendEmail`: the Graph oracle answers every request with an object or an error, never with an empty (`undefined` or `null`) answer. On an empty answer, send_email's `response.id` (src/tools/outlook-email.js:151) throws a TypeError and the handler reports "Failed to send email" even though the mail went out. The model's contract promises `{success, messageId}` for every non-error answer. The same holds for the other handlers that read a property of the response: the list operations read `value`, and create and move read `id`.
- `RateLimit.RateLimiter.Handle`: `entry.count++` mutates the stored object in place. The model replaces the map entry with an updated value, which gives the same observable state because entries are never shared.
- `McpSessions.SessionServer.OpenSession`: the session id is produced by the transport with `randomUUID`. The model takes it as a parameter and requires that no transport has been given it before.
- The GET and DELETE `/mcp` handlers have no `try`. An error thrown by the transport there is outside the model.
- `handleRequest` in `src/server.js` with no `req` at all (the destructuring throws) is not modelled. `path` is modelled as possibly undefined.
- setup.js, client.js, the tests and mocks. These are interactive setup, a network client and test scaffolding.
