# Jessica core, modelled in Dafny

Jessica is a personal assistant. A Python core routes chat messages to one of four AI providers (Claude, Grok, Gemini, or a local Dolphin model), and a Next.js frontend holds the API routes, the Google integrations and the memory client. This project models the deterministic logic under that glue and proves properties of it. Every network call, SDK call, clock and decoder is an input to the model: a reply, an outcome, or a function parameter.

The model has one module per source file:

- **Routing and intent.** `Routing` covers `detect_routing_tier`, the memory-context block, the local prompt and `validate_environment`. `CommandParser` covers the explicit, action and natural-language command detectors and their combination. `CalendarIntent`, `GmailIntent` and `DocsIntent` cover the keyword classifiers of the chat box. Each keyword table is a substring test on the lowercased message.
- **Validators and errors.** `Auth` is the user-id guard. `AppErrors` covers the frontend error classes and `handleApiError`. `PyExceptions` covers the Python `APIError` hierarchy. `Mcp` covers the MCP request schema and parameter merge. The route modules cover the checks and error classification of their routes: `TasksApi`, `TaskList`, `MemoryUpload`, `GoogleAuthRoute`, `TranscribeRoute`, `ExtractTasksRoute`, `CalendarCreateRoute` and `ClaudeRoute`.
- **Stores and clients.** `TokenStore` models the OAuth token collection as a sequence of records in query order. Its class `TokenTable` holds the records and updates them in place. `GoogleOAuth` covers scope selection, the refresh-token grant (section 6 of RFC 6749) and the five-minute expiry rule. `MemoryService` is the append-only memory log behind the memory client, held by the class `MemoryClient`. `Performance` models the class `PerformanceMetrics`, which keeps bounded timing buffers and error counters.
- **Google clients and utilities.** `GoogleCalendar`, `GoogleGmail` and `GoogleDocs` model the field mappings of the three Google clients. `RetryUtils` and `Retry` model the Python and TypeScript retry helpers. `MasterPrompt` models the system-prompt builder.
- **Shared helpers.** `Common` holds strings, options and truthiness, `JsValues` holds JavaScript and JSON values, and `Sorting` is a stable sort.

Where the source changes state step by step, the model is imperative. Examples are the context-building loop, the tool-use loop of the Claude route, the token table, the memory client, the metric buffers and the retry loops. Each such method is proved against a specification function, and the properties are proved as lemmas about that function.

Where the code and its own description disagree, the model follows the code:

- The tasks route accepts any finite limit in (0, 500], for example 0.5. Its error message says "between 1 and 500".
- Storing a token again through the token route updates the matching record, but it never clears that record's `revoked` flag (`TokenStore.RepostKeepsRevoked`).
- Looking up a token never reads the `revoked` flag (`TokenStore.RevokedTokenStillServed`).
- The MCP `POST` handler always fails before it reads the body, and its tool list is empty.
- The Gmail client reports a message unread when it has no 'READ' label, and the refresh-token grant writes the new token into the first (user, 'google') record. The operations model both as written. The corrected behaviour is kept in separate members, named in "## Findings".
- `updateDocumentTitle` is modelled as the request it sends: a style update that re-sends the document's background. Its title argument is never used, so the title never changes.

## Model

| member | source | states |
|---|---|---|
| AppErrors.NewAppError | frontend/lib/errors/AppError.ts:10-19 | the status code defaults to 500; message and code are kept as given |
| AppErrors.NewValidationError | frontend/lib/errors/AppError.ts:25-29 | a validation error is a 400 with code VALIDATION_ERROR |
| AppErrors.NewAuthenticationError | frontend/lib/errors/AppError.ts:34-38 | a 401 with code AUTHENTICATION_ERROR; the message defaults to 'Authentication failed' |
| AppErrors.NewExternalServiceError | frontend/lib/errors/AppError.ts:43-50 | a 502 with code EXTERNAL_SERVICE_ERROR whose message is prefixed by the service name in brackets |
| AppErrors.HandleApiError | frontend/lib/errors/AppError.ts:55-88 | an AppError keeps its status, message and code; a plain Error becomes a 500 INTERNAL_ERROR with its message or the fallback text; anything else a 500 UNKNOWN_ERROR |
| AppErrors.HandledStatuses | frontend/lib/errors/AppError.ts:25-88 | each subclass reaches the client with its own status (400, 401, 502); anything that is not an AppError is a 500 with a non-empty message |
| Auth.GetUserId | frontend/lib/middleware/auth.ts:8-21 | succeeds iff the header is absent or empty, or matches the identifier pattern within 50 characters; returns the header or 'default-user'; otherwise the 'Invalid user ID format' authentication error |
| Auth.UserIdAlwaysValid | frontend/lib/middleware/auth.ts:12-20 | every user id getUserId returns, the fallback included, satisfies the format check |
| Auth.RequireAuth | frontend/lib/middleware/auth.ts:27-43 | succeeds iff the header is a valid id other than 'default-user'; the anonymous fallback gives 'Authentication required'; format errors pass through unchanged; every failure is a 401 |
| Auth.RequireAuthAgreesWithGetUserId | frontend/lib/middleware/auth.ts:29-36 | a successful requireAuth returns exactly what getUserId returned |
| CalendarCreateRoute.Resolve | frontend/app/api/calendar/create/route.ts:47-88 | without a calendar type (or with a calendar id) the body's token and calendar id ('primary' by default) are used; otherwise the first stored Google token of that type, refused as not connected, as expired within five minutes, or as a store failure, each an authentication error |
| CalendarCreateRoute.ChooseToken | frontend/app/api/calendar/create/route.ts:90-105 | a successful getValidGoogleToken always wins; when it fails, a resolved token is kept and its absence is the 'Access token is required' error |
| CalendarCreateRoute.ClassifyError | frontend/app/api/calendar/create/route.ts:121-137 | validation and authentication errors pass unchanged; 'Invalid Credentials' becomes a 401 reconnect message; 'insufficient permission' a 502 Google Calendar error; anything else the generic handling, in that order of precedence |
| CalendarCreateRoute.Insert | frontend/app/api/calendar/create/route.ts:107-120 | a created event is returned with the calendar id used and the calendar type or null; an empty reply is a 500 'Failed to create calendar event'; a thrown error is classified |
| CalendarCreateRoute.CreateFor | frontend/app/api/calendar/create/route.ts:47-137 | a resolution failure inserts nothing and leaves the token table alone; otherwise the table is what getValidGoogleToken leaves and the insert uses the chosen token, the resolved calendar id and the converted event |
| CalendarCreateRoute.Create | frontend/app/api/calendar/create/route.ts:31-137 | authentication failures and missing event data or title are answered before any token work, with the source's statuses and messages; success implies an insert was made and the API returned the event |
| CalendarCreateRoute.CreateEvent | frontend/app/api/calendar/create/route.ts:31-137 | the method over the token table returns exactly the reply and insert call of Create and leaves the table as Create says |
| CalendarCreateRoute.ConnectedCalendarUsed | frontend/app/api/calendar/create/route.ts:51-79 | a connected calendar type whose token is not near expiry is written to with that stored token and calendar id, and the table is unchanged |
| CalendarCreateRoute.ExpiredCalendarNotRefreshed | frontend/app/api/calendar/create/route.ts:71-76 | the route's own expiry check runs before any refresh: an expiring token of a calendar type is refused with 401 and nothing is refreshed or inserted |
| CalendarCreateRoute.ProvidedTokenSurvivesFailedRefresh | frontend/app/api/calendar/create/route.ts:97-105 | a token given in the body is used when the refresh fails; the failure is swallowed |
| CalendarCreateRoute.NoTokenNoInsert | frontend/app/api/calendar/create/route.ts:90-96 | with no token in the body or the store the request fails with 401 and nothing is inserted |
| CalendarIntent.TrimmedField | frontend/lib/utils/calendarIntent.ts:71-78 | a field is present iff it was captured and is not blank after trimming, and then it is exactly the trimmed capture, a non-empty part of it |
| CalendarIntent.Tokens | frontend/lib/utils/calendarIntent.ts:73 | splitting the attendees on commas and whitespace and dropping empty pieces yields non-empty names free of separators |
| CalendarIntent.TokensOfSepFree | frontend/lib/utils/calendarIntent.ts:73 | a non-empty text without separators is a single name, itself |
| CalendarIntent.TokensSplitAtSep | frontend/lib/utils/calendarIntent.ts:73 | a separator splits the text into two parts whose names are listed one after the other, so every name is a maximal run between separators |
| CalendarIntent.TokensKeepText | frontend/lib/utils/calendarIntent.ts:73 | the attendee names, concatenated, are exactly the captured text with its separators removed: nothing is lost or invented |
| CalendarIntent.Title | frontend/lib/utils/calendarIntent.ts:56-70 | the title is the trimmed capture when it is not blank; else the fallback taken from the message when it is not empty; else absent; never empty |
| CalendarIntent.TitleSource | frontend/lib/utils/calendarIntent.ts:56-70 | a title without a usable capture needs an action verb in the message and holds no stop word |
| CalendarIntent.FallbackTitleHasNoStopWord | frontend/lib/utils/calendarIntent.ts:60-63 | a title taken from the message contains none of 'at', 'on', 'when', 'with', 'for' in any case |
| CalendarIntent.FallbackTitleNeedsVerb | frontend/lib/utils/calendarIntent.ts:60-61 | a title can only be taken from the message when an action verb occurs in it, in any case |
| CalendarIntent.DetectCalendarIntent | frontend/lib/utils/calendarIntent.ts:24-93 | create iff a create keyword occurs in the lowercased message; list iff no create keyword but a list keyword; each event field is its trimmed capture; attendees are present iff captured |
| CalendarIntent.CreateFieldsNonEmpty | frontend/lib/utils/calendarIntent.ts:69-75 | every field the create intent carries, each attendee included, is non-empty |
| CalendarIntent.CreateBeatsList | frontend/lib/utils/calendarIntent.ts:46-88 | create keywords are checked first: a message with both 'plan' and 'calendar' is a create request |
| ClaudeRoute.StorageContexts | frontend/app/api/chat/claude/route.ts:49-54 | an array of storage contexts is used as given, a truthy single value becomes a one-element list, anything else falls back to the chat context |
| ClaudeRoute.LineKept | frontend/app/api/chat/claude/route.ts:69-70 | a memory's line is dropped exactly when its picked text (memory, else content) is empty |
| ClaudeRoute.Lines | frontend/app/api/chat/claude/route.ts:68-70 | every surviving line starts with '- ' and carries text; there are no more lines than memories |
| ClaudeRoute.LinesOfTruthy | frontend/app/api/chat/claude/route.ts:68-71 | every memory with a non-empty text has its line in the context |
| ClaudeRoute.LinesCount | frontend/app/api/chat/claude/route.ts:68-71 | the number of lines is the number of memories with a non-empty text |
| ClaudeRoute.ContextEmptiness | frontend/app/api/chat/claude/route.ts:66-81 | the memory context is empty iff memories were found but none has text (an empty search gives the notice); the core context is empty iff no core memory has text |
| ClaudeRoute.CombinedContext | frontend/app/api/chat/claude/route.ts:83-86 | the core section follows the memory context under its heading exactly when the core context is non-empty |
| ClaudeRoute.IndexOf | frontend/app/api/chat/claude/route.ts:147 | indexOf: -1 iff the character is absent, otherwise the position of its first occurrence |
| ClaudeRoute.SplitToolName | frontend/app/api/chat/claude/route.ts:146-159 | a tool name is skipped iff it has no underscore or its first underscore is first or last; otherwise it splits into a non-empty tool without underscores and a non-empty method that rejoin to the name |
| ClaudeRoute.SplitToolNameJoined | frontend/app/api/chat/claude/route.ts:146-159 | a tool without underscores and a method, joined by an underscore, split back into the same two parts |
| ClaudeRoute.ToolResultsOfToolUses | frontend/app/api/chat/claude/route.ts:130-145 | filtering the tool-use blocks first changes no tool result |
| ClaudeRoute.ToolResultsWellNamed | frontend/app/api/chat/claude/route.ts:153-177 | every tool result names a tool without underscores and a non-empty method that rejoin to the requested name |
| ClaudeRoute.ToolResultsCount | frontend/app/api/chat/claude/route.ts:145-196 | exactly one tool result is pushed per well-named tool use |
| ClaudeRoute.Converse | frontend/app/api/chat/claude/route.ts:112-207 | at most five model calls are made, and at least one |
| ClaudeRoute.TranscriptRounds | frontend/app/api/chat/claude/route.ts:138-199 | the conversation grows by one round per tool-use answer |
| ClaudeRoute.TotalsAreSums | frontend/app/api/chat/claude/route.ts:124-125 | the reported token totals are the sums of the usage of the calls made |
| ClaudeRoute.ExhaustedIffAllToolUse | frontend/app/api/chat/claude/route.ts:115-214 | the iterations run out exactly when all five answers ask for tool use, and then five calls were made |
| ClaudeRoute.EndsAtLastCall | frontend/app/api/chat/claude/route.ts:115-207 | every call before the last asked for tool use; a conversation that did not run out ends as its last call did, with its first text block's text or '', or with the error thrown |
| ClaudeRoute.ToolUseStep | frontend/app/api/chat/claude/route.ts:128-199 | a tool-use round adds its assistant turn, its results and its tokens to what the rest of the run does |
| ClaudeRoute.ResultOf | frontend/app/api/chat/claude/route.ts:146-181 | the loop body pushes an error tool result for a well-named tool use and nothing otherwise |
| ClaudeRoute.PushToolResults | frontend/app/api/chat/claude/route.ts:145-196 | the inner loop appends exactly the tool results of the tool uses, in order |
| ClaudeRoute.PushRound | frontend/app/api/chat/claude/route.ts:138-196 | a tool-use answer appends the assistant's content and then its tool results |
| ClaudeRoute.ToolLoop | frontend/app/api/chat/claude/route.ts:106-214 | the loop's messages, token totals and reply are those of the specification: the final text, the max-iterations notice, or the error thrown |
| ClaudeRoute.WriteFor | frontend/app/api/chat/claude/route.ts:216-235 | a single storage context is written with addConversation, any other number with the multi-context write |
| ClaudeRoute.Post | frontend/app/api/chat/claude/route.ts:29-250 | a missing, empty or non-string message is a 400 and nothing else happens; otherwise the memory search asks for the message, the user, the chat context and a limit of 5, the prompt is built from the two searches, a model error is handled and nothing is written, and a reply carries the final text and token totals and is written to the storage contexts |
| CommandParser.MatchAt | command_parser.py:18-28 | a match of a pattern of literals, `\s+` and one `\w+` ends inside the text, and its capture is a non-empty run of word characters |
| CommandParser.SearchLiteral | command_parser.py:31-73 | searching for a pattern of one literal succeeds exactly when the literal occurs at or after the start position |
| CommandParser.SearchLiteralIsContains | command_parser.py:117 | re.search of a plain word is the substring test |
| CommandParser.ProviderFrom | command_parser.py:95-97 | the provider chosen is the first, in table order, whose names hold the candidate or that is the candidate; none when no provider does |
| CommandParser.ProviderAliases | command_parser.py:10-15 | which provider each alias selects, both directions |
| CommandParser.FirstProvider | command_parser.py:91-97 | the result is one of the four providers and was selected by some capture; it is absent iff no capture names a provider |
| CommandParser.FirstProviderFirst | command_parser.py:91-97 | if capture i names a provider and no capture before it does, the result is the provider capture i names |
| CommandParser.ExplicitFrom | command_parser.py:89-99 | an explicit result is the selection of some pattern from the current one on, and it is absent iff no such pattern selects a provider |
| CommandParser.ExplicitRouting | command_parser.py:76-99 | an explicit routing result is one of the four providers |
| CommandParser.ExplicitFromFirst | command_parser.py:89-99 | the result is the provider selected by the first pattern, in table order, that selects one |
| CommandParser.DetectExplicitRouting | command_parser.py:76-99 | the lowercased message is scanned over the explicit patterns, and the result is exactly the specification's provider |
| CommandParser.ScanPatterns | command_parser.py:89-99 | the nested loops return exactly the specification's provider: patterns in table order, matches left to right, first provider named |
| CommandParser.ExplicitComesFromCapture | command_parser.py:89-97 | an explicit result came from a captured word of some pattern that names that provider; conversely, any captured word naming a provider gives a result |
| CommandParser.NaturalFrom | command_parser.py:115-118 | a natural routing result is one of Grok, Claude, Gemini |
| CommandParser.SearchAny | command_parser.py:116-118 | the loop over one provider's patterns reports a hit iff some pattern is found |
| CommandParser.DetectNaturalRouting | command_parser.py:102-120 | the loops return exactly the specification's provider |
| CommandParser.NaturalPrecedence | command_parser.py:31-65 | Grok's hints beat Claude's, which beat Gemini's, each direction stated |
| CommandParser.ActionCommand | command_parser.py:135-143 | a research action carries the original, not the lowercased, message |
| CommandParser.DetectActionCommand | command_parser.py:123-143 | the loop returns exactly the specification's action |
| CommandParser.ExtractCommandIntent | command_parser.py:146-206 | explicit first, then action, then natural language, else keyword routing, each stated as an iff; an explicit result carries the explicit provider, a natural one the natural provider, and the action is the detected action unless an explicit command won; the default type never survives |
| CommandParser.MatchHasLiterals | command_parser.py:18-28 | every literal of a pattern that matches occurs in the text |
| CommandParser.ActionImpliesGrokHint | command_parser.py:67-73 | every research action also contains 'research', so it would have routed to Grok had the action check not come first |
| DocsIntent.CreateTitle | frontend/lib/utils/docsIntent.ts:52-58 | the title is the trimmed capture when non-empty, else the non-empty text taken from the message, else 'Untitled Document'; never empty |
| DocsIntent.UncapturedTitleHasNoStop | frontend/lib/utils/docsIntent.ts:52-58 | without a usable title capture, the title is 'Untitled Document' or text holding none of 'with', 'containing', 'that says' |
| DocsIntent.TitleFromMessageHasNoStop | frontend/lib/utils/docsIntent.ts:53 | a title taken from the message contains none of 'with', 'containing', 'that says' in any case |
| DocsIntent.ContentAfterVerb | frontend/lib/utils/docsIntent.ts:81 | the content between document words exists exactly when a document word occurs after the verb |
| DocsIntent.ContentFromMessage | frontend/lib/utils/docsIntent.ts:81 | the content fallback needs an append verb in the message and is then taken from the text after it |
| DocsIntent.AppendContent | frontend/lib/utils/docsIntent.ts:80-87 | the trimmed capture when non-empty, otherwise the fallback (which may be absent or empty) |
| DocsIntent.DetectDocsIntent | frontend/lib/utils/docsIntent.ts:16-94 | create iff a create keyword occurs; read iff no create but a read keyword; append iff neither but an append keyword; each carries its captured or derived fields |
| DocsIntent.UpdateIsAppend | frontend/lib/utils/docsIntent.ts:38-47 | 'update document' yields an append request: no update action is ever produced |
| ExtractTasksRoute.Transcript | frontend/app/api/extract-tasks/route.ts:20 | the transcript is the first non-empty of `transcript` and `transcription`, absent iff both are empty |
| ExtractTasksRoute.ClassifyError | frontend/app/api/extract-tasks/route.ts:31-47 | validation and external-service errors pass unchanged; status 401 becomes the invalid-key 502, 429 the rate-limit 502; anything else the generic handling |
| ExtractTasksRoute.ResponseStatusIgnored | frontend/app/api/extract-tasks/route.ts:38-46 | a 401 carried only under `response.status` is not recognised and gets the generic 500 |
| ExtractTasksRoute.ExtractTasks | frontend/app/api/extract-tasks/route.ts:15-48 | no transcript is a 400 before any extraction; a thrown extraction is classified; a result is spread after `success`, every other key taken from the result |
| ExtractTasksRoute.Spread | frontend/app/api/extract-tasks/route.ts:29 | the body always has `success`, true unless the result overrides it, and every other key as the result has it |
| ExtractTasksRoute.SpreadAgree | frontend/app/api/extract-tasks/route.ts:29 | spreading the same fields onto two objects keeps every key they agreed on and sets every key the fields carry |
| GmailIntent.QueryShape | frontend/lib/utils/gmailIntent.ts:72-83 | the search query is empty exactly when no filter applies, and starts with `is:unread` whenever the unread filter is on |
| GmailIntent.DetectGmailIntent | frontend/lib/utils/gmailIntent.ts:20-118 | list iff a list keyword occurs; read iff no list but a read keyword; mark-read iff neither but a mark-read keyword; the unread filter is on iff 'unread' or 'new' occurs; the query is built from the filters in the order unread, sender, subject |
| GmailIntent.UnreadKeywordsSetFilter | frontend/lib/utils/gmailIntent.ts:52-58 | asking for unread or new emails lists with the unread filter on and the query starting with `is:unread` |
| GmailIntent.ShowEmailsLists | frontend/lib/utils/gmailIntent.ts:24-52 | 'show emails' also contains the read keyword 'show email', yet it lists, because listing is tried first |
| GoogleAuthRoute.SplitOn | frontend/app/api/auth/google/route.ts:28 | split on one character yields at least one piece and no piece contains the separator |
| GoogleAuthRoute.SplitOnJoin | frontend/app/api/auth/google/route.ts:28 | joining the pieces with the separator gives back the text |
| GoogleAuthRoute.ParseServices | frontend/app/api/auth/google/route.ts:20-29 | a missing, empty or 'all' parameter expands to calendar, gmail and docs; anything else is split on commas and each part trimmed |
| GoogleAuthRoute.AuthorizationRequest | frontend/app/api/auth/google/route.ts:17-60 | a 400 with the fixed message iff no requested service maps to a scope; otherwise the seven authorization parameters, with the scopes joined by spaces, offline access, forced consent and the state encoding the calendar type or nothing |
| GoogleAuthRoute.AuthParams | frontend/app/api/auth/google/route.ts:47-55 | the parameters are the seven names in order, each once, with their values |
| GoogleAuthRoute.DefaultRequestsAllScopes | frontend/app/api/auth/google/route.ts:20-26 | without a services parameter the request asks for the calendar, Gmail and Docs scopes |
| GoogleAuthRoute.UnknownServicesRefused | frontend/app/api/auth/google/route.ts:28-39 | a list naming no known service after trimming is refused |
| GoogleCalendar.Invitees | frontend/lib/api/google-calendar.ts:48 | one `{email}` per attendee address, in order |
| GoogleCalendar.ToGoogleEvent | frontend/lib/api/google-calendar.ts:35-49 | the insert body carries the title as summary, description and location unchanged, both times as dateTime in the local zone, and attendees iff the request has them |
| GoogleCalendar.AttendeeEmails | frontend/lib/api/google-calendar.ts:69 | the emails read back are non-empty, no more than the attendees, include every attendee's non-empty email, and each is some attendee's email |
| GoogleCalendar.AttendeeEmailsAppend | frontend/lib/api/google-calendar.ts:69 | the emails of two runs of attendees are the first run's followed by the second's, so the attendees' order is kept |
| GoogleCalendar.AttendeeEmailsOne | frontend/lib/api/google-calendar.ts:69 | one attendee gives its email when it has a non-empty one, and nothing otherwise |
| GoogleCalendar.InviteesRoundTrip | frontend/lib/api/google-calendar.ts:48-69 | inviting a list of non-empty addresses and reading the attendees back gives the same list |
| GoogleCalendar.TimeOf | frontend/lib/api/google-calendar.ts:66-67 | a time is the dateTime, else the all-day date, else the fallback |
| GoogleCalendar.CreatedEvent | frontend/lib/api/google-calendar.ts:60-77 | each field of the created event prefers the API's value and falls back to the request's; the calendar id is the one used and the type 'google'; the metadata carries the API's event id, link and iCalUID, and no status |
| GoogleCalendar.CreatedEchoesRequest | frontend/lib/api/google-calendar.ts:62-69 | when the API replies with only an id, the event echoes everything the request asked for |
| GoogleCalendar.FetchedEvent | frontend/lib/api/google-calendar.ts:110-126 | an event read back has a non-empty title ('Untitled Event' by default), times defaulting to now, attendees iff the API gave some, and metadata with the API's event id, link, iCalUID and status |
| GoogleCalendar.ListedEvents | frontend/lib/api/google-calendar.ts:106-126 | no items give the empty list; otherwise one event per item in order, each with a title and a start time |
| GoogleCalendar.ListQuery | frontend/lib/api/google-calendar.ts:97-104 | the list request starts now unless given, asks for 10 results unless a non-zero count is given, expands recurring events unless singleEvents is false, and orders by start time by default |
| GoogleCalendar.GetCalendarEvent | frontend/lib/api/google-calendar.ts:132-174 | an empty reply is 'Event not found'; otherwise the event read back, with a title and start time |
| GoogleCalendar.MergeUpdate | frontend/lib/api/google-calendar.ts:204-219 | the stored event with the changes: a non-empty title replaces the summary; description and location replace whenever given; a non-empty time replaces the whole time; given attendees replace; id, link, UID and status are kept |
| GoogleCalendar.EmptyUpdateKeepsEvent | frontend/lib/api/google-calendar.ts:204-219 | an update with no fields sends the stored event unchanged |
| GoogleCalendar.UpdateIdempotent | frontend/lib/api/google-calendar.ts:204-219 | applying the same update twice sends the same event as applying it once |
| GoogleCalendar.UpdatedEvent | frontend/lib/api/google-calendar.ts:231-249 | the updated event's id falls back to the id that was updated; title and times default as for a fetched event, and the metadata carries the API's event id and status |
| GoogleCalendar.UpdateCalendarEvent | frontend/lib/api/google-calendar.ts:179-250 | nothing is sent iff the stored event is missing ('Event not found'); otherwise the merged event is sent, an empty reply is 'Failed to update calendar event', and a reply gives the updated event with an id |
| GoogleDocs.WebViewLink | frontend/lib/api/google-docs.ts:58-127 | the link is the editor prefix, the document id and '/edit' |
| GoogleDocs.WebViewLinkInjective | frontend/lib/api/google-docs.ts:58-127 | different documents get different links |
| GoogleDocs.ElementsTextAppend | frontend/lib/api/google-docs.ts:90-116 | extraction follows document order: the text of two runs of elements is the first's text then the second's |
| GoogleDocs.SingleCellTable | frontend/lib/api/google-docs.ts:101-114 | a table cell's elements are extracted as if they stood in the body |
| GoogleDocs.NoParagraphNoTableNoText | frontend/lib/api/google-docs.ts:92-101 | elements with neither a paragraph nor a table add no text |
| GoogleDocs.AppendRuns | frontend/lib/api/google-docs.ts:92-100 | the paragraph loop appends the truthy run contents of the paragraph, in order |
| GoogleDocs.AppendCells | frontend/lib/api/google-docs.ts:105-111 | the cell loop appends the text of each cell's elements, in order |
| GoogleDocs.AppendRows | frontend/lib/api/google-docs.ts:103-113 | the row loop appends the text of each row, in order |
| GoogleDocs.AppendElement | frontend/lib/api/google-docs.ts:92-114 | one element appends its paragraph's text, then its table's |
| GoogleDocs.ExtractText | frontend/lib/api/google-docs.ts:90-116 | `extractText` appends exactly the document-order text of its elements |
| GoogleDocs.GetDocument | frontend/lib/api/google-docs.ts:78-128 | a missing document is exactly the 'Document not found' error; otherwise the id asked for, the title or 'Untitled Document', the extracted text trimmed or nothing when empty, the times, and the link |
| GoogleDocs.FetchedContentShape | frontend/lib/api/google-docs.ts:124 | fetched content, when present, is non-empty text of the document with no surrounding whitespace; a document without text has none |
| GoogleDocs.FetchedTitleNonEmpty | frontend/lib/api/google-docs.ts:123 | a fetched document's title is never empty |
| GoogleDocs.CreateDocument | frontend/lib/api/google-docs.ts:34-59 | the result is 'Failed to create document' iff the reply has no id; otherwise that id, its link, the fetched title or the one asked for, and the fetched times |
| GoogleDocs.AppendTextToDocument | frontend/lib/api/google-docs.ts:149-180 | a body with no content array is 'Document has no content'; otherwise the text and a newline are inserted at `InsertIndex` of the content: 1 for an empty body, else `(endIndex or 1) - 1` of the last element |
| GoogleDocs.InsertionInsideDocument | frontend/lib/api/google-docs.ts:158-163 | for any content whose last end is not negative, the append's insertion index is non-negative: 1 in an empty body, strictly before a positive last end, and 0 when the last end is missing or 0 |
| GoogleDocs.UpdateDocumentTitle | frontend/lib/api/google-docs.ts:201-225 | a missing document is 'Document not found'; otherwise the request re-sends the document's background with fields 'background' |
| GoogleDocs.UpdateIgnoresTitle | frontend/lib/api/google-docs.ts:186-225 | the title asked for never reaches the request, so the title is not changed |
| GoogleGmail.FirstHeader | frontend/lib/api/google-gmail.ts:79-80 | the first header whose name matches ignoring case, or none exactly when no header matches |
| GoogleGmail.GetHeader | frontend/lib/api/google-gmail.ts:79-137 | the value of the first header with that name in any case; undefined when no header has it |
| GoogleGmail.GetHeaderIgnoresCase | frontend/lib/api/google-gmail.ts:80-137 | names asked for that differ only in case give the same value |
| GoogleGmail.ApplyModify | frontend/lib/api/google-gmail.ts:224-230 | after a modify request a label is kept iff it was on the message and not asked to be removed |
| GoogleGmail.MarkReadRemovesOnlyUnread | frontend/lib/api/google-gmail.ts:224-230 | marking read removes 'UNREAD' and keeps every other label |
| GoogleGmail.UnreadAsWrittenSurvivesMarkRead | frontend/lib/api/google-gmail.ts:82-163 | with the flag as written (no 'READ' label), a message marked read is still reported unread |
| GoogleGmail.MarkReadClearsUnread | frontend/lib/api/google-gmail.ts:224-230 | with the intended flag ('UNREAD' present), marking read clears it, and an already-read message is unchanged |
| GoogleGmail.NothingToRemove | frontend/lib/api/google-gmail.ts:228 | a request that names none of the message's labels leaves them unchanged |
| GoogleGmail.ToMessage | frontend/lib/api/google-gmail.ts:82-95 | the labels are the message's (none when absent) and, as written, the message is unread iff they do not include 'READ' |
| GoogleGmail.MarkedReadReportedUnread | frontend/lib/api/google-gmail.ts:82-230 | a fetched message without a 'READ' label is still reported unread after the mark-read label change |
| GoogleGmail.Flatten | frontend/lib/api/google-gmail.ts:153-155 | the pre-order listing of a part tree starts with the part itself |
| GoogleGmail.TextOfListAppend | frontend/lib/api/google-gmail.ts:143-156 | the text of two lists of parts is the first's text then the second's |
| GoogleGmail.AttachmentsOfListAppend | frontend/lib/api/google-gmail.ts:173-186 | the attachments of two lists of parts are the first's then the second's |
| GoogleGmail.TextIsPreOrder | frontend/lib/api/google-gmail.ts:143-156 | the recursive walk collects exactly the text of the parts of one type taken one by one in pre-order |
| GoogleGmail.TextOfListSingle | frontend/lib/api/google-gmail.ts:144-151 | the text of one part alone is that part's own content |
| GoogleGmail.TextAllIsPreOrder | frontend/lib/api/google-gmail.ts:153-155 | walking a list of children collects the text of their pre-order listing |
| GoogleGmail.AttachmentsArePreOrder | frontend/lib/api/google-gmail.ts:173-186 | the recursive walk collects exactly the attachments of the parts taken one by one in pre-order |
| GoogleGmail.AttachmentsOfListSingle | frontend/lib/api/google-gmail.ts:174-181 | the attachments of one part alone are that part's own |
| GoogleGmail.AttachmentsAllArePreOrder | frontend/lib/api/google-gmail.ts:183-185 | walking a list of children collects the attachments of their pre-order listing |
| GoogleGmail.AttachmentsWellFormed | frontend/lib/api/google-gmail.ts:174-180 | every attachment has a non-empty filename, type and attachment id |
| GoogleGmail.NoSuchPartNoText | frontend/lib/api/google-gmail.ts:144-151 | parts none of which is of the type with data give an empty body |
| GoogleGmail.AddOwnContent | frontend/lib/api/google-gmail.ts:144-151 | a part with data adds its decoded content to the HTML body if text/html, to the body if text/plain, and to neither otherwise |
| GoogleGmail.TextOfAllStep | frontend/lib/api/google-gmail.ts:154 | the children walked so far plus the next one add that child's text at the end |
| GoogleGmail.ExtractBody | frontend/lib/api/google-gmail.ts:143-156 | `extractBody` appends exactly the pre-order text/plain text to the body and the pre-order text/html text to the HTML body |
| GoogleGmail.AddOwnAttachment | frontend/lib/api/google-gmail.ts:174-181 | a part with a filename and attachment id is pushed, its type defaulting to 'application/octet-stream' and its size to 0 |
| GoogleGmail.AttachmentsOfAllStep | frontend/lib/api/google-gmail.ts:184 | the children walked so far plus the next one add that child's attachments at the end |
| GoogleGmail.ExtractAttachments | frontend/lib/api/google-gmail.ts:173-186 | `extractAttachments` pushes exactly the pre-order attachments of the tree |
| GoogleGmail.GetGmailMessage | frontend/lib/api/google-gmail.ts:124-205 | a missing message is exactly 'Message not found'; otherwise the message's fields, with body, HTML body and attachments each undefined when empty |
| GoogleGmail.ListRequestFor | frontend/lib/api/google-gmail.ts:54-59 | the list request is for 'me' with the query and page token given, and asks for 10 results when the count is absent or 0 |
| GoogleGmail.IdsOf | frontend/lib/api/google-gmail.ts:66-100 | the ids kept are non-empty and no more than the references |
| GoogleGmail.ListMessages | frontend/lib/api/google-gmail.ts:54-105 | no references gives no messages and no page token; otherwise one message per reference with an id, fetched by that id, in order, and the next page token when non-empty |
| GoogleGmail.IdsKeepEveryNamedRef | frontend/lib/api/google-gmail.ts:67-100 | every reference with an id is kept, every kept id comes from a reference, and none is kept iff no reference has an id |
| GoogleOAuth.ScopeOf | frontend/lib/api/google-oauth.ts:125-129 | a service has a scope iff it is calendar, gmail or docs, and the scope is never empty |
| GoogleOAuth.GetGoogleScopes | frontend/lib/api/google-oauth.ts:124-132 | every scope returned comes from a known service asked for, every known service asked for has its scope returned, and none is returned iff no service is known |
| GoogleOAuth.ScopesKeepOrder | frontend/lib/api/google-oauth.ts:131 | the scopes keep the order of the services: the selection distributes over concatenation |
| GoogleOAuth.DefaultScopes | frontend/lib/api/google-oauth.ts:124-131 | the default service list asks for the calendar, Gmail read-only and Docs scopes, in that order |
| GoogleOAuth.RefreshGrantForm | frontend/lib/api/google-oauth.ts:28-33 | the refresh form carries the client id, client secret, the refresh token and grant_type 'refresh_token', each once, in that order |
| GoogleOAuth.RefreshGoogleToken | frontend/lib/api/google-oauth.ts:19-69 | a refused grant throws 'Token refresh failed: ' with the error or the status text and writes nothing; a granted one returns the new token with the same refresh token and `now + expires_in * 1000`, written into the first (user, 'google') record whatever calendar type was looked up |
| GoogleOAuth.Decide | frontend/lib/api/google-oauth.ts:107-118 | the stored token is used iff it is not within five minutes of expiry; it is refreshed iff expired and a refresh token is stored |
| GoogleOAuth.NoExpiryNeverRefreshed | frontend/lib/api/google-oauth.ts:108 | a token with no (or zero) expiry time is always served as stored |
| GoogleOAuth.ValidToken | frontend/lib/api/google-oauth.ts:74-119 | no record is 'No Google token found'; an unexpired token is served; an expired one without refresh token is 'Token expired and no refresh token available'; otherwise exactly one grant is made and its token served; the table changes only after a granted refresh, and then as the write-back as written |
| GoogleOAuth.GetValidGoogleToken | frontend/lib/api/google-oauth.ts:74-119 | the answer, the number of grants and the table afterwards are those of ValidToken |
| GoogleOAuth.RefreshedTokenIsUsed | frontend/lib/api/google-oauth.ts:45-116 | when the record the lookup read is the first (user, 'google') record, after the write-back with a lifetime beyond the buffer the lookup finds the new token and serves it as stored |
| GoogleOAuth.SecondCallMakesNoGrant | frontend/lib/api/google-oauth.ts:45-119 | when the record the lookup read is the first (user, 'google') record, a second call right after a granted refresh serves the new token with no grant and no change to the table |
| GoogleOAuth.SecondCallMayGrantAgain | frontend/lib/api/google-oauth.ts:45-119 | for a calendar whose record is not the first (user, 'google') record, a second call right after a granted refresh makes another grant |
| MasterPrompt.BuildSystemPrompt | frontend/lib/prompts/jessica-master-prompt.ts:36-51 | the prompt starts with the base; it is the base alone when neither context is given; the memory section follows the base iff the memory context is non-empty; the instructions section ends the prompt iff the instructions are non-empty; with both sections the prompt is exactly as long as the base and the two sections, so nothing else is added |
| Mcp.ValidNameIsUserIdFormat | frontend/app/api/mcp/route.ts:17-18 | a tool or method name is accepted iff it has 1 to 50 characters, all letters, digits, '_' or '-' |
| Mcp.ParamsRules | frontend/app/api/mcp/route.ts:19-31 | undefined and null params are accepted, non-object params refused, and an object accepted iff it serialises to fewer than 10000 characters |
| Mcp.ParseRequest | frontend/app/api/mcp/route.ts:16-109 | the request parses iff tool, method and params all pass, keeping them unchanged; otherwise it is a validation error 'Invalid request: ' with the issues |
| Mcp.SafeParams | frontend/app/api/mcp/route.ts:114-116 | the merged params always carry the authenticated user id; object params keep every other field; anything else becomes just the user id |
| Mcp.ClientCannotChooseUserId | frontend/app/api/mcp/route.ts:113-116 | a client-supplied userId is overridden by the authenticated one, and no key is added or lost |
| Mcp.PostUserId | frontend/app/api/mcp/route.ts:86-93 | the user id is the authenticated one, else 'PhyreBug'; either way it is a valid user id |
| Mcp.ListTools | frontend/app/api/mcp/route.ts:38-58 | GET answers success with no tools and 'MCP module not yet implemented', whether or not authentication succeeds |
| Mcp.ExecuteTool | frontend/app/api/mcp/route.ts:82-127 | POST always answers 500 'MCP module not yet implemented' with code INTERNAL_ERROR |
| MemoryService.SentMetadataFields | frontend/lib/services/memoryService.ts:73-78 | the metadata sent always has the caller's user_id; the caller's own keys override the context; the context appears only when non-empty and not overridden; no other key appears |
| MemoryService.SpreadLookups | frontend/lib/services/memoryService.ts:74-75 | in an object spread, spread keys take their spread values and other keys keep the target's |
| MemoryService.SpreadMissesKey | frontend/lib/services/memoryService.ts:75 | a key the spread does not carry keeps the target's value |
| MemoryService.Normalized | frontend/lib/services/memoryService.ts:88-96 | the memory handed back keeps the caller's content, user, context and metadata; its id is the reply's id, else its memory_id, else undefined; timestamps only when non-empty |
| MemoryService.FirstContent | frontend/lib/services/memoryService.ts:176-202 | the content of the first message with that role, or empty when there is none |
| MemoryService.ConversationMetadataFields | frontend/lib/services/memoryService.ts:184-215 | a conversation's metadata has unique keys, type 'conversation' whatever the caller passed, and no other new key |
| MemoryService.SpreadMissesKeys | frontend/lib/services/memoryService.ts:185-213 | keys the spread does not carry keep the target's values |
| MemoryService.ConversationPostIsConversation | frontend/lib/services/memoryService.ts:180-188 | the metadata sent for a conversation says type 'conversation' and carries the user id |
| MemoryService.ConversationPost | frontend/lib/services/memoryService.ts:179-216 | a conversation post holds 'User: ... Assistant: ...' and has type 'conversation' |
| MemoryService.FanOutPosts | frontend/lib/services/memoryService.ts:206-218 | a fan-out leaves at most one post per context |
| MemoryService.FanOutAllStored | frontend/lib/services/memoryService.ts:206-218 | when every write is stored, the fan-out leaves exactly one post per context, in list order |
| MemoryService.OnePerContextSnoc | frontend/lib/services/memoryService.ts:207 | one post per context of a list, plus the post for one more context, is one post per context of the longer list |
| MemoryService.WithContentConcat | frontend/lib/services/memoryService.ts:204 | posts with the same content joined still share it |
| MemoryService.FanOutSameContent | frontend/lib/services/memoryService.ts:204-216 | every post of a fan-out carries the same content, whichever writes were stored |
| MemoryService.FanOutPostsAreConversations | frontend/lib/services/memoryService.ts:212-215 | every post of a fan-out says type 'conversation' |
| MemoryService.ConversationsConcat | frontend/lib/services/memoryService.ts:212-215 | conversation posts joined are still conversation posts |
| MemoryService.FirstRejection | frontend/lib/services/memoryService.ts:206-218 | a fan-out fails iff some write was rejected |
| MemoryService.FirstRejectionIsFirst | frontend/lib/services/memoryService.ts:82-218 | the failure reported is 'Failed to add memory: ' with the status of the first rejected write, and every write before it was stored |
| MemoryService.TombstoneMetadata | frontend/lib/services/memoryService.ts:162 | a tombstone's metadata has unique keys, type 'tombstone' and the target id |
| MemoryService.TombstoneTarget | frontend/lib/services/memoryService.ts:158-163 | a post deletes at most one id, and none unless its type is 'tombstone' |
| MemoryService.TombstonePostTargets | frontend/lib/services/memoryService.ts:156-164 | the post a delete leaves deletes exactly the id asked for |
| MemoryService.Deleted | frontend/lib/services/memoryService.ts:156-164 | no more ids are deleted than there are posts |
| MemoryService.DeletedAppend | frontend/lib/services/memoryService.ts:156-164 | one more post deletes what it targets, after what was deleted before |
| MemoryService.NoTombstonesDeleteNothing | frontend/lib/services/memoryService.ts:65-97 | posts whose type is not 'tombstone' delete nothing |
| MemoryService.SearchBody | frontend/lib/services/memoryService.ts:41-46 | the search keeps the query, asks for 10 results unless a non-zero limit is given, and sends the context only when non-empty |
| MemoryService.SearchMemories | frontend/lib/services/memoryService.ts:31-60 | the results of the search, or none when the reply has none or the request failed |
| MemoryService.CoreRelationshipSearch | frontend/lib/services/memoryService.ts:224-232 | the core relationship search is limited to five results in the personal context |
| MemoryService.FromCloud | frontend/lib/services/memoryService.ts:119-127 | a listed memory's id is id else memory_id; its content is memory, else content, else empty; it gets the caller's user and context |
| MemoryService.GetAllMemories | frontend/lib/services/memoryService.ts:102-132 | one memory per listed result, in order, or none when the reply has none or the request failed |
| MemoryService.MemoryClient.constructor | frontend/lib/services/memoryService.ts:1-232 | the backend's history starts empty |
| MemoryService.MemoryClient.AddMemory | frontend/lib/services/memoryService.ts:65-97 | a stored write appends one post with the content and sent metadata and answers the normalised memory; a rejected one changes nothing and answers 'Failed to add memory: ' with the status |
| MemoryService.MemoryClient.UpdateMemory | frontend/lib/services/memoryService.ts:137-151 | an update appends a new post with the new content, replaces_id naming the old memory, the user id, and every other key of the caller's metadata (an object, so its keys are unique) with the caller's value and no key besides; it keeps the history before it and answers with the original id |
| MemoryService.MemoryClient.DeleteMemory | frontend/lib/services/memoryService.ts:156-164 | a delete appends a tombstone, so exactly the id asked for joins the deleted ids and nothing is removed |
| MemoryService.MemoryClient.AddConversation | frontend/lib/services/memoryService.ts:169-189 | one conversation post in the given context or 'personal' is appended, and it deletes nothing |
| MemoryService.MemoryClient.AddConversationToMultipleContexts | frontend/lib/services/memoryService.ts:194-219 | the history grows by the fan-out's posts and deletes nothing; the answer fails iff some write was rejected, with the first rejection's message |
| MemoryService.NoConversationDeletes | frontend/lib/services/memoryService.ts:206-218 | conversation posts delete nothing |
| MemoryUpload.CheckFile | frontend/app/api/memory/upload/route.ts:121-139 | a file passes iff it is present, at most 10 MiB and of a supported image or document type; each failure is a 400 validation error, 'No file provided' and 'File size exceeds 10MB limit' for the first two |
| MemoryUpload.SizeBoundary | frontend/app/api/memory/upload/route.ts:13-126 | a file of exactly 10 MiB is accepted and one byte more is refused |
| MemoryUpload.Sanitize | frontend/app/api/memory/upload/route.ts:176 | sanitising keeps the length and replaces each character outside letters, digits, '.' and '-' by '_' |
| MemoryUpload.SanitizeIdempotent | frontend/app/api/memory/upload/route.ts:176 | a sanitised name holds only safe characters and '_', and sanitising it again changes nothing |
| MemoryUpload.PathStaysInUserFolder | frontend/app/api/memory/upload/route.ts:175-177 | whatever the file is called, the stored object lies directly in 'memories/<user>/': no '/' follows that prefix |
| MemoryUpload.ExtractTextFromFile | frontend/app/api/memory/upload/route.ts:91-109 | plain text, markdown and CSV give the decoded text; PDF its placeholder; a type containing 'wordprocessingml' the Word placeholder; any other the generic one |
| MemoryUpload.LegacyWordIsGeneric | frontend/app/api/memory/upload/route.ts:21-108 | the old binary Word type is accepted but gets the generic placeholder |
| MemoryUpload.ImageParts | frontend/app/api/memory/upload/route.ts:55-66 | three lines for useful contacts and two for a useful visual context |
| MemoryUpload.ImageText | frontend/app/api/memory/upload/route.ts:55-70 | useful contacts give the contact heading, the contacts and a blank line, followed by the visual-context heading and the context when that is useful too; else a useful context gives its heading and the context; else the full text, else the placeholder |
| MemoryUpload.JoinTwo | frontend/app/api/memory/upload/route.ts:69 | joining two lines puts the separator between them |
| MemoryUpload.JoinThree | frontend/app/api/memory/upload/route.ts:69 | joining three lines puts the separator between each neighbouring pair |
| MemoryUpload.JoinFive | frontend/app/api/memory/upload/route.ts:69 | joining five lines puts the separator between each neighbouring pair |
| MemoryUpload.MemoryContent | frontend/app/api/memory/upload/route.ts:194-196 | the memory text ends with the attachment line and the extracted text, and starts with the description and a blank line exactly when there is a description |
| MemoryUpload.Post | frontend/app/api/memory/upload/route.ts:111-217 | the upload fails iff authentication or the file check fails, with the handled error; otherwise it reports the file, the context or 'personal', the storage path, the memory text, the image's analysis fields and text or its failure text, the document's extracted text, and as file URL the URL the storage upload returned, if any |
| Performance.KeepLast | performance_monitor.py:55-80 | trimming keeps the last n entries (all of them when there are no more than n), in order |
| Performance.KeepLastKeepsNewest | performance_monitor.py:47-56 | the entry just appended survives the trim as the last one |
| Performance.Bump | performance_monitor.py:103-105 | bumping adds at most one counter |
| Performance.BumpCounts | performance_monitor.py:96-105 | bumping keeps names unique, adds one to that type's count (from 0 when new), and leaves every other count alone |
| Performance.BumpInit | performance_monitor.py:103-105 | bumping a key found before the last counter leaves the last counter alone |
| Performance.BumpKeepsNames | performance_monitor.py:103-104 | a new error type is added once, so names stay unique |
| Performance.BumpAt | performance_monitor.py:105 | bumping a present key adds one to its count and changes no other count |
| Performance.BumpAtTotal | performance_monitor.py:105-116 | bumping a present key adds one to the total |
| Performance.CountOfMissing | performance_monitor.py:103-104 | an error type never recorded counts 0 |
| Performance.BumpTotal | performance_monitor.py:96-116 | each recorded error adds exactly one to the total |
| Performance.SuccessCount | performance_monitor.py:136-139 | an api's successful calls are no more than the stored calls |
| Performance.ApiBreakdown | performance_monitor.py:121-141 | the per-api breakdown exists iff some stored call succeeded, and every api with a successful call is listed with its count |
| Performance.SuccessCountAppend | performance_monitor.py:47-136 | storing a call changes only its api's count, and only if it succeeded |
| Performance.FailedCallsNotCounted | performance_monitor.py:122-136 | an api whose stored calls all failed has no successful calls counted |
| Performance.PerformanceMetrics.constructor | performance_monitor.py:31-36 | the buffers and counters start empty and within bounds |
| Performance.PerformanceMetrics.RecordApiCall | performance_monitor.py:38-58 | the call is appended and the buffer trimmed to its latest 1000; the newest entry is that call; nothing else changes |
| Performance.PerformanceMetrics.RecordEndpoint | performance_monitor.py:60-80 | the endpoint's list is created on first use, appended to and trimmed to its latest 100; no other endpoint's list changes |
| Performance.PerformanceMetrics.RecordError | performance_monitor.py:96-105 | that error type's count grows by one, every other count stays, and the total grows by one |
| Performance.PerformanceMetrics.GetStats | performance_monitor.py:107-153 | the stats report the number of stored calls, the error total and breakdown, exactly the apis with a successful call, each with its successful-call count, and each endpoint's call count iff any endpoint was recorded |
| Performance.BreakdownPositive | performance_monitor.py:133-141 | every api in the breakdown has at least one successful stored call |
| Performance.SuccessfulCallCounted | performance_monitor.py:133-139 | a stored successful call makes its api's count positive |
| Performance.TrackApiCall | performance_monitor.py:172-207 | one entry per invocation with the time between start and end, successful iff the function returned; its value or exception passes through unchanged |
| PyExceptions.Init | exceptions.py:9-13 | the status defaults to 500 and an absent or empty error code falls back to the class name |
| PyExceptions.NewValidationError | exceptions.py:16-19 | a validation error is 400 'VALIDATION_ERROR' with the message given |
| PyExceptions.NewServiceUnavailableError | exceptions.py:22-27 | 503 'SERVICE_UNAVAILABLE', keeping the service name, with "Service '<name>' is currently unavailable" when no message is given |
| PyExceptions.NewMemoryError | exceptions.py:30-34 | 500 'MEMORY_ERROR', keeping the optional operation |
| PyExceptions.NewExternalAPIError | exceptions.py:37-41 | 'EXTERNAL_API_ERROR' with the message prefixed by '[api] ', keeping the api name, 502 unless the caller gives a status |
| PyExceptions.NewAuthenticationError | exceptions.py:44-47 | 401 'AUTHENTICATION_ERROR' with 'Authentication required' by default |
| PyExceptions.SubclassCodesAreFixed | exceptions.py:16-47 | no subclass's error code is its class name: every subclass fixes its own code |
| Retry.Retry | frontend/lib/utils/retry.ts:22-35 | `fn` is called at least once and at most max(retries, 0) + 1 times, with one wait between consecutive calls |
| Retry.SettlesAsLastCall | frontend/lib/utils/retry.ts:28-34 | every call before the last was rejected, and the promise settles as the last call did: the first resolved value unchanged, or the last error |
| Retry.WaitsFollowBackoff | frontend/lib/utils/retry.ts:32-33 | the k-th wait lasts the delay multiplied k times by the backoff |
| Retry.WaitAtIsPower | frontend/lib/utils/retry.ts:33 | that wait is delay · backoff^k |
| Retry.AllRejected | frontend/lib/utils/retry.ts:10-31 | when every call is rejected, `fn` is called max(retries, 0) + 1 times and the last error is thrown |
| RetryUtils.TimeoutPreset | retry_utils.py:75-81 | the timeout preset starts at two seconds, keeps the retry count given, and retries exactly timeouts and connection errors |
| RetryUtils.ConnectionPreset | retry_utils.py:84-90 | the connection preset retries exactly connection errors |
| RetryUtils.DefaultsRetryRequestExceptions | retry_utils.py:15-21 | the default configuration retries exactly the request exceptions |
| RetryUtils.Run | retry_utils.py:37-69 | the function is called at most max_retries + 1 times, and not at all iff that range is empty; every call but the last is followed by one sleep, and the callback runs at most once per sleep |
| RetryUtils.RetryStep | retry_utils.py:43-56 | one retried attempt moves one call, one sleep of the current delay and one callback from the rest of the run to what is done |
| RetryUtils.RetryWithBackoff | retry_utils.py:34-72 | the wrapper's loop makes exactly the calls, sleeps and callbacks of the run and ends as it does |
| RetryUtils.EarlierCallsRetried | retry_utils.py:40-65 | every call before the last raised a retryable exception; the value returned or the exception re-raised is the last call's |
| RetryUtils.SleepSchedule | retry_utils.py:47-56 | the k-th sleep is the k-th capped backoff step; with a callback there is one call per sleep, with attempt number k + 1, that attempt's exception and that sleep's delay; without one there are none |
| RetryUtils.DelayCapped | retry_utils.py:56 | every delay after the first is at most max_delay |
| RetryUtils.AllFail | retry_utils.py:40-61 | when every attempt raises a retryable exception, the function is called max_retries + 1 times with max_retries sleeps, and the last exception is re-raised |
| Routing.DetectRoutingTier | jessica_core.py:190-219 | the result always names one of the four providers with tier 1 or 2; tier 2 exactly when a truthy directive names a known provider, which is then chosen; an unknown truthy directive falls back to the local tier-1 route |
| Routing.KeywordPrecedence | jessica_core.py:204-219 | without a directive, Grok is chosen iff a research keyword occurs in the lowercased message, Claude iff no research keyword but a reasoning keyword occurs, Gemini iff only a document keyword occurs, and the local default iff no keyword of any group occurs |
| Routing.EmptyMessageIsLocal | jessica_core.py:204-219 | the empty message without a directive is routed to the local model at tier 1 |
| Routing.ContextBlockBounds | jessica_core.py:531-547 | the memory context is empty exactly when both recall lists are empty, and is never longer than the header plus four lines of 200 truncated characters |
| Routing.NonTextSkipped | jessica_core.py:535-545 | recalled items that are not strings contribute nothing to the context |
| Routing.AppendLines | jessica_core.py:534-545 | each loop over recalled items appends exactly one context line per item, in order |
| Routing.BuildContextText | jessica_core.py:531-547 | the joined context parts equal the header and the lines of the first two local and first two cloud items, or nothing when both lists are empty |
| Routing.FullPrompt | jessica_core.py:548 | the local prompt is the master prompt, the context, the separator '\n\nUser: ', the user message and the assistant cue '\nJessica:', in that order |
| Routing.ValidateEnvironment | jessica_core.py:653-666 | the configuration is valid iff an Anthropic, xAI or Google key is set |
| Routing.Mem0AloneInsufficient | jessica_core.py:649-655 | a memory-service key alone never makes the configuration valid |
| Routing.Truncate | jessica_core.py:536 | a memory is cut to its first 200 characters, and a shorter one is kept whole |
| Sorting.Insert | frontend/components/features/tasks/TaskList.tsx:24-40 | inserting one element into a list adds exactly that element and keeps an ordered list ordered |
| Sorting.Sort | frontend/components/features/tasks/TaskList.tsx:24-40 | the array sort returns a permutation of its input ordered by the comparison |
| Sorting.ByKeyIsPreorder | frontend/app/api/tasks/route.ts:110-114 | comparing by an integer key is total and transitive, so the sort applies |
| Sorting.SortIsStable | frontend/components/features/tasks/TaskList.tsx:24-40 | the sort is stable: elements that compare equal to any given value appear in their input order |
| TokenStore.FirstMatch | frontend/app/api/auth/token/route.ts:53-164 | the first record matching user, provider and (when given) calendar type, or none exactly when no record matches |
| TokenStore.OnlyMatchForKey | frontend/app/api/auth/token/route.ts:49-117 | with unique keys, a record with a calendar type is the only one its per-calendar query finds |
| TokenStore.QueryType | frontend/app/api/auth/token/route.ts:50-224 | only a non-empty calendar type selects the per-calendar query |
| TokenStore.StoredExpiresAt | frontend/app/api/auth/token/route.ts:94-158 | the stored expiry is the one given when non-zero, else now plus the lifetime in milliseconds, else NaN |
| TokenStore.StoredExpiresIn | frontend/app/api/auth/token/route.ts:95-159 | the stored lifetime is the one given when non-zero, else 3600 |
| TokenStore.Written | frontend/app/api/auth/token/route.ts:88-165 | an updated record keeps its id, creation time and revocation; takes the user, provider, token, refresh token (null when empty), expiry and lifetime; the per-calendar path writes the calendar type and the calendar id and name when given, the legacy path leaves them |
| TokenStore.Created | frontend/app/api/auth/token/route.ts:113-170 | a new record is not revoked, created and updated now, holds the user, provider, calendar type, access token, refresh token and expiry of the body, and is matched by the query that missed it |
| TokenStore.Upsert | frontend/app/api/auth/token/route.ts:49-172 | when the query finds a record, that record is merged with the body and every other record is unchanged; otherwise the table is the old one with the new record appended; either way the query then finds the written record |
| TokenStore.StoredTokenIsServed | frontend/app/api/auth/token/route.ts:49-196 | a stored token is what the lookup for the same provider and calendar type then serves, with its refresh token and expiry, while it is not near expiry |
| TokenStore.UpsertKeepsWellFormed | frontend/app/api/auth/token/route.ts:49-172 | storing a token keeps (user, provider, calendar type) unique and every id distinct |
| TokenStore.RepostKeepsCount | frontend/app/api/auth/token/route.ts:107-117 | storing the same key twice adds at most one record |
| TokenStore.LegacyPostKeepsCalendarType | frontend/app/api/auth/token/route.ts:118-172 | a token stored without a calendar type updates the first record of the user and provider in place, keeping its calendar type and id, and changes no other record |
| TokenStore.RepostKeepsRevoked | frontend/app/api/auth/token/route.ts:88-110 | re-storing a token never clears the revoked flag of the record it updates |
| TokenStore.GetToken | frontend/app/api/auth/token/route.ts:222-264 | no token iff nothing matches; 'expired' iff the first match is within five minutes of expiry; otherwise the first match's token, refresh token, expiry and calendar type |
| TokenStore.Entry | frontend/app/api/auth/token/route.ts:202-213 | a listed calendar has the record's id and token, 'primary' and 'Primary Calendar' by default, and is active iff not revoked and not within five minutes of expiry |
| TokenStore.ListCalendars | frontend/app/api/auth/token/route.ts:198-220 | the k-th entry is the entry of the k-th record of the user and provider, in table order, so there is one entry per matching record and no other |
| TokenStore.ActiveCalendarIsServed | frontend/app/api/auth/token/route.ts:202-264 | a calendar the listing shows active is served by the lookup for its calendar type with the same token |
| TokenStore.BoundaryDisagreement | frontend/app/api/auth/token/route.ts:212-248 | exactly five minutes before expiry the lookup still serves the token while the listing shows it inactive |
| TokenStore.Revoke | frontend/app/api/auth/token/route.ts:283-318 | the first record for the query is marked revoked at now; nothing else changes and nothing is removed |
| TokenStore.FirstMatchIgnoresRevocation | frontend/app/api/auth/token/route.ts:236-245 | tables differing only in revocation fields give the same first match |
| TokenStore.RevokedTokenStillServed | frontend/app/api/auth/token/route.ts:236-317 | the lookup never reads the revoked flag, so a revoked token is still served |
| TokenStore.RevokeKeepsWellFormed | frontend/app/api/auth/token/route.ts:313-317 | revoking keeps every key and id, so the store stays well formed |
| TokenStore.Refreshed | frontend/lib/api/google-oauth.ts:55-60 | a refreshed record has the new token, expiry, lifetime and update time, and keeps its key, id, refresh token and revocation |
| TokenStore.WriteBackAsWritten | frontend/lib/api/google-oauth.ts:45-61 | as written, the refreshed token goes to the first (user, 'google') record whatever calendar type was looked up |
| TokenStore.CorrectedWriteBack | frontend/lib/api/google-oauth.ts:42-61 | corrected, the refreshed token goes to the first record for the query the lookup used, and nothing else changes |
| TokenStore.CorrectedWriteBackServesNewToken | frontend/lib/api/google-oauth.ts:81-116 | after the corrected write-back the lookup serves the new token when its lifetime exceeds the buffer |
| TokenStore.WriteBackAsWrittenMissesCalendar | frontend/lib/api/google-oauth.ts:45-94 | with records for two calendars, refreshing the second overwrites the first and leaves the second expired |
| TokenStore.WriteBackAsWrittenServesFirstRecord | frontend/lib/api/google-oauth.ts:45-116 | when the record the lookup read is the first (user, 'google') record, the write-back as written reaches it and the lookup then serves the new token |
| TokenStore.TokenTable.constructor | frontend/app/api/auth/token/route.ts:42 | the table starts empty and well formed |
| TokenStore.TokenTable.Post | frontend/app/api/auth/token/route.ts:17-181 | a bad user header or missing access token is answered with the handled error and writes nothing; otherwise the table becomes the upsert and 'Token stored securely' is answered |
| TokenStore.TokenTable.Get | frontend/app/api/auth/token/route.ts:188-268 | a bad user header is the handled error; otherwise the lookup's reply |
| TokenStore.TokenTable.List | frontend/app/api/auth/token/route.ts:188-220 | a bad user header is the handled error; otherwise the calendar listing |
| TokenStore.TokenTable.Delete | frontend/app/api/auth/token/route.ts:275-327 | a bad user header is the handled error; otherwise the table becomes the revocation, success is answered even when nothing matched, and the provider revocation is called iff a Google token with an access token matched |
| TokenStore.TokenTable.StoreRefreshed | frontend/lib/api/google-oauth.ts:45-61 | the table becomes the write-back as written, into the first (user, 'google') record, and stays well formed |
| TaskList.Filtered | frontend/components/features/tasks/TaskList.tsx:16-21 | with filter 'all' the list is unchanged; otherwise each task is kept, with its multiplicity, iff its priority equals the filter |
| TaskList.Weight | frontend/components/features/tasks/TaskList.tsx:31-33 | the priority weight is between 0 and 3, is 3 exactly for 'high', and is 0 exactly for priorities other than high, medium and low |
| TaskList.LexLeqTotal | frontend/components/features/tasks/TaskList.tsx:36 | any two titles are comparable |
| TaskList.LexLeqTransitive | frontend/components/features/tasks/TaskList.tsx:36 | the title order is transitive |
| TaskList.OrderIsPreorder | frontend/components/features/tasks/TaskList.tsx:25-39 | each of the three sort modes compares totally and transitively |
| TaskList.SortedAndFiltered | frontend/components/features/tasks/TaskList.tsx:15-43 | the view shows a permutation of the kept tasks, never more tasks than the input, ordered by the chosen mode |
| TaskList.SortByDateOrders | frontend/components/features/tasks/TaskList.tsx:26-29 | sorting by date puts earlier due times first, a missing due date counting as 0 |
| TaskList.SortByPriorityOrders | frontend/components/features/tasks/TaskList.tsx:30-34 | sorting by priority puts heavier priorities first |
| TaskList.SortByTitleOrders | frontend/components/features/tasks/TaskList.tsx:35-36 | sorting by title orders titles, a missing title counting as empty |
| TaskList.TiesKeepInputOrder | frontend/components/features/tasks/TaskList.tsx:24-40 | tasks that tie under the chosen order keep their order from the filtered list |
| TasksApi.Trunc | frontend/app/api/tasks/route.ts:39 | a time value is truncated toward zero: the integer is within one of the real, on the side of zero |
| TasksApi.TimeClip | frontend/app/api/tasks/route.ts:29-40 | a new Date is valid exactly for a finite time within the 8.64e15 ms range, and then holds the truncated time |
| TasksApi.ToIsoStringMaybe | frontend/app/api/tasks/route.ts:14-44 | null and undefined become null; strings, numbers, booleans and arrays pass through; a Date becomes its ISO string, and an invalid Date throws the RangeError; any other result is the value itself, null or a string |
| TasksApi.Serialized | frontend/app/api/tasks/route.ts:46-65 | the only failure of the normaliser is the invalid-time RangeError |
| TasksApi.SerializedItems | frontend/app/api/tasks/route.ts:51-53 | the array map keeps length and position, each element normalised on its own, and fails exactly when some element fails |
| TasksApi.SerializeToJson | frontend/app/api/tasks/route.ts:46-65 | the recursive normaliser with its loop over object entries computes exactly the specified JSON value or failure |
| TasksApi.SerializedFieldsKeys | frontend/app/api/tasks/route.ts:56-61 | the entry loop yields each key once, and exactly the keys already there or in the object |
| TasksApi.ObjectKeysPreserved | frontend/app/api/tasks/route.ts:55-61 | an object that is not date-like serialises to an object with exactly its own keys, each once |
| TasksApi.ArrayShapePreserved | frontend/app/api/tasks/route.ts:51-53 | an array serialises to an array of the same length whose elements are the serialised elements in order |
| TasksApi.SecondsBecomeDate | frontend/app/api/tasks/route.ts:37-40 | a plain object with a numeric seconds field becomes the ISO string of seconds times 1000 milliseconds, or throws when that time is out of range |
| TasksApi.PlainJsonUnchanged | frontend/app/api/tasks/route.ts:46-65 | the normaliser is the identity on JSON whose objects have distinct keys and no numeric seconds field |
| TasksApi.NoSecondsNotDateLike | frontend/app/api/tasks/route.ts:19-43 | an object without toDate, toMillis or a numeric seconds field is returned as it is |
| TasksApi.PlanQuery | frontend/app/api/tasks/route.ts:70-81 | without a truthy limit parameter the limit is 100; otherwise the request is accepted iff Number(limit) is finite, positive and at most 500, and then that is the limit; a refusal is the validation error; the query asks for open tasks only unless completed tasks were requested |
| TasksApi.SerializedSpreadUnique | frontend/app/api/tasks/route.ts:106 | whatever the normaliser returns, spreading it gives each key once |
| TasksApi.TaskOf | frontend/app/api/tasks/route.ts:102-108 | a task is the document id under 'id' unless the stored data has its own 'id', plus every other serialised field; it fails exactly when the data cannot be serialised |
| TasksApi.StoredIdWins | frontend/app/api/tasks/route.ts:104-107 | a stored string id overrides the document id |
| TasksApi.SerializedFieldsLookup | frontend/app/api/tasks/route.ts:58-60 | each key of the serialised object holds the serialised value of that key's entry |
| TasksApi.MapTasks | frontend/app/api/tasks/route.ts:101-108 | a successful mapping gives one task per document |
| TasksApi.MapTasksAt | frontend/app/api/tasks/route.ts:101-108 | a successful mapping holds each document's task at the document's position |
| TasksApi.MapTasksFails | frontend/app/api/tasks/route.ts:101-108 | the mapping fails exactly when some document's data cannot be serialised |
| TasksApi.ListTasks | frontend/app/api/tasks/route.ts:101-114 | the listed tasks are the mapped tasks, each once, ordered newest first by the parsed createdAt (0 when not a string); the listing fails exactly when some document cannot be serialised |
| TasksApi.SameTimeKeepsFetchOrder | frontend/app/api/tasks/route.ts:110-114 | tasks with the same creation time keep the order the database returned them in |
| TranscribeRoute.ProviderStatus | frontend/app/api/transcribe/route.ts:59-60 | the provider status is the error's own non-zero status, else its response's non-zero status, else a numeric code; a thrown value that is not an error object has none |
| TranscribeRoute.ClassifyError | frontend/app/api/transcribe/route.ts:52-77 | validation errors are handled as they are; otherwise status 401, then a 413 status or message, then status 429 become the matching Groq service errors, in that order, the size in megabytes when the error carries a non-zero one and 'unknown' otherwise; anything else is handled generically |
| TranscribeRoute.UnknownSizeReported | frontend/app/api/transcribe/route.ts:63-69 | a 413 from the provider that carries no size, or a size of 0, is a 502 whose message reports the size as 'unknown' |
| TranscribeRoute.ClassifiedStatuses | frontend/app/api/transcribe/route.ts:54-76 | validation errors keep their status code; every classified provider error is a 502 with code EXTERNAL_SERVICE_ERROR; an unclassified non-application error is a 500 |
| TranscribeRoute.Transcribe | frontend/app/api/transcribe/route.ts:16-50 | a missing file and a file over 25 MiB are 400 validation errors; otherwise the reply carries the text or the empty string and the language or null, and a thrown error is classified |
| TranscribeRoute.OversizeNeverTranscribed | frontend/app/api/transcribe/route.ts:29-39 | a file over the limit is refused with 400 whatever the provider would have answered |
| TranscribeRoute.SizeLimitInclusive | frontend/app/api/transcribe/route.ts:6-29 | a file of exactly 25 MiB is accepted |

## Left out

- Network and SDK calls: the Ollama, Claude, Grok and Gemini calls of the Python core, the Mem0 and local memory calls, googleapis, the Anthropic and Groq SDKs, the Google revoke request and the OAuth code exchange. Their replies are inputs, and they are not modelled code.
- Firestore failures other than those a route classifies. The collection is a sequence of records in query order, and auto-generated document ids are positions.
- Concurrency: the `Promise.all` fan-outs (memory contexts, Gmail message fetches), the Python daemon thread and the un-awaited memory writes of the Claude route. These are sequential, in list order, and a fan-out's first rejection is the one reported.
- The real clock, `time.sleep` and timers. Times are parameters: integer milliseconds in the frontend models, and real seconds in `Performance` and `RetryUtils`. Delays are recorded in a trace instead of waited for.
- Floating point: averages, minima, maxima and the success rate in `get_stats`, and `record_memory`, which reads psutil. Durations are reals that are only stored. A NaN limit or time is a non-finite number.
- Retry counts are integers. A fractional `retries` in the TypeScript `retry`, or a fractional `max_retries` in `retry_with_backoff`, is not modelled.
- Logging, console output and response headers.
- Opaque encodings and decoders are parameters: ISO-8601 formatting and `Date.parse`, `Number(text)`, base64 (OAuth state, Gmail part data), `TextDecoder`, `toFixed(2)`, the length of `JSON.stringify`, and SHA-256 memory ids.
- The vision analysis of uploaded images is an input; only the formatting of its result is modelled.
- Full regular-expression semantics. The capture groups of the calendar, Gmail and Docs intent patterns are inputs. The command parser's patterns, which use only literals, `\s+` and one `\w+`, are matched by a deterministic matcher on ASCII text.
- Lowercasing, `trim` and `\s` are ASCII-only: the whitespace is space and the characters 9 to 13. Unicode case folding and non-ASCII whitespace are not modelled. Neither are the separators \x1c to \x1f, which Python's `\s` matches in the command parser's patterns and JavaScript's `\s` and `trim` do not.
- `localeCompare` in the TaskList view is modelled as code-unit lexicographic order.
- The text of Jessica's base prompt is a parameter of `MasterPrompt`, and the master prompt the Python core loads from disk is a parameter of `Routing.FullPrompt`.
- JavaScript `null` and `undefined` are one absent value, except in the tasks normaliser, which tells them apart.
- Object properties are kept in insertion order. The JavaScript rule that integer-like keys come first is not modelled, and neither are inherited names such as `constructor` looked up in a plain-object map.
- A thrown `null` or `undefined` is not modelled; thrown values are errors or other values.
- `deleteCalendarEvent` is not modelled: it is a single API call with no logic of its own.
- `updateDocumentTitle`: the read and the `batchUpdate` call themselves are API calls. The request it sends is modelled by `GoogleDocs.UpdateDocumentTitle`, and the unused title argument by `GoogleDocs.UpdateIgnoresTitle`.
- `getMemoryClient` always throws and has no other behaviour, so it is not modelled.
- The `connectedAt` field of the calendar list is not modelled: it is a Firestore timestamp conversion.
- The Python `track_operation` context manager is not modelled: it only logs a duration. Neither is the `track_endpoint_performance` decorator, which samples memory and reads a status code from a Flask response before calling `record_endpoint`. `record_endpoint` itself is modelled.
- GoogleOAuth.GetGoogleScopes: an unknown service name that is a property of every JavaScript object (`constructor`, `toString`) is dropped, whereas the source would return that property.
- The catch block around each tool result in the Claude route (frontend/app/api/chat/claude/route.ts:182-195) is not modelled: nothing in its try block can throw.
- TasksApi.ListTasks: the order assumes `Date.parse` gives a number. A `createdAt` string that does not parse gives NaN, the comparator then answers NaN, and the order JavaScript's sort produces is implementation-defined. The parse is an integer oracle here, so that case is not covered.
- TaskList.SortedAndFiltered: the date order assumes `getTime` gives a number. An invalid due date gives NaN, which makes the comparator inconsistent, and the resulting order is implementation-defined and not covered.
- TaskList.SortByDateOrders: states the order only for due times that are numbers, not for an invalid date whose `getTime` is NaN.
- RetryUtils.RetryWithBackoff: `on_retry` is a flag. The callback is recorded in the trace but never runs, so an exception it raises, which would escape the wrapper before the sleep, is not modelled.
- TokenStore.StoredTokenIsServed: requires a non-empty provider. A POST stores an empty provider as given, but the GET reads an empty provider as 'google'.
- Reading the request body. Each route parses its body inside its `try`: `request.json()` in the extract-tasks, token, calendar-create and Claude chat routes, and `request.formData()` in the transcribe and memory-upload routes. A body that cannot be read (and, in the Claude route, a `null` JSON body, which fails on destructuring) makes `handleApiError` answer 500 INTERNAL_ERROR in every route. The models take the parsed fields as inputs, so that path is not modelled.
- Performance.PerformanceMetrics.constructor: builds a fresh, empty object. The Python class is a singleton: `__new__` hands back the one shared instance with the buffers and counters it has accumulated, and the module uses the shared `metrics`. Sharing one instance across constructions is not modelled; the model's methods act on whichever object they are given.
- Search results that are not objects, in the Claude route: every result is taken to be an object. A result that is a string or `null` makes the route's `'memory' in m` test throw a TypeError, which then ends in the route's 500; that case is not modelled.
- CalendarIntent.Tokens: its own contract states only that the names are non-empty and separator-free. That each name is a maximal run between separators is stated by `CalendarIntent.TokensSplitAtSep` and `CalendarIntent.TokensOfSepFree`.

## Findings

| source | as written | input that shows it | evidently intended | confidence | as-written member | corrected member |
|---|---|---|---|---|---|---|
| frontend/lib/api/google-oauth.ts:42-61 | after a refresh, the new access token is written to the first token record of the user for 'google', whatever calendar type the expired token was looked up by (lines 81-94) | a user with a 'p' calendar token stored before a 'w' calendar token, both expired; refreshing the 'w' token overwrites the 'p' record and leaves the 'w' record expired, so every later lookup refreshes again | the refreshed token is written to the record the lookup read, the first one for the same user, provider and calendar type | not executed | TokenStore.WriteBackAsWrittenMissesCalendar | TokenStore.CorrectedWriteBack |
| frontend/lib/api/google-gmail.ts:82-83 | a message is unread when its labels do not include 'READ' (also lines 162-163) | the labels ['INBOX', 'UNREAD'] after `markGmailMessageAsRead`, which removes 'UNREAD' (lines 224-230), are ['INBOX'], and the message still counts as unread; Gmail has no 'READ' label, so every message counts as unread | a message is unread when its labels include 'UNREAD' | not executed | GoogleGmail.UnreadAsWrittenSurvivesMarkRead | GoogleGmail.MarkReadClearsUnread |
