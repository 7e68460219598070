/** `POST /api/calendar/create`: resolves the access token and calendar id
    (from the body, from the stored token of a connected calendar type, and
    through `getValidGoogleToken`), inserts the event and classifies what was
    thrown. Whether the token store answered its query, the token endpoint's
    reply, the Calendar API's reply and the local time zone are inputs; the
    insert call the route makes is returned so that contracts can say which
    token and calendar it used. */
module CalendarCreateRoute {
  import opened Common
  import opened AppErrors
  import opened Auth
  import opened TokenStore
  import opened GoogleOAuth
  import opened GoogleCalendar

  datatype CreateBody = CreateBody(
    eventData: Option<EventRequest>,
    accessToken: Option<string>,
    calendarId: Option<string>,
    calendarType: Option<string>)

  /** The `events.insert` request: the token it authenticates with, the
      calendar and the event body. */
  datatype InsertCall = InsertCall(accessToken: string, calendarId: string, event: GoogleEvent)

  /** The Calendar API's answer: the created event, an empty reply, or what it threw. */
  datatype InsertReply = Inserted(data: GoogleEvent) | NoData | Threw(thrown: Thrown)

  /** The success body (besides `success: true` and the fixed message). */
  datatype Created = Created(event: CalendarEvent, calendarId: string, calendarType: Option<string>)

  /** The reply, the insert call made (if any), and the token table afterwards. */
  datatype CreateOutcome = CreateOutcome(result: Result<Created, ErrorResponse>, call: Option<InsertCall>, records: seq<TokenRecord>)

  const CreatedMessage := "Event created successfully in Google Calendar"
  const NoDataMessage := "Failed to create calendar event"
  const TokenRequired := "Access token is required. Please authenticate with Google."

  function NotConnected(calendarType: string): string {
    "Calendar type '" + calendarType + "' is not connected. Please connect it first."
  }

  function TokenExpired(calendarType: string): string {
    "Calendar token for '" + calendarType + "' has expired. Please reconnect your calendar."
  }

  function StoreFailed(calendarType: string): string {
    "Failed to get calendar token for type '" + calendarType + "'. Please reconnect your calendar."
  }

  function AuthFailure(message: string): Thrown {
    App(NewAuthenticationError(Some(message)))
  }

  /** The access token and calendar id before `getValidGoogleToken`: the
      body's, or, for a calendar type without a calendar id, those of the
      first stored token of that type, refused when none is stored, when it
      is within five minutes of expiry, or when the store fails. */
  function Resolve(records: seq<TokenRecord>, userId: string, body: CreateBody, now: int, storeUp: bool)
    : (r: Result<(Option<string>, string), Thrown>)
    ensures !(Truthy(body.calendarType) && !Truthy(body.calendarId)) ==>
      r == Ok((body.accessToken, OrElse(body.calendarId, "primary")))
    ensures Truthy(body.calendarType) && !Truthy(body.calendarId) ==>
      var ct := body.calendarType.value;
      var m := FirstMatch(records, userId, "google", body.calendarType);
      && (!storeUp ==> r == Err(AuthFailure(StoreFailed(ct))))
      && (storeUp && m.None? ==> r == Err(AuthFailure(NotConnected(ct))))
      && (storeUp && m.Some? && Expired(records[m.value].expiresAt, now) ==> r == Err(AuthFailure(TokenExpired(ct))))
      && (storeUp && m.Some? && !Expired(records[m.value].expiresAt, now) ==>
            r == Ok((Some(records[m.value].accessToken), OrElse(records[m.value].calendarId, "primary"))))
    ensures r.Err? ==> IsAuthenticationError(r.error)
  {
    if Truthy(body.calendarType) && !Truthy(body.calendarId) then
      var ct := body.calendarType.value;
      if !storeUp then Err(AuthFailure(StoreFailed(ct)))
      else
        match FirstMatch(records, userId, "google", body.calendarType)
        case None => Err(AuthFailure(NotConnected(ct)))
        case Some(i) =>
          if Expired(records[i].expiresAt, now) then Err(AuthFailure(TokenExpired(ct)))
          else Ok((Some(records[i].accessToken), OrElse(records[i].calendarId, "primary")))
    else
      Ok((body.accessToken, OrElse(body.calendarId, "primary")))
  }

  /** The token the insert uses: without a resolved token the one
      `getValidGoogleToken` returns (its failure is an authentication error);
      with one, the refreshed token when that call succeeds and the resolved
      token otherwise. */
  function ChooseToken(resolved: Option<string>, valid: Result<string, string>): (r: Result<string, Thrown>)
    ensures valid.Ok? ==> r == Ok(valid.value)
    ensures valid.Err? && Truthy(resolved) ==> r == Ok(resolved.value)
    ensures valid.Err? && !Truthy(resolved) ==> r == Err(AuthFailure(TokenRequired))
  {
    if !Truthy(resolved) then
      if valid.Ok? then Ok(valid.value) else Err(AuthFailure(TokenRequired))
    else
      if valid.Ok? then Ok(valid.value) else Ok(resolved.value)
  }

  /** The catch block: validation and authentication errors pass through;
      a message naming invalid credentials or insufficient permission is
      rewritten; anything else is handled generically. */
  function ClassifyError(t: Thrown): (r: ErrorResponse)
    ensures IsValidationError(t) || IsAuthenticationError(t) ==> r == HandleApiError(t)
    ensures !IsValidationError(t) && !IsAuthenticationError(t) && MessageContains(t, "Invalid Credentials") ==>
      r == ErrorResponse(401, "Authentication expired. Please reconnect your Google account.", Some("AUTHENTICATION_ERROR"))
    ensures (!IsValidationError(t) && !IsAuthenticationError(t) && !MessageContains(t, "Invalid Credentials")
             && MessageContains(t, "insufficient permission")) ==>
      r == HandleApiError(App(NewExternalServiceError("Google Calendar", "Insufficient permissions. Please grant calendar access.")))
    ensures (!IsValidationError(t) && !IsAuthenticationError(t) && !MessageContains(t, "Invalid Credentials")
             && !MessageContains(t, "insufficient permission")) ==> r == HandleApiError(t)
  {
    if IsValidationError(t) || IsAuthenticationError(t) then HandleApiError(t)
    else if MessageContains(t, "Invalid Credentials") then
      HandleApiError(AuthFailure("Authentication expired. Please reconnect your Google account."))
    else if MessageContains(t, "insufficient permission") then
      HandleApiError(App(NewExternalServiceError("Google Calendar", "Insufficient permissions. Please grant calendar access.")))
    else HandleApiError(t)
  }

  /** The insert and the shaping of its reply. */
  function Insert(call: InsertCall, req: EventRequest, calendarType: Option<string>, api: InsertReply): (r: Result<Created, ErrorResponse>)
    ensures api.Inserted? ==> r == Ok(Created(CreatedEvent(api.data, req, call.calendarId), call.calendarId, Present(calendarType)))
    ensures api.NoData? ==> r == Err(ErrorResponse(500, NoDataMessage, Some("INTERNAL_ERROR")))
    ensures api.Threw? ==> r == Err(ClassifyError(api.thrown))
  {
    match api
    case Inserted(data) => Ok(Created(CreatedEvent(data, req, call.calendarId), call.calendarId, Present(calendarType)))
    case NoData =>
      MissingCharNotContained(NoDataMessage, "Invalid Credentials", 'I');
      MissingCharNotContained(NoDataMessage, "insufficient permission", 'p');
      Err(ClassifyError(Plain(NoDataMessage, None, None, NoCode, None)))
    case Threw(t) => Err(ClassifyError(t))
  }

  /** Everything after authentication and the event checks. */
  function CreateFor(records: seq<TokenRecord>, userId: string, body: CreateBody, req: EventRequest, now: int,
                     storeUp: bool, reply: GrantReply, api: InsertReply, timeZone: string): (o: CreateOutcome)
    ensures Resolve(records, userId, body, now, storeUp).Err? ==>
      o == CreateOutcome(Err(HandleApiError(Resolve(records, userId, body, now, storeUp).error)), None, records)
    ensures Resolve(records, userId, body, now, storeUp).Ok? ==>
      var v := ValidToken(records, userId, Present(body.calendarType), now, reply);
      var calendarId := Resolve(records, userId, body, now, storeUp).value.1;
      var token := ChooseToken(Resolve(records, userId, body, now, storeUp).value.0, v.result);
      && o.records == v.records
      && (token.Err? ==> o.result == Err(HandleApiError(token.error)) && o.call.None?)
      && (token.Ok? ==> o.call == Some(InsertCall(token.value, calendarId, ToGoogleEvent(req, timeZone))))
    ensures o.call.Some? ==> o.result == Insert(o.call.value, req, body.calendarType, api)
  {
    match Resolve(records, userId, body, now, storeUp)
    case Err(t) => CreateOutcome(Err(ClassifyError(t)), None, records)
    case Ok((resolved, calendarId)) =>
      var v := ValidToken(records, userId, Present(body.calendarType), now, reply);
      match ChooseToken(resolved, v.result)
      case Err(t) => CreateOutcome(Err(ClassifyError(t)), None, v.records)
      case Ok(token) =>
        var call := InsertCall(token, calendarId, ToGoogleEvent(req, timeZone));
        CreateOutcome(Insert(call, req, body.calendarType, api), Some(call), v.records)
  }

  /** The whole route: `requireAuth`, the event checks, then `CreateFor`. */
  function Create(records: seq<TokenRecord>, header: Option<string>, body: CreateBody, now: int,
                  storeUp: bool, reply: GrantReply, api: InsertReply, timeZone: string): (o: CreateOutcome)
    ensures RequireAuth(header).Err? ==>
      o == CreateOutcome(Err(HandleApiError(App(RequireAuth(header).error))), None, records)
    ensures RequireAuth(header).Ok? && body.eventData.None? ==>
      o == CreateOutcome(Err(ErrorResponse(400, "Event data is required", Some("VALIDATION_ERROR"))), None, records)
    ensures RequireAuth(header).Ok? && body.eventData.Some? && !Truthy(body.eventData.value.title) ==>
      o == CreateOutcome(Err(ErrorResponse(400, "Event title is required", Some("VALIDATION_ERROR"))), None, records)
    ensures RequireAuth(header).Ok? && body.eventData.Some? && Truthy(body.eventData.value.title) ==>
      o == CreateFor(records, RequireAuth(header).value, body, body.eventData.value, now, storeUp, reply, api, timeZone)
    ensures o.result.Ok? ==> o.call.Some? && api.Inserted?
  {
    match RequireAuth(header)
    case Err(e) => CreateOutcome(Err(ClassifyError(App(e))), None, records)
    case Ok(userId) =>
      if body.eventData.None? then
        CreateOutcome(Err(ClassifyError(App(NewValidationError("Event data is required")))), None, records)
      else if !Truthy(body.eventData.value.title) then
        CreateOutcome(Err(ClassifyError(App(NewValidationError("Event title is required")))), None, records)
      else
        CreateFor(records, userId, body, body.eventData.value, now, storeUp, reply, api, timeZone)
  }

  /** `POST`, over the token table. */
  method CreateEvent(table: TokenTable, header: Option<string>, body: CreateBody, now: int,
                     storeUp: bool, reply: GrantReply, api: InsertReply, timeZone: string)
    returns (r: Result<Created, ErrorResponse>, call: Option<InsertCall>)
    requires table.Valid()
    modifies table
    ensures table.Valid()
    ensures var o := Create(old(table.records), header, body, now, storeUp, reply, api, timeZone);
      r == o.result && call == o.call && table.records == o.records
  {
    var user := RequireAuth(header);
    if user.Err? {
      r, call := Err(ClassifyError(App(user.error))), None;
      return;
    }
    if body.eventData.None? {
      r, call := Err(ClassifyError(App(NewValidationError("Event data is required")))), None;
      return;
    }
    var req := body.eventData.value;
    if !Truthy(req.title) {
      r, call := Err(ClassifyError(App(NewValidationError("Event title is required")))), None;
      return;
    }
    var resolved := Resolve(table.records, user.value, body, now, storeUp);
    if resolved.Err? {
      r, call := Err(ClassifyError(resolved.error)), None;
      return;
    }
    var valid, _ := GetValidGoogleToken(table, user.value, Present(body.calendarType), now, reply);
    var token := ChooseToken(resolved.value.0, valid);
    if token.Err? {
      r, call := Err(ClassifyError(token.error)), None;
      return;
    }
    var c := InsertCall(token.value, resolved.value.1, ToGoogleEvent(req, timeZone));
    r, call := Insert(c, req, body.calendarType, api), Some(c);
  }

  // ---------------------------------------------------------------------------
  // Properties

  /** A connected calendar type whose stored token is not near expiry is
      written to with that token and the stored calendar id, and the table
      is left as it was. */
  lemma ConnectedCalendarUsed(records: seq<TokenRecord>, nextId: nat, i: nat, header: Option<string>,
                              body: CreateBody, now: int, reply: GrantReply, api: InsertReply, timeZone: string)
    requires WellFormed(records, nextId) && i < |records|
    requires RequireAuth(header) == Ok(records[i].userId) && records[i].provider == "google"
    requires body.eventData.Some? && Truthy(body.eventData.value.title)
    requires Truthy(body.calendarType) && body.calendarType == records[i].calendarType && !Truthy(body.calendarId)
    requires !Expired(records[i].expiresAt, now)
    ensures var o := Create(records, header, body, now, true, reply, api, timeZone);
      && o.call == Some(InsertCall(records[i].accessToken, OrElse(records[i].calendarId, "primary"),
                                   ToGoogleEvent(body.eventData.value, timeZone)))
      && o.records == records
  {
    OnlyMatchForKey(records, nextId, i);
    assert QueryType(Present(body.calendarType)) == body.calendarType;
  }

  /** The route's own expiry check runs before `getValidGoogleToken`: a
      calendar type whose token is near expiry is refused even when a refresh
      token is stored, and nothing is refreshed or inserted. */
  lemma ExpiredCalendarNotRefreshed(records: seq<TokenRecord>, nextId: nat, i: nat, header: Option<string>,
                                    body: CreateBody, now: int, reply: GrantReply, api: InsertReply, timeZone: string)
    requires WellFormed(records, nextId) && i < |records|
    requires RequireAuth(header) == Ok(records[i].userId) && records[i].provider == "google"
    requires body.eventData.Some? && Truthy(body.eventData.value.title)
    requires Truthy(body.calendarType) && body.calendarType == records[i].calendarType && !Truthy(body.calendarId)
    requires Expired(records[i].expiresAt, now)
    ensures Create(records, header, body, now, true, reply, api, timeZone)
         == CreateOutcome(Err(ErrorResponse(401, TokenExpired(body.calendarType.value), Some("AUTHENTICATION_ERROR"))),
                          None, records)
  {
    OnlyMatchForKey(records, nextId, i);
  }

  /** A token in the body is used when `getValidGoogleToken` fails: the
      failure of the refresh is swallowed, not reported. */
  lemma ProvidedTokenSurvivesFailedRefresh(records: seq<TokenRecord>, userId: string, body: CreateBody, req: EventRequest,
                                           now: int, storeUp: bool, reply: GrantReply, api: InsertReply, timeZone: string)
    requires Truthy(body.accessToken) && !(Truthy(body.calendarType) && !Truthy(body.calendarId))
    requires ValidToken(records, userId, Present(body.calendarType), now, reply).result.Err?
    ensures var o := CreateFor(records, userId, body, req, now, storeUp, reply, api, timeZone);
      o.call == Some(InsertCall(body.accessToken.value, OrElse(body.calendarId, "primary"), ToGoogleEvent(req, timeZone)))
  {
  }

  /** Without any token in the body or the store, the request fails with
      401 and no event is inserted. */
  lemma NoTokenNoInsert(records: seq<TokenRecord>, userId: string, body: CreateBody, req: EventRequest,
                        now: int, storeUp: bool, reply: GrantReply, api: InsertReply, timeZone: string)
    requires !Truthy(body.accessToken) && !Truthy(body.calendarType)
    requires FirstMatch(records, userId, "google", None).None?
    ensures var o := CreateFor(records, userId, body, req, now, storeUp, reply, api, timeZone);
      o == CreateOutcome(Err(ErrorResponse(401, TokenRequired, Some("AUTHENTICATION_ERROR"))), None, records)
  {
  }
}
