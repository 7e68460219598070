/** The Google Calendar client's field mapping: the request body sent for a
    new event, the event handed back to the app for created, fetched, listed
    and updated events, the list-request defaults, and the merge of an update
    into the stored event. The API calls themselves are left out; their
    replies are inputs. The local time zone and the current time as an ISO
    string are parameters. `None` is an absent (undefined) property. */
module GoogleCalendar {
  import opened Common

  /** `EventCreateRequest` (also used, all fields optional, for updates). */
  datatype EventRequest = EventRequest(
    title: Option<string>,
    description: Option<string>,
    startTime: Option<string>,
    endTime: Option<string>,
    location: Option<string>,
    attendees: Option<seq<string>>)

  datatype EventTime = EventTime(dateTime: Option<string>, date: Option<string>, timeZone: Option<string>)

  datatype Attendee = Attendee(email: Option<string>)

  /** An event as the Calendar API represents it. */
  datatype GoogleEvent = GoogleEvent(
    id: Option<string>,
    summary: Option<string>,
    description: Option<string>,
    location: Option<string>,
    start: Option<EventTime>,
    end: Option<EventTime>,
    attendees: Option<seq<Attendee>>,
    htmlLink: Option<string>,
    iCalUID: Option<string>,
    status: Option<string>)

  /** The app's `CalendarEvent`. */
  datatype CalendarEvent = CalendarEvent(
    id: Option<string>,
    title: Option<string>,
    description: Option<string>,
    startTime: Option<string>,
    endTime: Option<string>,
    location: Option<string>,
    attendees: Option<seq<string>>,
    calendarId: string,
    calendarType: string,
    googleEventId: Option<string>,
    htmlLink: Option<string>,
    iCalUID: Option<string>,
    status: Option<string>)

  const UntitledEvent := "Untitled Event"

  // ---------------------------------------------------------------------------
  // Request body

  function Invitees(emails: seq<string>): (r: seq<Attendee>)
    ensures |r| == |emails|
    ensures forall k | 0 <= k < |r| :: r[k] == Attendee(Some(emails[k]))
  {
    seq(|emails|, k requires 0 <= k < |emails| => Attendee(Some(emails[k])))
  }

  /** The body of `events.insert`: title as summary, the times as
      `dateTime` in the local zone, one `{email}` per attendee. */
  function ToGoogleEvent(e: EventRequest, timeZone: string): (g: GoogleEvent)
    ensures g.summary == e.title && g.description == e.description && g.location == e.location
    ensures g.start == Some(EventTime(e.startTime, None, Some(timeZone)))
    ensures g.end == Some(EventTime(e.endTime, None, Some(timeZone)))
    ensures e.attendees.None? <==> g.attendees.None?
    ensures e.attendees.Some? ==> g.attendees == Some(Invitees(e.attendees.value))
    ensures g.id.None?
  {
    GoogleEvent(None, e.title, e.description, e.location,
                Some(EventTime(e.startTime, None, Some(timeZone))),
                Some(EventTime(e.endTime, None, Some(timeZone))),
                if e.attendees.Some? then Some(Invitees(e.attendees.value)) else None,
                None, None, None)
  }

  // ---------------------------------------------------------------------------
  // Replies

  /** `attendees.map(a => a.email || '').filter(Boolean)` */
  function AttendeeEmails(attendees: seq<Attendee>): (r: seq<string>)
    ensures |r| <= |attendees|
    ensures forall x | x in r :: x != ""
    ensures forall k | 0 <= k < |attendees| && Truthy(attendees[k].email) :: attendees[k].email.value in r
    ensures forall x | x in r :: exists k | 0 <= k < |attendees| :: attendees[k].email == Some(x)
  {
    if attendees == [] then []
    else
      var rest := AttendeeEmails(attendees[1..]);
      assert forall k | 1 <= k < |attendees| :: attendees[k] == attendees[1..][k - 1];
      if Truthy(attendees[0].email) then [attendees[0].email.value] + rest else rest
  }

  /** The addresses keep the attendees' order: the list of one attendee is
      its address when it has one, and the lists of two runs of attendees
      are concatenated. */
  lemma {:induction false} AttendeeEmailsAppend(a: seq<Attendee>, b: seq<Attendee>)
    ensures AttendeeEmails(a + b) == AttendeeEmails(a) + AttendeeEmails(b)
    decreases |a|
  {
    if a == [] {
      assert a + b == b;
    } else {
      assert (a + b)[1..] == a[1..] + b;
      AttendeeEmailsAppend(a[1..], b);
    }
  }

  lemma AttendeeEmailsOne(x: Attendee)
    ensures AttendeeEmails([x]) == (if Truthy(x.email) then [x.email.value] else [])
  {
    assert [x][1..] == [];
  }

  /** Inviting a list of addresses and reading the attendees back gives the
      list again when no address is empty. */
  lemma {:induction false} InviteesRoundTrip(emails: seq<string>)
    requires forall k | 0 <= k < |emails| :: emails[k] != ""
    ensures AttendeeEmails(Invitees(emails)) == emails
  {
    if emails != [] {
      InviteesRoundTrip(emails[1..]);
      assert Invitees(emails)[1..] == Invitees(emails[1..]);
    }
  }

  /** `t?.dateTime || t?.date || fallback` */
  function TimeOf(t: Option<EventTime>, fallback: Option<string>): (r: Option<string>)
    ensures t.Some? && Truthy(t.value.dateTime) ==> r == t.value.dateTime
    ensures t.Some? && !Truthy(t.value.dateTime) && Truthy(t.value.date) ==> r == t.value.date
    ensures (t.None? || (!Truthy(t.value.dateTime) && !Truthy(t.value.date))) ==> r == fallback
  {
    if t.Some? && Truthy(t.value.dateTime) then t.value.dateTime
    else if t.Some? && Truthy(t.value.date) then t.value.date
    else fallback
  }

  /** `x || y` for optional strings. */
  function Or(x: Option<string>, y: Option<string>): (r: Option<string>)
    ensures Truthy(x) ==> r == x
    ensures !Truthy(x) ==> r == y
  {
    if Truthy(x) then x else y
  }

  /** The event returned by `createCalendarEvent`: each field prefers the
      API's value and falls back to the request's. */
  function CreatedEvent(created: GoogleEvent, req: EventRequest, calendarId: string): (r: CalendarEvent)
    ensures r.calendarType == "google" && r.calendarId == calendarId
    ensures r.id == Present(created.id) && r.googleEventId == created.id
    ensures r.htmlLink == created.htmlLink && r.iCalUID == created.iCalUID && r.status.None?
    ensures r.title == Or(created.summary, req.title)
    ensures r.description == Or(created.description, req.description)
    ensures r.location == Or(created.location, req.location)
    ensures r.startTime == TimeOf(created.start, req.startTime)
    ensures r.endTime == TimeOf(created.end, req.endTime)
    ensures created.attendees.Some? ==> r.attendees == Some(AttendeeEmails(created.attendees.value))
    ensures created.attendees.None? ==> r.attendees == req.attendees
  {
    CalendarEvent(Present(created.id), Or(created.summary, req.title), Or(created.description, req.description),
                  TimeOf(created.start, req.startTime), TimeOf(created.end, req.endTime),
                  Or(created.location, req.location),
                  if created.attendees.Some? then Some(AttendeeEmails(created.attendees.value)) else req.attendees,
                  calendarId, "google", created.id, created.htmlLink, created.iCalUID, None)
  }

  /** A created event echoes the request when the API reply carries only an
      id: nothing the caller asked for is lost. */
  lemma CreatedEchoesRequest(id: string, req: EventRequest, calendarId: string)
    requires id != ""
    ensures var r := CreatedEvent(GoogleEvent(Some(id), None, None, None, None, None, None, None, None, None), req, calendarId);
      r.id == Some(id) && r.title == req.title && r.description == req.description
      && r.startTime == req.startTime && r.endTime == req.endTime && r.location == req.location
      && r.attendees == req.attendees
  {
  }

  /** An event read back from the API (`getCalendarEvent`, each list item):
      a missing summary becomes 'Untitled Event' and missing times the
      current time. */
  function FetchedEvent(item: GoogleEvent, calendarId: string, nowIso: string): (r: CalendarEvent)
    ensures r.title == Some(OrElse(item.summary, UntitledEvent)) && r.title.value != ""
    ensures r.startTime == TimeOf(item.start, Some(nowIso)) && r.endTime == TimeOf(item.end, Some(nowIso))
    ensures r.id == item.id && r.description == item.description && r.location == item.location
    ensures item.attendees.Some? ==> r.attendees == Some(AttendeeEmails(item.attendees.value))
    ensures item.attendees.None? ==> r.attendees.None?
    ensures r.calendarType == "google" && r.calendarId == calendarId
    ensures r.googleEventId == item.id && r.htmlLink == item.htmlLink && r.iCalUID == item.iCalUID
    ensures r.status == item.status
  {
    CalendarEvent(item.id, Some(OrElse(item.summary, UntitledEvent)), item.description,
                  TimeOf(item.start, Some(nowIso)), TimeOf(item.end, Some(nowIso)), item.location,
                  if item.attendees.Some? then Some(AttendeeEmails(item.attendees.value)) else None,
                  calendarId, "google", item.id, item.htmlLink, item.iCalUID, item.status)
  }

  /** `listCalendarEvents`: no items gives the empty list; otherwise one
      event per item, in order. */
  function ListedEvents(items: Option<seq<GoogleEvent>>, calendarId: string, nowIso: string): (r: seq<CalendarEvent>)
    ensures items.None? ==> r == []
    ensures items.Some? ==> |r| == |items.value|
    ensures items.Some? ==> forall k | 0 <= k < |r| :: r[k] == FetchedEvent(items.value[k], calendarId, nowIso)
    ensures forall k | 0 <= k < |r| :: r[k].title.Some? && r[k].title.value != "" && r[k].startTime.Some?
  {
    if items.None? then []
    else seq(|items.value|, k requires 0 <= k < |items.value| => FetchedEvent(items.value[k], calendarId, nowIso))
  }

  // ---------------------------------------------------------------------------
  // List request

  datatype ListParams = ListParams(timeMin: Option<string>, timeMax: Option<string>, maxResults: Option<int>,
                                   singleEvents: Option<bool>, orderBy: Option<string>)

  datatype ListRequest = ListRequest(calendarId: string, timeMin: string, timeMax: Option<string>, maxResults: int,
                                     singleEvents: bool, orderBy: string)

  /** The `events.list` parameters: from now on, 10 results, recurring events
      expanded unless `singleEvents` is `false`, ordered by start time. */
  function ListQuery(calendarId: string, p: ListParams, nowIso: string): (r: ListRequest)
    ensures r.calendarId == calendarId && r.timeMax == p.timeMax
    ensures r.timeMin == OrElse(p.timeMin, nowIso)
    ensures r.maxResults == (if p.maxResults.Some? && p.maxResults.value != 0 then p.maxResults.value else 10)
    ensures r.singleEvents <==> p.singleEvents != Some(false)
    ensures r.orderBy == OrElse(p.orderBy, "startTime")
  {
    ListRequest(calendarId, OrElse(p.timeMin, nowIso), p.timeMax,
                if p.maxResults.Some? && p.maxResults.value != 0 then p.maxResults.value else 10,
                p.singleEvents != Some(false), OrElse(p.orderBy, "startTime"))
  }

  // ---------------------------------------------------------------------------
  // Update

  /** The event sent by `updateCalendarEvent`: the stored event with the
      given changes. A title replaces the summary only when non-empty;
      description and location replace whenever given; a new start or end
      time replaces the whole time; attendees replace when given. */
  function MergeUpdate(existing: GoogleEvent, u: EventRequest, timeZone: string): (g: GoogleEvent)
    ensures g.id == existing.id && g.htmlLink == existing.htmlLink && g.iCalUID == existing.iCalUID
    ensures g.status == existing.status
    ensures g.summary == Or(u.title, existing.summary)
    ensures g.description == (if u.description.Some? then u.description else existing.description)
    ensures g.location == (if u.location.Some? then u.location else existing.location)
    ensures Truthy(u.startTime) ==> g.start == Some(EventTime(u.startTime, None, Some(timeZone)))
    ensures !Truthy(u.startTime) ==> g.start == existing.start
    ensures Truthy(u.endTime) ==> g.end == Some(EventTime(u.endTime, None, Some(timeZone)))
    ensures !Truthy(u.endTime) ==> g.end == existing.end
    ensures u.attendees.Some? ==> g.attendees == Some(Invitees(u.attendees.value))
    ensures u.attendees.None? ==> g.attendees == existing.attendees
  {
    existing.(summary := Or(u.title, existing.summary),
              description := if u.description.Some? then u.description else existing.description,
              location := if u.location.Some? then u.location else existing.location,
              start := if Truthy(u.startTime) then Some(EventTime(u.startTime, None, Some(timeZone))) else existing.start,
              end := if Truthy(u.endTime) then Some(EventTime(u.endTime, None, Some(timeZone))) else existing.end,
              attendees := if u.attendees.Some? then Some(Invitees(u.attendees.value)) else existing.attendees)
  }

  const NoChanges := EventRequest(None, None, None, None, None, None)

  /** An update with no fields sends the stored event unchanged. */
  lemma EmptyUpdateKeepsEvent(existing: GoogleEvent, timeZone: string)
    ensures MergeUpdate(existing, NoChanges, timeZone) == existing
  {
  }

  /** Applying the same update twice is the same as applying it once. */
  lemma UpdateIdempotent(existing: GoogleEvent, u: EventRequest, timeZone: string)
    ensures MergeUpdate(MergeUpdate(existing, u, timeZone), u, timeZone) == MergeUpdate(existing, u, timeZone)
  {
  }

  /** The event returned by `updateCalendarEvent`: as fetched, but the id
      falls back to the id that was updated. */
  function UpdatedEvent(updated: GoogleEvent, eventId: string, calendarId: string, nowIso: string): (r: CalendarEvent)
    ensures r.id == Or(updated.id, Some(eventId))
    ensures r.title == Some(OrElse(updated.summary, UntitledEvent))
    ensures r.startTime == TimeOf(updated.start, Some(nowIso)) && r.endTime == TimeOf(updated.end, Some(nowIso))
    ensures r.googleEventId == updated.id && r.status == updated.status
  {
    FetchedEvent(updated, calendarId, nowIso).(id := Or(updated.id, Some(eventId)))
  }

  // ---------------------------------------------------------------------------
  // Get and update, with their error paths

  const EventNotFound := "Event not found"
  const UpdateFailed := "Failed to update calendar event"

  /** `getCalendarEvent`: an empty reply is the 'Event not found' error. */
  function GetCalendarEvent(data: Option<GoogleEvent>, calendarId: string, nowIso: string): (r: Result<CalendarEvent, string>)
    ensures data.None? <==> r == Err(EventNotFound)
    ensures data.Some? ==> r.Ok? && r.value.id == data.value.id && r.value.calendarId == calendarId
    ensures r.Ok? ==> r.value.title.Some? && r.value.title.value != "" && r.value.startTime.Some?
  {
    if data.None? then Err(EventNotFound) else Ok(FetchedEvent(data.value, calendarId, nowIso))
  }

  /** What `updateCalendarEvent` sent (if anything) and what it returned. */
  datatype UpdateOutcome = UpdateOutcome(sent: Option<GoogleEvent>, result: Result<CalendarEvent, string>)

  /** `updateCalendarEvent`: the stored event is read first and nothing is
      sent when it is missing; otherwise the merged event is sent, and an
      empty reply to the update is an error. */
  function UpdateCalendarEvent(existing: Option<GoogleEvent>, updated: Option<GoogleEvent>, eventId: string,
                               u: EventRequest, calendarId: string, timeZone: string, nowIso: string): (o: UpdateOutcome)
    ensures existing.None? <==> o.sent.None?
    ensures existing.None? ==> o.result == Err(EventNotFound)
    ensures existing.Some? ==> o.sent == Some(MergeUpdate(existing.value, u, timeZone))
    ensures existing.Some? && updated.None? ==> o.result == Err(UpdateFailed)
    ensures existing.Some? && updated.Some? ==> o.result == Ok(UpdatedEvent(updated.value, eventId, calendarId, nowIso))
    ensures o.result.Ok? ==> o.result.value.id.Some? && (eventId != "" ==> o.result.value.id.value != "")
  {
    if existing.None? then UpdateOutcome(None, Err(EventNotFound))
    else
      var sent := MergeUpdate(existing.value, u, timeZone);
      if updated.None? then UpdateOutcome(Some(sent), Err(UpdateFailed))
      else UpdateOutcome(Some(sent), Ok(UpdatedEvent(updated.value, eventId, calendarId, nowIso)))
  }
}
