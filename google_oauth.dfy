/** The Google OAuth helpers: scope selection for the consent screen, the
    refresh-token grant (section 6 of RFC 6749), and `getValidGoogleToken`,
    which serves a stored token or refreshes it when it is within five
    minutes of expiry. The token endpoint is an oracle: its reply is a
    parameter, and the number of grants issued is returned. */
module GoogleOAuth {
  import opened Common
  import opened JsValues
  import opened TokenStore

  const CalendarScope := "https://www.googleapis.com/auth/calendar"
  const GmailScope := "https://www.googleapis.com/auth/gmail.readonly"
  const DocsScope := "https://www.googleapis.com/auth/documents"

  /** The default service list. */
  const AllServices: seq<string> := ["calendar", "gmail", "docs"]

  /** `scopeMap[service] || ''`, with the empty string as `None`. */
  function ScopeOf(service: string): (r: Option<string>)
    ensures r.Some? <==> service == "calendar" || service == "gmail" || service == "docs"
    ensures r.Some? ==> r.value != ""
  {
    if service == "calendar" then Some(CalendarScope)
    else if service == "gmail" then Some(GmailScope)
    else if service == "docs" then Some(DocsScope)
    else None
  }

  /** `services.map(s => scopeMap[s] || '').filter(Boolean)` */
  function GetGoogleScopes(services: seq<string>): (r: seq<string>)
    ensures |r| <= |services|
    ensures forall x | x in r :: exists k | 0 <= k < |services| :: ScopeOf(services[k]) == Some(x)
    ensures forall k | 0 <= k < |services| && ScopeOf(services[k]).Some? :: ScopeOf(services[k]).value in r
    ensures r == [] <==> forall k | 0 <= k < |services| :: ScopeOf(services[k]).None?
  {
    if services == [] then []
    else
      var rest := GetGoogleScopes(services[1..]);
      assert forall k | 1 <= k < |services| :: services[k] == services[1..][k - 1];
      match ScopeOf(services[0])
      case Some(s) => [s] + rest
      case None => rest
  }

  /** The scopes keep the order of the services: the selection distributes
      over concatenation. */
  lemma {:induction false} ScopesKeepOrder(a: seq<string>, b: seq<string>)
    ensures GetGoogleScopes(a + b) == GetGoogleScopes(a) + GetGoogleScopes(b)
  {
    if a == [] {
      assert a + b == b;
    } else {
      assert (a + b)[1..] == a[1..] + b;
      ScopesKeepOrder(a[1..], b);
    }
  }

  /** The default selection asks for all three scopes, in order. */
  lemma DefaultScopes()
    ensures GetGoogleScopes(AllServices) == [CalendarScope, GmailScope, DocsScope]
  {
    var s := AllServices;
    assert s == ["calendar"] + (["gmail"] + ["docs"]);
    ScopesKeepOrder(["calendar"], ["gmail"] + ["docs"]);
    ScopesKeepOrder(["gmail"], ["docs"]);
  }

  // ---------------------------------------------------------------------------
  // Refresh-token grant

  /** The form body of the refresh request. */
  function RefreshGrantForm(clientId: string, clientSecret: string, refreshToken: string): (r: seq<(string, string)>)
    ensures Keys(r) == ["client_id", "client_secret", "refresh_token", "grant_type"]
    ensures Lookup(r, "grant_type") == Some("refresh_token")
    ensures Lookup(r, "refresh_token") == Some(refreshToken)
    ensures Lookup(r, "client_id") == Some(clientId) && Lookup(r, "client_secret") == Some(clientSecret)
  {
    var r := [("client_id", clientId), ("client_secret", clientSecret),
              ("refresh_token", refreshToken), ("grant_type", "refresh_token")];
    assert UniqueKeys(r);
    LookupUnique(r, 0);
    LookupUnique(r, 1);
    LookupUnique(r, 2);
    LookupUnique(r, 3);
    r
  }

  /** What the token endpoint answers: a new token and its lifetime in
      seconds, or a failure with its optional `error` field and status text. */
  datatype GrantReply = Granted(accessToken: string, expiresIn: int) | Refused(error: Option<string>, statusText: string)

  datatype GoogleTokenData = GoogleTokenData(accessToken: string, refreshToken: string, expiresAt: int, expiresIn: int)

  function RefusedMessage(error: Option<string>, statusText: string): string {
    "Token refresh failed: " + OrElse(error, statusText)
  }

  /** `refreshGoogleToken`: the new token is written back into the first
      (userId, 'google') record, whatever calendar type the caller looked up.
      The refresh token handed back is the one passed in. */
  method RefreshGoogleToken(table: TokenTable, userId: string, refreshToken: string,
                            reply: GrantReply, now: int)
    returns (r: Result<GoogleTokenData, string>)
    requires table.Valid()
    modifies table
    ensures table.Valid()
    ensures reply.Refused? ==> r == Err(RefusedMessage(reply.error, reply.statusText)) && table.records == old(table.records)
    ensures reply.Granted? ==>
      r == Ok(GoogleTokenData(reply.accessToken, refreshToken, now + reply.expiresIn * 1000, reply.expiresIn))
      && table.records == WriteBackAsWritten(old(table.records), userId, reply.accessToken, reply.expiresIn, now)
  {
    if reply.Refused? {
      r := Err(RefusedMessage(reply.error, reply.statusText));
      return;
    }
    var expiresAt := now + reply.expiresIn * 1000;
    table.StoreRefreshed(userId, reply.accessToken, reply.expiresIn, now);
    r := Ok(GoogleTokenData(reply.accessToken, refreshToken, expiresAt, reply.expiresIn));
  }

  // ---------------------------------------------------------------------------
  // getValidGoogleToken

  const NoTokenMessage := "No Google token found. Please authenticate first."
  const NoRefreshMessage := "Token expired and no refresh token available. Please re-authenticate."

  datatype Decision = UseStored(accessToken: string) | Refresh(refreshToken: string) | Reauthenticate

  /** The stored token is used unless it is within five minutes of expiry;
      then it is refreshed when a refresh token is stored. */
  function Decide(rec: TokenRecord, now: int): (d: Decision)
    ensures d.UseStored? <==> !Expired(rec.expiresAt, now)
    ensures d.UseStored? ==> d.accessToken == rec.accessToken
    ensures d.Refresh? <==> Expired(rec.expiresAt, now) && Truthy(rec.refreshToken)
    ensures d.Refresh? ==> d.refreshToken == rec.refreshToken.value
  {
    if !Expired(rec.expiresAt, now) then UseStored(rec.accessToken)
    else if Truthy(rec.refreshToken) then Refresh(rec.refreshToken.value)
    else Reauthenticate
  }

  /** A token without an expiry time is never refreshed. */
  lemma NoExpiryNeverRefreshed(rec: TokenRecord, now: int)
    requires !TruthyNum(rec.expiresAt)
    ensures Decide(rec, now) == UseStored(rec.accessToken)
  {
  }

  /** What `getValidGoogleToken` answers, how many refresh-token grants it
      makes, and the table afterwards. */
  datatype TokenOutcome = TokenOutcome(result: Result<string, string>, grants: nat, records: seq<TokenRecord>)

  /** The first (userId, 'google'[, calendarType]) record is served as it is
      unless it is within five minutes of expiry; then its refresh token is
      exchanged once and the new token written back. */
  function ValidToken(records: seq<TokenRecord>, userId: string, calendarType: Option<string>, now: int, reply: GrantReply): (o: TokenOutcome)
    ensures o.grants <= 1
    ensures var m := FirstMatch(records, userId, "google", QueryType(calendarType));
      && (m.None? ==> o == TokenOutcome(Err(NoTokenMessage), 0, records))
      && (m.Some? ==>
            && (o.grants == 1 <==> Expired(records[m.value].expiresAt, now) && Truthy(records[m.value].refreshToken))
            && (!Expired(records[m.value].expiresAt, now) ==> o.result == Ok(records[m.value].accessToken))
            && (Expired(records[m.value].expiresAt, now) && !Truthy(records[m.value].refreshToken) ==>
                  o.result == Err(NoRefreshMessage))
            && (o.grants == 1 && reply.Granted? ==> o.result == Ok(reply.accessToken)))
    ensures o.records != records ==> o.grants == 1 && reply.Granted?
    ensures o.grants == 1 && reply.Granted? ==>
      o.records == WriteBackAsWritten(records, userId, reply.accessToken, reply.expiresIn, now)
    ensures o.grants == 1 && reply.Refused? ==> o.result == Err(RefusedMessage(reply.error, reply.statusText))
  {
    match FirstMatch(records, userId, "google", QueryType(calendarType))
    case None => TokenOutcome(Err(NoTokenMessage), 0, records)
    case Some(i) =>
      match Decide(records[i], now)
      case UseStored(t) => TokenOutcome(Ok(t), 0, records)
      case Reauthenticate => TokenOutcome(Err(NoRefreshMessage), 0, records)
      case Refresh(_) =>
        match reply
        case Granted(t, e) => TokenOutcome(Ok(t), 1, WriteBackAsWritten(records, userId, t, e, now))
        case Refused(err, text) => TokenOutcome(Err(RefusedMessage(err, text)), 1, records)
  }

  /** Returns a usable access token for the user (and calendar type), making
      at most one refresh-token grant. */
  method GetValidGoogleToken(table: TokenTable, userId: string, calendarType: Option<string>, now: int, reply: GrantReply)
    returns (r: Result<string, string>, grants: nat)
    requires table.Valid()
    modifies table
    ensures table.Valid()
    ensures var o := ValidToken(old(table.records), userId, calendarType, now, reply);
      r == o.result && grants == o.grants && table.records == o.records
  {
    grants := 0;
    var m := FirstMatch(table.records, userId, "google", QueryType(calendarType));
    if m.None? {
      r := Err(NoTokenMessage);
      return;
    }
    var d := Decide(table.records[m.value], now);
    match d
    case UseStored(t) =>
      r := Ok(t);
    case Reauthenticate =>
      r := Err(NoRefreshMessage);
    case Refresh(rt) =>
      grants := 1;
      var refreshed := RefreshGoogleToken(table, userId, rt, reply, now);
      if refreshed.Ok? {
        r := Ok(refreshed.value.accessToken);
      } else {
        r := Err(refreshed.error);
      }
  }

  /** Once a refresh has been written back, and the record the lookup read
      is the first (userId, 'google') record, that record is served as it
      is: a second call within the new lifetime makes no grant. */
  lemma RefreshedTokenIsUsed(records: seq<TokenRecord>, userId: string, calendarType: Option<string>,
                             accessToken: string, expiresIn: int, now: int)
    requires FirstMatch(records, userId, "google", QueryType(calendarType)).Some?
    requires FirstMatch(records, userId, "google", QueryType(calendarType)) == FirstMatch(records, userId, "google", None)
    requires expiresIn * 1000 > ExpiryBuffer && now + expiresIn * 1000 != 0
    ensures var after := WriteBackAsWritten(records, userId, accessToken, expiresIn, now);
      var m := FirstMatch(after, userId, "google", QueryType(calendarType));
      m.Some? && Decide(after[m.value], now) == UseStored(accessToken)
  {
    WriteBackAsWrittenServesFirstRecord(records, userId, calendarType, accessToken, expiresIn, now);
  }

  /** After a successful refresh whose lifetime exceeds the buffer, of a
      record that is the first (userId, 'google') record, the next call at
      the same time serves the new token without a grant. */
  lemma SecondCallMakesNoGrant(records: seq<TokenRecord>, userId: string, calendarType: Option<string>, now: int,
                               accessToken: string, expiresIn: int, next: GrantReply)
    requires expiresIn * 1000 > ExpiryBuffer && now + expiresIn * 1000 != 0
    requires FirstMatch(records, userId, "google", QueryType(calendarType)) == FirstMatch(records, userId, "google", None)
    requires ValidToken(records, userId, calendarType, now, Granted(accessToken, expiresIn)).grants == 1
    ensures var first := ValidToken(records, userId, calendarType, now, Granted(accessToken, expiresIn));
      ValidToken(first.records, userId, calendarType, now, next) == TokenOutcome(Ok(accessToken), 0, first.records)
  {
    RefreshedTokenIsUsed(records, userId, calendarType, accessToken, expiresIn, now);
  }

  /** Without that condition a second call can make a second grant: the
      refresh went to another calendar's record, and the record the lookup
      reads is still expired. */
  lemma SecondCallMayGrantAgain()
    ensures var p := TokenRecord(0, "u", "google", Some("p"), "a", Some("x"), Some(1), 3600, None, None, 0, 0, false, None);
      var w := TokenRecord(1, "u", "google", Some("w"), "b", Some("y"), Some(1), 3600, None, None, 0, 0, false, None);
      var first := ValidToken([p, w], "u", Some("w"), 1000, Granted("c", 3600));
      && first.grants == 1
      && ValidToken(first.records, "u", Some("w"), 1000, Granted("d", 3600)).grants == 1
  {
    WriteBackAsWrittenMissesCalendar();
  }
}
