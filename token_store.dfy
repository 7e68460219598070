/** The `oauth_tokens` table behind `/api/auth/token` (store, look up, list
    calendars, revoke) and the write-back of a refreshed Google token. The
    Firestore collection is a sequence of records in query order: "the first
    match" is the first matching record of the sequence, and a new document is
    appended. The clock is the parameter `now` (milliseconds). */
module TokenStore {
  import opened Common
  import opened AppErrors
  import opened Auth

  /** Tokens count as expired five minutes before `expires_at`. */
  const ExpiryBuffer: int := 300000
  const DefaultExpiresIn: int := 3600

  /** One stored token. `expiresAt` is `None` when the stored number is NaN
      (`undefined * 1000`); `calendarType`, `calendarId` and `calendarName`
      are `None` when the document has no such field (or it is null). */
  datatype TokenRecord = TokenRecord(
    id: nat,
    userId: string,
    provider: string,
    calendarType: Option<string>,
    accessToken: string,
    refreshToken: Option<string>,
    expiresAt: Option<int>,
    expiresIn: int,
    calendarId: Option<string>,
    calendarName: Option<string>,
    createdAt: int,
    updatedAt: int,
    revoked: bool,
    revokedAt: Option<int>)

  /** The JSON body of `POST /api/auth/token`; `None` is an absent property. */
  datatype TokenBody = TokenBody(
    accessToken: Option<string>,
    refreshToken: Option<string>,
    expiresAt: Option<int>,
    expiresIn: Option<int>,
    provider: Option<string>,
    calendarType: Option<string>,
    calendarId: Option<string>,
    calendarName: Option<string>)

  /** JavaScript truthiness of an optional number: present and non-zero. */
  predicate TruthyNum(n: Option<int>) {
    n.Some? && n.value != 0
  }

  /** The `expires_at && now > expires_at - 300000` test. */
  predicate Expired(expiresAt: Option<int>, now: int) {
    TruthyNum(expiresAt) && now > expiresAt.value - ExpiryBuffer
  }

  // ---------------------------------------------------------------------------
  // Queries

  /** `where('userId','==',u), where('provider','==',p)` and, when a calendar
      type is given, `where('calendarType','==',c)`. */
  predicate Matches(rec: TokenRecord, userId: string, provider: string, calendarType: Option<string>) {
    rec.userId == userId && rec.provider == provider
    && (calendarType.None? || rec.calendarType == calendarType)
  }

  /** The index of the first record that matches the query. */
  function FirstMatch(records: seq<TokenRecord>, userId: string, provider: string, calendarType: Option<string>): (r: Option<nat>)
    ensures r.Some? ==> r.value < |records| && Matches(records[r.value], userId, provider, calendarType)
    ensures r.Some? ==> forall j | 0 <= j < r.value :: !Matches(records[j], userId, provider, calendarType)
    ensures r.None? <==> forall j | 0 <= j < |records| :: !Matches(records[j], userId, provider, calendarType)
    decreases |records|
  {
    if records == [] then None
    else if Matches(records[0], userId, provider, calendarType) then Some(0)
    else
      match FirstMatch(records[1..], userId, provider, calendarType)
      case None => None
      case Some(i) => Some(i + 1)
  }

  /** The composite key the store keeps unique. */
  function Key(rec: TokenRecord): (string, string, Option<string>) {
    (rec.userId, rec.provider, rec.calendarType)
  }

  /** No two records share a key, every id is distinct and below `nextId`. */
  predicate WellFormed(records: seq<TokenRecord>, nextId: nat) {
    (forall i | 0 <= i < |records| :: records[i].id < nextId)
    && (forall i, j | 0 <= i < j < |records| :: records[i].id != records[j].id)
    && (forall i, j | 0 <= i < j < |records| :: Key(records[i]) != Key(records[j]))
  }

  /** With unique keys, a record whose calendar type is set is the only
      record that the query for that calendar type matches. */
  lemma {:induction false} OnlyMatchForKey(records: seq<TokenRecord>, nextId: nat, i: nat)
    requires WellFormed(records, nextId)
    requires i < |records| && records[i].calendarType.Some?
    ensures FirstMatch(records, records[i].userId, records[i].provider, records[i].calendarType) == Some(i)
  {
    var rec := records[i];
    forall j | 0 <= j < |records| && j != i ensures !Matches(records[j], rec.userId, rec.provider, rec.calendarType) {
      if j < i {
        assert Key(records[j]) != Key(rec);
      } else {
        assert Key(rec) != Key(records[j]);
      }
    }
    assert Matches(rec, rec.userId, rec.provider, rec.calendarType);
  }

  // ---------------------------------------------------------------------------
  // POST: store a token

  /** `provider = 'google'`: the default applies only when the property is absent. */
  function Provider(b: TokenBody): string {
    if b.provider.Some? then b.provider.value else "google"
  }

  /** `calendarType || null`: only a non-empty calendar type selects the
      per-calendar path. */
  function QueryType(calendarType: Option<string>): (r: Option<string>)
    ensures r.Some? <==> Truthy(calendarType)
    ensures r.Some? ==> r == calendarType && r.value != ""
  {
    Present(calendarType)
  }

  /** `expires_at || Date.now() + expires_in * 1000`; NaN when neither is given. */
  function StoredExpiresAt(b: TokenBody, now: int): (r: Option<int>)
    ensures TruthyNum(b.expiresAt) ==> r == b.expiresAt
    ensures !TruthyNum(b.expiresAt) && b.expiresIn.Some? ==> r == Some(now + b.expiresIn.value * 1000)
    ensures !TruthyNum(b.expiresAt) && b.expiresIn.None? ==> r.None?
  {
    if TruthyNum(b.expiresAt) then b.expiresAt
    else if b.expiresIn.Some? then Some(now + b.expiresIn.value * 1000)
    else None
  }

  /** `expires_in || 3600` */
  function StoredExpiresIn(b: TokenBody): (r: int)
    ensures TruthyNum(b.expiresIn) ==> r == b.expiresIn.value
    ensures !TruthyNum(b.expiresIn) ==> r == DefaultExpiresIn
  {
    if TruthyNum(b.expiresIn) then b.expiresIn.value else DefaultExpiresIn
  }

  /** `updateDoc(ref, tokenData)`: a merge. The per-calendar path writes the
      calendar type and, when given, the calendar id and name; the legacy path
      leaves those fields as they were. Fields outside `tokenData`
      (`createdAt`, `revoked`, `revokedAt`, the id) are kept. */
  function Written(rec: TokenRecord, userId: string, b: TokenBody, now: int): (r: TokenRecord)
    requires Truthy(b.accessToken)
    ensures r.id == rec.id && r.createdAt == rec.createdAt
    ensures r.revoked == rec.revoked && r.revokedAt == rec.revokedAt
    ensures r.userId == userId && r.provider == Provider(b) && r.accessToken == b.accessToken.value
    ensures r.refreshToken == Present(b.refreshToken)
    ensures r.expiresAt == StoredExpiresAt(b, now) && r.expiresIn == StoredExpiresIn(b)
    ensures r.updatedAt == now
    ensures Truthy(b.calendarType) ==> r.calendarType == b.calendarType
    ensures !Truthy(b.calendarType) ==> r.calendarType == rec.calendarType
    ensures r.calendarId == (if Truthy(b.calendarType) && Truthy(b.calendarId) then b.calendarId else rec.calendarId)
    ensures r.calendarName == (if Truthy(b.calendarType) && Truthy(b.calendarName) then b.calendarName else rec.calendarName)
  {
    var perCalendar := Truthy(b.calendarType);
    rec.(userId := userId, provider := Provider(b),
         calendarType := if perCalendar then b.calendarType else rec.calendarType,
         accessToken := b.accessToken.value,
         refreshToken := Present(b.refreshToken),
         expiresAt := StoredExpiresAt(b, now),
         expiresIn := StoredExpiresIn(b),
         calendarId := if perCalendar && Truthy(b.calendarId) then b.calendarId else rec.calendarId,
         calendarName := if perCalendar && Truthy(b.calendarName) then b.calendarName else rec.calendarName,
         updatedAt := now)
  }

  /** `addDoc(ref, {...tokenData, createdAt})`: a new document with no
      calendar fields beyond what the body supplies and not revoked. */
  function Created(id: nat, userId: string, b: TokenBody, now: int): (r: TokenRecord)
    requires Truthy(b.accessToken)
    ensures r.id == id && r.createdAt == now && r.updatedAt == now && !r.revoked && r.revokedAt.None?
    ensures r.userId == userId && r.provider == Provider(b) && r.calendarType == QueryType(b.calendarType)
    ensures r.accessToken == b.accessToken.value && r.refreshToken == Present(b.refreshToken)
    ensures r.expiresAt == StoredExpiresAt(b, now) && r.expiresIn == StoredExpiresIn(b)
    ensures r.calendarId == (if Truthy(b.calendarType) then Present(b.calendarId) else None)
    ensures r.calendarName == (if Truthy(b.calendarType) then Present(b.calendarName) else None)
    ensures Matches(r, userId, Provider(b), QueryType(b.calendarType))
  {
    var blank := TokenRecord(id, userId, Provider(b), None, "", None, None, 0, None, None, now, now, false, None);
    Written(blank, userId, b, now)
  }

  /** A table that agrees with another before `i` and holds a match at `i`
      has its first match at `i` when the other had none before `i`. */
  lemma {:induction false} FirstMatchAfterUpdate(records: seq<TokenRecord>, r: seq<TokenRecord>, i: nat,
                                                 userId: string, provider: string, q: Option<string>)
    requires i < |r| && i < |records| && Matches(r[i], userId, provider, q)
    requires forall j | 0 <= j < i :: r[j] == records[j] && !Matches(records[j], userId, provider, q)
    ensures FirstMatch(r, userId, provider, q) == Some(i)
  {
    forall j | 0 <= j < i ensures !Matches(r[j], userId, provider, q) {
      assert r[j] == records[j];
    }
  }

  /** The table after a successful POST: the first record for the query is
      updated in place, or a new record is appended. */
  function Upsert(records: seq<TokenRecord>, nextId: nat, userId: string, b: TokenBody, now: int): (r: seq<TokenRecord>)
    requires Truthy(b.accessToken)
    ensures |records| <= |r| <= |records| + 1
    ensures forall i | 0 <= i < |records| :: r[i].id == records[i].id
    ensures var m := FirstMatch(records, userId, Provider(b), QueryType(b.calendarType));
      && (m.Some? ==>
            && |r| == |records|
            && r[m.value] == Written(records[m.value], userId, b, now)
            && (forall k | 0 <= k < |records| && k != m.value :: r[k] == records[k])
            && FirstMatch(r, userId, Provider(b), QueryType(b.calendarType)) == m)
      && (m.None? ==>
            && r == records + [Created(nextId, userId, b, now)]
            && FirstMatch(r, userId, Provider(b), QueryType(b.calendarType)) == Some(|records|))
  {
    var q := QueryType(b.calendarType);
    match FirstMatch(records, userId, Provider(b), q)
    case Some(i) =>
      var r := records[i := Written(records[i], userId, b, now)];
      assert Matches(r[i], userId, Provider(b), q);
      FirstMatchAfterUpdate(records, r, i, userId, Provider(b), q);
      r
    case None =>
      var r := records + [Created(nextId, userId, b, now)];
      assert Matches(r[|records|], userId, Provider(b), q);
      FirstMatchAfterUpdate(records + [r[|records|]], r, |records|, userId, Provider(b), q);
      r
  }

  /** A stored token is what the lookup with the same provider and calendar
      type then serves, while it is not within five minutes of expiry. An
      empty provider is the exception: the POST stores it as given, the GET
      reads it as 'google'. */
  lemma {:induction false} StoredTokenIsServed(records: seq<TokenRecord>, nextId: nat, userId: string, b: TokenBody, now: int, later: int)
    requires Truthy(b.accessToken) && !Expired(StoredExpiresAt(b, now), later)
    requires Provider(b) != ""
    ensures var reply := GetToken(Upsert(records, nextId, userId, b, now), userId, b.provider, b.calendarType, later);
      && reply.Token?
      && reply.accessToken == b.accessToken.value
      && reply.refreshToken == Present(b.refreshToken)
      && reply.expiresAt == StoredExpiresAt(b, now)
  {
    var r := Upsert(records, nextId, userId, b, now);
    assert OrElse(b.provider, "google") == Provider(b);
    var m := FirstMatch(r, userId, Provider(b), QueryType(b.calendarType));
    assert m.Some? && r[m.value].accessToken == b.accessToken.value;
  }

  /** Storing a token keeps the key of every record, so the composite key
      stays unique; a new record takes a fresh id. */
  lemma UpsertKeepsWellFormed(records: seq<TokenRecord>, nextId: nat, userId: string, b: TokenBody, now: int)
    requires Truthy(b.accessToken) && WellFormed(records, nextId)
    ensures WellFormed(Upsert(records, nextId, userId, b, now), nextId + 1)
  {
    var q := QueryType(b.calendarType);
    var r := Upsert(records, nextId, userId, b, now);
    match FirstMatch(records, userId, Provider(b), q)
    case Some(i) =>
      assert Key(r[i]) == Key(records[i]);
      forall k | 0 <= k < |r| ensures Key(r[k]) == Key(records[k]) {
      }
    case None =>
      var c := r[|records|];
      forall k | 0 <= k < |records| ensures Key(records[k]) != Key(c) {
        assert !Matches(records[k], userId, Provider(b), q);
      }
  }

  /** Storing a token for a key that already has a record does not grow the
      table: posting the same key twice leaves one record for it. */
  lemma {:induction false} RepostKeepsCount(records: seq<TokenRecord>, nextId: nat, userId: string, b: TokenBody, b2: TokenBody, now: int, later: int)
    requires Truthy(b.accessToken) && Truthy(b2.accessToken)
    requires Provider(b2) == Provider(b) && QueryType(b2.calendarType) == QueryType(b.calendarType)
    ensures var once := Upsert(records, nextId, userId, b, now);
      |Upsert(once, nextId + 1, userId, b2, later)| == |once| <= |records| + 1
  {
    var once := Upsert(records, nextId, userId, b, now);
    assert FirstMatch(once, userId, Provider(b2), QueryType(b2.calendarType)).Some?;
  }

  /** A token stored without a calendar type updates the first record of the
      user and provider and leaves its calendar type (and calendar id and
      name) as they were. */
  lemma LegacyPostKeepsCalendarType(records: seq<TokenRecord>, nextId: nat, userId: string, b: TokenBody, now: int, i: nat)
    requires Truthy(b.accessToken) && !Truthy(b.calendarType)
    requires FirstMatch(records, userId, Provider(b), None) == Some(i)
    ensures var r := Upsert(records, nextId, userId, b, now);
      |r| == |records| && r[i].calendarType == records[i].calendarType
      && r[i].calendarId == records[i].calendarId && r[i].accessToken == b.accessToken.value
      && forall k | 0 <= k < |records| && k != i :: r[k] == records[k]
  {
  }

  /** A re-stored token keeps the `revoked` flag of the record it updates:
      the merge never writes that field. */
  lemma RepostKeepsRevoked(records: seq<TokenRecord>, nextId: nat, userId: string, b: TokenBody, now: int, i: nat)
    requires Truthy(b.accessToken)
    requires FirstMatch(records, userId, Provider(b), QueryType(b.calendarType)) == Some(i)
    ensures Upsert(records, nextId, userId, b, now)[i].revoked == records[i].revoked
  {
  }

  // ---------------------------------------------------------------------------
  // GET: look up one token

  datatype TokenReply =
    | NoToken
    | ExpiredToken
    | Token(accessToken: string, refreshToken: Option<string>, expiresAt: Option<int>,
            calendarType: Option<string>, calendarId: string, calendarName: Option<string>)

  /** The first record for the query, unless it is within five minutes of
      expiry. The `revoked` flag is not consulted. */
  function GetToken(records: seq<TokenRecord>, userId: string, provider: Option<string>, calendarType: Option<string>, now: int): (r: TokenReply)
    ensures var m := FirstMatch(records, userId, OrElse(provider, "google"), QueryType(calendarType));
      && (r.NoToken? <==> m.None?)
      && (r.ExpiredToken? <==> m.Some? && Expired(records[m.value].expiresAt, now))
      && (r.Token? ==> m.Some? && r.accessToken == records[m.value].accessToken
                       && r.refreshToken == records[m.value].refreshToken
                       && r.expiresAt == records[m.value].expiresAt
                       && r.calendarType == Present(records[m.value].calendarType))
  {
    match FirstMatch(records, userId, OrElse(provider, "google"), QueryType(calendarType))
    case None => NoToken
    case Some(i) =>
      var rec := records[i];
      if Expired(rec.expiresAt, now) then ExpiredToken
      else Token(rec.accessToken, rec.refreshToken, rec.expiresAt, Present(rec.calendarType),
                 OrElse(rec.calendarId, "primary"), Present(rec.calendarName))
  }

  // ---------------------------------------------------------------------------
  // GET ?list=calendars

  datatype CalendarEntry = CalendarEntry(
    id: nat, calendarType: Option<string>, googleCalendarId: string, calendarName: string,
    accessToken: string, refreshToken: Option<string>, isActive: bool)

  /** `!revoked && (!expires_at || now < expires_at - 300000)` */
  predicate Active(rec: TokenRecord, now: int) {
    !rec.revoked && (!TruthyNum(rec.expiresAt) || now < rec.expiresAt.value - ExpiryBuffer)
  }

  function Entry(rec: TokenRecord, now: int): (e: CalendarEntry)
    ensures e.id == rec.id && e.accessToken == rec.accessToken
    ensures e.isActive <==> Active(rec, now)
    ensures e.googleCalendarId == OrElse(rec.calendarId, "primary")
    ensures e.calendarName == OrElse(rec.calendarName, "Primary Calendar")
  {
    CalendarEntry(rec.id, Present(rec.calendarType), OrElse(rec.calendarId, "primary"),
                  OrElse(rec.calendarName, "Primary Calendar"), rec.accessToken,
                  Present(rec.refreshToken), Active(rec, now))
  }

  /** The indices of the records from `from` on that the (userId, provider)
      query matches, in increasing order. */
  function MatchingIndices(records: seq<TokenRecord>, userId: string, provider: string, from: nat): (ix: seq<nat>)
    requires from <= |records|
    decreases |records| - from
    ensures forall j | 0 <= j < |ix| :: from <= ix[j] < |records|
    ensures forall j1, j2 | 0 <= j1 < j2 < |ix| :: ix[j1] < ix[j2]
    ensures forall k | from <= k < |records| :: k in ix <==> Matches(records[k], userId, provider, None)
  {
    if from == |records| then []
    else
      var rest := MatchingIndices(records, userId, provider, from + 1);
      if Matches(records[from], userId, provider, None) then [from] + rest else rest
  }

  function ListFrom(records: seq<TokenRecord>, userId: string, provider: string, now: int, from: nat): (r: seq<CalendarEntry>)
    requires from <= |records|
    decreases |records| - from
    ensures var ix := MatchingIndices(records, userId, provider, from);
      |r| == |ix| && forall j | 0 <= j < |ix| :: r[j] == Entry(records[ix[j]], now)
  {
    if from == |records| then []
    else
      var rest := ListFrom(records, userId, provider, now, from + 1);
      if Matches(records[from], userId, provider, None) then [Entry(records[from], now)] + rest else rest
  }

  /** One entry per record of the user and provider, in table order: the
      k-th entry is the k-th matching record's, so a record listed twice is
      a record stored twice. */
  function ListCalendars(records: seq<TokenRecord>, userId: string, provider: Option<string>, now: int): (r: seq<CalendarEntry>)
    ensures var ix := MatchingIndices(records, userId, OrElse(provider, "google"), 0);
      |r| == |ix| && forall j | 0 <= j < |ix| :: r[j] == Entry(records[ix[j]], now)
    ensures |r| <= |records|
  {
    var ix := MatchingIndices(records, userId, OrElse(provider, "google"), 0);
    IncreasingIndicesBound(ix, |records|);
    ListFrom(records, userId, OrElse(provider, "google"), now, 0)
  }

  /** Strictly increasing indices below `n` are at most `n` many. */
  lemma {:induction false} IncreasingIndicesBound(ix: seq<nat>, n: nat)
    requires forall j | 0 <= j < |ix| :: ix[j] < n
    requires forall j1, j2 | 0 <= j1 < j2 < |ix| :: ix[j1] < ix[j2]
    ensures |ix| <= n
    decreases |ix|
  {
    if ix != [] {
      var last := ix[|ix| - 1];
      var front := ix[..|ix| - 1];
      assert forall j | 0 <= j < |front| :: front[j] < last;
      IncreasingIndicesBound(front, last);
    }
  }

  /** A calendar that the listing shows as active is served by the lookup for
      its calendar type, with the same access token. */
  lemma ActiveCalendarIsServed(records: seq<TokenRecord>, nextId: nat, i: nat, now: int)
    requires WellFormed(records, nextId)
    requires i < |records| && records[i].provider != ""
    requires records[i].calendarType.Some? && records[i].calendarType.value != ""
    requires Entry(records[i], now).isActive
    ensures GetToken(records, records[i].userId, Some(records[i].provider), records[i].calendarType, now)
         == Token(records[i].accessToken, records[i].refreshToken, records[i].expiresAt,
                  Present(records[i].calendarType), OrElse(records[i].calendarId, "primary"), Present(records[i].calendarName))
  {
    OnlyMatchForKey(records, nextId, i);
  }

  /** The two expiry tests disagree at the boundary: exactly five minutes
      before `expires_at` the lookup still serves the token while the listing
      already shows it as inactive. */
  lemma BoundaryDisagreement(rec: TokenRecord, now: int)
    requires TruthyNum(rec.expiresAt) && now == rec.expiresAt.value - ExpiryBuffer
    ensures !Expired(rec.expiresAt, now) && !Active(rec, now)
  {
  }

  // ---------------------------------------------------------------------------
  // DELETE: soft revoke

  /** The first record for the query is marked revoked; nothing is removed. */
  function Revoke(records: seq<TokenRecord>, userId: string, provider: Option<string>, calendarType: Option<string>, now: int): (r: seq<TokenRecord>)
    ensures |r| == |records|
    ensures var m := FirstMatch(records, userId, OrElse(provider, "google"), QueryType(calendarType));
      && (m.None? ==> r == records)
      && (m.Some? ==> r == records[m.value := records[m.value].(revoked := true, revokedAt := Some(now))])
  {
    match FirstMatch(records, userId, OrElse(provider, "google"), QueryType(calendarType))
    case None => records
    case Some(i) => records[i := records[i].(revoked := true, revokedAt := Some(now))]
  }

  /** Two tables that differ only in revocation fields answer every query alike. */
  predicate SameButRevocation(a: seq<TokenRecord>, b: seq<TokenRecord>) {
    |a| == |b| && forall k | 0 <= k < |a| :: a[k] == b[k].(revoked := a[k].revoked, revokedAt := a[k].revokedAt)
  }

  lemma {:induction false} FirstMatchIgnoresRevocation(a: seq<TokenRecord>, b: seq<TokenRecord>, userId: string, provider: string, calendarType: Option<string>)
    requires SameButRevocation(a, b)
    ensures FirstMatch(a, userId, provider, calendarType) == FirstMatch(b, userId, provider, calendarType)
    decreases |a|
  {
    if a != [] {
      assert SameButRevocation(a[1..], b[1..]) by {
        forall k | 0 <= k < |a[1..]| ensures a[1..][k] == b[1..][k].(revoked := a[1..][k].revoked, revokedAt := a[1..][k].revokedAt) {
          assert a[1..][k] == a[k + 1] && b[1..][k] == b[k + 1];
        }
      }
      FirstMatchIgnoresRevocation(a[1..], b[1..], userId, provider, calendarType);
    }
  }

  /** Revoking a token does not stop the lookup from serving it: the GET path
      never reads the `revoked` flag. */
  lemma RevokedTokenStillServed(records: seq<TokenRecord>, userId: string, provider: Option<string>, calendarType: Option<string>, now: int,
                                u2: string, p2: Option<string>, c2: Option<string>, later: int)
    ensures GetToken(Revoke(records, userId, provider, calendarType, now), u2, p2, c2, later)
         == GetToken(records, u2, p2, c2, later)
  {
    var r := Revoke(records, userId, provider, calendarType, now);
    assert SameButRevocation(r, records);
    FirstMatchIgnoresRevocation(r, records, u2, OrElse(p2, "google"), QueryType(c2));
  }

  /** Revoking keeps every key, so the store stays well formed. */
  lemma RevokeKeepsWellFormed(records: seq<TokenRecord>, nextId: nat, userId: string, provider: Option<string>, calendarType: Option<string>, now: int)
    requires WellFormed(records, nextId)
    ensures WellFormed(Revoke(records, userId, provider, calendarType, now), nextId)
  {
    var r := Revoke(records, userId, provider, calendarType, now);
    assert forall k | 0 <= k < |r| :: Key(r[k]) == Key(records[k]) && r[k].id == records[k].id;
  }

  // ---------------------------------------------------------------------------
  // Refresh write-back

  /** A refreshed token written into record `i`. */
  function Refreshed(rec: TokenRecord, accessToken: string, expiresIn: int, now: int): (r: TokenRecord)
    ensures r.accessToken == accessToken && r.expiresAt == Some(now + expiresIn * 1000)
    ensures r.expiresIn == expiresIn && r.updatedAt == now
    ensures Key(r) == Key(rec) && r.id == rec.id && r.refreshToken == rec.refreshToken && r.revoked == rec.revoked
  {
    rec.(accessToken := accessToken, expiresAt := Some(now + expiresIn * 1000), expiresIn := expiresIn, updatedAt := now)
  }

  /** As written: the write-back queries only (userId, 'google') and updates
      the first such record, whatever calendar type was looked up. */
  function WriteBackAsWritten(records: seq<TokenRecord>, userId: string, accessToken: string, expiresIn: int, now: int): (r: seq<TokenRecord>)
    ensures |r| == |records|
    ensures var m := FirstMatch(records, userId, "google", None);
      && (m.None? ==> r == records)
      && (m.Some? ==> r == records[m.value := Refreshed(records[m.value], accessToken, expiresIn, now)])
  {
    match FirstMatch(records, userId, "google", None)
    case None => records
    case Some(i) => records[i := Refreshed(records[i], accessToken, expiresIn, now)]
  }

  /** Corrected: the refreshed token goes to the record the lookup read, the
      first one for (userId, 'google', calendarType). */
  function CorrectedWriteBack(records: seq<TokenRecord>, userId: string, calendarType: Option<string>, accessToken: string, expiresIn: int, now: int): (r: seq<TokenRecord>)
    ensures |r| == |records|
    ensures var m := FirstMatch(records, userId, "google", QueryType(calendarType));
      && (m.None? ==> r == records)
      && (m.Some? ==> r == records[m.value := Refreshed(records[m.value], accessToken, expiresIn, now)])
  {
    match FirstMatch(records, userId, "google", QueryType(calendarType))
    case None => records
    case Some(i) => records[i := Refreshed(records[i], accessToken, expiresIn, now)]
  }

  /** After the corrected write-back, the query that found the expired token
      finds the same record holding the new token, which is no longer expired
      when the new lifetime exceeds the five-minute buffer. */
  lemma CorrectedWriteBackServesNewToken(records: seq<TokenRecord>, userId: string, calendarType: Option<string>, accessToken: string, expiresIn: int, now: int)
    requires FirstMatch(records, userId, "google", QueryType(calendarType)).Some?
    requires expiresIn * 1000 > ExpiryBuffer && now + expiresIn * 1000 != 0
    ensures var r := CorrectedWriteBack(records, userId, calendarType, accessToken, expiresIn, now);
      GetToken(r, userId, Some("google"), calendarType, now).Token?
      && GetToken(r, userId, Some("google"), calendarType, now).accessToken == accessToken
  {
    var q := QueryType(calendarType);
    var i := FirstMatch(records, userId, "google", q).value;
    var r := CorrectedWriteBack(records, userId, calendarType, accessToken, expiresIn, now);
    assert Matches(r[i], userId, "google", q);
    forall j | 0 <= j < i ensures !Matches(r[j], userId, "google", q) {
      assert r[j] == records[j];
    }
    assert FirstMatch(r, userId, "google", q) == Some(i);
  }

  /** The write-back as written reaches the record the lookup read exactly
      when that record is also the first (userId, 'google') record; then the
      lookup serves the new token when its lifetime exceeds the buffer. */
  lemma WriteBackAsWrittenServesFirstRecord(records: seq<TokenRecord>, userId: string, calendarType: Option<string>,
                                            accessToken: string, expiresIn: int, now: int)
    requires FirstMatch(records, userId, "google", QueryType(calendarType)).Some?
    requires FirstMatch(records, userId, "google", QueryType(calendarType)) == FirstMatch(records, userId, "google", None)
    requires expiresIn * 1000 > ExpiryBuffer && now + expiresIn * 1000 != 0
    ensures var r := WriteBackAsWritten(records, userId, accessToken, expiresIn, now);
      && FirstMatch(r, userId, "google", QueryType(calendarType)) == FirstMatch(records, userId, "google", QueryType(calendarType))
      && GetToken(r, userId, Some("google"), calendarType, now).Token?
      && GetToken(r, userId, Some("google"), calendarType, now).accessToken == accessToken
  {
    var q := QueryType(calendarType);
    var i := FirstMatch(records, userId, "google", q).value;
    var r := WriteBackAsWritten(records, userId, accessToken, expiresIn, now);
    assert r[i] == Refreshed(records[i], accessToken, expiresIn, now);
    assert Matches(r[i], userId, "google", q);
    FirstMatchAfterUpdate(records, r, i, userId, "google", q);
  }

  /** A second calendar's token, read by the lookup, is not the one the
      write-back as written refreshes: with a "p" record stored before a "w"
      record, refreshing the "w" token overwrites the "p" record and leaves
      the "w" record expired. */
  lemma WriteBackAsWrittenMissesCalendar()
    ensures var p := TokenRecord(0, "u", "google", Some("p"), "a", Some("x"), Some(1), 3600, None, None, 0, 0, false, None);
      var w := TokenRecord(1, "u", "google", Some("w"), "b", Some("y"), Some(1), 3600, None, None, 0, 0, false, None);
      var records := [p, w];
      && FirstMatch(records, "u", "google", Some("w")) == Some(1)
      && GetToken(records, "u", Some("google"), Some("w"), 1000).ExpiredToken?
      && var after := WriteBackAsWritten(records, "u", "c", 3600, 1000);
      && after[1] == w
      && after[0].accessToken == "c"
      && GetToken(after, "u", Some("google"), Some("w"), 1000).ExpiredToken?
  {
    var p := TokenRecord(0, "u", "google", Some("p"), "a", Some("x"), Some(1), 3600, None, None, 0, 0, false, None);
    var w := TokenRecord(1, "u", "google", Some("w"), "b", Some("y"), Some(1), 3600, None, None, 0, 0, false, None);
    var records := [p, w];
    assert !Matches(p, "u", "google", Some("w"));
    assert FirstMatch(records, "u", "google", Some("w")) == Some(1);
    assert Matches(p, "u", "google", None);
    assert FirstMatch(records, "u", "google", None) == Some(0);
    var after := WriteBackAsWritten(records, "u", "c", 3600, 1000);
    assert after == [Refreshed(p, "c", 3600, 1000), w];
    assert !Matches(after[0], "u", "google", Some("w"));
    assert FirstMatch(after, "u", "google", Some("w")) == Some(1);
  }

  // ---------------------------------------------------------------------------
  // The table

  /** `POST`, `GET` and `DELETE /api/auth/token` over the stored records. */
  class TokenTable {
    var records: seq<TokenRecord>
    var nextId: nat

    ghost predicate Valid()
      reads this
    {
      WellFormed(records, nextId)
    }

    constructor ()
      ensures Valid() && records == [] && nextId == 0
    {
      records := [];
      nextId := 0;
    }

    /** Stores the token of the request body for the user of the `x-user-id`
        header. A bad header or a body without an access token is answered
        with the handled error and writes nothing. */
    method Post(header: Option<string>, b: TokenBody, now: int) returns (r: Result<string, ErrorResponse>)
      requires Valid()
      modifies this
      ensures Valid()
      ensures GetUserId(header).Err? ==> r == Err(HandleApiError(App(GetUserId(header).error))) && records == old(records)
      ensures GetUserId(header).Ok? && !Truthy(b.accessToken) ==>
        r == Err(ErrorResponse(400, "access_token is required", Some("VALIDATION_ERROR"))) && records == old(records)
      ensures GetUserId(header).Ok? && Truthy(b.accessToken) ==>
        r == Ok("Token stored securely")
        && records == Upsert(old(records), old(nextId), GetUserId(header).value, b, now)
      ensures |old(records)| <= |records| <= |old(records)| + 1
    {
      var user := GetUserId(header);
      if user.Err? {
        r := Err(HandleApiError(App(user.error)));
        return;
      }
      if !Truthy(b.accessToken) {
        r := Err(HandleApiError(App(NewValidationError("access_token is required"))));
        return;
      }
      UpsertKeepsWellFormed(records, nextId, user.value, b, now);
      records := Upsert(records, nextId, user.value, b, now);
      nextId := nextId + 1;
      r := Ok("Token stored securely");
    }

    /** `GET` without `list=calendars`. */
    method Get(header: Option<string>, provider: Option<string>, calendarType: Option<string>, now: int)
      returns (r: Result<TokenReply, ErrorResponse>)
      ensures GetUserId(header).Err? ==> r == Err(HandleApiError(App(GetUserId(header).error)))
      ensures GetUserId(header).Ok? ==> r == Ok(GetToken(records, GetUserId(header).value, provider, calendarType, now))
    {
      var user := GetUserId(header);
      if user.Err? {
        r := Err(HandleApiError(App(user.error)));
      } else {
        r := Ok(GetToken(records, user.value, provider, calendarType, now));
      }
    }

    /** `GET ?list=calendars`. */
    method List(header: Option<string>, provider: Option<string>, now: int)
      returns (r: Result<seq<CalendarEntry>, ErrorResponse>)
      ensures GetUserId(header).Err? ==> r == Err(HandleApiError(App(GetUserId(header).error)))
      ensures GetUserId(header).Ok? ==> r == Ok(ListCalendars(records, GetUserId(header).value, provider, now))
    {
      var user := GetUserId(header);
      if user.Err? {
        r := Err(HandleApiError(App(user.error)));
      } else {
        r := Ok(ListCalendars(records, user.value, provider, now));
      }
    }

    /** `DELETE`: revokes the first matching token and answers success even
        when nothing matched. `revokeCalled` says whether the provider's
        revocation endpoint is called (its failure is ignored). */
    method Delete(header: Option<string>, provider: Option<string>, calendarType: Option<string>, now: int)
      returns (r: Result<string, ErrorResponse>, revokeCalled: bool)
      requires Valid()
      modifies this
      ensures Valid() && |records| == |old(records)|
      ensures GetUserId(header).Err? ==> r == Err(HandleApiError(App(GetUserId(header).error))) && records == old(records) && !revokeCalled
      ensures GetUserId(header).Ok? ==>
        var m := FirstMatch(old(records), GetUserId(header).value, OrElse(provider, "google"), QueryType(calendarType));
        && r == Ok("Token revoked and deleted")
        && records == Revoke(old(records), GetUserId(header).value, provider, calendarType, now)
        && (revokeCalled <==> m.Some? && old(records)[m.value].accessToken != "" && OrElse(provider, "google") == "google")
    {
      var user := GetUserId(header);
      if user.Err? {
        r := Err(HandleApiError(App(user.error)));
        revokeCalled := false;
        return;
      }
      var m := FirstMatch(records, user.value, OrElse(provider, "google"), QueryType(calendarType));
      revokeCalled := m.Some? && records[m.value].accessToken != "" && OrElse(provider, "google") == "google";
      RevokeKeepsWellFormed(records, nextId, user.value, provider, calendarType, now);
      records := Revoke(records, user.value, provider, calendarType, now);
      r := Ok("Token revoked and deleted");
    }

    /** The refresh write-back of `refreshGoogleToken`, as written: the first
        (userId, 'google') record takes the new token. */
    method StoreRefreshed(userId: string, accessToken: string, expiresIn: int, now: int)
      requires Valid()
      modifies this
      ensures Valid() && nextId == old(nextId)
      ensures records == WriteBackAsWritten(old(records), userId, accessToken, expiresIn, now)
    {
      var r := WriteBackAsWritten(records, userId, accessToken, expiresIn, now);
      assert forall k | 0 <= k < |r| :: Key(r[k]) == Key(records[k]) && r[k].id == records[k].id;
      records := r;
    }
  }
}
