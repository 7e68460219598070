/** `GET /api/auth/google`: turns the `services` query parameter into the
    scopes to request and builds the parameters of the authorization request
    of section 4.1.1 of RFC 6749. The base64 encoding of the `state` JSON is a
    parameter (`encodeState`, applied to the calendar type or to nothing). */
module GoogleAuthRoute {
  import opened Common
  import opened JsValues
  import opened GoogleOAuth

  /** `s.split(c)` for a one-character separator. */
  function SplitOn(s: string, c: char): (r: seq<string>)
    ensures |r| >= 1
    ensures forall k | 0 <= k < |r| :: c !in r[k]
  {
    if s == [] then [""]
    else
      var rest := SplitOn(s[1..], c);
      if s[0] == c then [""] + rest
      else [[s[0]] + rest[0]] + rest[1..]
  }

  /** Joining the pieces with the separator gives back the text. */
  lemma {:induction false} SplitOnJoin(s: string, c: char)
    ensures Join(SplitOn(s, c), [c]) == s
  {
    if s != [] {
      var rest := SplitOn(s[1..], c);
      SplitOnJoin(s[1..], c);
      if s[0] == c {
        assert SplitOn(s, c) == [""] + rest;
        assert ([""] + rest)[1..] == rest;
        assert Join([""] + rest, [c]) == "" + [c] + Join(rest, [c]);
        assert s == [s[0]] + s[1..];
      } else {
        var r := SplitOn(s, c);
        assert r == [[s[0]] + rest[0]] + rest[1..];
        if |rest| == 1 {
          assert Join(rest, [c]) == rest[0];
          assert s == [s[0]] + s[1..];
        } else {
          assert r[1..] == rest[1..];
          assert Join(rest, [c]) == rest[0] + [c] + Join(rest[1..], [c]);
          assert s == [s[0]] + s[1..];
        }
      }
    }
  }

  /** The services to request: 'all' (the default) expands to the three
      services; anything else is split on ',' and each part trimmed. */
  function ParseServices(param: Option<string>): (r: seq<string>)
    ensures OrElse(param, "all") == "all" ==> r == AllServices
    ensures OrElse(param, "all") != "all" ==>
      |r| == |SplitOn(param.value, ',')| && forall k | 0 <= k < |r| :: r[k] == Trim(SplitOn(param.value, ',')[k])
  {
    var p := OrElse(param, "all");
    if p == "all" then AllServices
    else
      var parts := SplitOn(p, ',');
      seq(|parts|, k requires 0 <= k < |parts| => Trim(parts[k]))
  }

  const InvalidServices := "Invalid services specified. Use: calendar, gmail, docs, or all"

  datatype AuthReply = Redirect(params: seq<(string, string)>) | BadServices(status: int, error: string)

  const ParamNames: seq<string> := ["client_id", "redirect_uri", "response_type", "scope", "access_type", "prompt", "state"]

  /** The redirect to the consent screen, or a 400 when no requested service
      is known. */
  function AuthorizationRequest(services: Option<string>, calendarType: Option<string>, clientId: string,
                                redirectUri: string, encodeState: Option<string> -> string): (r: AuthReply)
    ensures var scopes := GetGoogleScopes(ParseServices(services));
      && (r.BadServices? <==> scopes == [])
      && (r.BadServices? ==> r.status == 400 && r.error == InvalidServices)
      && (r.Redirect? ==>
            && Keys(r.params) == ParamNames
            && Lookup(r.params, "client_id") == Some(clientId)
            && Lookup(r.params, "redirect_uri") == Some(redirectUri)
            && Lookup(r.params, "response_type") == Some("code")
            && Lookup(r.params, "scope") == Some(Join(scopes, " "))
            && Lookup(r.params, "access_type") == Some("offline")
            && Lookup(r.params, "prompt") == Some("consent")
            && Lookup(r.params, "state") == Some(encodeState(if Truthy(calendarType) then calendarType else None)))
  {
    var scopes := GetGoogleScopes(ParseServices(services));
    if scopes == [] then BadServices(400, InvalidServices)
    else
      var ps := AuthParams(clientId, redirectUri, Join(scopes, " "),
                           encodeState(if Truthy(calendarType) then calendarType else None));
      LookupUnique(ps, 0);
      LookupUnique(ps, 1);
      LookupUnique(ps, 2);
      LookupUnique(ps, 3);
      LookupUnique(ps, 4);
      LookupUnique(ps, 5);
      LookupUnique(ps, 6);
      Redirect(ps)
  }

  function AuthParams(clientId: string, redirectUri: string, scope: string, state: string): (r: seq<(string, string)>)
    ensures |r| == 7 && Keys(r) == ParamNames && UniqueKeys(r)
    ensures r[0].1 == clientId && r[1].1 == redirectUri && r[2].1 == "code" && r[3].1 == scope
    ensures r[4].1 == "offline" && r[5].1 == "consent" && r[6].1 == state
  {
    ParamNamesDistinct();
    [("client_id", clientId), ("redirect_uri", redirectUri), ("response_type", "code"),
     ("scope", scope), ("access_type", "offline"), ("prompt", "consent"), ("state", state)]
  }

  lemma ParamNamesDistinct()
    ensures forall i, j | 0 <= i < j < |ParamNames| :: ParamNames[i] != ParamNames[j]
  {
    var n := ParamNames;
    assert n[0][0] == 'c' && n[1][0] == 'r' && n[2][0] == 'r' && n[3][0] == 's';
    assert n[4][0] == 'a' && n[5][0] == 'p' && n[6][0] == 's';
    assert n[1][2] != n[2][2] && n[3][1] != n[6][1];
  }

  /** Without a `services` parameter the request asks for every scope. */
  lemma DefaultRequestsAllScopes(calendarType: Option<string>, clientId: string, redirectUri: string,
                                 encodeState: Option<string> -> string)
    ensures var r := AuthorizationRequest(None, calendarType, clientId, redirectUri, encodeState);
      r.Redirect? && Lookup(r.params, "scope") == Some(Join([CalendarScope, GmailScope, DocsScope], " "))
  {
    DefaultScopes();
  }

  /** A list naming no known service (after trimming) is refused. */
  lemma UnknownServicesRefused(services: string, calendarType: Option<string>, clientId: string, redirectUri: string,
                               encodeState: Option<string> -> string)
    requires services != "" && services != "all"
    requires forall k | 0 <= k < |SplitOn(services, ',')| :: ScopeOf(Trim(SplitOn(services, ',')[k])).None?
    ensures AuthorizationRequest(Some(services), calendarType, clientId, redirectUri, encodeState).BadServices?
  {
    var parsed := ParseServices(Some(services));
    assert forall k | 0 <= k < |parsed| :: ScopeOf(parsed[k]).None?;
  }
}
