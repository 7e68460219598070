/** `detectCalendarIntent`: keyword classification of a chat message into a
    calendar create or list request, with the event fields pulled out of it.
    The six field regular expressions are not modelled: what each one
    captured (group 1, or nothing when it did not match) is an input. The
    title fallback and the attendee splitting are modelled exactly. */
module CalendarIntent {
  import opened Common

  const CreateKeywords: seq<string> :=
    ["schedule", "book", "create event", "add to calendar", "set up meeting", "plan", "appointment"]

  const ListKeywords: seq<string> :=
    ["show calendar", "what's on my calendar", "upcoming events", "list events", "calendar"]

  /** The split used to find the text after the action verb. */
  const VerbAlternatives: seq<string> := ["schedule", "book", "create", "add", "set up"]

  /** The split that cuts the title off before time, date or attendee words. */
  const TitleStops: seq<string> := ["at", "on", "when", "with", "for"]

  /** Group 1 of the title, time, date, location, attendee and notes patterns. */
  datatype Captures = Captures(
    title: Option<string>, time: Option<string>, date: Option<string>,
    location: Option<string>, attendees: Option<string>, notes: Option<string>)

  datatype EventData = EventData(
    title: Option<string>, startTime: Option<string>, location: Option<string>,
    attendees: Option<seq<string>>, description: Option<string>)

  datatype CalendarIntent =
    | NoIntent
    | Create(eventData: EventData, date: Option<string>, time: Option<string>, notes: Option<string>)
    | List

  /** `capture?.trim() || undefined` */
  function TrimmedField(c: Option<string>): (r: Option<string>)
    ensures r.Some? ==> c.Some? && r.value == Trim(c.value) && r.value != "" && Contains(c.value, r.value)
    ensures r.None? <==> c.None? || Trim(c.value) == ""
  {
    match c
    case None => None
    case Some(s) => NonEmpty(Trim(s))
  }

  // ---------------------------------------------------------------------------
  // Attendees: `split(/[,\s]+/).filter(Boolean)`

  predicate IsSep(c: char) { c == ',' || IsSpace(c) }

  function SepFree(s: string): bool {
    forall k | 0 <= k < |s| :: !IsSep(s[k])
  }

  /** The end of the run of non-separators starting at `i`. */
  function TokenEnd(s: string, i: nat): (j: nat)
    requires i <= |s|
    decreases |s| - i
    ensures i <= j <= |s|
    ensures SepFree(s[i..j])
    ensures j == |s| || IsSep(s[j])
  {
    if i < |s| && !IsSep(s[i]) then
      var j := TokenEnd(s, i + 1);
      assert s[i..j] == [s[i]] + s[i + 1..j];
      j
    else i
  }

  function Tokens(s: string): (r: seq<string>)
    decreases |s|
    ensures forall k | 0 <= k < |r| :: r[k] != "" && SepFree(r[k])
  {
    if s == [] then []
    else if IsSep(s[0]) then Tokens(s[1..])
    else
      var j := TokenEnd(s, 0);
      [s[..j]] + Tokens(s[j..])
  }

  function Concat(ts: seq<string>): string {
    if ts == [] then "" else ts[0] + Concat(ts[1..])
  }

  function DropSeps(s: string): (r: string)
    ensures SepFree(r)
  {
    if s == [] then ""
    else if IsSep(s[0]) then DropSeps(s[1..])
    else
      var r := DropSeps(s[1..]);
      assert forall k | 1 <= k < |[s[0]] + r| :: ([s[0]] + r)[k] == r[k - 1];
      [s[0]] + r
  }

  lemma {:induction false} DropSepsAppend(a: string, b: string)
    ensures DropSeps(a + b) == DropSeps(a) + DropSeps(b)
    decreases |a|
  {
    if a != [] {
      assert (a + b)[1..] == a[1..] + b;
      DropSepsAppend(a[1..], b);
    } else {
      assert a + b == b;
    }
  }

  lemma {:induction false} DropSepsOfSepFree(a: string)
    requires SepFree(a)
    ensures DropSeps(a) == a
    decreases |a|
  {
    if a != [] {
      DropSepsOfSepFree(a[1..]);
      assert a == [a[0]] + a[1..];
    }
  }

  /** A separator-free name is one token. */
  lemma {:induction false} TokensOfSepFree(a: string)
    requires a != "" && SepFree(a)
    ensures Tokens(a) == [a]
  {
    var j := TokenEnd(a, 0);
    assert !IsSep(a[0]);
    assert j == |a|;
    assert a[..j] == a && a[j..] == [];
    assert Tokens(a) == [a[..j]] + Tokens(a[j..]);
  }

  lemma {:induction false} TokenEndStopsAtSep(a: string, c: char, b: string, i: nat)
    requires IsSep(c) && i <= |a|
    ensures TokenEnd(a + [c] + b, i) == TokenEnd(a, i)
    decreases |a| - i
  {
    var s := a + [c] + b;
    if i < |a| && !IsSep(a[i]) {
      assert s[i] == a[i];
      TokenEndStopsAtSep(a, c, b, i + 1);
    } else if i == |a| {
      assert s[i] == c;
    } else {
      assert s[i] == a[i];
    }
  }

  /** A separator cuts the text in two and the tokens on either side are
      unaffected: with `TokensOfSepFree`, every token is a maximal run of
      non-separator characters, so "ab cd" gives ["ab", "cd"] and nothing else. */
  lemma {:induction false} TokensSplitAtSep(a: string, c: char, b: string)
    requires IsSep(c)
    ensures Tokens(a + [c] + b) == Tokens(a) + Tokens(b)
    decreases |a|
  {
    var s := a + [c] + b;
    if a == [] {
      assert s == [c] + b;
      assert s[1..] == b;
    } else if IsSep(a[0]) {
      assert s[0] == a[0];
      assert s[1..] == a[1..] + [c] + b;
      TokensSplitAtSep(a[1..], c, b);
    } else {
      assert s[0] == a[0];
      var j := TokenEnd(a, 0);
      TokenEndStopsAtSep(a, c, b, 0);
      assert j >= 1;
      assert s[..j] == a[..j];
      assert s[j..] == a[j..] + [c] + b;
      TokensSplitAtSep(a[j..], c, b);
    }
  }

  /** The attendee list holds exactly the non-separator characters, in order. */
  lemma {:induction false} TokensKeepText(s: string)
    ensures Concat(Tokens(s)) == DropSeps(s)
    decreases |s|
  {
    if s != [] {
      if IsSep(s[0]) {
        TokensKeepText(s[1..]);
      } else {
        var j := TokenEnd(s, 0);
        TokensKeepText(s[j..]);
        assert s == s[..j] + s[j..];
        DropSepsAppend(s[..j], s[j..]);
        DropSepsOfSepFree(s[..j]);
        assert Tokens(s)[1..] == Tokens(s[j..]);
      }
    }
  }

  // ---------------------------------------------------------------------------
  // Title

  lemma AlternativesNonEmpty()
    ensures AllNonEmpty(VerbAlternatives) && AllNonEmpty(TitleStops)
  {
    forall a | a in VerbAlternatives ensures a != "" {
    }
    forall a | a in TitleStops ensures a != "" {
    }
  }

  /** The title taken from the message when the title pattern gives nothing:
      the text after the first action verb, cut before the first stop word. */
  function FallbackTitle(message: string): Option<string> {
    AlternativesNonEmpty();
    match Piece(message, VerbAlternatives, 1)
    case Some(before) =>
      if before != "" then Some(Trim(Split(before, TitleStops)[0])) else None
    case None => None
  }

  /** `title || undefined`, where the title is the trimmed capture or else the fallback. */
  function Title(message: string, c: Captures): (r: Option<string>)
    ensures r.Some? ==> r.value != ""
    ensures TrimmedField(c.title).Some? ==> r == Some(Trim(c.title.value))
    ensures TrimmedField(c.title).None? && FallbackTitle(message).Some? ==> r == NonEmpty(FallbackTitle(message).value)
    ensures TrimmedField(c.title).None? && FallbackTitle(message).None? ==> r.None?
  {
    var t := TrimmedField(c.title);
    if t.Some? then t
    else match FallbackTitle(message)
      case Some(f) => NonEmpty(f)
      case None => None
  }

  /** A title taken from the message never contains a stop word, in any case. */
  lemma FallbackTitleHasNoStopWord(message: string)
    requires FallbackTitle(message).Some?
    ensures !ContainsAny(Lower(FallbackTitle(message).value), TitleStops)
  {
    AlternativesNonEmpty();
    var before := Piece(message, VerbAlternatives, 1).value;
    FirstPieceClean(before, TitleStops);
    TrimClean(Split(before, TitleStops)[0], TitleStops);
  }

  /** The fallback needs an action verb in the message. */
  lemma FallbackTitleNeedsVerb(message: string)
    requires FallbackTitle(message).Some?
    ensures AllNonEmpty(VerbAlternatives) && Leftmost(Lower(message), VerbAlternatives, 0).Some?
  {
    AlternativesNonEmpty();
    SecondPieceIffMatch(message, VerbAlternatives);
  }

  /** A title exists only when the title pattern captured non-blank text or
      the message holds an action verb; a title from the message holds no
      stop word. */
  lemma {:induction false} TitleSource(message: string, c: Captures)
    requires Title(message, c).Some? && TrimmedField(c.title).None?
    ensures AllNonEmpty(VerbAlternatives) && Leftmost(Lower(message), VerbAlternatives, 0).Some?
    ensures !ContainsAny(Lower(Title(message, c).value), TitleStops)
  {
    FallbackTitleNeedsVerb(message);
    FallbackTitleHasNoStopWord(message);
  }

  // ---------------------------------------------------------------------------
  // detectCalendarIntent

  function DetectCalendarIntent(message: string, c: Captures): (r: CalendarIntent)
    ensures r.Create? <==> ContainsAny(Lower(message), CreateKeywords)
    ensures r.List? <==> !ContainsAny(Lower(message), CreateKeywords) && ContainsAny(Lower(message), ListKeywords)
    ensures r.Create? ==> r.eventData.title == Title(message, c)
    ensures r.Create? ==> r.time == r.eventData.startTime == TrimmedField(c.time)
    ensures r.Create? ==> r.notes == r.eventData.description == TrimmedField(c.notes)
    ensures r.Create? ==> r.date == TrimmedField(c.date) && r.eventData.location == TrimmedField(c.location)
    ensures r.Create? ==> (r.eventData.attendees.Some? <==> c.attendees.Some?)
    ensures r.Create? && c.attendees.Some? ==> r.eventData.attendees.value == Tokens(c.attendees.value)
  {
    var low := Lower(message);
    if ContainsAny(low, CreateKeywords) then
      var title := Title(message, c);
      var time := TrimmedField(c.time);
      var notes := TrimmedField(c.notes);
      Create(
        EventData(
          title,
          time,
          TrimmedField(c.location),
          // an empty array is truthy, so a match that yields no names gives []
          if c.attendees.Some? then Some(Tokens(c.attendees.value)) else None,
          notes),
        TrimmedField(c.date), time, notes)
    else if ContainsAny(low, ListKeywords) then List
    else NoIntent
  }

  /** Every field the create intent carries is non-empty (JavaScript's `|| undefined`). */
  lemma CreateFieldsNonEmpty(message: string, c: Captures)
    requires DetectCalendarIntent(message, c).Create?
    ensures var e := DetectCalendarIntent(message, c).eventData;
      && (e.title.Some? ==> e.title.value != "")
      && (e.startTime.Some? ==> e.startTime.value != "")
      && (e.location.Some? ==> e.location.value != "")
      && (e.description.Some? ==> e.description.value != "")
      && (e.attendees.Some? ==> forall k | 0 <= k < |e.attendees.value| :: e.attendees.value[k] != "")
  {
  }

  /** "plan" is a create keyword and "calendar" a list keyword: a message with
      both is a create request. */
  lemma CreateBeatsList(message: string, c: Captures)
    requires Contains(Lower(message), "plan") && Contains(Lower(message), "calendar")
    ensures DetectCalendarIntent(message, c).Create?
  {
    assert "plan" in CreateKeywords;
  }
}
