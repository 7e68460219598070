/** `detectGmailIntent`: keyword classification of a chat message into a
    list, read or mark-as-read request, with the Gmail search query built
    from the filters. What the `from`, `subject` and message-id patterns
    captured (group 1, or nothing) is an input. */
module GmailIntent {
  import opened Common

  const ListKeywords: seq<string> :=
    ["check email", "check emails", "check my email", "show emails", "show messages",
     "list emails", "unread emails", "new emails", "emails from", "messages from"]

  const ReadKeywords: seq<string> :=
    ["read email", "read message", "show email", "open email", "view email"]

  const MarkReadKeywords: seq<string> :=
    ["mark as read", "mark read", "read it"]

  /** Group 1 of the sender, subject and message-id patterns. */
  datatype Captures = Captures(from: Option<string>, subject: Option<string>, messageId: Option<string>)

  datatype Filters = Filters(unread: bool, from: Option<string>, subject: Option<string>, query: string)

  datatype GmailIntent =
    | NoIntent
    | List(filters: Filters)
    | Read(messageId: Option<string>)
    | MarkRead(messageId: Option<string>)

  /** The query parts, in the order unread, sender, subject, joined by spaces. */
  function QueryParts(unread: bool, from: Option<string>, subject: Option<string>): seq<string> {
    (if unread then ["is:unread"] else [])
    + (if Truthy(from) then ["from:" + from.value] else [])
    + (if Truthy(subject) then ["subject:\"" + subject.value + "\""] else [])
  }

  function BuildQuery(unread: bool, from: Option<string>, subject: Option<string>): (q: string)
  {
    Join(QueryParts(unread, from, subject), " ")
  }

  lemma {:induction false} JoinEmpty(parts: seq<string>, sep: string)
    requires forall k | 0 <= k < |parts| :: parts[k] != ""
    ensures Join(parts, sep) == "" <==> parts == []
    decreases |parts|
  {
    if |parts| > 1 {
      JoinEmpty(parts[1..], sep);
    }
  }

  lemma {:induction false} JoinStartsWithFirst(parts: seq<string>, sep: string)
    requires parts != []
    ensures |parts[0]| <= |Join(parts, sep)| && Join(parts, sep)[..|parts[0]|] == parts[0]
  {
  }

  /** The query is empty exactly when no filter applies, and it begins with
      `is:unread` whenever the unread filter is on. */
  lemma QueryShape(unread: bool, from: Option<string>, subject: Option<string>)
    ensures BuildQuery(unread, from, subject) == "" <==> !unread && !Truthy(from) && !Truthy(subject)
    ensures unread ==> BuildQuery(unread, from, subject)[..9] == "is:unread"
  {
    var parts := QueryParts(unread, from, subject);
    JoinEmpty(parts, " ");
    if unread {
      JoinStartsWithFirst(parts, " ");
    }
  }

  function DetectGmailIntent(message: string, c: Captures): (r: GmailIntent)
    ensures r.List? <==> ContainsAny(Lower(message), ListKeywords)
    ensures r.Read? <==> !ContainsAny(Lower(message), ListKeywords) && ContainsAny(Lower(message), ReadKeywords)
    ensures r.MarkRead? <==>
      !ContainsAny(Lower(message), ListKeywords) && !ContainsAny(Lower(message), ReadKeywords)
      && ContainsAny(Lower(message), MarkReadKeywords)
    ensures r.List? ==> (r.filters.unread <==> Contains(Lower(message), "unread") || Contains(Lower(message), "new"))
    ensures r.List? ==> r.filters.from == c.from
    ensures r.List? ==> r.filters.subject == (if c.subject.Some? then Some(Trim(c.subject.value)) else None)
    ensures r.List? ==> r.filters.query == BuildQuery(r.filters.unread, r.filters.from, r.filters.subject)
    ensures r.Read? || r.MarkRead? ==> r.messageId == c.messageId
  {
    var low := Lower(message);
    if ContainsAny(low, ListKeywords) then
      var unread := Contains(low, "unread") || Contains(low, "new");
      var subject := if c.subject.Some? then Some(Trim(c.subject.value)) else None;
      List(Filters(unread, c.from, subject, BuildQuery(unread, c.from, subject)))
    else if ContainsAny(low, ReadKeywords) then Read(c.messageId)
    else if ContainsAny(low, MarkReadKeywords) then MarkRead(c.messageId)
    else NoIntent
  }

  /** "unread emails" and "new emails" are list keywords that hold the
      unread words. */
  lemma UnreadPhraseListed(low: string)
    requires Contains(low, "unread emails") || Contains(low, "new emails")
    ensures ContainsAny(low, ListKeywords)
    ensures Contains(low, "unread") || Contains(low, "new")
  {
    assert "unread emails" in ListKeywords && "new emails" in ListKeywords;
    if Contains(low, "unread emails") {
      assert "unread emails" == "unread" + " emails";
      ContainsPrefixOf(low, "unread", " emails");
    } else {
      assert "new emails" == "new" + " emails";
      ContainsPrefixOf(low, "new", " emails");
    }
  }

  /** Asking for unread or new emails always sets the unread filter. */
  lemma UnreadKeywordsSetFilter(message: string, c: Captures)
    requires Contains(Lower(message), "unread emails") || Contains(Lower(message), "new emails")
    ensures DetectGmailIntent(message, c).List?
    ensures DetectGmailIntent(message, c).filters.unread
    ensures DetectGmailIntent(message, c).filters.query[..9] == "is:unread"
  {
    UnreadPhraseListed(Lower(message));
    var r := DetectGmailIntent(message, c);
    QueryShape(r.filters.unread, r.filters.from, r.filters.subject);
  }

  /** "show emails" contains "show email", yet it lists: listing is tried first. */
  lemma ShowEmailsLists(message: string, c: Captures)
    requires Contains(Lower(message), "show emails")
    ensures DetectGmailIntent(message, c).List?
  {
    assert "show emails" in ListKeywords;
  }
}
