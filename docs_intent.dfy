/** `detectDocsIntent`: keyword classification of a chat message into a
    create, read or append request for a Google document. What the title,
    document-id and content patterns captured (group 1, or nothing) is an
    input; the fallbacks that split the message are modelled exactly. */
module DocsIntent {
  import opened Common

  const CreateKeywords: seq<string> :=
    ["create document", "create doc", "new document", "new doc", "make a document", "make a doc"]

  const ReadKeywords: seq<string> :=
    ["read document", "read doc", "show document", "show doc", "open document", "view document"]

  const AppendKeywords: seq<string> :=
    ["add to document", "add to doc", "append to document", "append to doc",
     "write to document", "write to doc", "update document", "update doc"]

  const CreateVerbs: seq<string> := ["create", "new", "make"]
  const TitleStops: seq<string> := ["with", "containing", "that says"]
  const AppendVerbs: seq<string> := ["add", "append", "write", "update"]
  const DocumentWords: seq<string> := ["to", "document", "doc"]

  const UntitledDocument := "Untitled Document"

  lemma AlternativesNonEmpty()
    ensures AllNonEmpty(CreateVerbs) && AllNonEmpty(TitleStops)
    ensures AllNonEmpty(AppendVerbs) && AllNonEmpty(DocumentWords)
  {
    forall a | a in CreateVerbs ensures a != "" {
    }
    forall a | a in TitleStops ensures a != "" {
    }
    forall a | a in AppendVerbs ensures a != "" {
    }
    forall a | a in DocumentWords ensures a != "" {
    }
  }

  /** Group 1 of the title, document-id and content patterns. */
  datatype Captures = Captures(title: Option<string>, documentId: Option<string>, content: Option<string>)

  datatype DocsIntent =
    | NoIntent
    | Create(title: string)
    | Read(documentId: Option<string>)
    | Append(documentId: Option<string>, content: Option<string>)

  function TrimmedCapture(c: Option<string>): Option<string> {
    if c.Some? then Some(Trim(c.value)) else None
  }

  /** The text after the first create verb, cut before the first of
      "with", "containing" or "that says", trimmed. */
  function TitleFromMessage(message: string): Option<string> {
    AlternativesNonEmpty();
    match Piece(message, CreateVerbs, 1)
    case Some(after) => Some(Trim(Split(after, TitleStops)[0]))
    case None => None
  }

  /** `titleMatch?.[1]?.trim() || titleFromMessage || 'Untitled Document'` */
  function CreateTitle(message: string, c: Captures): (t: string)
    ensures t != ""
    ensures Truthy(TrimmedCapture(c.title)) ==> t == Trim(c.title.value)
    ensures !Truthy(TrimmedCapture(c.title)) && Truthy(TitleFromMessage(message)) ==> t == TitleFromMessage(message).value
    ensures !Truthy(TrimmedCapture(c.title)) && !Truthy(TitleFromMessage(message)) ==> t == UntitledDocument
  {
    var m := TrimmedCapture(c.title);
    if Truthy(m) then m.value
    else
      var f := TitleFromMessage(message);
      if Truthy(f) then f.value else UntitledDocument
  }

  /** A title taken from the message never contains a stop phrase. */
  lemma TitleFromMessageHasNoStop(message: string)
    requires TitleFromMessage(message).Some?
    ensures !ContainsAny(Lower(TitleFromMessage(message).value), TitleStops)
  {
    AlternativesNonEmpty();
    var after := Piece(message, CreateVerbs, 1).value;
    FirstPieceClean(after, TitleStops);
    TrimClean(Split(after, TitleStops)[0], TitleStops);
  }

  /** Without a usable title capture, the created document is either
      "Untitled Document" or named by text that holds no stop phrase. */
  lemma {:induction false} UncapturedTitleHasNoStop(message: string, c: Captures)
    requires !Truthy(TrimmedCapture(c.title))
    ensures CreateTitle(message, c) == UntitledDocument || !ContainsAny(Lower(CreateTitle(message, c)), TitleStops)
  {
    if Truthy(TitleFromMessage(message)) {
      TitleFromMessageHasNoStop(message);
    }
  }

  /** The text between the first and second document words, trimmed. */
  function ContentAfterVerb(after: string): (r: Option<string>)
    ensures AllNonEmpty(DocumentWords)
    ensures r.Some? <==> Leftmost(Lower(after), DocumentWords, 0).Some?
  {
    AlternativesNonEmpty();
    var ws := DocumentWords;
    SecondPieceIffMatch(after, ws);
    match Piece(after, DocumentWords, 1)
    case Some(p) => Some(Trim(p))
    case None => None
  }

  /** The content fallback: the text after the first append verb, taken
      between the next two document words. It exists only when an append
      verb is followed by a document word. */
  function ContentFromMessage(message: string): (r: Option<string>)
    ensures AllNonEmpty(AppendVerbs)
    ensures r.Some? ==> Leftmost(Lower(message), AppendVerbs, 0).Some?
    ensures Leftmost(Lower(message), AppendVerbs, 0).Some? ==>
      Piece(message, AppendVerbs, 1).Some? && r == ContentAfterVerb(Piece(message, AppendVerbs, 1).value)
  {
    AlternativesNonEmpty();
    SecondPieceIffMatch(message, AppendVerbs);
    match Piece(message, AppendVerbs, 1)
    case Some(after) => ContentAfterVerb(after)
    case None => None
  }

  /** `contentMatch?.[1]?.trim() || contentFromMessage`: may be absent, or the
      empty string when the fallback trims to nothing. */
  function AppendContent(message: string, c: Captures): (r: Option<string>)
    ensures Truthy(TrimmedCapture(c.content)) ==> r == TrimmedCapture(c.content)
    ensures !Truthy(TrimmedCapture(c.content)) ==> r == ContentFromMessage(message)
  {
    var m := TrimmedCapture(c.content);
    if Truthy(m) then m else ContentFromMessage(message)
  }

  function DetectDocsIntent(message: string, c: Captures): (r: DocsIntent)
    ensures r.Create? <==> ContainsAny(Lower(message), CreateKeywords)
    ensures r.Read? <==> !ContainsAny(Lower(message), CreateKeywords) && ContainsAny(Lower(message), ReadKeywords)
    ensures r.Append? <==>
      !ContainsAny(Lower(message), CreateKeywords) && !ContainsAny(Lower(message), ReadKeywords)
      && ContainsAny(Lower(message), AppendKeywords)
    ensures r.Create? ==> r.title == CreateTitle(message, c) && r.title != ""
    ensures r.Read? ==> r.documentId == c.documentId
    ensures r.Append? ==> r.documentId == c.documentId && r.content == AppendContent(message, c)
  {
    var low := Lower(message);
    if ContainsAny(low, CreateKeywords) then Create(CreateTitle(message, c))
    else if ContainsAny(low, ReadKeywords) then Read(c.documentId)
    else if ContainsAny(low, AppendKeywords) then Append(c.documentId, AppendContent(message, c))
    else NoIntent
  }

  /** "update document" is an append request: no update action is ever produced. */
  lemma UpdateIsAppend(message: string, c: Captures)
    requires Contains(Lower(message), "update document")
    requires !ContainsAny(Lower(message), CreateKeywords) && !ContainsAny(Lower(message), ReadKeywords)
    ensures DetectDocsIntent(message, c).Append?
  {
    assert "update document" in AppendKeywords;
  }
}
