/** The Gmail client's message shaping: header lookup, the unread flag, the
    walk over a message's MIME-part tree that collects the plain and HTML
    bodies and the attachments, the listing's defaults and filtering, and the
    label change that marks a message read. The API calls are left out:
    their replies are inputs, and the reply for each listed message is given
    by `fetch`. Base64 decoding of a part's data is the parameter `decode`.
    `None` is an absent (undefined) property. */
module GoogleGmail {
  import opened Common

  datatype Header = Header(name: Option<string>, value: Option<string>)

  /** A part's `body`: its base64 `data`, or the id and size of an attachment. */
  datatype PartBody = PartBody(data: Option<string>, attachmentId: Option<string>, size: Option<nat>)

  /** A MIME part. A missing `parts` array walks like an empty one, and a
      missing `headers` array finds no header, so both are plain sequences. */
  datatype Part = Part(
    mimeType: Option<string>,
    filename: Option<string>,
    headers: seq<Header>,
    body: Option<PartBody>,
    parts: seq<Part>)

  /** A message as the API returns it. */
  datatype MessageData = MessageData(
    id: Option<string>,
    threadId: Option<string>,
    snippet: Option<string>,
    labelIds: Option<seq<string>>,
    payload: Option<Part>)

  /** `GmailMessage`. */
  datatype GmailMessage = GmailMessage(
    id: string,
    threadId: string,
    snippet: string,
    subject: Option<string>,
    from: Option<string>,
    to: Option<string>,
    date: Option<string>,
    unread: bool,
    labels: seq<string>)

  datatype Attachment = Attachment(filename: string, mimeType: string, size: nat, attachmentId: string)

  /** `GmailMessageDetail`: the message's fields, then its bodies and attachments. */
  datatype GmailMessageDetail = GmailMessageDetail(
    message: GmailMessage,
    body: Option<string>,
    htmlBody: Option<string>,
    attachments: Option<seq<Attachment>>)

  const PlainType := "text/plain"
  const HtmlType := "text/html"
  const DefaultAttachmentType := "application/octet-stream"
  const DefaultMaxResults := 10
  const MessageNotFound := "Message not found"

  // ---------------------------------------------------------------------------
  // Headers

  /** `h.name?.toLowerCase() === name.toLowerCase()` */
  predicate NameMatches(h: Header, name: string) {
    h.name.Some? && Lower(h.name.value) == Lower(name)
  }

  /** The index of the first header whose name matches, ignoring case. */
  function FirstHeader(headers: seq<Header>, name: string): (r: Option<nat>)
    ensures r.None? <==> forall k | 0 <= k < |headers| :: !NameMatches(headers[k], name)
    ensures r.Some? ==>
      && r.value < |headers| && NameMatches(headers[r.value], name)
      && forall k | 0 <= k < r.value :: !NameMatches(headers[k], name)
  {
    if headers == [] then None
    else if NameMatches(headers[0], name) then Some(0)
    else
      var rest := FirstHeader(headers[1..], name);
      if rest.None? then None else Some(rest.value + 1)
  }

  /** `getHeader`: the value of the first header with that name in any case,
      undefined when there is none. */
  function GetHeader(headers: seq<Header>, name: string): (r: Option<string>)
    ensures (forall k | 0 <= k < |headers| :: !NameMatches(headers[k], name)) ==> r.None?
    ensures forall i | 0 <= i < |headers| && NameMatches(headers[i], name) &&
                       (forall k | 0 <= k < i :: !NameMatches(headers[k], name)) ::
              r == headers[i].value
  {
    var i := FirstHeader(headers, name);
    if i.None? then None
    else
      headers[i.value].value
  }

  /** The name asked for is compared in lower case, so its case does not
      matter. */
  lemma {:induction false} GetHeaderIgnoresCase(headers: seq<Header>, name: string, other: string)
    requires Lower(name) == Lower(other)
    ensures GetHeader(headers, name) == GetHeader(headers, other)
  {
    assert forall k | 0 <= k < |headers| :: NameMatches(headers[k], name) == NameMatches(headers[k], other);
    var i := FirstHeader(headers, name);
    if i.Some? {
      assert FirstHeader(headers, other).Some?;
    }
  }

  function HeadersOf(payload: Option<Part>): seq<Header> {
    if payload.Some? then payload.value.headers else []
  }

  // ---------------------------------------------------------------------------
  // Labels and the unread flag

  /** The label change `users.messages.modify` is asked for. */
  datatype ModifyRequest = ModifyRequest(removeLabelIds: seq<string>)

  /** `markGmailMessageAsRead`: remove the 'UNREAD' label. */
  const MarkReadRequest := ModifyRequest(["UNREAD"])

  /** What the modify request does to a message's labels. */
  function ApplyModify(labels: seq<string>, request: ModifyRequest): (r: seq<string>)
    ensures forall l :: l in r <==> l in labels && l !in request.removeLabelIds
  {
    if labels == [] then []
    else
      var rest := ApplyModify(labels[1..], request);
      if labels[0] in request.removeLabelIds then rest else [labels[0]] + rest
  }

  /** Marking a message read removes 'UNREAD' and keeps every other label. */
  lemma MarkReadRemovesOnlyUnread(labels: seq<string>)
    ensures "UNREAD" !in ApplyModify(labels, MarkReadRequest)
    ensures forall l | l in labels && l != "UNREAD" :: l in ApplyModify(labels, MarkReadRequest)
  {
    assert "UNREAD" in MarkReadRequest.removeLabelIds;
  }

  /** The unread flag as written: the message has no 'READ' label. */
  predicate UnreadAsWritten(labels: seq<string>) {
    "READ" !in labels
  }

  /** Gmail marks unread messages with 'UNREAD' (which is the label the
      client removes to mark a message read) and has no 'READ' label, so the
      flag as written stays true after the message is marked read. */
  lemma UnreadAsWrittenSurvivesMarkRead()
    ensures var labels := ApplyModify(["INBOX", "UNREAD"], MarkReadRequest);
      labels == ["INBOX"] && UnreadAsWritten(labels)
  {
    var labels := ApplyModify(["INBOX", "UNREAD"], MarkReadRequest);
    assert "INBOX" !in MarkReadRequest.removeLabelIds;
    assert labels == ["INBOX"];
    assert "READ" != "INBOX";
  }

  /** The unread flag as evidently intended: the message carries 'UNREAD'. */
  predicate IsUnread(labels: seq<string>) {
    "UNREAD" in labels
  }

  /** Under the intended flag, marking a message read clears it, and a
      message that was already read stays read. */
  lemma MarkReadClearsUnread(labels: seq<string>)
    ensures !IsUnread(ApplyModify(labels, MarkReadRequest))
    ensures !IsUnread(labels) ==> ApplyModify(labels, MarkReadRequest) == labels
  {
    MarkReadRemovesOnlyUnread(labels);
    if !IsUnread(labels) {
      NothingToRemove(labels, MarkReadRequest);
    }
  }

  lemma {:induction false} NothingToRemove(labels: seq<string>, request: ModifyRequest)
    requires forall l | l in labels :: l !in request.removeLabelIds
    ensures ApplyModify(labels, request) == labels
  {
    if labels != [] {
      NothingToRemove(labels[1..], request);
    }
  }

  /** The fields of a fetched message: `|| ''` defaults, the four headers, the
      unread flag and the labels (`[]` when absent). */
  function ToMessage(m: MessageData): (r: GmailMessage)
    ensures r.labels == (if m.labelIds.Some? then m.labelIds.value else [])
    ensures r.unread <==> "READ" !in r.labels
  {
    var headers := HeadersOf(m.payload);
    var labelIds := if m.labelIds.Some? then m.labelIds.value else [];
    GmailMessage(
      OrElse(m.id, ""), OrElse(m.threadId, ""), OrElse(m.snippet, ""),
      GetHeader(headers, "Subject"), GetHeader(headers, "From"), GetHeader(headers, "To"), GetHeader(headers, "Date"),
      UnreadAsWritten(labelIds), labelIds)
  }

  /** A fetched message that has been marked read is still reported unread:
      marking read never adds a 'READ' label. */
  lemma MarkedReadReportedUnread(m: MessageData)
    requires m.labelIds.Some? && "READ" !in m.labelIds.value
    ensures ToMessage(m.(labelIds := Some(ApplyModify(m.labelIds.value, MarkReadRequest)))).unread
  {
  }

  // ---------------------------------------------------------------------------
  // The part tree

  /** The decoded content of a part with truthy `body.data`. */
  function Content(p: Part, decode: string -> string): Option<string> {
    if p.body.Some? && Truthy(p.body.value.data) then Some(decode(p.body.value.data.value)) else None
  }

  /** What `p` itself adds to the body of type `mime`. */
  function OwnText(p: Part, mime: string, decode: string -> string): string {
    var c := Content(p, decode);
    if c.Some? && p.mimeType == Some(mime) then c.value else ""
  }

  /** The contents of the parts of type `mime` in the tree under `p`, in
      pre-order: the part itself, then each child's tree in turn. */
  function TextOf(p: Part, mime: string, decode: string -> string): string
    decreases p, 1
  {
    OwnText(p, mime, decode) + TextOfAll(p.parts, mime, decode)
  }

  function TextOfAll(ps: seq<Part>, mime: string, decode: string -> string): string
    decreases ps, 0
  {
    if ps == [] then "" else TextOfAll(ps[..|ps| - 1], mime, decode) + TextOf(ps[|ps| - 1], mime, decode)
  }

  /** The attachment `p` itself contributes: it needs a truthy filename and
      a truthy `body.attachmentId`. */
  function OwnAttachment(p: Part): seq<Attachment> {
    if Truthy(p.filename) && p.body.Some? && Truthy(p.body.value.attachmentId) then
      var size := if p.body.value.size.Some? then p.body.value.size.value else 0;
      [Attachment(p.filename.value, OrElse(p.mimeType, DefaultAttachmentType), size, p.body.value.attachmentId.value)]
    else []
  }

  /** The attachments in the tree under `p`, in pre-order. */
  function AttachmentsOf(p: Part): seq<Attachment>
    decreases p, 1
  {
    OwnAttachment(p) + AttachmentsOfAll(p.parts)
  }

  function AttachmentsOfAll(ps: seq<Part>): seq<Attachment>
    decreases ps, 0
  {
    if ps == [] then [] else AttachmentsOfAll(ps[..|ps| - 1]) + AttachmentsOf(ps[|ps| - 1])
  }

  /** The tree under `p` listed in pre-order. */
  function Flatten(p: Part): (r: seq<Part>)
    ensures |r| >= 1 && r[0] == p
    decreases p, 1
  {
    [p] + FlattenAll(p.parts)
  }

  function FlattenAll(ps: seq<Part>): seq<Part>
    decreases ps, 0
  {
    if ps == [] then [] else FlattenAll(ps[..|ps| - 1]) + Flatten(ps[|ps| - 1])
  }

  /** The reference definitions over the flat list: each part's own text, and
      each part's own attachment, concatenated in order. */
  function TextOfList(ps: seq<Part>, mime: string, decode: string -> string): string {
    if ps == [] then "" else TextOfList(ps[..|ps| - 1], mime, decode) + OwnText(ps[|ps| - 1], mime, decode)
  }

  function AttachmentsOfList(ps: seq<Part>): seq<Attachment> {
    if ps == [] then [] else AttachmentsOfList(ps[..|ps| - 1]) + OwnAttachment(ps[|ps| - 1])
  }

  lemma {:induction false} TextOfListAppend(a: seq<Part>, b: seq<Part>, mime: string, decode: string -> string)
    ensures TextOfList(a + b, mime, decode) == TextOfList(a, mime, decode) + TextOfList(b, mime, decode)
    decreases |b|
  {
    if b == [] {
      assert a + b == a;
    } else {
      assert (a + b)[..|a + b| - 1] == a + b[..|b| - 1];
      TextOfListAppend(a, b[..|b| - 1], mime, decode);
    }
  }

  lemma {:induction false} AttachmentsOfListAppend(a: seq<Part>, b: seq<Part>)
    ensures AttachmentsOfList(a + b) == AttachmentsOfList(a) + AttachmentsOfList(b)
    decreases |b|
  {
    if b == [] {
      assert a + b == a;
    } else {
      assert (a + b)[..|a + b| - 1] == a + b[..|b| - 1];
      AttachmentsOfListAppend(a, b[..|b| - 1]);
    }
  }

  /** The walk collects exactly the text of the parts of type `mime` taken
      one by one in pre-order. */
  lemma {:induction false} TextIsPreOrder(p: Part, mime: string, decode: string -> string)
    ensures TextOf(p, mime, decode) == TextOfList(Flatten(p), mime, decode)
    decreases p, 1
  {
    TextAllIsPreOrder(p.parts, mime, decode);
    TextOfListAppend([p], FlattenAll(p.parts), mime, decode);
    TextOfListSingle(p, mime, decode);
  }

  lemma TextOfListSingle(p: Part, mime: string, decode: string -> string)
    ensures TextOfList([p], mime, decode) == OwnText(p, mime, decode)
  {
    assert [p][..0] == [];
  }

  lemma {:induction false} TextAllIsPreOrder(ps: seq<Part>, mime: string, decode: string -> string)
    ensures TextOfAll(ps, mime, decode) == TextOfList(FlattenAll(ps), mime, decode)
    decreases ps, 0
  {
    if ps != [] {
      var n := |ps| - 1;
      TextAllIsPreOrder(ps[..n], mime, decode);
      TextIsPreOrder(ps[n], mime, decode);
      TextOfListAppend(FlattenAll(ps[..n]), Flatten(ps[n]), mime, decode);
    }
  }

  /** The attachments are those of the parts taken one by one in pre-order. */
  lemma {:induction false} AttachmentsArePreOrder(p: Part)
    ensures AttachmentsOf(p) == AttachmentsOfList(Flatten(p))
    decreases p, 1
  {
    AttachmentsAllArePreOrder(p.parts);
    AttachmentsOfListAppend([p], FlattenAll(p.parts));
    AttachmentsOfListSingle(p);
  }

  lemma AttachmentsOfListSingle(p: Part)
    ensures AttachmentsOfList([p]) == OwnAttachment(p)
  {
    assert [p][..0] == [];
  }

  lemma {:induction false} AttachmentsAllArePreOrder(ps: seq<Part>)
    ensures AttachmentsOfAll(ps) == AttachmentsOfList(FlattenAll(ps))
    decreases ps, 0
  {
    if ps != [] {
      var n := |ps| - 1;
      AttachmentsAllArePreOrder(ps[..n]);
      AttachmentsArePreOrder(ps[n]);
      AttachmentsOfListAppend(FlattenAll(ps[..n]), Flatten(ps[n]));
    }
  }

  /** Every attachment has a non-empty filename, type and id. */
  lemma {:induction false} AttachmentsWellFormed(ps: seq<Part>)
    ensures forall a | a in AttachmentsOfList(ps) :: a.filename != "" && a.mimeType != "" && a.attachmentId != ""
    decreases |ps|
  {
    if ps != [] {
      AttachmentsWellFormed(ps[..|ps| - 1]);
    }
  }

  /** A tree with no part of type `mime` carrying data gives an empty body. */
  lemma {:induction false} NoSuchPartNoText(ps: seq<Part>, mime: string, decode: string -> string)
    requires forall q | q in ps :: q.mimeType != Some(mime) || Content(q, decode).None?
    ensures TextOfList(ps, mime, decode) == ""
    decreases |ps|
  {
    if ps != [] {
      NoSuchPartNoText(ps[..|ps| - 1], mime, decode);
    }
  }

  /** The first half of `extractBody`: a part with truthy `body.data` adds
      its decoded content to `htmlBody` if it is text/html, to `body` if it
      is text/plain, and to neither otherwise. */
  method AddOwnContent(part: Part, decode: string -> string, body: string, htmlBody: string)
    returns (body': string, htmlBody': string)
    ensures body' == body + OwnText(part, PlainType, decode)
    ensures htmlBody' == htmlBody + OwnText(part, HtmlType, decode)
  {
    body', htmlBody' := body, htmlBody;
    if part.body.Some? && Truthy(part.body.value.data) {
      var content := decode(part.body.value.data.value);
      if part.mimeType == Some(HtmlType) {
        htmlBody' := htmlBody' + content;
      } else if part.mimeType == Some(PlainType) {
        body' := body' + content;
      }
    }
  }

  lemma TextOfAllStep(ps: seq<Part>, i: nat, mime: string, decode: string -> string)
    requires i < |ps|
    ensures TextOfAll(ps[..i + 1], mime, decode) == TextOfAll(ps[..i], mime, decode) + TextOf(ps[i], mime, decode)
  {
    assert ps[..i + 1][..i] == ps[..i];
  }

  /** `extractBody`: walk the tree in pre-order, appending decoded text/html
      content to `htmlBody` and text/plain content to `body`. */
  method ExtractBody(part: Part, decode: string -> string, body: string, htmlBody: string)
    returns (body': string, htmlBody': string)
    ensures body' == body + TextOf(part, PlainType, decode)
    ensures htmlBody' == htmlBody + TextOf(part, HtmlType, decode)
    decreases part, 1
  {
    body', htmlBody' := AddOwnContent(part, decode, body, htmlBody);
    var i := 0;
    while i < |part.parts|
      invariant i <= |part.parts|
      invariant body' == body + OwnText(part, PlainType, decode) + TextOfAll(part.parts[..i], PlainType, decode)
      invariant htmlBody' == htmlBody + OwnText(part, HtmlType, decode) + TextOfAll(part.parts[..i], HtmlType, decode)
    {
      TextOfAllStep(part.parts, i, PlainType, decode);
      TextOfAllStep(part.parts, i, HtmlType, decode);
      ConcatAssoc(body + OwnText(part, PlainType, decode), TextOfAll(part.parts[..i], PlainType, decode), TextOf(part.parts[i], PlainType, decode));
      ConcatAssoc(htmlBody + OwnText(part, HtmlType, decode), TextOfAll(part.parts[..i], HtmlType, decode), TextOf(part.parts[i], HtmlType, decode));
      body', htmlBody' := ExtractBody(part.parts[i], decode, body', htmlBody');
      i := i + 1;
    }
    assert part.parts[..i] == part.parts;
    ConcatAssoc(body, OwnText(part, PlainType, decode), TextOfAll(part.parts, PlainType, decode));
    ConcatAssoc(htmlBody, OwnText(part, HtmlType, decode), TextOfAll(part.parts, HtmlType, decode));
  }

  /** The first half of `extractAttachments`: a part with a truthy filename
      and a truthy `body.attachmentId` is pushed, its type defaulting to
      'application/octet-stream' and its size to 0. */
  method AddOwnAttachment(part: Part, attachments: seq<Attachment>) returns (attachments': seq<Attachment>)
    ensures attachments' == attachments + OwnAttachment(part)
  {
    attachments' := attachments;
    if part.filename.Some? && part.filename.value != "" && part.body.Some? && Truthy(part.body.value.attachmentId) {
      var mimeType := if Truthy(part.mimeType) then part.mimeType.value else DefaultAttachmentType;
      var size := if part.body.value.size.Some? then part.body.value.size.value else 0;
      attachments' := attachments' + [Attachment(part.filename.value, mimeType, size, part.body.value.attachmentId.value)];
    }
  }

  lemma AttachmentsOfAllStep(ps: seq<Part>, i: nat)
    requires i < |ps|
    ensures AttachmentsOfAll(ps[..i + 1]) == AttachmentsOfAll(ps[..i]) + AttachmentsOf(ps[i])
  {
    assert ps[..i + 1][..i] == ps[..i];
  }

  /** `extractAttachments`: walk the tree in pre-order, pushing each part
      that has a filename and an attachment id. */
  method ExtractAttachments(part: Part, attachments: seq<Attachment>) returns (attachments': seq<Attachment>)
    ensures attachments' == attachments + AttachmentsOf(part)
    decreases part, 1
  {
    attachments' := AddOwnAttachment(part, attachments);
    var i := 0;
    while i < |part.parts|
      invariant i <= |part.parts|
      invariant attachments' == attachments + OwnAttachment(part) + AttachmentsOfAll(part.parts[..i])
    {
      AttachmentsOfAllStep(part.parts, i);
      ConcatAssoc(attachments + OwnAttachment(part), AttachmentsOfAll(part.parts[..i]), AttachmentsOf(part.parts[i]));
      attachments' := ExtractAttachments(part.parts[i], attachments');
      i := i + 1;
    }
    assert part.parts[..i] == part.parts;
    ConcatAssoc(attachments, OwnAttachment(part), AttachmentsOfAll(part.parts));
  }

  /** `getGmailMessage`: a missing message is an error; otherwise the
      message's fields, with the body, the HTML body and the attachments
      each undefined when empty. */
  method GetGmailMessage(data: Option<MessageData>, decode: string -> string)
    returns (r: Result<GmailMessageDetail, string>)
    ensures data.None? <==> r == Err(MessageNotFound)
    ensures data.Some? ==>
      var m := data.value;
      var body := if m.payload.Some? then TextOf(m.payload.value, PlainType, decode) else "";
      var html := if m.payload.Some? then TextOf(m.payload.value, HtmlType, decode) else "";
      var attachments := if m.payload.Some? then AttachmentsOf(m.payload.value) else [];
      && r.Ok?
      && r.value.message == ToMessage(m)
      && r.value.body == NonEmpty(body)
      && r.value.htmlBody == NonEmpty(html)
      && r.value.attachments == (if attachments == [] then None else Some(attachments))
  {
    if data.None? {
      return Err(MessageNotFound);
    }
    var message := data.value;
    var body, htmlBody := "", "";
    if message.payload.Some? {
      body, htmlBody := ExtractBody(message.payload.value, decode, body, htmlBody);
      assert body == TextOf(message.payload.value, PlainType, decode);
      assert htmlBody == TextOf(message.payload.value, HtmlType, decode);
    }
    var attachments: seq<Attachment> := [];
    if message.payload.Some? {
      attachments := ExtractAttachments(message.payload.value, attachments);
      assert attachments == AttachmentsOf(message.payload.value);
    }
    r := Ok(GmailMessageDetail(
      ToMessage(message),
      NonEmpty(body),
      NonEmpty(htmlBody),
      if |attachments| > 0 then Some(attachments) else None));
  }

  // ---------------------------------------------------------------------------
  // Listing

  datatype ListParams = ListParams(query: Option<string>, maxResults: Option<int>, pageToken: Option<string>)

  /** The `users.messages.list` request. */
  datatype ListRequest = ListRequest(userId: string, q: Option<string>, maxResults: int, pageToken: Option<string>)

  datatype MessageRef = MessageRef(id: Option<string>)

  /** The list reply: the message references and the next page token. */
  datatype ListData = ListData(messages: Option<seq<MessageRef>>, nextPageToken: Option<string>)

  datatype ListResult = ListResult(messages: seq<GmailMessage>, nextPageToken: Option<string>)

  /** The list request: `maxResults` is 10 when absent or 0. */
  function ListRequestFor(params: ListParams): (r: ListRequest)
    ensures r.userId == "me" && r.q == params.query && r.pageToken == params.pageToken
    ensures params.maxResults.None? || params.maxResults == Some(0) ==> r.maxResults == DefaultMaxResults
    ensures params.maxResults.Some? && params.maxResults.value != 0 ==> r.maxResults == params.maxResults.value
  {
    var maxResults := if params.maxResults.Some? && params.maxResults.value != 0 then params.maxResults.value else DefaultMaxResults;
    ListRequest("me", params.query, maxResults, params.pageToken)
  }

  /** The ids of the references that have one, in order. */
  function IdsOf(refs: seq<MessageRef>): (r: seq<string>)
    ensures |r| <= |refs|
    ensures forall id | id in r :: id != ""
  {
    if refs == [] then []
    else
      var rest := IdsOf(refs[1..]);
      if Truthy(refs[0].id) then [refs[0].id.value] + rest else rest
  }

  /** `listGmailMessages`: no references gives no messages and no page
      token; otherwise one message per reference with an id, fetched by
      that id and shaped by `ToMessage`, in the references' order. */
  function ListMessages(list: ListData, fetch: string -> MessageData): (r: ListResult)
    ensures list.messages.None? || list.messages.value == [] ==> r == ListResult([], None)
    ensures list.messages.Some? && list.messages.value != [] ==>
      var ids := IdsOf(list.messages.value);
      && |r.messages| == |ids|
      && (forall k | 0 <= k < |ids| :: r.messages[k] == ToMessage(fetch(ids[k])))
      && r.nextPageToken == Present(list.nextPageToken)
  {
    if list.messages.None? || |list.messages.value| == 0 then ListResult([], None)
    else
      var ids := IdsOf(list.messages.value);
      ListResult(seq(|ids|, k requires 0 <= k < |ids| => ToMessage(fetch(ids[k]))), Present(list.nextPageToken))
  }

  /** References without an id are dropped and no other is. */
  lemma {:induction false} IdsKeepEveryNamedRef(refs: seq<MessageRef>)
    ensures forall k | 0 <= k < |refs| && Truthy(refs[k].id) :: refs[k].id.value in IdsOf(refs)
    ensures forall id | id in IdsOf(refs) :: exists k | 0 <= k < |refs| :: refs[k].id == Some(id)
    ensures (forall k | 0 <= k < |refs| :: !Truthy(refs[k].id)) <==> IdsOf(refs) == []
  {
    if refs != [] {
      IdsKeepEveryNamedRef(refs[1..]);
      forall id | id in IdsOf(refs) ensures exists k | 0 <= k < |refs| :: refs[k].id == Some(id) {
        if id in IdsOf(refs[1..]) {
          var k :| 0 <= k < |refs[1..]| && refs[1..][k].id == Some(id);
          assert refs[k + 1].id == Some(id);
        } else {
          assert refs[0].id == Some(id);
        }
      }
      forall k | 0 <= k < |refs| && Truthy(refs[k].id) ensures refs[k].id.value in IdsOf(refs) {
        if k > 0 {
          assert refs[1..][k - 1] == refs[k];
        }
      }
      if forall k | 0 <= k < |refs| :: !Truthy(refs[k].id) {
        assert forall k | 0 <= k < |refs[1..]| :: !Truthy(refs[1..][k].id) by {
          forall k | 0 <= k < |refs[1..]| ensures !Truthy(refs[1..][k].id) {
            assert refs[1..][k] == refs[k + 1];
          }
        }
      }
    }
  }
}
