/** The memory upload route: file checks, the stored object's path, text
    extraction by type, the formatting of an image analysis, and the memory
    text. Decoding of text files (`TextDecoder`), the vision analysis, the
    clock and the storage upload are inputs. */
module MemoryUpload {
  import opened Common
  import opened AppErrors
  import opened Auth

  const MaxFileSize: nat := 10 * 1024 * 1024

  const ImageTypes: seq<string> := ["image/jpeg", "image/jpg", "image/png", "image/gif", "image/webp"]
  const DocumentTypes: seq<string> :=
    ["application/pdf", "text/plain", "text/markdown", "application/msword",
     "application/vnd.openxmlformats-officedocument.wordprocessingml.document", "text/csv"]

  datatype UploadFile = UploadFile(name: string, mimeType: string, size: nat)

  function UnsupportedTypeMessage(mimeType: string): string {
    "Unsupported file type: " + mimeType
      + ". Supported: images (JPEG, PNG, GIF, WebP), PDFs, and text documents."
  }

  /** The three checks, in order. */
  function CheckFile(file: Option<UploadFile>): (r: Result<UploadFile, AppError>)
    ensures r.Ok? <==> (file.Some? && file.value.size <= MaxFileSize
                        && (file.value.mimeType in ImageTypes || file.value.mimeType in DocumentTypes))
    ensures r.Ok? ==> r.value == file.value
    ensures r.Err? ==> r.error.kind == Validation && r.error.statusCode == 400
    ensures file.None? ==> r == Err(NewValidationError("No file provided"))
    ensures file.Some? && file.value.size > MaxFileSize ==>
      r == Err(NewValidationError("File size exceeds 10MB limit"))
  {
    match file
    case None => Err(NewValidationError("No file provided"))
    case Some(f) =>
      if f.size > MaxFileSize then Err(NewValidationError("File size exceeds 10MB limit"))
      else if !(f.mimeType in ImageTypes || f.mimeType in DocumentTypes) then
        Err(NewValidationError(UnsupportedTypeMessage(f.mimeType)))
      else Ok(f)
  }

  /** A file of exactly 10 MiB is accepted; one byte more is refused. */
  lemma SizeBoundary(name: string)
    ensures CheckFile(Some(UploadFile(name, "text/plain", 10485760))).Ok?
    ensures CheckFile(Some(UploadFile(name, "text/plain", 10485761))).Err?
  {
    assert "text/plain" in DocumentTypes;
  }

  // ---------------------------------------------------------------------------
  // Storage path

  predicate SafeNameChar(c: char) {
    IsAlnum(c) || c == '.' || c == '-'
  }

  /** `name.replace(/[^a-zA-Z0-9.-]/g, '_')` */
  function Sanitize(name: string): (r: string)
    ensures |r| == |name|
    ensures forall k | 0 <= k < |name| :: r[k] == if SafeNameChar(name[k]) then name[k] else '_'
  {
    if name == [] then []
    else [if SafeNameChar(name[0]) then name[0] else '_'] + Sanitize(name[1..])
  }

  /** Sanitising leaves only safe characters and '_', and is idempotent. */
  lemma SanitizeIdempotent(name: string)
    ensures forall k | 0 <= k < |Sanitize(name)| :: SafeNameChar(Sanitize(name)[k]) || Sanitize(name)[k] == '_'
    ensures Sanitize(Sanitize(name)) == Sanitize(name)
  {
  }

  /** `memories/${userId}/${timestamp}_${sanitizedFileName}` */
  function StoragePath(userId: string, timestamp: nat, name: string): string {
    "memories/" + userId + "/" + NatToString(timestamp) + "_" + Sanitize(name)
  }

  /** Whatever the file is called, the stored object stays directly inside the
      user's folder: nothing after the folder prefix is a '/'. */
  lemma PathStaysInUserFolder(userId: string, timestamp: nat, name: string)
    ensures var prefix := "memories/" + userId + "/";
      var p := StoragePath(userId, timestamp, name);
      |prefix| <= |p| && p[..|prefix|] == prefix
      && forall k | |prefix| <= k < |p| :: p[k] != '/'
  {
    var prefix := "memories/" + userId + "/";
    var stamp := NatToString(timestamp);
    var p := StoragePath(userId, timestamp, name);
    var rest := stamp + "_" + Sanitize(name);
    assert p == prefix + rest;
    forall k | |prefix| <= k < |p| ensures p[k] != '/' {
      assert p[k] == rest[k - |prefix|];
    }
  }

  // ---------------------------------------------------------------------------
  // Text extraction

  const PdfPlaceholder := "[PDF content - text extraction requires additional library]"
  const WordPlaceholder := "[Word document - text extraction requires additional library]"
  const FilePlaceholder := "[File content - unable to extract text automatically]"

  /** `extractTextFromFile`; `decoded` is what `TextDecoder` makes of the bytes. */
  function ExtractTextFromFile(mimeType: string, decoded: string): (r: string)
    ensures mimeType in {"text/plain", "text/markdown", "text/csv"} ==> r == decoded
    ensures mimeType == "application/pdf" ==> r == PdfPlaceholder
    ensures mimeType !in {"text/plain", "text/markdown", "text/csv", "application/pdf"} ==>
      r == (if Contains(mimeType, "wordprocessingml") then WordPlaceholder else FilePlaceholder)
  {
    if mimeType == "text/plain" || mimeType == "text/markdown" || mimeType == "text/csv" then decoded
    else if mimeType == "application/pdf" then PdfPlaceholder
    else if Contains(mimeType, "wordprocessingml") then WordPlaceholder
    else FilePlaceholder
  }

  /** The old binary Word format is accepted but gets the generic placeholder. */
  lemma LegacyWordIsGeneric(decoded: string)
    ensures ExtractTextFromFile("application/msword", decoded) == FilePlaceholder
  {
    var t := "application/msword";
    var w := "wordprocessingml";
    forall i | 0 <= i <= |t| - |w| ensures !OccursAt(t, w, i) {
      assert t[i..i + |w|][0] == t[i] != w[0];
    }
  }

  /** What the vision service reported. */
  datatype Analysis = Analysis(contacts: Option<string>, context: Option<string>,
                               fullText: Option<string>, provider: Option<string>)

  const NoContacts := "No contact information"
  const NoVisualContext := "No visual context"
  const ImagePlaceholder := "[Image analyzed - no specific information extracted]"

  predicate HasContacts(a: Analysis) {
    Truthy(a.contacts) && !Contains(a.contacts.value, NoContacts)
  }

  predicate HasContext(a: Analysis) {
    Truthy(a.context) && !Contains(a.context.value, NoVisualContext)
  }

  const ContactsHeading := "CONTACT INFORMATION:"
  const ContextHeading := "VISUAL CONTEXT:"

  function ImageParts(a: Analysis): (parts: seq<string>)
    ensures |parts| == (if HasContacts(a) then 3 else 0) + (if HasContext(a) then 2 else 0)
  {
    (if HasContacts(a) then [ContactsHeading, a.contacts.value, ""] else [])
    + (if HasContext(a) then [ContextHeading, a.context.value] else [])
  }

  /** The image's text: the sections joined by newlines, else the full text,
      else a placeholder. */
  function ImageText(a: Analysis): (r: string)
    ensures HasContacts(a) && !HasContext(a) ==> r == ContactsHeading + "\n" + a.contacts.value + "\n"
    ensures HasContacts(a) && HasContext(a) ==>
      r == ContactsHeading + "\n" + a.contacts.value + "\n\n" + ContextHeading + "\n" + a.context.value
    ensures !HasContacts(a) && HasContext(a) ==> r == ContextHeading + "\n" + a.context.value
    ensures !HasContacts(a) && !HasContext(a) ==> r == OrElse(NonEmptyOf(a.fullText), ImagePlaceholder)
  {
    var parts := ImageParts(a);
    if |parts| > 0 then
      var nl := "\n";
      if HasContacts(a) && HasContext(a) then
        assert parts == [ContactsHeading, a.contacts.value, "", ContextHeading, a.context.value];
        JoinFive(ContactsHeading, a.contacts.value, "", ContextHeading, a.context.value, nl);
        assert nl + "" + nl == "\n\n";
        Join(parts, nl)
      else if HasContacts(a) then
        assert parts == [ContactsHeading, a.contacts.value, ""];
        JoinThree(ContactsHeading, a.contacts.value, "", nl);
        assert ContactsHeading + nl + a.contacts.value + nl + "" == ContactsHeading + nl + a.contacts.value + nl;
        Join(parts, nl)
      else
        assert parts == [ContextHeading, a.context.value];
        JoinTwo(ContextHeading, a.context.value, nl);
        Join(parts, nl)
    else OrElse(NonEmptyOf(a.fullText), ImagePlaceholder)
  }

  lemma JoinTwo(x: string, y: string, sep: string)
    ensures Join([x, y], sep) == x + sep + y
  {
    assert [x, y][1..] == [y];
  }

  lemma JoinThree(x: string, y: string, z: string, sep: string)
    ensures Join([x, y, z], sep) == x + sep + y + sep + z
  {
    assert [x, y, z][1..] == [y, z];
    JoinTwo(y, z, sep);
  }

  lemma JoinFive(x: string, y: string, z: string, u: string, v: string, sep: string)
    ensures Join([x, y, z, u, v], sep) == x + sep + y + sep + z + sep + u + sep + v
  {
    assert [x, y, z, u, v][1..] == [y, z, u, v];
    assert [y, z, u, v][1..] == [z, u, v];
    JoinThree(z, u, v, sep);
  }

  function NonEmptyOf(s: Option<string>): Option<string> {
    if Truthy(s) then s else None
  }

  /** A failed analysis is reported in the text instead of failing the upload. */
  function ImageFailureText(mimeType: string, message: string): string {
    "[Image: " + mimeType + " - Vision analysis unavailable. Error: " + message + "]"
  }

  /** The memory text: the description paragraph when there is one, then the
      attachment line, then the extracted text. */
  function MemoryContent(description: string, fileName: string, extracted: string): (r: string)
    ensures var tail := "[Attached file: " + fileName + "]\n" + extracted;
      |tail| <= |r| && r[|r| - |tail|..] == tail
      && (description == "" <==> r == tail)
      && (description != "" ==> |description| + 2 <= |r| && r[..|description| + 2] == description + "\n\n")
  {
    var tail := "[Attached file: " + fileName + "]\n" + extracted;
    if description != "" then
      var r := description + "\n\n" + tail;
      assert r[..|description| + 2] == description + "\n\n";
      assert r[|r| - |tail|..] == tail;
      r
    else tail
  }

  // ---------------------------------------------------------------------------
  // POST

  datatype UploadResponse = UploadResponse(
    fileUrl: Option<string>, fileName: string, fileType: string, fileSize: nat,
    extractedText: string, memoryContent: string, context: string, storagePath: Option<string>,
    contacts: Option<string>, visualContext: Option<string>, visionProvider: Option<string>,
    storageUploaded: bool)

  /** The route. `header` is the user-id header; `decoded` what `TextDecoder`
      makes of the bytes; `analysis` the vision service's report or the message
      it failed with; `now` the clock; `downloadUrl` the URL the storage upload
      returned, `None` when it failed. */
  method Post(header: Option<string>, file: Option<UploadFile>, context: Option<string>,
              description: Option<string>, decoded: string, analysis: Result<Analysis, string>,
              now: nat, downloadUrl: Option<string>)
    returns (r: Result<UploadResponse, ErrorResponse>)
    ensures r.Err? <==> RequireAuth(header).Err? || CheckFile(file).Err?
    ensures RequireAuth(header).Err? ==> r == Err(HandleApiError(App(RequireAuth(header).error)))
    ensures RequireAuth(header).Ok? && CheckFile(file).Err? ==> r == Err(HandleApiError(App(CheckFile(file).error)))
    ensures r.Ok? ==>
      var f := file.value;
      && r.value.fileName == f.name && r.value.fileType == f.mimeType && r.value.fileSize == f.size
      && r.value.context == OrElse(context, "personal")
      && r.value.storagePath == Some(StoragePath(header.value, now, f.name))
      && r.value.memoryContent == MemoryContent(OrElse(description, ""), f.name, r.value.extractedText)
      && (r.value.storageUploaded <==> Truthy(downloadUrl))
      && r.value.fileUrl == (if Truthy(downloadUrl) then downloadUrl else None)
    ensures r.Ok? && file.value.mimeType !in ImageTypes ==>
      r.value.extractedText == ExtractTextFromFile(file.value.mimeType, decoded)
      && r.value.contacts.None? && r.value.visualContext.None? && r.value.visionProvider.None?
    ensures r.Ok? && file.value.mimeType in ImageTypes ==>
      r.value.extractedText == (match analysis
                                case Ok(a) => ImageText(a)
                                case Err(m) => ImageFailureText(file.value.mimeType, m))
      && (analysis.Ok? ==> r.value.contacts == analysis.value.contacts && r.value.visualContext == analysis.value.context
                           && r.value.visionProvider == analysis.value.provider)
      && (analysis.Err? ==> r.value.contacts.None? && r.value.visualContext.None? && r.value.visionProvider.None?)
  {
    var auth := RequireAuth(header);
    if auth.Err? {
      return Err(HandleApiError(App(auth.error)));
    }
    var userId := auth.value;
    var ctx := OrElse(context, "personal");
    var desc := OrElse(description, "");
    var checked := CheckFile(file);
    if checked.Err? {
      return Err(HandleApiError(App(checked.error)));
    }
    var f := checked.value;

    var extractedText := "";
    var contacts: Option<string> := None;
    var visualContext: Option<string> := None;
    var provider: Option<string> := None;
    if f.mimeType in ImageTypes {
      match analysis {
        case Ok(a) =>
          extractedText := ImageText(a);
          contacts := a.contacts;
          visualContext := a.context;
          provider := a.provider;
        case Err(message) =>
          extractedText := ImageFailureText(f.mimeType, message);
      }
    } else {
      extractedText := ExtractTextFromFile(f.mimeType, decoded);
    }

    var fileUrl: Option<string> := None;
    var storagePath: Option<string> := None;
    storagePath := Some(StoragePath(userId, now, f.name));
    if Truthy(downloadUrl) {
      fileUrl := downloadUrl;
    }

    var memoryContent := MemoryContent(desc, f.name, extractedText);
    r := Ok(UploadResponse(fileUrl, f.name, f.mimeType, f.size, extractedText, memoryContent, ctx,
                           storagePath, contacts, visualContext, provider, Truthy(fileUrl)));
  }
}
