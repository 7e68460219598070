/** `POST /api/transcribe`: the file checks, the shaping of the Whisper reply,
    and the classification of provider errors. The transcription call is an
    input (its reply or what it threw), and so is the two-decimal rendering
    of a size in megabytes (`toFixed(2)`). */
module TranscribeRoute {
  import opened Common
  import opened AppErrors

  const MaxFileSize: nat := 25 * 1024 * 1024
  const GroqApi := "Groq API"
  const InvalidKey := "Invalid API key. Please check your GROQ_API_KEY environment variable."
  const RateLimited := "Rate limit exceeded. Please try again later."

  function TooLargeMessage(megabytes: string): string {
    "File is too large (" + megabytes + "MB). Maximum file size is 25MB. "
    + "Please compress your audio file or split it into smaller segments."
  }

  /** What `transcribeAudio` produced: its verbose JSON (possibly null), or
      the value it threw. */
  datatype Outcome = Verbose(text: Option<string>, language: Option<string>) | NoVerbose | Threw(thrown: Thrown)

  datatype Reply = Transcribed(transcription: string, language: Option<string>) | Failed(response: ErrorResponse)

  /** `status || response?.status || code`, compared with `===` against
      numbers: a string code never equals a status. */
  function ProviderStatus(t: Thrown): (r: Option<int>)
    ensures t.Plain? && t.status.Some? && t.status.value != 0 ==> r == t.status
    ensures (t.Plain? && !(t.status.Some? && t.status.value != 0)
             && t.responseStatus.Some? && t.responseStatus.value != 0) ==> r == t.responseStatus
    ensures !t.Plain? ==> r.None?
  {
    match t
    case Plain(_, status, responseStatus, code, _) =>
      if status.Some? && status.value != 0 then status
      else if responseStatus.Some? && responseStatus.value != 0 then responseStatus
      else if code.NumCode? then Some(code.n)
      else None
    case _ => None
  }

  /** The provider's size failure: status 413 or a message naming it. */
  predicate TooLargeError(t: Thrown) {
    ProviderStatus(t) == Some(413) || MessageContains(t, "413") || MessageContains(t, "Request Entity Too Large")
  }

  /** The catch block: validation errors pass through; 401, too-large and
      429 become Groq service errors, in that order; anything else is
      handled generically. */
  function ClassifyError(t: Thrown, megabytes: int -> string): (r: ErrorResponse)
    ensures IsValidationError(t) ==> r == HandleApiError(t)
    ensures !IsValidationError(t) && ProviderStatus(t) == Some(401) ==>
      r == HandleApiError(App(NewExternalServiceError(GroqApi, InvalidKey)))
    ensures !IsValidationError(t) && ProviderStatus(t) != Some(401) && TooLargeError(t) ==>
      r == HandleApiError(App(NewExternalServiceError(GroqApi, TooLargeMessage(SizeText(t, megabytes)))))
    ensures !IsValidationError(t) && ProviderStatus(t) != Some(401) && !TooLargeError(t) && ProviderStatus(t) == Some(429) ==>
      r == HandleApiError(App(NewExternalServiceError(GroqApi, RateLimited)))
    ensures !IsValidationError(t) && ProviderStatus(t) !in {Some(401), Some(429)} && !TooLargeError(t) ==>
      r == HandleApiError(t)
  {
    if IsValidationError(t) then HandleApiError(t)
    else
      var status := ProviderStatus(t);
      if status == Some(401) then HandleApiError(App(NewExternalServiceError(GroqApi, InvalidKey)))
      else if TooLargeError(t) then
        HandleApiError(App(NewExternalServiceError(GroqApi, TooLargeMessage(SizeText(t, megabytes)))))
      else if status == Some(429) then HandleApiError(App(NewExternalServiceError(GroqApi, RateLimited)))
      else HandleApiError(t)
  }

  /** The size attached to the error, when non-zero. */
  function FileSizeOf(t: Thrown): Option<int> {
    if t.Plain? && t.fileSize.Some? && t.fileSize.value != 0 then t.fileSize else None
  }

  /** The size the message reports: the megabytes, to two decimals, when the
      error carries a non-zero size, and 'unknown' otherwise. */
  function SizeText(t: Thrown, megabytes: int -> string): string {
    if FileSizeOf(t).Some? then megabytes(FileSizeOf(t).value) else "unknown"
  }

  /** A 413 from the provider that carries no size, or a size of 0, reports
      the size as 'unknown'. */
  lemma UnknownSizeReported(message: string, responseStatus: Option<int>, code: ErrorCode, fileSize: Option<int>,
                            megabytes: int -> string)
    requires fileSize.None? || fileSize == Some(0)
    ensures var r := ClassifyError(Plain(message, Some(413), responseStatus, code, fileSize), megabytes);
      r.status == 502 && r.code == Some("EXTERNAL_SERVICE_ERROR")
      && r.error == "[" + GroqApi + "] " + TooLargeMessage("unknown")
  {
    var t := Plain(message, Some(413), responseStatus, code, fileSize);
    assert SizeText(t, megabytes) == "unknown";
    var e := NewExternalServiceError(GroqApi, TooLargeMessage("unknown"));
    assert ClassifyError(t, megabytes) == HandleApiError(App(e));
  }

  /** Every classified provider error is a 502 from the Groq service, and
      other errors keep the generic status. */
  lemma ClassifiedStatuses(t: Thrown, megabytes: int -> string)
    ensures var r := ClassifyError(t, megabytes);
      && (IsValidationError(t) ==> r.status == t.err.statusCode)
      && (!IsValidationError(t) && (ProviderStatus(t) in {Some(401), Some(429)} || TooLargeError(t)) ==>
            r.status == 502 && r.code == Some("EXTERNAL_SERVICE_ERROR"))
      && (!t.App? && !(ProviderStatus(t) in {Some(401), Some(429)} || TooLargeError(t)) ==> r.status == 500)
  {
    var r := ClassifyError(t, megabytes);
    if !IsValidationError(t) {
      var status := ProviderStatus(t);
      var message := if status == Some(401) then InvalidKey
                     else if TooLargeError(t) then TooLargeMessage(SizeText(t, megabytes))
                     else RateLimited;
      if status == Some(401) || TooLargeError(t) || status == Some(429) {
        var e := NewExternalServiceError(GroqApi, message);
        assert r == HandleApiError(App(e));
      } else {
        assert r == HandleApiError(t);
      }
    }
  }

  /** `POST`: the audio file is present and at most 25 MiB, or the request
      fails before any transcription; a reply is shaped with an empty
      transcription and a null language when absent. */
  function Transcribe(fileSize: Option<nat>, megabytes: int -> string, outcome: Outcome): (r: Reply)
    ensures fileSize.None? ==> r == Failed(ErrorResponse(400, "No audio file provided", Some("VALIDATION_ERROR")))
    ensures fileSize.Some? && fileSize.value > MaxFileSize ==>
      r == Failed(ErrorResponse(400, TooLargeMessage(megabytes(fileSize.value)), Some("VALIDATION_ERROR")))
    ensures fileSize.Some? && fileSize.value <= MaxFileSize && outcome.Verbose? ==>
      r == Transcribed(OrElse(outcome.text, ""), Present(outcome.language))
    ensures fileSize.Some? && fileSize.value <= MaxFileSize && outcome.NoVerbose? ==> r == Transcribed("", None)
    ensures fileSize.Some? && fileSize.value <= MaxFileSize && outcome.Threw? ==>
      r == Failed(ClassifyError(outcome.thrown, megabytes))
  {
    if fileSize.None? then Failed(HandleApiError(App(NewValidationError("No audio file provided"))))
    else if fileSize.value > MaxFileSize then
      Failed(HandleApiError(App(NewValidationError(TooLargeMessage(megabytes(fileSize.value))))))
    else
      match outcome
      case Verbose(text, language) => Transcribed(OrElse(text, ""), Present(language))
      case NoVerbose => Transcribed("", None)
      case Threw(t) => Failed(ClassifyError(t, megabytes))
  }

  /** A file over the limit is refused whatever the provider would have
      answered: the transcription is never attempted. */
  lemma OversizeNeverTranscribed(size: nat, megabytes: int -> string, a: Outcome, b: Outcome)
    requires size > MaxFileSize
    ensures Transcribe(Some(size), megabytes, a) == Transcribe(Some(size), megabytes, b)
    ensures Transcribe(Some(size), megabytes, a).Failed? && Transcribe(Some(size), megabytes, a).response.status == 400
  {
  }

  /** Exactly 25 MiB is accepted. */
  lemma SizeLimitInclusive(megabytes: int -> string)
    ensures !Transcribe(Some(MaxFileSize), megabytes, NoVerbose).Failed?
  {
  }
}
