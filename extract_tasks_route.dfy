/** `POST /api/extract-tasks`: picks the transcript out of the request body
    and classifies what the Groq extraction threw. The extraction itself is
    an input: the fields it returned, or the value it threw. */
module ExtractTasksRoute {
  import opened Common
  import opened AppErrors
  import opened JsValues

  const GroqApi := "Groq API"
  const InvalidKey := "Invalid API key. Please check your GROQ_API_KEY environment variable."
  const RateLimited := "Rate limit exceeded. Please try again later."
  const NoTranscription := "No transcription provided"

  /** `body?.transcript || body?.transcription`, absent when both are empty. */
  function Transcript(transcript: Option<string>, transcription: Option<string>): (r: Option<string>)
    ensures r.Some? <==> Truthy(transcript) || Truthy(transcription)
    ensures Truthy(transcript) ==> r == transcript
    ensures !Truthy(transcript) && Truthy(transcription) ==> r == transcription
  {
    if Truthy(transcript) then transcript else Present(transcription)
  }

  /** The catch block: validation and external-service errors pass through;
      only the `status` property of other errors is consulted. */
  function ClassifyError(t: Thrown): (r: ErrorResponse)
    ensures IsValidationError(t) || IsExternalServiceError(t) ==> r == HandleApiError(t)
    ensures !t.App? && t.Plain? && t.status == Some(401) ==>
      r == HandleApiError(App(NewExternalServiceError(GroqApi, InvalidKey)))
    ensures !t.App? && t.Plain? && t.status == Some(429) ==>
      r == HandleApiError(App(NewExternalServiceError(GroqApi, RateLimited)))
    ensures !(t.Plain? && t.status in {Some(401), Some(429)}) ==> r == HandleApiError(t)
  {
    if IsValidationError(t) || IsExternalServiceError(t) then HandleApiError(t)
    else if t.Plain? && t.status == Some(401) then HandleApiError(App(NewExternalServiceError(GroqApi, InvalidKey)))
    else if t.Plain? && t.status == Some(429) then HandleApiError(App(NewExternalServiceError(GroqApi, RateLimited)))
    else HandleApiError(t)
  }

  /** Unlike the transcription route, a status carried only under
      `response.status` is not recognised: such an error gets the generic 500. */
  lemma ResponseStatusIgnored(message: string, code: ErrorCode)
    ensures ClassifyError(Plain(message, None, Some(401), code, None)).status == 500
  {
  }

  datatype Outcome = Extracted(result: seq<(string, Json)>) | Threw(thrown: Thrown)

  /** `POST`: the extraction runs only when a transcript is present; its
      result is spread after `success: true`. */
  function ExtractTasks(transcript: Option<string>, transcription: Option<string>, outcome: Outcome): (r: Result<seq<(string, Json)>, ErrorResponse>)
    ensures Transcript(transcript, transcription).None? ==>
      r == Err(ErrorResponse(400, NoTranscription, Some("VALIDATION_ERROR")))
    ensures Transcript(transcript, transcription).Some? && outcome.Threw? ==> r == Err(ClassifyError(outcome.thrown))
    ensures Transcript(transcript, transcription).Some? && outcome.Extracted? ==>
      r.Ok? && forall k | k != "success" :: Lookup(r.value, k) == Lookup(SpreadInto([], outcome.result), k)
    ensures r.Ok? ==> Lookup(r.value, "success").Some?
  {
    if Transcript(transcript, transcription).None? then
      Err(HandleApiError(App(NewValidationError(NoTranscription))))
    else
      match outcome
      case Threw(t) => Err(ClassifyError(t))
      case Extracted(result) => Ok(Spread(result))
  }

  /** `{ success: true, ...result }` */
  function Spread(result: seq<(string, Json)>): (r: seq<(string, Json)>)
    ensures Lookup(r, "success").Some?
    ensures forall k | k != "success" :: Lookup(r, k) == Lookup(SpreadInto([], result), k)
    ensures "success" !in Keys(result) ==> Lookup(r, "success") == Some(JBool(true))
  {
    SpreadSuccess(result);
    SpreadInto([("success", JBool(true))], result)
  }

  lemma {:induction false} SpreadSuccess(result: seq<(string, Json)>)
    ensures Lookup(SpreadInto([("success", JBool(true))], result), "success").Some?
    ensures forall k | k != "success" ::
      Lookup(SpreadInto([("success", JBool(true))], result), k) == Lookup(SpreadInto([], result), k)
    ensures "success" !in Keys(result) ==> Lookup(SpreadInto([("success", JBool(true))], result), "success") == Some(JBool(true))
  {
    var a: seq<(string, Json)> := [("success", JBool(true))];
    SpreadAgree(a, [], result);
    assert Lookup(a, "success").Some?;
  }

  /** Spreading the same fields onto two objects leaves them agreeing on
      every key they agreed on before, and on every key the fields set. */
  lemma {:induction false} SpreadAgree(a: seq<(string, Json)>, b: seq<(string, Json)>, fields: seq<(string, Json)>)
    ensures forall k | Lookup(a, k) == Lookup(b, k) :: Lookup(SpreadInto(a, fields), k) == Lookup(SpreadInto(b, fields), k)
    ensures forall k | k in Keys(fields) :: Lookup(SpreadInto(a, fields), k) == Lookup(SpreadInto(b, fields), k)
    ensures forall k | k !in Keys(fields) :: Lookup(SpreadInto(a, fields), k) == Lookup(a, k)
    ensures forall k | k in Keys(fields) :: Lookup(SpreadInto(a, fields), k).Some?
    decreases fields
  {
    if fields != [] {
      var a2 := SetField(a, fields[0].0, fields[0].1);
      var b2 := SetField(b, fields[0].0, fields[0].1);
      SpreadAgree(a2, b2, fields[1..]);
      assert Keys(fields) == [fields[0].0] + Keys(fields[1..]);
    }
  }
}
