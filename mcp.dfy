/** The MCP endpoint: the `ExecuteToolSchema` predicates, the `safeParams`
    merge that pins the caller's user id, and the two handlers as they stand
    (tool listing is empty, execution always fails before reading the body). */
module Mcp {
  import opened Common
  import opened JsValues
  import opened AppErrors
  import opened Auth

  const MaxNameLength := 50
  const MaxParamsLength := 10000
  const SingleUser := "PhyreBug"
  const NotImplemented := "MCP module not yet implemented"

  /** `z.string().min(1).max(50).regex(/^[a-zA-Z0-9_-]+$/)` */
  predicate ValidName(v: Value) {
    v.Str? && 1 <= |v.s| <= MaxNameLength && forall k | 0 <= k < |v.s| :: IsIdentChar(v.s[k])
  }

  /** Tool and method names obey exactly the user-id format. */
  lemma ValidNameIsUserIdFormat(s: string)
    ensures ValidName(Str(s)) <==> ValidUserId(s)
  {
  }

  /** The `params` refinement. `stringified` is the length of
      `JSON.stringify(params)`, or `None` when serialising throws. */
  predicate ParamsOk(params: Value, stringified: Option<nat>) {
    if params.Undefined? || params.Null? then true
    else if !IsObjectType(params) then false
    else stringified.Some? && stringified.value < MaxParamsLength
  }

  lemma ParamsRules(params: Value, stringified: Option<nat>)
    ensures (params.Undefined? || params.Null?) ==> ParamsOk(params, stringified)
    ensures params.Str? || params.Num? || params.Bool? || params.OtherValue? ==> !ParamsOk(params, stringified)
    ensures params.Obj? ==> (ParamsOk(params, stringified) <==> stringified.Some? && stringified.value < 10000)
  {
  }

  datatype Validated = Validated(tool: string, methodName: string, params: Value)

  /** `ExecuteToolSchema.parse(body)`: a Zod failure becomes a ValidationError
      whose message joins Zod's issue messages (`issues`, not modelled). */
  function ParseRequest(tool: Value, methodName: Value, params: Value, stringified: Option<nat>, issues: string)
    : (r: Result<Validated, AppError>)
    ensures r.Ok? <==> ValidName(tool) && ValidName(methodName) && ParamsOk(params, stringified)
    ensures r.Ok? ==> r.value == Validated(tool.s, methodName.s, params)
    ensures r.Err? ==> r.error == NewValidationError("Invalid request: " + issues)
  {
    if ValidName(tool) && ValidName(methodName) && ParamsOk(params, stringified) then
      Ok(Validated(tool.s, methodName.s, params))
    else
      Err(NewValidationError("Invalid request: " + issues))
  }

  /** JavaScript truthiness of a value (`NaN` and `-0` are not distinguished). */
  predicate ValueTruthy(v: Value) {
    match v
    case Undefined => false
    case Null => false
    case Bool(b) => b
    case Num(n) => n.Finite? && n.r != 0.0
    case Str(s) => s != ""
    case _ => true
  }

  /** `params && typeof params === 'object' ? { ...params, userId } : { userId }` */
  function SafeParams(params: Value, userId: string): (r: seq<(string, Value)>)
    ensures Lookup(r, "userId") == Some(Str(userId))
    ensures ValueTruthy(params) && IsObjectType(params) ==>
      forall k | k != "userId" :: Lookup(r, k) == Lookup(SpreadFields(params), k)
    ensures !(ValueTruthy(params) && IsObjectType(params)) ==> r == [("userId", Str(userId))]
  {
    if ValueTruthy(params) && IsObjectType(params) then SetField(SpreadFields(params), "userId", Str(userId))
    else [("userId", Str(userId))]
  }

  /** Whatever the client sends as `params.userId`, the tool sees the
      authenticated id, and the keys are the client's plus at most `userId`. */
  lemma ClientCannotChooseUserId(params: Value, userId: string, forged: string)
    requires params.Obj? && Lookup(params.fields, "userId") == Some(Str(forged))
    ensures Lookup(SafeParams(params, userId), "userId") == Some(Str(userId))
    ensures Keys(SafeParams(params, userId)) == Keys(params.fields)
  {
    assert "userId" in Keys(params.fields);
  }

  /** The POST handler's user id: the authenticated one, else the single-user
      constant. */
  function PostUserId(header: Option<string>): (u: string)
    ensures RequireAuth(header).Ok? ==> u == header.value
    ensures RequireAuth(header).Err? ==> u == SingleUser
    ensures ValidUserId(u)
  {
    match RequireAuth(header)
    case Ok(id) => id
    case Err(_) =>
      assert forall k | 0 <= k < |SingleUser| :: IsIdentChar(SingleUser[k]);
      SingleUser
  }

  datatype ListResponse = ListResponse(success: bool, tools: seq<string>, message: string)

  /** GET: authentication failures are ignored and the tool list is empty. */
  function ListTools(header: Option<string>): (r: ListResponse)
    ensures r.success && r.tools == [] && r.message == NotImplemented
  {
    ListResponse(true, [], NotImplemented)
  }

  /** POST as written: the plain `Error` thrown before the body is read
      reaches `handleApiError`, whatever the caller sent. */
  function ExecuteTool(header: Option<string>): (r: ErrorResponse)
    ensures r.status == 500 && r.error == NotImplemented && r.code == Some("INTERNAL_ERROR")
  {
    HandleApiError(Plain(NotImplemented, None, None, NoCode, None))
  }
}
