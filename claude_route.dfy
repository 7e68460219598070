/** `POST /api/chat/claude`: the storage contexts, the memory context put
    into the system prompt, the bounded tool-use conversation with the model
    and its token totals, and which memory write follows. The model's answers
    and the memory searches are inputs; tools are not available, so every
    well-named tool use gets an error result. */
module ClaudeRoute {
  import opened Common
  import opened AppErrors
  import opened MasterPrompt
  import MemoryService

  const DefaultUserId := "PhyreBug"
  const DefaultContext := "personal"
  const MaxToolIterations: nat := 5
  const NoMemories := "No relevant memories found."
  const CoreHeading := "\n\nCore relationship context:\n"
  const NamespacePrefix := "Memory context namespace: "
  const MaxIterationsMessage := "Maximum tool execution iterations reached."
  const MessageRequired := "Message is required"

  // ---------------------------------------------------------------------------
  // Request shaping

  /** `memoryStorageContexts` as the body gave it: missing (or null), an
      array, or a single value. */
  datatype StorageArg = Absent | ListArg(items: seq<string>) | ScalarArg(value: string)

  /** An array is used as given, a truthy single value becomes a one-element
      list, and anything else falls back to the chat context. */
  function StorageContexts(arg: StorageArg, context: string): (r: seq<string>)
    ensures arg.ListArg? ==> r == arg.items
    ensures arg.ScalarArg? && arg.value != "" ==> r == [arg.value]
    ensures arg.Absent? || (arg.ScalarArg? && arg.value == "") ==> r == [context]
    ensures !arg.ListArg? ==> |r| == 1
  {
    match arg
    case ListArg(items) => items
    case ScalarArg(v) => if v != "" then [v] else [context]
    case Absent => [context]
  }

  /** A memory as a search returns it: whether it has a `memory` property,
      and its `memory` and `content` values. */
  datatype MemoryItem = MemoryItem(hasMemory: bool, memory: Option<string>, content: Option<string>)

  /** `'memory' in m ? m.memory : m.content` */
  function Picked(m: MemoryItem): Option<string> {
    if m.hasMemory then m.memory else m.content
  }

  /** `- ${picked || ''}` */
  function Line(m: MemoryItem): string {
    "- " + OrElse(Picked(m), "")
  }

  /** The line of a memory is dropped exactly when its text is empty. */
  lemma LineKept(m: MemoryItem)
    ensures Line(m) != "- " <==> Truthy(Picked(m))
    ensures Truthy(Picked(m)) ==> Line(m) == "- " + Picked(m).value
  {
    if !Truthy(Picked(m)) {
      assert Line(m) == "- " + "";
    } else {
      assert |Line(m)| > 2;
    }
  }

  /** The lines that survive `.filter(line => line !== '- ')`, in order. */
  function Lines(items: seq<MemoryItem>): (r: seq<string>)
    ensures |r| <= |items|
    ensures forall k | 0 <= k < |r| :: |r[k]| > 2 && r[k][..2] == "- "
  {
    if items == [] then []
    else
      LineKept(items[0]);
      (if Line(items[0]) != "- " then [Line(items[0])] else []) + Lines(items[1..])
  }

  /** Every memory with a non-empty text has its line. */
  lemma {:induction false} LinesOfTruthy(items: seq<MemoryItem>)
    ensures forall m | m in items && Truthy(Picked(m)) :: "- " + Picked(m).value in Lines(items)
  {
    if items != [] {
      LinesOfTruthy(items[1..]);
      LineKept(items[0]);
      forall m | m in items && Truthy(Picked(m)) ensures "- " + Picked(m).value in Lines(items) {
        if m != items[0] {
          assert m in items[1..];
        }
      }
    }
  }

  function CountTruthy(items: seq<MemoryItem>): nat {
    if items == [] then 0 else (if Truthy(Picked(items[0])) then 1 else 0) + CountTruthy(items[1..])
  }

  /** The number of lines is the number of memories with a non-empty text. */
  lemma {:induction false} LinesCount(items: seq<MemoryItem>)
    ensures |Lines(items)| == CountTruthy(items)
  {
    if items != [] {
      LinesCount(items[1..]);
      LineKept(items[0]);
    }
  }

  /** Joining non-empty lines gives "" only when there are none. */
  lemma {:induction false} JoinEmptyIffNoParts(parts: seq<string>, sep: string)
    requires forall k | 0 <= k < |parts| :: parts[k] != ""
    ensures Join(parts, sep) == "" <==> parts == []
  {
    if |parts| > 1 {
      assert |Join(parts, sep)| >= |parts[0]|;
    }
  }

  /** The memory context: the lines of the search results joined by
      newlines, or the fixed notice when the search found nothing. */
  function MemoryContext(items: seq<MemoryItem>): string {
    if |items| > 0 then Join(Lines(items), "\n") else NoMemories
  }

  /** The core-relationship context: the same lines, "" when there are none. */
  function CoreContext(items: seq<MemoryItem>): string {
    if |items| > 0 then Join(Lines(items), "\n") else ""
  }

  /** Found memories whose texts are all empty give an empty memory context
      (and so no memory section in the prompt), not the notice; the core
      context is empty exactly when no core memory has text. */
  lemma ContextEmptiness(items: seq<MemoryItem>)
    ensures MemoryContext(items) == "" <==> |items| > 0 && CountTruthy(items) == 0
    ensures CoreContext(items) == "" <==> CountTruthy(items) == 0
  {
    LinesCount(items);
    JoinEmptyIffNoParts(Lines(items), "\n");
    assert |NoMemories| > 0;
  }

  /** The core section is appended only when the core context is non-empty. */
  function CombinedContext(memoryContext: string, coreContext: string): (r: string)
    ensures coreContext == "" ==> r == memoryContext
    ensures coreContext != "" ==>
      |r| >= |memoryContext| && r[..|memoryContext|] == memoryContext && r[|memoryContext|..] == CoreHeading + coreContext
  {
    if coreContext != "" then memoryContext + CoreHeading + coreContext else memoryContext
  }

  /** The system prompt of the conversation. */
  function SystemPrompt(base: string, memories: seq<MemoryItem>, core: seq<MemoryItem>, context: string): string {
    BuildSystemPrompt(base, Some(PromptContext(Some(CombinedContext(MemoryContext(memories), CoreContext(core))),
                                               Some(NamespacePrefix + context))))
  }

  // ---------------------------------------------------------------------------
  // Tool names

  /** `s.indexOf(c)` */
  function IndexOf(s: string, c: char): (r: int)
    ensures -1 <= r < |s|
    ensures r == -1 <==> c !in s
    ensures r >= 0 ==> s[r] == c && c !in s[..r]
  {
    if s == [] then -1
    else if s[0] == c then 0
    else
      var k := IndexOf(s[1..], c);
      assert s[1..] == s[..][1..];
      if k == -1 then -1
      else
        assert s[..k + 1] == [s[0]] + s[1..][..k];
        k + 1
  }

  /** `tool_method`, split at the first underscore; names with no
      underscore, or whose first underscore is at either end, are skipped. */
  function SplitToolName(name: string): (r: Option<(string, string)>)
    ensures r.Some? ==>
      && r.value.0 != "" && r.value.1 != "" && '_' !in r.value.0
      && name == r.value.0 + "_" + r.value.1
    ensures r.None? <==> '_' !in name || name[0] == '_' || IndexOf(name, '_') == |name| - 1
  {
    var i := IndexOf(name, '_');
    if i == -1 || i == 0 || i == |name| - 1 then None
    else
      var toolName := name[..i];
      var methodName := name[i + 1..];
      assert name == toolName + "_" + methodName;
      if toolName == "" || methodName == "" then None else Some((toolName, methodName))
  }

  /** A tool and a method, joined by an underscore, split back into the two
      when the tool has no underscore of its own. */
  lemma SplitToolNameJoined(toolName: string, methodName: string)
    requires toolName != "" && '_' !in toolName && methodName != ""
    ensures SplitToolName(toolName + "_" + methodName) == Some((toolName, methodName))
  {
    var name := toolName + "_" + methodName;
    assert name[|toolName|] == '_';
    assert name[..|toolName|] == toolName;
    IndexOfFirst(name, '_', |toolName|);
    assert name[|toolName| + 1..] == methodName;
  }

  lemma IndexOfFirst(s: string, c: char, i: nat)
    requires i < |s| && s[i] == c && c !in s[..i]
    ensures IndexOf(s, c) == i
  {
  }

  // ---------------------------------------------------------------------------
  // The conversation

  datatype Block = TextBlock(text: Option<string>) | ToolUseBlock(id: string, name: string) | OtherBlock

  /** One model answer: whether it stopped for tool use, its content, and
      its token usage. */
  datatype Response = Response(toolUse: bool, content: seq<Block>, inputTokens: nat, outputTokens: nat)

  /** A model call answers, or throws. */
  datatype Call = Answered(response: Response) | CallFailed(thrown: Thrown)

  /** The conversation sent to the model: the user's message, the assistant's
      tool-use turns, and one user message per tool result. A tool result is
      an error whose content is the JSON of the tool name, its two parts and
      the note that tools are not implemented. */
  datatype Message =
    | UserText(text: string)
    | AssistantContent(content: seq<Block>)
    | ToolResult(toolUseId: string, tool: string, toolName: string, methodName: string)

  /** `content.filter(item => item.type === 'tool_use')` */
  function ToolUses(content: seq<Block>): seq<Block> {
    if content == [] then []
    else
      var n := |content| - 1;
      ToolUses(content[..n]) + (if content[n].ToolUseBlock? then [content[n]] else [])
  }

  /** The result pushed for one block: one for a well-named tool use, none
      for anything else. */
  function ResultFor(b: Block): seq<Message> {
    if b.ToolUseBlock? && SplitToolName(b.name).Some? then
      var split := SplitToolName(b.name).value;
      [ToolResult(b.id, b.name, split.0, split.1)]
    else []
  }

  /** The results pushed for `blocks`, in order. */
  function ToolResults(blocks: seq<Block>): seq<Message> {
    if blocks == [] then [] else ToolResults(blocks[..|blocks| - 1]) + ResultFor(blocks[|blocks| - 1])
  }

  /** Filtering the tool uses first changes no result. */
  lemma {:induction false} ToolResultsOfToolUses(content: seq<Block>)
    ensures ToolResults(ToolUses(content)) == ToolResults(content)
    decreases |content|
  {
    if content != [] {
      var n := |content| - 1;
      ToolResultsOfToolUses(content[..n]);
      ToolResultsAppend(ToolUses(content[..n]), if content[n].ToolUseBlock? then [content[n]] else []);
      if content[n].ToolUseBlock? {
        assert ToolResults([content[n]]) == ResultFor(content[n]) by {
          assert [content[n]][..0] == [];
        }
      }
    }
  }

  lemma {:induction false} ToolResultsAppend(a: seq<Block>, b: seq<Block>)
    ensures ToolResults(a + b) == ToolResults(a) + ToolResults(b)
    decreases |b|
  {
    if b == [] {
      assert a + b == a;
    } else {
      var n := |b| - 1;
      assert (a + b)[..|a + b| - 1] == a + b[..n];
      ToolResultsAppend(a, b[..n]);
    }
  }

  lemma ToolResultsStep(blocks: seq<Block>, j: nat)
    requires j < |blocks|
    ensures ToolResults(blocks[..j + 1]) == ToolResults(blocks[..j]) + ResultFor(blocks[j])
  {
    assert blocks[..j + 1][..j] == blocks[..j];
  }

  /** Every tool result names a tool without underscores and a method, which
      joined by an underscore give the requested name. */
  lemma {:induction false} ToolResultsWellNamed(blocks: seq<Block>)
    ensures forall m | m in ToolResults(blocks) ::
      && m.ToolResult? && m.toolName != "" && m.methodName != "" && '_' !in m.toolName
      && m.tool == m.toolName + "_" + m.methodName
    decreases |blocks|
  {
    if blocks != [] {
      ToolResultsWellNamed(blocks[..|blocks| - 1]);
    }
  }

  /** The number of well-named tool uses among `blocks`. */
  function WellNamedCount(blocks: seq<Block>): nat {
    if blocks == [] then 0
    else
      var b := blocks[|blocks| - 1];
      WellNamedCount(blocks[..|blocks| - 1]) + (if b.ToolUseBlock? && SplitToolName(b.name).Some? then 1 else 0)
  }

  /** One tool result per well-named tool use. */
  lemma {:induction false} ToolResultsCount(blocks: seq<Block>)
    ensures |ToolResults(blocks)| == WellNamedCount(blocks)
    decreases |blocks|
  {
    if blocks != [] {
      ToolResultsCount(blocks[..|blocks| - 1]);
    }
  }

  /** What one tool-use round adds to the conversation: the assistant's
      content, then the tool results. */
  function Round(content: seq<Block>): seq<Message> {
    [AssistantContent(content)] + ToolResults(ToolUses(content))
  }

  /** `content.find(item => item?.type === 'text')?.text` */
  function FindText(content: seq<Block>): Option<string> {
    if content == [] then None
    else if content[0].TextBlock? then content[0].text
    else FindText(content[1..])
  }

  /** How the conversation ends: with the text of a final answer, with every
      allowed call used on tool rounds, or with a thrown error. */
  datatype Ending = Replied(text: string) | Exhausted | Failed(thrown: Thrown)

  /** How the conversation ended, how many calls were made, and the token totals. */
  datatype Exchange = Exchange(ending: Ending, calls: nat, inputTokens: nat, outputTokens: nat)

  /** The calls from `iteration` on: at most five model calls in all, and
      at least one while any are left. */
  function Converse(calls: seq<Call>, iteration: nat): (e: Exchange)
    requires iteration <= MaxToolIterations <= |calls|
    ensures e.calls <= MaxToolIterations - iteration
    ensures e.calls == 0 <==> iteration == MaxToolIterations
    decreases MaxToolIterations - iteration
  {
    if iteration == MaxToolIterations then Exchange(Exhausted, 0, 0, 0)
    else
      match calls[iteration]
      case CallFailed(t) => Exchange(Failed(t), 1, 0, 0)
      case Answered(r) =>
        if r.toolUse then
          var rest := Converse(calls, iteration + 1);
          Exchange(rest.ending, rest.calls + 1, r.inputTokens + rest.inputTokens, r.outputTokens + rest.outputTokens)
        else Exchange(Replied(OrElse(FindText(r.content), "")), 1, r.inputTokens, r.outputTokens)
  }

  /** The messages the calls from `iteration` on add after the user's: one
      round per tool-use answer. */
  function Transcript(calls: seq<Call>, iteration: nat): seq<Message>
    requires iteration <= MaxToolIterations <= |calls|
    decreases MaxToolIterations - iteration
  {
    if iteration < MaxToolIterations && calls[iteration].Answered? && calls[iteration].response.toolUse then
      Round(calls[iteration].response.content) + Transcript(calls, iteration + 1)
    else []
  }

  /** The transcript is one round per call made, except the last unless it
      was a tool-use answer. */
  lemma {:induction false} TranscriptRounds(calls: seq<Call>, iteration: nat)
    requires iteration <= MaxToolIterations <= |calls|
    ensures var e := Converse(calls, iteration);
      |Transcript(calls, iteration)| >= (if e.ending.Exhausted? then e.calls else e.calls - 1)
    decreases MaxToolIterations - iteration
  {
    if iteration < MaxToolIterations && calls[iteration].Answered? && calls[iteration].response.toolUse {
      TranscriptRounds(calls, iteration + 1);
    }
  }

  function InputOf(c: Call): nat {
    if c.Answered? then c.response.inputTokens else 0
  }

  function OutputOf(c: Call): nat {
    if c.Answered? then c.response.outputTokens else 0
  }

  /** The input and output tokens of the calls in `cs`. */
  function InputTotal(cs: seq<Call>): nat {
    if cs == [] then 0 else InputOf(cs[0]) + InputTotal(cs[1..])
  }

  function OutputTotal(cs: seq<Call>): nat {
    if cs == [] then 0 else OutputOf(cs[0]) + OutputTotal(cs[1..])
  }

  /** The reported totals are the sums over the calls made. */
  lemma {:induction false} TotalsAreSums(calls: seq<Call>, iteration: nat)
    requires iteration <= MaxToolIterations <= |calls|
    ensures var e := Converse(calls, iteration);
      && e.inputTokens == InputTotal(calls[iteration..iteration + e.calls])
      && e.outputTokens == OutputTotal(calls[iteration..iteration + e.calls])
    decreases MaxToolIterations - iteration
  {
    var e := Converse(calls, iteration);
    if iteration < MaxToolIterations && calls[iteration].Answered? && calls[iteration].response.toolUse {
      TotalsAreSums(calls, iteration + 1);
      var made := calls[iteration..iteration + e.calls];
      assert made[0] == calls[iteration];
      assert made[1..] == calls[iteration + 1..iteration + e.calls];
    }
  }

  /** The conversation runs out of iterations exactly when all five calls
      answer with tool use. */
  lemma {:induction false} ExhaustedIffAllToolUse(calls: seq<Call>, iteration: nat)
    requires iteration <= MaxToolIterations <= |calls|
    ensures Converse(calls, iteration).ending.Exhausted? <==>
      forall k | iteration <= k < MaxToolIterations :: calls[k].Answered? && calls[k].response.toolUse
    ensures Converse(calls, iteration).ending.Exhausted? ==> Converse(calls, iteration).calls == MaxToolIterations - iteration
    decreases MaxToolIterations - iteration
  {
    if iteration < MaxToolIterations && calls[iteration].Answered? && calls[iteration].response.toolUse {
      ExhaustedIffAllToolUse(calls, iteration + 1);
    }
  }

  /** Every call before the last answered with tool use, and a conversation
      that did not run out ends as its last call did: with that answer's
      first text, or '' without one, or with the error thrown. */
  lemma {:induction false} EndsAtLastCall(calls: seq<Call>, iteration: nat)
    requires iteration <= MaxToolIterations <= |calls|
    ensures var e := Converse(calls, iteration);
      forall k | iteration <= k < iteration + e.calls - 1 :: calls[k].Answered? && calls[k].response.toolUse
    ensures var e := Converse(calls, iteration);
      !e.ending.Exhausted? ==>
        var last := calls[iteration + e.calls - 1];
        && e.calls > 0
        && (last.CallFailed? ==> e.ending == Failed(last.thrown))
        && (last.Answered? ==> !last.response.toolUse && e.ending == Replied(OrElse(FindText(last.response.content), "")))
    decreases MaxToolIterations - iteration
  {
    if iteration < MaxToolIterations && calls[iteration].Answered? && calls[iteration].response.toolUse {
      EndsAtLastCall(calls, iteration + 1);
    }
  }

  /** What the loop hands back to the route: the final text, the notice
      when the iterations ran out, or the error thrown. */
  function ReplyOf(ending: Ending): Result<string, Thrown> {
    match ending
    case Replied(text) => Ok(text)
    case Exhausted => Ok(MaxIterationsMessage)
    case Failed(t) => Err(t)
  }

  /** One tool-use round of the loop adds its messages and its tokens to
      what the rest of the run does. */
  lemma ToolUseStep(calls: seq<Call>, iteration: nat)
    requires iteration < MaxToolIterations <= |calls|
    requires calls[iteration].Answered? && calls[iteration].response.toolUse
    ensures var r := calls[iteration].response;
      var e := Converse(calls, iteration);
      var rest := Converse(calls, iteration + 1);
      && e.ending == rest.ending
      && e.inputTokens == r.inputTokens + rest.inputTokens && e.outputTokens == r.outputTokens + rest.outputTokens
      && Transcript(calls, iteration) == Round(r.content) + Transcript(calls, iteration + 1)
  {
  }

  /** The part of the run from `iteration` on, after what has been done. */
  predicate Continues(whole: Exchange, inputTokens: nat, outputTokens: nat, rest: Exchange) {
    && whole.ending == rest.ending
    && whole.inputTokens == inputTokens + rest.inputTokens
    && whole.outputTokens == outputTokens + rest.outputTokens
  }

  /** The body of the inner loop: a tool use whose name has an underscore
      neither first nor last gets an error result naming the tool and the
      method; any other is skipped. */
  method ResultOf(toolUse: Block) returns (added: seq<Message>)
    ensures added == ResultFor(toolUse)
  {
    added := [];
    if toolUse.ToolUseBlock? {
      var underscoreIndex := IndexOf(toolUse.name, '_');
      if !(underscoreIndex == -1 || underscoreIndex == 0 || underscoreIndex == |toolUse.name| - 1) {
        var toolName := toolUse.name[..underscoreIndex];
        var methodName := toolUse.name[underscoreIndex + 1..];
        if toolName != "" && methodName != "" {
          added := [ToolResult(toolUse.id, toolUse.name, toolName, methodName)];
        }
      }
    }
  }

  /** The inner loop: one tool result per well-named tool use, in order. */
  method PushToolResults(messages: seq<Message>, toolUses: seq<Block>) returns (pushed: seq<Message>)
    ensures pushed == messages + ToolResults(toolUses)
  {
    pushed := messages;
    var j := 0;
    while j < |toolUses|
      invariant j <= |toolUses|
      invariant pushed == messages + ToolResults(toolUses[..j])
    {
      var toolUse := toolUses[j];
      ToolResultsStep(toolUses, j);
      var added := ResultOf(toolUse);
      pushed := pushed + added;
      j := j + 1;
    }
    assert toolUses[..j] == toolUses;
  }

  /** A tool-use answer: push the assistant's content, then a result for
      each tool use in it. */
  method PushRound(messages: seq<Message>, content: seq<Block>) returns (pushed: seq<Message>)
    ensures pushed == messages + Round(content)
  {
    var toolUses := ToolUses(content);
    pushed := messages + [AssistantContent(content)];
    pushed := PushToolResults(pushed, toolUses);
  }

  /** The loop: call the model at most five times, answering each tool-use
      turn with tool results, and stop at the first answer that is not tool
      use. Returns the messages after the user's, the assistant's message
      and the token totals. */
  method ToolLoop(calls: seq<Call>) returns (appended: seq<Message>, reply: Result<string, Thrown>,
                                             inputTokens: nat, outputTokens: nat)
    requires MaxToolIterations <= |calls|
    ensures var e := Converse(calls, 0);
      && appended == Transcript(calls, 0) && inputTokens == e.inputTokens && outputTokens == e.outputTokens
      && reply == ReplyOf(e.ending)
  {
    appended := [];
    inputTokens := 0;
    outputTokens := 0;
    var assistantMessage := "";
    var iteration: nat := 0;
    ghost var whole := Converse(calls, 0);
    while iteration < MaxToolIterations
      invariant iteration <= MaxToolIterations
      invariant Transcript(calls, 0) == appended + Transcript(calls, iteration)
      invariant Continues(whole, inputTokens, outputTokens, Converse(calls, iteration))
    {
      if calls[iteration].CallFailed? {
        return appended, Err(calls[iteration].thrown), inputTokens, outputTokens;
      }
      var response := calls[iteration].response;
      inputTokens := inputTokens + response.inputTokens;
      outputTokens := outputTokens + response.outputTokens;
      if response.toolUse {
        ToolUseStep(calls, iteration);
        ConcatAssoc(appended, Round(response.content), Transcript(calls, iteration + 1));
        appended := PushRound(appended, response.content);
        iteration := iteration + 1;
      } else {
        assistantMessage := OrElse(FindText(response.content), "");
        return appended, Ok(assistantMessage), inputTokens, outputTokens;
      }
    }
    // The final response is only set on the way out of the loop, so after
    // five tool rounds it is still unset, its text is undefined and the fixed
    // notice is used.
    var text: Option<string> := None;
    assistantMessage := OrElse(text, MaxIterationsMessage);
    reply := Ok(assistantMessage);
  }

  // ---------------------------------------------------------------------------
  // The route

  /** The JSON body: `message`, `context` (undefined when missing) and
      `memoryStorageContexts`. A `message` that is not a string is `None`. */
  datatype ChatBody = ChatBody(message: Option<string>, context: Option<string>, storage: StorageArg)

  /** The memory write the route starts without waiting for it. */
  datatype MemoryWrite =
    | OneContext(messages: seq<MemoryService.ChatMessage>, userId: string, context: string)
    | ManyContexts(messages: seq<MemoryService.ChatMessage>, userId: string, contexts: seq<string>)

  /** The memory search the route makes: `searchMemories(message, {user_id,
      context, limit: 5})`; the core relationship memories are read for the
      same user. */
  datatype SearchRequest = SearchRequest(query: string, userId: string, context: string, limit: nat)

  const SearchLimit: nat := 5

  /** The success body's fields besides `success` and `provider`. */
  datatype ChatReply = ChatReply(message: string, inputTokens: nat, outputTokens: nat)

  /** The write for a conversation: one context uses `addConversation`,
      any other number the multi-context write. */
  function WriteFor(userId: string, message: string, reply: string, contexts: seq<string>): (w: MemoryWrite)
    ensures |contexts| == 1 <==> w.OneContext?
  {
    var messages := [MemoryService.ChatMessage("user", message), MemoryService.ChatMessage("assistant", reply)];
    if |contexts| == 1 then OneContext(messages, userId, contexts[0]) else ManyContexts(messages, userId, contexts)
  }

  /** `POST`: the user id is the authenticated one or 'PhyreBug'; a missing,
      empty or non-string message is a validation error; otherwise the system
      prompt is built from the searches, the tool loop runs, the reply holds
      the assistant's message and the token totals, and the conversation is
      written to the storage contexts. An error thrown by a model call is
      passed to `handleApiError` and nothing is written. */
  method Post(authUserId: Option<string>, body: ChatBody, base: string,
              memories: seq<MemoryItem>, core: seq<MemoryItem>, calls: seq<Call>)
    returns (r: Result<ChatReply, ErrorResponse>, prompt: Option<string>, write: Option<MemoryWrite>,
             search: Option<SearchRequest>)
    requires MaxToolIterations <= |calls|
    ensures !Truthy(body.message) ==>
      r == Err(ErrorResponse(400, MessageRequired, Some("VALIDATION_ERROR"))) && prompt.None? && write.None? && search.None?
    ensures Truthy(body.message) ==>
      var context := if body.context.Some? then body.context.value else DefaultContext;
      var e := Converse(calls, 0);
      && search == Some(SearchRequest(body.message.value, if authUserId.Some? then authUserId.value else DefaultUserId,
                                      context, SearchLimit))
      && prompt == Some(SystemPrompt(base, memories, core, context))
      && (e.ending.Failed? ==> r == Err(HandleApiError(e.ending.thrown)) && write.None?)
      && (!e.ending.Failed? ==>
           var text := if e.ending.Replied? then e.ending.text else MaxIterationsMessage;
           var userId := if authUserId.Some? then authUserId.value else DefaultUserId;
           && r == Ok(ChatReply(text, e.inputTokens, e.outputTokens))
           && write == Some(WriteFor(userId, body.message.value, text, StorageContexts(body.storage, context))))
  {
    var userId := if authUserId.Some? then authUserId.value else DefaultUserId;
    if !Truthy(body.message) {
      return Err(HandleApiError(App(NewValidationError(MessageRequired)))), None, None, None;
    }
    var message := body.message.value;
    var context := if body.context.Some? then body.context.value else DefaultContext;
    var memoryContexts := StorageContexts(body.storage, context);
    search := Some(SearchRequest(message, userId, context, SearchLimit));
    var systemPrompt := SystemPrompt(base, memories, core, context);
    prompt := Some(systemPrompt);
    var appended, reply, inputTokens, outputTokens := ToolLoop(calls);
    if reply.Err? {
      return Err(HandleApiError(reply.error)), prompt, None, search;
    }
    write := Some(WriteFor(userId, message, reply.value, memoryContexts));
    r := Ok(ChatReply(reply.value, inputTokens, outputTokens));
  }
}
