/** The Python core's request routing and prompt assembly: the three-tier
    provider choice, the memory-context block and local prompt built inside the
    chat endpoint, and the start-up configuration check. */
module Routing {
  import opened Common

  const ResearchKeywords: seq<string> :=
    ["research", "look up", "find out", "what's happening", "current",
     "news", "latest", "search", "investigate", "dig into"]

  const ComplexReasoningKeywords: seq<string> :=
    ["analyze", "strategy", "plan", "complex", "detailed", "comprehensive",
     "deep dive", "break down", "explain thoroughly", "compare", "evaluate",
     "business decision", "architecture", "design"]

  const DocumentKeywords: seq<string> :=
    ["summarize", "document", "pdf", "file", "extract", "quick lookup",
     "definition", "what is", "explain briefly"]

  const Providers: set<string> := {"claude", "grok", "gemini", "local"}

  /** (provider, tier, reason) */
  datatype Route = Route(provider: string, tier: int, reason: string)

  const DefaultRoute := Route("local", 1, "Standard task - using local Dolphin")

  function DirectiveRoute(d: string): Option<Route> {
    if d == "claude" then Some(Route("claude", 2, "User requested Claude"))
    else if d == "grok" then Some(Route("grok", 2, "User requested Grok"))
    else if d == "gemini" then Some(Route("gemini", 2, "User requested Gemini"))
    else if d == "local" then Some(Route("local", 2, "User requested local processing"))
    else None
  }

  /** Keyword routing on the lowercased message, research before complex
      reasoning before documents. */
  function KeywordRoute(message: string): Route {
    var m := Lower(message);
    if ContainsAny(m, ResearchKeywords) then Route("grok", 1, "Research task detected - using Grok for web access")
    else if ContainsAny(m, ComplexReasoningKeywords) then Route("claude", 1, "Complex reasoning detected - using Claude")
    else if ContainsAny(m, DocumentKeywords) then Route("gemini", 1, "Document/lookup task - using Gemini")
    else DefaultRoute
  }

  /** `detect_routing_tier`: a truthy directive decides alone; otherwise the keywords do. */
  function DetectRoutingTier(message: string, directive: Option<string>): (r: Route)
    ensures r.provider in Providers
    ensures r.tier == 1 || r.tier == 2
    ensures r.tier == 2 <==> Truthy(directive) && directive.value in Providers
    ensures Truthy(directive) && directive.value in Providers ==> r.provider == directive.value
    ensures Truthy(directive) && directive.value !in Providers ==> r == DefaultRoute
  {
    if Truthy(directive) then
      match DirectiveRoute(directive.value)
      case Some(route) => route
      case None => DefaultRoute
    else KeywordRoute(message)
  }

  /** Without a directive, the first keyword group that occurs in the lowercased
      message decides, in the order research, complex reasoning, documents. */
  lemma KeywordPrecedence(message: string, directive: Option<string>)
    requires !Truthy(directive)
    ensures var r := DetectRoutingTier(message, directive);
      var m := Lower(message);
      && (ContainsAny(m, ResearchKeywords) <==> r.provider == "grok")
      && (r.provider == "claude" <==> !ContainsAny(m, ResearchKeywords) && ContainsAny(m, ComplexReasoningKeywords))
      && (r.provider == "gemini" <==> !ContainsAny(m, ResearchKeywords) && !ContainsAny(m, ComplexReasoningKeywords)
                                      && ContainsAny(m, DocumentKeywords))
      && (r == DefaultRoute <==> !ContainsAny(m, ResearchKeywords + ComplexReasoningKeywords + DocumentKeywords))
  {
  }

  /** The empty message without a directive routes to the local model, tier 1. */
  lemma EmptyMessageIsLocal()
    ensures DetectRoutingTier("", None) == DefaultRoute
  {
    assert Lower("") == "";
    EmptyContainsNoKeyword(ResearchKeywords);
    EmptyContainsNoKeyword(ComplexReasoningKeywords);
    EmptyContainsNoKeyword(DocumentKeywords);
  }

  // ---------------------------------------------------------------------------
  // Memory context block and local prompt (inside `chat()`)

  const MemoryTruncateLength := 200
  const ContextHeader := "\n\nRelevant context from memory:\n"

  /** A recalled memory: only strings are used; anything else is skipped. */
  datatype MemoryItem = Text(s: string) | NotText

  function Truncate(s: string, n: nat): (r: string)
    ensures |r| <= n && |r| <= |s| && r == s[..|r|]
    ensures |s| <= n ==> r == s
  {
    if |s| <= n then s else s[..n]
  }

  function Take<T>(xs: seq<T>, n: nat): (r: seq<T>)
    ensures |r| <= n && |r| <= |xs| && r == xs[..|r|]
    ensures |xs| >= n ==> |r| == n
  {
    if |xs| <= n then xs else xs[..n]
  }

  /** One context line: "- " + at most 200 characters + "...\n". */
  function ItemLine(m: MemoryItem): string {
    match m
    case Text(s) => "- " + Truncate(s, MemoryTruncateLength) + "...\n"
    case NotText => ""
  }

  function Lines(ms: seq<MemoryItem>): string {
    if ms == [] then "" else Lines(ms[..|ms| - 1]) + ItemLine(ms[|ms| - 1])
  }

  /** The context text: empty when both recall lists are empty, otherwise the
      header followed by at most two local and at most two cloud items. */
  function ContextBlock(local: seq<MemoryItem>, cloud: seq<MemoryItem>): string {
    if local == [] && cloud == [] then ""
    else ContextHeader + Lines(Take(local, 2)) + Lines(Take(cloud, 2))
  }

  lemma {:induction false} LinesLength(ms: seq<MemoryItem>)
    ensures |Lines(ms)| <= |ms| * (MemoryTruncateLength + 6)
  {
    if ms != [] {
      LinesLength(ms[..|ms| - 1]);
    }
  }

  /** The block is empty exactly when nothing was recalled, and it never holds
      more than the header and four truncated lines. */
  lemma ContextBlockBounds(local: seq<MemoryItem>, cloud: seq<MemoryItem>)
    ensures ContextBlock(local, cloud) == "" <==> local == [] && cloud == []
    ensures |ContextBlock(local, cloud)| <= |ContextHeader| + 4 * (MemoryTruncateLength + 6)
  {
    LinesLength(Take(local, 2));
    LinesLength(Take(cloud, 2));
  }

  /** Only string items contribute: a list of non-strings adds nothing. */
  lemma {:induction false} NonTextSkipped(ms: seq<MemoryItem>)
    requires forall i | 0 <= i < |ms| :: ms[i].NotText?
    ensures Lines(ms) == ""
  {
    if ms != [] {
      NonTextSkipped(ms[..|ms| - 1]);
    }
  }

  /** One of the two `for mem in ...[:2]` loops: appends each item's line. */
  method AppendLines(prefix: string, ms: seq<MemoryItem>) returns (text: string)
    ensures text == prefix + Lines(ms)
  {
    text := prefix;
    var i := 0;
    while i < |ms|
      invariant 0 <= i <= |ms|
      invariant text == prefix + Lines(ms[..i])
    {
      assert ms[..i + 1][..i] == ms[..i];
      ConcatAssoc(prefix, Lines(ms[..i]), ItemLine(ms[i]));
      text := text + ItemLine(ms[i]);
      i := i + 1;
    }
    assert ms[..i] == ms;
  }

  /** The context assembly in `chat()`. */
  method BuildContextText(local: seq<MemoryItem>, cloud: seq<MemoryItem>) returns (text: string)
    ensures text == ContextBlock(local, cloud)
  {
    text := "";
    if local != [] || cloud != [] {
      text := AppendLines(ContextHeader, Take(local, 2));
      text := AppendLines(text, Take(cloud, 2));
    }
  }

  /** `full_prompt` for the local model. */
  function FullPrompt(master: string, context: string, message: string): (r: string)
    ensures |r| == |master| + |context| + |message| + 17
    ensures r[..|master|] == master
    ensures r[|master|..|master| + |context|] == context
    ensures r[|master| + |context|..|master| + |context| + 8] == "\n\nUser: "
    ensures r[|r| - |message| - 9..] == message + "\nJessica:"
  {
    master + context + "\n\nUser: " + message + "\nJessica:"
  }

  // ---------------------------------------------------------------------------
  // validate_environment

  /** True iff at least one chat provider key (Anthropic, xAI, Google) is set. */
  function ValidateEnvironment(anthropic: Option<string>, xai: Option<string>,
                               google: Option<string>, mem0: Option<string>): (ok: bool)
    ensures ok <==> Truthy(anthropic) || Truthy(xai) || Truthy(google)
  {
    Truthy(anthropic) || Truthy(xai) || Truthy(google)
  }

  /** A memory key alone never makes the configuration valid. */
  lemma Mem0AloneInsufficient(mem0: Option<string>)
    ensures !ValidateEnvironment(None, None, None, mem0)
  {
  }
}
