/** The command parser of the Python core: explicit routing commands
    ("use Claude", "switch to Grok"), action commands ("go out and research")
    and natural-language routing hints, combined by `extract_command_intent`.

    Every pattern in the source is a sequence of literal words, `\s+` and at
    most one captured `\w+`. Because literals consist of letters, and a `\w+`
    or `\s+` is always followed by something of a different character class
    (or by the end of the pattern), greedy matching never needs to backtrack;
    the deterministic matcher below therefore finds the same matches as the
    regular-expression engine on ASCII text. */
module CommandParser {
  import opened Common

  datatype Elem = Lit(text: string) | Spaces | Word

  type Pattern = seq<Elem>

  predicate IsWordChar(c: char) {
    IsAlnum(c) || c == '_'
  }

  /** The end of the maximal run, starting at `i`, of spaces (`space`) or of word characters. */
  function RunEnd(s: string, i: nat, space: bool): (j: nat)
    requires i <= |s|
    decreases |s| - i
    ensures i <= j <= |s|
    ensures forall k | i <= k < j :: if space then IsSpace(s[k]) else IsWordChar(s[k])
    ensures j == |s| || !(if space then IsSpace(s[j]) else IsWordChar(s[j]))
  {
    if i < |s| && (if space then IsSpace(s[i]) else IsWordChar(s[i])) then RunEnd(s, i + 1, space)
    else i
  }

  /** A match of `pat` starting exactly at `i`: its end and the text captured by `\w+`, if any. */
  datatype Match = Match(end: nat, capture: Option<string>)

  function MatchAt(s: string, pat: Pattern, i: nat): (r: Option<Match>)
    requires i <= |s|
    decreases pat
    ensures r.Some? ==> i <= r.value.end <= |s|
    ensures r.Some? && r.value.capture.Some? ==>
      var c := r.value.capture.value;
      c != "" && forall k | 0 <= k < |c| :: IsWordChar(c[k])
  {
    if pat == [] then Some(Match(i, None))
    else
      match pat[0]
      case Lit(t) =>
        if OccursAt(s, t, i) then MatchAt(s, pat[1..], i + |t|) else None
      case Spaces =>
        var j := RunEnd(s, i, true);
        if j == i then None else MatchAt(s, pat[1..], j)
      case Word =>
        var j := RunEnd(s, i, false);
        if j == i then None
        else (match MatchAt(s, pat[1..], j)
              case None => None
              case Some(m) => Some(Match(m.end, Some(s[i..j]))))
  }

  /** `re.finditer`: the captures of the successive non-overlapping matches, leftmost first. */
  function FindAll(s: string, pat: Pattern, from: nat): (r: seq<Option<string>>)
    requires from <= |s| + 1
    decreases |s| + 1 - from
  {
    if from > |s| then []
    else
      match MatchAt(s, pat, from)
      case Some(m) => [m.capture] + FindAll(s, pat, if m.end > from then m.end else from + 1)
      case None => FindAll(s, pat, from + 1)
  }

  /** `re.search(...) is not None`. */
  predicate Search(s: string, pat: Pattern, from: nat)
    requires from <= |s| + 1
    decreases |s| + 1 - from
  {
    from <= |s| && (MatchAt(s, pat, from).Some? || Search(s, pat, from + 1))
  }

  /** A pattern made of one literal is found exactly when the literal occurs. */
  lemma {:induction false} SearchLiteral(s: string, t: string, from: nat)
    requires t != "" && from <= |s| + 1
    ensures Search(s, [Lit(t)], from) <==> exists i | from <= i <= |s| - |t| :: OccursAt(s, t, i)
    decreases |s| + 1 - from
  {
    if from <= |s| {
      SearchLiteral(s, t, from + 1);
      assert [Lit(t)][1..] == [];
      assert MatchAt(s, [Lit(t)], from).Some? <==> OccursAt(s, t, from);
      if OccursAt(s, t, from) {
        assert from <= |s| - |t|;
      }
    }
  }

  lemma SearchLiteralIsContains(s: string, t: string)
    requires t != ""
    ensures Search(s, [Lit(t)], 0) <==> Contains(s, t)
  {
    SearchLiteral(s, t, 0);
  }

  // ---------------------------------------------------------------------------
  // Provider names and pattern tables

  const ProviderOrder: seq<string> := ["claude", "grok", "gemini", "local"]

  function ProviderNames(p: string): seq<string> {
    if p == "claude" then ["claude", "anthropic"]
    else if p == "grok" then ["grok", "xai", "x.ai"]
    else if p == "gemini" then ["gemini", "google ai", "google"]
    else if p == "local" then ["local", "jessica", "dolphin", "ollama"]
    else []
  }

  /** The first provider, in table order, whose name list holds the candidate. */
  function ProviderFrom(candidate: string, k: nat): (r: Option<string>)
    requires k <= |ProviderOrder|
    decreases |ProviderOrder| - k
    ensures r.Some? ==> r.value in ProviderOrder[k..]
    ensures r.Some? ==> candidate in ProviderNames(r.value) || candidate == r.value
    ensures r.None? ==> forall p | p in ProviderOrder[k..] :: candidate !in ProviderNames(p) && candidate != p
  {
    if k == |ProviderOrder| then None
    else
      var p := ProviderOrder[k];
      assert ProviderOrder[k..] == [p] + ProviderOrder[k + 1..];
      if candidate in ProviderNames(p) || candidate == p then Some(p)
      else ProviderFrom(candidate, k + 1)
  }

  function ProviderOf(candidate: string): Option<string> {
    ProviderFrom(candidate, 0)
  }

  /** Which provider each alias selects; aliases holding a non-word character
      (`x.ai`, `google ai`) can never be captured by `\w+`. */
  lemma ProviderAliases(c: string)
    ensures ProviderOf(c) == Some("claude") <==> c in {"claude", "anthropic"}
    ensures ProviderOf(c) == Some("grok") <==> c in {"grok", "xai", "x.ai"}
    ensures ProviderOf(c) == Some("gemini") <==> c in {"gemini", "google ai", "google"}
    ensures ProviderOf(c) == Some("local") <==> c in {"local", "jessica", "dolphin", "ollama"}
  {
  }

  const ExplicitPatterns: seq<Pattern> := [
    [Lit("use"), Spaces, Word],
    [Lit("switch"), Spaces, Lit("to"), Spaces, Word],
    [Word, Spaces, Lit("for"), Spaces, Lit("this")],
    [Lit("route"), Spaces, Lit("to"), Spaces, Word],
    [Lit("let"), Spaces, Word, Spaces, Lit("handle")],
    [Word, Spaces, Lit("handle"), Spaces, Lit("this")],
    [Lit("i"), Spaces, Lit("need"), Spaces, Word],
    [Word, Spaces, Lit("analysis")],
    [Word, Spaces, Lit("mode")]
  ]

  const NaturalProviders: seq<string> := ["grok", "claude", "gemini"]

  function NaturalPatterns(p: string): seq<Pattern> {
    if p == "grok" then
      [[Lit("research")], [Lit("web"), Spaces, Lit("search")], [Lit("look"), Spaces, Lit("up")],
       [Lit("find"), Spaces, Lit("out")], [Lit("what's"), Spaces, Lit("happening")],
       [Lit("current"), Spaces, Lit("events")], [Lit("latest"), Spaces, Lit("news")],
       [Lit("investigate")], [Lit("dig"), Spaces, Lit("into")]]
    else if p == "claude" then
      [[Lit("complex"), Spaces, Lit("analysis")], [Lit("deep"), Spaces, Lit("dive")],
       [Lit("strategy")], [Lit("plan")], [Lit("analyze")], [Lit("break"), Spaces, Lit("down")],
       [Lit("comprehensive")], [Lit("detailed")], [Lit("reasoning")],
       [Lit("think"), Spaces, Lit("through")]]
    else if p == "gemini" then
      [[Lit("quick"), Spaces, Lit("lookup")], [Lit("definition")], [Lit("what"), Spaces, Lit("is")],
       [Lit("explain"), Spaces, Lit("briefly")], [Lit("summarize")], [Lit("document")],
       [Lit("pdf")], [Lit("file")]]
    else []
  }

  const ResearchActionPatterns: seq<Pattern> := [
    [Lit("go"), Spaces, Lit("out"), Spaces, Lit("and"), Spaces, Lit("research")],
    [Lit("research"), Spaces, Lit("this")],
    [Lit("research"), Spaces, Lit("that")],
    [Lit("research"), Spaces, Lit("it")]
  ]

  // ---------------------------------------------------------------------------
  // detect_explicit_routing

  /** A captured word that is one of a provider's names. */
  predicate NamesProvider(c: Option<string>) {
    c.Some? && ProviderOf(c.value).Some?
  }

  /** The provider named by the first capture, in order, that names one. */
  function FirstProvider(caps: seq<Option<string>>): (r: Option<string>)
    ensures r.Some? ==> r.value in ProviderOrder
    ensures r.Some? ==> exists i | 0 <= i < |caps| :: caps[i].Some? && ProviderOf(caps[i].value) == r
    ensures r.None? <==> forall i | 0 <= i < |caps| :: !NamesProvider(caps[i])
  {
    if caps == [] then None
    else if NamesProvider(caps[0]) then ProviderOf(caps[0].value)
    else
      var r := FirstProvider(caps[1..]);
      assert r.Some? ==> exists i | 0 <= i < |caps[1..]| :: caps[1..][i].Some? && ProviderOf(caps[1..][i].value) == r;
      assert forall i | 1 <= i < |caps| :: caps[i] == caps[1..][i - 1];
      r
  }

  /** The provider is the one named by the first capture that names one. */
  lemma {:induction false} FirstProviderFirst(caps: seq<Option<string>>, i: nat)
    requires i < |caps| && NamesProvider(caps[i])
    requires forall j | 0 <= j < i :: !NamesProvider(caps[j])
    ensures FirstProvider(caps) == ProviderOf(caps[i].value)
    decreases i
  {
    if i > 0 {
      assert caps[1..][i - 1] == caps[i];
      FirstProviderFirst(caps[1..], i - 1);
    }
  }

  /** The provider each pattern's matches select, pattern by pattern. */
  function PatternProviders(s: string, pats: seq<Pattern>): (provs: seq<Option<string>>)
    ensures |provs| == |pats|
    ensures forall j | 0 <= j < |pats| :: provs[j] == FirstProvider(FindAll(s, pats[j], 0))
  {
    seq(|pats|, j requires 0 <= j < |pats| => FirstProvider(FindAll(s, pats[j], 0)))
  }

  /** Patterns are tried in table order, from the k-th on; within one, its
      matches left to right. */
  function ExplicitFrom(provs: seq<Option<string>>, k: nat): (r: Option<string>)
    requires k <= |provs|
    decreases |provs| - k
    ensures r.Some? ==> exists j | k <= j < |provs| :: provs[j] == r
    ensures r.None? <==> forall j | k <= j < |provs| :: provs[j].None?
  {
    if k == |provs| then None
    else
      match provs[k]
      case Some(p) => Some(p)
      case None => ExplicitFrom(provs, k + 1)
  }

  /** An explicit routing result is one of the four providers. */
  function ExplicitRouting(message: string): (r: Option<string>)
    ensures r.Some? ==> r.value in ProviderOrder
  {
    ExplicitFrom(PatternProviders(Lower(message), ExplicitPatterns), 0)
  }

  /** The provider comes from the first pattern, in table order, whose
      matches name one. */
  lemma {:induction false} ExplicitFromFirst(provs: seq<Option<string>>, k: nat, j: nat)
    requires k <= j < |provs| && provs[j].Some?
    requires forall m | k <= m < j :: provs[m].None?
    ensures ExplicitFrom(provs, k) == provs[j]
    decreases j - k
  {
    if k < j {
      ExplicitFromFirst(provs, k + 1, j);
    }
  }

  /** `detect_explicit_routing`: the message is lowercased and scanned. */
  method DetectExplicitRouting(message: string) returns (provider: Option<string>)
    ensures provider == ExplicitRouting(message)
  {
    provider := ScanPatterns(Lower(message), ExplicitPatterns);
  }

  /** The nested loops of `detect_explicit_routing`. */
  method ScanPatterns(low: string, pats: seq<Pattern>) returns (provider: Option<string>)
    ensures provider == ExplicitFrom(PatternProviders(low, pats), 0)
  {
    ghost var provs := PatternProviders(low, pats);
    var k := 0;
    while k < |pats|
      invariant 0 <= k <= |pats|
      invariant ExplicitFrom(provs, k) == ExplicitFrom(provs, 0)
    {
      var caps := FindAll(low, pats[k], 0);
      assert FirstProvider(caps) == provs[k];
      var j := 0;
      while j < |caps|
        invariant 0 <= j <= |caps|
        invariant FirstProvider(caps[j..]) == FirstProvider(caps)
      {
        assert caps[j..][1..] == caps[j + 1..];
        if caps[j].Some? {
          var p := ProviderOf(caps[j].value);
          if p.Some? {
            return p;
          }
        }
        j := j + 1;
      }
      k := k + 1;
    }
    return None;
  }

  /** Any explicit match came from a captured word that is one of that
      provider's names; conversely, a captured word naming a provider always
      gives a result. */
  lemma {:induction false} ExplicitComesFromCapture(s: string, pats: seq<Pattern>, k: nat)
    requires k <= |pats|
    ensures var r := ExplicitFrom(PatternProviders(s, pats), k);
      && (r.Some? ==> exists j, i | k <= j < |pats| && 0 <= i < |FindAll(s, pats[j], 0)| ::
            FindAll(s, pats[j], 0)[i].Some? && ProviderOf(FindAll(s, pats[j], 0)[i].value) == r)
      && ((exists j, i | k <= j < |pats| && 0 <= i < |FindAll(s, pats[j], 0)| ::
            NamesProvider(FindAll(s, pats[j], 0)[i])) ==> r.Some?)
    decreases |pats| - k
  {
    var provs := PatternProviders(s, pats);
    if k < |pats| && provs[k].None? {
      ExplicitComesFromCapture(s, pats, k + 1);
    }
  }

  // ---------------------------------------------------------------------------
  // detect_natural_routing and detect_action_command

  /** The first pattern index from `i` that `re.search` finds in `s`. */
  predicate AnyFound(s: string, pats: seq<Pattern>)
  {
    exists i | 0 <= i < |pats| :: Search(s, pats[i], 0)
  }

  function NaturalFrom(s: string, k: nat): (r: Option<string>)
    requires k <= |NaturalProviders|
    decreases |NaturalProviders| - k
    ensures r.Some? ==> r.value in NaturalProviders[k..]
  {
    if k == |NaturalProviders| then None
    else if AnyFound(s, NaturalPatterns(NaturalProviders[k])) then Some(NaturalProviders[k])
    else NaturalFrom(s, k + 1)
  }

  function NaturalRouting(message: string): Option<string> {
    NaturalFrom(Lower(message), 0)
  }

  /** The loop over one provider's patterns. */
  method SearchAny(s: string, pats: seq<Pattern>) returns (found: bool)
    ensures found <==> AnyFound(s, pats)
  {
    var i := 0;
    while i < |pats|
      invariant 0 <= i <= |pats|
      invariant forall j | 0 <= j < i :: !Search(s, pats[j], 0)
    {
      if Search(s, pats[i], 0) {
        return true;
      }
      i := i + 1;
    }
    return false;
  }

  /** The nested loops of `detect_natural_routing`. */
  method DetectNaturalRouting(message: string) returns (provider: Option<string>)
    ensures provider == NaturalRouting(message)
  {
    var low := Lower(message);
    var k := 0;
    while k < |NaturalProviders|
      invariant 0 <= k <= |NaturalProviders|
      invariant NaturalFrom(low, k) == NaturalRouting(message)
    {
      var found := SearchAny(low, NaturalPatterns(NaturalProviders[k]));
      if found {
        return Some(NaturalProviders[k]);
      }
      k := k + 1;
    }
    return None;
  }

  /** Provider precedence: Grok's hints beat Claude's, which beat Gemini's. */
  lemma NaturalPrecedence(message: string)
    ensures var s := Lower(message);
      && (NaturalRouting(message) == Some("grok") <==> AnyFound(s, NaturalPatterns("grok")))
      && (NaturalRouting(message) == Some("claude") <==>
            !AnyFound(s, NaturalPatterns("grok")) && AnyFound(s, NaturalPatterns("claude")))
      && (NaturalRouting(message) == Some("gemini") <==>
            !AnyFound(s, NaturalPatterns("grok")) && !AnyFound(s, NaturalPatterns("claude"))
            && AnyFound(s, NaturalPatterns("gemini")))
  {
  }

  datatype Action = Action(kind: string, message: string)

  function ActionCommand(message: string): (r: Option<Action>)
    ensures r.Some? ==> r.value == Action("research", message)
  {
    if AnyFound(Lower(message), ResearchActionPatterns) then Some(Action("research", message)) else None
  }

  /** `detect_action_command`: the action carries the original, not the lowercased, message. */
  method DetectActionCommand(message: string) returns (action: Option<Action>)
    ensures action == ActionCommand(message)
  {
    var found := SearchAny(Lower(message), ResearchActionPatterns);
    action := if found then Some(Action("research", message)) else None;
  }

  // ---------------------------------------------------------------------------
  // extract_command_intent

  datatype CommandType = Explicit | ActionCommandType | Natural | Keyword | Default

  datatype RoutingInfo = RoutingInfo(provider: Option<string>, reason: string, commandType: CommandType)

  datatype CommandIntent = CommandIntent(routing: RoutingInfo, action: Option<Action>)

  /** Explicit commands first, then actions, then natural-language hints, else keyword routing. */
  function ExtractCommandIntent(message: string): (r: CommandIntent)
    ensures r.routing.commandType != Default
    ensures r.routing.commandType == Explicit <==> ExplicitRouting(message).Some?
    ensures r.action.Some? <==> r.routing.commandType == ActionCommandType
    ensures r.routing.commandType == ActionCommandType <==>
      ExplicitRouting(message).None? && ActionCommand(message).Some?
    ensures r.routing.commandType == Natural <==>
      ExplicitRouting(message).None? && ActionCommand(message).None? && NaturalRouting(message).Some?
    ensures r.routing.provider.Some? <==> r.routing.commandType in {Explicit, Natural}
    ensures r.routing.provider.Some? ==> r.routing.provider.value in ProviderOrder
    ensures r.action.Some? ==> r.action.value.message == message
    ensures r.action == (if ExplicitRouting(message).Some? then None else ActionCommand(message))
    ensures r.routing.commandType == Explicit ==> r.routing.provider == ExplicitRouting(message)
    ensures r.routing.commandType == Natural ==> r.routing.provider == NaturalRouting(message)
  {
    match ExplicitRouting(message)
    case Some(p) =>
      CommandIntent(RoutingInfo(Some(p), "Explicit routing command detected: " + p, Explicit), None)
    case None =>
      match ActionCommand(message)
      case Some(a) => CommandIntent(RoutingInfo(None, "", ActionCommandType), Some(a))
      case None =>
        match NaturalRouting(message)
        case Some(p) =>
          CommandIntent(RoutingInfo(Some(p), "Natural language routing detected: " + p, Natural), None)
        case None =>
          CommandIntent(RoutingInfo(None, "No explicit command - using keyword-based routing", Keyword), None)
  }

  // ---------------------------------------------------------------------------
  // Relations between the detectors

  /** Every literal of a pattern that matches somewhere occurs in the text. */
  lemma {:induction false} MatchHasLiterals(s: string, pat: Pattern, i: nat, k: nat)
    requires i <= |s| && MatchAt(s, pat, i).Some?
    requires k < |pat| && pat[k].Lit?
    ensures Contains(s, pat[k].text)
    decreases pat
  {
    match pat[0]
    case Lit(t) =>
      if k == 0 {
        assert OccursAt(s, t, i);
      } else {
        MatchHasLiterals(s, pat[1..], i + |t|, k - 1);
      }
    case Spaces =>
      MatchHasLiterals(s, pat[1..], RunEnd(s, i, true), k - 1);
    case Word =>
      MatchHasLiterals(s, pat[1..], RunEnd(s, i, false), k - 1);
  }

  lemma {:induction false} SearchHasLiterals(s: string, pat: Pattern, from: nat, k: nat)
    requires from <= |s| + 1 && Search(s, pat, from)
    requires k < |pat| && pat[k].Lit?
    ensures Contains(s, pat[k].text)
    decreases |s| + 1 - from
  {
    if MatchAt(s, pat, from).Some? {
      MatchHasLiterals(s, pat, from, k);
    } else {
      SearchHasLiterals(s, pat, from + 1, k);
    }
  }

  /** Every research action also mentions "research", so it would have routed to
      Grok by natural language had the action check not come first. */
  lemma ActionImpliesGrokHint(message: string)
    requires ActionCommand(message).Some?
    ensures NaturalRouting(message) == Some("grok")
  {
    var low := Lower(message);
    var i :| 0 <= i < |ResearchActionPatterns| && Search(low, ResearchActionPatterns[i], 0);
    var k := if i == 0 then 6 else 0;
    SearchHasLiterals(low, ResearchActionPatterns[i], 0, k);
    SearchLiteralIsContains(low, "research");
    assert NaturalPatterns("grok")[0] == [Lit("research")];
    assert AnyFound(low, NaturalPatterns("grok"));
  }
}
