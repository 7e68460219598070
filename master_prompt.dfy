/** `buildSystemPrompt`: Jessica's base prompt, then the memory context and
    the additional instructions, each under its own heading and each only
    when it is non-empty. The base prompt's text is a parameter. */
module MasterPrompt {
  import opened Common

  datatype PromptContext = PromptContext(memoryContext: Option<string>, additionalInstructions: Option<string>)

  const MemoryHeading := "\n\nRelevant context from memory:\n"
  const InstructionsHeading := "\n\nAdditional instructions:\n"

  /** `context?.memoryContext`, present only when truthy. */
  function MemoryOf(context: Option<PromptContext>): Option<string> {
    if context.Some? then Present(context.value.memoryContext) else None
  }

  /** `context?.additionalInstructions`, present only when truthy. */
  function InstructionsOf(context: Option<PromptContext>): Option<string> {
    if context.Some? then Present(context.value.additionalInstructions) else None
  }

  function Section(heading: string, body: Option<string>): string {
    if body.Some? then heading + body.value else ""
  }

  /** The prompt always starts with the base; the memory section follows it
      exactly when the memory context is non-empty, and the instructions
      section ends it exactly when the instructions are non-empty; nothing
      else is added. */
  function BuildSystemPrompt(base: string, context: Option<PromptContext>): (r: string)
    ensures |r| >= |base| && r[..|base|] == base
    ensures MemoryOf(context).None? && InstructionsOf(context).None? ==> r == base
    ensures MemoryOf(context).Some? ==>
      var m := MemoryOf(context).value;
      |r| >= |base| + |MemoryHeading| + |m| && r[|base|..|base| + |MemoryHeading| + |m|] == MemoryHeading + m
    ensures MemoryOf(context).None? ==> r[|base|..] == Section(InstructionsHeading, InstructionsOf(context))
    ensures InstructionsOf(context).Some? ==>
      var s := InstructionsHeading + InstructionsOf(context).value;
      |r| >= |s| && r[|r| - |s|..] == s
    ensures InstructionsOf(context).None? ==> r == base + Section(MemoryHeading, MemoryOf(context))
    ensures MemoryOf(context).Some? && InstructionsOf(context).Some? ==>
      |r| == |base| + |MemoryHeading| + |MemoryOf(context).value| + |InstructionsHeading| + |InstructionsOf(context).value|
  {
    var withMemory := base + Section(MemoryHeading, MemoryOf(context));
    var r := withMemory + Section(InstructionsHeading, InstructionsOf(context));
    assert r[..|withMemory|] == withMemory;
    assert r[..|base|] == withMemory[..|base|];
    r
  }
}
