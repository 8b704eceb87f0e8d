/** The `task` tool: validates the sub-agent kind, picks its system prompt and
    tool set, runs a fresh sub-agent on a one-message conversation under a
    recursion limit, and turns the outcome (a report, or a failure) into text.
    The sub-agent run itself is opaque: a parameter returning how it ended. */
module Delegate {
  import opened PyStr
  import opened Graph
  import opened Tools

  /** The system prompts of the three sub-agent kinds (constant prose). */
  datatype Prompts = Prompts(generalPurpose: string, codeWriter: string, projectInit: string)

  const ValidTypes: seq<string> := ["general-purpose", "code-writer", "project-init"]

  /** The bound on the sub-agent run handed to the graph. */
  const RecursionLimit: nat := 50

  /** How a sub-agent run ended: with its final messages, by exceeding the
      graph's recursion limit, by exhausting Python's call stack, or with any
      other exception. */
  datatype RunOutcome =
    | Finished(messages: seq<Message>)
    | GraphRecursion
    | StackOverflow
    | Raised(typeName: string, message: string)

  /** The sub-agent run: the graph configuration, the starting conversation and
      the recursion limit. */
  type SubagentRun = (Config, seq<Message>, nat) -> RunOutcome

  /** The prompt and tool set of a sub-agent kind; unknown kinds have none, so
      the source's "not implemented" branch can never be taken. */
  function Select(subagentType: string, prompts: Prompts): (c: Option<Config>)
    ensures c.Some? <==> subagentType in ValidTypes
  {
    if subagentType == "general-purpose" then Some(Config(prompts.generalPurpose, ReadOnlyTools))
    else if subagentType == "code-writer" then Some(Config(prompts.codeWriter, CodeWriterTools))
    else if subagentType == "project-init" then Some(Config(prompts.projectInit, ProjectInitTools))
    else None
  }

  /** Each kind gets its own tool set: the selection can be read back from the
      tools alone, and only code-writer can edit files. */
  lemma {:induction false} SelectionDistinct(s: string, t: string, prompts: Prompts)
    requires s in ValidTypes && t in ValidTypes
    ensures Select(s, prompts).value.tools == Select(t, prompts).value.tools ==> s == t
    ensures "edit_file" in Select(s, prompts).value.tools <==> s == "code-writer"
    ensures "write_file" in Select(s, prompts).value.tools <==> s != "general-purpose"
  {
    assert ReadOnlyTools[1] == "ls" != CodeWriterTools[1];
    assert ReadOnlyTools[1] == "ls" != ProjectInitTools[1];
    assert |CodeWriterTools| != |ProjectInitTools|;
  }

  /** The content of the last message whose content is not empty. */
  function LastReport(messages: seq<Message>): Option<string> {
    if |messages| == 0 then None
    else
      var last := messages[|messages| - 1];
      if |last.content| > 0 then Some(last.content)
      else LastReport(messages[..|messages| - 1])
  }

  /** The report is the non-empty content of a message that only messages
      without content follow; there is none exactly when no message has content. */
  lemma {:induction false} LastReportIsLast(messages: seq<Message>)
    ensures var r := LastReport(messages);
      r.Some? ==>
        && |r.value| > 0
        && exists k :: 0 <= k < |messages| && messages[k].content == r.value
             && forall j :: k < j < |messages| ==> messages[j].content == ""
    ensures LastReport(messages).None? <==> forall k :: 0 <= k < |messages| ==> messages[k].content == ""
  {
    if |messages| > 0 {
      var n := |messages| - 1;
      if |messages[n].content| == 0 {
        var init := messages[..n];
        LastReportIsLast(init);
        assert forall k :: 0 <= k < n ==> init[k] == messages[k];
        var r := LastReport(init);
        if r.Some? {
          var k :| 0 <= k < n && init[k].content == r.value
             && forall j :: k < j < n ==> init[j].content == "";
          assert messages[k].content == r.value;
          assert forall j :: k < j < |messages| ==> messages[j].content == "";
        }
      } else {
        assert messages[n].content == LastReport(messages).value;
      }
    }
  }

  /** The scan `for msg in reversed(final_messages)`, stopping at the first
      message with content. */
  method ScanReport(messages: seq<Message>) returns (r: Option<string>)
    ensures r == LastReport(messages)
  {
    var i := |messages|;
    assert messages[..i] == messages;
    while i > 0
      invariant 0 <= i <= |messages|
      invariant LastReport(messages) == LastReport(messages[..i])
    {
      LastReportStep(messages, i);
      if |messages[i - 1].content| > 0 {
        return Some(messages[i - 1].content);
      }
      i := i - 1;
    }
    return None;
  }

  /** One step of the backward scan over the first `i` messages. */
  lemma {:induction false} LastReportStep(messages: seq<Message>, i: nat)
    requires 0 < i <= |messages|
    ensures LastReport(messages[..i]) ==
      if |messages[i - 1].content| > 0 then Some(messages[i - 1].content) else LastReport(messages[..i - 1])
  {
    assert messages[..i][..i - 1] == messages[..i - 1];
    assert messages[..i][i - 1] == messages[i - 1];
  }

  function InvalidTypeMessage(subagentType: string): string {
    "Error: Invalid subagent_type '" + subagentType + "'. Valid types: " + Join(ValidTypes, ", ")
  }

  const NoReportMessage: string := "Error: Sub-agent did not return a final report"

  const LimitMessage: string :=
    "Error: Sub-agent exceeded maximum iterations (50 steps).\n\n"
    + "This means the task was too broad or the agent kept using tools without finishing.\n\n"
    + "To fix this, try:\n"
    + "- Break the task into smaller, more specific sub-tasks\n"
    + "- Be more specific about what files/directories to search\n"
    + "- Limit the scope of analysis (e.g., 'search only in src/' instead of 'scan entire codebase')\n"
    + "- Do targeted searches yourself with specific grep/glob calls\n\n"
    + "Example of a better prompt:\n"
    + "  'Use grep to find files containing VectorStore class, then read the top 3 results'\n"
    + "Instead of:\n"
    + "  'Scan the codebase and analyze everything'"

  const StackMessage: string :=
    "Error: Python recursion limit hit (call stack too deep).\n"
    + "The task caused too many nested function calls.\n"
    + "Try simplifying the task or breaking it into smaller pieces."

  /** `task`: an unknown kind is refused before anything runs; otherwise the
      sub-agent starts from exactly one human message holding the prompt, under
      a limit of 50, and every way the run can end becomes a string. */
  method Task(description: string, prompt: string, subagentType: string, prompts: Prompts, run: SubagentRun)
    returns (out: string)
    ensures subagentType !in ValidTypes ==> out == InvalidTypeMessage(subagentType)
    ensures subagentType in ValidTypes ==>
      match run(Select(subagentType, prompts).value, [HumanMsg(prompt)], RecursionLimit)
      case Finished(ms) => (if LastReport(ms).Some? then out == LastReport(ms).value else out == NoReportMessage)
      case GraphRecursion => out == LimitMessage
      case StackOverflow => out == StackMessage
      case Raised(t, m) => out == "Error executing sub-agent: " + t + ": " + m
  {
    var config := Select(subagentType, prompts);
    if config.None? {
      return InvalidTypeMessage(subagentType);
    }
    var outcome := run(config.value, [HumanMsg(prompt)], RecursionLimit);
    match outcome
    case Finished(ms) =>
      var report := ScanReport(ms);
      out := if report.Some? then report.value else NoReportMessage;
    case GraphRecursion =>
      out := LimitMessage;
    case StackOverflow =>
      out := StackMessage;
    case Raised(t, m) =>
      out := "Error executing sub-agent: " + t + ": " + m;
  }

  /** The report is decided by the tail of the conversation: a last message
      with content is the report, and one without (a tool-call-only answer, an
      empty tool result) is skipped. */
  lemma {:induction false} LastReportOfAppend(ms: seq<Message>, m: Message)
    ensures |m.content| > 0 ==> LastReport(ms + [m]) == Some(m.content)
    ensures m.content == "" ==> LastReport(ms + [m]) == LastReport(ms)
  {
    assert (ms + [m])[..|ms|] == ms;
  }
}
