/** The tool registry: the tools the main agent is built with, the names the
    package exports, and the tool sets of the three sub-agent kinds. */
module Tools {
  /** `ALL_TOOLS`, in registration order. */
  const AllTools: seq<string> := [
    "read_file", "write_file", "edit_file", "ls", "multiedit", "grep", "glob",
    "bash", "todowrite", "webfetch", "websearch"
  ]

  /** `__all__` */
  const Exports: seq<string> := [
    "read_file", "write_file", "edit_file", "ls", "multiedit", "grep", "glob",
    "bash", "todowrite", "webfetch", "websearch", "ALL_TOOLS", "ToolResult", "handle_tool_error"
  ]

  /** The tool sets of the sub-agent kinds (general-purpose, code-writer,
      project-init), as the delegation tool documents them. */
  const ReadOnlyTools: seq<string> := ["read_file", "ls", "grep", "glob", "webfetch", "websearch"]
  const CodeWriterTools: seq<string> := ["read_file", "write_file", "edit_file", "multiedit", "ls", "grep", "glob"]
  const ProjectInitTools: seq<string> := ["read_file", "write_file", "ls", "grep", "glob"]

  /** The tools that can change files. */
  const Destructive: set<string> := {"write_file", "edit_file", "multiedit"}

  predicate Distinct(s: seq<string>) {
    forall i, j :: 0 <= i < j < |s| ==> s[i] != s[j]
  }

  /** No tool is registered twice. */
  lemma {:induction false} AllToolsDistinct()
    ensures Distinct(AllTools)
  {
    forall i, j | 0 <= i < j < |AllTools| ensures AllTools[i] != AllTools[j] {
      assert |AllTools[i]| != |AllTools[j]| || AllTools[i][0] != AllTools[j][0] || AllTools[i][1] != AllTools[j][1];
    }
  }

  /** Eleven distinct tools, among them every destructive one, and neither the
      delegation tool nor the project-initialisation tool. */
  lemma {:induction false} AllToolsShape()
    ensures |AllTools| == 11 && Distinct(AllTools)
    ensures Destructive <= set t | t in AllTools
    ensures "task" !in AllTools && "init" !in AllTools
  {
    AllToolsDistinct();
    assert AllTools[1] == "write_file" && AllTools[2] == "edit_file" && AllTools[4] == "multiedit";
  }

  /** Two lists without repeats and without common names join into one
      without repeats. */
  lemma {:induction false} DistinctAppend(a: seq<string>, b: seq<string>)
    requires Distinct(a) && Distinct(b)
    requires forall x :: x in b ==> x !in a
    ensures Distinct(a + b)
  {
    forall i, j | 0 <= i < j < |a + b| ensures (a + b)[i] != (a + b)[j] {
      if j < |a| {
        assert (a + b)[i] == a[i] && (a + b)[j] == a[j];
      } else if i < |a| {
        assert (a + b)[j] == b[j - |a|] && (a + b)[i] == a[i];
        assert b[j - |a|] in b && a[i] in a;
      } else {
        assert (a + b)[i] == b[i - |a|] && (a + b)[j] == b[j - |a|];
      }
    }
  }

  /** The exports are the eleven tools in the same order, then `ALL_TOOLS`,
      `ToolResult` and `handle_tool_error`. */
  lemma {:induction false} ExportsShape()
    ensures Exports == AllTools + ["ALL_TOOLS", "ToolResult", "handle_tool_error"]
    ensures Distinct(Exports)
  {
    var extra := ["ALL_TOOLS", "ToolResult", "handle_tool_error"];
    assert Exports == AllTools + extra;
    AllToolsDistinct();
    forall x | x in extra ensures x !in AllTools {
      assert x[0] in "ATh";
    }
    DistinctAppend(AllTools, extra);
  }

  /** Every sub-agent tool set is drawn from the main registry, none can
      delegate again, the read-only set holds no destructive tool and no shell,
      and no sub-agent can run the shell. */
  lemma {:induction false} SubagentToolSets()
    ensures forall t :: t in ReadOnlyTools + CodeWriterTools + ProjectInitTools ==> t in AllTools
    ensures "task" !in ReadOnlyTools + CodeWriterTools + ProjectInitTools
    ensures "bash" !in ReadOnlyTools + CodeWriterTools + ProjectInitTools
    ensures forall t :: t in ReadOnlyTools ==> t !in Destructive
    ensures Destructive <= set t | t in CodeWriterTools
  {
  }
}
