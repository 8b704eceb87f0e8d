# copert-cli tool layer, modelled in Dafny

Copert is a terminal coding assistant built around a single-threaded loop. An
agent node asks a language model for the next message. When that message
requests tools, a tools node runs them and hands control back to the agent. An
interactive session feeds user lines into this loop and keeps the whole
conversation.

This project models the decisions the repository's own code makes around the
model, the LangGraph runtime, subprocesses and HTTP:

- the find/replace engine of `edit_file` and `multiedit`, with Python's `str`
  semantics (`in`, `count`, `replace`, `replace(…, 1)`) written out;
- the approval gate in front of destructive tools;
- the agent graph's routing and system-prompt insertion;
- sub-agent delegation and the session's command and message handling;
- the validators and formatters of `todowrite`, `read_file`, `write_file`,
  `ls`, `bash` and `grep`;
- the COPERT.md tools and the COPERT.md loader;
- the `webfetch` answer cache, and `ToolResult`;
- the primality helpers of `tests/prime.py`.

The model and its collaborators are opaque, and each one is a parameter:

- the language model and LangGraph's tool-executing node;
- the sub-agent run and the graph's update stream;
- the subprocess outcome, the HTTP outcome, HTML conversion and `urlparse`;
- `fnmatch` and the order in which `iterdir` yields entries;
- clock readings and the exceptions the operating system raises.

The filesystem is a value: text files by absolute path, a set of directories,
and the set of files that are not valid UTF-8. The tools that write take it
through a `Disk` object and update it in place.

One module per source file:

- `PyStr` (`pystr.dfy`) holds the shared Python string semantics.
- `Fs` (`fs.dfy`) holds the filesystem, `os.path.abspath`, `mkdir(parents=True)`
  and the file write.
- The tools follow: `Edit`, `MultiEdit`, `Approval`, `Graph`, `Tools`,
  `Delegate`, `Session`, `TodoWrite`, `Read`, `Write`, `Ls`, `Bash`, `Grep`,
  `WebFetch`, `CopertMd`, `Memory`, `Base`, `Prime`.

Where the code loops or updates state, the model does too:

- a method with loop invariants, or a class whose methods change its fields;
- each such method is proved equal to a specification function;
- the properties are proved about that function as lemmas.

Where the repository's description of intended behaviour and its code differ,
the model follows the code:

- **The approval gate and the COPERT.md context are not wired in.** The code
  never calls `ApprovalManager.request_approval` from the graph or the session.
  Nothing calls `format_copert_context` either. Both are modelled as the
  stand-alone units they are.
- **`multiedit` does not check edits against the original.** Each edit is
  checked against the output of the edits before it. A later edit can match
  text that only an earlier edit introduced (`MultiEdit.LaterEditSeesEarlierOutput`).
- **The swapped edit undoes a single replacement only under a condition.** The
  placed text must be the first and only occurrence in the result
  (`MultiEdit.InverseRestores`). Otherwise it need not restore the original
  (`MultiEdit.InverseNeedsPlacedOccurrence`).

## Model

| member | source | states |
|---|---|---|
| PyStr.Find | copert/tools/file_ops/edit.py:51 | `old_string in content`: the result is the lowest index where the text occurs, and none means it occurs nowhere; an empty text is found at 0 |
| PyStr.Count | copert/tools/file_ops/edit.py:55 | `content.count(old_string)` is positive exactly when the text occurs |
| PyStr.ReplaceUnique | copert/tools/file_ops/edit.py:66-71 | with exactly one occurrence, replacing every occurrence and replacing the first give the same text |
| PyStr.ReplaceFirstSpan | copert/tools/file_ops/edit.py:70 | `replace(old, new, 1)` puts the new text exactly where the first occurrence was and keeps the rest |
| PyStr.ReplaceIsJoinOfSplit | copert/tools/file_ops/edit.py:67 | `replace(old, new)` replaces every non-overlapping occurrence, i.e. splits at the text and joins with the replacement |
| PyStr.UndoReplaceFirst | copert/tools/file_ops/multiedit.py:150-152 | replacing the first occurrence and then replacing back restores the text when the placed text is found first where it was put |
| PyStr.SplitCountsSeparators | copert/tools/file_ops/multiedit.py:168 | `split("\n")` gives one more piece than there are newlines |
| PyStr.JoinSplit | copert/tools/file_ops/ls.py:81 | joining the pieces of a split with the same separator gives the text back |
| PyStr.ReadLines | copert/tools/file_ops/read.py:42 | `readlines()` pieces concatenate to the text, none is empty, and every piece but the last ends with a newline |
| PyStr.Lower | copert/cli/session.py:127 | `lower()` keeps the length and maps every character through the ASCII case mapping |
| PyStr.StripEmptyIffBlank | copert/tools/task_management/todowrite.py:76 | `strip()` gives "" exactly when the text is all white space |
| PyStr.IntToString | copert/tools/search/grep.py:70 | `str(n)` is never empty and starts with '-' exactly for a negative number |
| PyStr.IntToStringRoundTrip | copert/tools/search/grep.py:70 | `int(str(n)) == n` for every integer |
| PyStr.PadLeft6Spec | copert/tools/file_ops/read.py:55 | `f"{i:6d}"` is at least six wide and ends with the number |
| Fs.PathJoin | copert/tools/project/copert_md.py:40 | `os.path.join(a, b)` is `b` when `b` is absolute and otherwise starts with `a` |
| Fs.NormPath | copert/tools/file_ops/read.py:29 | normalisation never gives "" and keeps an absolute path absolute |
| Fs.AbsPathIsAbsolute | copert/tools/file_ops/multiedit.py:76-80 | with an absolute working directory, `abspath` is always absolute, so the `isabs` re-check can never fail |
| Fs.UniversalNewlines | copert/utils/memory.py:28 | a text-mode read holds no carriage return and is never longer than the stored text |
| Fs.UniversalNewlinesKeeps | copert/utils/memory.py:28 | text without a carriage return reads back unchanged, and reading twice is reading once |
| Fs.UniversalNewlinesIdempotent | copert/utils/memory.py:28 | translating an already translated text changes nothing |
| Fs.UniversalNewlinesPrefix | copert/utils/memory.py:28 | a prefix without carriage returns passes through unchanged ahead of the translated rest |
| Fs.UniversalNewlinesEndings | copert/utils/memory.py:28 | "\r\n", a lone "\r" and "\n" each end a line as one "\n" |
| Fs.StrictRead | copert/utils/memory.py:27-33 | a strict UTF-8 read yields the stored text with universal newlines exactly when the environment does not fail and the file decodes |
| Fs.Disk.MakeParents | copert/tools/file_ops/write.py:32 | `mkdir(parents=True, exist_ok=True)` adds every directory above the path; a refusal or a file in the way leaves the disk unchanged |
| Fs.Disk.Write | copert/tools/file_ops/write.py:35-36 | opening a directory fails with an OS error; otherwise the file holds exactly the content, or what a failed write left behind |
| Edit.Decide | copert/tools/file_ops/edit.py:51-71 | absent text fails; several occurrences without replace_all fail with their count; otherwise every occurrence is replaced with count = occurrences, or exactly the first with count 1 |
| Edit.SingleEditKeepsSurroundings | copert/tools/file_ops/edit.py:69-71 | a single replacement changes only the matched span: the text before and after is kept and the text occurs nowhere else |
| Edit.PlanEdit | copert/tools/file_ops/edit.py:31-71 | a missing path is refused, identical strings are refused before reading, and a write-back carries the replaced content and count |
| Edit.EditFile | copert/tools/file_ops/edit.py:31-84 | a refused edit leaves the disk unchanged; success changes only the edited file, to the computed content, and reports the count; a failed write gives the except-clause message and leaves the disk as before, except that the file holds what the fault left behind, if anything; directories never change |
| Edit.DecidesOnTranslatedText | copert/tools/file_ops/edit.py:47-57 | the edit is decided on the text as read, where a stored "\r\n" is already "\n" and cannot be matched |
| MultiEdit.Issue | copert/tools/file_ops/multiedit.py:99-110 | an edit is refused exactly when `old_string` or `new_string` is missing or the two are equal, naming its 1-based position |
| MultiEdit.FirstIssue | copert/tools/file_ops/multiedit.py:95-118 | the first malformed edit, with every edit before it well-formed; none exactly when all are well-formed |
| MultiEdit.OpsOf | copert/tools/file_ops/multiedit.py:104-116 | one operation per edit, in order, `replace_all` defaulting to false |
| MultiEdit.ParseEdits | copert/tools/file_ops/multiedit.py:95-118 | the parse loop refuses exactly when some edit is malformed, with the first one's message, and otherwise keeps every edit in order |
| MultiEdit.ReadAndApply | copert/tools/file_ops/multiedit.py:120-152 | a commit holds the stored text, read with universal newlines, of a file that decodes as UTF-8, and the sequential application of the edits to it |
| MultiEdit.ParseReadApply | copert/tools/file_ops/multiedit.py:95-152 | the first malformed edit is rejected by its 1-based index before any read; a commit is only for a well-formed list, with one applied operation per edit, on the text as read |
| MultiEdit.ParseThenApply | copert/tools/file_ops/multiedit.py:95-152 | the parse loop, the read and the apply loop compute that outcome |
| MultiEdit.ReadApply | copert/tools/file_ops/multiedit.py:120-152 | the read and the apply loop compute the outcome for the parsed edits |
| MultiEdit.ApplyEdits | copert/tools/file_ops/multiedit.py:133-152 | a failure names an edit inside the list that met absent or ambiguous text |
| MultiEdit.ApplyAll | copert/tools/file_ops/multiedit.py:133-152 | the apply loop, reassigning the content edit by edit, computes the sequential application |
| MultiEdit.ApplyEditsAppend | copert/tools/file_ops/multiedit.py:133-152 | applying `a + b` is applying `a` and then `b` to its output, with failures renumbered |
| MultiEdit.FailureLocated | copert/tools/file_ops/multiedit.py:139-145 | the failing edit is decided on the output of the edits before it, all of which succeeded |
| MultiEdit.LaterEditSeesEarlierOutput | copert/tools/file_ops/multiedit.py:139-140 | an edit can match text that only an earlier edit introduced |
| MultiEdit.InverseRestores | copert/tools/file_ops/multiedit.py:150-152 | the swapped edit restores the text when the placed text is its first and only occurrence |
| MultiEdit.InverseNeedsPlacedOccurrence | copert/tools/file_ops/multiedit.py:150-152 | without that condition the swapped edit does not restore the text ("ab" becomes "aaa", which does not go back to "ab") |
| MultiEdit.LineTotal | copert/tools/file_ops/multiedit.py:168 | the reported line total is the newline count plus one |
| MultiEdit.PlanMultiEdit | copert/tools/file_ops/multiedit.py:76-152 | an empty list is refused before reading; for an existing file, the first malformed edit is rejected by its 1-based index before the read; a commit is only for a well-formed non-empty list, whose content is the sequential application to the original as read |
| MultiEdit.Prepare | copert/tools/file_ops/multiedit.py:76-152 | the checks, the parse loop, the read and the apply loop compute that plan |
| MultiEdit.WriteBack | copert/tools/file_ops/multiedit.py:154-170 | a successful write changes only that file, to the new content, and reports the edit and line counts; a failed write reports its error and, when the restore succeeds, puts back the original as read (the disk as before when the file held no "\r"); when the restore fails too, only that file can differ, holding what the restore or else the write left behind, or else its old text; directories never change |
| MultiEdit.MultiEditFile | copert/tools/file_ops/multiedit.py:155-170 | a refused request leaves the disk unchanged; success changes only that file, to the new content; a failed write reports the error and, when the restore succeeds, puts back the original as read; when the restore fails too, only that file can differ, holding what the restore or else the write left behind, or else its old text; directories never change |
| Approval.FirstDecisive | copert/utils/approval.py:125-134 | the position of the first reply that is y/yes/n/no after strip and lower, with every reply before it undecisive |
| Approval.FirstDecisiveAt | copert/utils/approval.py:125-134 | a decisive reply preceded only by undecisive ones is the one the loop stops at |
| Approval.FirstDecisiveFrom | copert/utils/approval.py:125-134 | from a given reply on, the first decisive reply with every reply between undecisive; none exactly when no later reply is decisive |
| Approval.FirstDecisiveFromAt | copert/utils/approval.py:125-134 | a decisive reply preceded, from the starting reply on, only by undecisive ones is the one found |
| Approval.RecordOf | copert/utils/approval.py:274-279 | a record carries the tool, the file (or "unknown") and the decision, and an edit count exactly for multiedit, equal to the number of edits |
| Approval.ApprovalManager.constructor | copert/utils/approval.py:14-26 | a new manager has the given auto-approve flag, an empty history and no status callback |
| Approval.ApprovalManager.SetStatusCallback | copert/utils/approval.py:37-43 | only sets the callback |
| Approval.ApprovalManager.SetAutoApprove | copert/utils/approval.py:45-53 | only sets the flag |
| Approval.ApprovalManager.Prompt | copert/utils/approval.py:125-134 | the prompt loop consumes replies up to the first decisive one and answers with it; running out of replies gives no answer |
| Approval.ApprovalManager.RequestApproval | copert/utils/approval.py:55-81 | auto-approve or a non-destructive tool approves without prompting or recording; otherwise the spinner stops, the user is asked, the spinner restarts and exactly one record is appended |
| Approval.ApprovedPlusRejected | copert/utils/approval.py:289-290 | approved and rejected counts add up to the history length |
| Approval.Stats | copert/utils/approval.py:283-296 | approved + rejected = total = number of records |
| Approval.CountsAppend | copert/utils/approval.py:289-290 | a new record adds one to the counter its decision names |
| Approval.StatsAfterDecision | copert/utils/approval.py:283-296 | one more record moves exactly its own counter and the total |
| Approval.CodeBlock | copert/utils/approval.py:28-35 | the block opens with the fence and language, closes with a fence, and holds the text verbatim |
| Approval.PreviewText | copert/utils/approval.py:244 | a text of at most 200 characters is shown whole; a longer one shows its first 200 and "\n..." |
| Approval.MultiEditPreview | copert/utils/approval.py:240-249 | one preview pair per edit, each text cut as above, absent texts shown as "" |
| Graph.CreateConfig | copert/agents/graph.py:33-36 | only an absent prompt or tool list is replaced by the default |
| Graph.WithSystem | copert/agents/graph.py:60-61 | a system message is put in front exactly when none is present |
| Graph.WithSystemOnce | copert/agents/graph.py:60-61 | putting the system message in front twice is the same as once, and the conversation stays at the end |
| Graph.AgentNode | copert/agents/graph.py:57-66 | the node's update is exactly one message, the model's answer; the system message is not part of it |
| Graph.AgentStep | copert/agents/graph.py:57-66 | one agent step grows the state by exactly the model's answer to the prompt-prefixed messages; the state holds a system message afterwards only if it did before or the answer is one |
| Graph.ExecuteNeverStoresSystem | copert/agents/graph.py:57-114 | a run that starts without a system message, whose model and tools never produce one, ends without one |
| Graph.ShouldContinue | copert/agents/graph.py:84-92 | the route is "tools" exactly when the last message is an AI message with tool calls, whatever its text |
| Graph.Next | copert/agents/graph.py:99-112 | tools always lead back to the agent; the agent leads to the tools exactly when the route says so, and otherwise to the end |
| Graph.ExecuteAppendsAndEnds | copert/agents/graph.py:94-114 | a completed run only appended to the conversation and stopped on a message that asks for no tools |
| Graph.MessageList.Append | copert/agents/graph.py:131 | the list gains the message at its end |
| Graph.InvokeAgent | copert/agents/graph.py:117-136 | a non-empty history gains the user message at its end; an absent or empty one is replaced by a fresh one-message list; the graph runs with the default prompt and tools of `create_config(None, None)` |
| Graph.MessageList.constructor | copert/agents/graph.py:130 | a new list holds exactly the given messages |
| Tools.AllToolsShape | copert/tools/__init__.py:13-25 | eleven distinct tools, including the three destructive ones and neither `task` nor `init` |
| Tools.AllToolsDistinct | copert/tools/__init__.py:13-25 | no tool is listed twice |
| Tools.ExportsShape | copert/tools/__init__.py:27-42 | the exports are the eleven tools in order, then `ALL_TOOLS`, `ToolResult`, `handle_tool_error` |
| Tools.SubagentToolSets | copert/tools/task/delegate.py:24-35 | every sub-agent tool comes from the registry; no sub-agent can delegate or run the shell; the read-only set holds no destructive tool |
| Delegate.Select | copert/tools/task/delegate.py:93-108 | a configuration exists exactly for the three valid kinds |
| Delegate.SelectionDistinct | copert/tools/task/delegate.py:98-106 | each kind has its own tool set; only code-writer can edit, and general-purpose cannot write |
| Delegate.LastReportIsLast | copert/tools/task/delegate.py:130-135 | the report is non-empty content of a message followed only by messages without content; none exactly when no message has content |
| Delegate.LastReportStep | copert/tools/task/delegate.py:131-135 | one more message at the end becomes the report when it has content and otherwise leaves the report of the earlier messages |
| Delegate.ScanReport | copert/tools/task/delegate.py:131-135 | the reverse scan finds that report |
| Delegate.Task | copert/tools/task/delegate.py:92-160 | an unknown kind is refused before running; the sub-agent starts from one human message under a limit of 50; every ending becomes a string |
| Delegate.LastReportOfAppend | copert/tools/task/delegate.py:131-133 | a last message with content is the report, and one without content is skipped |
| Session.AfterCommand | copert/cli/session.py:127-149 | only a command that normalises to /clear changes the state, and it empties it |
| Session.AfterMessage | copert/cli/session.py:158-175 | the earlier conversation is kept, the user message comes next, and the graph exists afterwards |
| Session.RunFrom | copert/cli/session.py:261-292 | the loop never reads more inputs than there are |
| Session.RunOnlyAppends | copert/cli/session.py:160-175 | without /clear every earlier message stays where it was |
| Session.StepRouting | copert/cli/session.py:271-282 | blank lines and Ctrl+C change nothing; "/" lines go only to the command handler; other lines add the user message first; only /exit, /quit or end of input stop |
| Session.RunStopsAtExit | copert/cli/session.py:274-292 | nothing after the first input that ends the loop is read |
| Session.CopertSession.constructor | copert/cli/session.py:25-31 | a new session has no messages and no graph |
| Session.CopertSession.ClearHistory | copert/cli/session.py:105-108 | the messages are emptied and the graph dropped |
| Session.CopertSession.HandleCommand | copert/cli/session.py:118-149 | returns true exactly for /exit and /quit after strip and lower; the state changes only for /clear |
| Session.CopertSession.ProcessMessage | copert/cli/session.py:158-175 | the user message, then every streamed message in stream order, is appended |
| Session.CopertSession.StreamUpdates | copert/cli/session.py:168-175 | every message of every update is appended in stream order, and nothing else changes |
| Session.CopertSession.AppendBatch | copert/cli/session.py:172-175 | one update's messages are appended in order |
| Session.CopertSession.Run | copert/cli/session.py:261-296 | the read loop reaches the state and input count of the routing function |
| TodoWrite.Issue | copert/tools/task_management/todowrite.py:66-86 | an item passes exactly when all fields are present, the content is not blank, the status is valid and the id is new; the content field is checked first and a repeated id last |
| TodoWrite.CheckItem | copert/tools/task_management/todowrite.py:66-86 | the field, content, status and id checks compute that verdict |
| TodoWrite.IdsExtend | copert/tools/task_management/todowrite.py:84-86 | an accepted item adds its id to the ids seen |
| TodoWrite.ValidateUpTo | copert/tools/task_management/todowrite.py:63-96 | an accepted prefix keeps one item per input item |
| TodoWrite.ValidateUpToFirstFailure | copert/tools/task_management/todowrite.py:63-96 | a prefix is accepted exactly when every item passes, keeping the items in order; otherwise the error is that of the first failing item |
| TodoWrite.InvalidSticks | copert/tools/task_management/todowrite.py:63-69 | once an item fails, later items do not change the outcome |
| TodoWrite.ValidateFirstFailure | copert/tools/task_management/todowrite.py:63-96 | the whole list is accepted exactly when every item passes; otherwise the first failing item in input order decides the error |
| TodoWrite.ValidateAccepts | copert/tools/task_management/todowrite.py:66-86 | a list is accepted exactly when every item is valid and no id repeats |
| TodoWrite.CountStatus | copert/tools/task_management/todowrite.py:118-120 | a status count never exceeds the number of items |
| TodoWrite.CountStatusSnoc | copert/tools/task_management/todowrite.py:118-120 | one more item adds one to exactly the count of its own status |
| TodoWrite.Warning | copert/tools/task_management/todowrite.py:101-104 | a warning appears exactly when more than one item is in progress |
| TodoWrite.CheckTodos | copert/tools/task_management/todowrite.py:59-96 | the validation loop computes the validation and counts the items in progress |
| TodoWrite.RenderTodos | copert/tools/task_management/todowrite.py:101-123 | the `+=` loop builds the rendering: header, numbered lines, progress, warning |
| TodoWrite.AppendNumbered | copert/tools/task_management/todowrite.py:109-115 | the `+=` loop appends each item's line under its 1-based number |
| TodoWrite.NumberedConcat | copert/tools/task_management/todowrite.py:109-115 | the numbered text is line k + 1 of item k for every k, in order |
| TodoWrite.Write | copert/tools/task_management/todowrite.py:53-125 | an empty list is refused; otherwise the first error, or the rendering |
| TodoWrite.StatusesPartition | copert/tools/task_management/todowrite.py:118-120 | with valid statuses, the pending, in-progress and completed counts add up to the number of items |
| TodoWrite.AcceptedRendering | copert/tools/task_management/todowrite.py:101-107 | an accepted list is rendered under the header; several items in progress only warn |
| TodoWrite.AcceptedCounts | copert/tools/task_management/todowrite.py:118-122 | on an accepted list the three counts cover every item |
| Read.SliceIndex | copert/tools/file_ops/read.py:47 | a slice bound counts from the end when negative and is clamped to the length |
| Read.PySlice | copert/tools/file_ops/read.py:47 | a slice is never longer than the list |
| Read.TruncateLine | copert/tools/file_ops/read.py:53-54 | a line of at most 2000 characters is kept; a longer one keeps its first 2000 followed by the marker |
| Read.NumberedLine | copert/tools/file_ops/read.py:55 | a numbered line holds at least the six-wide number and the tab |
| Read.FormatLines | copert/tools/file_ops/read.py:50-55 | one numbered line per selected line |
| Read.FormatSelection | copert/tools/file_ops/read.py:50-55 | the numbering loop builds those lines |
| Read.RenderSelection | copert/tools/file_ops/read.py:45-67 | the selection, the numbering loop, the join and the metadata build the rendering of the lines read |
| Read.RenderText | copert/tools/file_ops/read.py:42-67 | the selection, numbering, join and metadata produce the rendering |
| Read.ReadFile | copert/tools/file_ops/read.py:29-74 | a missing path and a non-file are refused; read failures map to their except clauses; otherwise the rendering of the text as read |
| Read.CarriageReturnEndsLine | copert/tools/file_ops/read.py:41-42 | a lone "\r" ends a line of the text as read |
| Read.SelectWhole | copert/tools/file_ops/read.py:45-47 | without a truthy offset and limit the whole file is selected, numbered from 1 |
| Read.ReadsPastDocumentedDefault | copert/tools/file_ops/read.py:45-47 | without a limit, a file of more than 2000 lines is read whole |
| Read.SelectDocumented | copert/tools/file_ops/read.py:13-22 | with the documented default, a read without a limit selects at most 2000 lines |
| Read.DocumentedDefaultHonoured | copert/tools/file_ops/read.py:13-22 | with the documented default, a read without offset or limit gives the first 2000 lines, and a given limit selects as the code does |
| Read.SelectWindow | copert/tools/file_ops/read.py:45-51 | with a positive offset and limit, at most `limit` lines from line `offset` are selected, each under its own line number |
| Read.WindowLines | copert/tools/file_ops/read.py:45-47 | a window from line `offset` holds `limit` lines, fewer at the end of the file, each the file line at its place |
| Read.EmptyBodyIffNothingSelected | copert/tools/file_ops/read.py:57-67 | the "[File is empty]" body appears exactly when nothing is selected |
| Read.NegativeOffsetNumbering | copert/tools/file_ops/read.py:45-51 | a negative offset counts from the end for the slice but not for the numbering |
| Read.TruncatedDisplay | copert/tools/file_ops/read.py:53-55 | an overlong line shows as its first 2000 characters and "... [truncated]"; a short line without trailing white space |
| Write.ReadLinesCount | copert/tools/file_ops/read.py:42 | `readlines` gives one line per newline, plus one when the text does not end with a newline |
| Write.LineCountMeaning | copert/tools/file_ops/write.py:39 | the reported count is the number of pieces `split("\n")` gives, and one more than `readlines` finds when the text ends with a newline |
| Write.WriteFile | copert/tools/file_ops/write.py:28-49 | parents are created first; on success the file holds exactly the content; every failure becomes its except-clause message; a failed write keeps the created directories and leaves every other file as it was, the target holding what the fault left behind, if anything |
| Write.ParentsAreNotThePath | copert/tools/file_ops/write.py:32 | the directories created are proper prefixes of the path, never the path itself |
| CopertMd.TargetPath | copert/tools/project/copert_md.py:40 | the target is inside the working directory and named COPERT.md, whatever the content |
| CopertMd.WriteCopertMd | copert/tools/project/copert_md.py:38-58 | no directory is created; on success the file holds exactly the content; failures become messages, and a failed write leaves every other file as it was, the target holding what the fault left behind, if anything |
| CopertMd.ReadCopertMd | copert/tools/project/copert_md.py:71-99 | an absent file gives the not-found message; a non-file is an error; otherwise the header and every line numbered from 1 |
| CopertMd.RenderCopertMd | copert/tools/project/copert_md.py:88-99 | the numbering loop, the join and the header build the text of a COPERT.md that was read |
| CopertMd.ReadAfterWrite | copert/tools/project/copert_md.py:85-99 | what a successful write stores is read back in full with universal newlines (unchanged when it holds no "\r"), under the line count `readlines` finds |
| CopertMd.SameNumberingAsReadFile | copert/tools/project/copert_md.py:88-99 | the numbering is that of `read_file` for the whole file; the body is empty exactly for an empty file |
| Memory.LoadCopertMd | copert/utils/memory.py:21-35 | content is returned exactly when the path is a file that reads as valid UTF-8, and then it is the stored text with universal newlines |
| Memory.DefaultCwd | copert/utils/memory.py:21-22 | leaving `cwd` out is the same as passing the working directory |
| Memory.FormatCopertContext | copert/utils/memory.py:47-58 | the context starts with the fixed header and ends with the fixed footer |
| Memory.ExtractFormat | copert/utils/memory.py:47-58 | the content sits verbatim between header and footer |
| Memory.FormatInjective | copert/utils/memory.py:47-58 | different contents give different contexts |
| Ls.Kept | copert/tools/file_ops/ls.py:49-67 | never more labels than entries |
| Ls.KeptIff | copert/tools/file_ops/ls.py:52-67 | a label is listed exactly when its entry exists and no ignore pattern matches the name |
| Ls.ShouldIgnore | copert/tools/file_ops/ls.py:53-57 | the inner loop answers whether some pattern matches |
| Ls.Collect | copert/tools/file_ops/ls.py:49-67 | the iteration loop collects the kept labels in listing order |
| Ls.Sort | copert/tools/file_ops/ls.py:72-73 | `sorted` gives a sorted permutation (code-point order) |
| Ls.Insert | copert/tools/file_ops/ls.py:72-73 | inserting into a sorted list keeps it sorted and adds exactly that label |
| Ls.Dirs | copert/tools/file_ops/ls.py:72 | the directory labels are drawn from the entries |
| Ls.Files | copert/tools/file_ops/ls.py:73 | the other labels are drawn from the entries |
| Ls.DirsFilesPartition | copert/tools/file_ops/ls.py:72-74 | the two groups together are exactly the entries |
| Ls.DirsFilesMarked | copert/tools/file_ops/ls.py:72-73 | directory labels end with "/" and no other label does |
| Ls.List | copert/tools/file_ops/ls.py:29-84 | a missing path, a non-directory and a denied read are refused; otherwise the listing text |
| Ls.ListingOrder | copert/tools/file_ops/ls.py:72-74 | the printed entries are a permutation of the collected labels, directories first, each group sorted |
| Ls.DirectoryMarkIsDir | copert/tools/file_ops/ls.py:62-67 | a label ends with "/" exactly when `is_dir()` held for the entry |
| Bash.Combined | copert/tools/execution/bash.py:43-49 | the combined streams are empty exactly when both are empty |
| Bash.Truncate | copert/tools/execution/bash.py:57-58 | output within 30000 characters is kept; longer output keeps its first 30000 and the marker |
| Bash.Assemble | copert/tools/execution/bash.py:43-60 | the step-by-step concatenation computes the tool's result |
| Bash.Bash | copert/tools/execution/bash.py:28-66 | every outcome, including a timeout and an exception, becomes a string |
| Bash.StatusCarriesCode | copert/tools/execution/bash.py:52-54 | the exit code can be read back from the status line |
| Bash.NeverEmpty | copert/tools/execution/bash.py:60 | the result is never empty |
| Bash.UntruncatedLayout | copert/tools/execution/bash.py:43-54 | within the limit, stdout comes first, then stderr, and the status last when the code is not 0 |
| Bash.TruncationBound | copert/tools/execution/bash.py:57-58 | the result never exceeds the limit by more than the marker, and a cut result keeps the first 30000 characters |
| Bash.PlaceholderIff | copert/tools/execution/bash.py:60 | the placeholder appears only for a clean run that printed nothing, or output that is literally the placeholder |
| Grep.Argv | copert/tools/search/grep.py:41-48 | the command starts with "rg" and the pattern |
| Grep.StartCommand | copert/tools/search/grep.py:41-48 | the first appends build "rg", the pattern and a truthy path |
| Grep.ArgvLayout | copert/tools/search/grep.py:41-48 | a truthy path comes right after the pattern and the flags fill the rest |
| Grep.BuildCommand | copert/tools/search/grep.py:41-72 | the `append`/`extend` sequence builds that command |
| Grep.AppendGeneralFlags | copert/tools/search/grep.py:51-59 | appends exactly the general flags |
| Grep.AppendModeFlags | copert/tools/search/grep.py:62-72 | appends exactly the mode flags |
| Grep.CaseRoundTrip | copert/tools/search/grep.py:51-52 | "-i" is read back exactly when it was appended, and the rest of the command is untouched |
| Grep.MultilineRoundTrip | copert/tools/search/grep.py:54-55 | "-U --multiline-dotall" is read back exactly when it was appended, and the rest is untouched |
| Grep.GlobRoundTrip | copert/tools/search/grep.py:58-59 | "--glob G" is read back, with G, exactly when a truthy glob was given |
| Grep.GeneralRoundTrip | copert/tools/search/grep.py:51-59 | "-i", "-U --multiline-dotall" and "--glob G" are present exactly when their options are set |
| Grep.ContentRoundTrip | copert/tools/search/grep.py:66-72 | in content mode "-n", "-B n" and "-A n" are present exactly when asked for, with their numbers |
| Grep.ModeRoundTrip | copert/tools/search/grep.py:62-72 | the mode flags express the mode, and outside content mode nothing else |
| Grep.FlagsRoundTrip | copert/tools/search/grep.py:51-72 | the flags read back give exactly the settings that take effect |
| Grep.ExitCodeMeaning | copert/tools/search/grep.py:83-93 | exit 1, or 0 with blank output, means no matches; 0 otherwise gives the stripped output; other codes give stderr or "Unknown error occurred" |
| WebFetch.UpgradeSpec | copert/tools/web/webfetch.py:59-60 | only a leading "http://" becomes "https://", once |
| WebFetch.ValidAfterUpgrade | copert/tools/web/webfetch.py:59-64 | the upgraded URL is accepted exactly when the given one starts with http:// or https://, and never starts with http:// |
| WebFetch.HttpsKept | copert/tools/web/webfetch.py:59-64 | an https URL passes validation and is not changed by the upgrade |
| WebFetch.TruncateMarkdown | copert/tools/web/webfetch.py:123-124 | markdown within 50000 characters is kept; longer markdown keeps its first 50000 and the marker |
| WebFetch.WebCache.constructor | copert/tools/web/webfetch.py:14 | the cache starts empty |
| WebFetch.WebCache.Clean | copert/tools/web/webfetch.py:18-24 | removes exactly the entries older than 15 minutes and keeps all others |
| WebFetch.WebCache.Fetch | copert/tools/web/webfetch.py:54-155 | the result and the new cache are those of the `webfetch` function, keyed by `f"{url}:{prompt}"` |
| WebFetch.WebCache.Process | copert/tools/web/webfetch.py:85-152 | the redirect check, conversion, model call and store after a successful request |
| WebFetch.WebCache.Request | copert/tools/web/webfetch.py:66-100 | the lookup and, on a miss or a stale hit, the request compute the result and the new cache |
| WebFetch.WebCache.Convert | copert/tools/web/webfetch.py:102-152 | the conversion, truncation, model call and store compute the result and the new cache |
| WebFetch.CacheChanges | copert/tools/web/webfetch.py:143-149 | the cache only loses expired entries, or gains the answer just returned, stamped at store time, for a successful model call |
| WebFetch.AfterResponseCache | copert/tools/web/webfetch.py:85-149 | after a response the cache is kept, or gains exactly the answer the model gave for this request, stamped at store time |
| WebFetch.SummariseCache | copert/tools/web/webfetch.py:102-149 | after conversion the cache is kept, or gains exactly the model's answer for the converted markdown |
| WebFetch.HitSkipsFetch | copert/tools/web/webfetch.py:66-71 | a fresh hit returns "[Cached] " and the stored answer without fetching |
| WebFetch.AnswerIsReused | copert/tools/web/webfetch.py:66-71 | a stored answer is served to the same request for the next 15 minutes |
| WebFetch.KeyAsWrittenCollides | copert/tools/web/webfetch.py:67 | two different (URL, prompt) pairs share the key as written |
| WebFetch.ResultFollowsLookup | copert/tools/web/webfetch.py:66-152 | the answer depends on the cache only through the lookup of the request's own key |
| WebFetch.AsWrittenServesOtherRequest | copert/tools/web/webfetch.py:54-152 | from an empty cache, the request on the port is fetched and answered; within 15 minutes the other request of the pair gets "[Cached] " and that answer, whatever its own page and model would give |
| WebFetch.KeyedAnswersStayWithTheirRequest | copert/tools/web/webfetch.py:66-152 | with URL and prompt kept apart, storing one request's answer never changes what a different request is answered |
| WebFetch.AsWrittenAgreesWithoutCollision | copert/tools/web/webfetch.py:66-152 | the key as written answers as the pair key does whenever no other stored request shares the joined key |
| Base.ToDict | copert/tools/base.py:28-32 | `to_dict` has exactly the keys success, data and error |
| Base.DictRoundTrip | copert/tools/base.py:18-32 | the dictionary holds the three fields as stored |
| Base.RenderCases | copert/tools/base.py:34-38 | a success renders as its data or "Success"; a failure renders as "Error: " and its message |
| Base.HandleToolErrorSplits | copert/tools/base.py:41-51 | "TypeName: message", where the type name and the message can both be read back |
| Prime.SkipsNonCandidates | tests/prime.py:9-13 | for n not divisible by 2 or 3, only i and i + 2 of each six can divide it |
| Prime.NoDivisorBelowRoot | tests/prime.py:10-14 | no divisor below i with i * i > n means n is prime |
| Prime.IsPrime | tests/prime.py:1-14 | `is_prime` agrees with primality for every integer |
| Prime.PrimesInRange | tests/prime.py:17-19 | exactly the primes in [start, end), strictly ascending |
| Prime.EmptyRange | tests/prime.py:19 | an empty or reversed range has no primes |
| Prime.SmallCases | tests/prime.py:3-8 | n <= 1 is not prime, 2 and 3 are, and larger multiples of 2 or 3 are not |

## Left out

- The language model, LangGraph's `ToolNode` dispatch and the `add_messages`
  reducer are left out. Their behaviour is not part of the repository, so they
  are parameters with no claims. Graph execution appends each update.
- How LangGraph counts steps against `recursion_limit` is left out. The graph
  run has a budget of node executions, and a sub-agent run reports how it
  ended.
- Running a subprocess (the shell, ripgrep), HTTP requests, HTML-to-markdown
  conversion, `urlparse(...).netloc` and the webfetch model call are foreign
  I/O. Their outcomes are parameters.
- Bash.Bash: the timeout in minutes (`min(timeout / 1000, 600) / 60` printed
  with `:.1f`) is floating point. It is a parameter holding the printed text.
- Grep.Argv: `output_mode` is limited to its three documented values. Any
  other string adds no mode flag in the source.
- PyStr.Lower: case mapping is ASCII only. Non-ASCII letters are left unchanged.
- `fnmatch` and the order in which `iterdir` yields entries are operating-system
  facts. They are parameters.
- Clock readings are parameters, as integers in microseconds.
- Text-mode reads translate "\r\n" and a lone "\r" to "\n" (`Fs.UniversalNewlines`).
  Text-mode writes on POSIX store the text unchanged, so a write is not
  translated.
- Fs.Disk.MakeParents: the texts of the `FileExistsError` and
  `NotADirectoryError` messages are approximations of the operating system's
  wording.
- The outer `except Exception` handlers of the tools ("Error in multiedit",
  "Error listing directory", "Error in todowrite", "Error parsing todo",
  "Error in webfetch", ...) are left out. They only catch faults of foreign
  code, such as non-string arguments, which the typed model cannot receive.
- Read.ReadFile: with `errors='replace'` no decoding error can arise. The
  `UnicodeDecodeError` clause is modelled but unreachable unless the
  environment parameter supplies one.
- `ls`: the `isabs` check after `abspath` is dead (Fs.AbsPathIsAbsolute). So is
  the `if ignore:` guard, since an empty ignore list ignores nothing anyway.
- `multiedit`: its `isabs` check is dead in the same way.
- Delegate.Task: the "not implemented" branch cannot be taken after the type
  check.
- Delegate.Task: the sub-agent prompts and the three sub-agent tool sets are
  imported from names the package does not define. The prompts are a
  parameter. The tool sets are the lists the tool's own documentation gives.
- Session.CopertSession: the Rich rendering, history display, help, agent list,
  spinner and tracing context are UI and left out. A failed stream is the
  prefix of updates before the failure.
- Session.CopertSession.ProcessMessage: building the graph is assumed to succeed.
  In the source, `_get_graph()` runs inside the `try`. If it raises, the graph
  stays unset and the error is printed. The model always sets `graphBuilt`.
- Session.CopertSession: an input " /exit" with a leading space does not start
  with "/", so it is sent to the model as a message.
- CopertMd.ReadCopertMd: an empty COPERT.md gives an empty body, where
  `read_file` would print "[File is empty]".
- Memory.CopertPath: an empty `cwd` is kept, not replaced by the working
  directory.
- Approval.ApprovalManager: the console panels, previews and syntax
  highlighting are UI. The prompt session is the sequence of replies it will
  return.
- `approval.py:107-110`: the `write_file` preview cut to 20 lines is display
  only.
- `websearch.py` (a wrapper over the Exa client) and `glob.py` (pathlib globbing
  sorted by modification time from `stat`) are left out.
- `init.py` (a nested agent run, shaped like delegation) is left out.
- The LLM client, the prompts, the settings and the schemas are left out.
- `primes_with_cubed_in_range` (`tests/prime.py:22-35`) is not part of this
  model. It compares floating-point cube roots, so its result depends on
  rounding. For example, `27 ** (1/3)` is just above 3, so `ceil` gives 4.

## Findings

| source | as written | input that shows it | evidently intended | confidence | as-written member | corrected member |
|---|---|---|---|---|---|---|
| copert/tools/file_ops/read.py:45-47 | with no limit, `end` is `None` and every line is selected | a file of 2001 lines, read without offset and limit, returns all 2001 lines | the documentation (read.py:13-22) says a read returns at most 2000 lines by default | not executed | Read.ReadsPastDocumentedDefault | Read.DocumentedDefaultHonoured |
| copert/tools/web/webfetch.py:67 | the cache key is `f"{url}:{prompt}"`, which two different requests can share | ("https://example.com:8080/page", "summarize") and ("https://example.com", "8080/page:summarize") both give "https://example.com:8080/page:summarize" | a cached answer is served only to the URL and prompt it was stored for | not executed | WebFetch.KeyAsWrittenCollides | WebFetch.KeyedAnswersStayWithTheirRequest |

`WebFetch.WebCache` keys its entries by `f"{url}:{prompt}"`, as the code does.
With that key, the second request of the example is answered from the first
one's entry (`WebFetch.AsWrittenServesOtherRequest`). The `webfetch` function
takes the key as a parameter. The corrected keying is the pair
`Key(url, prompt)`, under which answers stay with their own request
(`WebFetch.KeyedAnswersStayWithTheirRequest`). Where no two stored requests
share a joined key, both keyings give the same answers
(`WebFetch.AsWrittenAgreesWithoutCollision`).

`read_file` follows the code: with no limit, the whole file is read
(`Read.SelectWhole`). The documented default of 2000 lines is
`Read.SelectDocumented`.
