/** `multiedit`: an ordered list of find/replace operations on one file. Every
    operation is validated before the file is read, each operation is decided
    against the output of the ones before it, and the file is written once, only
    after all of them succeeded; a failed write is undone best-effort. */
module MultiEdit {
  import opened PyStr
  import opened Fs
  import opened Edit

  /** One element of the `edits` argument as received: either text field may be
      missing, and `replace_all` defaults to false when absent. */
  datatype RawEdit = RawEdit(pat: Option<string>, rep: Option<string>, replaceAll: Option<bool>)

  /** An element that passes the per-edit checks. */
  predicate WellFormed(e: RawEdit) {
    e.pat.Some? && e.rep.Some? && e.pat.value != e.rep.value
  }

  /** The rejection for the element at 0-based position `i`, checked in the
      order `old_string` present, `new_string` present, the two differ. */
  function Issue(i: nat, e: RawEdit): (m: Option<string>)
    ensures m.None? <==> WellFormed(e)
  {
    var prefix := "Error: Edit " + IntToString(i + 1);
    if e.pat.None? then Some(prefix + " missing required field 'old_string'")
    else if e.rep.None? then Some(prefix + " missing required field 'new_string'")
    else if e.pat.value == e.rep.value then Some(prefix + " has identical old_string and new_string")
    else None
  }

  /** The operation a well-formed element stands for. */
  function ToOp(e: RawEdit): EditOp
    requires WellFormed(e)
  {
    EditOp(e.pat.value, e.rep.value, if e.replaceAll.Some? then e.replaceAll.value else false)
  }

  /** The position of the first element that is not well-formed, if any. */
  function FirstIssue(raw: seq<RawEdit>): (r: Option<nat>)
    ensures r.Some? ==>
      && r.value < |raw| && !WellFormed(raw[r.value])
      && forall k :: 0 <= k < r.value ==> WellFormed(raw[k])
    ensures r.None? <==> forall k :: 0 <= k < |raw| ==> WellFormed(raw[k])
  {
    if |raw| == 0 then None
    else if !WellFormed(raw[0]) then Some(0)
    else
      var rest := FirstIssue(raw[1..]);
      assert forall k :: 1 <= k < |raw| ==> raw[k] == raw[1..][k - 1];
      if rest.Some? then Some(rest.value + 1) else None
  }

  /** The operations of a list whose every element is well-formed. */
  function OpsOf(raw: seq<RawEdit>): (ops: seq<EditOp>)
    requires forall k :: 0 <= k < |raw| ==> WellFormed(raw[k])
    ensures |ops| == |raw| && forall k :: 0 <= k < |raw| ==> ops[k] == ToOp(raw[k])
  {
    if |raw| == 0 then [] else [ToOp(raw[0])] + OpsOf(raw[1..])
  }

  datatype Parsed = Ops(ops: seq<EditOp>) | Rejected(message: string)

  /** The parse loop: the first element with an issue rejects the whole list;
      otherwise every element becomes its operation, in order. */
  method ParseEdits(raw: seq<RawEdit>) returns (r: Parsed)
    ensures r.Rejected? <==> FirstIssue(raw).Some?
    ensures r.Rejected? ==> r.message == Issue(FirstIssue(raw).value, raw[FirstIssue(raw).value]).value
    ensures r.Ops? ==> |r.ops| == |raw| && forall k :: 0 <= k < |raw| ==> WellFormed(raw[k]) && r.ops[k] == ToOp(raw[k])
  {
    var ops: seq<EditOp> := [];
    var i := 0;
    while i < |raw|
      invariant 0 <= i <= |raw|
      invariant |ops| == i
      invariant forall k :: 0 <= k < i ==> WellFormed(raw[k]) && ops[k] == ToOp(raw[k])
    {
      var issue := Issue(i, raw[i]);
      if issue.Some? {
        assert FirstIssue(raw) == Some(i);
        return Rejected(issue.value);
      }
      ops := ops + [ToOp(raw[i])];
      i := i + 1;
    }
    return Ops(ops);
  }

  /** The outcome of the apply loop: the final content, or the 0-based position
      of the operation that failed and the decision it met (absent or ambiguous). */
  datatype Applied = Done(content: string) | Failed(index: nat, decision: Decision)

  /** Renumbers a failure of a suffix to its position in the whole list. */
  function ShiftBy(n: nat, r: Applied): Applied {
    if r.Failed? then Failed(r.index + n, r.decision) else r
  }

  /** The operations applied in order, each to the output of the previous one. */
  function ApplyEdits(content: string, ops: seq<EditOp>): (r: Applied)
    ensures r.Failed? ==> r.index < |ops| && !r.decision.Replaced?
    ensures r.Done? && |ops| > 0 ==> Decide(content, ops[0]).Replaced?
    decreases |ops|
  {
    if |ops| == 0 then Done(content)
    else match Decide(content, ops[0])
      case Replaced(c, _) => ShiftBy(1, ApplyEdits(c, ops[1..]))
      case d => Failed(0, d)
  }

  /** The apply loop, reassigning the current content edit by edit. */
  method ApplyAll(content: string, ops: seq<EditOp>) returns (r: Applied)
    ensures r == ApplyEdits(content, ops)
  {
    var current := content;
    var i := 0;
    while i < |ops|
      invariant 0 <= i <= |ops|
      invariant ApplyEdits(content, ops) == ShiftBy(i, ApplyEdits(current, ops[i..]))
    {
      assert ops[i..][1..] == ops[i + 1..];
      var d := Decide(current, ops[i]);
      if !d.Replaced? {
        return Failed(i, d);
      }
      current := d.content;
      i := i + 1;
    }
    return Done(current);
  }

  /** Sequential composition: applying `a + b` is applying `a`, then `b` to its
      output; a failure in `b` is reported at its position in the whole list. */
  lemma {:induction false} ApplyEditsAppend(content: string, a: seq<EditOp>, b: seq<EditOp>)
    ensures ApplyEdits(content, a + b) ==
      match ApplyEdits(content, a)
      case Done(c) => ShiftBy(|a|, ApplyEdits(c, b))
      case f => f
    decreases |a|
  {
    if |a| == 0 {
      assert a + b == b;
    } else {
      assert (a + b)[1..] == a[1..] + b;
      match Decide(content, a[0])
      case Replaced(c, _) =>
        ApplyEditsAppend(c, a[1..], b);
      case _ =>
    }
  }

  /** A failure names the first operation that could not be applied: every
      operation before it succeeded, and it met an absent or ambiguous text in
      the output of those before it. */
  lemma {:induction false} FailureLocated(content: string, ops: seq<EditOp>)
    requires ApplyEdits(content, ops).Failed?
    ensures var f := ApplyEdits(content, ops);
      && ApplyEdits(content, ops[..f.index]).Done?
      && Decide(ApplyEdits(content, ops[..f.index]).content, ops[f.index]) == f.decision
    decreases |ops|
  {
    var f := ApplyEdits(content, ops);
    match Decide(content, ops[0])
    case Replaced(c, _) =>
      FailureLocated(c, ops[1..]);
      var g := ApplyEdits(c, ops[1..]);
      assert f.index == g.index + 1;
      assert ops[..f.index][1..] == ops[1..][..g.index];
      assert ops[f.index] == ops[1..][g.index];
    case _ =>
      assert ops[..0] == [];
  }

  /** The operations are not checked against the original content: an operation
      may match text that only an earlier operation introduced. */
  lemma {:induction false} LaterEditSeesEarlierOutput()
    ensures !Contains("A", "C")
    ensures ApplyEdits("A", [EditOp("A", "BC", false), EditOp("C", "D", false)]) == Done("BD")
  {
    var ops := [EditOp("A", "BC", false), EditOp("C", "D", false)];
    assert StartsWith("A", "A");
    assert Count("A"[1..], "A") == 0;
    assert Decide("A", ops[0]) == Replaced("BC", 1);
    NoOccurrenceAtMismatch("BC", "C", 0);
    assert "BC"[1..] == "C";
    assert StartsWith("C", "C");
    assert Count("BC"[2..], "C") == 0;
    assert Decide("BC", ops[1]) == Replaced("BD", 1);
    assert ops[1..][1..] == [];
    NoOccurrenceAtMismatch("A", "C", 0);
    assert "A"[1..] == "";
  }

  /** A successful single replacement is undone by the swapped operation when
      the replacement text first occurs where it was placed and nowhere else. */
  lemma {:induction false} InverseRestores(s: string, op: EditOp)
    requires !op.replaceAll && Decide(s, op).Replaced?
    requires var t := Decide(s, op).content;
      Find(t, op.rep) == Find(s, op.pat) && Count(t, op.rep) == 1
    ensures Decide(Decide(s, op).content, EditOp(op.rep, op.pat, false)) == Replaced(s, 1)
  {
    UndoReplaceFirst(s, op.pat, op.rep);
  }

  /** Without the uniqueness condition the swapped operation need not restore the
      text: replacing "b" by "aa" in "ab" gives "aaa", where "aa" counts once
      (occurrences do not overlap) yet its first occurrence is not the one placed. */
  lemma {:induction false} InverseNeedsPlacedOccurrence()
    ensures Decide("ab", EditOp("b", "aa", false)) == Replaced("aaa", 1)
    ensures Decide("aaa", EditOp("aa", "b", false)) == Replaced("ba", 1)
  {
    NoOccurrenceAtMismatch("ab", "b", 0);
    assert "ab"[1..] == "b";
    assert StartsWith("b", "b");
    assert Find("ab", "b") == Some(1);
    assert Count("ab"[2..], "b") == 0;
    assert ReplaceFirst("ab", "b", "aa") == "aaa";
    assert StartsWith("aaa", "aa");
    assert Find("aaa", "aa") == Some(0);
    assert "aaa"[2..] == "a";
    assert Count("a", "aa") == 0;
    assert ReplaceFirst("aaa", "aa", "b") == "ba";
  }

  /** What `multiedit` does before it writes: an error message, or the file,
      its original content, the new content and the number of edits. */
  datatype Batch = Reject(message: string) | Commit(path: string, original: string, content: string, edits: nat)

  /** Number of lines reported: the pieces of the content split at "\n". */
  function LineTotal(content: string): (n: nat)
    ensures n == Count(content, "\n") + 1
  {
    SplitCountsSeparators(content, "\n");
    |Split(content, "\n")|
  }

  /** The fixed parts of the messages `multiedit` returns. */
  const AmbiguousTail: string := " times in file. Use replace_all=true to replace all "
      + "occurrences, or provide more context to make it unique."
  const NotFoundTail: string := "not found in file (remember edits are applied sequentially)"
  const NoEditsMessage: string := "Error: No edits provided. Must provide at least one edit operation."
  const NotAbsoluteLead: string := "Error: File path must be absolute, not relative. Got: "
  const NotUtf8Lead: string := "Error: File is not a valid UTF-8 text file: "

  /** The message for a failed operation at 0-based position `i`. */
  function FailureMessage(i: nat, d: Decision): string {
    var prefix := "Error: Edit " + IntToString(i + 1) + " failed - old_string ";
    if d.Ambiguous? then
      prefix + "appears " + IntToString(d.count) + AmbiguousTail
    else prefix + NotFoundTail
  }

  /** The checks of `multiedit`, in the source's order. */
  function PlanMultiEdit(fs: FileSystem, cwd: string, filePath: string, raw: seq<RawEdit>,
                         readFault: Option<Exc>): (p: Batch)
    ensures p.Commit? ==>
      && p.path == AbsPath(cwd, filePath) && fs.IsFile(p.path) && p.original == UniversalNewlines(fs.files[p.path])
      && p.path !in fs.undecodable
      && p.edits == |raw| > 0 && FirstIssue(raw).None?
      && ApplyEdits(p.original, OpsOf(raw)) == Done(p.content)
    ensures |raw| == 0 && fs.IsFile(AbsPath(cwd, filePath)) && StartsWith(AbsPath(cwd, filePath), "/") ==>
      p == Reject(NoEditsMessage)
    ensures var path := AbsPath(cwd, filePath);
      fs.IsFile(path) && StartsWith(path, "/") && |raw| > 0 && FirstIssue(raw).Some? ==>
        p == Reject(Issue(FirstIssue(raw).value, raw[FirstIssue(raw).value]).value)
  {
    var path := AbsPath(cwd, filePath);
    if !StartsWith(path, "/") then Reject(NotAbsoluteLead + path)
    else if !fs.Exists(path) then Reject("Error: File does not exist: " + path)
    else if !fs.IsFile(path) then Reject("Error: Path is not a file: " + path)
    else if |raw| == 0 then Reject(NoEditsMessage)
    else ParseReadApply(fs, path, raw, readFault)
  }

  /** The parse loop, then the read and the apply loop, for a path that names a file. */
  function ParseReadApply(fs: FileSystem, path: string, raw: seq<RawEdit>, readFault: Option<Exc>): (p: Batch)
    requires fs.IsFile(path)
    ensures p.Commit? ==>
      && p.path == path && p.original == UniversalNewlines(fs.files[path]) && path !in fs.undecodable
      && p.edits == |raw| && FirstIssue(raw).None?
      && ApplyEdits(p.original, OpsOf(raw)) == Done(p.content)
    ensures FirstIssue(raw).Some? ==> p == Reject(Issue(FirstIssue(raw).value, raw[FirstIssue(raw).value]).value)
  {
    match FirstIssue(raw)
    case Some(k) => Reject(Issue(k, raw[k]).value)
    case None => ReadAndApply(fs, path, OpsOf(raw), |raw|, readFault)
  }

  /** The read and the apply loop of a batch whose edits all parsed. */
  function ReadAndApply(fs: FileSystem, path: string, ops: seq<EditOp>, edits: nat, readFault: Option<Exc>): (p: Batch)
    requires fs.IsFile(path)
    ensures p.Commit? ==>
      && p.path == path && p.original == UniversalNewlines(fs.files[path]) && path !in fs.undecodable
      && p.edits == edits && ApplyEdits(p.original, ops) == Done(p.content)
  {
    match StrictRead(fs, path, readFault)
    case Raised(e) =>
      if e.kind == DecodeErr then Reject(NotUtf8Lead + path)
      else Reject("Error reading file: " + e.message)
    case Text(content) =>
      match ApplyEdits(content, ops)
      case Failed(i, d) => Reject(FailureMessage(i, d))
      case Done(c) => Commit(path, content, c, edits)
  }

  /** Everything `multiedit` does before writing: the path checks, the parse
      loop, the read and the apply loop. */
  method Prepare(fs: FileSystem, cwd: string, filePath: string, raw: seq<RawEdit>, readFault: Option<Exc>)
    returns (b: Batch)
    ensures b == PlanMultiEdit(fs, cwd, filePath, raw, readFault)
  {
    var path := AbsPath(cwd, filePath);
    if !StartsWith(path, "/") {
      return Reject(NotAbsoluteLead + path);
    }
    if !fs.Exists(path) {
      return Reject("Error: File does not exist: " + path);
    }
    if !fs.IsFile(path) {
      return Reject("Error: Path is not a file: " + path);
    }
    if |raw| == 0 {
      return Reject(NoEditsMessage);
    }
    b := ParseThenApply(fs, path, raw, readFault);
  }

  /** The parse loop, then the read and the apply loop. */
  method ParseThenApply(fs: FileSystem, path: string, raw: seq<RawEdit>, readFault: Option<Exc>)
    returns (b: Batch)
    requires fs.IsFile(path)
    ensures b == ParseReadApply(fs, path, raw, readFault)
  {
    var parsed := ParseEdits(raw);
    if parsed.Rejected? {
      return Reject(parsed.message);
    }
    assert parsed.ops == OpsOf(raw);
    b := ReadApply(fs, path, parsed.ops, |raw|, readFault);
  }

  /** The read and the apply loop, as `ReadAndApply` describes them. */
  method ReadApply(fs: FileSystem, path: string, ops: seq<EditOp>, edits: nat, readFault: Option<Exc>)
    returns (b: Batch)
    requires fs.IsFile(path)
    ensures b == ReadAndApply(fs, path, ops, edits, readFault)
  {
    var read := StrictRead(fs, path, readFault);
    if read.Raised? {
      if read.exc.kind == DecodeErr {
        return Reject(NotUtf8Lead + path);
      }
      return Reject("Error reading file: " + read.exc.message);
    }
    var applied := ApplyAll(read.text, ops);
    if applied.Failed? {
      return Reject(FailureMessage(applied.index, applied.decision));
    }
    return Commit(path, read.text, applied.content, edits);
  }

  /** `multiedit`: a failing plan leaves the disk untouched; a successful one is
      written once; a failed write reports the error and writes the original back
      (when that write succeeds too, the disk is as before the call). */
  method MultiEditFile(disk: Disk, cwd: string, filePath: string, raw: seq<RawEdit>, readFault: Option<Exc>,
                       writeFault: Option<WriteFault>, restoreFault: Option<WriteFault>) returns (msg: string)
    requires disk.fs.Valid()
    modifies disk
    ensures disk.fs.Valid() && disk.fs.dirs == old(disk.fs.dirs)
    ensures var p := PlanMultiEdit(old(disk.fs), cwd, filePath, raw, readFault);
      p.Reject? ==> msg == p.message && disk.fs == old(disk.fs)
    ensures var p := PlanMultiEdit(old(disk.fs), cwd, filePath, raw, readFault);
      p.Commit? && writeFault.None? ==>
        && disk.fs == old(disk.fs).(files := old(disk.fs.files)[p.path := p.content])
        && msg == SuccessMessage(p)
    ensures var p := PlanMultiEdit(old(disk.fs), cwd, filePath, raw, readFault);
      p.Commit? && writeFault.Some? ==>
        && msg == "Error writing file: " + writeFault.value.exc.message
        && (restoreFault.None? ==> disk.fs == old(disk.fs).(files := old(disk.fs.files)[p.path := p.original]))
        && (restoreFault.None? && '\r' !in old(disk.fs.files[p.path]) ==> disk.fs == old(disk.fs))
        && (restoreFault.Some? ==>
              disk.fs == old(disk.fs).(files := old(disk.fs.files)[p.path :=
                LeftAfterRefusedRestore(old(disk.fs.files[p.path]), writeFault.value, restoreFault.value)]))
  {
    var plan := Prepare(disk.fs, cwd, filePath, raw, readFault);
    if plan.Reject? {
      return plan.message;
    }
    msg := WriteBack(disk, plan, writeFault, restoreFault);
  }

  /** The success message for a committed batch. */
  function SuccessMessage(p: Batch): string
    requires p.Commit?
  {
    "Successfully applied " + IntToString(p.edits) + " edits to " + p.path
      + " (" + IntToString(LineTotal(p.content)) + " lines total)"
  }

  /** What the file holds when both the write and the restore fail: what the
      refused restore left behind, else what the refused write left behind,
      else the text it held before. */
  function LeftAfterRefusedRestore(stored: string, writeFault: WriteFault, restoreFault: WriteFault): string {
    if restoreFault.leftBehind.Some? then restoreFault.leftBehind.value
    else if writeFault.leftBehind.Some? then writeFault.leftBehind.value
    else stored
  }

  /** Writing a committed batch, and writing the original back when that fails. */
  method WriteBack(disk: Disk, p: Batch, writeFault: Option<WriteFault>, restoreFault: Option<WriteFault>)
    returns (msg: string)
    requires disk.fs.Valid() && p.Commit?
    requires disk.fs.IsFile(p.path) && p.original == UniversalNewlines(disk.fs.files[p.path])
    requires p.path !in disk.fs.undecodable
    modifies disk
    ensures disk.fs.Valid() && disk.fs.dirs == old(disk.fs.dirs)
    ensures writeFault.None? ==>
      && disk.fs == old(disk.fs).(files := old(disk.fs.files)[p.path := p.content])
      && msg == SuccessMessage(p)
    ensures writeFault.Some? ==>
      && msg == "Error writing file: " + writeFault.value.exc.message
      && (restoreFault.None? ==> disk.fs == old(disk.fs).(files := old(disk.fs.files)[p.path := p.original]))
      && (restoreFault.None? && '\r' !in old(disk.fs.files[p.path]) ==> disk.fs == old(disk.fs))
      && (restoreFault.Some? ==>
            disk.fs == old(disk.fs).(files := old(disk.fs.files)[p.path :=
              LeftAfterRefusedRestore(old(disk.fs.files[p.path]), writeFault.value, restoreFault.value)]))
  {
    ghost var before := disk.fs;
    assert p.path !in disk.fs.dirs;
    var err := disk.Write(p.path, p.content, writeFault);
    if err.Some? {
      var _ := disk.Write(p.path, p.original, restoreFault);
      if restoreFault.None? {
        assert disk.fs.undecodable == before.undecodable;
        if '\r' !in before.files[p.path] {
          UniversalNewlinesKeeps(before.files[p.path]);
          assert disk.fs.files == before.files;
        }
      }
      return "Error writing file: " + err.value.message;
    }
    msg := "Successfully applied " + IntToString(p.edits) + " edits to " + p.path
           + " (" + IntToString(LineTotal(p.content)) + " lines total)";
  }
}
