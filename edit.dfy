/** `edit_file`: one exact find/replace in one file. The decision made for an
    edit (absent, ambiguous, or the replaced text and how many occurrences it
    changed) is shared with `multiedit`, which applies it edit by edit. */
module Edit {
  import opened PyStr
  import opened Fs

  /** One find/replace operation after its fields have been validated. */
  datatype EditOp = EditOp(pat: string, rep: string, replaceAll: bool)

  datatype Decision =
    | NotFound
    | Ambiguous(count: nat)
    | Replaced(content: string, replacements: nat)

  /** What one edit does to the current content: absent text fails, several
      occurrences fail unless every one is to be replaced, otherwise the text
      is replaced (all occurrences, or only the first). */
  function Decide(content: string, op: EditOp): (d: Decision)
    ensures d.NotFound? <==> !Contains(content, op.pat)
    ensures d.Ambiguous? <==> Contains(content, op.pat) && !op.replaceAll && Count(content, op.pat) > 1
    ensures d.Ambiguous? ==> d.count == Count(content, op.pat) && d.count > 1
    ensures d.Replaced? && op.replaceAll ==>
      d.content == Replace(content, op.pat, op.rep) && d.replacements == Count(content, op.pat) > 0
    ensures d.Replaced? && !op.replaceAll ==>
      && Count(content, op.pat) == 1 && d.replacements == 1
      && d.content == ReplaceFirst(content, op.pat, op.rep)
      && d.content == Replace(content, op.pat, op.rep)
  {
    if !Contains(content, op.pat) then NotFound
    else
      var occurrences := Count(content, op.pat);
      if !op.replaceAll && occurrences > 1 then Ambiguous(occurrences)
      else if op.replaceAll then Replaced(Replace(content, op.pat, op.rep), occurrences)
      else
        ReplaceUnique(content, op.pat, op.rep);
        Replaced(ReplaceFirst(content, op.pat, op.rep), 1)
  }

  /** A single (non-`replace_all`) edit changes only the occurrence it matched:
      the text before and after that span is kept, no occurrence starts before
      it, and none starts after it. */
  lemma {:induction false} SingleEditKeepsSurroundings(content: string, op: EditOp)
    requires !op.replaceAll && Decide(content, op).Replaced?
    ensures var i := Find(content, op.pat).value;
      var r := Decide(content, op).content;
      && r == content[..i] + op.rep + content[i + |op.pat|..]
      && r[..i] == content[..i]
      && r[i + |op.rep|..] == content[i + |op.pat|..]
      && forall j: nat :: j != i && (j < i || j >= i + |op.pat|) ==> !OccursAt(content, op.pat, j)
  {
    var i := Find(content, op.pat).value;
    ReplaceFirstSpan(content, op.pat, op.rep);
    forall j: nat | j != i && j >= i + |op.pat| ensures !OccursAt(content, op.pat, j) {
      NoOccurrenceAfterUnique(content, op.pat, i, j);
    }
  }

  /** With a count of one, no other occurrence begins at or after the end of the first. */
  lemma {:induction false} NoOccurrenceAfterUnique(s: string, pat: string, i: nat, j: nat)
    requires Count(s, pat) == 1 && Find(s, pat) == Some(i) && i + |pat| <= j && i != j
    ensures !OccursAt(s, pat, j)
  {
    if |pat| == 0 {
      NoEmptyOccurrenceAfterUnique(s, pat, i, j);
    } else {
      NothingAfterUnique(s, pat, i);
      OccursAtSuffix(s, pat, i + |pat|, j - i - |pat|);
      NoOccurrenceWhenCountZero(s[i + |pat|..], pat, j - i - |pat|);
    }
  }

  lemma {:induction false} NoEmptyOccurrenceAfterUnique(s: string, pat: string, i: nat, j: nat)
    requires Count(s, pat) == 1 && Find(s, pat) == Some(i) && i < j && |pat| == 0
    ensures !OccursAt(s, pat, j)
  {
  }

  /** The text after the only occurrence holds none. */
  lemma {:induction false} NothingAfterUnique(s: string, pat: string, i: nat)
    requires Count(s, pat) == 1 && Find(s, pat) == Some(i) && |pat| > 0
    ensures i + |pat| <= |s| && Count(s[i + |pat|..], pat) == 0
  {
    CountAfterFirst(s, pat, i);
  }

  lemma {:induction false} NoOccurrenceWhenCountZero(s: string, pat: string, k: nat)
    requires Count(s, pat) == 0
    ensures !OccursAt(s, pat, k)
  {
    assert Find(s, pat).None?;
  }

  /** An occurrence at `j + k` in `s` is an occurrence at `k` in `s[j..]`. */
  lemma {:induction false} OccursAtSuffix(s: string, pat: string, j: nat, k: nat)
    requires j <= |s|
    ensures OccursAt(s, pat, j + k) <==> OccursAt(s[j..], pat, k)
  {
    if j + k + |pat| <= |s| {
      assert s[j..][k..k + |pat|] == s[j + k..j + k + |pat|];
    }
  }

  /** The edit is decided on the text as a text-mode read returns it: in a
      file holding "x\r\ny", replacing "x" by "z" gives "z\ny", and the
      "\r\n" itself can never be matched. */
  lemma {:induction false} DecidesOnTranslatedText()
    ensures Decide(UniversalNewlines("x\r\ny"), EditOp("x", "z", false)) == Replaced("z\ny", 1)
    ensures !Contains(UniversalNewlines("x\r\ny"), "\r\n")
  {
    UniversalNewlinesEndings("x", "y");
    assert "x" + "\r\n" + "y" == "x\r\ny";
    UniversalNewlinesKeeps("y");
    var t := "x\ny";
    assert "x" + "\n" + "y" == t;
    assert OccursAt(t, "x", 0);
    var rest := t[1..];
    assert rest == "\ny";
    forall j: nat ensures !OccursAt(rest, "x", j) {
      if j < |rest| {
        NoOccurrenceAtMismatch(rest, "x", j);
      }
    }
    assert Count(rest, "x") == 0;
    assert Count(t, "x") == 1;
    assert ReplaceFirst(t, "x", "z") == "z\ny";
  }

  /** What `edit_file` does before touching the disk again: an error message,
      or the content to write and the number of replacements to report. */
  datatype Plan = Fail(message: string) | WriteBack(path: string, content: string, replacements: nat)

  /** The fixed parts of the messages `edit_file` returns. */
  const SameStringsMessage: string := "Error: old_string and new_string must be different"
  const AmbiguousAdvice: string := "Either provide a larger string with more surrounding context to make it unique, "
               + "or use replace_all=True to change every instance."

  /** The message of the tool's `except` clauses for a read or write failure. */
  function ExcMessage(path: string, e: Exc): string {
    match e.kind
    case PermissionErr => "Error: Permission denied: " + path
    case DecodeErr => "Error: Unable to decode file (possibly binary): " + path
    case _ => "Error editing file: " + e.typeName + ": " + e.message
  }

  /** The checks of `edit_file`, in the source's order. */
  function PlanEdit(fs: FileSystem, cwd: string, filePath: string, pat: string, rep: string,
                    replaceAll: bool, readFault: Option<Exc>): (p: Plan)
    ensures var path := AbsPath(cwd, filePath);
      p.WriteBack? ==> p.path == path && fs.IsFile(path) && path !in fs.undecodable && pat != rep
    ensures !fs.Exists(AbsPath(cwd, filePath)) ==> p == Fail("Error: File not found: " + AbsPath(cwd, filePath))
    ensures pat == rep && fs.IsFile(AbsPath(cwd, filePath)) ==>
      p == Fail(SameStringsMessage)
    ensures p.WriteBack? ==>
      var d := Decide(UniversalNewlines(fs.files[p.path]), EditOp(pat, rep, replaceAll));
      d.Replaced? && p.content == d.content && p.replacements == d.replacements
  {
    var path := AbsPath(cwd, filePath);
    if !fs.Exists(path) then Fail("Error: File not found: " + path)
    else if !fs.IsFile(path) then Fail("Error: Path is not a file: " + path)
    else if pat == rep then Fail(SameStringsMessage)
    else match StrictRead(fs, path, readFault)
      case Raised(e) => Fail(ExcMessage(path, e))
      case Text(content) =>
        match Decide(content, EditOp(pat, rep, replaceAll))
        case NotFound => Fail("Error: old_string not found in file: " + path)
        case Ambiguous(n) =>
          Fail("Error: old_string appears " + IntToString(n) + " times in the file. "
               + AmbiguousAdvice)
        case Replaced(c, n) => WriteBack(path, c, n)
  }

  /** `edit_file`: on success the file holds the computed content and the
      message reports the number of replacements; when the plan fails the disk
      is not touched. */
  method EditFile(disk: Disk, cwd: string, filePath: string, pat: string, rep: string, replaceAll: bool,
                  readFault: Option<Exc>, writeFault: Option<WriteFault>) returns (msg: string)
    requires disk.fs.Valid()
    modifies disk
    ensures disk.fs.Valid() && disk.fs.dirs == old(disk.fs.dirs)
    ensures var p := PlanEdit(old(disk.fs), cwd, filePath, pat, rep, replaceAll, readFault);
      p.Fail? ==> msg == p.message && disk.fs == old(disk.fs)
    ensures var p := PlanEdit(old(disk.fs), cwd, filePath, pat, rep, replaceAll, readFault);
      p.WriteBack? && writeFault.None? ==>
        && disk.fs == old(disk.fs).(files := old(disk.fs.files)[p.path := p.content])
        && msg == "Successfully replaced " + IntToString(p.replacements) + " occurrence(s) in " + p.path
    ensures var p := PlanEdit(old(disk.fs), cwd, filePath, pat, rep, replaceAll, readFault);
      p.WriteBack? && writeFault.Some? ==>
        && msg == ExcMessage(p.path, writeFault.value.exc)
        && (writeFault.value.leftBehind.None? ==> disk.fs == old(disk.fs))
        && (writeFault.value.leftBehind.Some? ==>
              disk.fs == old(disk.fs).(files := old(disk.fs.files)[p.path := writeFault.value.leftBehind.value]))
  {
    var plan := PlanEdit(disk.fs, cwd, filePath, pat, rep, replaceAll, readFault);
    if plan.Fail? {
      msg := plan.message;
      return;
    }
    var err := disk.Write(plan.path, plan.content, writeFault);
    if err.Some? {
      msg := ExcMessage(plan.path, err.value);
    } else {
      msg := "Successfully replaced " + IntToString(plan.replacements) + " occurrence(s) in " + plan.path;
    }
  }
}
