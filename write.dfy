/** The `write_file` tool: creates the missing parent directories, overwrites
    the file with the given text, and reports line and character counts. */
module Write {
  import opened PyStr
  import opened Fs

  /** `content.count('\n') + 1 if content else 0` */
  function LineCount(content: string): nat {
    if content == "" then 0 else Count(content, "\n") + 1
  }

  /** `readlines` gives one line per newline, plus a last line when the text
      does not end with one. */
  lemma {:induction false} ReadLinesCount(s: string)
    ensures |ReadLines(s)| == Count(s, "\n") + (if s != "" && !EndsWith(s, "\n") then 1 else 0)
    decreases |s|
  {
    if |s| > 0 {
      match Find(s, "\n")
      case None =>
        assert !OccursAt(s, "\n", |s| - 1);
      case Some(i) =>
        ReadLinesStep(s, i);
        ReadLinesCount(s[i + 1..]);
    }
  }

  /** One step of `readlines`: the first line ends at the first newline. */
  lemma {:induction false} ReadLinesStep(s: string, i: nat)
    requires Find(s, "\n") == Some(i)
    ensures i < |s|
    ensures |ReadLines(s)| == 1 + |ReadLines(s[i + 1..])|
    ensures Count(s, "\n") == 1 + Count(s[i + 1..], "\n")
    ensures s[i + 1..] == "" ==> EndsWith(s, "\n")
    ensures s[i + 1..] != "" ==> (EndsWith(s, "\n") <==> EndsWith(s[i + 1..], "\n"))
  {
    var rest := s[i + 1..];
    CountAfterFirst(s, "\n", i);
    if rest != "" {
      assert s[|s| - 1..] == rest[|rest| - 1..];
    } else {
      assert OccursAt(s, "\n", |s| - 1);
    }
  }

  /** The reported line count is the number of pieces `split('\n')` gives for
      non-empty text, and it is one more than the number of lines read back
      when the text ends with a newline. */
  lemma {:induction false} LineCountMeaning(content: string)
    ensures content != "" ==> LineCount(content) == |Split(content, "\n")|
    ensures LineCount(content) == |ReadLines(content)| + (if EndsWith(content, "\n") then 1 else 0)
  {
    SplitCountsSeparators(content, "\n");
    ReadLinesCount(content);
  }

  function SuccessMessage(path: string, content: string): string {
    "Successfully wrote to " + path + " (" + NatToString(LineCount(content)) + " lines, "
      + NatToString(|content|) + " characters)"
  }

  /** The `except` clauses of `write_file`. */
  function WriteErrorMessage(path: string, e: Exc): string {
    match e.kind
    case PermissionErr => "Error: Permission denied: " + path
    case OsErr => "Error: Unable to write file: " + e.typeName + ": " + e.message
    case _ => "Error writing file: " + e.typeName + ": " + e.message
  }

  /** `write_file`, with `os.getcwd()` = `cwd`; `mkdirFault` and `writeFault`
      are what the environment raises, if anything, when creating the parent
      directories and when writing. */
  method WriteFile(disk: Disk, cwd: string, filePath: string, content: string,
                   mkdirFault: Option<Exc>, writeFault: Option<WriteFault>) returns (msg: string)
    requires disk.fs.Valid()
    modifies disk
    ensures disk.fs.Valid()
    ensures var path := AbsPath(cwd, filePath);
      var mk := if mkdirFault.Some? then mkdirFault else MkdirError(old(disk.fs), path);
      mk.Some? ==> msg == WriteErrorMessage(path, mk.value) && disk.fs == old(disk.fs)
    ensures var path := AbsPath(cwd, filePath);
      var mk := if mkdirFault.Some? then mkdirFault else MkdirError(old(disk.fs), path);
      var made := old(disk.fs).(dirs := old(disk.fs.dirs) + ParentDirs(path));
      mk.None? && path !in made.dirs && writeFault.None? ==>
        && msg == SuccessMessage(path, content)
        && disk.fs == made.(files := made.files[path := content], undecodable := made.undecodable - {path})
    ensures var path := AbsPath(cwd, filePath);
      var mk := if mkdirFault.Some? then mkdirFault else MkdirError(old(disk.fs), path);
      var made := old(disk.fs).(dirs := old(disk.fs.dirs) + ParentDirs(path));
      mk.None? && path !in made.dirs && writeFault.Some? ==>
        && msg == WriteErrorMessage(path, writeFault.value.exc)
        && disk.fs.dirs == made.dirs
        && (writeFault.value.leftBehind.None? ==> disk.fs == made)
        && (writeFault.value.leftBehind.Some? ==>
              disk.fs == made.(files := made.files[path := writeFault.value.leftBehind.value],
                               undecodable := made.undecodable - {path}))
    ensures var path := AbsPath(cwd, filePath);
      var mk := if mkdirFault.Some? then mkdirFault else MkdirError(old(disk.fs), path);
      var made := old(disk.fs).(dirs := old(disk.fs.dirs) + ParentDirs(path));
      mk.None? && path in made.dirs ==>
        StartsWith(msg, "Error: Unable to write file: ") && disk.fs == made
  {
    var path := AbsPath(cwd, filePath);
    var err := disk.MakeParents(path, mkdirFault);
    if err.Some? {
      return WriteErrorMessage(path, err.value);
    }
    err := disk.Write(path, content, writeFault);
    if err.Some? {
      return WriteErrorMessage(path, err.value);
    }
    msg := SuccessMessage(path, content);
  }

  /** Writing never creates a directory that a file occupies, and the file it
      writes is never one of the directories it created. */
  lemma {:induction false} ParentsAreNotThePath(path: string)
    ensures path !in ParentDirs(path)
    ensures forall d :: d in ParentDirs(path) ==> |d| < |path| && path[|d|] == '/' && path[..|d|] == d
  {
  }
}
