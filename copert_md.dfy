/** The COPERT.md tools: write the project context file at a fixed place, the
    working directory, and read it back numbered like `read_file`. */
module CopertMd {
  import opened PyStr
  import opened Fs
  import opened Read
  import opened Write

  /** `os.path.join(os.getcwd(), "COPERT.md")`: the content never chooses the
      place. */
  function TargetPath(cwd: string): (p: string)
    ensures StartsWith(cwd, "/") ==> StartsWith(p, cwd) && EndsWith(p, "COPERT.md")
  {
    var name := "COPERT.md";
    assert !StartsWith(name, "/") by { assert name[..1][0] == 'C'; }
    var p := PathJoin(cwd, name);
    assert p == cwd + name || p == cwd + "/" + name;
    assert p[|p| - |name|..] == name;
    p
  }

  function WriteSuccessMessage(path: string, content: string): string {
    "\U{2705} Successfully wrote COPERT.md to " + path + "\n(" + NatToString(LineCount(content)) + " lines, "
      + NatToString(|content|) + " characters)\n\nThis file will be automatically loaded in future Copert sessions."
  }

  /** The `except` clauses of `write_copert_md`. */
  function WriteErrorMessage(path: string, e: Exc): string {
    match e.kind
    case PermissionErr => "Error: Permission denied writing to " + path
    case OsErr => "Error: Unable to write COPERT.md: " + e.typeName + ": " + e.message
    case _ => "Error writing COPERT.md: " + e.typeName + ": " + e.message
  }

  /** `write_copert_md`: no parent directory is created; the file holds exactly
      `content` afterwards unless the write fails. */
  method WriteCopertMd(disk: Disk, cwd: string, content: string, writeFault: Option<WriteFault>)
    returns (msg: string)
    requires disk.fs.Valid()
    modifies disk
    ensures disk.fs.Valid() && disk.fs.dirs == old(disk.fs.dirs)
    ensures var path := TargetPath(cwd);
      path !in old(disk.fs.dirs) && writeFault.None? ==>
        && msg == WriteSuccessMessage(path, content)
        && disk.fs == old(disk.fs).(files := old(disk.fs.files)[path := content],
                                    undecodable := old(disk.fs.undecodable) - {path})
    ensures var path := TargetPath(cwd);
      path !in old(disk.fs.dirs) && writeFault.Some? ==>
        && msg == WriteErrorMessage(path, writeFault.value.exc)
        && (writeFault.value.leftBehind.None? ==> disk.fs == old(disk.fs))
        && (writeFault.value.leftBehind.Some? ==>
              disk.fs == old(disk.fs).(files := old(disk.fs.files)[path := writeFault.value.leftBehind.value],
                                       undecodable := old(disk.fs.undecodable) - {path}))
    ensures var path := TargetPath(cwd);
      path in old(disk.fs.dirs) ==> StartsWith(msg, "Error: Unable to write COPERT.md: ") && disk.fs == old(disk.fs)
  {
    var path := TargetPath(cwd);
    var err := disk.Write(path, content, writeFault);
    if err.Some? {
      return WriteErrorMessage(path, err.value);
    }
    msg := WriteSuccessMessage(path, content);
  }

  function NotFoundMessage(cwd: string): string {
    "COPERT.md not found in " + cwd + "\n\nYou can create one using the init tool or write_copert_md tool."
  }

  function ReadHeader(path: string, total: nat): string {
    "[Read COPERT.md from " + path + " - " + NatToString(total) + " lines]\n\n"
  }

  /** The numbered text shown for the file's text: every line, from 1. */
  function NumberedText(text: string): string {
    Join(FormatLines(ReadLines(text), 1), "\n")
  }

  /** `read_copert_md` (the file is opened with `errors='replace'`). */
  function ReadCopertOutput(fs: FileSystem, cwd: string, readFault: Option<Exc>): string {
    var path := TargetPath(cwd);
    if !fs.Exists(path) then NotFoundMessage(cwd)
    else if !fs.IsFile(path) then "Error: COPERT.md exists but is not a file: " + path
    else if readFault.Some? then
      match readFault.value.kind
      case PermissionErr => "Error: Permission denied reading " + path
      case DecodeErr => "Error: Unable to decode COPERT.md (possibly binary): " + path
      case _ => "Error reading COPERT.md: " + readFault.value.typeName + ": " + readFault.value.message
    else ReadBody(path, UniversalNewlines(fs.files[path]))
  }

  /** The header and the numbered text of a COPERT.md that was read. */
  function ReadBody(path: string, text: string): string {
    ReadHeader(path, |ReadLines(text)|) + NumberedText(text)
  }

  /** `read_copert_md`: the same numbering loop as `read_file`, from line 1. */
  method ReadCopertMd(fs: FileSystem, cwd: string, readFault: Option<Exc>) returns (out: string)
    ensures out == ReadCopertOutput(fs, cwd, readFault)
  {
    var path := TargetPath(cwd);
    if !fs.Exists(path) {
      return NotFoundMessage(cwd);
    }
    if !fs.IsFile(path) {
      return "Error: COPERT.md exists but is not a file: " + path;
    }
    if readFault.Some? {
      return match readFault.value.kind
        case PermissionErr => "Error: Permission denied reading " + path
        case DecodeErr => "Error: Unable to decode COPERT.md (possibly binary): " + path
        case _ => "Error reading COPERT.md: " + readFault.value.typeName + ": " + readFault.value.message;
    }
    out := RenderCopertMd(path, UniversalNewlines(fs.files[path]));
  }

  /** The numbering loop over every line, from 1, under the header. */
  method RenderCopertMd(path: string, text: string) returns (out: string)
    ensures out == ReadBody(path, text)
  {
    var lines := ReadLines(text);
    var formatted := FormatSelection(lines, 0);
    var result := Join(formatted, "\n");
    out := ReadHeader(path, |lines|) + result;
  }

  /** What a successful write stores is read back in full, with its line
      endings translated: a text without "\r" comes back unchanged, and then
      the header counts the lines `readlines` finds, which is the write's
      reported count less one when the text ends with a newline. */
  lemma {:induction false} ReadAfterWrite(fs: FileSystem, cwd: string, content: string)
    requires TargetPath(cwd) !in fs.dirs
    ensures var path := TargetPath(cwd);
      var after := fs.(files := fs.files[path := content], undecodable := fs.undecodable - {path});
      var read := UniversalNewlines(content);
      && ReadCopertOutput(after, cwd, None) == ReadHeader(path, |ReadLines(read)|) + NumberedText(read)
      && ('\r' !in content ==> read == content)
      && |ReadLines(content)| + (if EndsWith(content, "\n") then 1 else 0) == LineCount(content)
  {
    LineCountMeaning(content);
    if '\r' !in content {
      UniversalNewlinesKeeps(content);
    }
  }

  /** The numbered text is what `read_file` shows for the whole file when it
      has lines; `read_copert_md` shows an empty body where `read_file` says
      the file is empty. */
  lemma {:induction false} SameNumberingAsReadFile(text: string)
    ensures NumberedText(text) != "" ==>
      Render(text, None, None) == Metadata(|ReadLines(text)|, |ReadLines(text)|, None) + "\n\n" + NumberedText(text)
    ensures NumberedText(text) == "" <==> ReadLines(text) == []
  {
    SelectWhole(ReadLines(text), None, None);
    EmptyBodyIffNothingSelected(ReadLines(text), 1);
  }
}
