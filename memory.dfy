/** Loading COPERT.md at start-up and wrapping it for the system context. */
module Memory {
  import opened PyStr
  import opened Fs

  /** Where `load_copert_md` looks: `Path(cwd) / "COPERT.md"`, with `cwd`
      defaulting (only when absent) to the process's working directory, and a
      relative result taken against that directory. */
  function CopertPath(processCwd: string, cwd: Option<string>): string {
    AbsPath(processCwd, PathJoin(if cwd.Some? then cwd.value else processCwd, "COPERT.md"))
  }

  /** `load_copert_md`: the text, read in text mode, when the path is an
      existing regular file that reads as valid UTF-8; any failure is
      swallowed into `None`. */
  function LoadCopertMd(fs: FileSystem, processCwd: string, cwd: Option<string>, readFault: Option<Exc>)
    : (r: Option<string>)
    ensures var p := CopertPath(processCwd, cwd);
      r.Some? <==> fs.IsFile(p) && readFault.None? && p !in fs.undecodable
    ensures r.Some? ==> r.value == UniversalNewlines(fs.files[CopertPath(processCwd, cwd)])
  {
    var p := CopertPath(processCwd, cwd);
    if fs.Exists(p) && fs.IsFile(p) then
      match StrictRead(fs, p, readFault)
      case Text(t) => Some(t)
      case Raised(_) => None
    else None
  }

  /** Leaving `cwd` out is the same as passing the working directory. */
  lemma {:induction false} DefaultCwd(fs: FileSystem, processCwd: string, readFault: Option<Exc>)
    ensures LoadCopertMd(fs, processCwd, None, readFault) == LoadCopertMd(fs, processCwd, Some(processCwd), readFault)
  {
  }

  const ContextHeader: string :=
    "\n\n# Project Context (from COPERT.md)\n\n"
    + "The following information provides project-specific context loaded from COPERT.md:\n\n"

  const ContextFooter: string :=
    "\n\n---\n\nUse the above project context to better understand this codebase and provide more accurate assistance.\n"

  /** `format_copert_context` */
  function FormatCopertContext(content: string): (r: string)
    ensures |r| == |ContextHeader| + |content| + |ContextFooter|
    ensures StartsWith(r, ContextHeader) && EndsWith(r, ContextFooter)
  {
    ContextHeader + content + ContextFooter
  }

  /** Recovers the content from a formatted context. */
  function ExtractContext(s: string): Option<string> {
    if |s| >= |ContextHeader| + |ContextFooter| && StartsWith(s, ContextHeader) && EndsWith(s, ContextFooter)
    then Some(s[|ContextHeader|..|s| - |ContextFooter|])
    else None
  }

  /** The content sits verbatim between the header and the footer. */
  lemma {:induction false} ExtractFormat(content: string)
    ensures ExtractContext(FormatCopertContext(content)) == Some(content)
  {
    var r := FormatCopertContext(content);
    assert r[|ContextHeader|..|r| - |ContextFooter|] == content;
  }

  /** Different contents give different contexts. */
  lemma {:induction false} FormatInjective(a: string, b: string)
    ensures FormatCopertContext(a) == FormatCopertContext(b) ==> a == b
  {
    ExtractFormat(a);
    ExtractFormat(b);
  }
}
