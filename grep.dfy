/** The `grep` tool: builds a ripgrep command line from its options and maps
    ripgrep's exit code and streams to the text it returns. Running ripgrep
    is the environment's part: its outcome is a parameter. */
module Grep {
  import opened PyStr

  datatype Mode = Content | FilesWithMatches | CountMode

  datatype GrepOptions = GrepOptions(
    pattern: string,
    path: Option<string>,
    glob: Option<string>,
    mode: Mode,
    caseInsensitive: bool,
    showLineNumbers: bool,
    contextBefore: Option<int>,
    contextAfter: Option<int>,
    multiline: bool)

  /** `if path:` / `if glob:` — absent and empty are both falsy. */
  predicate Truthy(s: Option<string>) {
    s.Some? && s.value != ""
  }

  /** The flags that follow the pattern and the path, in the order they are
      appended. */
  function Flags(o: GrepOptions): seq<string> {
    GeneralFlags(o) + ModeFlags(o)
  }

  /** "-i", "-U --multiline-dotall" and "--glob G", each when asked for. */
  function GeneralFlags(o: GrepOptions): seq<string> {
    (if o.caseInsensitive then ["-i"] else [])
    + (if o.multiline then ["-U", "--multiline-dotall"] else [])
    + (if Truthy(o.glob) then ["--glob", o.glob.value] else [])
  }

  /** "-l" or "-c"; in content mode "-n", "-B n" and "-A n", each when asked for. */
  function ModeFlags(o: GrepOptions): seq<string> {
    match o.mode
    case FilesWithMatches => ["-l"]
    case CountMode => ["-c"]
    case Content =>
      (if o.showLineNumbers then ["-n"] else [])
      + (if o.contextBefore.Some? then ["-B", IntToString(o.contextBefore.value)] else [])
      + (if o.contextAfter.Some? then ["-A", IntToString(o.contextAfter.value)] else [])
  }

  /** The whole command: "rg", the pattern, the path when given, the flags. */
  function Argv(o: GrepOptions): (r: seq<string>)
    ensures |r| >= 2 && r[0] == "rg" && r[1] == o.pattern
  {
    Head(o) + Flags(o)
  }

  /** "rg", the pattern, and the path when it is truthy. */
  function Head(o: GrepOptions): seq<string> {
    ["rg", o.pattern] + (if Truthy(o.path) then [o.path.value] else [])
  }

  /** The path, when truthy, sits right after the pattern, and the flags
      take up the rest. */
  lemma {:induction false} ArgvLayout(o: GrepOptions)
    ensures var k := if Truthy(o.path) then 3 else 2;
      var argv := Argv(o);
      && |argv| >= k && argv[k..] == Flags(o)
      && (Truthy(o.path) ==> argv[2] == o.path.value)
  {
    var k := if Truthy(o.path) then 3 else 2;
    assert Argv(o)[k..] == Flags(o);
  }

  /** The `cmd` list grown by `append` and `extend`, option by option. */
  method BuildCommand(o: GrepOptions) returns (cmd: seq<string>)
    ensures cmd == Argv(o)
  {
    cmd := StartCommand(o);
    var general := AppendGeneralFlags(cmd, o);
    cmd := AppendModeFlags(general, o);
    assert cmd == Head(o) + (GeneralFlags(o) + ModeFlags(o));
  }

  /** `cmd = ["rg"]`, then the pattern and the path appended. */
  method StartCommand(o: GrepOptions) returns (cmd: seq<string>)
    ensures cmd == Head(o)
  {
    cmd := ["rg"];
    cmd := cmd + [o.pattern];
    if Truthy(o.path) {
      cmd := cmd + [o.path.value];
    }
  }

  method AppendGeneralFlags(cmd0: seq<string>, o: GrepOptions) returns (cmd: seq<string>)
    ensures cmd == cmd0 + GeneralFlags(o)
  {
    cmd := cmd0;
    if o.caseInsensitive {
      cmd := cmd + ["-i"];
    }
    if o.multiline {
      cmd := cmd + ["-U", "--multiline-dotall"];
    }
    if Truthy(o.glob) {
      cmd := cmd + ["--glob", o.glob.value];
    }
  }

  method AppendModeFlags(cmd0: seq<string>, o: GrepOptions) returns (cmd: seq<string>)
    ensures cmd == cmd0 + ModeFlags(o)
  {
    cmd := cmd0;
    match o.mode {
      case FilesWithMatches =>
        cmd := cmd + ["-l"];
      case CountMode =>
        cmd := cmd + ["-c"];
      case Content =>
        if o.showLineNumbers {
          cmd := cmd + ["-n"];
        }
        if o.contextBefore.Some? {
          cmd := cmd + ["-B", IntToString(o.contextBefore.value)];
        }
        if o.contextAfter.Some? {
          cmd := cmd + ["-A", IntToString(o.contextAfter.value)];
        }
    }
  }

  // ---- Reading the flags back ----

  /** What the flags determine: the options with a falsy glob dropped and the
      content-only settings cleared outside content mode. */
  datatype FlagSettings = FlagSettings(
    caseInsensitive: bool,
    multiline: bool,
    glob: Option<string>,
    mode: Mode,
    showLineNumbers: bool,
    contextBefore: Option<int>,
    contextAfter: Option<int>)

  function Settings(o: GrepOptions): FlagSettings {
    var content := o.mode == Content;
    FlagSettings(o.caseInsensitive, o.multiline,
                 if Truthy(o.glob) then o.glob else None,
                 o.mode,
                 content && o.showLineNumbers,
                 if content then o.contextBefore else None,
                 if content then o.contextAfter else None)
  }

  /** An optional "-X <int>" pair at the head of `args`. */
  function ParseNumbered(flag: string, args: seq<string>): Option<(Option<int>, seq<string>)> {
    if |args| > 0 && args[0] == flag then
      if |args| >= 2 && ParseInt(args[1]).Some? then Some((ParseInt(args[1]), args[2..])) else None
    else Some((None, args))
  }

  /** "-i" at the head of `args`. */
  function ParseCase(args: seq<string>): (bool, seq<string>) {
    if |args| > 0 && args[0] == "-i" then (true, args[1..]) else (false, args)
  }

  /** "-U --multiline-dotall" at the head of `args`. */
  function ParseMultiline(args: seq<string>): (bool, seq<string>) {
    if |args| >= 2 && args[0] == "-U" && args[1] == "--multiline-dotall" then (true, args[2..])
    else (false, args)
  }

  /** "--glob G" at the head of `args`. */
  function ParseGlob(args: seq<string>): (Option<string>, seq<string>) {
    if |args| >= 2 && args[0] == "--glob" then (Some(args[1]), args[2..]) else (None, args)
  }

  /** The general flags at the head of `args`, and what follows them. */
  function ParseGeneral(args: seq<string>): (bool, bool, Option<string>, seq<string>) {
    var (ci, a1) := ParseCase(args);
    var (ml, a2) := ParseMultiline(a1);
    var (glob, a3) := ParseGlob(a2);
    (ci, ml, glob, a3)
  }

  /** The mode flags, which must make up all of `args`. */
  function ParseMode(args: seq<string>): Option<(Mode, bool, Option<int>, Option<int>)> {
    if args == ["-l"] then Some((FilesWithMatches, false, None, None))
    else if args == ["-c"] then Some((CountMode, false, None, None))
    else
      var ln := |args| > 0 && args[0] == "-n";
      var a1 := if ln then args[1..] else args;
      match ParseNumbered("-B", a1)
      case None => None
      case Some((before, a2)) =>
        match ParseNumbered("-A", a2)
        case None => None
        case Some((after, a3)) => if a3 == [] then Some((Content, ln, before, after)) else None
  }

  /** Reads a flag list back into the settings it expresses. */
  function ParseFlags(args: seq<string>): Option<FlagSettings> {
    var (ci, ml, glob, rest) := ParseGeneral(args);
    match ParseMode(rest)
    case None => None
    case Some((mode, ln, before, after)) => Some(FlagSettings(ci, ml, glob, mode, ln, before, after))
  }

  lemma {:induction false} CaseRoundTrip(on: bool, rest: seq<string>)
    requires |rest| == 0 || rest[0] != "-i"
    ensures ParseCase((if on then ["-i"] else []) + rest) == (on, rest)
  {
    var args := (if on then ["-i"] else []) + rest;
    if on {
      assert args[0] == ["-i"][0];
      assert args[1..] == rest;
    } else {
      assert args == rest;
    }
  }

  lemma {:induction false} MultilineRoundTrip(on: bool, rest: seq<string>)
    requires |rest| == 0 || rest[0] != "-U"
    ensures ParseMultiline((if on then ["-U", "--multiline-dotall"] else []) + rest) == (on, rest)
  {
    var args := (if on then ["-U", "--multiline-dotall"] else []) + rest;
    if on {
      assert args[0] == ["-U", "--multiline-dotall"][0];
      assert args[2..] == rest;
    } else {
      assert args == rest;
    }
  }

  lemma {:induction false} GlobRoundTrip(glob: Option<string>, rest: seq<string>)
    requires |rest| == 0 || rest[0] != "--glob"
    ensures ParseGlob((if Truthy(glob) then ["--glob", glob.value] else []) + rest)
      == (if Truthy(glob) then glob else None, rest)
  {
    var args := (if Truthy(glob) then ["--glob", glob.value] else []) + rest;
    if Truthy(glob) {
      assert args[0] == "--glob" && args[1] == glob.value;
      assert args[2..] == rest;
    } else {
      assert args == rest;
    }
  }

  lemma {:induction false} GeneralRoundTrip(o: GrepOptions, rest: seq<string>)
    requires |rest| == 0 || rest[0] !in {"-i", "-U", "--glob"}
    ensures ParseGeneral(GeneralFlags(o) + rest) ==
      (o.caseInsensitive, o.multiline, if Truthy(o.glob) then o.glob else None, rest)
  {
    var i: seq<string> := if o.caseInsensitive then ["-i"] else [];
    var u: seq<string> := if o.multiline then ["-U", "--multiline-dotall"] else [];
    var g: seq<string> := if Truthy(o.glob) then ["--glob", o.glob.value] else [];
    assert GeneralFlags(o) + rest == i + (u + (g + rest));
    assert "-U" != "-i" by { assert "-U"[1] != "-i"[1]; }
    assert "--glob" != "-i" by { assert |"--glob"| != |"-i"|; }
    assert "--glob" != "-U" by { assert |"--glob"| != |"-U"|; }
    GlobRoundTrip(o.glob, rest);
    MultilineRoundTrip(o.multiline, g + rest);
    CaseRoundTrip(o.caseInsensitive, u + (g + rest));
  }

  lemma {:induction false} ContentRoundTrip(o: GrepOptions)
    requires o.mode == Content
    ensures ParseMode(ModeFlags(o)) == Some((Content, o.showLineNumbers, o.contextBefore, o.contextAfter))
  {
    var n: seq<string> := if o.showLineNumbers then ["-n"] else [];
    var b: seq<string> := if o.contextBefore.Some? then ["-B", IntToString(o.contextBefore.value)] else [];
    var a: seq<string> := if o.contextAfter.Some? then ["-A", IntToString(o.contextAfter.value)] else [];
    var m := ModeFlags(o);
    assert m == n + b + a;
    assert m != ["-l"] && m != ["-c"] by {
      if o.showLineNumbers {
        assert m[0] == "-n";
      } else if o.contextBefore.Some? {
        assert m[0] == "-B";
      } else if o.contextAfter.Some? {
        assert m[0] == "-A";
      } else {
        assert m == [];
      }
    }
    assert (if o.showLineNumbers then m[1..] else m) == b + a;
    if o.contextBefore.Some? {
      IntToStringRoundTrip(o.contextBefore.value);
      assert (b + a)[2..] == a;
    }
    if o.contextAfter.Some? {
      IntToStringRoundTrip(o.contextAfter.value);
      assert a[2..] == [];
    }
  }

  lemma {:induction false} ModeRoundTrip(o: GrepOptions)
    ensures var s := Settings(o);
      ParseMode(ModeFlags(o)) == Some((s.mode, s.showLineNumbers, s.contextBefore, s.contextAfter))
  {
    if o.mode == Content {
      ContentRoundTrip(o);
    }
  }

  /** The flags determine the settings exactly: reading them back gives each
      option that takes effect, so every flag is present exactly when its
      option asks for it. */
  lemma {:induction false} FlagsRoundTrip(o: GrepOptions)
    ensures ParseFlags(Flags(o)) == Some(Settings(o))
  {
    var m := ModeFlags(o);
    assert |m| == 0 || m[0] in {"-l", "-c", "-n", "-B", "-A"};
    GeneralRoundTrip(o, m);
    ModeRoundTrip(o);
  }

  // ---- The outcome ----

  const NoMatches: string := "No matches found"

  const NotInstalled: string :=
    "Error: ripgrep (rg) not found. Please install ripgrep:\n"
    + "  - macOS: brew install ripgrep\n"
    + "  - Linux: apt install ripgrep or yum install ripgrep\n"
    + "  - Windows: choco install ripgrep"

  /** What `subprocess.run` gave: a finished run, a missing `rg` executable,
      the 30-second timeout, or another exception. */
  datatype Run =
    | Completed(returnCode: int, stdout: string, stderr: string)
    | NotFound
    | TimedOut
    | Failed(typeName: string, message: string)

  /** What `grep` returns once ripgrep has run. */
  function GrepOutput(run: Run): string {
    match run
    case Completed(code, out, err) =>
      if code == 0 then (if Strip(out) == "" then NoMatches else Strip(out))
      else if code == 1 then NoMatches
      else "Error executing ripgrep: " + (if Strip(err) != "" then Strip(err) else "Unknown error occurred")
    case NotFound => NotInstalled
    case TimedOut => "Error: Search timed out after 30 seconds"
    case Failed(t, m) => "Error executing grep: " + t + ": " + m
  }

  /** Exit code 1, or 0 with only white space printed, means no match; any
      code other than 0 and 1 is an error that carries ripgrep's message, or a
      fixed one when stderr is blank. */
  lemma {:induction false} ExitCodeMeaning(code: int, out: string, err: string)
    ensures (code == 1 || (code == 0 && IsBlank(out))) ==> GrepOutput(Completed(code, out, err)) == NoMatches
    ensures code == 0 && !IsBlank(out) ==> GrepOutput(Completed(code, out, err)) == Strip(out)
    ensures code != 0 && code != 1 ==>
      GrepOutput(Completed(code, out, err)) ==
        "Error executing ripgrep: " + (if IsBlank(err) then "Unknown error occurred" else Strip(err))
  {
    StripEmptyIffBlank(out);
    StripEmptyIffBlank(err);
  }
}
