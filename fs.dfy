/** The filesystem the tools see: text files by absolute path, directories,
    and the files whose bytes are not valid UTF-8. Operating-system failures
    are not decided by the model: each call that can fail takes the exception
    the environment raises (or none) as a parameter. */
module Fs {
  import opened PyStr

  /** The `except` clauses of the tools tell these families apart. */
  datatype ExcKind = PermissionErr | DecodeErr | OsErr | OtherErr

  /** A raised Python exception: its family, `type(e).__name__` and `str(e)`. */
  datatype Exc = Exc(kind: ExcKind, typeName: string, message: string)

  /** A failed `open(path, 'w')` / `write`: the exception, and what the file
      holds afterwards (`None` when the failure left it untouched, for
      instance when `open` itself was refused). */
  datatype WriteFault = WriteFault(exc: Exc, leftBehind: Option<string>)

  datatype FileSystem = FileSystem(files: map<string, string>, dirs: set<string>, undecodable: set<string>)
  {
    /** A path is a file or a directory, not both; only files can fail to decode. */
    predicate Valid() { files.Keys !! dirs && undecodable <= files.Keys }

    /** `os.path.exists` */
    predicate Exists(p: string) { p in files || p in dirs }
    /** `os.path.isfile` */
    predicate IsFile(p: string) { p in files }
    /** `os.path.isdir` */
    predicate IsDir(p: string) { p in dirs }
  }

  /** `os.path.join(a, b)` for two components. */
  function PathJoin(a: string, b: string): (r: string)
    ensures StartsWith(b, "/") ==> r == b
    ensures !StartsWith(b, "/") ==> StartsWith(r, a)
  {
    if StartsWith(b, "/") then b
    else if |a| == 0 || EndsWith(a, "/") then a + b
    else a + "/" + b
  }

  /** The component loop of `posixpath.normpath`. */
  function NormComps(comps: seq<string>, absolute: bool, acc: seq<string>): seq<string>
    decreases |comps|
  {
    if |comps| == 0 then acc
    else
      var c := comps[0];
      if c == "" || c == "." then NormComps(comps[1..], absolute, acc)
      else if c != ".." || (!absolute && |acc| == 0) || (|acc| > 0 && acc[|acc| - 1] == "..") then
        NormComps(comps[1..], absolute, acc + [c])
      else if |acc| > 0 then NormComps(comps[1..], absolute, acc[..|acc| - 1])
      else NormComps(comps[1..], absolute, acc)
  }

  function LeadingSlashes(p: string): nat {
    if !StartsWith(p, "/") then 0
    else if StartsWith(p, "//") && !StartsWith(p, "///") then 2
    else 1
  }

  /** `posixpath.normpath` */
  function NormPath(p: string): (r: string)
    ensures |r| > 0
    ensures StartsWith(p, "/") ==> StartsWith(r, "/")
  {
    if p == "" then "."
    else
      var n := LeadingSlashes(p);
      var body := Join(NormComps(Split(p, "/"), n > 0, []), "/");
      var r := (if n == 2 then "//" else if n == 1 then "/" else "") + body;
      if r == "" then "." else r
  }

  /** `os.path.abspath(p)` with `os.getcwd()` = `cwd`. */
  function AbsPath(cwd: string, p: string): string {
    NormPath(if StartsWith(p, "/") then p else PathJoin(cwd, p))
  }

  /** The working directory is absolute, so `abspath` always yields an absolute
      path: the `isabs` re-checks after `abspath` can never fail. */
  lemma {:induction false} AbsPathIsAbsolute(cwd: string, p: string)
    requires StartsWith(cwd, "/")
    ensures StartsWith(AbsPath(cwd, p), "/")
  {
    if !StartsWith(p, "/") {
      var j := PathJoin(cwd, p);
      assert j[..1] == cwd[..1];
    }
  }

  /** The directories above a path: every prefix that ends just before a "/"
      (the root excepted). */
  function ParentDirs(path: string): set<string> {
    set i | 0 < i < |path| && path[i] == '/' :: path[..i]
  }

  /** The position of the last "/" of a path, if any. */
  function LastSlash(p: string): (r: Option<nat>)
    ensures r.Some? ==> r.value < |p| && p[r.value] == '/' && forall k :: r.value < k < |p| ==> p[k] != '/'
    ensures r.None? ==> forall k :: 0 <= k < |p| ==> p[k] != '/'
  {
    if |p| == 0 then None
    else if p[|p| - 1] == '/' then Some(|p| - 1)
    else LastSlash(p[..|p| - 1])
  }

  /** `Path(p).parent` for a normalised path. */
  function Parent(p: string): string {
    match LastSlash(p)
    case None => ""
    case Some(k) => if k == 0 then "/" else p[..k]
  }

  /** What `Path(path).parent.mkdir(parents=True, exist_ok=True)` raises by
      itself: nothing unless a directory to create is taken by a file; then
      the parent's own `mkdir` fails, because the parent exists as a file or
      because it lies under one. */
  function MkdirError(fs: FileSystem, path: string): Option<Exc> {
    if ParentDirs(path) * fs.files.Keys == {} then None
    else if Parent(path) in fs.files then
      Some(Exc(OsErr, "FileExistsError", "[Errno 17] File exists: '" + Parent(path) + "'"))
    else Some(Exc(OsErr, "NotADirectoryError", "[Errno 20] Not a directory: '" + Parent(path) + "'"))
  }

  /** A read's outcome: the text, or the exception raised. */
  datatype Result = Text(text: string) | Raised(exc: Exc)

  /** The text a text-mode `open(...)` yields for the stored text `s`: with
      universal newlines every "\r\n", and every other "\r", reads as "\n". */
  function UniversalNewlines(s: string): (r: string)
    ensures '\r' !in r
    ensures |r| <= |s|
    decreases |s|
  {
    if |s| == 0 then ""
    else if s[0] == '\r' then "\n" + UniversalNewlines(if |s| > 1 && s[1] == '\n' then s[2..] else s[1..])
    else [s[0]] + UniversalNewlines(s[1..])
  }

  /** A text without "\r" reads back unchanged, so reading is idempotent. */
  lemma {:induction false} UniversalNewlinesKeeps(s: string)
    requires '\r' !in s
    ensures UniversalNewlines(s) == s
    ensures UniversalNewlines(UniversalNewlines(s)) == UniversalNewlines(s)
    decreases |s|
  {
    if |s| > 0 {
      assert s[0] != '\r';
      assert '\r' !in s[1..] by {
        forall k | 0 <= k < |s[1..]| ensures s[1..][k] != '\r' {
          assert s[1..][k] == s[k + 1];
        }
      }
      UniversalNewlinesKeeps(s[1..]);
      assert s == [s[0]] + s[1..];
    }
  }

  /** A read is idempotent: what was read reads the same again. */
  lemma {:induction false} UniversalNewlinesIdempotent(s: string)
    ensures UniversalNewlines(UniversalNewlines(s)) == UniversalNewlines(s)
  {
    UniversalNewlinesKeeps(UniversalNewlines(s));
  }

  /** A prefix without "\r" reads unchanged, whatever follows it. */
  lemma {:induction false} UniversalNewlinesPrefix(a: string, b: string)
    requires '\r' !in a
    ensures UniversalNewlines(a + b) == a + UniversalNewlines(b)
    decreases |a|
  {
    if |a| == 0 {
      assert a + b == b;
    } else {
      assert '\r' !in a[1..] by {
        forall k | 0 <= k < |a[1..]| ensures a[1..][k] != '\r' {
          assert a[1..][k] == a[k + 1];
        }
      }
      UniversalNewlinesPrefix(a[1..], b);
      assert (a + b)[0] == a[0] && (a + b)[1..] == a[1..] + b;
      assert a == [a[0]] + a[1..];
    }
  }

  /** Each line ending of the three kinds reads as one "\n". */
  lemma {:induction false} UniversalNewlinesEndings(a: string, b: string)
    requires '\r' !in a
    ensures UniversalNewlines(a + "\r\n" + b) == a + "\n" + UniversalNewlines(b)
    ensures UniversalNewlines(a + "\n" + b) == a + "\n" + UniversalNewlines(b)
    ensures |b| == 0 || b[0] != '\n' ==> UniversalNewlines(a + "\r" + b) == a + "\n" + UniversalNewlines(b)
  {
    var crlf, lf, cr := "\r\n" + b, "\n" + b, "\r" + b;
    assert a + "\r\n" + b == a + crlf && a + "\n" + b == a + lf && a + "\r" + b == a + cr;
    UniversalNewlinesPrefix(a, crlf);
    UniversalNewlinesPrefix(a, lf);
    UniversalNewlinesPrefix(a, cr);
    assert crlf[2..] == b && lf[1..] == b && cr[1..] == b;
  }

  /** Reading a file strictly as UTF-8 in text mode: the environment's failure
      first, then a decoding failure for a file that is not valid text;
      otherwise the stored text with its newlines translated. */
  function StrictRead(fs: FileSystem, path: string, readFault: Option<Exc>): (r: Result)
    requires fs.IsFile(path)
    ensures r.Text? <==> readFault.None? && path !in fs.undecodable
    ensures r.Text? ==> r.text == UniversalNewlines(fs.files[path])
  {
    if readFault.Some? then Raised(readFault.value)
    else if path in fs.undecodable then Raised(Exc(DecodeErr, "UnicodeDecodeError", "'utf-8' codec can't decode"))
    else Text(UniversalNewlines(fs.files[path]))
  }

  /** The disk, which the file-mutating tools update in place. */
  class Disk {
    var fs: FileSystem

    constructor (initial: FileSystem)
      ensures fs == initial
    {
      fs := initial;
    }

    /** `Path(path).parent.mkdir(parents=True, exist_ok=True)`: every missing
        directory above `path` is created, unless the environment refuses
        (`fault`) or a file is in the way; a failure changes nothing. */
    method MakeParents(path: string, fault: Option<Exc>) returns (err: Option<Exc>)
      requires fs.Valid()
      modifies this
      ensures fs.Valid()
      ensures err == if fault.Some? then fault else MkdirError(old(fs), path)
      ensures err.Some? ==> fs == old(fs)
      ensures err.None? ==> fs == old(fs).(dirs := old(fs.dirs) + ParentDirs(path))
    {
      if fault.Some? {
        return fault;
      }
      err := MkdirError(fs, path);
      if err.None? {
        assert forall d :: d in ParentDirs(path) ==> d !in (ParentDirs(path) * fs.files.Keys);
        fs := fs.(dirs := fs.dirs + ParentDirs(path));
      }
    }

    /** `open(path, 'w', encoding='utf-8').write(content)`: a directory cannot
        be opened for writing; otherwise the environment may refuse the write
        (`fault`), else the file holds exactly `content` as valid text. */
    method Write(path: string, content: string, fault: Option<WriteFault>) returns (err: Option<Exc>)
      requires fs.Valid()
      modifies this
      ensures fs.Valid()
      ensures path in old(fs.dirs) ==> err.Some? && err.value.kind == OsErr && fs == old(fs)
      ensures path !in old(fs.dirs) && fault.Some? ==> err == Some(fault.value.exc)
      ensures path !in old(fs.dirs) && fault.Some? && fault.value.leftBehind.None? ==> fs == old(fs)
      ensures path !in old(fs.dirs) && fault.Some? && fault.value.leftBehind.Some? ==>
        fs == old(fs).(files := old(fs.files)[path := fault.value.leftBehind.value],
                       undecodable := old(fs.undecodable) - {path})
      ensures path !in old(fs.dirs) && fault.None? ==>
        err.None? && fs == old(fs).(files := old(fs.files)[path := content],
                                    undecodable := old(fs.undecodable) - {path})
    {
      if path in fs.dirs {
        err := Some(Exc(OsErr, "IsADirectoryError", "[Errno 21] Is a directory: '" + path + "'"));
      } else if fault.Some? {
        err := Some(fault.value.exc);
        if fault.value.leftBehind.Some? {
          fs := fs.(files := fs.files[path := fault.value.leftBehind.value], undecodable := fs.undecodable - {path});
        }
      } else {
        err := None;
        fs := fs.(files := fs.files[path := content], undecodable := fs.undecodable - {path});
      }
    }
  }
}
