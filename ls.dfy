/** The `ls` tool: lists a directory's entries minus the ignored ones, marks
    directories with "/" and symbolic links with "@", and prints directories
    first, then everything else, each group sorted. The directory's entries
    (in the order the operating system yields them) and the glob matcher
    `fnmatch` are parameters. */
module Ls {
  import opened PyStr
  import opened Fs

  /** One entry of `iterdir()`: its name, whether `is_dir()` holds (it
      follows symbolic links) and whether `is_symlink()` holds. */
  datatype Entry = Entry(name: string, isDir: bool, isSymlink: bool)

  /** `fnmatch(name, pattern)` */
  type Matcher = (string, string) -> bool

  /** Some ignore pattern matches the name. */
  predicate Ignored(name: string, ignore: seq<string>, matches: Matcher) {
    exists k :: 0 <= k < |ignore| && matches(name, ignore[k])
  }

  /** The type-marked name: "/" is checked first, then "@". */
  function Label(e: Entry): string {
    if e.isDir then e.name + "/"
    else if e.isSymlink then e.name + "@"
    else e.name
  }

  /** The labels of the entries that are not ignored, in listing order. */
  function Kept(listing: seq<Entry>, ignore: seq<string>, matches: Matcher): (r: seq<string>)
    ensures |r| <= |listing|
  {
    if |listing| == 0 then []
    else
      var n := |listing| - 1;
      Kept(listing[..n], ignore, matches)
        + (if Ignored(listing[n].name, ignore, matches) then [] else [Label(listing[n])])
  }

  /** A label is listed exactly when its entry is in the directory and no
      pattern matches the entry's name. */
  lemma {:induction false} KeptIff(listing: seq<Entry>, ignore: seq<string>, matches: Matcher, s: string)
    ensures s in Kept(listing, ignore, matches) <==>
      exists k :: 0 <= k < |listing| && Label(listing[k]) == s && !Ignored(listing[k].name, ignore, matches)
  {
    if |listing| > 0 {
      var n := |listing| - 1;
      var init := listing[..n];
      KeptIff(init, ignore, matches, s);
      var last := if Ignored(listing[n].name, ignore, matches) then [] else [Label(listing[n])];
      assert Kept(listing, ignore, matches) == Kept(init, ignore, matches) + last;
      if s in Kept(listing, ignore, matches) {
        if s in Kept(init, ignore, matches) {
          var k :| 0 <= k < n && Label(init[k]) == s && !Ignored(init[k].name, ignore, matches);
          assert init[k] == listing[k];
        } else {
          assert s in last;
        }
      }
      if exists k :: 0 <= k < |listing| && Label(listing[k]) == s && !Ignored(listing[k].name, ignore, matches) {
        var k :| 0 <= k < |listing| && Label(listing[k]) == s && !Ignored(listing[k].name, ignore, matches);
        if k < n {
          assert init[k] == listing[k];
          assert s in Kept(init, ignore, matches);
        } else {
          assert s in last;
        }
      }
    }
  }

  /** The inner loop: the first pattern that matches ends it. */
  method ShouldIgnore(name: string, ignore: seq<string>, matches: Matcher) returns (b: bool)
    ensures b == Ignored(name, ignore, matches)
  {
    b := false;
    var k := 0;
    while k < |ignore|
      invariant 0 <= k <= |ignore|
      invariant forall j :: 0 <= j < k ==> !matches(name, ignore[j])
    {
      if matches(name, ignore[k]) {
        return true;
      }
      k := k + 1;
    }
  }

  /** The `iterdir` loop of `ls`; `if ignore:` skips the filtering for an
      absent or empty list, which ignores nothing either way. */
  method Collect(listing: seq<Entry>, ignore: seq<string>, matches: Matcher) returns (entries: seq<string>)
    ensures entries == Kept(listing, ignore, matches)
  {
    entries := [];
    var i := 0;
    while i < |listing|
      invariant 0 <= i <= |listing|
      invariant entries == Kept(listing[..i], ignore, matches)
    {
      assert listing[..i + 1][..i] == listing[..i];
      var entry := listing[i];
      var skip := false;
      if |ignore| > 0 {
        skip := ShouldIgnore(entry.name, ignore, matches);
      }
      if !skip {
        entries := entries + [Label(entry)];
      }
      i := i + 1;
    }
    assert listing[..i] == listing;
  }

  // ---- Sorting as Python compares strings: by code point, a prefix first ----

  predicate StrLe(a: string, b: string)
    decreases |a|
  {
    |a| == 0 || (|b| > 0 && (a[0] < b[0] || (a[0] == b[0] && StrLe(a[1..], b[1..]))))
  }

  lemma {:induction false} StrLeTotal(a: string, b: string)
    ensures StrLe(a, b) || StrLe(b, a)
    decreases |a|
  {
    if |a| > 0 && |b| > 0 && a[0] == b[0] {
      StrLeTotal(a[1..], b[1..]);
    }
  }

  predicate Sorted(s: seq<string>) {
    forall i :: 0 < i < |s| ==> StrLe(s[i - 1], s[i])
  }

  function Insert(x: string, s: seq<string>): (r: seq<string>)
    requires Sorted(s)
    ensures Sorted(r) && multiset(r) == multiset(s) + multiset{x}
    ensures |r| > 0 && (r[0] == x || (|s| > 0 && r[0] == s[0]))
  {
    if |s| == 0 then [x]
    else if StrLe(x, s[0]) then [x] + s
    else
      StrLeTotal(x, s[0]);
      var t := Insert(x, s[1..]);
      assert s == [s[0]] + s[1..];
      [s[0]] + t
  }

  /** `sorted(...)` */
  function Sort(s: seq<string>): (r: seq<string>)
    ensures Sorted(r) && multiset(r) == multiset(s)
  {
    if |s| == 0 then []
    else
      assert s == [s[0]] + s[1..];
      Insert(s[0], Sort(s[1..]))
  }

  function Dirs(entries: seq<string>): (r: seq<string>)
    ensures |r| <= |entries|
  {
    if |entries| == 0 then []
    else
      var n := |entries| - 1;
      Dirs(entries[..n]) + (if EndsWith(entries[n], "/") then [entries[n]] else [])
  }

  function Files(entries: seq<string>): (r: seq<string>)
    ensures |r| <= |entries|
  {
    if |entries| == 0 then []
    else
      var n := |entries| - 1;
      Files(entries[..n]) + (if EndsWith(entries[n], "/") then [] else [entries[n]])
  }

  /** Splitting on the "/" mark loses nothing and adds nothing. */
  lemma {:induction false} DirsFilesPartition(entries: seq<string>)
    ensures multiset(Dirs(entries)) + multiset(Files(entries)) == multiset(entries)
  {
    if |entries| > 0 {
      var n := |entries| - 1;
      DirsFilesPartition(entries[..n]);
      assert entries == entries[..n] + [entries[n]];
    }
  }

  /** Every directory label ends with "/" and no other label does. */
  lemma {:induction false} DirsFilesMarked(entries: seq<string>)
    ensures forall k :: 0 <= k < |Dirs(entries)| ==> EndsWith(Dirs(entries)[k], "/")
    ensures forall k :: 0 <= k < |Files(entries)| ==> !EndsWith(Files(entries)[k], "/")
  {
    if |entries| > 0 {
      DirsFilesMarked(entries[..|entries| - 1]);
    }
  }

  /** The listing text for the labels collected from `path`. */
  function Format(path: string, entries: seq<string>): string {
    var dirs := Sort(Dirs(entries));
    var files := Sort(Files(entries));
    var sortedEntries := dirs + files;
    if |sortedEntries| == 0 then "Directory is empty: " + path
    else
      "Contents of " + path + ":\n" + Join(sortedEntries, "\n")
      + "\n\nTotal: " + NatToString(|dirs|) + " directories, " + NatToString(|files|) + " files"
  }

  /** `ls`, with `os.getcwd()` = `cwd`; `listing` is what `iterdir` yields and
      `denied` whether it raises `PermissionError`. */
  function LsOutput(fs: FileSystem, cwd: string, path: string, listing: seq<Entry>, denied: bool,
                    ignore: seq<string>, matches: Matcher): string
  {
    var p := AbsPath(cwd, path);
    if !fs.Exists(p) then "Error: Path does not exist: " + p
    else if !fs.IsDir(p) then "Error: Path is not a directory: " + p
    else if denied then "Error: Permission denied to read directory: " + p
    else Format(p, Kept(listing, ignore, matches))
  }

  /** `ls` */
  method List(fs: FileSystem, cwd: string, path: string, listing: seq<Entry>, denied: bool,
              ignore: seq<string>, matches: Matcher) returns (out: string)
    ensures out == LsOutput(fs, cwd, path, listing, denied, ignore, matches)
  {
    var p := AbsPath(cwd, path);
    if !fs.Exists(p) {
      return "Error: Path does not exist: " + p;
    }
    if !fs.IsDir(p) {
      return "Error: Path is not a directory: " + p;
    }
    var entries := Collect(listing, ignore, matches);
    if denied {
      return "Error: Permission denied to read directory: " + p;
    }
    out := Format(p, entries);
  }

  /** The printed order: all directories, sorted, then all other entries,
      sorted; together they are exactly the collected labels. */
  lemma {:induction false} ListingOrder(entries: seq<string>)
    ensures var all := Sort(Dirs(entries)) + Sort(Files(entries));
      && multiset(all) == multiset(entries)
      && Sorted(Sort(Dirs(entries))) && Sorted(Sort(Files(entries)))
      && forall i, j :: 0 <= i < j < |all| && !EndsWith(all[i], "/") ==> !EndsWith(all[j], "/")
  {
    DirsFilesPartition(entries);
    DirsFilesMarked(entries);
    var d := Sort(Dirs(entries));
    var f := Sort(Files(entries));
    forall k | 0 <= k < |d| ensures EndsWith(d[k], "/") {
      assert d[k] in multiset(Dirs(entries));
    }
    forall k | 0 <= k < |f| ensures !EndsWith(f[k], "/") {
      assert f[k] in multiset(Files(entries));
    }
  }

  /** Entry names never contain "/", so an entry is counted as a directory
      exactly when `is_dir()` held for it. */
  lemma {:induction false} DirectoryMarkIsDir(e: Entry)
    requires forall k :: 0 <= k < |e.name| ==> e.name[k] != '/'
    ensures EndsWith(Label(e), "/") <==> e.isDir
  {
    if !e.isDir && |Label(e)| > 0 {
      var l := Label(e);
      if e.isSymlink {
        assert l[|l| - 1] == '@';
      } else {
        assert l[|l| - 1] == e.name[|e.name| - 1];
      }
    }
  }
}
