/** The `read_file` tool: selects a window of the file's lines with Python
    slice semantics from `offset` and `limit`, numbers each selected line
    `cat -n` style, cuts overlong lines, and prefixes a metadata line.
    The file is opened with `errors='replace'`, so the text of a file that is
    not valid UTF-8 is its stored text (with replacement characters) and no
    decoding error reaches the tool. */
module Read {
  import opened PyStr
  import opened Fs

  /** Lines longer than this are cut. */
  const MaxLineLength: nat := 2000

  const TruncationMarker: string := "... [truncated]\n"

  /** Python's normalisation of one slice bound against a length: negative
      bounds count from the end, and both ends are clamped to [0, len]. */
  function SliceIndex(i: int, len: nat): (r: nat)
    ensures r <= len
    ensures 0 <= i <= len ==> r == i
    ensures i > len ==> r == len
    ensures i < 0 ==> r == if i + len < 0 then 0 else i + len
  {
    if i < 0 then (if i + len < 0 then 0 else i + len)
    else if i > len then len
    else i
  }

  /** `lines[start:end]` (an absent end is the length). */
  function PySlice<T>(lines: seq<T>, start: int, end: Option<int>): (r: seq<T>)
    ensures |r| <= |lines|
  {
    var s := SliceIndex(start, |lines|);
    var e := if end.Some? then SliceIndex(end.value, |lines|) else |lines|;
    if s < e then lines[s..e] else []
  }

  /** `(offset - 1) if offset else 0`: 0 and `None` are both falsy. */
  function Start(offset: Option<int>): int {
    if offset.Some? && offset.value != 0 then offset.value - 1 else 0
  }

  /** `start + limit if limit else None` */
  function End(start: int, limit: Option<int>): Option<int> {
    if limit.Some? && limit.value != 0 then Some(start + limit.value) else None
  }

  /** The selected lines. */
  function Select(lines: seq<string>, offset: Option<int>, limit: Option<int>): seq<string> {
    PySlice(lines, Start(offset), End(Start(offset), limit))
  }

  /** A line over the limit keeps its first 2000 characters and gets a marker. */
  function TruncateLine(line: string): (r: string)
    ensures |line| <= MaxLineLength ==> r == line
    ensures |line| > MaxLineLength ==>
      |r| == MaxLineLength + |TruncationMarker| && r[..MaxLineLength] == line[..MaxLineLength]
      && r[MaxLineLength..] == TruncationMarker
  {
    if |line| > MaxLineLength then line[..MaxLineLength] + TruncationMarker else line
  }

  /** `f"{i:6d}\t{line.rstrip()}"` after truncation. */
  function NumberedLine(i: int, line: string): (r: string)
    ensures |r| >= 7
  {
    PadLeft6(i) + "\t" + RStrip(TruncateLine(line))
  }

  /** `fmt` applied to each line and its number, counting from `first`. */
  function Numbered(lines: seq<string>, first: int, fmt: (int, string) -> string): (r: seq<string>)
    ensures |r| == |lines|
  {
    seq(|lines|, k requires 0 <= k < |lines| => fmt(first + k, lines[k]))
  }

  /** The selected lines numbered consecutively from `first`. */
  function FormatLines(selected: seq<string>, first: int): (r: seq<string>)
    ensures |r| == |selected|
  {
    Numbered(selected, first, NumberedLine)
  }

  function Metadata(linesRead: nat, total: nat, offset: Option<int>): string {
    "[Read " + NatToString(linesRead) + " of " + NatToString(total) + " total lines"
      + (if offset.Some? && offset.value != 0 then ", starting from line " + IntToString(offset.value) else "")
      + "]"
  }

  /** The text returned for the file's text. */
  function Render(text: string, offset: Option<int>, limit: Option<int>): string {
    RenderLines(ReadLines(text), offset, limit)
  }

  /** The text returned once the file's lines are read. */
  function RenderLines(lines: seq<string>, offset: Option<int>, limit: Option<int>): string {
    var selected := Select(lines, offset, limit);
    Assemble(Metadata(|selected|, |lines|, offset), Join(FormatLines(selected, Start(offset) + 1), "\n"))
  }

  /** The metadata line, a blank line, and the numbered lines or the
      "[File is empty]" placeholder. */
  function Assemble(metadata: string, result: string): string {
    if result != "" then metadata + "\n\n" + result else metadata + "\n\n[File is empty]"
  }

  /** `read_file`, with `os.getcwd()` = `cwd`; `readFault` is what opening or
      reading the file raises, if anything. The file is read in text mode, so
      its lines are those of the newline-translated text. */
  function ReadOutput(fs: FileSystem, cwd: string, filePath: string, offset: Option<int>,
                      limit: Option<int>, readFault: Option<Exc>): string
  {
    var path := AbsPath(cwd, filePath);
    if !fs.Exists(path) then "Error: File not found: " + path
    else if !fs.IsFile(path) then "Error: Path is not a file: " + path
    else if readFault.Some? then
      match readFault.value.kind
      case PermissionErr => "Error: Permission denied: " + path
      case DecodeErr => "Error: Unable to decode file (possibly binary): " + path
      case _ => "Error reading file: " + readFault.value.typeName + ": " + readFault.value.message
    else Render(UniversalNewlines(fs.files[path]), offset, limit)
  }

  /** A lone "\r" ends a line: `readlines` on a file holding a, "\r", b
      (neither holding a line ending) gives the two lines a + "\n" and b. */
  lemma {:induction false} CarriageReturnEndsLine(a: string, b: string)
    requires forall k :: 0 <= k < |a| ==> a[k] != '\r' && a[k] != '\n'
    requires forall k :: 0 <= k < |b| ==> b[k] != '\r' && b[k] != '\n'
    requires |b| > 0
    ensures ReadLines(UniversalNewlines(a + "\r" + b)) == [a + "\n", b]
  {
    UniversalNewlinesEndings(a, b);
    UniversalNewlinesKeeps(b);
    var t := a + "\n" + b;
    forall j: nat | j < |a| ensures !OccursAt(t, "\n", j) {
      assert t[j] == a[j];
      NoOccurrenceAtMismatch(t, "\n", j);
    }
    assert t[|a|..|a| + 1] == "\n";
    assert OccursAt(t, "\n", |a|);
    assert Find(t, "\n") == Some(|a|);
    assert t[..|a| + 1] == a + "\n" && t[|a| + 1..] == b;
    forall j: nat ensures !OccursAt(b, "\n", j) {
      if j < |b| {
        NoOccurrenceAtMismatch(b, "\n", j);
      }
    }
    assert ReadLines(b) == [b];
  }

  /** Numbering one more line appends it under the next number. */
  lemma {:induction false} NumberedSnoc(lines: seq<string>, first: int, fmt: (int, string) -> string, k: nat)
    requires k < |lines|
    ensures Numbered(lines[..k + 1], first, fmt) == Numbered(lines[..k], first, fmt) + [fmt(first + k, lines[k])]
  {
    var a := Numbered(lines[..k + 1], first, fmt);
    var b := Numbered(lines[..k], first, fmt) + [fmt(first + k, lines[k])];
    assert forall j :: 0 <= j < k + 1 ==> a[j] == b[j];
  }

  /** The numbering loop: `enumerate(selected_lines, start=start + 1)`. */
  method FormatSelection(selected: seq<string>, start: int) returns (formatted: seq<string>)
    ensures formatted == FormatLines(selected, start + 1)
  {
    formatted := [];
    var k := 0;
    while k < |selected|
      invariant 0 <= k <= |selected|
      invariant formatted == FormatLines(selected[..k], start + 1)
    {
      NumberedSnoc(selected, start + 1, NumberedLine, k);
      formatted := formatted + [NumberedLine(start + 1 + k, selected[k])];
      k := k + 1;
    }
    assert selected[..k] == selected;
  }

  /** The part of `read_file` after the file is opened. */
  method RenderText(text: string, offset: Option<int>, limit: Option<int>) returns (out: string)
    ensures out == Render(text, offset, limit)
  {
    var lines := ReadLines(text);
    out := RenderSelection(lines, offset, limit);
  }

  /** Selecting, numbering and joining the lines, and the metadata line. */
  method RenderSelection(lines: seq<string>, offset: Option<int>, limit: Option<int>) returns (out: string)
    ensures out == RenderLines(lines, offset, limit)
  {
    var start := Start(offset);
    var selected := PySlice(lines, start, End(start, limit));
    var formatted := FormatSelection(selected, start);
    assert selected == Select(lines, offset, limit);
    var result := Join(formatted, "\n");
    var metadata := Metadata(|selected|, |lines|, offset);
    out := Assemble(metadata, result);
  }

  /** `read_file` */
  method ReadFile(fs: FileSystem, cwd: string, filePath: string, offset: Option<int>,
                  limit: Option<int>, readFault: Option<Exc>) returns (out: string)
    ensures out == ReadOutput(fs, cwd, filePath, offset, limit, readFault)
  {
    var path := AbsPath(cwd, filePath);
    if !fs.Exists(path) {
      return "Error: File not found: " + path;
    }
    if !fs.IsFile(path) {
      return "Error: Path is not a file: " + path;
    }
    if readFault.Some? {
      return match readFault.value.kind
        case PermissionErr => "Error: Permission denied: " + path
        case DecodeErr => "Error: Unable to decode file (possibly binary): " + path
        case _ => "Error reading file: " + readFault.value.typeName + ": " + readFault.value.message;
    }
    out := RenderText(UniversalNewlines(fs.files[path]), offset, limit);
  }

  /** Without a (truthy) offset and limit the whole file is selected, numbered
      from 1. */
  lemma {:induction false} SelectWhole(lines: seq<string>, offset: Option<int>, limit: Option<int>)
    requires offset.None? || offset.value == 0
    requires limit.None? || limit.value == 0
    ensures Select(lines, offset, limit) == lines && Start(offset) + 1 == 1
  {
  }

  /** The number of lines the tool's documentation says are read by default. */
  const DocumentedDefaultLimit := 2000

  /** As written, no limit means no limit: a file longer than the documented
      default of 2000 lines is read whole. */
  lemma {:induction false} ReadsPastDocumentedDefault(lines: seq<string>)
    requires |lines| > DocumentedDefaultLimit
    ensures |Select(lines, None, None)| == |lines| > DocumentedDefaultLimit
  {
    SelectWhole(lines, None, None);
  }

  /** The selection the documentation describes: an absent (or zero) limit
      stands for 2000 lines. */
  function SelectDocumented(lines: seq<string>, offset: Option<int>, limit: Option<int>): (r: seq<string>)
    ensures |r| <= |lines|
    ensures limit.None? || limit.value == 0 ==> |r| <= DocumentedDefaultLimit
  {
    Select(lines, offset, Some(if limit.Some? && limit.value != 0 then limit.value else DocumentedDefaultLimit))
  }

  /** With the documented default, a read without offset or limit returns the
      first 2000 lines (all of a shorter file), and a given limit is used as
      the code uses it. */
  lemma {:induction false} DocumentedDefaultHonoured(lines: seq<string>, offset: Option<int>, limit: Option<int>)
    ensures offset.None? || offset.value == 0 ==>
      SelectDocumented(lines, offset, None)
        == lines[..if |lines| < DocumentedDefaultLimit then |lines| else DocumentedDefaultLimit]
    ensures limit.Some? && limit.value != 0 ==> SelectDocumented(lines, offset, limit) == Select(lines, offset, limit)
  {
    if offset.None? || offset.value == 0 {
      assert Start(offset) == 0;
      assert End(0, Some(DocumentedDefaultLimit)) == Some(DocumentedDefaultLimit);
    }
  }

  /** With a positive offset and limit the selected lines are the window of
      at most `limit` lines beginning at line `offset`. */
  lemma {:induction false} WindowLines(lines: seq<string>, o: int, l: int)
    requires o >= 1 && l >= 1
    ensures var sel := Select(lines, Some(o), Some(l));
      && |sel| == (if o - 1 >= |lines| then 0 else if o - 1 + l > |lines| then |lines| - (o - 1) else l)
      && forall k :: 0 <= k < |sel| ==> sel[k] == lines[o - 1 + k]
  {
    assert Start(Some(o)) == o - 1;
    assert End(o - 1, Some(l)) == Some(o - 1 + l);
    var s := SliceIndex(o - 1, |lines|);
    var e := SliceIndex(o - 1 + l, |lines|);
    assert Select(lines, Some(o), Some(l)) == if s < e then lines[s..e] else [];
  }

  /** With a positive offset and limit the selection is the window of at most
      `limit` lines beginning at line `offset`, and each selected line is shown
      under its own line number in the file. */
  lemma {:induction false} SelectWindow(lines: seq<string>, o: int, l: int)
    requires o >= 1 && l >= 1
    ensures var sel := Select(lines, Some(o), Some(l));
      && |sel| <= l
      && |sel| == (if o - 1 >= |lines| then 0 else if o - 1 + l > |lines| then |lines| - (o - 1) else l)
      && forall k :: 0 <= k < |sel| ==>
           sel[k] == lines[o - 1 + k]
           && FormatLines(sel, Start(Some(o)) + 1)[k] == NumberedLine(o + k, lines[o - 1 + k])
  {
    var sel := Select(lines, Some(o), Some(l));
    WindowLines(lines, o, l);
    assert Start(Some(o)) + 1 == o;
  }

  /** The body is empty exactly when nothing was selected: every numbered line
      holds at least its six-character number and a tab. */
  lemma {:induction false} EmptyBodyIffNothingSelected(selected: seq<string>, first: int)
    ensures Join(FormatLines(selected, first), "\n") == "" <==> |selected| == 0
  {
    var f := FormatLines(selected, first);
    if |f| == 1 {
      assert Join(f, "\n") == f[0];
    } else if |f| > 1 {
      assert |Join(f, "\n")| >= |f[0]|;
    }
  }

  /** A negative offset counts from the end for the slice but not for the
      numbering: with offset -1 on a three-line file the last two lines are
      shown numbered -1 and 0. */
  lemma {:induction false} NegativeOffsetNumbering()
    ensures var lines := ["a\n", "b\n", "c\n"];
      && Select(lines, Some(-1), None) == ["b\n", "c\n"]
      && FormatLines(Select(lines, Some(-1), None), Start(Some(-1)) + 1)
         == [NumberedLine(-1, "b\n"), NumberedLine(0, "c\n")]
  {
    var lines := ["a\n", "b\n", "c\n"];
    var sel := Select(lines, Some(-1), None);
    assert sel == lines[1..3] == ["b\n", "c\n"];
  }

  /** An overlong line is shown as its first 2000 characters and the marker
      without its newline; a short line is shown without trailing white space. */
  lemma {:induction false} TruncatedDisplay(line: string)
    ensures |line| > MaxLineLength ==>
      RStrip(TruncateLine(line)) == line[..MaxLineLength] + "... [truncated]"
    ensures |line| <= MaxLineLength ==> RStrip(TruncateLine(line)) == RStrip(line)
  {
    if |line| > MaxLineLength {
      var t := TruncateLine(line);
      var r := RStrip(t);
      assert t == (line[..MaxLineLength] + "... [truncated]") + "\n";
      assert IsSpace(t[|t| - 1]) && !IsSpace(t[|t| - 2]);
      assert t[..|t| - 1] == line[..MaxLineLength] + "... [truncated]";
    }
  }
}
