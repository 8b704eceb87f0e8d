/** Python `str` semantics that the tools depend on: substring search, `count`
    (non-overlapping, left to right), `replace` (all / first occurrence only),
    `split`, `join`, `strip`, `lower`, `startswith`, `readlines`, and the
    decimal rendering of integers used in every message. Characters are Unicode
    scalar values, which is what Python's `len` and indexing count. */
module PyStr {

  datatype Option<T> = None | Some(value: T)

  /** `sub` occurs in `s` starting at index `i`. */
  predicate OccursAt(s: string, sub: string, i: nat) {
    i + |sub| <= |s| && s[i..i + |sub|] == sub
  }

  /** `s.startswith(p)` */
  predicate StartsWith(s: string, p: string) {
    |p| <= |s| && s[..|p|] == p
  }

  /** A string starts with itself followed by anything. */
  lemma {:induction false} StartsWithAppend(p: string, t: string)
    ensures StartsWith(p + t, p)
  {
    assert (p + t)[..|p|] == p;
  }

  /** Appending to a string keeps its prefixes. */
  lemma {:induction false} StartsWithExtend(s: string, p: string, t: string)
    requires StartsWith(s, p)
    ensures StartsWith(s + t, p)
  {
    assert (s + t)[..|p|] == s[..|p|];
  }

  /** `s.endswith(p)` */
  predicate EndsWith(s: string, p: string) {
    |p| <= |s| && s[|s| - |p|..] == p
  }

  /** A position whose character differs from the first of `sub` holds no occurrence. */
  lemma {:induction false} NoOccurrenceAtMismatch(s: string, sub: string, i: nat)
    requires |sub| > 0 && i < |s| && s[i] != sub[0]
    ensures !OccursAt(s, sub, i)
  {
  }

  /** The lowest index at or after `k` where `sub` occurs, if any. */
  function FindFrom(s: string, sub: string, k: nat): (r: Option<nat>)
    ensures r.Some? ==> k <= r.value && OccursAt(s, sub, r.value)
    ensures r.Some? ==> forall j: nat :: k <= j < r.value ==> !OccursAt(s, sub, j)
    ensures r.None? ==> forall j: nat :: k <= j ==> !OccursAt(s, sub, j)
    decreases |s| - k
  {
    if k + |sub| > |s| then None
    else if s[k..k + |sub|] == sub then Some(k)
    else FindFrom(s, sub, k + 1)
  }

  /** `s.find(sub)`: the lowest index at which `sub` occurs, if any. An empty
      `sub` is always found at 0. */
  function Find(s: string, sub: string): (r: Option<nat>)
    ensures r.Some? ==> OccursAt(s, sub, r.value)
    ensures r.Some? ==> forall j: nat :: j < r.value ==> !OccursAt(s, sub, j)
    ensures r.None? ==> forall j: nat :: !OccursAt(s, sub, j)
  {
    FindFrom(s, sub, 0)
  }

  /** `sub in s` */
  predicate Contains(s: string, sub: string) {
    Find(s, sub).Some?
  }

  lemma {:induction false} ContainsIff(s: string, sub: string)
    ensures Contains(s, sub) <==> exists j: nat :: OccursAt(s, sub, j)
  {
  }

  /** `s.count(sub)`: non-overlapping occurrences scanned left to right; an
      empty `sub` is counted at every one of the |s| + 1 positions. */
  function Count(s: string, sub: string): (r: nat)
    ensures r > 0 <==> Contains(s, sub)
    decreases |s|
  {
    if |sub| == 0 then |s| + 1
    else match Find(s, sub)
      case None => 0
      case Some(i) => 1 + Count(s[i + |sub|..], sub)
  }

  /** Counting resumes right after the first occurrence. */
  lemma {:induction false} CountAfterFirst(s: string, sub: string, i: nat)
    requires |sub| > 0 && Find(s, sub) == Some(i)
    ensures i + |sub| <= |s| && Count(s, sub) == 1 + Count(s[i + |sub|..], sub)
  {
    assert OccursAt(s, sub, i);
    var rest := Count(s[i + |sub|..], sub);
    assert Count(s, sub) == 1 + rest;
  }

  /** `s.replace(old, new, 1)` with `old` = `pat` and `new` = `rep`: only the first occurrence changes. */
  function ReplaceFirst(s: string, pat: string, rep: string): string {
    match Find(s, pat)
    case None => s
    case Some(i) => s[..i] + rep + s[i + |pat|..]
  }

  /** `s.replace(pat, rep)` (Python `s.replace(old, new)`): every
      non-overlapping occurrence, left to right. */
  function Replace(s: string, pat: string, rep: string): string {
    if |pat| == 0 then InsertEverywhere(s, rep) else ReplaceAll(s, pat, rep)
  }

  /** `s.replace("", rep)`: `rep` before every character and at the end. */
  function InsertEverywhere(s: string, rep: string): string {
    if |s| == 0 then rep else rep + [s[0]] + InsertEverywhere(s[1..], rep)
  }

  /** `s.replace(pat, rep)` for a non-empty `pat`. */
  function ReplaceAll(s: string, pat: string, rep: string): string
    requires |pat| > 0
    decreases |s|
  {
    match Find(s, pat)
    case None => s
    case Some(i) => s[..i] + rep + ReplaceAll(s[i + |pat|..], pat, rep)
  }

  /** `s.split(sep)` for a non-empty separator. */
  function Split(s: string, sep: string): (r: seq<string>)
    requires |sep| > 0
    ensures |r| > 0
    decreases |s|
  {
    match Find(s, sep)
    case None => [s]
    case Some(i) => [s[..i]] + Split(s[i + |sep|..], sep)
  }

  /** `sep.join(parts)` */
  function Join(parts: seq<string>, sep: string): string {
    if |parts| == 0 then ""
    else if |parts| == 1 then parts[0]
    else parts[0] + sep + Join(parts[1..], sep)
  }

  /** `"".join(parts)` */
  function Concat(parts: seq<string>): string {
    if |parts| == 0 then "" else parts[0] + Concat(parts[1..])
  }

  /** Characters for which Python's `str.isspace()` holds (and so that
      `strip`/`rstrip` remove). */
  predicate IsSpace(c: char) {
    ('\U{9}' <= c <= '\U{D}') || ('\U{1C}' <= c <= '\U{20}') || c == '\U{85}' || c == '\U{A0}'
    || c == '\U{1680}' || ('\U{2000}' <= c <= '\U{200A}') || c == '\U{2028}' || c == '\U{2029}'
    || c == '\U{202F}' || c == '\U{205F}' || c == '\U{3000}'
  }

  /** `s.rstrip()` */
  function RStrip(s: string): string {
    if |s| > 0 && IsSpace(s[|s| - 1]) then RStrip(s[..|s| - 1]) else s
  }

  /** `rstrip` removes exactly the trailing white space. */
  lemma {:induction false} RStripSpec(s: string)
    ensures var r := RStrip(s);
      && |r| <= |s| && r == s[..|r|]
      && (|r| > 0 ==> !IsSpace(r[|r| - 1]))
      && forall k :: |r| <= k < |s| ==> IsSpace(s[k])
  {
    if |s| > 0 && IsSpace(s[|s| - 1]) {
      RStripSpec(s[..|s| - 1]);
    }
  }

  /** `s.lstrip()` */
  function LStrip(s: string): string {
    if |s| > 0 && IsSpace(s[0]) then LStrip(s[1..]) else s
  }

  /** `lstrip` removes exactly the leading white space. */
  lemma {:induction false} LStripSpec(s: string)
    ensures var r := LStrip(s);
      && |r| <= |s| && r == s[|s| - |r|..]
      && (|r| > 0 ==> !IsSpace(r[0]))
      && forall k :: 0 <= k < |s| - |r| ==> IsSpace(s[k])
  {
    if |s| > 0 && IsSpace(s[0]) {
      LStripSpec(s[1..]);
    }
  }

  /** `s.strip()` */
  function Strip(s: string): string {
    RStrip(LStrip(s))
  }

  /** Every character is white space (so `s.strip()` is empty). */
  predicate IsBlank(s: string) {
    |s| == 0 || (IsSpace(s[0]) && IsBlank(s[1..]))
  }

  lemma {:induction false} IsBlankAll(s: string)
    ensures IsBlank(s) <==> forall k :: 0 <= k < |s| ==> IsSpace(s[k])
  {
    if |s| > 0 {
      IsBlankAll(s[1..]);
      assert forall k :: 1 <= k < |s| ==> s[k] == s[1..][k - 1];
    }
  }

  /** `s.strip()` is empty exactly for blank text. */
  lemma {:induction false} StripEmptyIffBlank(s: string)
    ensures Strip(s) == "" <==> IsBlank(s)
  {
    IsBlankAll(s);
    var l := LStrip(s);
    var r := RStrip(l);
    LStripSpec(s);
    RStripSpec(l);
    if |r| > 0 {
      assert r[0] == l[0] == s[|s| - |l|];
    }
  }

  /** Lower-casing as `str.lower()` does it for ASCII letters. */
  function LowerChar(c: char): char {
    if 'A' <= c <= 'Z' then (c as int + 32) as char else c
  }

  function Lower(s: string): (r: string)
    ensures |r| == |s| && forall k :: 0 <= k < |s| ==> r[k] == LowerChar(s[k])
  {
    if |s| == 0 then "" else [LowerChar(s[0])] + Lower(s[1..])
  }

  /** `f.readlines()` on text read with universal newlines: every line keeps
      its terminating newline; the last one may lack it. */
  function ReadLines(s: string): (r: seq<string>)
    ensures Concat(r) == s
    ensures forall k :: 0 <= k < |r| ==> |r[k]| > 0
    ensures forall k :: 0 <= k < |r| - 1 ==> EndsWith(r[k], "\n")
    decreases |s|
  {
    if |s| == 0 then []
    else match Find(s, "\n")
      case None => [s]
      case Some(i) =>
        var first := s[..i + 1];
        var rest := ReadLines(s[i + 1..]);
        assert first + s[i + 1..] == s;
        assert first[|first| - 1..] == "\n" by {
          assert OccursAt(s, "\n", i);
        }
        var r := [first] + rest;
        assert r[1..] == rest && r[0] == first;
        assert Concat(r) == first + Concat(rest);
        assert forall k :: 1 <= k < |r| ==> r[k] == rest[k - 1];
        r
  }

  /** One step of `split`: the first piece ends at the first separator. */
  lemma {:induction false} SplitStep(s: string, sep: string, i: nat)
    requires |sep| > 0 && Find(s, sep) == Some(i)
    ensures i + |sep| <= |s| && s[i..i + |sep|] == sep
    ensures Split(s, sep) == [s[..i]] + Split(s[i + |sep|..], sep)
  {
    assert OccursAt(s, sep, i);
    var rest := Split(s[i + |sep|..], sep);
    assert Split(s, sep) == [s[..i]] + rest;
  }

  /** Without a separator, `split` gives the whole string and `count` zero. */
  lemma {:induction false} SplitNone(s: string, sep: string)
    requires |sep| > 0 && Find(s, sep).None?
    ensures Split(s, sep) == [s] && Count(s, sep) == 0
  {
  }

  /** One step of `replace`: the text up to the first match is kept. */
  lemma {:induction false} ReplaceStep(s: string, pat: string, rep: string, i: nat)
    requires |pat| > 0 && Find(s, pat) == Some(i)
    ensures i + |pat| <= |s|
    ensures Replace(s, pat, rep) == s[..i] + rep + Replace(s[i + |pat|..], pat, rep)
  {
    assert OccursAt(s, pat, i);
    var rest := ReplaceAll(s[i + |pat|..], pat, rep);
    assert ReplaceAll(s, pat, rep) == s[..i] + rep + rest;
  }

  /** The number of elements of `content.split("\n")`. */
  lemma {:induction false} SplitCountsSeparators(s: string, sep: string)
    requires |sep| > 0
    ensures |Split(s, sep)| == Count(s, sep) + 1
    decreases |s|
  {
    var f := Find(s, sep);
    if f.None? {
      SplitNone(s, sep);
    } else {
      var i := f.value;
      SplitStep(s, sep, i);
      CountAfterFirst(s, sep, i);
      SplitCountsSeparators(s[i + |sep|..], sep);
    }
  }

  /** Splitting and re-joining with the same separator gives the string back. */
  lemma {:induction false} JoinSplit(s: string, sep: string)
    requires |sep| > 0
    ensures Join(Split(s, sep), sep) == s
    decreases |s|
  {
    var f := Find(s, sep);
    if f.None? {
      SplitNone(s, sep);
    } else {
      var i := f.value;
      var rest := s[i + |sep|..];
      SplitStep(s, sep, i);
      JoinSplit(rest, sep);
      JoinCons(s[..i], Split(rest, sep), sep);
      assert s == s[..i] + sep + rest;
    }
  }

  /** `replace` with a non-empty `pat` is `rep.join(s.split(pat))`, the
      reference definition CPython's documentation gives for it. */
  lemma {:induction false} ReplaceIsJoinOfSplit(s: string, pat: string, rep: string)
    requires |pat| > 0
    ensures Replace(s, pat, rep) == Join(Split(s, pat), rep)
    decreases |s|
  {
    var f := Find(s, pat);
    if f.None? {
      SplitNone(s, pat);
      ReplaceAbsent(s, pat, rep);
    } else {
      var i := f.value;
      var rest := s[i + |pat|..];
      SplitStep(s, pat, i);
      ReplaceStep(s, pat, rep, i);
      ReplaceIsJoinOfSplit(rest, pat, rep);
      JoinCons(s[..i], Split(rest, pat), rep);
    }
  }

  lemma {:induction false} JoinCons(a: string, parts: seq<string>, sep: string)
    requires |parts| > 0
    ensures Join([a] + parts, sep) == a + sep + Join(parts, sep)
  {
    assert ([a] + parts)[1..] == parts;
  }

  /** The pieces between matches hold no occurrence of the separator. */
  lemma {:induction false} SplitPiecesFree(s: string, sep: string)
    requires |sep| > 0
    ensures forall k :: 0 <= k < |Split(s, sep)| ==> !Contains(Split(s, sep)[k], sep)
    decreases |s|
  {
    var f := Find(s, sep);
    if f.None? {
      SplitNone(s, sep);
    } else {
      var i := f.value;
      SplitStep(s, sep, i);
      SplitPiecesFree(s[i + |sep|..], sep);
      var p := s[..i];
      assert |p| == i;
      forall j: nat ensures !OccursAt(p, sep, j) {
        if j + |sep| <= i {
          assert p[j..j + |sep|] == s[j..j + |sep|];
          assert !OccursAt(s, sep, j);
        }
      }
    }
  }

  /** A string without `pat` is left unchanged by `replace`. */
  lemma {:induction false} ReplaceAbsent(s: string, pat: string, rep: string)
    requires |pat| > 0 && !Contains(s, pat)
    ensures Replace(s, pat, rep) == s && ReplaceFirst(s, pat, rep) == s
  {
  }

  /** The first-occurrence replacement touches only the span of that
      occurrence: the prefix before it and the suffix after it are kept. */
  lemma {:induction false} ReplaceFirstSpan(s: string, pat: string, rep: string)
    requires Contains(s, pat)
    ensures var i := Find(s, pat).value;
      var r := ReplaceFirst(s, pat, rep);
      && |r| == |s| - |pat| + |rep|
      && r[..i] == s[..i]
      && r[i..i + |rep|] == rep
      && r[i + |rep|..] == s[i + |pat|..]
  {
  }

  /** With a single occurrence, replacing all and replacing the first agree. */
  lemma {:induction false} ReplaceUnique(s: string, pat: string, rep: string)
    requires Count(s, pat) == 1
    ensures Replace(s, pat, rep) == ReplaceFirst(s, pat, rep)
  {
    if |pat| > 0 {
      var i := Find(s, pat).value;
      CountAfterFirst(s, pat, i);
      ReplaceStep(s, pat, rep, i);
      ReplaceAbsent(s[i + |pat|..], pat, rep);
    }
  }

  /** Replacing the first occurrence of `pat` and then the first occurrence of
      `rep` in the result restores the original string, provided `rep` does
      not already occur before the place where it was put. */
  lemma {:induction false} UndoReplaceFirst(s: string, pat: string, rep: string)
    requires Contains(s, pat)
    requires Find(ReplaceFirst(s, pat, rep), rep) == Some(Find(s, pat).value)
    ensures ReplaceFirst(ReplaceFirst(s, pat, rep), rep, pat) == s
  {
    var i := Find(s, pat).value;
    var r := ReplaceFirst(s, pat, rep);
    ReplaceFirstSpan(s, pat, rep);
    assert r[..i] + pat + r[i + |rep|..] == s[..i] + s[i..i + |pat|] + s[i + |pat|..];
    assert s[..i] + s[i..i + |pat|] + s[i + |pat|..] == s;
  }

  // ---- Decimal rendering ----

  function DigitChar(d: nat): char
    requires d < 10
  {
    ('0' as int + d) as char
  }

  predicate IsDigit(c: char) {
    '0' <= c <= '9'
  }

  /** `str(n)` for a natural number. */
  function NatToString(n: nat): (r: string)
    ensures |r| > 0
    ensures forall k :: 0 <= k < |r| ==> IsDigit(r[k])
    decreases n
  {
    if n < 10 then [DigitChar(n)] else NatToString(n / 10) + [DigitChar(n % 10)]
  }

  /** `str(i)` for any integer. */
  function IntToString(i: int): (r: string)
    ensures |r| > 0
    ensures (r[0] == '-') <==> i < 0
  {
    if i < 0 then "-" + NatToString(-i) else NatToString(i)
  }

  /** The value of a non-empty run of decimal digits. */
  function DigitsValue(s: string): nat
    requires forall k :: 0 <= k < |s| ==> IsDigit(s[k])
  {
    if |s| == 0 then 0
    else
      assert IsDigit(s[|s| - 1]);
      DigitsValue(s[..|s| - 1]) * 10 + (s[|s| - 1] as int - '0' as int)
  }

  /** `int(s)` for the canonical renderings produced by `str`. */
  function ParseInt(s: string): Option<int> {
    if |s| > 0 && s[0] == '-' then
      if |s| > 1 && forall k :: 1 <= k < |s| ==> IsDigit(s[k]) then
        var v: int := DigitsValue(s[1..]);
        Some(-v)
      else None
    else if |s| > 0 && forall k :: 0 <= k < |s| ==> IsDigit(s[k]) then Some(DigitsValue(s))
    else None
  }

  lemma {:induction false} NatToStringValue(n: nat)
    ensures DigitsValue(NatToString(n)) == n
    decreases n
  {
    if n >= 10 {
      NatToStringValue(n / 10);
      var r := NatToString(n);
      assert r[..|r| - 1] == NatToString(n / 10);
    }
  }

  /** Rendering an integer and parsing it back is the identity. */
  lemma {:induction false} IntToStringRoundTrip(i: int)
    ensures ParseInt(IntToString(i)) == Some(i)
  {
    if i < 0 {
      NatToStringValue(-i);
      assert IntToString(i)[1..] == NatToString(-i);
    } else {
      NatToStringValue(i);
    }
  }

  /** Python's `f"{i:6d}"`: right-aligned in a field of six characters. */
  function PadLeft6(i: int): string {
    var d := IntToString(i);
    if |d| < 6 then Spaces(6 - |d|) + d else d
  }

  /** The field is at least six wide and ends with the number itself. */
  lemma {:induction false} PadLeft6Spec(i: int)
    ensures |PadLeft6(i)| == if |IntToString(i)| < 6 then 6 else |IntToString(i)|
    ensures EndsWith(PadLeft6(i), IntToString(i))
  {
  }

  function Spaces(n: nat): (r: string)
    ensures |r| == n && forall k :: 0 <= k < n ==> r[k] == ' '
  {
    if n == 0 then "" else " " + Spaces(n - 1)
  }
}
