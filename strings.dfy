/** The three Python string operations the core relies on: `str.strip()`,
    `str.split(sep)` with a one-character separator, and the substring test
    `t in s`. */
module Strings {

  /** The characters Python's `str.strip()` removes (those for which
      `str.isspace()` holds). */
  predicate IsPySpace(c: char) {
    || ('\U{9}' <= c <= '\U{D}')
    || ('\U{1C}' <= c <= '\U{20}')
    || c == '\U{85}' || c == '\U{A0}' || c == '\U{1680}'
    || ('\U{2000}' <= c <= '\U{200A}')
    || c == '\U{2028}' || c == '\U{2029}' || c == '\U{202F}'
    || c == '\U{205F}' || c == '\U{3000}'
  }

  /** `s.lstrip()`: the longest suffix of `s` that does not start with white space. */
  function TrimLeft(s: string): (r: string)
    ensures |r| <= |s| && r == s[|s| - |r|..]
    ensures r == [] || !IsPySpace(r[0])
    ensures forall i :: 0 <= i < |s| - |r| ==> IsPySpace(s[i])
  {
    if |s| > 0 && IsPySpace(s[0]) then TrimLeft(s[1..]) else s
  }

  /** `s.rstrip()`: the longest prefix of `s` that does not end with white space. */
  function TrimRight(s: string): (r: string)
    ensures |r| <= |s| && r == s[..|r|]
    ensures r == [] || !IsPySpace(r[|r| - 1])
    ensures forall i :: |r| <= i < |s| ==> IsPySpace(s[i])
  {
    if |s| > 0 && IsPySpace(s[|s| - 1]) then TrimRight(s[..|s| - 1]) else s
  }

  /** `s.strip()`. */
  function Strip(s: string): (r: string)
    ensures |r| <= |s|
    ensures r == [] || (!IsPySpace(r[0]) && !IsPySpace(r[|r| - 1]))
  {
    TrimRight(TrimLeft(s))
  }

  /** A string that `strip()` leaves alone starts and ends with a non-space. */
  predicate Stripped(s: string) {
    s == [] || (!IsPySpace(s[0]) && !IsPySpace(s[|s| - 1]))
  }

  lemma StripStripped(s: string)
    requires Stripped(s)
    ensures Strip(s) == s
  {
  }

  /** Everything `strip()` removes is white space, and it removes at both
      ends only: the result is `s[a..a + |Strip(s)|]` with only spaces outside. */
  lemma StripIsInfix(s: string) returns (a: nat)
    ensures a + |Strip(s)| <= |s|
    ensures Strip(s) == s[a..a + |Strip(s)|]
    ensures forall i :: 0 <= i < a ==> IsPySpace(s[i])
    ensures forall i :: a + |Strip(s)| <= i < |s| ==> IsPySpace(s[i])
  {
    var l := TrimLeft(s);
    a := |s| - |l|;
    var r := TrimRight(l);
    assert l == s[a..];
    assert r == l[..|r|];
    forall i | a + |r| <= i < |s|
      ensures IsPySpace(s[i])
    {
      assert s[i] == l[i - a];
    }
  }

  /** `rstrip()` removes exactly the white space that follows a string
      ending in a non-space. */
  lemma {:induction false} TrimRightSpaces(s: string, t: string)
    requires s != [] && !IsPySpace(s[|s| - 1])
    requires forall i :: 0 <= i < |t| ==> IsPySpace(t[i])
    ensures TrimRight(s + t) == s
    decreases |t|
  {
    if t != [] {
      assert (s + t)[..|s + t| - 1] == s + t[..|t| - 1];
      TrimRightSpaces(s, t[..|t| - 1]);
    } else {
      assert s + t == s;
    }
  }

  /** Stripping a stripped, non-empty string followed by white space gives
      the string back. */
  lemma StripTrailing(s: string, t: string)
    requires s != [] && Stripped(s)
    requires forall i :: 0 <= i < |t| ==> IsPySpace(t[i])
    ensures Strip(s + t) == s
  {
    assert TrimLeft(s + t) == s + t;
    TrimRightSpaces(s, t);
  }

  /** A stripped, non-empty line followed by its newline strips back to the line. */
  lemma StripNewline(s: string)
    requires s != [] && Stripped(s)
    ensures Strip(s + "\n") == s
  {
    StripTrailing(s, "\n");
  }

  /** `"".join` with a one-character separator: the inverse of `Split`. */
  function Join(parts: seq<string>, sep: char): string
    requires |parts| >= 1
  {
    if |parts| == 1 then parts[0] else parts[0] + [sep] + Join(parts[1..], sep)
  }

  /** One step of `Join` from position `i` on. */
  lemma JoinFrom(parts: seq<string>, sep: char, i: nat)
    requires i + 1 < |parts|
    ensures Join(parts[i..], sep) == parts[i] + [sep] + Join(parts[i + 1..], sep)
  {
    assert parts[i..][1..] == parts[i + 1..];
  }

  /** `s.split(sep)` for a one-character separator: the pieces between the
      separators, including empty ones; `"".split(sep) == [""]`. */
  function Split(s: string, sep: char): (r: seq<string>)
    ensures |r| >= 1
    ensures forall k :: 0 <= k < |r| ==> sep !in r[k]
    ensures Join(r, sep) == s
  {
    if |s| == 0 then [""]
    else
      var rest := Split(s[1..], sep);
      if s[0] == sep then
        assert s == [sep] + s[1..];
        [""] + rest
      else
        var r := [[s[0]] + rest[0]] + rest[1..];
        assert r[1..] == rest[1..];
        assert s == [s[0]] + s[1..];
        r
  }

  /** Joining non-empty stripped pieces gives a non-empty stripped string. */
  lemma {:induction false} JoinStripped(parts: seq<string>, sep: char)
    requires |parts| >= 1
    requires forall k :: 0 <= k < |parts| ==> parts[k] != [] && Stripped(parts[k])
    ensures Join(parts, sep) != [] && Stripped(Join(parts, sep))
  {
    if |parts| > 1 {
      JoinStripped(parts[1..], sep);
      var j := Join(parts, sep);
      assert j[0] == parts[0][0];
      assert j[|j| - 1] == Join(parts[1..], sep)[|Join(parts[1..], sep)| - 1];
    }
  }

  /** Splitting undoes joining pieces that do not contain the separator. */
  lemma {:induction false} SplitJoin(parts: seq<string>, sep: char)
    requires |parts| >= 1
    requires forall k :: 0 <= k < |parts| ==> sep !in parts[k]
    ensures Split(Join(parts, sep), sep) == parts
  {
    if |parts| == 1 {
      SplitNoSep(parts[0], sep);
    } else {
      SplitJoin(parts[1..], sep);
      SplitConcat(parts[0], Join(parts[1..], sep), sep);
      SplitNoSep(parts[0], sep);
      assert parts == [parts[0]] + parts[1..];
    }
  }

  /** A string without the separator is a single piece. */
  lemma {:induction false} SplitNoSep(s: string, sep: char)
    requires sep !in s
    ensures Split(s, sep) == [s]
  {
    if |s| > 0 {
      SplitNoSep(s[1..], sep);
      assert s == [s[0]] + s[1..];
    }
  }

  /** Splitting `a + sep + b` gives the pieces of `a` followed by those of `b`. */
  lemma {:induction false} SplitConcat(a: string, b: string, sep: char)
    ensures Split(a + [sep] + b, sep) == Split(a, sep) + Split(b, sep)
  {
    if |a| == 0 {
      assert a + [sep] + b == [sep] + b;
      assert ([sep] + b)[1..] == b;
    } else {
      var s := a + [sep] + b;
      assert s[0] == a[0];
      assert s[1..] == a[1..] + [sep] + b;
      SplitConcat(a[1..], b, sep);
    }
  }

  /** `t` occurs in `s` at position `i`. */
  predicate OccursAt(s: string, t: string, i: nat) {
    i + |t| <= |s| && s[i..i + |t|] == t
  }

  /** `t` does not occur at `i` when its first or second character differs. */
  lemma MismatchNotOccurs(s: string, t: string, i: nat)
    requires i < |s| && |t| >= 2
    requires s[i] != t[0] || (i + 1 < |s| && s[i + 1] != t[1])
    ensures !OccursAt(s, t, i)
  {
    if i + |t| <= |s| {
      assert s[i..i + |t|][0] == s[i];
      assert s[i..i + |t|][1] == s[i + 1];
    }
  }

  /** Python's substring test `t in s`. */
  predicate Contains(s: string, t: string) {
    exists i: nat :: i <= |s| && OccursAt(s, t, i)
  }

  /** `t in p + s` exactly when `t` occurs in `s`, or at a position that
      starts inside `p`. */
  lemma {:induction false} ContainsConcat(p: string, s: string, t: string)
    ensures Contains(p + s, t) <==> Contains(s, t) || exists i: nat :: i < |p| && OccursAt(p + s, t, i)
  {
    if Contains(s, t) {
      var i: nat :| i <= |s| && OccursAt(s, t, i);
      assert (p + s)[|p| + i..|p| + i + |t|] == s[i..i + |t|];
      assert OccursAt(p + s, t, |p| + i);
    }
    if j: nat :| j <= |p + s| && OccursAt(p + s, t, j) && j >= |p| {
      assert (p + s)[j..j + |t|] == s[j - |p|..j - |p| + |t|];
      assert OccursAt(s, t, j - |p|);
    }
  }
}
