/** The Python `str` operations the assistant relies on, written over
    `seq<char>`: `strip`, `lower`, `startswith`, `in`, `replace`, `split`,
    `"sep".join`, and `str` of a natural number. */
module PyText {
  import opened Base

  /** The characters for which Python's `str.isspace()` holds.  In a `str`
      pattern the regular-expression class `\s` matches the same set. */
  predicate IsSpace(c: char) {
    || c == ' ' || c == '\t' || c == '\n' || c == '\r' || c == '\U{B}' || c == '\U{C}'
    || ('\U{1C}' <= c <= '\U{1F}') || c == '\U{85}' || c == '\U{A0}' || c == '\U{1680}'
    || ('\U{2000}' <= c <= '\U{200A}') || c == '\U{2028}' || c == '\U{2029}'
    || c == '\U{202F}' || c == '\U{205F}' || c == '\U{3000}'
  }

  predicate AllSpace(s: string) {
    forall i :: 0 <= i < |s| ==> IsSpace(s[i])
  }

  /** Neither the first nor the last character is whitespace. */
  predicate Stripped(s: string) {
    s == [] || (!IsSpace(s[0]) && !IsSpace(s[|s| - 1]))
  }

  function TrimStart(s: string): string {
    if s != [] && IsSpace(s[0]) then TrimStart(s[1..]) else s
  }

  function TrimEnd(s: string): string {
    if s != [] && IsSpace(s[|s| - 1]) then TrimEnd(s[..|s| - 1]) else s
  }

  /** Python's `s.strip()`. */
  function Strip(s: string): string {
    TrimEnd(TrimStart(s))
  }

  /** TrimStart drops exactly the maximal run of leading whitespace. */
  lemma {:induction false} TrimStartSpec(s: string)
    ensures var r := TrimStart(s);
      && |r| <= |s| && r == s[|s| - |r|..] && AllSpace(s[..|s| - |r|])
      && (r == [] || !IsSpace(r[0]))
  {
    if s != [] && IsSpace(s[0]) {
      TrimStartSpec(s[1..]);
      var r := TrimStart(s[1..]);
      var k := |s| - |r|;
      assert s[1..][|s| - 1 - |r|..] == s[k..];
      forall i | 0 <= i < k ensures IsSpace(s[i]) {
        if i > 0 { assert s[i] == s[1..][..|s| - 1 - |r|][i - 1]; }
      }
    }
  }

  /** TrimEnd drops exactly the maximal run of trailing whitespace. */
  lemma {:induction false} TrimEndSpec(s: string)
    ensures var r := TrimEnd(s);
      && |r| <= |s| && r == s[..|r|] && AllSpace(s[|r|..])
      && (r == [] || !IsSpace(r[|r| - 1]))
  {
    if s != [] && IsSpace(s[|s| - 1]) {
      var t := s[..|s| - 1];
      TrimEndSpec(t);
      var r := TrimEnd(t);
      assert t[..|r|] == s[..|r|];
      forall i | 0 <= i < |s| - |r| ensures IsSpace(s[|r|..][i]) {
        if |r| + i < |s| - 1 { assert s[|r|..][i] == t[|r|..][i]; }
      }
    }
  }

  /** `strip()` returns a contiguous part of its argument, everything outside
      which is whitespace, and whose own ends are not whitespace. */
  lemma StripSpec(s: string)
    ensures var r := Strip(s);
      && Stripped(r)
      && exists i :: 0 <= i <= |s| - |r| && r == s[i..i + |r|] && AllSpace(s[..i]) && AllSpace(s[i + |r|..])
  {
    TrimStartSpec(s);
    var t := TrimStart(s);
    TrimEndSpec(t);
    var r := TrimEnd(t);
    var i := |s| - |t|;
    assert r == s[i..i + |r|];
    assert s[i + |r|..] == t[|r|..];
    if r != [] {
      assert r[0] == t[0];
    }
  }

  /** A string whose ends are not whitespace is its own `strip()`. */
  lemma StripOfStripped(s: string)
    requires Stripped(s)
    ensures Strip(s) == s
  {
  }

  /** Leading whitespace in front of a string that starts otherwise is
      what TrimStart removes. */
  lemma {:induction false} TrimStartAfterSpace(before: string, r: string)
    requires AllSpace(before) && (r == [] || !IsSpace(r[0]))
    ensures TrimStart(before + r) == r
    decreases |before|
  {
    if before == [] {
      assert before + r == r;
    } else {
      assert (before + r)[0] == before[0];
      assert (before + r)[1..] == before[1..] + r;
      TrimStartAfterSpace(before[1..], r);
    }
  }

  /** Trailing whitespace after a string that ends otherwise is what
      TrimEnd removes. */
  lemma {:induction false} TrimEndBeforeSpace(r: string, after: string)
    requires AllSpace(after) && (r == [] || !IsSpace(r[|r| - 1]))
    ensures TrimEnd(r + after) == r
    decreases |after|
  {
    if after == [] {
      assert r + after == r;
    } else {
      var a := after[..|after| - 1];
      assert (r + after)[|r + after| - 1] == after[|after| - 1];
      assert (r + after)[..|r + after| - 1] == r + a;
      TrimEndBeforeSpace(r, a);
    }
  }

  /** Whitespace around a stripped string is what `strip()` removes. */
  lemma StripAround(before: string, s: string, after: string)
    requires AllSpace(before) && AllSpace(after) && Stripped(s)
    ensures Strip(before + s + after) == s
  {
    if s == [] {
      assert before + s + after == before + after;
      assert AllSpace(before + after);
      StripOfAllSpace(before + after);
    } else {
      assert before + s + after == before + (s + after);
      TrimStartAfterSpace(before, s + after);
      TrimEndBeforeSpace(s, after);
    }
  }

  /** A string of whitespace strips to nothing. */
  lemma {:induction false} StripOfAllSpace(s: string)
    requires AllSpace(s)
    ensures Strip(s) == []
    decreases |s|
  {
    if s != [] {
      assert AllSpace(s[1..]);
      StripOfAllSpace(s[1..]);
      assert TrimStart(s) == TrimStart(s[1..]);
    }
  }

  /** `strip()` is idempotent. */
  lemma StripIdempotent(s: string)
    ensures Strip(Strip(s)) == Strip(s)
  {
    StripSpec(s);
    StripOfStripped(Strip(s));
  }

  /** Python's `lower()` on the ASCII letters. */
  function LowerChar(c: char): char {
    if 'A' <= c <= 'Z' then (c as int + 32) as char else c
  }

  function Lower(s: string): string {
    seq(|s|, i requires 0 <= i < |s| => LowerChar(s[i]))
  }

  /** Python's `s.startswith(p)`. */
  predicate StartsWith(s: string, p: string) {
    |p| <= |s| && s[..|p|] == p
  }

  /** Python's `p in s` for strings. */
  predicate Contains(s: string, p: string)
    decreases |s|
  {
    StartsWith(s, p) || (s != [] && Contains(s[1..], p))
  }

  /** Python's `s.find(p)`: the leftmost index where `p` occurs. */
  function FindFirst(s: string, p: string): (r: Option<nat>)
    ensures r.Some? ==> r.value + |p| <= |s| && s[r.value..r.value + |p|] == p
    ensures r.Some? ==> forall j :: 0 <= j < r.value ==> !StartsWith(s[j..], p)
    ensures r.None? <==> !Contains(s, p)
    decreases |s|
  {
    if StartsWith(s, p) then Some(0)
    else if s == [] then None
    else match FindFirst(s[1..], p)
      case None => None
      case Some(i) =>
        assert forall j :: 1 <= j <= i ==> s[j..] == s[1..][j - 1..];
        Some(i + 1)
  }

  /** Python's `s.replace(p, "", 1)`: the leftmost occurrence of `p` removed. */
  function RemoveFirst(s: string, p: string): string {
    match FindFirst(s, p)
    case None => s
    case Some(i) => s[..i] + s[i + |p|..]
  }

  /** Python's `s.replace(p, "")` for a non-empty `p`: occurrences removed
      left to right, each search resuming after the previous one. */
  function RemoveAll(s: string, p: string): string
    decreases |s|
  {
    if p == [] || s == [] then s
    else if StartsWith(s, p) then RemoveAll(s[|p|..], p)
    else [s[0]] + RemoveAll(s[1..], p)
  }

  /** Removing a pattern that does not occur changes nothing. */
  lemma {:induction false} RemoveAllAbsent(s: string, p: string)
    requires !Contains(s, p)
    ensures RemoveAll(s, p) == s
    decreases |s|
  {
    if p != [] && s != [] {
      RemoveAllAbsent(s[1..], p);
    }
  }

  /** Python's `s.split(sep)` for a one-character separator. */
  function Split(s: string, sep: char): (r: seq<string>)
    ensures |r| >= 1
    decreases |s|
  {
    if s == [] then [[]]
    else
      var rest := Split(s[1..], sep);
      if s[0] == sep then [[]] + rest else [[s[0]] + rest[0]] + rest[1..]
  }

  /** Python's `sep.join(ls)` for a one-character separator. */
  function Join(ls: seq<string>, sep: char): string
    decreases |ls|
  {
    if ls == [] then []
    else if |ls| == 1 then ls[0]
    else ls[0] + [sep] + Join(ls[1..], sep)
  }

  function Count(s: string, c: char): nat
    decreases |s|
  {
    if s == [] then 0 else (if s[0] == c then 1 else 0) + Count(s[1..], c)
  }

  predicate NoSep(ls: seq<string>, sep: char) {
    forall k :: 0 <= k < |ls| ==> sep !in ls[k]
  }

  /** No piece of a split contains the separator. */
  lemma {:induction false} SplitPieces(s: string, sep: char)
    ensures NoSep(Split(s, sep), sep)
    decreases |s|
  {
    if s != [] {
      SplitPieces(s[1..], sep);
    }
  }

  /** Splitting yields one more piece than there are separators. */
  lemma {:induction false} SplitCount(s: string, sep: char)
    ensures |Split(s, sep)| == Count(s, sep) + 1
    decreases |s|
  {
    if s != [] {
      SplitCount(s[1..], sep);
    }
  }

  /** Joining the pieces of a split gives back the string. */
  lemma {:induction false} JoinSplit(s: string, sep: char)
    ensures Join(Split(s, sep), sep) == s
    decreases |s|
  {
    if s != [] {
      JoinSplit(s[1..], sep);
      var rest := Split(s[1..], sep);
      if s[0] != sep && |rest| > 1 {
        assert ([[s[0]] + rest[0]] + rest[1..])[1..] == rest[1..];
      }
    }
  }

  lemma {:induction false} SplitWithoutSep(a: string, sep: char)
    requires sep !in a
    ensures Split(a, sep) == [a]
    decreases |a|
  {
    if a != [] {
      assert a[0] != sep && sep !in a[1..];
      SplitWithoutSep(a[1..], sep);
      assert [a[0]] + a[1..] == a;
    }
  }

  /** A piece that holds no separator, followed by one, splits off first. */
  lemma {:induction false} SplitAfterPiece(a: string, b: string, sep: char)
    requires sep !in a
    ensures Split(a + [sep] + b, sep) == [a] + Split(b, sep)
    decreases |a|
  {
    if a == [] {
      assert ([sep] + b)[1..] == b;
    } else {
      assert (a + [sep] + b)[1..] == a[1..] + [sep] + b;
      assert (a + [sep] + b)[0] == a[0] != sep;
      SplitAfterPiece(a[1..], b, sep);
      assert [a[0]] + a[1..] == a;
    }
  }

  /** Splitting a join of separator-free pieces gives back the pieces. */
  lemma {:induction false} SplitJoin(ls: seq<string>, sep: char)
    requires ls != [] && NoSep(ls, sep)
    ensures Split(Join(ls, sep), sep) == ls
    decreases |ls|
  {
    if |ls| == 1 {
      SplitWithoutSep(ls[0], sep);
    } else {
      SplitJoin(ls[1..], sep);
      SplitAfterPiece(ls[0], Join(ls[1..], sep), sep);
    }
  }

  /** With exactly one separator, at `i`, the split has the two sides. */
  lemma SplitAtOnlySep(s: string, sep: char, i: nat)
    requires i < |s| && s[i] == sep && sep !in s[..i] && sep !in s[i + 1..]
    ensures Split(s, sep) == [s[..i], s[i + 1..]]
  {
    assert s == s[..i] + [sep] + s[i + 1..];
    SplitAfterPiece(s[..i], s[i + 1..], sep);
    SplitWithoutSep(s[i + 1..], sep);
  }

  /** A line is blank when `line.strip()` is empty (Python's falsy string). */
  predicate Blank(line: string) {
    Strip(line) == []
  }

  function KeepNonBlank(ls: seq<string>): (r: seq<string>)
    decreases |ls|
  {
    if ls == [] then []
    else (if Blank(ls[0]) then [] else [ls[0]]) + KeepNonBlank(ls[1..])
  }

  lemma {:induction false} KeepNonBlankSpec(ls: seq<string>, sep: char)
    ensures forall k :: 0 <= k < |KeepNonBlank(ls)| ==> !Blank(KeepNonBlank(ls)[k])
    ensures NoSep(ls, sep) ==> NoSep(KeepNonBlank(ls), sep)
    ensures (forall k :: 0 <= k < |ls| ==> !Blank(ls[k])) ==> KeepNonBlank(ls) == ls
    decreases |ls|
  {
    if ls != [] {
      KeepNonBlankSpec(ls[1..], sep);
    }
  }

  /** `"\n".join(line for line in s.split("\n") if line.strip())`. */
  function DropBlankLines(s: string): string {
    Join(KeepNonBlank(Split(s, '\n')), '\n')
  }

  /** The result's lines are exactly the non-blank lines of the input, in
      their original order; no blank line is left, except that an input
      with no non-blank line at all gives the empty string. */
  lemma DropBlankLinesLines(s: string)
    ensures var kept := KeepNonBlank(Split(s, '\n'));
      && (kept == [] ==> DropBlankLines(s) == [])
      && (kept != [] ==> Split(DropBlankLines(s), '\n') == kept)
    ensures DropBlankLines(s) == [] || forall k :: 0 <= k < |Split(DropBlankLines(s), '\n')| ==>
              !Blank(Split(DropBlankLines(s), '\n')[k])
  {
    var kept := KeepNonBlank(Split(s, '\n'));
    SplitPieces(s, '\n');
    KeepNonBlankSpec(Split(s, '\n'), '\n');
    if kept != [] {
      SplitJoin(kept, '\n');
    }
  }

  /** Dropping blank lines twice is the same as dropping them once. */
  lemma DropBlankLinesIdempotent(s: string)
    ensures DropBlankLines(DropBlankLines(s)) == DropBlankLines(s)
  {
    var r := DropBlankLines(s);
    DropBlankLinesLines(s);
    var kept := KeepNonBlank(Split(s, '\n'));
    if kept != [] {
      KeepNonBlankSpec(kept, '\n');
    }
  }

  function Digit(d: nat): char
    requires d < 10
  {
    "0123456789"[d]
  }

  /** Python's `str(n)` for a natural number. */
  function NatToString(n: nat): string
    decreases n
  {
    if n < 10 then [Digit(n)] else NatToString(n / 10) + [Digit(n % 10)]
  }
}
