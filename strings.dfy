/**
 * Python `str` operations used by the agent, over Dafny strings (sequences of
 * Unicode scalar values, which is what Python's `len` and slicing count).
 */
module Strings {

  /** Python's `str.isspace`: the characters `str.strip()` removes when given no argument. */
  predicate IsSpace(c: char) {
    c == ' ' || ('\t' <= c <= '\r') || ('\U{1C}' <= c <= '\U{1F}') || c == '\U{85}' || c == '\U{A0}'
    || c == '\U{1680}' || ('\U{2000}' <= c <= '\U{200A}') || c == '\U{2028}' || c == '\U{2029}'
    || c == '\U{202F}' || c == '\U{205F}' || c == '\U{3000}'
  }

  /** `s.rstrip()` */
  function RStrip(s: string): (r: string)
    ensures |r| <= |s| && r == s[..|r|]
    ensures r == [] || !IsSpace(r[|r| - 1])
    ensures forall i :: |r| <= i < |s| ==> IsSpace(s[i])
  {
    if s != [] && IsSpace(s[|s| - 1]) then RStrip(s[..|s| - 1]) else s
  }

  /** `s.strip()`: leading white space first, then trailing. */
  function Strip(s: string): (r: string)
    ensures |r| <= |s|
    decreases |s|
  {
    if s != [] && IsSpace(s[0]) then Strip(s[1..])
    else if s != [] && IsSpace(s[|s| - 1]) then Strip(s[..|s| - 1])
    else s
  }

  /** `strip()` keeps a contiguous piece of `s`, removes only white space around it,
      and leaves no white space at either end. */
  lemma {:induction false} StripSpec(s: string) returns (k: nat)
    ensures StripAt(s, k)
    ensures Strip(s) == [] || (!IsSpace(Strip(s)[0]) && !IsSpace(Strip(s)[|Strip(s)| - 1]))
    decreases |s|
  {
    StripEnds(s);
    if s != [] && IsSpace(s[0]) {
      var k' := StripSpec(s[1..]);
      k := k' + 1;
      StripAtFront(s, k');
    } else if s != [] && IsSpace(s[|s| - 1]) {
      k := StripSpec(s[..|s| - 1]);
      StripAtBack(s, k);
    } else {
      k := 0;
    }
  }

  /** `Strip(s)` sits at index `k` of `s` with only white space before and after it. */
  predicate StripAt(s: string, k: nat) {
    k + |Strip(s)| <= |s| && Strip(s) == s[k..k + |Strip(s)|]
    && (forall i :: 0 <= i < k ==> IsSpace(s[i]))
    && (forall i :: k + |Strip(s)| <= i < |s| ==> IsSpace(s[i]))
  }

  lemma StripAtFront(s: string, k: nat)
    requires s != [] && IsSpace(s[0]) && StripAt(s[1..], k)
    ensures StripAt(s, k + 1)
  {
    var t := s[1..];
    assert Strip(s) == Strip(t);
    assert forall i :: 1 <= i < |s| ==> s[i] == t[i - 1];
    assert s[k + 1..k + 1 + |Strip(t)|] == t[k..k + |Strip(t)|];
  }

  lemma StripAtBack(s: string, k: nat)
    requires s != [] && !IsSpace(s[0]) && IsSpace(s[|s| - 1]) && StripAt(s[..|s| - 1], k)
    ensures StripAt(s, k)
  {
    var t := s[..|s| - 1];
    assert Strip(s) == Strip(t);
    assert s[k..k + |Strip(t)|] == t[k..k + |Strip(t)|];
  }

  /** `strip()` leaves no white space at either end. */
  lemma {:induction false} StripEnds(s: string)
    ensures Strip(s) == [] || (!IsSpace(Strip(s)[0]) && !IsSpace(Strip(s)[|Strip(s)| - 1]))
    decreases |s|
  {
    if s != [] && IsSpace(s[0]) {
      StripEnds(s[1..]);
    } else if s != [] && IsSpace(s[|s| - 1]) {
      StripEnds(s[..|s| - 1]);
    }
  }

  /** A string whose `strip()` is empty: Python's `not s.strip()`. */
  predicate IsBlank(s: string) {
    Strip(s) == []
  }

  /** A string with no white space at either end is its own `strip()`. */
  lemma StripTrimmed(s: string)
    requires s == [] || (!IsSpace(s[0]) && !IsSpace(s[|s| - 1]))
    ensures Strip(s) == s
  {
  }

  /** A string that starts with a non-space character is not blank. */
  lemma NotBlankByHead(s: string)
    requires s != [] && !IsSpace(s[0])
    ensures !IsBlank(s)
  {
    var k := StripSpec(s);
  }

  /** Stripping a stripped string changes nothing. */
  lemma StripIdempotent(s: string)
    ensures Strip(Strip(s)) == Strip(s)
  {
    var _ := StripSpec(s);
    StripTrimmed(Strip(s));
  }

  predicate StartsWith(s: string, p: string) {
    |p| <= |s| && s[..|p|] == p
  }

  /** Stripping keeps a head that starts and ends with non-space characters. */
  lemma StripKeepsHead(s: string, h: string)
    requires StartsWith(s, h) && h != [] && !IsSpace(h[0]) && !IsSpace(h[|h| - 1])
    ensures StartsWith(Strip(s), h)
  {
    var k := StripSpec(s);
    assert s[0] == h[0];
    assert k == 0;
    assert s[|h| - 1] == h[|h| - 1];
    assert |h| <= |Strip(s)|;
    assert Strip(s)[..|h|] == s[..|h|];
  }

  /** Python's `p in s` (the empty string is in every string). */
  predicate Contains(s: string, p: string)
    decreases |s|
  {
    StartsWith(s, p) || (s != [] && Contains(s[1..], p))
  }

  /** `any(k in s for k in ps)` */
  predicate ContainsAny(s: string, ps: seq<string>)
    decreases |ps|
  {
    ps != [] && (Contains(s, ps[0]) || ContainsAny(s, ps[1..]))
  }

  lemma {:induction false} ContainsAt(s: string, p: string, i: nat)
    requires i + |p| <= |s| && s[i..i + |p|] == p
    ensures Contains(s, p)
    decreases i
  {
    if i > 0 {
      assert s[1..][i - 1..i - 1 + |p|] == s[i..i + |p|];
      ContainsAt(s[1..], p, i - 1);
    }
  }

  lemma {:induction false} ContainsWitness(s: string, p: string) returns (i: nat)
    requires Contains(s, p)
    ensures i + |p| <= |s| && s[i..i + |p|] == p
    decreases |s|
  {
    if StartsWith(s, p) {
      i := 0;
    } else {
      var j := ContainsWitness(s[1..], p);
      assert s[1..][j..j + |p|] == s[j + 1..j + 1 + |p|];
      i := j + 1;
    }
  }

  /** A string without the first character of `p` does not contain `p`. */
  lemma {:induction false} NotContainsWithoutHead(s: string, p: string)
    requires p != [] && forall i :: 0 <= i < |s| ==> s[i] != p[0]
    ensures !Contains(s, p)
    decreases |s|
  {
    if s != [] {
      assert s[0] != p[0];
      NotContainsWithoutHead(s[1..], p);
    }
  }

  /** What is in a part of a string is in the whole string. */
  lemma ContainsInConcat(a: string, b: string, p: string)
    ensures Contains(a, p) ==> Contains(a + b, p)
    ensures Contains(b, p) ==> Contains(a + b, p)
  {
    if Contains(a, p) {
      var i := ContainsWitness(a, p);
      assert (a + b)[i..i + |p|] == a[i..i + |p|];
      ContainsAt(a + b, p, i);
    }
    if Contains(b, p) {
      var i := ContainsWitness(b, p);
      assert (a + b)[|a| + i..|a| + i + |p|] == b[i..i + |p|];
      ContainsAt(a + b, p, |a| + i);
    }
  }

  lemma ContainsAnyWitness(s: string, ps: seq<string>) returns (k: nat)
    requires ContainsAny(s, ps)
    ensures k < |ps| && Contains(s, ps[k])
    decreases |ps|
  {
    if Contains(s, ps[0]) {
      k := 0;
    } else {
      var j := ContainsAnyWitness(s, ps[1..]);
      k := j + 1;
    }
  }

  lemma {:induction false} ContainsAnyOf(s: string, ps: seq<string>, k: nat)
    requires k < |ps| && Contains(s, ps[k])
    ensures ContainsAny(s, ps)
    decreases k
  {
    if k > 0 && !Contains(s, ps[0]) {
      ContainsAnyOf(s, ps[1..], k - 1);
    }
  }

  /** A keyword found in a part of a string is found in the whole string. */
  lemma ContainsAnyInConcat(a: string, b: string, ps: seq<string>)
    ensures ContainsAny(a, ps) ==> ContainsAny(a + b, ps)
    ensures ContainsAny(b, ps) ==> ContainsAny(a + b, ps)
  {
    if ContainsAny(a, ps) {
      var k := ContainsAnyWitness(a, ps);
      ContainsInConcat(a, b, ps[k]);
      ContainsAnyOf(a + b, ps, k);
    }
    if ContainsAny(b, ps) {
      var k := ContainsAnyWitness(b, ps);
      ContainsInConcat(a, b, ps[k]);
      ContainsAnyOf(a + b, ps, k);
    }
  }

  /** `p` occurs in `s` at index `k`. */
  predicate OccursAt(s: string, p: string, k: nat) {
    k + |p| <= |s| && s[k..k + |p|] == p
  }

  /** Python's `s.find(p, start)`: the lowest index at or after `start` where `p` occurs, or -1. */
  function Find(s: string, p: string, start: nat): (r: int)
    ensures r == -1 || (start <= r && OccursAt(s, p, r))
    ensures r >= 0 ==> forall k: nat :: start <= k < r ==> !OccursAt(s, p, k)
    ensures r == -1 ==> forall k: nat :: start <= k ==> !OccursAt(s, p, k)
    decreases |s| - start
  {
    if start + |p| > |s| then -1
    else if s[start..start + |p|] == p then start
    else Find(s, p, start + 1)
  }

  /** `p in s` agrees with `s.find(p) >= 0`. */
  lemma FindAgreesWithContains(s: string, p: string)
    ensures Contains(s, p) <==> Find(s, p, 0) >= 0
  {
    if Contains(s, p) {
      var i := ContainsWitness(s, p);
      assert OccursAt(s, p, i);
    }
    if Find(s, p, 0) >= 0 {
      ContainsAt(s, p, Find(s, p, 0));
    }
  }

  /** `s.replace("", n)`: Python puts `n` before every character and at the end. */
  function InterleaveEmpty(s: string, n: string): (r: string)
    ensures |r| == |s| + (|s| + 1) * |n|
  {
    if s == [] then n else n + [s[0]] + InterleaveEmpty(s[1..], n)
  }

  /** Python's `s.replace(o, n)`: every non-overlapping occurrence, left to right. */
  function ReplaceAll(s: string, o: string, n: string): string
    decreases |s|
  {
    if o == [] then InterleaveEmpty(s, n)
    else if |s| < |o| then s
    else if s[..|o|] == o then n + ReplaceAll(s[|o|..], o, n)
    else [s[0]] + ReplaceAll(s[1..], o, n)
  }

  /** A replacement that changes the text leaves the new string in it. */
  lemma {:induction false} ReplaceChangedContains(s: string, o: string, n: string)
    requires o != [] && ReplaceAll(s, o, n) != s
    ensures Contains(ReplaceAll(s, o, n), n)
    decreases |s|
  {
    var r := ReplaceAll(s, o, n);
    if s[..|o|] == o {
      assert r[..|n|] == n;
    } else {
      assert s == [s[0]] + s[1..];
      ReplaceChangedContains(s[1..], o, n);
      assert r[1..] == ReplaceAll(s[1..], o, n);
    }
  }

  /** Replacing a non-empty string that does not occur leaves the text unchanged. */
  lemma {:induction false} ReplaceAbsent(s: string, o: string, n: string)
    requires o != [] && !Contains(s, o)
    ensures ReplaceAll(s, o, n) == s
    decreases |s|
  {
    if |s| >= |o| {
      ReplaceAbsent(s[1..], o, n);
    }
  }

  /** Replacing an occurring string by a different text of the same length changes the text. */
  lemma {:induction false} ReplaceFirstOccurrenceChanges(s: string, o: string)
    requires o != [] && StartsWith(s, o)
    ensures ReplaceAll(s, o, o + "#") != s
  {
    assert |ReplaceAll(s, o, o + "#")| > 0;
    var r := ReplaceAll(s, o, o + "#");
    assert r[..|o| + 1] == o + "#";
    ReplaceLengthAtLeast(s[|o|..], o, o + "#");
  }

  lemma {:induction false} ReplaceLengthAtLeast(s: string, o: string, n: string)
    requires o != [] && |n| >= |o|
    ensures |ReplaceAll(s, o, n)| >= |s|
    decreases |s|
  {
    if |s| >= |o| {
      if s[..|o|] == o {
        ReplaceLengthAtLeast(s[|o|..], o, n);
      } else {
        ReplaceLengthAtLeast(s[1..], o, n);
      }
    }
  }

  /** Python's `sep.join(parts)`. */
  function Join(sep: string, parts: seq<string>): string
    decreases |parts|
  {
    if parts == [] then ""
    else if |parts| == 1 then parts[0]
    else parts[0] + sep + Join(sep, parts[1..])
  }

  /** The first part of a join heads the joined text. */
  lemma {:induction false} JoinStartsWithFirst(sep: string, parts: seq<string>)
    requires parts != []
    ensures StartsWith(Join(sep, parts), parts[0])
  {
    if |parts| > 1 {
      assert Join(sep, parts) == parts[0] + (sep + Join(sep, parts[1..]));
    }
  }

  /** Python's `s.lower()` on ASCII letters; other characters are left as they are. */
  function LowerChar(c: char): char {
    if 'A' <= c <= 'Z' then (c as int + 32) as char else c
  }

  function Lower(s: string): (r: string)
    ensures |r| == |s| && forall i :: 0 <= i < |s| ==> r[i] == LowerChar(s[i])
  {
    seq(|s|, i requires 0 <= i < |s| => LowerChar(s[i]))
  }

  function DigitChar(d: nat): char
    requires d < 10
  {
    "0123456789"[d]
  }

  function NatToString(n: nat): (r: string)
    ensures r != []
    decreases n
  {
    if n < 10 then [DigitChar(n)] else NatToString(n / 10) + [DigitChar(n % 10)]
  }

  /** Python's `str(i)` for an integer. */
  function IntToString(i: int): (r: string)
    ensures r != []
  {
    if i < 0 then "-" + NatToString(-i) else NatToString(i)
  }

  /** Python's `s[:n]`. */
  function Take(s: string, n: nat): (r: string)
    ensures |r| == if |s| <= n then |s| else n
    ensures r == s[..|r|]
  {
    if |s| <= n then s else s[..n]
  }

  /** The characters at which Python's `str.splitlines` breaks a line. */
  predicate IsLineBoundary(c: char) {
    ('\n' <= c <= '\r') || ('\U{1C}' <= c <= '\U{1E}') || c == '\U{85}' || c == '\U{2028}' || c == '\U{2029}'
  }

  /**
   * The pieces of `s` between line-boundary characters. It differs from
   * `str.splitlines` only by empty pieces (a trailing one, and one inside
   * "\r\n"), which every caller here discards.
   */
  function SplitLines(s: string): (r: seq<string>)
    ensures |r| >= 1
    decreases |s|
  {
    if s == [] then [""]
    else
      var rest := SplitLines(s[1..]);
      if IsLineBoundary(s[0]) then [""] + rest else [[s[0]] + rest[0]] + rest[1..]
  }

  /** `[ln.strip() for ln in lines if ln.strip()]` */
  function StrippedNonEmpty(lines: seq<string>): (r: seq<string>)
    ensures forall i :: 0 <= i < |r| ==> r[i] != []
    ensures |r| <= |lines|
  {
    if lines == [] then []
    else if Strip(lines[0]) == [] then StrippedNonEmpty(lines[1..])
    else [Strip(lines[0])] + StrippedNonEmpty(lines[1..])
  }
}
