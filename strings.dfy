/** String operations the handlers use, each with the facts the handlers need. */
module Strings {

  predicate IsPrefix(p: string, s: string) {
    |p| <= |s| && s[..|p|] == p
  }

  predicate IsSuffix(p: string, s: string) {
    |p| <= |s| && s[|s| - |p|..] == p
  }

  predicate EndsWithSlash(s: string) {
    |s| > 0 && s[|s| - 1] == '/'
  }

  /** `s.replace(/\/+$/, "")`: drop every trailing slash. */
  function TrimTrailingSlashes(s: string): (r: string)
    ensures IsPrefix(r, s)
    ensures !EndsWithSlash(r)
    ensures forall i :: |r| <= i < |s| ==> s[i] == '/'
    decreases |s|
  {
    if EndsWithSlash(s) then TrimTrailingSlashes(s[..|s| - 1]) else s
  }

  /** Trimming twice is trimming once. */
  lemma TrimIdempotent(s: string)
    ensures TrimTrailingSlashes(TrimTrailingSlashes(s)) == TrimTrailingSlashes(s)
  {
  }

  /** A string without a trailing slash is left as it is. */
  lemma TrimKeepsUnslashed(s: string)
    requires !EndsWithSlash(s)
    ensures TrimTrailingSlashes(s) == s
  {
  }

  /** Only slashes are removed: the input is the output followed by slashes. */
  lemma TrimRemovesOnlySlashes(s: string)
    ensures s == TrimTrailingSlashes(s) + s[|TrimTrailingSlashes(s)|..]
    ensures forall c :: c in s[|TrimTrailingSlashes(s)|..] ==> c == '/'
  {
    var r := TrimTrailingSlashes(s);
    assert s == s[..|r|] + s[|r|..];
  }

  /** `s.split(c).pop()`: the text after the last `c`, or all of `s` when there is none. */
  function AfterLast(s: string, c: char): (r: string)
    ensures c !in r
    ensures IsSuffix(r, s)
    ensures |r| < |s| ==> s[|s| - |r| - 1] == c
    ensures c !in s ==> r == s
    decreases |s|
  {
    if s == [] then []
    else if s[|s| - 1] == c then []
    else
      var r := AfterLast(s[..|s| - 1], c);
      assert s == s[..|s| - 1] + [s[|s| - 1]];
      r + [s[|s| - 1]]
  }

  predicate OccursAt(s: string, sub: string, i: int) {
    0 <= i <= |s| - |sub| && s[i..i + |sub|] == sub
  }

  /** `s.includes(sub)` */
  predicate Includes(s: string, sub: string) {
    exists i | 0 <= i <= |s| :: OccursAt(s, sub, i)
  }

  /** A string that includes `a + b` includes `b`. */
  lemma IncludesSuffixPart(s: string, a: string, b: string)
    requires Includes(s, a + b)
    ensures Includes(s, b)
  {
    var i :| 0 <= i <= |s| && OccursAt(s, a + b, i);
    var j := i + |a|;
    assert s[j..j + |b|] == (a + b)[|a|..] == b;
    assert OccursAt(s, b, j);
  }

  /** A string includes each of its middle parts. */
  lemma IncludesMiddle(a: string, b: string, c: string)
    ensures Includes(a + b + c, b)
  {
    var s := a + b + c;
    assert s[|a|..|a| + |b|] == b;
    assert OccursAt(s, b, |a|);
  }

  function LowerChar(c: char): char {
    if 'A' <= c <= 'Z' then (c as int + 32) as char else c
  }

  /** `s.toLowerCase()` on the ASCII letters. */
  function LowerAscii(s: string): (r: string)
    ensures |r| == |s|
    ensures forall i :: 0 <= i < |s| ==> r[i] == LowerChar(s[i])
  {
    seq(|s|, i requires 0 <= i < |s| => LowerChar(s[i]))
  }

  /** `s.replace(/x/g, y)` for single characters. */
  function ReplaceChar(s: string, x: char, y: char): (r: string)
    ensures |r| == |s|
    ensures forall i :: 0 <= i < |s| ==> r[i] == (if s[i] == x then y else s[i])
    decreases |s|
  {
    if s == [] then [] else [if s[0] == x then y else s[0]] + ReplaceChar(s[1..], x, y)
  }

  lemma ReplaceCharAppend(a: string, b: string, x: char, y: char)
    ensures ReplaceChar(a + b, x, y) == ReplaceChar(a, x, y) + ReplaceChar(b, x, y)
  {
    var l, r := ReplaceChar(a + b, x, y), ReplaceChar(a, x, y) + ReplaceChar(b, x, y);
    forall i | 0 <= i < |l| ensures l[i] == r[i] {
      if i < |a| { assert (a + b)[i] == a[i]; } else { assert (a + b)[i] == b[i - |a|]; }
    }
  }

  /** `s.replace(/x/g, '')` */
  function RemoveChar(s: string, x: char): (r: string)
    ensures x !in r
    ensures forall c :: c in r <==> c in s && c != x
    ensures |r| <= |s|
    decreases |s|
  {
    if s == [] then []
    else (if s[0] == x then [] else [s[0]]) + RemoveChar(s[1..], x)
  }

  lemma {:induction false} RemoveCharAppend(a: string, b: string, x: char)
    ensures RemoveChar(a + b, x) == RemoveChar(a, x) + RemoveChar(b, x)
    decreases |a|
  {
    if a != [] {
      assert (a + b)[0] == a[0];
      assert (a + b)[1..] == a[1..] + b;
      RemoveCharAppend(a[1..], b, x);
    } else {
      assert a + b == b;
    }
  }

  /** Trimming keeps only characters of the input. */
  lemma TrimKeepsChars(s: string)
    ensures forall c :: c in TrimTrailingSlashes(s) ==> c in s
  {
    var r := TrimTrailingSlashes(s);
    forall c | c in r ensures c in s {
      var i :| 0 <= i < |r| && r[i] == c;
      assert s[i] == c;
    }
  }
}
