/**
 * The Python string operations the prompt code relies on: `find`, slicing
 * with a possibly negative start, `endswith`, `replace` of one character,
 * `join`, `strip` and `lower`.
 */
module Text {

  const Fence: string := "```"

  predicate StartsWith(s: string, prefix: string)
  {
    |prefix| <= |s| && s[..|prefix|] == prefix
  }

  predicate EndsWith(s: string, suffix: string)
  {
    |suffix| <= |s| && s[|s| - |suffix|..] == suffix
  }

  /** `sub` occurs in `s` starting at index `k`. */
  predicate OccursAt(s: string, sub: string, k: int)
  {
    0 <= k <= |s| - |sub| && s[k..k + |sub|] == sub
  }

  /** `sub` occurs in `s` at some position. */
  ghost predicate Contains(s: string, sub: string)
  {
    exists k :: OccursAt(s, sub, k)
  }

  lemma ContainsAt(s: string, sub: string, k: int)
    requires OccursAt(s, sub, k)
    ensures Contains(s, sub)
  {
  }

  /** The parts of `head + middle + tail` sit where they were put. */
  lemma ConcatParts(head: string, middle: string, tail: string)
    ensures StartsWith(head + middle + tail, head)
    ensures EndsWith(head + middle + tail, tail)
    ensures Contains(head + middle + tail, middle)
  {
    var r := head + middle + tail;
    assert r[..|head|] == head;
    assert r[|r| - |tail|..] == tail;
    assert r[|head|..|head| + |middle|] == middle;
    ContainsAt(r, middle, |head|);
  }

  lemma ContainsEnds(a: string, b: string)
    ensures Contains(a + b, a) && Contains(a + b, b)
  {
    ConcatParts(a, "", b);
    ConcatParts("", a, b);
    assert "" + a + b == a + b;
    assert a + "" + b == a + b;
    assert a + b == a + b + "";
    ConcatParts(a, b, "");
  }

  lemma ContainsExtend(a: string, b: string, sub: string)
    requires Contains(a, sub)
    ensures Contains(a + b, sub)
  {
    var k :| OccursAt(a, sub, k);
    assert (a + b)[k..k + |sub|] == a[k..k + |sub|];
    ContainsAt(a + b, sub, k);
  }

  lemma {:induction false} ContainsTransitive(s: string, t: string, u: string)
    requires Contains(s, t) && Contains(t, u)
    ensures Contains(s, u)
  {
    var i :| OccursAt(s, t, i);
    var j :| OccursAt(t, u, j);
    assert forall m :: 0 <= m < |u| ==> s[i + j + m] == t[j + m] == u[m];
    assert s[i + j..i + j + |u|] == u;
    ContainsAt(s, u, i + j);
  }

  /** Python's `s.find(c)` for one character: the first index of `c`, or -1. */
  function Find(s: string, c: char): (i: int)
    ensures -1 <= i < |s|
    ensures i == -1 <==> c !in s
    ensures 0 <= i ==> s[i] == c && c !in s[..i]
  {
    if |s| == 0 then -1
    else if s[0] == c then 0
    else
      var j := Find(s[1..], c);
      assert s[1..][..if j < 0 then 0 else j] == s[1..1 + if j < 0 then 0 else j];
      if j < 0 then -1 else j + 1
  }

  /** Python's `s[i:]`: a negative start counts from the end. */
  function SliceFrom(s: string, i: int): (r: string)
    ensures 0 <= i <= |s| ==> r == s[i..]
    ensures -|s| <= i < 0 ==> r == s[|s| + i..]
  {
    if i < -|s| then s
    else if i < 0 then s[|s| + i..]
    else if i <= |s| then s[i..]
    else ""
  }

  /** Python's `s.replace(a, b)` for single characters. */
  function ReplaceChar(s: string, a: char, b: char): (r: string)
    ensures |r| == |s|
    ensures forall k :: 0 <= k < |s| ==> r[k] == if s[k] == a then b else s[k]
  {
    if |s| == 0 then ""
    else [if s[0] == a then b else s[0]] + ReplaceChar(s[1..], a, b)
  }

  /** Concatenation of a sequence of strings. */
  function Concat(parts: seq<string>): string
  {
    if |parts| == 0 then "" else parts[0] + Concat(parts[1..])
  }

  lemma {:induction false} ConcatAppend(a: seq<string>, b: seq<string>)
    ensures Concat(a + b) == Concat(a) + Concat(b)
  {
    if |a| == 0 {
      assert a + b == b;
    } else {
      assert (a + b)[1..] == a[1..] + b;
      ConcatAppend(a[1..], b);
    }
  }

  /** The text a loop builds by appending `f(x)` for each `x` of `xs` in turn. */
  function ConcatMap<T>(xs: seq<T>, f: T -> string): string
  {
    if |xs| == 0 then "" else ConcatMap(xs[..|xs| - 1], f) + f(xs[|xs| - 1])
  }

  /** The piece of each element sits between those of the elements before
      it and those after it: the pieces appear in input order. */
  lemma {:induction false} ConcatMapSplit<T>(xs: seq<T>, f: T -> string, i: int)
    requires 0 <= i < |xs|
    ensures ConcatMap(xs, f) == ConcatMap(xs[..i], f) + f(xs[i]) + ConcatMap(xs[i + 1..], f)
    decreases |xs|
  {
    var n := |xs| - 1;
    if i == n {
      assert xs[i + 1..] == [];
    } else {
      ConcatMapSplit(xs[..n], f, i);
      assert xs[..n][..i] == xs[..i];
      assert xs[..n][i] == xs[i];
      assert xs[..n][i + 1..] == xs[i + 1..n];
      var rest := xs[i + 1..];
      assert rest[..|rest| - 1] == xs[i + 1..n];
      assert rest[|rest| - 1] == xs[n];
    }
  }

  /** Each element's piece occurs in the text the loop builds. */
  lemma ConcatMapHas<T>(xs: seq<T>, f: T -> string, i: int)
    requires 0 <= i < |xs|
    ensures Contains(ConcatMap(xs, f), f(xs[i]))
  {
    ConcatMapSplit(xs, f, i);
    ConcatParts(ConcatMap(xs[..i], f), f(xs[i]), ConcatMap(xs[i + 1..], f));
  }

  /** The middle of a three-part concatenation sits right after the first part. */
  lemma OccursAtSplit(a: string, b: string, c: string)
    ensures OccursAt(a + b + c, b, |a|)
  {
    assert (a + b + c)[|a|..|a| + |b|] == b;
  }

  /** An occurrence inside a prefix is an occurrence in the whole text. */
  lemma OccursInPrefix(s: string, prefix: string, sub: string, k: int)
    requires StartsWith(s, prefix) && OccursAt(prefix, sub, k)
    ensures OccursAt(s, sub, k)
  {
    assert s[k..k + |sub|] == s[..|prefix|][k..k + |sub|];
  }

  /** The empty string is a unit of concatenation on both sides. */
  lemma EmptyUnit(s: string)
    ensures "" + s == s && s + "" == s
  {
  }

  /** Concatenation is associative. */
  lemma ConcatAssoc(a: string, b: string, c: string)
    ensures a + b + c == a + (b + c)
  {
  }

  /** Taking a shorter prefix of a prefix is taking it of the whole. */
  lemma TakeTake<T>(s: seq<T>, i: int, j: int)
    requires 0 <= i <= j <= |s|
    ensures s[..j][..i] == s[..i]
  {
  }

  /** The prefixes of length zero and of full length. */
  lemma TakeEnds<T>(s: seq<T>)
    ensures s[..0] == [] && s[..|s|] == s
  {
  }

  /** The second part of a concatenation sits right after the first. */
  lemma OccursAtEnd(a: string, b: string)
    ensures OccursAt(a + b, b, |a|)
  {
    assert (a + b)[|a|..|a| + |b|] == b;
  }

  /** The first part of a concatenation is its prefix. */
  lemma StartsAtFront(a: string, b: string)
    ensures StartsWith(a + b, a)
  {
    assert (a + b)[..|a|] == a;
  }

  /** Appending keeps an occurrence where it was. */
  lemma OccursExtend(a: string, b: string, sub: string, k: int)
    requires OccursAt(a, sub, k)
    ensures OccursAt(a + b, sub, k)
  {
    assert (a + b)[k..k + |sub|] == a[k..k + |sub|];
  }

  /** Appending keeps a prefix. */
  lemma StartsExtend(a: string, b: string, prefix: string)
    requires StartsWith(a, prefix)
    ensures StartsWith(a + b, prefix)
  {
    assert (a + b)[..|prefix|] == a[..|prefix|];
  }

  /** Two texts occurring at the same place agree on their common length. */
  lemma OccursAgree(s: string, a: string, b: string, k: int, i: int)
    requires OccursAt(s, a, k) && OccursAt(s, b, k)
    requires 0 <= i < |a| && i < |b|
    ensures a[i] == b[i]
  {
    assert a[i] == s[k..k + |a|][i] == s[k + i];
    assert b[i] == s[k..k + |b|][i] == s[k + i];
  }

  /** The pieces of two elements occur at the ends of the pieces before
      them, so the earlier element's piece ends before the later one's starts. */
  lemma ConcatMapOrder<T>(xs: seq<T>, f: T -> string, i: int, j: int)
    requires 0 <= i < j < |xs|
    ensures OccursAt(ConcatMap(xs, f), f(xs[i]), |ConcatMap(xs[..i], f)|)
    ensures OccursAt(ConcatMap(xs, f), f(xs[j]), |ConcatMap(xs[..j], f)|)
    ensures |ConcatMap(xs[..i], f)| + |f(xs[i])| <= |ConcatMap(xs[..j], f)|
  {
    ConcatMapSplit(xs, f, i);
    OccursAtSplit(ConcatMap(xs[..i], f), f(xs[i]), ConcatMap(xs[i + 1..], f));
    ConcatMapSplit(xs, f, j);
    OccursAtSplit(ConcatMap(xs[..j], f), f(xs[j]), ConcatMap(xs[j + 1..], f));
    var prefix := xs[..j];
    ConcatMapSplit(prefix, f, i);
    assert prefix[..i] == xs[..i];
    assert prefix[i] == xs[i];
  }

  /** Python's `sep.join(parts)`. */
  function Join(parts: seq<string>, sep: string): string
  {
    if |parts| == 0 then ""
    else if |parts| == 1 then parts[0]
    else parts[0] + sep + Join(parts[1..], sep)
  }

  /** Every joined part occurs in the joined text, in its place. */
  lemma {:induction false} JoinContainsEach(parts: seq<string>, sep: string, i: int)
    requires 0 <= i < |parts|
    ensures Contains(Join(parts, sep), parts[i])
  {
    var j := Join(parts, sep);
    if i == 0 {
      assert j[..|parts[0]|] == parts[0];
      ContainsAt(j, parts[0], 0);
    } else {
      JoinContainsEach(parts[1..], sep, i - 1);
      var rest := Join(parts[1..], sep);
      var k :| OccursAt(rest, parts[i], k);
      var off := |parts[0]| + |sep|;
      assert j == parts[0] + sep + rest;
      assert j[off + k..off + k + |parts[i]|] == rest[k..k + |parts[i]|];
      ContainsAt(j, parts[i], off + k);
    }
  }

  /** Python's `str.isspace()` for one character. */
  predicate IsSpace(c: char)
  {
    c == ' ' || c == '\t' || c == '\n' || c == '\r' || c == '\U{B}' || c == '\U{C}'
    || ('\U{1C}' <= c <= '\U{1F}') || c == '\U{85}' || c == '\U{A0}' || c == '\U{1680}'
    || ('\U{2000}' <= c <= '\U{200A}') || c == '\U{2028}' || c == '\U{2029}'
    || c == '\U{202F}' || c == '\U{205F}' || c == '\U{3000}'
  }

  function StripStart(s: string): (r: string)
    ensures |r| <= |s| && r == s[|s| - |r|..]
    ensures |r| > 0 ==> !IsSpace(r[0])
    ensures forall k :: 0 <= k < |s| - |r| ==> IsSpace(s[k])
  {
    if |s| > 0 && IsSpace(s[0]) then StripStart(s[1..]) else s
  }

  function StripEnd(s: string): (r: string)
    ensures |r| <= |s| && r == s[..|r|]
    ensures |r| > 0 ==> !IsSpace(r[|r| - 1])
    ensures forall k :: |r| <= k < |s| ==> IsSpace(s[k])
  {
    if |s| > 0 && IsSpace(s[|s| - 1]) then StripEnd(s[..|s| - 1]) else s
  }

  /** Python's `s.strip()`: leading and trailing whitespace removed. */
  function Strip(s: string): string
  {
    StripEnd(StripStart(s))
  }

  /** Python's `s.lower()` on the ASCII letters. */
  function Lower(s: string): (r: string)
    ensures |r| == |s|
    ensures forall k :: 0 <= k < |s| ==> r[k] == LowerChar(s[k])
  {
    if |s| == 0 then "" else [LowerChar(s[0])] + Lower(s[1..])
  }

  function LowerChar(c: char): char
  {
    if 'A' <= c <= 'Z' then (c as int + 32) as char else c
  }
}
