/** Prompts built by string interpolation, seen as an ordered list of segments.

    An f-string such as `f"a{x}b{y}"` is the concatenation of the segments
    ["a", x, "b", y].  This module defines that concatenation and proves where
    each segment lands in the result, so that statements like "the STEP 1
    heading comes before the OLAP directory, which comes before the STEP 2
    heading" can be proved once for every prompt builder.
 */
module Text {

  /** The concatenation of all segments, in order. */
  function Concat(parts: seq<string>): string
  {
    if parts == [] then "" else parts[0] + Concat(parts[1..])
  }

  /** Position in `Concat(parts)` at which segment `i` starts. */
  function Offset(parts: seq<string>, i: nat): nat
    requires i <= |parts|
  {
    |Concat(parts[..i])|
  }

  /** `sub` occurs in `s` starting at position `at`. */
  predicate Occurs(sub: string, s: string, at: nat)
  {
    at + |sub| <= |s| && s[at..at + |sub|] == sub
  }

  predicate StartsWith(s: string, prefix: string)
  {
    Occurs(prefix, s, 0)
  }

  predicate EndsWith(s: string, suffix: string)
  {
    |suffix| <= |s| && Occurs(suffix, s, |s| - |suffix|)
  }

  /** Each `subs[k]` occurs at `ps[k]`, and each one ends before the next begins. */
  predicate PlacedAt(subs: seq<string>, s: string, ps: seq<nat>)
  {
    && |ps| == |subs|
    && (forall k :: 0 <= k < |subs| ==> Occurs(subs[k], s, ps[k]))
    && (forall k :: 0 <= k < |subs| - 1 ==> ps[k] + |subs[k]| <= ps[k + 1])
  }

  /** The strings `subs` occur in `s` one after the other, without overlapping. */
  ghost predicate AppearInOrder(subs: seq<string>, s: string)
  {
    exists ps: seq<nat> :: PlacedAt(subs, s, ps)
  }

  /** Concatenation distributes over appending segment lists. */
  lemma {:induction false} ConcatAppend(a: seq<string>, b: seq<string>)
    ensures Concat(a + b) == Concat(a) + Concat(b)
  {
    if a == [] {
      assert a + b == b;
    } else {
      assert (a + b)[1..] == a[1..] + b;
      ConcatAppend(a[1..], b);
    }
  }

  /** The length of a concatenation is the sum of the segment lengths. */
  lemma {:induction false} ConcatLength(parts: seq<string>, i: nat)
    requires i < |parts|
    ensures Offset(parts, i + 1) == Offset(parts, i) + |parts[i]|
  {
    assert parts[..i + 1] == parts[..i] + [parts[i]];
    ConcatAppend(parts[..i], [parts[i]]);
    assert Concat([parts[i]]) == parts[i] + Concat([]);
  }

  /** Segment `i` is found verbatim at its offset. */
  lemma {:induction false} SegmentAt(parts: seq<string>, i: nat)
    requires i < |parts|
    ensures Occurs(parts[i], Concat(parts), Offset(parts, i))
  {
    var pre, rest := parts[..i], parts[i..];
    assert parts == pre + rest;
    ConcatAppend(pre, rest);
    var a, b, c := Concat(pre), parts[i], Concat(rest[1..]);
    assert Concat(rest) == b + c;
    assert Concat(parts) == a + (b + c);
    assert (a + (b + c))[|a|..|a| + |b|] == b;
  }

  /** Offsets never decrease, and a segment ends before any later one starts. */
  lemma {:induction false} OffsetsOrdered(parts: seq<string>, i: nat, j: nat)
    requires i < j <= |parts|
    ensures Offset(parts, i) + |parts[i]| <= Offset(parts, j)
    decreases j - i
  {
    ConcatLength(parts, i);
    if i + 1 < j {
      OffsetsOrdered(parts, i + 1, j);
    }
  }

  /** The last offset is the length of the whole concatenation. */
  lemma OffsetAtEnd(parts: seq<string>)
    ensures Offset(parts, |parts|) == |Concat(parts)|
  {
    assert parts[..|parts|] == parts;
  }

  /** Segments picked at strictly increasing indices appear in that order. */
  lemma Picked(parts: seq<string>, idx: seq<nat>, subs: seq<string>)
    requires |subs| == |idx|
    requires forall k :: 0 <= k < |idx| ==> idx[k] < |parts| && subs[k] == parts[idx[k]]
    requires forall k :: 0 <= k < |idx| - 1 ==> idx[k] < idx[k + 1]
    ensures AppearInOrder(subs, Concat(parts))
  {
    var s := Concat(parts);
    var ps := seq(|idx|, k requires 0 <= k < |idx| => Offset(parts, idx[k]));
    forall k | 0 <= k < |subs|
      ensures Occurs(subs[k], s, ps[k])
    {
      SegmentAt(parts, idx[k]);
    }
    forall k | 0 <= k < |subs| - 1
      ensures ps[k] + |subs[k]| <= ps[k + 1]
    {
      OffsetsOrdered(parts, idx[k], idx[k + 1]);
    }
    assert PlacedAt(subs, s, ps);
  }

  /** A concatenation begins with its first segment. */
  lemma ConcatStartsWith(parts: seq<string>)
    requires |parts| > 0
    ensures StartsWith(Concat(parts), parts[0])
  {
  }

  /** A concatenation ends with its last segment. */
  lemma ConcatEndsWith(parts: seq<string>)
    requires |parts| > 0
    ensures EndsWith(Concat(parts), parts[|parts| - 1])
  {
    var n := |parts| - 1;
    SegmentAt(parts, n);
    ConcatLength(parts, n);
    OffsetAtEnd(parts);
  }

  /** An occurrence inside an occurrence is an occurrence in the whole. */
  lemma OccursWithin(a: string, b: string, s: string, i: nat, j: nat)
    requires Occurs(a, b, i) && Occurs(b, s, j)
    ensures Occurs(a, s, j + i)
  {
    forall k | 0 <= k < |a|
      ensures s[j + i + k] == a[k]
    {
      assert a[k] == b[i..i + |a|][k] == b[i + k];
      assert b[i + k] == s[j..j + |b|][i + k] == s[j + i + k];
    }
    assert s[j + i..j + i + |a|] == a;
  }

  /** Strings in order inside an occurrence of `b` are in order in the whole. */
  lemma InOrderWithin(subs: seq<string>, b: string, s: string, j: nat)
    requires AppearInOrder(subs, b) && Occurs(b, s, j)
    ensures AppearInOrder(subs, s)
  {
    var ps :| PlacedAt(subs, b, ps);
    var qs := seq(|ps|, k requires 0 <= k < |ps| => j + ps[k]);
    forall k | 0 <= k < |subs|
      ensures Occurs(subs[k], s, qs[k])
    {
      OccursWithin(subs[k], b, s, ps[k], j);
    }
    assert PlacedAt(subs, s, qs);
  }

  /** A suffix of a suffix is a suffix. */
  lemma EndsWithin(s: string, t: string, u: string)
    requires EndsWith(s, t) && EndsWith(t, u)
    ensures EndsWith(s, u)
  {
  }

  /** Concatenating a five-segment list is chaining the five strings. */
  lemma ConcatFive(a: string, b: string, c: string, d: string, e: string)
    ensures Concat([a, b, c, d, e]) == a + b + c + d + e
  {
    var parts := [a, b, c, d, e];
    assert parts[1..] == [b, c, d, e];
    assert parts[1..][1..] == [c, d, e];
    assert parts[1..][1..][1..] == [d, e];
    assert parts[1..][1..][1..][1..] == [e];
    assert Concat([e]) == e;
    assert Concat([d, e]) == d + e;
    assert Concat([c, d, e]) == c + d + e;
    assert Concat([b, c, d, e]) == b + c + d + e;
  }

  /** Concatenating a six-segment list is chaining the six strings. */
  lemma ConcatSix(a: string, b: string, c: string, d: string, e: string, f: string)
    ensures Concat([a, b, c, d, e, f]) == a + b + c + d + e + f
  {
    assert [a, b, c, d, e, f][1..] == [b, c, d, e, f];
    ConcatFive(b, c, d, e, f);
  }

  /** A value filled in between a two-piece prefix `a + b` and a two-piece
      suffix `d + e`: each of the five pieces sits where the previous one ends. */
  lemma PlacedInFilledTemplate(a: string, b: string, c: string, d: string, e: string)
    ensures PlacedAt([a, b, c, d, e], (a + b) + c + (d + e),
                     [0, |a|, |a| + |b|, |a| + |b| + |c|, |a| + |b| + |c| + |d|])
  {
  }
}
