/** Joining strings and locating a piece inside the joined text. */
module Text {

  /** The pieces, one after another. */
  function Concat(parts: seq<string>): string {
    if parts == [] then "" else parts[0] + Concat(parts[1..])
  }

  /** `part` occurs in `s` starting at position `at`. */
  predicate Embedded(s: string, at: int, part: string) {
    0 <= at && at + |part| <= |s| && s[at..at + |part|] == part
  }

  /** The position at which piece `k` starts: the length of the pieces before it. */
  function Offset(parts: seq<string>, k: nat): nat
    requires k <= |parts|
  {
    |Concat(parts[..k])|
  }

  lemma AppendAssociative(a: string, b: string, c: string)
    ensures (a + b) + c == a + (b + c)
  {
  }

  lemma TakeOneMore<T>(s: seq<T>, i: nat)
    requires i < |s|
    ensures s[..i + 1] == s[..i] + [s[i]]
  {
  }

  lemma TakeAll<T>(s: seq<T>)
    ensures s[..|s|] == s
  {
  }

  lemma TakeDrop<T>(s: seq<T>, k: nat)
    requires k < |s|
    ensures s == s[..k] + [s[k]] + s[k + 1..]
  {
  }

  lemma {:induction false} ConcatAppend(a: seq<string>, b: seq<string>)
    ensures Concat(a + b) == Concat(a) + Concat(b)
  {
    if a == [] {
      assert a + b == b;
    } else {
      assert (a + b)[0] == a[0];
      assert (a + b)[1..] == a[1..] + b;
      ConcatAppend(a[1..], b);
      AppendAssociative(a[0], Concat(a[1..]), Concat(b));
    }
  }

  lemma ConcatSingle(s: string)
    ensures Concat([s]) == s
  {
    assert [s][1..] == [];
    assert s + "" == s;
  }

  lemma SliceMiddle(a: string, b: string, c: string)
    ensures Embedded(a + b + c, |a|, b)
  {
    assert (a + b + c)[|a|..|a| + |b|] == b;
  }

  /** Every piece sits in the joined text right after the pieces before it. */
  lemma ConcatEmbeds(parts: seq<string>, k: nat)
    requires k < |parts|
    ensures Embedded(Concat(parts), Offset(parts, k), parts[k])
  {
    TakeDrop(parts, k);
    ConcatAppend(parts[..k] + [parts[k]], parts[k + 1..]);
    ConcatAppend(parts[..k], [parts[k]]);
    ConcatSingle(parts[k]);
    SliceMiddle(Concat(parts[..k]), parts[k], Concat(parts[k + 1..]));
  }

  /** A piece found in a text is still found there when more text surrounds it. */
  lemma EmbeddedWithin(a: string, s: string, c: string, at: int, part: string)
    requires Embedded(s, at, part)
    ensures Embedded(a + s + c, |a| + at, part)
  {
    assert (a + s + c)[|a| + at..|a| + at + |part|] == s[at..at + |part|];
  }

  /** A piece found in a text is still found at the same place when text follows. */
  lemma EmbeddedBefore(s: string, t: string, at: int, part: string)
    requires Embedded(s, at, part)
    ensures Embedded(s + t, at, part)
  {
    assert (s + t)[at..at + |part|] == s[at..at + |part|];
  }
}
