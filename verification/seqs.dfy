/** Substring search, stated once for characters and bytes alike. */
module Seqs {

  /** `part` occurs in `s` starting at index `i`. */
  predicate OccursAt<T(==)>(s: seq<T>, part: seq<T>, i: int)
  {
    0 <= i && i + |part| <= |s| && s[i..i + |part|] == part
  }

  /** `part` occurs somewhere in `s` (Go's strings.Contains). */
  predicate IsSubstring<T(==)>(part: seq<T>, s: seq<T>)
  {
    exists i | 0 <= i <= |s| :: OccursAt(s, part, i)
  }

  /** An occurrence inside the middle piece of a concatenation is an occurrence in the whole. */
  lemma OccursInConcat<T>(a: seq<T>, b: seq<T>, c: seq<T>)
    ensures OccursAt(a + b + c, b, |a|)
  {
    assert (a + b + c)[|a|..|a| + |b|] == b;
  }

  /** `part` written between `before` and `after` occurs in the whole. */
  lemma InMiddle<T>(before: seq<T>, part: seq<T>, after: seq<T>)
    ensures IsSubstring(part, before + part + after)
  {
    OccursInConcat(before, part, after);
  }

  /** An occurrence survives appending. */
  lemma OccursAppend<T>(part: seq<T>, s: seq<T>, t: seq<T>)
    requires IsSubstring(part, s)
    ensures IsSubstring(part, s + t)
  {
    var i :| 0 <= i <= |s| && OccursAt(s, part, i);
    assert (s + t)[i..i + |part|] == s[i..i + |part|];
    assert OccursAt(s + t, part, i);
  }

  /** An occurrence survives prepending. */
  lemma OccursPrepend<T>(part: seq<T>, s: seq<T>, t: seq<T>)
    requires IsSubstring(part, s)
    ensures IsSubstring(part, t + s)
  {
    var i :| 0 <= i <= |s| && OccursAt(s, part, i);
    assert (t + s)[|t| + i..|t| + i + |part|] == s[i..i + |part|];
    assert OccursAt(t + s, part, |t| + i);
  }
}
