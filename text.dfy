/** Character counts and substring occurrence, for statements about SQL text. */
module Text {

  /** The number of occurrences of c in s. */
  function Count(s: string, c: char): nat
    decreases |s|
  {
    if |s| == 0 then 0 else (if s[0] == c then 1 else 0) + Count(s[1..], c)
  }

  lemma {:induction false} CountAppend(a: string, b: string, c: char)
    ensures Count(a + b, c) == Count(a, c) + Count(b, c)
    decreases |a|
  {
    if |a| == 0 {
      assert a + b == b;
    } else {
      assert (a + b)[1..] == a[1..] + b;
      CountAppend(a[1..], b, c);
    }
  }

  /** s has no occurrence of c. */
  predicate Lacks(s: string, c: char)
  {
    forall i :: 0 <= i < |s| ==> s[i] != c
  }

  lemma {:induction false} LacksCount(s: string, c: char)
    requires Lacks(s, c)
    ensures Count(s, c) == 0
    decreases |s|
  {
    if |s| > 0 {
      LacksCount(s[1..], c);
    }
  }

  lemma LacksAppend(a: string, b: string, c: char)
    requires Lacks(a, c) && Lacks(b, c)
    ensures Lacks(a + b, c)
  {
  }

  /** Appending a stretch without c keeps the count of c. */
  lemma CountLacking(a: string, b: string, c: char)
    requires Lacks(b, c)
    ensures Count(a + b, c) == Count(a, c)
  {
    CountAppend(a, b, c);
    LacksCount(b, c);
  }

  /** Appending c adds one. */
  lemma CountPlusOne(a: string, c: char)
    ensures Count(a + [c], c) == Count(a, c) + 1
  {
    CountAppend(a, [c], c);
    assert [c][1..] == [];
  }

  /** One c between two stretches without c: exactly one c. */
  lemma CountSingle(a: string, c: char, b: string)
    requires Lacks(a, c) && Lacks(b, c)
    ensures Count(a + [c] + b, c) == 1
  {
    CountAppend(a + [c], b, c);
    CountAppend(a, [c], c);
    LacksCount(a, c);
    LacksCount(b, c);
    assert [c][1..] == [];
  }

  /** Two c's, each between stretches without c: exactly two c's. */
  lemma CountPair(a: string, c: char, b: string, d: string)
    requires Lacks(a, c) && Lacks(b, c) && Lacks(d, c)
    ensures Count(a + [c] + b + [c] + d, c) == 2
  {
    CountSingle(a, c, b);
    CountAppend(a + [c] + b, [c] + d, c);
    CountSingle([], c, d);
    assert [] + [c] + d == [c] + d;
    assert a + [c] + b + ([c] + d) == a + [c] + b + [c] + d;
  }

  predicate OccursAt(s: string, p: string, i: nat)
  {
    i + |p| <= |s| && s[i..i + |p|] == p
  }

  /** p is a substring of s (Mockito's contains(...) matcher). */
  ghost predicate Contains(s: string, p: string)
  {
    exists i: nat :: OccursAt(s, p, i)
  }

  lemma ContainsPiece(a: string, p: string, b: string)
    ensures Contains(a + p + b, p)
  {
    var s := a + p + b;
    assert s[|a|..|a| + |p|] == p;
    assert OccursAt(s, p, |a|);
  }

  /** A string without one of p's characters cannot contain p. */
  lemma LacksExcludes(s: string, p: string, k: nat)
    requires k < |p| && Lacks(s, p[k])
    ensures !Contains(s, p)
  {
    forall i: nat
      ensures !OccursAt(s, p, i)
    {
      if i + |p| <= |s| {
        assert s[i..i + |p|][k] == s[i + k];
      }
    }
  }

  /** A string holding fewer copies of some character than p does cannot contain p. */
  lemma FewerExcludes(s: string, p: string, c: char)
    requires Count(s, c) < Count(p, c)
    ensures !Contains(s, p)
  {
    if Contains(s, p) {
      var i: nat :| OccursAt(s, p, i);
      assert s == s[..i] + p + s[i + |p|..];
      CountAppend(s[..i] + p, s[i + |p|..], c);
      CountAppend(s[..i], p, c);
      assert false;
    }
  }
}
