/**
 * The list update both selection lists use: `ids.filter((id) => id !== x)`.
 * It removes the chat's attached file ids (src/components/Chat.tsx) and
 * unchecks files in the file manager (src/components/FileManager.tsx).
 */
module Lists {

  /** `s` with every occurrence of `x` removed, the rest in their order. */
  function RemoveAll<T(==)>(s: seq<T>, x: T): (r: seq<T>)
    ensures |r| <= |s|
  {
    if s == [] then []
    else (if s[0] == x then [] else [s[0]]) + RemoveAll(s[1..], x)
  }

  /** `r` can be obtained from `s` by deleting elements, keeping the order of the rest. */
  ghost predicate IsSubsequence<T>(r: seq<T>, s: seq<T>)
    decreases |s|
  {
    r == [] || (s != [] && ((r[0] == s[0] && IsSubsequence(r[1..], s[1..])) || IsSubsequence(r, s[1..])))
  }

  /** What removal promises: `x` is gone, every other element keeps its number of
      occurrences, and the survivors keep their relative order. */
  lemma {:induction false} RemoveAllSpec<T>(s: seq<T>, x: T)
    ensures x !in RemoveAll(s, x)
    ensures forall y :: y != x ==> multiset(RemoveAll(s, x))[y] == multiset(s)[y]
    ensures IsSubsequence(RemoveAll(s, x), s)
  {
    if s != [] {
      RemoveAllSpec(s[1..], x);
      var rest := RemoveAll(s[1..], x);
      assert s == [s[0]] + s[1..];
      assert multiset(s) == multiset([s[0]]) + multiset(s[1..]);
      if s[0] == x {
        assert RemoveAll(s, x) == rest;
        SubsequenceSkip(rest, s);
      } else {
        assert RemoveAll(s, x) == [s[0]] + rest;
        assert multiset(RemoveAll(s, x)) == multiset([s[0]]) + multiset(rest);
        assert ([s[0]] + rest)[1..] == rest;
      }
    }
  }

  /** Dropping the head of `s` keeps a subsequence of its tail a subsequence of `s`. */
  lemma SubsequenceSkip<T>(r: seq<T>, s: seq<T>)
    requires s != [] && IsSubsequence(r, s[1..])
    ensures IsSubsequence(r, s)
  {
  }

  /** Removing an element that is not there changes nothing. */
  lemma {:induction false} RemoveAbsent<T>(s: seq<T>, x: T)
    requires x !in s
    ensures RemoveAll(s, x) == s
  {
    if s != [] {
      assert x !in s[1..];
      RemoveAbsent(s[1..], x);
      assert [s[0]] + s[1..] == s;
    }
  }

  /** Removal distributes over concatenation. */
  lemma {:induction false} RemoveAllConcat<T>(a: seq<T>, b: seq<T>, x: T)
    ensures RemoveAll(a + b, x) == RemoveAll(a, x) + RemoveAll(b, x)
  {
    if a == [] {
      assert a + b == b;
    } else {
      assert (a + b)[1..] == a[1..] + b;
      RemoveAllConcat(a[1..], b, x);
    }
  }

  /** Checking a box (appending `x`) and unchecking it again (removing `x`) gives
      the list with `x` removed; when `x` was not selected before, the original list. */
  lemma CheckThenUncheck<T>(s: seq<T>, x: T)
    ensures RemoveAll(s + [x], x) == RemoveAll(s, x)
    ensures x !in s ==> RemoveAll(s + [x], x) == s
  {
    RemoveAllConcat(s, [x], x);
    assert RemoveAll([x], x) == [];
    assert RemoveAll(s, x) + [] == RemoveAll(s, x);
    if x !in s {
      RemoveAbsent(s, x);
    }
  }
}
