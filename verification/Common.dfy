/** Vocabulary that several modules share. */
module Common {

  datatype Option<+T> = None | Some(value: T)

  function Min(a: int, b: int): int { if a < b then a else b }
  function Max(a: int, b: int): int { if a > b then a else b }

  ghost predicate NoDup(s: seq<int>) {
    forall i, j :: 0 <= i < j < |s| ==> s[i] != s[j]
  }

  lemma {:induction false} NoDupCounts(s: seq<int>, x: int)
    requires NoDup(s)
    ensures multiset(s)[x] == if x in s then 1 else 0
  {
    if s == [] {
    } else {
      var r := s[..|s|-1];
      assert s == r + [s[|s|-1]];
      NoDupCounts(r, x);
    }
  }

  /** Duplicate-free sequences with the same elements are permutations of each other. */
  lemma SameElementsPermute(s: seq<int>, t: seq<int>)
    requires NoDup(s) && NoDup(t)
    requires forall x :: x in s <==> x in t
    ensures multiset(s) == multiset(t)
  {
    forall x: int ensures multiset(s)[x] == multiset(t)[x] {
      NoDupCounts(s, x);
      NoDupCounts(t, x);
    }
  }
}
