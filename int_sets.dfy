// The largest and smallest element of a finite set of integers, as SQL's MAX
// and MIN compute them, and the elements of a set in ascending order, as an
// ORDER BY on an integer key delivers them.
module IntSets {

  predicate NonEmpty(s: set<int>)
  {
    exists x :: x in s
  }

  lemma {:induction false} HasMax(s: set<int>)
    requires NonEmpty(s)
    ensures exists m :: m in s && forall x :: x in s ==> x <= m
    decreases |s|
  {
    var x :| x in s;
    var rest := s - {x};
    if NonEmpty(rest) {
      HasMax(rest);
      var m :| m in rest && forall y :: y in rest ==> y <= m;
      var top := if x > m then x else m;
      forall y | y in s ensures y <= top {
        assert y == x || y in rest;
      }
      assert top in s;
    } else {
      forall y | y in s ensures y <= x {
        assert y == x || y in rest;
      }
    }
  }

  lemma {:induction false} HasMin(s: set<int>)
    requires NonEmpty(s)
    ensures exists m :: m in s && forall x :: x in s ==> m <= x
    decreases |s|
  {
    var x :| x in s;
    var rest := s - {x};
    if NonEmpty(rest) {
      HasMin(rest);
      var m :| m in rest && forall y :: y in rest ==> m <= y;
      var bottom := if x < m then x else m;
      forall y | y in s ensures bottom <= y {
        assert y == x || y in rest;
      }
      assert bottom in s;
    } else {
      forall y | y in s ensures x <= y {
        assert y == x || y in rest;
      }
    }
  }

  /** MAX over a non-empty set. */
  function MaxOf(s: set<int>): (m: int)
    requires NonEmpty(s)
    ensures m in s && forall x :: x in s ==> x <= m
  {
    HasMax(s);
    var m :| m in s && forall x :: x in s ==> x <= m;
    m
  }

  /** MIN over a non-empty set. */
  function MinOf(s: set<int>): (m: int)
    requires NonEmpty(s)
    ensures m in s && forall x :: x in s ==> m <= x
  {
    HasMin(s);
    var m :| m in s && forall x :: x in s ==> m <= x;
    m
  }

  predicate StrictlyAscending(r: seq<int>)
  {
    forall i, j :: 0 <= i < j < |r| ==> r[i] < r[j]
  }

  /** The elements of s, each once, smallest first. */
  function SortedElements(s: set<int>): (r: seq<int>)
    ensures forall i :: 0 <= i < |r| ==> r[i] in s
    decreases |s|
  {
    if !NonEmpty(s) then []
    else
      var m := MinOf(s);
      [m] + SortedElements(s - {m})
  }

  /** The order is strictly ascending, and every element of the set appears. */
  lemma SortedElementsSpec(s: set<int>)
    ensures StrictlyAscending(SortedElements(s))
    ensures forall x :: x in s ==> x in SortedElements(s)
  {
    SortedElementsAscending(s);
    SortedElementsComplete(s);
  }

  lemma {:induction false} SortedElementsAscending(s: set<int>)
    ensures StrictlyAscending(SortedElements(s))
    decreases |s|
  {
    var r := SortedElements(s);
    if NonEmpty(s) {
      var m := MinOf(s);
      var rest := SortedElements(s - {m});
      SortedElementsAscending(s - {m});
      assert r == [m] + rest;
      forall i, j | 0 <= i < j < |r| ensures r[i] < r[j] {
        assert r[j] == rest[j - 1] && rest[j - 1] in s - {m};
        if i > 0 {
          assert r[i] == rest[i - 1];
        }
      }
    }
  }

  lemma {:induction false} SortedElementsComplete(s: set<int>)
    ensures forall x :: x in s ==> x in SortedElements(s)
    decreases |s|
  {
    var r := SortedElements(s);
    if NonEmpty(s) {
      var m := MinOf(s);
      var rest := SortedElements(s - {m});
      SortedElementsComplete(s - {m});
      assert r == [m] + rest;
      forall x | x in s ensures x in r {
        if x != m {
          assert x in s - {m};
        }
      }
    }
  }
}
