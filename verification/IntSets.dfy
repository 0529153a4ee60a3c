/** Least and greatest elements of finite sets of integers, and Python's `sorted` on them. */
module IntSets {
  predicate IsMax(s: set<int>, m: int) {
    m in s && forall x :: x in s ==> x <= m
  }

  predicate IsMin(s: set<int>, m: int) {
    m in s && forall x :: x in s ==> m <= x
  }

  lemma AnyOf<T>(s: set<T>) returns (x: T)
    requires s != {}
    ensures x in s
  {
    x :| x in s;
  }

  lemma {:induction false} HasExtremes(s: set<int>)
    requires s != {}
    ensures exists m :: IsMax(s, m)
    ensures exists m :: IsMin(s, m)
  {
    var x := AnyOf(s);
    var rest := s - {x};
    assert s == rest + {x};
    if rest == {} {
      assert IsMax(s, x) && IsMin(s, x);
    } else {
      HasExtremes(rest);
      var high :| IsMax(rest, high);
      var low :| IsMin(rest, low);
      assert IsMax(s, if x > high then x else high);
      assert IsMin(s, if x < low then x else low);
    }
  }

  function MaxOf(s: set<int>): (m: int)
    requires s != {}
    ensures IsMax(s, m)
  {
    HasExtremes(s);
    var m :| IsMax(s, m);
    m
  }

  function MinOf(s: set<int>): (m: int)
    requires s != {}
    ensures IsMin(s, m)
  {
    HasExtremes(s);
    var m :| IsMin(s, m);
    m
  }

  function Sorted(s: set<int>): seq<int> {
    if s == {} then [] else [MinOf(s)] + Sorted(s - {MinOf(s)})
  }

  lemma {:induction false} SortedIsSorted(s: set<int>)
    ensures forall x :: x in Sorted(s) <==> x in s
    ensures forall i, j :: 0 <= i < j < |Sorted(s)| ==> Sorted(s)[i] < Sorted(s)[j]
  {
    if s != {} {
      var m := MinOf(s);
      SortedIsSorted(s - {m});
      var rest := Sorted(s - {m});
      assert forall x :: x in Sorted(s) <==> x == m || x in rest;
      forall i, j | 0 <= i < j < |Sorted(s)| ensures Sorted(s)[i] < Sorted(s)[j] {
        assert rest[j - 1] in rest;
        if i > 0 { assert rest[i - 1] < rest[j - 1]; }
      }
    }
  }
}
