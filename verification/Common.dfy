/** Small shared vocabulary: optional values and facts about finite sets. */
module Common {
  datatype Option<+T> = None | Some(value: T)

  function Min(a: int, b: int): int {
    if a <= b then a else b
  }

  /** A subset is never larger than the set that contains it. */
  lemma SubsetSize<T>(a: set<T>, b: set<T>)
    requires a <= b
    ensures |a| <= |b|
  {
    assert b == a + (b - a);
  }

  /** Strictly ascending, hence also free of repetitions. */
  predicate Ascending(s: seq<int>) {
    forall i, j :: 0 <= i < j < |s| ==> s[i] < s[j]
  }

  lemma {:induction false} LeastExists(s: set<nat>)
    requires s != {}
    ensures exists x :: IsLeast(s, x)
  {
    var x :| x in s;
    if s == {x} {
      assert IsLeast(s, x);
    } else {
      LeastExists(s - {x});
      var y :| IsLeast(s - {x}, y);
      forall z | z in s && z != x
        ensures y <= z
      {
        assert z in s - {x};
      }
      assert IsLeast(s, if x < y then x else y);
    }
  }

  ghost predicate IsLeast(s: set<nat>, x: nat) {
    x in s && forall y :: y in s ==> x <= y
  }

  /** The elements of a set in ascending order. */
  ghost function Sorted(s: set<nat>): (order: seq<nat>)
    ensures Ascending(order) && forall x :: x in order <==> x in s
    decreases |s|
  {
    if s == {} then []
    else
      LeastExists(s);
      var x :| IsLeast(s, x);
      var rest := Sorted(s - {x});
      assert forall y :: y in rest ==> y in s - {x};
      [x] + rest
  }
}
