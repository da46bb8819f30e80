/** Small shared vocabulary: optional values and the ascending enumeration of a
    finite set of ids, the order every ordered map of the engine iterates in. */
module Basics {

  datatype Option<+T> = None | Some(value: T)

  function ValueOr<T>(o: Option<T>, other: T): T { if o.Some? then o.value else other }

  /** The members of `S`, ascending and without repeats. */
  function Sorted(S: set<nat>): (r: seq<nat>)
    ensures |r| == |S|
    ensures forall x :: x in r <==> x in S
    ensures Ascending(r)
    decreases |S|
  {
    if S == {} then
      []
    else
      var x := Least(S);
      LeastFirst(S, x, Sorted(S - {x}));
      [x] + Sorted(S - {x})
  }

  function Least(S: set<nat>): (x: nat)
    requires S != {}
    ensures IsLeast(x, S)
  {
    HasLeast(S);
    var x :| IsLeast(x, S);
    x
  }

  predicate Ascending(r: seq<nat>) {
    forall i, j :: 0 <= i < j < |r| ==> r[i] < r[j]
  }

  predicate IsLeast(x: nat, S: set<nat>) {
    x in S && forall y :: y in S ==> x <= y
  }

  lemma HasLeast(S: set<nat>)
    requires S != {}
    ensures exists x :: IsLeast(x, S)
    decreases |S|
  {
    var x :| x in S;
    if S == {x} {
      assert IsLeast(x, S);
    } else {
      HasLeast(S - {x});
      var y :| IsLeast(y, S - {x});
      assert S == (S - {x}) + {x};
      assert IsLeast(if x <= y then x else y, S);
    }
  }

  lemma LeastFirst(S: set<nat>, x: nat, rest: seq<nat>)
    requires IsLeast(x, S) && |rest| == |S - {x}| && Ascending(rest)
    requires forall y :: y in rest <==> y in S - {x}
    ensures |[x] + rest| == |S| && Ascending([x] + rest)
    ensures forall y :: y in [x] + rest <==> y in S
  {
    assert S == (S - {x}) + {x};
    var r := [x] + rest;
    forall i, j | 0 <= i < j < |r| ensures r[i] < r[j] {
      assert rest[j - 1] in rest;
    }
  }

  lemma SubsetFits(A: set<nat>, B: set<nat>)
    requires A <= B
    ensures |A| <= |B|
  {
    assert B == A + (B - A);
  }
}
