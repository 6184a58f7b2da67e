/** Small value types and sequence facts shared by every component. */
module Prelude {

  datatype Option<+T> = None | Some(value: T)

  /** A business rejection carries the reason code the caller stores. */
  datatype Result<+T, +E> = Ok(value: T) | Err(error: E)

  function Min(a: int, b: int): int { if a < b then a else b }

  function Max(a: int, b: int): int { if a > b then a else b }

  function Abs(a: int): nat { if a < 0 then -a else a }

  predicate StrictlySorted(s: seq<int>) {
    forall i, j :: 0 <= i < j < |s| ==> s[i] < s[j]
  }

  lemma Pick<T>(s: set<T>) returns (x: T)
    requires s != {}
    ensures x in s
  {
    x :| x in s;
  }

  lemma {:induction false} MinExists(s: set<int>)
    requires s != {}
    ensures exists m :: m in s && forall x :: x in s ==> m <= x
  {
    var m := Pick(s);
    if s == {m} {
      assert m in s && forall x :: x in s ==> m <= x;
    } else {
      var rest := s - {m};
      assert s == rest + {m};
      MinExists(rest);
      var k :| k in rest && forall x :: x in rest ==> k <= x;
      var least := Min(k, m);
      assert least in s && forall x :: x in s ==> least <= x;
    }
  }

  function Least(s: set<int>): (m: int)
    requires s != {}
    ensures m in s && forall x :: x in s ==> m <= x
  {
    MinExists(s);
    var m :| m in s && forall x :: x in s ==> m <= x;
    m
  }

  lemma {:induction false} MaxExists(s: set<int>)
    requires s != {}
    ensures exists m :: m in s && forall x :: x in s ==> x <= m
  {
    var m := Pick(s);
    if s == {m} {
      assert m in s && forall x :: x in s ==> x <= m;
    } else {
      var rest := s - {m};
      assert s == rest + {m};
      MaxExists(rest);
      var k :| k in rest && forall x :: x in rest ==> x <= k;
      var greatest := Max(k, m);
      assert greatest in s && forall x :: x in s ==> x <= greatest;
    }
  }

  function Greatest(s: set<int>): (m: int)
    requires s != {}
    ensures m in s && forall x :: x in s ==> x <= m
  {
    MaxExists(s);
    var m :| m in s && forall x :: x in s ==> x <= m;
    m
  }

  /** Python's `sorted` on a set of distinct instants. */
  function SortedSeq(s: set<int>): (q: seq<int>)
    ensures StrictlySorted(q)
    ensures forall x :: x in q <==> x in s
    ensures |q| == |s|
  {
    if s == {} then [] else [Least(s)] + SortedSeq(s - {Least(s)})
  }

  lemma TailMembers(a: seq<int>, x: int)
    requires StrictlySorted(a) && a != []
    ensures x in a[1..] <==> x in a && x != a[0]
  {
    assert a == [a[0]] + a[1..];
    assert forall i :: 0 <= i < |a[1..]| ==> a[0] < a[1..][i];
  }

  lemma LeastFirst(a: seq<int>, b: seq<int>)
    requires StrictlySorted(a) && a != [] && b != [] && b[0] in a
    ensures a[0] <= b[0]
  {
    var i :| 0 <= i < |a| && a[i] == b[0];
  }

  /** A strictly increasing listing of a set is unique. */
  lemma {:induction false} SortedUnique(a: seq<int>, b: seq<int>)
    requires StrictlySorted(a) && StrictlySorted(b) && |a| == |b|
    requires forall x :: x in a <==> x in b
    ensures a == b
  {
    if a == [] {
    } else {
      assert a[0] in a && b[0] in b;
      LeastFirst(a, b);
      LeastFirst(b, a);
      forall x ensures x in a[1..] <==> x in b[1..] {
        TailMembers(a, x);
        TailMembers(b, x);
      }
      SortedUnique(a[1..], b[1..]);
      assert a == [a[0]] + a[1..] && b == [b[0]] + b[1..];
    }
  }

  /** A strictly increasing listing of a set is its sorted sequence. */
  lemma {:induction false} SortedIs(members: set<int>, listed: seq<int>)
    requires StrictlySorted(listed) && |listed| == |members| && forall t :: t in listed <==> t in members
    ensures SortedSeq(members) == listed
  {
    SortedUnique(SortedSeq(members), listed);
  }

  lemma {:induction false} ThreeSorted(members: set<int>, a: int, b: int, c: int)
    requires a < b < c && members == {a, b, c}
    ensures SortedSeq(members) == [a, b, c]
  {
    assert |{a, b, c}| == 3;
    var listed := [a, b, c];
    assert forall t :: t in listed <==> t in members;
    SortedIs(members, listed);
  }
}
