/** What every module needs. */
module Basics {
  datatype Option<+T> = None | Some(value: T)

  function Elements<T>(s: seq<T>): set<T> { set x | x in s }

  ghost predicate Distinct<T>(s: seq<T>) { forall i, j :: 0 <= i < j < |s| ==> s[i] != s[j] }

  lemma {:induction false} SubsetSize<T>(a: set<T>, b: set<T>)
    requires a <= b
    ensures |a| <= |b|
    decreases a
  {
    if a != {} {
      var x :| x in a;
      SubsetSize(a - {x}, b - {x});
    }
  }

  /** The position of the first element that satisfies `p`, or the length if none does. */
  function FirstWhere<T>(s: seq<T>, p: T -> bool): (k: nat)
    ensures k <= |s| && (k < |s| ==> p(s[k])) && forall i :: 0 <= i < k ==> !p(s[i])
  {
    if s == [] || p(s[0]) then 0 else FirstWhere(s[1..], p) + 1
  }

  function IndexOf<T(==)>(s: seq<T>, x: T): (k: nat)
    ensures k <= |s| && x !in s[..k] && (k < |s| <==> x in s) && (k < |s| ==> s[k] == x)
  {
    FirstWhere(s, y => y == x)
  }

  lemma IndexIs<T>(s: seq<T>, x: T, k: nat)
    requires k <= |s| && (forall i :: 0 <= i < k ==> s[i] != x) && (k < |s| ==> s[k] == x)
    ensures IndexOf(s, x) == k
  {
  }
}
