/** What the other modules share: two failure-carrying datatypes, and facts about maps and sets. */
module Wrappers {

  datatype Option<+T> = None | Some(value: T)

  datatype Result<+T, +E> = Ok(value: T) | Err(error: E)

  /** `b` keeps every entry of `a`: what an append-only table does. */
  predicate SubMap<K(!new), V(==)>(a: map<K, V>, b: map<K, V>) {
    forall k | k in a :: k in b && b[k] == a[k]
  }

  /** Some element of a set that has one. */
  ghost function AnyOf<T>(s: set<T>): (x: T)
    requires |s| > 0
    ensures x in s
  {
    var x :| x in s;
    x
  }

  lemma {:induction false} SubsetBySize<T>(a: set<T>, b: set<T>)
    requires a <= b
    ensures |a| <= |b|
    ensures |a| >= |b| <==> a == b
  {
    assert |b - a| == |b| - |a|;
  }

  // ----- names nobody has used -----

  ghost function Above(ids: set<int>): (n: int)
    ensures n > 0 && forall i | i in ids :: i < n
    decreases |ids|
  {
    if |ids| == 0 then 1
    else
      var i := AnyOf(ids);
      var n := Above(ids - {i});
      assert forall j | j in ids :: j == i || j in ids - {i};
      if i < n then n else i + 1
  }

  function Repeated(n: nat): (s: string)
    ensures |s| == n
  {
    if n == 0 then "" else Repeated(n - 1) + ['x']
  }

  ghost function LongerThan(names: set<string>): (s: string)
    ensures s != "" && forall t | t in names :: |t| < |s|
    ensures s !in names
  {
    var lengths := set t | t in names :: |t|;
    assert forall t | t in names :: |t| in lengths;
    Repeated(Above(lengths))
  }
}
