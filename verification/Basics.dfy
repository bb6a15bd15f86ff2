/** Definitions that every part of the project uses. */
module Basics {

  datatype Option<+T> = None | Some(value: T)

  lemma {:induction false} SubsetSize<T>(a: set<T>, b: set<T>)
    requires a <= b
    ensures |a| <= |b|
  {
    if a != {} {
      var x :| x in a;
      SubsetSize(a - {x}, b - {x});
    }
  }

  /** The first n naturals. */
  ghost function UpTo(n: nat): (ks: set<nat>)
    ensures |ks| == n && forall i: nat :: i in ks <==> i < n
  {
    if n == 0 then {} else UpTo(n - 1) + {n - 1}
  }
}
