/** Arithmetic several components share. */
module Numbers {

  function Larger(a: nat, b: nat): nat {
    if a < b then b else a
  }

  function Smaller(a: nat, b: nat): nat {
    if b < a then b else a
  }

  /** The greatest of a set, 0 when it is empty. */
  ghost function Greatest(ns: set<nat>): (n: nat)
    ensures forall m :: m in ns ==> m <= n
    ensures if ns == {} then n == 0 else n in ns
  {
    if ns == {} then 0
    else
      var x :| x in ns;
      var rest := Greatest(ns - {x});
      assert forall m :: m in ns ==> m == x || m in ns - {x};
      if rest < x then x else rest
  }

  lemma TimesAtMost(a: int, b: int, c: nat)
    requires a <= b
    ensures a * c <= b * c
  {
    assert b * c == a * c + (b - a) * c;
    assert (b - a) * c >= 0;
  }
}
