/** Sizes of finite sets, and numbers outside them. */
module Sets {

  lemma SubsetSize<T>(small: set<T>, big: set<T>)
    requires small <= big
    ensures |small| <= |big|
    ensures forall x | x in big && x !in small :: |small| + 1 <= |big|
  {
    assert big == small + (big - small);
    forall x | x in big && x !in small
      ensures |small| + 1 <= |big|
    {
      assert big - small == {x} + (big - small - {x});
    }
  }

  /** There is always a number left to draw. */
  lemma FreshId(used: set<nat>) returns (n: nat)
    ensures n !in used
  {
    n := 0;
    var left := used;
    while left != {}
      invariant left <= used
      invariant forall u | u in used :: u < n || u in left
      decreases |left|
    {
      var u :| u in left;
      if n <= u { n := u + 1; }
      left := left - {u};
    }
  }
}
