/**
 * `Math.floor(Math.random() * n)`: a draw `u` from Math.random's range [0, 1) turned into an index.
 * The draw is an input; arithmetic is on exact reals, not on binary floating point.
 */
module RandomChoice {

  predicate IsDraw(u: real)
  {
    0.0 <= u < 1.0
  }

  /** The index picked by draw `u` among `n` candidates: always in bounds. */
  function RandomIndex(u: real, n: nat): (i: nat)
    requires IsDraw(u) && 0 < n
    ensures i < n
  {
    assert u * (n as real) < n as real;
    (u * (n as real)).Floor
  }

  /** Index i is picked exactly by the draws in [i/n, (i+1)/n): every index owns a slice of width 1/n. */
  lemma RandomIndexSlice(u: real, n: nat, i: nat)
    requires IsDraw(u) && 0 < n
    ensures RandomIndex(u, n) == i <==> (i as real) / (n as real) <= u < ((i + 1) as real) / (n as real)
  {
    var x := u * (n as real);
    var nr := n as real;
    assert (i as real) / nr <= u <==> (i as real) <= x;
    assert u < ((i + 1) as real) / nr <==> x < (i + 1) as real;
  }

  /** Every index can be picked by some draw. */
  lemma RandomIndexReaches(n: nat, i: nat)
    requires i < n
    ensures IsDraw((i as real) / (n as real)) && RandomIndex((i as real) / (n as real), n) == i
  {
    RandomIndexSlice((i as real) / (n as real), n, i);
  }
}
