/**
 * `Math.floor(Math.random() * m)`, the one way the renderer turns randomness into an
 * index. The value Math.random() returned is an input, a real in [0, 1).
 */
module RandomIndex {

  function ScaledFloor(r: real, m: nat): (k: int)
    requires 0.0 <= r < 1.0
    ensures m > 0 ==> 0 <= k < m
    ensures m == 0 ==> k == 0
  {
    var x := r * m as real;
    assert 0.0 <= x;
    assert m > 0 ==> x < m as real by {
      if m > 0 { assert x < 1.0 * m as real; }
    }
    x.Floor
  }
}
