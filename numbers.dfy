/** Numeric helpers for modelling JavaScript number arithmetic on reals. */
module Numbers {

  /** An unsigned byte: the element type of the analyser's Uint8Array. */
  newtype Byte = x: int | 0 <= x < 256

  /** Math.abs */
  function Abs(x: real): (a: real)
    ensures a >= 0.0
    ensures a == x || a == -x
  {
    if x < 0.0 then -x else x
  }

  predicate IsInteger(x: real) {
    x.Floor as real == x
  }

  /** The remainder of a non-negative x by 255: x less the largest multiple
      of 255 that does not exceed it. */
  function RemNonNegative255(x: real): (r: real)
    requires 0.0 <= x
    ensures 0.0 <= r < 255.0
    ensures IsInteger((x - r) / 255.0)
  {
    var q := (x / 255.0).Floor;
    assert q as real <= x / 255.0 < q as real + 1.0;
    assert 255.0 * (q as real) <= x < 255.0 * (q as real) + 255.0;
    var r := x - 255.0 * (q as real);
    assert (x - r) / 255.0 == q as real;
    r
  }

  /** JavaScript's `x % 255`: the remainder of division truncated toward zero,
      which keeps the sign of the dividend. */
  function Rem255(x: real): (r: real)
    ensures 0.0 <= x ==> 0.0 <= r < 255.0
    ensures x < 0.0 ==> -255.0 < r <= 0.0
    ensures IsInteger((x - r) / 255.0)
  {
    if x >= 0.0 then RemNonNegative255(x)
    else
      var r := RemNonNegative255(-x);
      var q := (-x - r) / 255.0;
      assert (x - -r) / 255.0 == -q;
      assert (-q).Floor == -(q.Floor);
      -r
  }

  /** On the range an average of bytes can take, `% 255` is the identity
      except at 255 itself, which wraps to 0. */
  lemma Rem255OnByteRange(x: real)
    requires 0.0 <= x <= 255.0
    ensures Rem255(x) == if x < 255.0 then x else 0.0
  {
  }
}
