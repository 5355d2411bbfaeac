/**
 The cursor position mapper: a raw sample in [0, 4095] is scaled, with C
 integer division, to the top-left coordinate of an 8x8 square on an axis of
 `dim` pixels, so that the square always stays on screen.
 */
module Cursor {
  import opened Brightness

  /** Side of the square cursor, in pixels. */
  const CURSOR_SIZE: int := 8

  /** The largest raw sample, the divisor of the scaling. */
  const FULL_SCALE: int := 4095

  /** Every axis length the mapper is used with leaves room for the cursor. */
  predicate ValidDim(dim: int) {
    CURSOR_SIZE <= dim
  }

  /** Multiplying by a non-negative factor preserves order. */
  lemma MulMonotone(a: int, b: int, k: int)
    requires 0 <= a <= b && 0 <= k
    ensures 0 <= a * k <= b * k
  {
    assert b * k - a * k == (b - a) * k;
  }

  /** The coordinate of the cursor along an axis of `dim` pixels. The product
      is non-negative, so Dafny's division agrees with C's truncating one. */
  function Pos(v: Sample, dim: int): (p: int)
    requires ValidDim(dim)
    ensures 0 <= p <= dim - CURSOR_SIZE
    ensures v == 0 ==> p == 0
    ensures v == FULL_SCALE ==> p == dim - CURSOR_SIZE
  {
    MulMonotone(v, FULL_SCALE, dim - CURSOR_SIZE);
    (v * (dim - CURSOR_SIZE)) / FULL_SCALE
  }

  /** A larger sample never moves the cursor back. */
  lemma PosMonotone(v: Sample, w: Sample, dim: int)
    requires ValidDim(dim)
    requires v <= w
    ensures Pos(v, dim) <= Pos(w, dim)
  {
    MulMonotone(v, w, dim - CURSOR_SIZE);
  }

  /** Floor division by the full scale: `a / 4095 >= p` exactly when `a >= p * 4095`. */
  lemma DivAtLeast(a: int, p: int)
    requires 0 <= a
    ensures a / FULL_SCALE >= p <==> a >= p * FULL_SCALE
  {
  }

  /** The smallest sample that places the cursor at `p` or further; it rounds
      `p * 4095 / (dim - 8)` up. An axis with no room to move maps every
      sample to 0. */
  function MinSample(p: int, dim: int): (v: Sample)
    requires ValidDim(dim) && dim - CURSOR_SIZE <= FULL_SCALE
    requires 0 <= p <= dim - CURSOR_SIZE
    ensures v * (dim - CURSOR_SIZE) >= p * FULL_SCALE
    ensures dim - CURSOR_SIZE == 0 || (v - 1) * (dim - CURSOR_SIZE) < p * FULL_SCALE
  {
    var k := dim - CURSOR_SIZE;
    if k == 0 then 0
    else
      var q := (p * FULL_SCALE + k - 1) / k;
      CeilBounds(p * FULL_SCALE, k);
      MulMonotone(p, k, FULL_SCALE);
      CeilAtMost(p * FULL_SCALE, k, FULL_SCALE);
      q
  }

  /** The rounded-up quotient `q` satisfies `q * k >= n > (q - 1) * k`. */
  lemma CeilBounds(n: int, k: int)
    requires 0 <= n && 0 < k
    ensures var q := (n + k - 1) / k; q * k >= n && (q - 1) * k < n && q >= 0
  {
    var q := (n + k - 1) / k;
    var r := (n + k - 1) % k;
    assert n + k - 1 == q * k + r;
    assert (q - 1) * k == q * k - k;
  }

  /** Rounding `n / k` up stays within `m` when `n <= k * m`. */
  lemma CeilAtMost(n: int, k: int, m: int)
    requires 0 <= n && 0 < k && 0 <= m && n <= m * k
    ensures (n + k - 1) / k <= m
  {
    var q := (n + k - 1) / k;
    CeilBounds(n, k);
    if q > m {
      MulMonotone(m, q - 1, k);
      assert false;
    }
  }

  /** The cursor reaches position `p` or further exactly from the sample
      `MinSample(p, dim)` upwards. */
  lemma PosAtLeastIff(v: Sample, p: int, dim: int)
    requires ValidDim(dim) && dim - CURSOR_SIZE <= FULL_SCALE
    requires 0 <= p <= dim - CURSOR_SIZE
    ensures Pos(v, dim) >= p <==> v >= MinSample(p, dim)
  {
    var k := dim - CURSOR_SIZE;
    var m := MinSample(p, dim);
    DivAtLeast(v * k, p);
    MulMonotone(v, FULL_SCALE, k);
    if k > 0 {
      if v >= m {
        MulMonotone(m, v, k);
      } else {
        MulMonotone(v, m - 1, k);
      }
    }
  }

  /** On an axis of at most 4103 pixels, every on-screen position is reached:
      `MinSample(p, dim)` puts the cursor exactly at `p`, and no smaller
      sample does. Longer axes have more positions than samples can reach. */
  lemma PosOnto(p: int, dim: int)
    requires ValidDim(dim) && dim - CURSOR_SIZE <= FULL_SCALE
    requires 0 <= p <= dim - CURSOR_SIZE
    ensures Pos(MinSample(p, dim), dim) == p
    ensures forall v: Sample :: Pos(v, dim) == p ==> MinSample(p, dim) <= v
  {
    var m := MinSample(p, dim);
    PosAtLeastIff(m, p, dim);
    if p < dim - CURSOR_SIZE {
      PosAtLeastIff(m, p + 1, dim);
      var k := dim - CURSOR_SIZE;
      assert m * k < p * FULL_SCALE + k by {
        assert (m - 1) * k == m * k - k;
      }
      assert p * FULL_SCALE + k <= (p + 1) * FULL_SCALE;
    }
    forall v: Sample | Pos(v, dim) == p
      ensures m <= v
    {
      PosAtLeastIff(v, p, dim);
    }
  }

  /** The rest sample 2048 puts the cursor exactly in the middle of an axis of
      even length below 8198 pixels: at `dim / 2 - 4`, half the cursor short
      of the centre line. */
  lemma PosCentred(dim: int)
    requires ValidDim(dim) && dim % 2 == 0 && dim - CURSOR_SIZE < 2 * FULL_SCALE
    ensures Pos(CENTER as Sample, dim) == dim / 2 - CURSOR_SIZE / 2
  {
    var h := (dim - CURSOR_SIZE) / 2;
    assert CENTER * (dim - CURSOR_SIZE) == h * FULL_SCALE + h;
    DivAtLeast(CENTER * (dim - CURSOR_SIZE), h);
    DivAtLeast(CENTER * (dim - CURSOR_SIZE), h + 1);
  }
}
