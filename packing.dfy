/**
 * The tile packer of the room layout: the row-packing simulation that `area` runs for one
 * candidate tile width, its closed form, and the scan over candidate widths that
 * `calculateArea` performs.  Everything here is a pure function of the container size,
 * the child count, the aspect ratio (height per width) and the margin.
 */
module Packing {

  /** Candidate widths are scanned from 1 up to, but not including, this bound. */
  const ScanLimit: int := 5000

  /** The packer's running state: the width used in the current row and the stacked height. */
  datatype PackState = PackState(rowWidth: int, height: real)

  /** Height of one row of tiles of width `inc`: the tile height plus a margin above and below. */
  function RowHeight(inc: int, ratio: real, margin: int): real
  {
    inc as real * ratio + (margin * 2) as real
  }

  /** Places one more tile, opening a new row first when it would overflow the current one. */
  function Place(st: PackState, inc: int, width: int, ratio: real, margin: int): (r: PackState)
    ensures st.rowWidth + inc > width ==> r == PackState(inc + margin * 2, st.height + RowHeight(inc, ratio, margin))
    ensures st.rowWidth + inc <= width ==> r == PackState(st.rowWidth + inc + margin * 2, st.height)
  {
    var st' := if st.rowWidth + inc > width then PackState(0, st.height + RowHeight(inc, ratio, margin)) else st;
    st'.(rowWidth := st'.rowWidth + inc + margin * 2)
  }

  /** The state after placing `n` tiles; the stack starts with one row even when `n` is zero. */
  function Pack(inc: int, n: nat, width: int, ratio: real, margin: int): (r: PackState)
    ensures inc >= 0 && margin >= 0 && ratio >= 0.0 ==> r.height >= RowHeight(inc, ratio, margin) >= 0.0
    ensures 1 <= inc <= width && margin >= 0 ==>
              0 <= r.rowWidth <= width + margin * 2 && (n > 0 ==> r.rowWidth >= inc + margin * 2)
  {
    if n == 0 then PackState(0, RowHeight(inc, ratio, margin))
    else Place(Pack(inc, n - 1, width, ratio, margin), inc, width, ratio, margin)
  }

  /** Whether `n` tiles of width `inc` fit a container of the given inner height and width. */
  predicate Fits(inc: int, n: nat, height: int, width: int, ratio: real, margin: int): (r: bool)
    ensures r ==> inc <= width
    ensures r && inc >= 0 && margin >= 0 && ratio >= 0.0 ==> RowHeight(inc, ratio, margin) <= height as real
  {
    !(Pack(inc, n, width, ratio, margin).height > height as real || inc > width)
  }

  // ---------------------------------------------------------------------------
  // Closed form of the packing simulation

  /** How many tiles of width `inc` one row holds. */
  function PerRow(inc: int, width: int, margin: int): (c: int)
    requires 1 <= inc <= width && margin >= 0
    ensures c >= 1
  {
    (width - inc) / (inc + margin * 2) + 1
  }

  /** How many rows `n` tiles take when a row holds `c`; never fewer than one. */
  function Rows(n: nat, c: int): (k: int)
    requires c >= 1
    ensures k >= 1
  {
    if n == 0 then 1 else (n - 1) / c + 1
  }

  lemma MulLeft(a: int, b: int, s: int)
    requires a <= b && s >= 0
    ensures a * s <= b * s
  {
  }

  /** `j * s <= q` exactly when `j <= q / s`. */
  lemma MulLeIffLeDiv(j: int, s: int, q: int)
    requires j >= 0 && s >= 1 && q >= 0
    ensures j * s <= q <==> j <= q / s
  {
    var d, r := q / s, q % s;
    assert q == d * s + r;
    if j <= d {
      MulLeft(j, d, s);
    } else {
      MulLeft(d + 1, j, s);
    }
  }

  /** Stepping a counter by one either keeps its quotient by `c` or, at the wrap, raises it by one. */
  lemma SuccDivMod(k: int, c: int)
    requires k >= 0 && c >= 1
    ensures k % c == c - 1 ==> (k + 1) % c == 0 && (k + 1) / c == k / c + 1
    ensures k % c < c - 1 ==> (k + 1) % c == k % c + 1 && (k + 1) / c == k / c
  {
    var q, r := k / c, k % c;
    assert k == q * c + r;
    if r == c - 1 {
      assert k + 1 == (q + 1) * c + 0;
      DivModUnique(k + 1, c, q + 1, 0);
    } else {
      assert k + 1 == q * c + (r + 1);
      DivModUnique(k + 1, c, q, r + 1);
    }
  }

  lemma DivModUnique(a: int, c: int, q: int, r: int)
    requires c >= 1 && 0 <= r < c && a == q * c + r
    ensures a / c == q && a % c == r
  {
    var q', r' := a / c, a % c;
    assert a == q' * c + r';
    if q' < q {
      MulLeft(q' + 1, q, c);
    } else if q' > q {
      MulLeft(q + 1, q', c);
    }
  }

  /** With `c = q / s + 1` tiles per row, the tile after the `(k % c + 1)`-th of a row wraps exactly at `c`. */
  lemma WrapsWhenRowFull(k: int, c: int, s: int, q: int)
    requires k >= 0 && s >= 1 && q >= 0 && c == q / s + 1
    ensures (k % c + 1) * s > q <==> k % c == c - 1
  {
    MulLeIffLeDiv(k % c + 1, s, q);
  }

  /** Row count and last-row fill after one more tile, for `k + 1` tiles already placed. */
  lemma RowsStep(k: nat, c: int)
    requires c >= 1
    ensures k % c == c - 1 ==> Rows(k + 2, c) == Rows(k + 1, c) + 1 && (k + 1) % c + 1 == 1
    ensures k % c < c - 1 ==> Rows(k + 2, c) == Rows(k + 1, c) && (k + 1) % c + 1 == k % c + 2
  {
    SuccDivMod(k, c);
  }

  /** Placing tile `n` on a stack of `n - 1` tiles in closed form keeps the closed form. */
  lemma PlaceStep(prev: PackState, n: nat, inc: int, width: int, ratio: real, margin: int)
    requires 1 <= inc <= width && margin >= 0 && n >= 2
    requires prev.height == Rows(n - 1, PerRow(inc, width, margin)) as real * RowHeight(inc, ratio, margin)
    requires prev.rowWidth == ((n - 2) % PerRow(inc, width, margin) + 1) * (inc + margin * 2)
    ensures Place(prev, inc, width, ratio, margin).height
            == Rows(n, PerRow(inc, width, margin)) as real * RowHeight(inc, ratio, margin)
    ensures Place(prev, inc, width, ratio, margin).rowWidth
            == ((n - 1) % PerRow(inc, width, margin) + 1) * (inc + margin * 2)
  {
    var c, s, rh := PerRow(inc, width, margin), inc + margin * 2, RowHeight(inc, ratio, margin);
    var k := n - 2;
    var rows := Rows(k + 1, c);
    WrapsWhenRowFull(k, c, s, width - inc);
    RowsStep(k, c);
    if k % c == c - 1 {
      assert prev.rowWidth + inc > width;
      assert (rows + 1) as real * rh == rows as real * rh + rh;
    } else {
      assert prev.rowWidth + inc <= width;
      assert (k % c + 1) * s + s == (k % c + 2) * s;
    }
  }

  /**
   * Closed form: with `c` tiles per row, `n` tiles stack `Rows(n, c)` rows, and the last row
   * holds `(n - 1) % c + 1` tiles.
   */
  lemma {:induction false} PackClosedForm(inc: int, n: nat, width: int, ratio: real, margin: int)
    requires 1 <= inc <= width && margin >= 0
    ensures Pack(inc, n, width, ratio, margin).height
            == Rows(n, PerRow(inc, width, margin)) as real * RowHeight(inc, ratio, margin)
    ensures n >= 1 ==> Pack(inc, n, width, ratio, margin).rowWidth
                       == ((n - 1) % PerRow(inc, width, margin) + 1) * (inc + margin * 2)
  {
    var rh := RowHeight(inc, ratio, margin);
    if n == 0 {
      assert Rows(0, PerRow(inc, width, margin)) as real * rh == rh;
    } else if n == 1 {
      assert Rows(1, PerRow(inc, width, margin)) as real * rh == rh;
      assert Pack(inc, 1, width, ratio, margin) == PackState(inc + margin * 2, rh);
    } else {
      PackClosedForm(inc, n - 1, width, ratio, margin);
      PlaceStep(Pack(inc, n - 1, width, ratio, margin), n, inc, width, ratio, margin);
    }
  }

  // ---------------------------------------------------------------------------
  // Monotonicity: any narrower width fits whenever a wider one does

  lemma DivMonoNumerator(x: int, y: int, s: int)
    requires 0 <= x <= y && s >= 1
    ensures x / s <= y / s
  {
    MulLeIffLeDiv(x / s, s, y);
    assert x / s * s <= x;
  }

  lemma DivAntiMonoDenominator(a: int, s: int, t: int)
    requires a >= 0 && 1 <= s <= t
    ensures a / t <= a / s
  {
    MulLeft(s, t, a / t);
    assert a / t * t <= a;
    MulLeIffLeDiv(a / t, s, a);
  }

  /** A narrower tile never leaves room for fewer tiles per row. */
  lemma PerRowAntitone(a: int, b: int, width: int, margin: int)
    requires 1 <= a <= b <= width && margin >= 0
    ensures PerRow(b, width, margin) <= PerRow(a, width, margin)
  {
    DivMonoNumerator(width - b, width - a, b + margin * 2);
    DivAntiMonoDenominator(width - a, a + margin * 2, b + margin * 2);
  }

  /** More tiles per row never means more rows. */
  lemma RowsAntitone(n: nat, c: int, d: int)
    requires 1 <= c <= d
    ensures Rows(n, d) <= Rows(n, c)
  {
    if n > 0 {
      DivAntiMonoDenominator(n - 1, c, d);
    }
  }

  lemma ProductMono(x: int, y: int, u: real, v: real)
    requires 0 <= x <= y && 0.0 <= u <= v
    ensures x as real * u <= y as real * v
  {
    assert x as real * u <= y as real * u;
    assert y as real * u <= y as real * v;
  }

  /** A wider tile never takes fewer rows. */
  lemma RowsMonotone(a: int, b: int, n: nat, width: int, margin: int)
    requires 1 <= a <= b <= width && margin >= 0
    ensures Rows(n, PerRow(a, width, margin)) <= Rows(n, PerRow(b, width, margin))
  {
    PerRowAntitone(a, b, width, margin);
    RowsAntitone(n, PerRow(b, width, margin), PerRow(a, width, margin));
  }

  /** A wider tile makes a taller row. */
  lemma RowHeightMonotone(a: int, b: int, ratio: real, margin: int)
    requires 1 <= a <= b && margin >= 0 && ratio >= 0.0
    ensures 0.0 <= RowHeight(a, ratio, margin) <= RowHeight(b, ratio, margin)
  {
    assert (b - a) as real * ratio >= 0.0;
  }

  /** The closed-form stacked height grows with the tile width. */
  lemma StackHeightMonotone(a: int, b: int, n: nat, width: int, ratio: real, margin: int)
    requires 1 <= a <= b <= width && margin >= 0 && ratio >= 0.0
    ensures Rows(n, PerRow(a, width, margin)) as real * RowHeight(a, ratio, margin)
            <= Rows(n, PerRow(b, width, margin)) as real * RowHeight(b, ratio, margin)
  {
    RowsMonotone(a, b, n, width, margin);
    RowHeightMonotone(a, b, ratio, margin);
    ProductMono(Rows(n, PerRow(a, width, margin)), Rows(n, PerRow(b, width, margin)),
                RowHeight(a, ratio, margin), RowHeight(b, ratio, margin));
  }

  /** The stacked height grows with the tile width (for a width that fits in one row). */
  lemma HeightMonotone(a: int, b: int, n: nat, width: int, ratio: real, margin: int)
    requires 1 <= a <= b <= width && margin >= 0 && ratio >= 0.0
    ensures Pack(a, n, width, ratio, margin).height <= Pack(b, n, width, ratio, margin).height
  {
    StackHeightMonotone(a, b, n, width, ratio, margin);
    PackClosedForm(a, n, width, ratio, margin);
    PackClosedForm(b, n, width, ratio, margin);
  }

  /** Fitting is monotone in the candidate width: if `b` fits, so does every `a` from 1 to `b`. */
  lemma FitsMonotone(a: int, b: int, n: nat, height: int, width: int, ratio: real, margin: int)
    requires 1 <= a <= b && margin >= 0 && ratio >= 0.0
    requires Fits(b, n, height, width, ratio, margin)
    ensures Fits(a, n, height, width, ratio, margin)
  {
    HeightMonotone(a, b, n, width, ratio, margin);
  }

  /** With no children the stack is the single baseline row. */
  lemma FitsNoChildren(inc: int, height: int, width: int, ratio: real, margin: int)
    ensures Fits(inc, 0, height, width, ratio, margin)
            <==> RowHeight(inc, ratio, margin) <= height as real && inc <= width
  {
  }

  // ---------------------------------------------------------------------------
  // The scan over candidate widths

  /**
   * The value `calculateArea` holds in `max` after scanning from `inc`: one less than the
   * first width that does not fit, or 0 when every width below `ScanLimit` fits.
   */
  function Scan(inc: int, n: nat, height: int, width: int, ratio: real, margin: int): (r: int)
    ensures r != 0 ==> inc - 1 <= r && r + 1 < ScanLimit && !Fits(r + 1, n, height, width, ratio, margin)
    decreases ScanLimit - inc
  {
    if inc >= ScanLimit then 0
    else if !Fits(inc, n, height, width, ratio, margin) then inc - 1
    else Scan(inc + 1, n, height, width, ratio, margin)
  }

  /**
   * What the scan leaves in `max`: either no width in 1 .. ScanLimit-1 failed and `max` is 0,
   * or `max + 1` is the first width that fails and every width up to `max` fits.
   */
  ghost predicate IsScanResult(max: int, n: nat, height: int, width: int, ratio: real, margin: int)
  {
    || (max == 0 && forall k :: 1 <= k < ScanLimit ==> Fits(k, n, height, width, ratio, margin))
    || (0 <= max < ScanLimit - 1 && !Fits(max + 1, n, height, width, ratio, margin)
        && forall k :: 1 <= k <= max ==> Fits(k, n, height, width, ratio, margin))
  }

  /** The scan function computes the scan result, starting anywhere in 1 .. ScanLimit. */
  lemma {:induction false} ScanSatisfiesSpec(inc: int, n: nat, height: int, width: int, ratio: real, margin: int)
    requires 1 <= inc <= ScanLimit
    requires forall k :: 1 <= k < inc ==> Fits(k, n, height, width, ratio, margin)
    ensures IsScanResult(Scan(inc, n, height, width, ratio, margin), n, height, width, ratio, margin)
    decreases ScanLimit - inc
  {
    if inc < ScanLimit && Fits(inc, n, height, width, ratio, margin) {
      ScanSatisfiesSpec(inc + 1, n, height, width, ratio, margin);
    }
  }

  /** The scan result is unique: at most one value meets the specification. */
  lemma ScanResultUnique(x: int, y: int, n: nat, height: int, width: int, ratio: real, margin: int)
    requires IsScanResult(x, n, height, width, ratio, margin)
    requires IsScanResult(y, n, height, width, ratio, margin)
    ensures x == y
  {
  }

  /**
   * Maximality: unless every scanned width fits, the scan result is the largest width that
   * fits at all and every larger width fails.
   */
  lemma ScanFindsLargestFit(n: nat, height: int, width: int, ratio: real, margin: int)
    requires margin >= 0 && ratio >= 0.0
    ensures var max := Scan(1, n, height, width, ratio, margin);
      || (max == 0 && forall k :: 1 <= k < ScanLimit ==> Fits(k, n, height, width, ratio, margin))
      || ((forall k :: 1 <= k <= max ==> Fits(k, n, height, width, ratio, margin))
          && (forall k :: k > max ==> !Fits(k, n, height, width, ratio, margin)))
  {
    var max := Scan(1, n, height, width, ratio, margin);
    ScanSatisfiesSpec(1, n, height, width, ratio, margin);
    if !Fits(max + 1, n, height, width, ratio, margin) {
      forall k | k > max
        ensures !Fits(k, n, height, width, ratio, margin)
      {
        if Fits(k, n, height, width, ratio, margin) {
          FitsMonotone(max + 1, k, n, height, width, ratio, margin);
        }
      }
    }
  }

  /**
   * The sentinel 0 is reached both when not even width 1 fits and when every width below
   * `ScanLimit` fits, so the scan result alone cannot tell the two apart.
   */
  lemma ScanZeroIsAmbiguous(n: nat, height: int, width: int, ratio: real, margin: int)
    ensures Scan(1, n, height, width, ratio, margin) == 0
            <==> !Fits(1, n, height, width, ratio, margin)
                 || forall k :: 1 <= k < ScanLimit ==> Fits(k, n, height, width, ratio, margin)
  {
    ScanSatisfiesSpec(1, n, height, width, ratio, margin);
  }

  /** A container with no inner width holds no tile of any width (scan result 0). */
  lemma ScanNoWidth(n: nat, height: int, width: int, ratio: real, margin: int)
    requires width < 1
    ensures Scan(1, n, height, width, ratio, margin) == 0
    ensures forall k :: k >= 1 ==> !Fits(k, n, height, width, ratio, margin)
  {
  }

  /**
   * A worked case: four 16:9 tiles in an inner area of 1000 x 600 with margin 5.  Width 495
   * still fits two per row (two rows, 576.875 high); width 496 fits only one per row and
   * four rows overflow, so the scan stops at 495.
   */
  lemma ScanFourTilesSixteenByNine()
    ensures Scan(1, 4, 600, 1000, 9.0 / 16.0, 5) == 495
  {
    var ratio := 9.0 / 16.0;
    PackClosedForm(495, 4, 1000, ratio, 5);
    PackClosedForm(496, 4, 1000, ratio, 5);
    assert PerRow(495, 1000, 5) == 2;
    assert PerRow(496, 1000, 5) == 1;
    assert Fits(495, 4, 600, 1000, ratio, 5);
    assert !Fits(496, 4, 600, 1000, ratio, 5);
    forall k | 1 <= k <= 495
      ensures Fits(k, 4, 600, 1000, ratio, 5)
    {
      FitsMonotone(k, 495, 4, 600, 1000, ratio, 5);
    }
    assert IsScanResult(495, 4, 600, 1000, ratio, 5);
    ScanSatisfiesSpec(1, 4, 600, 1000, ratio, 5);
    ScanResultUnique(495, Scan(1, 4, 600, 1000, ratio, 5), 4, 600, 1000, ratio, 5);
  }
}
