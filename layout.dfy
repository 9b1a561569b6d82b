/** Row-major index arithmetic: the meaning of tinygrad's `reshape` on a
    dense row-major buffer, and the division/modulo facts that undo it. */
module Layout {

  /** Offset of element (i, j) in a row-major matrix with `cols` columns. */
  function Flat2(i: nat, j: nat, cols: nat): nat
  {
    i * cols + j
  }

  /** Offset of element (i0, i1, i2, i3) in a row-major array of shape
      (_, d1, d2, d3): the index a 4-D reshape of a flat buffer uses. */
  function Flat4(i0: nat, i1: nat, i2: nat, i3: nat, d1: nat, d2: nat, d3: nat): nat
  {
    Flat2(Flat2(Flat2(i0, i1, d1), i2, d2), i3, d3)
  }

  /** Euclidean division is determined by quotient and remainder. */
  lemma DivModUnique(x: nat, d: nat, q: nat, r: nat)
    requires d > 0 && r < d && x == q * d + r
    ensures x / d == q && x % d == r
  {
    var q', r' := x / d, x % d;
    if q' > q {
      assert (q' - q) * d == r - r';
      MulAtLeast(q' - q, d);
      assert false;
    } else if q' < q {
      assert (q - q') * d == r' - r;
      MulAtLeast(q - q', d);
      assert false;
    }
  }

  lemma MulAtLeast(k: nat, d: nat)
    requires k >= 1
    ensures k * d >= d
  {
    assert k * d == (k - 1) * d + d;
  }

  lemma MulMonotone(a: nat, b: nat, d: nat)
    requires a <= b
    ensures a * d <= b * d
  {
    assert b * d == a * d + (b - a) * d;
  }

  /** One past the end of row i is the start of row i + 1. */
  lemma Flat2NextRow(i: nat, cols: nat)
    ensures Flat2(i, cols, cols) == Flat2(i + 1, 0, cols)
  {
    assert (i + 1) * cols == i * cols + cols;
  }

  /** Flat2 is undone by division and remainder by the row length. */
  lemma Flat2Split(i: nat, j: nat, cols: nat)
    requires j < cols
    ensures Flat2(i, j, cols) / cols == i && Flat2(i, j, cols) % cols == j
  {
    DivModUnique(Flat2(i, j, cols), cols, i, j);
  }

  /** An in-range index pair lands inside the matrix. */
  lemma Flat2Bound(i: nat, j: nat, rows: nat, cols: nat)
    requires i < rows && j < cols
    ensures Flat2(i, j, cols) < rows * cols
  {
    MulMonotone(i + 1, rows, cols);
  }

  /** Every offset inside a rows x cols matrix is the offset of exactly the
      pair (f / cols, f % cols), and that pair is in range. */
  lemma Flat2Join(f: nat, rows: nat, cols: nat)
    requires f < rows * cols
    ensures cols > 0 && f / cols < rows && f % cols < cols
    ensures Flat2(f / cols, f % cols, cols) == f
  {
    if f / cols >= rows {
      MulMonotone(rows, f / cols, cols);
    }
  }

  /** Flat4 is a bijection between a 4-D index box and [0, d0*d1*d2*d3). */
  lemma Flat4Bound(i0: nat, i1: nat, i2: nat, i3: nat, d0: nat, d1: nat, d2: nat, d3: nat)
    requires i0 < d0 && i1 < d1 && i2 < d2 && i3 < d3
    ensures Flat4(i0, i1, i2, i3, d1, d2, d3) < d0 * d1 * d2 * d3
  {
    Flat2Bound(i0, i1, d0, d1);
    Flat2Bound(Flat2(i0, i1, d1), i2, d0 * d1, d2);
    Flat2Bound(Flat2(Flat2(i0, i1, d1), i2, d2), i3, d0 * d1 * d2, d3);
  }

  /** Recovering the four coordinates from a Flat4 offset. */
  function Unflat4(f: nat, d1: nat, d2: nat, d3: nat): (nat, nat, nat, nat)
    requires d1 > 0 && d2 > 0 && d3 > 0
  {
    DivIsNat(f, d3);
    var f2: nat := f / d3;
    DivIsNat(f2, d2);
    var f1: nat := f2 / d2;
    DivIsNat(f1, d1);
    (f1 / d1, f1 % d1, f2 % d2, f % d3)
  }

  lemma Flat4Split(i0: nat, i1: nat, i2: nat, i3: nat, d1: nat, d2: nat, d3: nat)
    requires i1 < d1 && i2 < d2 && i3 < d3
    ensures Unflat4(Flat4(i0, i1, i2, i3, d1, d2, d3), d1, d2, d3) == (i0, i1, i2, i3)
  {
    var f1 := Flat2(i0, i1, d1);
    var f2 := Flat2(f1, i2, d2);
    Flat2Split(f2, i3, d3);
    Flat2Split(f1, i2, d2);
    Flat2Split(i0, i1, d1);
  }

  lemma Flat4Join(f: nat, d0: nat, d1: nat, d2: nat, d3: nat)
    requires f < d0 * d1 * d2 * d3
    ensures d1 > 0 && d2 > 0 && d3 > 0
    ensures var u := Unflat4(f, d1, d2, d3);
      u.0 < d0 && u.1 < d1 && u.2 < d2 && u.3 < d3 && Flat4(u.0, u.1, u.2, u.3, d1, d2, d3) == f
  {
    Flat2Join(f, d0 * d1 * d2, d3);
    Flat2Join(f / d3, d0 * d1, d2);
    Flat2Join(f / d3 / d2, d0, d1);
  }

  /** A 4-D offset is a 2-D offset: (i0, i1) pick the row of a matrix with
      d2 * d3 columns and (i2, i3) the column. */
  lemma Flat4RowCol(i0: nat, i1: nat, i2: nat, i3: nat, d1: nat, d2: nat, d3: nat)
    ensures Flat4(i0, i1, i2, i3, d1, d2, d3) == Flat2(Flat2(i0, i1, d1), Flat2(i2, i3, d3), d2 * d3)
  {
    var r := Flat2(i0, i1, d1);
    calc {
      Flat4(i0, i1, i2, i3, d1, d2, d3);
      (r * d2 + i2) * d3 + i3;
      r * d2 * d3 + i2 * d3 + i3;
      { assert r * d2 * d3 == r * (d2 * d3); }
      r * (d2 * d3) + (i2 * d3 + i3);
    }
  }

  /** Flat2 is a bijection between [0, rows) x [0, cols) and [0, rows*cols),
      inverted by division and remainder. */
  lemma Flat2Bijection(rows: nat, cols: nat)
    ensures forall i: nat, j: nat | i < rows && j < cols ::
      Flat2(i, j, cols) < rows * cols && Flat2(i, j, cols) / cols == i && Flat2(i, j, cols) % cols == j
    ensures forall f | 0 <= f < rows * cols ::
      cols > 0 && f / cols < rows && Flat2(f / cols, f % cols, cols) == f
  {
    forall i: nat, j: nat | i < rows && j < cols
      ensures Flat2(i, j, cols) < rows * cols && Flat2(i, j, cols) / cols == i && Flat2(i, j, cols) % cols == j
    {
      Flat2Bound(i, j, rows, cols);
      Flat2Split(i, j, cols);
    }
    forall f | 0 <= f < rows * cols
      ensures cols > 0 && f / cols < rows && Flat2(f / cols, f % cols, cols) == f
    {
      Flat2Join(f, rows, cols);
    }
  }

  /** Two-level nesting: position r inside tile t of a span of `tiles`
      tiles of `size`, inside span w.  The flat offset is in range and
      division and remainder recover (w, t, r). */
  lemma NestSplit(w: nat, t: nat, r: nat, spans: nat, tiles: nat, size: nat, span: nat)
    requires w < spans && t < tiles && r < size && tiles * size == span
    ensures Flat2(w, Flat2(t, r, size), span) < spans * span
    ensures Flat2(w, Flat2(t, r, size), span) / span == w
    ensures Flat2(w, Flat2(t, r, size), span) % span == Flat2(t, r, size)
    ensures Flat2(t, r, size) / size == t && Flat2(t, r, size) % size == r
  {
    Flat2Bound(t, r, tiles, size);
    Flat2Split(t, r, size);
    Flat2Split(w, Flat2(t, r, size), span);
    Flat2Bound(w, Flat2(t, r, size), spans, span);
  }

  /** Conversely every offset below spans * span is such a nesting. */
  lemma NestJoin(x: nat, spans: nat, tiles: nat, size: nat, span: nat)
    requires x < spans * span && tiles * size == span
    ensures span > 0 && size > 0
    ensures x / span < spans && (x % span) / size < tiles && (x % span) % size < size
    ensures Flat2(x / span, Flat2((x % span) / size, (x % span) % size, size), span) == x
  {
    Flat2Join(x, spans, span);
    Flat2Join(x % span, tiles, size);
  }

  /** Non-negative division and remainder below the divisor. */
  lemma DivIsNat(x: nat, d: nat)
    requires d > 0
    ensures x / d >= 0 && x % d < d
  {
  }

  /** Re-associating a nesting: (a, (b, x)) with spans of m * s equals
      ((a, b), x) with spans of s. */
  lemma Flat2Nest(a: nat, b: nat, x: nat, m: nat, s: nat)
    ensures Flat2(Flat2(a, b, m), x, s) == Flat2(a, Flat2(b, x, s), m * s)
  {
    assert (a * m + b) * s == a * (m * s) + b * s;
  }

  /** Two nestings of the same tile index (a, b) fall in the same band of
      width s: (a*m + b)*s + x and a*(m*s) + b*s + y, with x, y < s, both
      lie in band a*m + b, at offsets x and y. */
  lemma SameBand(a: nat, b: nat, x: nat, y: nat, m: nat, s: nat, w: nat)
    requires x < s && y < s && w == m * s
    ensures Flat2(Flat2(a, b, m), x, s) / s == Flat2(a, b, m) && Flat2(Flat2(a, b, m), x, s) % s == x
    ensures Flat2(a, Flat2(b, y, s), w) / s == Flat2(a, b, m) && Flat2(a, Flat2(b, y, s), w) % s == y
  {
    Flat2Split(Flat2(a, b, m), x, s);
    Flat2Nest(a, b, y, m, s);
    Flat2Split(Flat2(a, b, m), y, s);
  }

  /** An exact quotient times the divisor gives the dividend back. */
  lemma DivExact(x: nat, d: nat)
    requires d > 0 && x % d == 0
    ensures (x / d) * d == x
  {
  }

  /** Offset of cell (i, j) of tile (p, q) when an nr x nc row-major matrix
      is cut into tr x tc tiles, i.e. of
      x.reshape(nr//tr, tr, nc//tc, tc)[p, i, q, j]: matrix cell
      (p*tr + i, q*tc + j). */
  function TiledOffset(nr: nat, nc: nat, tr: nat, tc: nat, p: nat, i: nat, q: nat, j: nat): (f: nat)
    requires tr > 0 && tc > 0 && nr % tr == 0 && nc % tc == 0
    requires p < nr / tr && i < tr && q < nc / tc && j < tc
    ensures Flat2(p, i, tr) < nr && Flat2(q, j, tc) < nc
    ensures f == Flat2(Flat2(p, i, tr), Flat2(q, j, tc), nc) && f < nr * nc
  {
    Flat4RowCol(p, i, q, j, tr, nc / tc, tc);
    DivExact(nr, tr);
    DivExact(nc, tc);
    Flat2Bound(p, i, nr / tr, tr);
    Flat2Bound(q, j, nc / tc, tc);
    Flat2Bound(Flat2(p, i, tr), Flat2(q, j, tc), nr, nc);
    Flat4(p, i, q, j, tr, nc / tc, tc)
  }
}
