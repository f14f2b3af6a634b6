/** Index arithmetic of the (n+1) x (n+1) terrain lattice.

    Vertex (row i, column j) has the linear index i*(n+1) + j (the "vid" of the
    face loop), and its three coordinates sit at 3*vid, 3*vid+1, 3*vid+2 of the
    flat vertex array. The height synthesiser addresses grid point (x, y) --
    column x, row y -- through the z slot y*(n+1)*3 + x*3 + 2. */
module Lattice {

  /** n is 2^k for some k >= 0. */
  predicate IsPow2(n: nat)
    decreases n
  {
    if n <= 1 then n == 1 else n % 2 == 0 && IsPow2(n / 2)
  }

  /** Coordinate c is a multiple of size. */
  predicate Aligned(c: nat, size: nat)
    requires size > 0
  {
    c % size == 0
  }

  /** Number of vertices of the (n+1) x (n+1) lattice. */
  function VertexCount(n: nat): nat
  {
    (n + 1) * (n + 1)
  }

  /** Linear index of vertex (row i, column j). */
  function VertexIndex(n: nat, i: nat, j: nat): nat
  {
    i * (n + 1) + j
  }

  /** Row and column of linear vertex index p. */
  function Row(n: nat, p: nat): nat { p / (n + 1) }
  function Col(n: nat, p: nat): nat { p % (n + 1) }

  /** Flat index of the z slot of grid point (column x, row y). */
  function Z(n: nat, x: nat, y: nat): nat
  {
    y * (n + 1) * 3 + x * 3 + 2
  }

  /** Slot k of a flat vertex array holds a height whose grid point lies on
      the lattice of spacing size (both its column and its row are multiples
      of size). */
  predicate OnLattice(n: nat, k: nat, size: nat)
    requires size > 0
  {
    Aligned(Col(n, k / 3), size) && Aligned(Row(n, k / 3), size)
  }

  // ---------------------------------------------------------------------
  // Division with remainder

  lemma MulMono(a: nat, b: nat, m: nat)
    requires a <= b
    ensures a * m <= b * m
  {
  }

  /** Quotient and remainder are unique. */
  lemma DivMod(a: nat, m: nat, q: nat, r: nat)
    requires m > 0 && r < m && a == q * m + r
    ensures a / m == q && a % m == r
  {
    var q0, r0 := a / m, a % m;
    assert a == q0 * m + r0;
    assert (q0 + 1) * m == q0 * m + m;
    assert (q + 1) * m == q * m + m;
    if q0 + 1 <= q {
      MulMono(q0 + 1, q, m);
    }
    if q + 1 <= q0 {
      MulMono(q + 1, q0, m);
    }
  }

  /** A number with remainder r is at least r. */
  lemma AtLeastRemainder(x: nat, m: nat)
    requires m > 0
    ensures x % m <= x
  {
    assert x == (x / m) * m + x % m;
  }

  /** If x < n, n is a multiple of m and x leaves remainder r, then the next
      multiple of m above x is still at most n. */
  lemma AlignedBelow(x: nat, n: nat, m: nat)
    requires m > 0 && n % m == 0 && x < n
    ensures x - x % m + m <= n
  {
    var qx, qn := x / m, n / m;
    assert x == qx * m + x % m;
    assert n == qn * m;
    if qn <= qx {
      MulMono(qn, qx, m);
      assert false;
    }
    MulMono(qx + 1, qn, m);
    assert (qx + 1) * m == qx * m + m;
  }

  /** A positive multiple of m is at least m. */
  lemma MultipleAtLeast(n: nat, m: nat)
    requires m > 0 && n > 0 && n % m == 0
    ensures m <= n
  {
    assert n == (n / m) * m;
    if n / m == 0 {
      assert false;
    }
    MulMono(1, n / m, m);
  }

  /** Adding m keeps the remainder modulo m. */
  lemma ModAddDivisor(x: nat, m: nat)
    requires m > 0
    ensures (x + m) % m == x % m
  {
    assert x + m == (x / m + 1) * m + x % m;
    DivMod(x + m, m, x / m + 1, x % m);
  }

  /** Stepping by half of an even divisor alternates remainder 0 and half. */
  lemma ModHalfStep(y: nat, size: nat)
    requires size >= 2 && size % 2 == 0
    requires y % size == 0 || y % size == size / 2
    ensures y % size == 0 ==> (y + size / 2) % size == size / 2
    ensures y % size == size / 2 ==> (y + size / 2) % size == 0
  {
    var q := y / size;
    assert y == q * size + y % size;
    if y % size == 0 {
      DivMod(y + size / 2, size, q, size / 2);
    } else {
      assert y + size / 2 == (q + 1) * size;
      DivMod(y + size / 2, size, q + 1, 0);
    }
  }

  /** Below the divisor a number is its own remainder. */
  lemma SmallMod(x: nat, m: nat)
    requires x < m
    ensures x % m == x
  {
    DivMod(x, m, 0, x);
  }

  /** A multiple of an even size is a multiple of its half. */
  lemma AlignedHalf(c: nat, size: nat)
    requires size >= 2 && size % 2 == 0 && c % size == 0
    ensures c % (size / 2) == 0
  {
    var q := c / size;
    assert c == q * size;
    assert c == (2 * q) * (size / 2);
    DivMod(c, size / 2, 2 * q, 0);
  }

  /** Every point on the lattice of spacing size is on the lattice of spacing size/2. */
  lemma LatticeRefines(n: nat, size: nat)
    requires size >= 2 && size % 2 == 0
    ensures forall k: nat :: OnLattice(n, k, size) ==> OnLattice(n, k, size / 2)
  {
    forall k: nat | OnLattice(n, k, size)
      ensures OnLattice(n, k, size / 2)
    {
      AlignedHalf(Col(n, k / 3), size);
      AlignedHalf(Row(n, k / 3), size);
    }
  }

  /** A power of two of at least 2 is even and its half is a power of two. */
  lemma Pow2Half(size: nat)
    requires IsPow2(size) && size >= 2
    ensures size % 2 == 0 && IsPow2(size / 2)
  {
  }

  // ---------------------------------------------------------------------
  // Vertex indices

  /** The linear index of (i, j) decodes back to row i and column j. */
  lemma DecodeVertex(n: nat, i: nat, j: nat)
    requires j <= n
    ensures Row(n, VertexIndex(n, i, j)) == i && Col(n, VertexIndex(n, i, j)) == j
  {
    DivMod(VertexIndex(n, i, j), n + 1, i, j);
  }

  /** A cell number c below n * n splits into the row c / n < n and the
      column c % n. */
  lemma SplitCell(n: nat, c: nat)
    requires n > 0 && c < n * n
    ensures c / n < n && c == c / n * n + c % n
  {
    var q := c / n;
    if q >= n {
      MulMono(n, q, n);
    }
  }

  /** Column n + 1 of row i is column 0 of row i + 1; row n + 1 starts at
      the vertex count. */
  lemma NextRow(n: nat, i: nat)
    ensures VertexIndex(n, i, n + 1) == VertexIndex(n, i + 1, 0)
    ensures VertexIndex(n, n + 1, 0) == VertexCount(n)
  {
  }

  /** Every vertex of the lattice has an index below (n+1)^2. */
  lemma VertexIndexBound(n: nat, i: nat, j: nat)
    requires i <= n && j <= n
    ensures VertexIndex(n, i, j) < VertexCount(n)
  {
    MulMono(i, n, n + 1);
    assert n * (n + 1) + (n + 1) == (n + 1) * (n + 1);
  }

  /** The z slot of an in-grid point lies in a vertex array of 3(n+1)^2 slots. */
  lemma ZInRange(n: nat, x: nat, y: nat)
    requires x <= n && y <= n
    ensures Z(n, x, y) < 3 * VertexCount(n)
  {
    VertexIndexBound(n, y, x);
  }

  /** The z slot of an in-grid point lies in a vertex array of 3(n+1)^2 slots,
      is the third slot of its vertex and names that vertex's column and row. */
  lemma ZFacts(n: nat, x: nat, y: nat)
    requires x <= n && y <= n
    ensures Z(n, x, y) == 3 * VertexIndex(n, y, x) + 2
    ensures Z(n, x, y) < 3 * VertexCount(n)
    ensures Z(n, x, y) % 3 == 2
    ensures Col(n, Z(n, x, y) / 3) == x && Row(n, Z(n, x, y) / 3) == y
  {
    VertexIndexBound(n, y, x);
    DecodeVertex(n, y, x);
  }
}
