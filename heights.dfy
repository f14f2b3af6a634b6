/** The height synthesiser: set_height, divide, Diamondstep and Squarestep.

    Heights live in the z slots of the flat vertex array; grid point (x, y)
    has its height at Z(n, x, y) = y*(n+1)*3 + x*3 + 2. set_height seeds the
    four corners to n/2, runs the diamond-square recursion divide(n, n) and
    finally maps every height z to z/(n/2) - 1.

    The model works on the array in place (the methods) and on its contents
    as a sequence (the functions that specify them). Math.random() becomes a
    Sampler: the sample drawn for the displacement of grid point (x, y). */
module HeightSynthesizer {
  import opened Lattice

  /** The random source: the value in [0, 1) that Math.random() returns when
      divide displaces grid point (x, y). */
  type Sampler = (nat, nat) -> real

  /** A flat vertex array of the (n+1) x (n+1) lattice. */
  predicate IsVertexArray(h: seq<real>, n: nat)
  {
    |h| == 3 * VertexCount(n)
  }

  /** The roughness coefficient 0.28 times the current square size. */
  function Scale(size: nat): real
  {
    0.28 * size as real
  }

  /** The displacement divide passes for sample s: s*scale*2 - scale, which
      lies in [-scale, scale) whenever the sample lies in [0, 1). */
  function Offset(sample: real, scale: real): (o: real)
    ensures 0.0 <= sample < 1.0 && scale > 0.0 ==> -scale <= o < scale
  {
    sample * scale * 2.0 - scale
  }

  /** The height of grid point (x, y). */
  function Height(h: seq<real>, n: nat, x: nat, y: nat): real
    requires IsVertexArray(h, n) && x <= n && y <= n
  {
    ZInRange(n, x, y);
    h[Z(n, x, y)]
  }

  /** The array with the height of grid point (x, y) replaced. */
  function SetZ(h: seq<real>, n: nat, x: nat, y: nat, value: real): (r: seq<real>)
    requires IsVertexArray(h, n) && x <= n && y <= n
    ensures IsVertexArray(r, n)
  {
    ZInRange(n, x, y);
    h[Z(n, x, y) := value]
  }

  // ---------------------------------------------------------------------
  // One step

  /** Mean height of the four corners at distance size around the diamond
      centre (x, y). */
  function DiamondAverage(h: seq<real>, n: nat, x: nat, y: nat, size: nat): real
    requires IsVertexArray(h, n)
    requires size <= x && x + size <= n && size <= y && y + size <= n
  {
    (Height(h, n, x - size, y - size) + Height(h, n, x + size, y - size)
     + Height(h, n, x - size, y + size) + Height(h, n, x + size, y + size)) / 4.0
  }

  /** At most one of the four orthogonal neighbours at distance size of
      (x, y) lies outside the grid: the condition under which every height
      Squarestep reads exists. */
  predicate AtMostOneOutside(n: nat, x: nat, y: nat, size: nat)
  {
    (if y < size then 1 else 0) + (if x + size > n then 1 else 0)
    + (if y + size > n then 1 else 0) + (if x < size then 1 else 0) <= 1
  }

  /** The square-step mean, with the source's tests in the source's order:
      missing top, missing right, missing bottom, missing left, or none. */
  function SquareAverage(h: seq<real>, n: nat, x: nat, y: nat, size: nat): real
    requires IsVertexArray(h, n) && x <= n && y <= n && AtMostOneOutside(n, x, y, size)
  {
    if y < size then
      (Height(h, n, x + size, y) + Height(h, n, x, y + size) + Height(h, n, x - size, y)) / 3.0
    else if x + size > n then
      (Height(h, n, x, y - size) + Height(h, n, x, y + size) + Height(h, n, x - size, y)) / 3.0
    else if y + size > n then
      (Height(h, n, x, y - size) + Height(h, n, x + size, y) + Height(h, n, x - size, y)) / 3.0
    else if x < size then
      (Height(h, n, x, y - size) + Height(h, n, x + size, y) + Height(h, n, x, y + size)) / 3.0
    else
      (Height(h, n, x, y - size) + Height(h, n, x + size, y) + Height(h, n, x, y + size) + Height(h, n, x - size, y)) / 4.0
  }

  /** The in-grid orthogonal neighbours at distance size of (x, y), in the
      order top, right, bottom, left. */
  function Neighbours(n: nat, x: nat, y: nat, size: nat): seq<(nat, nat)>
  {
    (if y >= size then [(x, y - size)] else [])
    + (if x + size <= n then [(x + size, y)] else [])
    + (if y + size <= n then [(x, y + size)] else [])
    + (if x >= size then [(x - size, y)] else [])
  }

  /** Every one of the points lies in the grid. */
  predicate InGrid(n: nat, pts: seq<(nat, nat)>)
  {
    forall i :: 0 <= i < |pts| ==> pts[i].0 <= n && pts[i].1 <= n
  }

  /** Sum of the heights at the given grid points. */
  function SumAt(h: seq<real>, n: nat, pts: seq<(nat, nat)>): real
    requires IsVertexArray(h, n) && InGrid(n, pts)
  {
    if pts == [] then 0.0 else Height(h, n, pts[0].0, pts[0].1) + SumAt(h, n, pts[1..])
  }

  /** SumAt of one point in front of others. */
  lemma SumAtCons(h: seq<real>, n: nat, p: (nat, nat), rest: seq<(nat, nat)>)
    requires IsVertexArray(h, n) && p.0 <= n && p.1 <= n && InGrid(n, rest)
    ensures InGrid(n, [p] + rest)
    ensures SumAt(h, n, [p] + rest) == Height(h, n, p.0, p.1) + SumAt(h, n, rest)
  {
    assert ([p] + rest)[1..] == rest;
  }

  /** The summed height at three in-grid points. */
  lemma SumOfThree(h: seq<real>, n: nat, a: (nat, nat), b: (nat, nat), c: (nat, nat))
    requires IsVertexArray(h, n)
    requires a.0 <= n && a.1 <= n && b.0 <= n && b.1 <= n && c.0 <= n && c.1 <= n
    ensures InGrid(n, [a, b, c])
    ensures SumAt(h, n, [a, b, c]) == Height(h, n, a.0, a.1) + Height(h, n, b.0, b.1) + Height(h, n, c.0, c.1)
  {
    SumAtCons(h, n, c, []);
    assert [c] + [] == [c];
    SumAtCons(h, n, b, [c]);
    assert [b] + [c] == [b, c];
    SumAtCons(h, n, a, [b, c]);
    assert [a] + [b, c] == [a, b, c];
  }

  /** The summed height at four in-grid points. */
  lemma SumOfFour(h: seq<real>, n: nat, a: (nat, nat), b: (nat, nat), c: (nat, nat), d: (nat, nat))
    requires IsVertexArray(h, n)
    requires a.0 <= n && a.1 <= n && b.0 <= n && b.1 <= n
    requires c.0 <= n && c.1 <= n && d.0 <= n && d.1 <= n
    ensures InGrid(n, [a, b, c, d])
    ensures SumAt(h, n, [a, b, c, d])
            == Height(h, n, a.0, a.1) + Height(h, n, b.0, b.1) + Height(h, n, c.0, c.1) + Height(h, n, d.0, d.1)
  {
    SumOfThree(h, n, b, c, d);
    SumAtCons(h, n, a, [b, c, d]);
    assert [a] + [b, c, d] == [a, b, c, d];
  }

  /** Whether (x, y) sits on the domain edge as Squarestep sees it. */
  predicate OnEdge(n: nat, x: nat, y: nat, size: nat)
  {
    y < size || x + size > n || y + size > n || x < size
  }

  /** The mean height at three in-grid points. */
  lemma MeanOfThree(h: seq<real>, n: nat, pts: seq<(nat, nat)>, a: (nat, nat), b: (nat, nat), c: (nat, nat))
    requires IsVertexArray(h, n) && pts == [a, b, c]
    requires a.0 <= n && a.1 <= n && b.0 <= n && b.1 <= n && c.0 <= n && c.1 <= n
    ensures InGrid(n, pts) && |pts| == 3
    ensures SumAt(h, n, pts) / 3.0
            == (Height(h, n, a.0, a.1) + Height(h, n, b.0, b.1) + Height(h, n, c.0, c.1)) / 3.0
  {
    SumOfThree(h, n, a, b, c);
  }

  /** The mean height at four in-grid points. */
  lemma MeanOfFour(h: seq<real>, n: nat, pts: seq<(nat, nat)>, a: (nat, nat), b: (nat, nat), c: (nat, nat), d: (nat, nat))
    requires IsVertexArray(h, n) && pts == [a, b, c, d]
    requires a.0 <= n && a.1 <= n && b.0 <= n && b.1 <= n
    requires c.0 <= n && c.1 <= n && d.0 <= n && d.1 <= n
    ensures InGrid(n, pts) && |pts| == 4
    ensures SumAt(h, n, pts) / 4.0
            == (Height(h, n, a.0, a.1) + Height(h, n, b.0, b.1) + Height(h, n, c.0, c.1) + Height(h, n, d.0, d.1)) / 4.0
  {
    SumOfFour(h, n, a, b, c, d);
  }

  /** On the domain edge Squarestep's mean is over the three in-grid
      neighbours. */
  lemma EdgeMean(h: seq<real>, n: nat, x: nat, y: nat, size: nat)
    requires IsVertexArray(h, n) && x <= n && y <= n && AtMostOneOutside(n, x, y, size)
    requires OnEdge(n, x, y, size)
    ensures InGrid(n, Neighbours(n, x, y, size)) && |Neighbours(n, x, y, size)| == 3
    ensures SquareAverage(h, n, x, y, size) == SumAt(h, n, Neighbours(n, x, y, size)) / 3.0
  {
    var nb := Neighbours(n, x, y, size);
    if y < size {
      MeanOfThree(h, n, nb, (x + size, y), (x, y + size), (x - size, y));
    } else if x + size > n {
      MeanOfThree(h, n, nb, (x, y - size), (x, y + size), (x - size, y));
    } else if y + size > n {
      MeanOfThree(h, n, nb, (x, y - size), (x + size, y), (x - size, y));
    } else {
      MeanOfThree(h, n, nb, (x, y - size), (x + size, y), (x, y + size));
    }
  }

  /** Squarestep's branch chain computes the mean of exactly the in-grid
      neighbours: three of them on the domain edge, four inside. */
  lemma SquareAverageIsMean(h: seq<real>, n: nat, x: nat, y: nat, size: nat)
    requires IsVertexArray(h, n) && x <= n && y <= n && AtMostOneOutside(n, x, y, size)
    ensures InGrid(n, Neighbours(n, x, y, size))
    ensures |Neighbours(n, x, y, size)| == if OnEdge(n, x, y, size) then 3 else 4
    ensures SquareAverage(h, n, x, y, size)
            == if OnEdge(n, x, y, size) then SumAt(h, n, Neighbours(n, x, y, size)) / 3.0
               else SumAt(h, n, Neighbours(n, x, y, size)) / 4.0
  {
    if OnEdge(n, x, y, size) {
      EdgeMean(h, n, x, y, size);
    } else {
      MeanOfFour(h, n, Neighbours(n, x, y, size), (x, y - size), (x + size, y), (x, y + size), (x - size, y));
    }
  }

  /** Diamondstep: the centre height becomes the corner mean plus the offset;
      nothing else changes. */
  method DiamondStep(v: array<real>, x: nat, y: nat, size: nat, offset: real, n: nat)
    requires IsVertexArray(v[..], n)
    requires size <= x && x + size <= n && size <= y && y + size <= n
    modifies v
    ensures v[..] == SetZ(old(v[..]), n, x, y, DiamondAverage(old(v[..]), n, x, y, size) + offset)
  {
    ZInRange(n, x - size, y - size);
    ZInRange(n, x + size, y - size);
    ZInRange(n, x - size, y + size);
    ZInRange(n, x + size, y + size);
    ZInRange(n, x, y);
    var botleft := (y - size) * (n + 1) * 3 + (x - size) * 3 + 2;
    var botright := (y - size) * (n + 1) * 3 + (x + size) * 3 + 2;
    var topleft := (y + size) * (n + 1) * 3 + (x - size) * 3 + 2;
    var topright := (y + size) * (n + 1) * 3 + (x + size) * 3 + 2;
    var totalHeight := v[botleft] + v[botright] + v[topleft] + v[topright];
    var avg := totalHeight / 4.0;
    v[y * (n + 1) * 3 + x * 3 + 2] := avg + offset;
  }

  /** Squarestep's four neighbour slots: each one whose point lies in the
      grid is the height slot of that point. */
  lemma NeighbourSlots(n: nat, x: nat, y: nat, size: nat, top: int, right: int, bottom: int, left: int)
    requires x <= n && y <= n
    requires top == (y - size) * (n + 1) * 3 + x * 3 + 2
    requires right == y * (n + 1) * 3 + (x + size) * 3 + 2
    requires bottom == (y + size) * (n + 1) * 3 + x * 3 + 2
    requires left == y * (n + 1) * 3 + (x - size) * 3 + 2
    ensures y >= size ==> 0 <= top == Z(n, x, y - size) < 3 * VertexCount(n)
    ensures x + size <= n ==> 0 <= right == Z(n, x + size, y) < 3 * VertexCount(n)
    ensures y + size <= n ==> 0 <= bottom == Z(n, x, y + size) < 3 * VertexCount(n)
    ensures x >= size ==> 0 <= left == Z(n, x - size, y) < 3 * VertexCount(n)
  {
    if y >= size { ZInRange(n, x, y - size); }
    if x + size <= n { ZInRange(n, x + size, y); }
    if y + size <= n { ZInRange(n, x, y + size); }
    if x >= size { ZInRange(n, x - size, y); }
  }

  /** The first half of Squarestep: the four neighbour slots (the missing
      one's index is negative or past the array and is not read) and the
      mean of the heights at the three or four that exist. */
  method SquareMean(v: array<real>, x: nat, y: nat, size: nat, n: nat) returns (avg: real)
    requires IsVertexArray(v[..], n) && x <= n && y <= n && AtMostOneOutside(n, x, y, size)
    ensures avg == SquareAverage(v[..], n, x, y, size)
  {
    var top: int := (y - size) * (n + 1) * 3 + x * 3 + 2;
    var right: int := y * (n + 1) * 3 + (x + size) * 3 + 2;
    var bottom: int := (y + size) * (n + 1) * 3 + x * 3 + 2;
    var left: int := y * (n + 1) * 3 + (x - size) * 3 + 2;
    NeighbourSlots(n, x, y, size, top, right, bottom, left);
    if y - size < 0 {
      avg := (v[right] + v[bottom] + v[left]) / 3.0;
    } else if x + size > n {
      avg := (v[top] + v[bottom] + v[left]) / 3.0;
    } else if y + size > n {
      avg := (v[top] + v[right] + v[left]) / 3.0;
    } else if x - size < 0 {
      avg := (v[top] + v[right] + v[bottom]) / 3.0;
    } else {
      avg := (v[top] + v[right] + v[bottom] + v[left]) / 4.0;
    }
  }

  /** Squarestep: the height becomes the mean of the in-grid neighbours plus
      the offset; nothing else changes. */
  method SquareStep(v: array<real>, x: nat, y: nat, size: nat, offset: real, n: nat)
    requires IsVertexArray(v[..], n) && x <= n && y <= n && AtMostOneOutside(n, x, y, size)
    modifies v
    ensures v[..] == SetZ(old(v[..]), n, x, y, SquareAverage(old(v[..]), n, x, y, size) + offset)
  {
    var avg := SquareMean(v, x, y, size, n);
    ZInRange(n, x, y);
    v[y * (n + 1) * 3 + x * 3 + 2] := avg + offset;
  }

  // ---------------------------------------------------------------------
  // The diamond-square recursion as functions of the array contents

  /** The spacings divide works with at one level: an even square size that
      divides the grid size n (so that half the size is a residue modulo
      the size, which the last conjunct records). */
  predicate LevelOk(n: nat, size: nat)
  {
    n >= 1 && size >= 2 && size % 2 == 0 && n % size == 0 && 0 % size == 0 && (size / 2) % size == size / 2
  }

  /** r agrees with h on every x and y slot and on every height of a grid
      point on the lattice of spacing size. */
  predicate Keeps(h: seq<real>, r: seq<real>, n: nat, size: nat)
    requires size > 0
  {
    |r| == |h|
    && forall k :: 0 <= k < |h| && (k % 3 != 2 || OnLattice(n, k, size)) ==> r[k] == h[k]
  }

  /** Writing the height of a point off the lattice keeps the lattice. */
  lemma WriteOffLattice(h: seq<real>, n: nat, x: nat, y: nat, value: real, size: nat)
    requires IsVertexArray(h, n) && x <= n && y <= n && size > 0
    requires !Aligned(x, size) || !Aligned(y, size)
    ensures Keeps(h, SetZ(h, n, x, y, value), n, size)
  {
    ZFacts(n, x, y);
  }

  /** What is kept on the finer lattice is kept on the coarser one. */
  lemma KeepsCoarser(h: seq<real>, r: seq<real>, n: nat, size: nat)
    requires size >= 2 && size % 2 == 0 && Keeps(h, r, n, size / 2)
    ensures Keeps(h, r, n, size)
  {
    LatticeRefines(n, size);
  }

  /** A diamond centre (both coordinates an odd multiple of size/2, below n)
      has its four corners in the grid and is not on the lattice of spacing
      size. */
  lemma DiamondCentre(n: nat, size: nat, x: nat, y: nat)
    requires LevelOk(n, size)
    requires x % size == size / 2 && y % size == size / 2 && x < n && y < n
    ensures size / 2 <= x && x + size / 2 <= n && size / 2 <= y && y + size / 2 <= n
    ensures !Aligned(x, size)
  {
    AtLeastRemainder(x, size);
    AtLeastRemainder(y, size);
    AlignedBelow(x, n, size);
    AlignedBelow(y, n, size);
  }

  /** The column phase of the square points of row y: columns that are odd
      multiples of size/2 on rows that are multiples of size, and the other
      way round. */
  function SquarePhase(y: nat, size: nat): nat
    requires size > 0
  {
    if y % size == 0 then size / 2 else 0
  }

  /** Row y + size/2 has the other phase, and the first column
      (y + size/2) % size of row y is its phase. */
  lemma SquareRowStart(y: nat, size: nat)
    requires size >= 2 && size % 2 == 0
    requires y % size == 0 || y % size == size / 2
    ensures (y + size / 2) % size == SquarePhase(y, size)
    ensures (y + size / 2) % size % size == SquarePhase(y, size)
    ensures (y + size / 2) % size == 0 || (y + size / 2) % size == size / 2
  {
    ModHalfStep(y, size);
    DivMod((y + size / 2) % size, size, 0, (y + size / 2) % size);
  }

  /** A square point has at most one neighbour at distance size/2 outside
      the grid and is not on the lattice of spacing size. */
  lemma SquarePoint(n: nat, size: nat, x: nat, y: nat)
    requires LevelOk(n, size) && x <= n && y <= n
    requires y % size == 0 || y % size == size / 2
    requires x % size == SquarePhase(y, size)
    ensures AtMostOneOutside(n, x, y, size / 2)
    ensures !Aligned(x, size) || !Aligned(y, size)
  {
    MultipleAtLeast(n, size);
    if y % size == 0 {
      AtLeastRemainder(x, size);
      AlignedBelow(x, n, size);
    } else {
      AtLeastRemainder(y, size);
      AlignedBelow(y, n, size);
    }
  }

  /** One row of the diamond pass: the centres (x, y), (x + size, y), ...
      left of column n, each set to its corner mean plus the offset drawn
      for it. */
  function DiamondRow(h: seq<real>, n: nat, size: nat, y: nat, x: nat, rnd: Sampler): (r: seq<real>)
    requires IsVertexArray(h, n) && LevelOk(n, size)
    requires y % size == size / 2 && y < n && x % size == size / 2
    ensures IsVertexArray(r, n)
    decreases n - x, 1
  {
    if x < n then DiamondRowAt(h, n, size, y, x, rnd) else h
  }

  /** The diamond row from a centre x < n on: that centre is written and
      the row goes on from x + size. */
  function DiamondRowAt(h: seq<real>, n: nat, size: nat, y: nat, x: nat, rnd: Sampler): (r: seq<real>)
    requires IsVertexArray(h, n) && LevelOk(n, size)
    requires y % size == size / 2 && y < n && x % size == size / 2 && x < n
    ensures IsVertexArray(r, n)
    decreases n - x, 0
  {
    DiamondCentre(n, size, x, y);
    ModAddDivisor(x, size);
    DiamondRow(SetZ(h, n, x, y, DiamondAverage(h, n, x, y, size / 2) + Offset(rnd(x, y), Scale(size))),
               n, size, y, x + size, rnd)
  }

  /** One step of a diamond row: the centre (x, y) is written, then the
      row goes on from x + size. */
  lemma DiamondRowStep(h: seq<real>, n: nat, size: nat, y: nat, x: nat, half: nat, offset: real, rnd: Sampler)
    requires IsVertexArray(h, n) && LevelOk(n, size) && half == size / 2
    requires y % size == half && y < n && x % size == half && x < n
    requires offset == Offset(rnd(x, y), Scale(size))
    ensures half <= x && x + half <= n && half <= y && y + half <= n
    ensures (x + size) % size == half
    ensures DiamondRow(h, n, size, y, x, rnd)
            == DiamondRow(SetZ(h, n, x, y, DiamondAverage(h, n, x, y, half) + offset), n, size, y, x + size, rnd)
  {
    DiamondCentre(n, size, x, y);
    ModAddDivisor(x, size);
  }

  /** DiamondRowStep for an array already known to hold the updated height. */
  lemma DiamondRowAfter(h: seq<real>, after: seq<real>, n: nat, size: nat, y: nat, x: nat, half: nat, offset: real, rnd: Sampler)
    requires IsVertexArray(h, n) && LevelOk(n, size) && half == size / 2
    requires y % size == half && y < n && x % size == half && x < n
    requires offset == Offset(rnd(x, y), Scale(size))
    requires half <= x && x + half <= n && half <= y && y + half <= n
    requires after == SetZ(h, n, x, y, DiamondAverage(h, n, x, y, half) + offset)
    ensures (x + size) % size == half && IsVertexArray(after, n)
    ensures DiamondRow(h, n, size, y, x, rnd) == DiamondRow(after, n, size, y, x + size, rnd)
  {
    DiamondRowStep(h, n, size, y, x, half, offset, rnd);
  }

  /** The diamond pass from row y on: rows y, y + size, ... below n. */
  function DiamondPass(h: seq<real>, n: nat, size: nat, y: nat, rnd: Sampler): (r: seq<real>)
    requires IsVertexArray(h, n) && LevelOk(n, size) && y % size == size / 2
    ensures IsVertexArray(r, n)
    decreases n - y
  {
    if y < n then
      ModAddDivisor(y, size);
      SmallMod(size / 2, size);
      DiamondPass(DiamondRow(h, n, size, y, size / 2, rnd), n, size, y + size, rnd)
    else
      h
  }

  /** One row of the square pass: the points (x, y), (x + size, y), ... up to
      column n, each set to the mean of its in-grid neighbours at distance
      size/2 plus the offset drawn for it. */
  function SquareRow(h: seq<real>, n: nat, size: nat, y: nat, x: nat, rnd: Sampler): (r: seq<real>)
    requires IsVertexArray(h, n) && LevelOk(n, size) && y <= n
    requires y % size == 0 || y % size == size / 2
    requires x % size == SquarePhase(y, size)
    ensures IsVertexArray(r, n)
    decreases n + 1 - x, 1
  {
    if x <= n then SquareRowAt(h, n, size, y, x, rnd) else h
  }

  function SquareRowAt(h: seq<real>, n: nat, size: nat, y: nat, x: nat, rnd: Sampler): (r: seq<real>)
    requires IsVertexArray(h, n) && LevelOk(n, size) && y <= n && x <= n
    requires y % size == 0 || y % size == size / 2
    requires x % size == SquarePhase(y, size)
    ensures IsVertexArray(r, n)
    decreases n + 1 - x, 0
  {
    SquarePoint(n, size, x, y);
    ModAddDivisor(x, size);
    SquareRow(SetZ(h, n, x, y, SquareAverage(h, n, x, y, size / 2) + Offset(rnd(x, y), Scale(size))),
              n, size, y, x + size, rnd)
  }

  /** One step of a square row: the point (x, y) is written, then the row
      goes on from x + size. */
  lemma SquareRowStep(h: seq<real>, n: nat, size: nat, y: nat, x: nat, half: nat, offset: real, rnd: Sampler)
    requires IsVertexArray(h, n) && LevelOk(n, size) && y <= n && half == size / 2
    requires y % size == 0 || y % size == half
    requires x % size == SquarePhase(y, size) && x <= n
    requires offset == Offset(rnd(x, y), Scale(size))
    ensures AtMostOneOutside(n, x, y, half)
    ensures (x + size) % size == SquarePhase(y, size)
    ensures SquareRow(h, n, size, y, x, rnd)
            == SquareRow(SetZ(h, n, x, y, SquareAverage(h, n, x, y, half) + offset), n, size, y, x + size, rnd)
  {
    SquarePoint(n, size, x, y);
    ModAddDivisor(x, size);
  }

  /** SquareRowStep for an array already known to hold the updated height. */
  lemma SquareRowAfter(h: seq<real>, after: seq<real>, n: nat, size: nat, y: nat, x: nat, half: nat, offset: real, rnd: Sampler)
    requires IsVertexArray(h, n) && LevelOk(n, size) && y <= n && half == size / 2
    requires y % size == 0 || y % size == half
    requires x % size == SquarePhase(y, size) && x <= n
    requires offset == Offset(rnd(x, y), Scale(size))
    requires AtMostOneOutside(n, x, y, half)
    requires after == SetZ(h, n, x, y, SquareAverage(h, n, x, y, half) + offset)
    ensures (x + size) % size == SquarePhase(y, size) && IsVertexArray(after, n)
    ensures SquareRow(h, n, size, y, x, rnd) == SquareRow(after, n, size, y, x + size, rnd)
  {
    SquareRowStep(h, n, size, y, x, half, offset, rnd);
  }

  /** The square pass from row y on: rows y, y + size/2, ... up to n. */
  function SquarePass(h: seq<real>, n: nat, size: nat, y: nat, rnd: Sampler): (r: seq<real>)
    requires IsVertexArray(h, n) && LevelOk(n, size)
    requires y % size == 0 || y % size == size / 2
    ensures IsVertexArray(r, n)
    decreases n + 1 - y
  {
    if y <= n then
      SquareRowStart(y, size);
      SquarePass(SquareRow(h, n, size, y, (y + size / 2) % size, rnd), n, size, y + size / 2, rnd)
    else
      h
  }

  /** One level of divide: the diamond pass, then the square pass. */
  function Level(h: seq<real>, n: nat, size: nat, rnd: Sampler): (r: seq<real>)
    requires IsVertexArray(h, n) && LevelOk(n, size)
    ensures IsVertexArray(r, n)
  {
    SquarePass(DiamondPass(h, n, size, size / 2, rnd), n, size, 0, rnd)
  }

  /** divide(h, n, size): levels size, size/2, ..., 2; at size 1 half is
      below 1 and the recursion stops. */
  function Subdivided(h: seq<real>, n: nat, size: nat, rnd: Sampler): (r: seq<real>)
    requires IsVertexArray(h, n) && n >= 1 && IsPow2(size) && n % size == 0
    ensures IsVertexArray(r, n)
    decreases size
  {
    if size < 2 then
      h
    else
      Pow2Half(size);
      AlignedHalf(n, size);
      SmallMod(size / 2, size);
      SmallMod(0, size);
      Subdivided(Level(h, n, size, rnd), n, size / 2, rnd)
  }

  // ---------------------------------------------------------------------
  // What divide never overwrites

  /** A diamond row writes only diamond centres, none on the lattice of
      spacing size, and no x or y slot. */
  lemma {:induction false} DiamondRowKeeps(h: seq<real>, n: nat, size: nat, y: nat, x: nat, rnd: Sampler)
    requires IsVertexArray(h, n) && LevelOk(n, size)
    requires y % size == size / 2 && y < n && x % size == size / 2
    ensures Keeps(h, DiamondRow(h, n, size, y, x, rnd), n, size)
    decreases n - x
  {
    if x < n {
      DiamondRowStep(h, n, size, y, x, size / 2, Offset(rnd(x, y), Scale(size)), rnd);
      DiamondCentre(n, size, x, y);
      var h' := SetZ(h, n, x, y, DiamondAverage(h, n, x, y, size / 2) + Offset(rnd(x, y), Scale(size)));
      WriteOffLattice(h, n, x, y, DiamondAverage(h, n, x, y, size / 2) + Offset(rnd(x, y), Scale(size)), size);
      DiamondRowKeeps(h', n, size, y, x + size, rnd);
    }
  }

  lemma {:induction false} DiamondPassKeeps(h: seq<real>, n: nat, size: nat, y: nat, rnd: Sampler)
    requires IsVertexArray(h, n) && LevelOk(n, size) && y % size == size / 2
    ensures Keeps(h, DiamondPass(h, n, size, y, rnd), n, size)
    decreases n - y
  {
    if y < n {
      ModAddDivisor(y, size);
      SmallMod(size / 2, size);
      DiamondRowKeeps(h, n, size, y, size / 2, rnd);
      DiamondPassKeeps(DiamondRow(h, n, size, y, size / 2, rnd), n, size, y + size, rnd);
    }
  }

  /** A square row writes only square points, none on the lattice of
      spacing size, and no x or y slot. */
  lemma {:induction false} SquareRowKeeps(h: seq<real>, n: nat, size: nat, y: nat, x: nat, rnd: Sampler)
    requires IsVertexArray(h, n) && LevelOk(n, size) && y <= n
    requires y % size == 0 || y % size == size / 2
    requires x % size == SquarePhase(y, size)
    ensures Keeps(h, SquareRow(h, n, size, y, x, rnd), n, size)
    decreases n + 1 - x
  {
    if x <= n {
      SquareRowStep(h, n, size, y, x, size / 2, Offset(rnd(x, y), Scale(size)), rnd);
      SquarePoint(n, size, x, y);
      var h' := SetZ(h, n, x, y, SquareAverage(h, n, x, y, size / 2) + Offset(rnd(x, y), Scale(size)));
      WriteOffLattice(h, n, x, y, SquareAverage(h, n, x, y, size / 2) + Offset(rnd(x, y), Scale(size)), size);
      SquareRowKeeps(h', n, size, y, x + size, rnd);
    }
  }

  lemma {:induction false} SquarePassKeeps(h: seq<real>, n: nat, size: nat, y: nat, rnd: Sampler)
    requires IsVertexArray(h, n) && LevelOk(n, size)
    requires y % size == 0 || y % size == size / 2
    ensures Keeps(h, SquarePass(h, n, size, y, rnd), n, size)
    decreases n + 1 - y
  {
    if y <= n {
      SquareRowStart(y, size);
      SquareRowKeeps(h, n, size, y, (y + size / 2) % size, rnd);
      SquarePassKeeps(SquareRow(h, n, size, y, (y + size / 2) % size, rnd), n, size, y + size / 2, rnd);
    }
  }

  /** A level of divide keeps the lattice it refines. */
  lemma LevelKeeps(h: seq<real>, n: nat, size: nat, rnd: Sampler)
    requires IsVertexArray(h, n) && LevelOk(n, size)
    ensures Keeps(h, Level(h, n, size, rnd), n, size)
  {
    SmallMod(size / 2, size);
    DiamondPassKeeps(h, n, size, size / 2, rnd);
    SquarePassKeeps(DiamondPass(h, n, size, size / 2, rnd), n, size, 0, rnd);
  }

  /** divide(h, n, size) never overwrites a height on the lattice of spacing
      size, nor any x or y slot. */
  lemma {:induction false} SubdividedKeeps(h: seq<real>, n: nat, size: nat, rnd: Sampler)
    requires IsVertexArray(h, n) && n >= 1 && IsPow2(size) && n % size == 0
    ensures Keeps(h, Subdivided(h, n, size, rnd), n, size)
    decreases size
  {
    if size >= 2 {
      Pow2Half(size);
      AlignedHalf(n, size);
      SmallMod(size / 2, size);
      SmallMod(0, size);
      LevelKeeps(h, n, size, rnd);
      var l := Level(h, n, size, rnd);
      SubdividedKeeps(l, n, size / 2, rnd);
      KeepsCoarser(l, Subdivided(l, n, size / 2, rnd), n, size);
    }
  }

  // ---------------------------------------------------------------------
  // set_height

  /** The corner height n/2 and the divisor of the final remap. */
  function Half(n: nat): real
  {
    n as real / 2.0
  }

  /** The array with the four corners of the grid set to n/2. */
  function Seeded(h: seq<real>, n: nat): (r: seq<real>)
    requires IsVertexArray(h, n)
    ensures IsVertexArray(r, n)
  {
    SetZ(SetZ(SetZ(SetZ(h, n, 0, 0, Half(n)), n, n, 0, Half(n)), n, 0, n, Half(n)), n, n, n, Half(n))
  }

  /** The array with the heights of the first m vertices mapped from z to
      z/(n/2) - 1. */
  function RemapPrefix(h: seq<real>, n: nat, m: nat): (r: seq<real>)
    requires n >= 1
    ensures |r| == |h|
  {
    seq(|h|, k requires 0 <= k < |h| => if k % 3 == 2 && k < 3 * m then h[k] / Half(n) - 1.0 else h[k])
  }

  /** Every height mapped from [0, n] towards [-1, 1]. */
  function Remapped(h: seq<real>, n: nat): (r: seq<real>)
    requires IsVertexArray(h, n) && n >= 1
    ensures IsVertexArray(r, n)
  {
    RemapPrefix(h, n, VertexCount(n))
  }

  /** One step of the remap loop extends the remapped prefix by vertex p. */
  lemma RemapOne(h: seq<real>, n: nat, p: nat)
    requires n >= 1 && 3 * p + 2 < |h|
    ensures RemapPrefix(h, n, p)[3 * p + 2 := h[3 * p + 2] / Half(n) - 1.0] == RemapPrefix(h, n, p + 1)
  {
  }

  /** What set_height leaves in the array: corners seeded, divide(n, n), then
      the remap. */
  function WithHeights(h: seq<real>, n: nat, rnd: Sampler): (r: seq<real>)
    requires IsVertexArray(h, n) && IsPow2(n)
    ensures IsVertexArray(r, n)
  {
    DivMod(n, n, 1, 0);
    Remapped(Subdivided(Seeded(h, n), n, n, rnd), n)
  }

  /** One iteration of divide's diamond loop: Diamondstep at (x, y) with its
      random offset, after which the row continues at x + size. */
  method DiamondIteration(v: array<real>, n: nat, size: nat, y: nat, x: nat, half: nat, scale: real, rnd: Sampler)
    requires IsVertexArray(v[..], n) && LevelOk(n, size) && y % size == size / 2 && y < n
    requires half == size / 2 && scale == Scale(size) && x % size == half && x < n
    modifies v
    ensures (x + size) % size == half && IsVertexArray(v[..], n)
    ensures DiamondRow(v[..], n, size, y, x + size, rnd) == DiamondRow(old(v[..]), n, size, y, x, rnd)
  {
    ghost var before := v[..];
    var offset := Offset(rnd(x, y), scale);
    DiamondCentre(n, size, x, y);
    DiamondStep(v, x, y, half, offset, n);
    DiamondRowAfter(before, v[..], n, size, y, x, half, offset, rnd);
  }

  /** One row of divide's diamond loop: x = half, half + size, ... below n. */
  method DiamondRowLoop(v: array<real>, n: nat, size: nat, y: nat, rnd: Sampler)
    requires IsVertexArray(v[..], n) && LevelOk(n, size)
    requires y % size == size / 2 && y < n
    modifies v
    ensures v[..] == DiamondRow(old(v[..]), n, size, y, size / 2, rnd)
  {
    var scale := 0.28 * size as real;
    var half := size / 2;
    assert scale == Scale(size);
    SmallMod(half, size);
    ghost var row := DiamondRow(v[..], n, size, y, half, rnd);
    var x := half;
    while x < n
      invariant x % size == half && IsVertexArray(v[..], n)
      invariant DiamondRow(v[..], n, size, y, x, rnd) == row
      decreases n - x
    {
      DiamondIteration(v, n, size, y, x, half, scale, rnd);
      x := x + size;
    }
  }

  /** One iteration of divide's diamond loop over rows: row y in full, after
      which the pass continues at row y + size. */
  method DiamondPassIteration(v: array<real>, n: nat, size: nat, y: nat, rnd: Sampler)
    requires IsVertexArray(v[..], n) && LevelOk(n, size) && y % size == size / 2 && y < n
    modifies v
    ensures (y + size) % size == size / 2 && IsVertexArray(v[..], n)
    ensures DiamondPass(v[..], n, size, y + size, rnd) == DiamondPass(old(v[..]), n, size, y, rnd)
  {
    ghost var before := v[..];
    DiamondRowLoop(v, n, size, y, rnd);
    DiamondPassAfter(before, v[..], n, size, y, rnd);
  }

  /** The diamond pass from row y is row y followed by the pass from row
      y + size. */
  lemma DiamondPassAfter(h: seq<real>, after: seq<real>, n: nat, size: nat, y: nat, rnd: Sampler)
    requires IsVertexArray(h, n) && LevelOk(n, size) && y % size == size / 2 && y < n
    requires after == DiamondRow(h, n, size, y, size / 2, rnd)
    ensures (y + size) % size == size / 2 && IsVertexArray(after, n)
    ensures DiamondPass(h, n, size, y, rnd) == DiamondPass(after, n, size, y + size, rnd)
  {
    ModAddDivisor(y, size);
  }

  /** divide's diamond loop: rows y = half, half + size, ... below n. */
  method DiamondPassLoop(v: array<real>, n: nat, size: nat, rnd: Sampler)
    requires IsVertexArray(v[..], n) && LevelOk(n, size)
    modifies v
    ensures v[..] == DiamondPass(old(v[..]), n, size, size / 2, rnd)
  {
    var half := size / 2;
    SmallMod(half, size);
    ghost var pass := DiamondPass(v[..], n, size, half, rnd);
    var y := half;
    while y < n
      invariant y % size == half && IsVertexArray(v[..], n)
      invariant DiamondPass(v[..], n, size, y, rnd) == pass
      decreases n - y
    {
      DiamondPassIteration(v, n, size, y, rnd);
      y := y + size;
    }
  }

  /** One iteration of divide's square loop: Squarestep at (x, y) with its
      random offset, after which the row continues at x + size. */
  method SquareIteration(v: array<real>, n: nat, size: nat, y: nat, x: nat, half: nat, scale: real, rnd: Sampler)
    requires IsVertexArray(v[..], n) && LevelOk(n, size) && y <= n && x <= n
    requires half == size / 2 && scale == Scale(size)
    requires y % size == 0 || y % size == half
    requires x % size == SquarePhase(y, size)
    modifies v
    ensures (x + size) % size == SquarePhase(y, size) && IsVertexArray(v[..], n)
    ensures SquareRow(v[..], n, size, y, x + size, rnd) == SquareRow(old(v[..]), n, size, y, x, rnd)
  {
    ghost var before := v[..];
    var offset := Offset(rnd(x, y), scale);
    SquarePoint(n, size, x, y);
    SquareStep(v, x, y, half, offset, n);
    SquareRowAfter(before, v[..], n, size, y, x, half, offset, rnd);
  }

  /** One row of divide's square loop, from column x on in steps of size
      up to n. */
  method SquareRowLoop(v: array<real>, n: nat, size: nat, y: nat, start: nat, rnd: Sampler)
    requires IsVertexArray(v[..], n) && LevelOk(n, size) && y <= n
    requires y % size == 0 || y % size == size / 2
    requires start % size == SquarePhase(y, size)
    modifies v
    ensures v[..] == SquareRow(old(v[..]), n, size, y, start, rnd)
  {
    var scale := 0.28 * size as real;
    var half := size / 2;
    assert scale == Scale(size);
    ghost var row := SquareRow(v[..], n, size, y, start, rnd);
    var x := start;
    while x <= n
      invariant x % size == SquarePhase(y, size) && IsVertexArray(v[..], n)
      invariant SquareRow(v[..], n, size, y, x, rnd) == row
      decreases n + 1 - x
    {
      SquareIteration(v, n, size, y, x, half, scale, rnd);
      x := x + size;
    }
  }

  /** One iteration of divide's square loop over rows: row y in full, after
      which the pass continues at row y + size/2. */
  method SquarePassIteration(v: array<real>, n: nat, size: nat, y: nat, rnd: Sampler)
    requires IsVertexArray(v[..], n) && LevelOk(n, size) && y <= n
    requires y % size == 0 || y % size == size / 2
    modifies v
    ensures ((y + size / 2) % size == 0 || (y + size / 2) % size == size / 2) && IsVertexArray(v[..], n)
    ensures SquarePass(v[..], n, size, y + size / 2, rnd) == SquarePass(old(v[..]), n, size, y, rnd)
  {
    SquareRowStart(y, size);
    SquareRowLoop(v, n, size, y, (y + size / 2) % size, rnd);
  }

  /** divide's square loop: rows y = 0, half, 2*half, ... up to n. */
  method SquarePassLoop(v: array<real>, n: nat, size: nat, rnd: Sampler)
    requires IsVertexArray(v[..], n) && LevelOk(n, size)
    modifies v
    ensures v[..] == SquarePass(old(v[..]), n, size, 0, rnd)
  {
    var half := size / 2;
    ghost var pass := SquarePass(v[..], n, size, 0, rnd);
    var y := 0;
    while y <= n
      invariant (y % size == 0 || y % size == half) && IsVertexArray(v[..], n)
      invariant SquarePass(v[..], n, size, y, rnd) == pass
      decreases n + 1 - y
    {
      SquarePassIteration(v, n, size, y, rnd);
      y := y + half;
    }
  }

  /** The remap turns every height z into z/(n/2) - 1 and leaves the x and
      y slots alone. */
  lemma RemappedHeights(h: seq<real>, n: nat)
    requires IsVertexArray(h, n) && n >= 1
    ensures forall x: nat, y: nat :: x <= n && y <= n ==> Height(Remapped(h, n), n, x, y) == Height(h, n, x, y) / Half(n) - 1.0
    ensures forall k :: 0 <= k < |h| && k % 3 != 2 ==> Remapped(h, n)[k] == h[k]
  {
    forall x: nat, y: nat | x <= n && y <= n
      ensures Height(Remapped(h, n), n, x, y) == Height(h, n, x, y) / Half(n) - 1.0
    {
      ZFacts(n, x, y);
    }
  }

  /** Seeding writes the four corner heights, and nothing else. */
  lemma SeededCorners(h: seq<real>, n: nat)
    requires IsVertexArray(h, n) && n >= 1
    ensures Height(Seeded(h, n), n, 0, 0) == Half(n) && Height(Seeded(h, n), n, n, 0) == Half(n)
    ensures Height(Seeded(h, n), n, 0, n) == Half(n) && Height(Seeded(h, n), n, n, n) == Half(n)
    ensures forall k :: 0 <= k < |h| && k % 3 != 2 ==> Seeded(h, n)[k] == h[k]
  {
    ZFacts(n, 0, 0);
    ZFacts(n, n, 0);
    ZFacts(n, 0, n);
    ZFacts(n, n, n);
    assert Z(n, 0, 0) < Z(n, n, 0) < Z(n, 0, n) < Z(n, n, n);
  }

  /** A corner of the grid lies on the lattice of spacing n. */
  lemma CornerOnLattice(n: nat, x: nat, y: nat)
    requires n >= 1 && (x == 0 || x == n) && (y == 0 || y == n)
    ensures OnLattice(n, Z(n, x, y), n)
  {
    ZFacts(n, x, y);
    DivMod(n, n, 1, 0);
  }

  lemma DivSelf(a: real)
    requires a != 0.0
    ensures a / a == 1.0
  {
  }

  /** A corner, seeded to n/2 and never overwritten by divide, ends at
      height n/2 / (n/2) - 1 = 0. */
  lemma CornerEndsAtZero(h: seq<real>, n: nat, rnd: Sampler, x: nat, y: nat)
    requires IsVertexArray(h, n) && IsPow2(n)
    requires (x == 0 || x == n) && (y == 0 || y == n)
    ensures Height(WithHeights(h, n, rnd), n, x, y) == 0.0
  {
    DivMod(n, n, 1, 0);
    var seeded := Seeded(h, n);
    var divided := Subdivided(seeded, n, n, rnd);
    SeededCorners(h, n);
    assert Height(seeded, n, x, y) == Half(n);
    SubdividedKeeps(seeded, n, n, rnd);
    CornerOnLattice(n, x, y);
    ZFacts(n, x, y);
    assert Height(divided, n, x, y) == Half(n);
    RemappedHeights(divided, n);
    assert WithHeights(h, n, rnd) == Remapped(divided, n);
    DivSelf(Half(n));
  }

  /** All four corners end at height 0. */
  lemma CornersEndAtZero(h: seq<real>, n: nat, rnd: Sampler)
    requires IsVertexArray(h, n) && IsPow2(n)
    ensures Height(WithHeights(h, n, rnd), n, 0, 0) == 0.0
    ensures Height(WithHeights(h, n, rnd), n, n, 0) == 0.0
    ensures Height(WithHeights(h, n, rnd), n, 0, n) == 0.0
    ensures Height(WithHeights(h, n, rnd), n, n, n) == 0.0
  {
    CornerEndsAtZero(h, n, rnd, 0, 0);
    CornerEndsAtZero(h, n, rnd, n, 0);
    CornerEndsAtZero(h, n, rnd, 0, n);
    CornerEndsAtZero(h, n, rnd, n, n);
  }

  /** set_height changes heights only: every x and y slot is as before. */
  lemma SetHeightKeepsXY(h: seq<real>, n: nat, rnd: Sampler)
    requires IsVertexArray(h, n) && IsPow2(n)
    ensures forall k :: 0 <= k < |h| && k % 3 != 2 ==> WithHeights(h, n, rnd)[k] == h[k]
  {
    DivMod(n, n, 1, 0);
    var seeded := Seeded(h, n);
    SeededCorners(h, n);
    SubdividedKeeps(seeded, n, n, rnd);
    RemappedHeights(Subdivided(seeded, n, n, rnd), n);
  }

  /** divide: the diamond pass and the square pass at this size, then the
      recursion at half the size; it ends once size/2 drops below 1. */
  method Divide(v: array<real>, n: nat, size: nat, rnd: Sampler)
    requires IsVertexArray(v[..], n) && n >= 1 && IsPow2(size) && n % size == 0
    modifies v
    ensures v[..] == Subdivided(old(v[..]), n, size, rnd)
    decreases size
  {
    var half := size / 2;
    if half < 1 {
      return;
    }
    Pow2Half(size);
    SmallMod(half, size);
    SmallMod(0, size);
    DiamondPassLoop(v, n, size, rnd);
    SquarePassLoop(v, n, size, rnd);
    AlignedHalf(n, size);
    Divide(v, n, size / 2, rnd);
  }

  /** set_height's final loop: every height z becomes z/(n/2) - 1, vertex by
      vertex. */
  method RemapLoop(v: array<real>, n: nat)
    requires IsVertexArray(v[..], n) && n >= 1
    modifies v
    ensures v[..] == Remapped(old(v[..]), n)
  {
    var half := n as real / 2.0;
    ghost var p := 0;  // vertices remapped so far
    var i := 0;
    while i <= n
      invariant i <= n + 1 && p == VertexIndex(n, i, 0) && p <= VertexCount(n)
      invariant v[..] == RemapPrefix(old(v[..]), n, p)
    {
      var j := 0;
      while j <= n
        invariant j <= n + 1 && p == VertexIndex(n, i, j) && p <= VertexCount(n)
        invariant v[..] == RemapPrefix(old(v[..]), n, p)
      {
        ZFacts(n, j, i);
        RemapOne(old(v[..]), n, p);
        v[i * (n + 1) * 3 + j * 3 + 2] := v[i * (n + 1) * 3 + j * 3 + 2] / half - 1.0;
        p := p + 1;
        j := j + 1;
      }
      NextRow(n, i);
      i := i + 1;
    }
    NextRow(n, n);
  }

  /** The four literal corner slots set_height writes are the z slots of
      (0, 0), (n, 0), (0, n) and (n, n), all inside the array. */
  lemma CornerSlots(n: nat)
    ensures 0 + 2 == Z(n, 0, 0) && n * 3 + 2 == Z(n, n, 0)
    ensures n * (n + 1) * 3 + 2 == Z(n, 0, n)
    ensures n * (n + 1) * 3 + n * 3 + 2 == Z(n, n, n) < 3 * VertexCount(n)
  {
    ZInRange(n, n, n);
  }

  /** The first four statements of set_height: each corner height set to n/2. */
  method SeedCorners(v: array<real>, n: nat)
    requires IsVertexArray(v[..], n)
    modifies v
    ensures v[..] == Seeded(old(v[..]), n)
  {
    var half := n as real / 2.0;
    CornerSlots(n);
    v[0 + 2] := half;
    v[n * 3 + 2] := half;
    v[n * (n + 1) * 3 + 2] := half;
    v[n * (n + 1) * 3 + n * 3 + 2] := half;
  }

  /** set_height: seeds the corners, runs divide(n, n) and remaps every
      height. */
  method SetHeight(v: array<real>, n: nat, rnd: Sampler)
    requires IsVertexArray(v[..], n) && IsPow2(n)
    modifies v
    ensures v[..] == WithHeights(old(v[..]), n, rnd)
  {
    SeedCorners(v, n);
    DivMod(n, n, 1, 0);
    Divide(v, n, n, rnd);
    RemapLoop(v, n);
  }
}
