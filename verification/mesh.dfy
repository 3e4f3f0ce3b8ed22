/**
  The ground mesh of the demo: `grid(size)` lays out a size × size lattice of
  integer (x, z) vertices, two numbers per vertex, and `indexes(size)` lists
  two triangles per lattice cell, six vertex numbers per cell. Both fill a
  zero-initialised buffer by index in two nested loops; the numbers are whole,
  so the buffers are modelled as `seq<int>`.
 */
module Mesh {

  lemma MulNonNegative(a: int, b: int)
    requires 0 <= a && 0 <= b
    ensures 0 <= a * b
  {}

  lemma MulMonotone(a: int, b: int, w: int)
    requires a <= b && 0 <= w
    ensures a * w <= b * w
  {
    MulNonNegative(b - a, w);
    assert (b - a) * w == b * w - a * w;
  }

  /** Row-major order: in a layout `w` wide, (p, q) comes before (i, j) when p is an earlier row. */
  lemma RowMajorOrder(w: int, p: int, q: int, i: int, j: int)
    requires 0 <= p < i && 0 <= q < w && 0 <= j
    ensures p * w + q < i * w + j
  {
    MulMonotone(p + 1, i, w);
    assert (p + 1) * w == p * w + w;
  }

  /** The row-major number of a cell of an h × w layout lies in [0, h * w). */
  lemma RowMajorBound(w: int, h: int, i: int, j: int)
    requires 0 <= i < h && 0 <= j < w
    ensures 0 <= i * w + j < h * w
  {
    MulNonNegative(i, w);
    MulMonotone(i + 1, h, w);
    assert (i + 1) * w == i * w + w;
  }

  /** The number of the vertex in row `i` (its z) and column `j` (its x): a valid vertex of the size × size grid. */
  function VertexIndex(size: int, i: int, j: int): (v: int)
    requires 0 <= i < size && 0 <= j < size
    ensures 0 <= v < size * size
  {
    RowMajorBound(size, size, i, j);
    i * size + j
  }

  /** Where the six entries of cell (i, j) start in the index list: inside a list of 6 * (size - 1)^2 entries. */
  function CellSlot(size: int, i: int, j: int): (s: int)
    requires 0 <= i < size - 1 && 0 <= j < size - 1
    ensures 0 <= s && s + 6 <= (size - 1) * (size - 1) * 6
  {
    RowMajorBound(size - 1, size - 1, i, j);
    6 * (i * (size - 1) + j)
  }

  /**
    The two triangles that cover cell (i, j), by the grid positions of their
    corners: (i, j), (i, j+1), (i+1, j+1) and then (i+1, j+1), (i+1, j), (i, j).
   */
  function CellTriangles(size: int, i: int, j: int): seq<int>
    requires 0 <= i < size - 1 && 0 <= j < size - 1
  {
    [ VertexIndex(size, i, j), VertexIndex(size, i, j + 1), VertexIndex(size, i + 1, j + 1),
      VertexIndex(size, i + 1, j + 1), VertexIndex(size, i + 1, j), VertexIndex(size, i, j) ]
  }

  /** The (x, z) corners of cell (i, j), in the order `CellTriangles` visits them. */
  function CellCorners(i: int, j: int): seq<(int, int)> {
    [(j, i), (j + 1, i), (j + 1, i + 1), (j + 1, i + 1), (j, i + 1), (j, i)]
  }

  /** `m` holds the vertex grid of side `size`: vertex VertexIndex(size, i, j) sits at x = j, z = i. */
  ghost predicate IsGrid(size: int, m: seq<int>) {
    && |m| == size * size * 2
    && forall i, j :: 0 <= i < size && 0 <= j < size ==>
         m[2 * VertexIndex(size, i, j)] == j && m[2 * VertexIndex(size, i, j) + 1] == i
  }

  /** `m` holds the triangle list of side `size`: cell (i, j) contributes `CellTriangles(size, i, j)` at `CellSlot(size, i, j)`. */
  ghost predicate IsIndexList(size: int, m: seq<int>) {
    && |m| == (size - 1) * (size - 1) * 6
    && forall i, j :: 0 <= i < size - 1 && 0 <= j < size - 1 ==>
         m[CellSlot(size, i, j)..CellSlot(size, i, j) + 6] == CellTriangles(size, i, j)
  }

  /** Every vertex before (i, j) in row-major order is already at its place in `m`. */
  ghost predicate VerticesPlaced(size: int, m: seq<int>, i: int, j: int)
    requires |m| == size * size * 2
  {
    forall p, q :: 0 <= p < size && 0 <= q < size && (p < i || (p == i && q < j)) ==>
      m[2 * VertexIndex(size, p, q)] == q && m[2 * VertexIndex(size, p, q) + 1] == p
  }

  /** Writing x = j, z = i for vertex (i, j) keeps the earlier vertices and places this one. */
  lemma PlaceVertex(size: int, m: seq<int>, i: int, j: int)
    requires |m| == size * size * 2 && 0 <= i < size && 0 <= j < size
    requires VerticesPlaced(size, m, i, j)
    ensures var tmp := 2 * VertexIndex(size, i, j);
      VerticesPlaced(size, m[tmp := j][tmp + 1 := i], i, j + 1)
  {
    var tmp := 2 * VertexIndex(size, i, j);
    var m' := m[tmp := j][tmp + 1 := i];
    forall p, q | 0 <= p < size && 0 <= q < size && (p < i || (p == i && q < j + 1))
      ensures m'[2 * VertexIndex(size, p, q)] == q && m'[2 * VertexIndex(size, p, q) + 1] == p
    {
      var v := VertexIndex(size, p, q);
      if p < i || q < j {
        if p < i {
          RowMajorOrder(size, p, q, i, j);
        }
        assert 2 * v + 1 < tmp;
        assert m'[2 * v] == m[2 * v] && m'[2 * v + 1] == m[2 * v + 1];
      }
    }
  }

  /**
    The vertex buffer: for each row i and column j, x = j then z = i at
    position 2 * (i * size + j). Every coordinate is in [0, size); when
    `size` is not positive no vertex is written and the buffer is all zeros.
   */
  method Grid(size: int) returns (m: seq<int>)
    ensures IsGrid(size, m)
    ensures size >= 1 ==> forall k :: 0 <= k < |m| ==> 0 <= m[k] < size
    ensures size <= 0 ==> forall k :: 0 <= k < |m| ==> m[k] == 0
  {
    assert size * size * 2 >= 0 by {
      assert size * size >= 0;
    }
    m := seq(size * size * 2, _ => 0);
    var i := 0;
    while i < size
      invariant 0 <= i && (size >= 0 ==> i <= size)
      invariant |m| == size * size * 2
      invariant VerticesPlaced(size, m, i, 0)
      invariant size >= 1 ==> forall k :: 0 <= k < |m| ==> 0 <= m[k] < size
      invariant size <= 0 ==> forall k :: 0 <= k < |m| ==> m[k] == 0
    {
      var j := 0;
      while j < size
        invariant 0 <= j <= size
        invariant |m| == size * size * 2
        invariant VerticesPlaced(size, m, i, j)
        invariant forall k :: 0 <= k < |m| ==> 0 <= m[k] < size
      {
        var tmp := 2 * (i * size + j);
        PlaceVertex(size, m, i, j);
        m := m[tmp := j];
        m := m[tmp + 1 := i];
        j := j + 1;
      }
      i := i + 1;
    }
  }

  /** Every cell before (i, j) in row-major order already has its two triangles in `m`. */
  ghost predicate CellsPlaced(size: int, m: seq<int>, i: int, j: int)
    requires |m| == (size - 1) * (size - 1) * 6
  {
    forall p, q :: 0 <= p < size - 1 && 0 <= q < size - 1 && (p < i || (p == i && q < j)) ==>
      m[CellSlot(size, p, q)..CellSlot(size, p, q) + 6] == CellTriangles(size, p, q)
  }

  /** The six writes for cell (i, j) keep the earlier cells and place this one. */
  lemma PlaceCell(size: int, m: seq<int>, i: int, j: int, tmp: int, current: int, next: int, m': seq<int>)
    requires |m| == (size - 1) * (size - 1) * 6 && 0 <= i < size - 1 && 0 <= j < size - 1
    requires CellsPlaced(size, m, i, j)
    requires tmp == 6 * (i * (size - 1) + j) && current == i * size + j && next == (i + 1) * size + j
    requires 0 <= tmp && tmp + 6 <= |m|
    requires m' == m[tmp := current][tmp + 1 := current + 1][tmp + 2 := next + 1]
                    [tmp + 3 := next + 1][tmp + 4 := next][tmp + 5 := current]
    requires forall k :: 0 <= k < |m| ==> 0 <= m[k] < size * size
    ensures |m'| == |m| && CellsPlaced(size, m', i, j + 1)
    ensures forall k :: 0 <= k < |m'| ==> 0 <= m'[k] < size * size
  {
    assert tmp == CellSlot(size, i, j);
    assert current == VertexIndex(size, i, j);
    assert next == VertexIndex(size, i + 1, j);
    assert next + 1 == VertexIndex(size, i + 1, j + 1);
    assert m'[..tmp] == m[..tmp];
    assert m'[tmp..tmp + 6] == CellTriangles(size, i, j);
    forall p, q | 0 <= p < size - 1 && 0 <= q < size - 1 && (p < i || (p == i && q < j + 1))
      ensures m'[CellSlot(size, p, q)..CellSlot(size, p, q) + 6] == CellTriangles(size, p, q)
    {
      if p < i || q < j {
        if p < i {
          RowMajorOrder(size - 1, p, q, i, j);
        }
        var s := CellSlot(size, p, q);
        assert s + 6 <= tmp;
        assert m'[s..s + 6] == m'[..tmp][s..s + 6];
        assert m[s..s + 6] == m[..tmp][s..s + 6];
      }
    }
  }

  /**
    The index buffer: for each cell (i, j) of the (size - 1) × (size - 1)
    cells, the six vertex numbers of its two triangles at position
    6 * (i * (size - 1) + j). For `size` at least 1 every entry names a vertex
    of the grid; for smaller `size` no cell is written and the buffer
    (6 * (size - 1)^2 entries long) is all zeros.
   */
  method Indexes(size: int) returns (m: seq<int>)
    ensures IsIndexList(size, m)
    ensures size >= 1 ==> forall k :: 0 <= k < |m| ==> 0 <= m[k] < size * size
    ensures size <= 1 ==> forall k :: 0 <= k < |m| ==> m[k] == 0
  {
    assert (size - 1) * (size - 1) * 6 >= 0 by {
      assert (size - 1) * (size - 1) >= 0;
    }
    m := seq((size - 1) * (size - 1) * 6, _ => 0);
    var i := 0;
    while i < size - 1
      invariant 0 <= i && (size >= 1 ==> i <= size - 1)
      invariant |m| == (size - 1) * (size - 1) * 6
      invariant CellsPlaced(size, m, i, 0)
      invariant size >= 1 ==> forall k :: 0 <= k < |m| ==> 0 <= m[k] < size * size
      invariant size <= 1 ==> forall k :: 0 <= k < |m| ==> m[k] == 0
    {
      m := IndexRow(size, m, i);
      i := i + 1;
    }
  }

  /** The inner loop of `indexes`: writes the cells of row `i`, keeping the rows before it. */
  method IndexRow(size: int, m: seq<int>, i: int) returns (r: seq<int>)
    requires 0 <= i < size - 1
    requires |m| == (size - 1) * (size - 1) * 6
    requires CellsPlaced(size, m, i, 0)
    requires forall k :: 0 <= k < |m| ==> 0 <= m[k] < size * size
    ensures |r| == |m| && CellsPlaced(size, r, i + 1, 0)
    ensures forall k :: 0 <= k < |r| ==> 0 <= r[k] < size * size
  {
    r := m;
    var j := 0;
    while j < size - 1
      invariant 0 <= j <= size - 1
      invariant |r| == (size - 1) * (size - 1) * 6
      invariant CellsPlaced(size, r, i, j)
      invariant forall k :: 0 <= k < |r| ==> 0 <= r[k] < size * size
    {
      var tmp := 6 * (i * (size - 1) + j);
      var current := i * size + j;
      var next := (i + 1) * size + j;
      assert 0 <= tmp && tmp + 6 <= |r| by {
        assert tmp == CellSlot(size, i, j);
      }
      var before := r;
      r := r[tmp := current];
      r := r[tmp + 1 := current + 1];
      r := r[tmp + 2 := next + 1];
      r := r[tmp + 3 := next + 1];
      r := r[tmp + 4 := next];
      r := r[tmp + 5 := current];
      PlaceCell(size, before, i, j, tmp, current, next, r);
      j := j + 1;
    }
  }

  /** Each cell's entries are current, current+1, next+1, next+1, next, current with next = current + size. */
  lemma CellLayout(size: int, i: int, j: int)
    requires 0 <= i < size - 1 && 0 <= j < size - 1
    ensures var c := i * size + j; var n := c + size;
      CellTriangles(size, i, j) == [c, c + 1, n + 1, n + 1, n, c]
  {
  }

  /**
    The two triangles of a cell are proper (three distinct vertices each) and
    share the diagonal from the cell's first corner to the opposite one.
   */
  lemma CellTrianglesProper(size: int, i: int, j: int)
    requires 0 <= i < size - 1 && 0 <= j < size - 1
    ensures var t := CellTriangles(size, i, j);
      && t[0] != t[1] && t[1] != t[2] && t[0] != t[2]
      && t[3] != t[4] && t[4] != t[5] && t[3] != t[5]
      && t[0] == t[5] && t[2] == t[3]
  {
  }

  /**
    Read through the vertex grid, the six entries of cell (i, j) land on the
    cell's corners: the triangle list covers the unit square between
    x = j .. j+1 and z = i .. i+1 with two triangles.
   */
  lemma CellsCoverSquares(size: int, g: seq<int>, ix: seq<int>, i: int, j: int, r: int)
    requires IsGrid(size, g) && IsIndexList(size, ix)
    requires 0 <= i < size - 1 && 0 <= j < size - 1 && 0 <= r < 6
    ensures 0 <= ix[CellSlot(size, i, j) + r] < size * size
    ensures var v := ix[CellSlot(size, i, j) + r];
      (g[2 * v], g[2 * v + 1]) == CellCorners(i, j)[r]
  {
    var s := CellSlot(size, i, j);
    assert ix[s..s + 6] == CellTriangles(size, i, j);
    assert ix[s + r] == ix[s..s + 6][r];
  }
}
