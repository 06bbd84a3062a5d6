/** The grid mesh built from a height map: one vertex per grid point, displaced
    vertically by the height map's red channel, and two triangles per grid cell. */
module HeightmapMeshGenerator {

  import opened Common

  /** A height map, reduced to its bilinear sample of the red channel at a uv position. */
  type HeightSample = (real, real) -> real

  /** The arrays a generated mesh holds. */
  datatype MeshData = MeshData(vertices: seq<Vec3>, triangles: seq<int>, uv: seq<Vec2>)

  /** The reciprocals of the numbers of divisions along the two axes, on a grid `w`
      points wide and `h` high. */
  function UvDenominators(w: int, h: int): Vec2
    requires w >= 2 && h >= 2
  {
    Vec2(1.0 / (w - 1) as real, 1.0 / (h - 1) as real)
  }

  /** The uv of grid point (x, y): each coordinate times its axis's reciprocal. */
  function UvAt(x: int, y: int, uvDenominators: Vec2): Vec2
  {
    Vec2(x as real * uvDenominators.x, y as real * uvDenominators.y)
  }

  /** The vertex at uv `uv`: the horizontal position is centred on the origin and
      spans `size`; the height is the sample there times `heightMultiplier`. */
  function VertexAt(heightMap: HeightSample, size: Vec2, heightMultiplier: real, uv: Vec2): Vec3
  {
    Vec3(size.x * (uv.x - 0.5), heightMap(uv.x, uv.y) * heightMultiplier, size.y * (uv.y - 0.5))
  }

  /** The six indices of the cell whose lower-left vertex is `a`: the triangles
      (a, a+w, a+w+1) and (a+w+1, a+1, a). */
  function CellTriangles(a: int, w: int): (r: seq<int>)
    ensures |r| == 6
  {
    [a, a + w, a + w + 1, a + w + 1, a + 1, a]
  }

  /** The grid's geometry: `w` by `h` points, `heightMap` sampled at each, with the
      uv step along each axis. */
  datatype Grid = Grid(heightMap: HeightSample, size: Vec2, heightMultiplier: real, w: int, h: int, uvDenominators: Vec2)
  {
    predicate Valid() { w >= 2 && h >= 2 }
  }

  /** The uvs of the first `k` points of row `y`. */
  function UvPrefix(g: Grid, y: int, k: nat): (r: seq<Vec2>)
    ensures |r| == k
  {
    if k == 0 then [] else UvPrefix(g, y, k - 1) + [UvAt(k - 1, y, g.uvDenominators)]
  }

  /** The vertices of the first `k` points of row `y`. */
  function VertexPrefix(g: Grid, y: int, k: nat): (r: seq<Vec3>)
    ensures |r| == k
  {
    if k == 0 then []
    else VertexPrefix(g, y, k - 1) + [VertexAt(g.heightMap, g.size, g.heightMultiplier, UvAt(k - 1, y, g.uvDenominators))]
  }

  /** Point x of a row holds the uv and the vertex of grid point (x, y). */
  lemma {:induction false} PrefixAt(g: Grid, y: int, k: nat, x: int)
    requires 0 <= x < k
    ensures UvPrefix(g, y, k)[x] == UvAt(x, y, g.uvDenominators)
    ensures VertexPrefix(g, y, k)[x] == VertexAt(g.heightMap, g.size, g.heightMultiplier, UvAt(x, y, g.uvDenominators))
  {
    if x < k - 1 {
      PrefixAt(g, y, k - 1, x);
    }
  }

  function UvRow(g: Grid, y: int): (r: seq<Vec2>)
    requires g.Valid()
    ensures |r| == g.w
  {
    UvPrefix(g, y, g.w)
  }

  function VertexRow(g: Grid, y: int): (r: seq<Vec3>)
    requires g.Valid()
    ensures |r| == g.w
  {
    VertexPrefix(g, y, g.w)
  }

  /** The index of the first entry of row `y` when every row has `w` entries, built
      up row by row. */
  function RowStart(y: nat, w: int): (r: int)
    ensures w >= 0 ==> r >= 0
  {
    if y == 0 then 0 else RowStart(y - 1, w) + w
  }

  lemma {:induction false} RowStartIsProduct(y: nat, w: int)
    ensures RowStart(y, w) == y * w
  {
    if y > 0 {
      RowStartIsProduct(y - 1, w);
      assert y * w == (y - 1) * w + w;
    }
  }

  /** The uvs of the first `n` rows, row after row. */
  function UvRows(g: Grid, n: nat): (r: seq<Vec2>)
    requires g.Valid()
    ensures |r| == RowStart(n, g.w)
  {
    if n == 0 then [] else UvRows(g, n - 1) + UvRow(g, n - 1)
  }

  /** The vertices of the first `n` rows, row after row. */
  function VertexRows(g: Grid, n: nat): (r: seq<Vec3>)
    requires g.Valid()
    ensures |r| == RowStart(n, g.w)
  {
    if n == 0 then [] else VertexRows(g, n - 1) + VertexRow(g, n - 1)
  }

  /** The triangles of the first `k` cells of the row whose first vertex is `rowStart`. */
  function CellRow(w: int, rowStart: int, k: nat): (r: seq<int>)
    ensures |r| == 6 * k
  {
    if k == 0 then [] else CellRow(w, rowStart, k - 1) + CellTriangles(rowStart + k - 1, w)
  }

  /** The triangles of the first `n` rows of cells, `nx` cells to a row. */
  function CellRows(w: int, nx: nat, n: nat): (r: seq<int>)
    ensures |r| == RowStart(n, 6 * nx)
  {
    if n == 0 then [] else CellRows(w, nx, n - 1) + CellRow(w, RowStart(n - 1, w), nx)
  }

  function GridOf(heightMap: HeightSample, size: Vec2, heightMultiplier: real, divisions: Vec2Int): (g: Grid)
    requires divisions.x >= 1 && divisions.y >= 1
    ensures g.Valid()
  {
    Grid(heightMap, size, heightMultiplier, divisions.x + 1, divisions.y + 1,
         UvDenominators(divisions.x + 1, divisions.y + 1))
  }

  /** The mesh GenerateMesh yields for `divisions` cells along each axis, its
      vertices numbered row by row. */
  function GridMesh(heightMap: HeightSample, size: Vec2, heightMultiplier: real, divisions: Vec2Int): MeshData
    requires divisions.x >= 1 && divisions.y >= 1
  {
    var g := GridOf(heightMap, size, heightMultiplier, divisions);
    MeshData(VertexRows(g, g.h), CellRows(g.w, divisions.x, divisions.y), UvRows(g, g.h))
  }

  /** The uv and the vertex GenerateMesh computes at point x of row y: they are the
      row's. */
  method ComputePoint(ghost g: Grid, heightMap: HeightSample, horizontalSize: Vec2, heightMultiplier: real,
                      uvDenominators: Vec2, x: int, y: int)
    returns (uv: Vec2, vertex: Vec3)
    requires g == Grid(heightMap, horizontalSize, heightMultiplier, g.w, g.h, uvDenominators) && g.Valid()
    requires 0 <= x < g.w
    ensures uv == UvRow(g, y)[x] && vertex == VertexRow(g, y)[x]
  {
    uv := Vec2(x as real * uvDenominators.x, y as real * uvDenominators.y);
    vertex := Vec3(horizontalSize.x * (uv.x - 0.5), heightMap(uv.x, uv.y) * heightMultiplier,
                   horizontalSize.y * (uv.y - 0.5));
    assert uv == UvAt(x, y, g.uvDenominators);
    assert vertex == VertexAt(heightMap, horizontalSize, heightMultiplier, uv);
    PrefixAt(g, y, g.w, x);
  }

  /** Row `y` of a grid `h` rows high ends within the grid. */
  lemma {:induction false} RowsFit(y: nat, w: int, h: nat)
    requires y < h && w >= 0
    ensures RowStart(y, w) + w <= RowStart(h, w)
    decreases h
  {
    if y < h - 1 {
      RowsFit(y, w, h - 1);
    }
  }

  /** AddTriangle: writes three indices at the running triangle index and advances
      it past them. */
  method AddTriangle(triangles: array<int>, triangleIndex: int, a: int, b: int, c: int) returns (next: int)
    requires 0 <= triangleIndex && triangleIndex + 3 <= triangles.Length
    modifies triangles
    ensures triangles[triangleIndex] == a && triangles[triangleIndex + 1] == b && triangles[triangleIndex + 2] == c
    ensures forall i :: 0 <= i < triangles.Length && !(triangleIndex <= i < triangleIndex + 3) ==>
              triangles[i] == old(triangles[i])
    ensures next == triangleIndex + 3
  {
    triangles[triangleIndex] := a;
    triangles[triangleIndex + 1] := b;
    triangles[triangleIndex + 2] := c;
    next := triangleIndex + 3;
  }

  /** The two triangles of the cell whose lower-left vertex is `vertexIndex`, written at
      the running triangle index. */
  method AddCell(triangles: array<int>, triangleIndex: int, vertexIndex: int, meshWidth: int) returns (next: int)
    requires 0 <= triangleIndex && triangleIndex + 6 <= triangles.Length
    modifies triangles
    ensures next == triangleIndex + 6
    ensures forall m :: 0 <= m < 6 ==> triangles[triangleIndex + m] == CellTriangles(vertexIndex, meshWidth)[m]
    ensures forall i :: 0 <= i < triangles.Length && !(triangleIndex <= i < next) ==> triangles[i] == old(triangles[i])
  {
    next := AddTriangle(triangles, triangleIndex, vertexIndex, vertexIndex + meshWidth, vertexIndex + meshWidth + 1);
    next := AddTriangle(triangles, next, vertexIndex + meshWidth + 1, vertexIndex + 1, vertexIndex);
  }

  /** The first `x` points of the row that starts at vertex `rowStart` hold `row` and
      `uvRow`, and every slot before the row still holds its value in `v0` and `u0`. */
  ghost predicate PointsWritten(vertices: array<Vec3>, uvs: array<Vec2>, v0: seq<Vec3>, u0: seq<Vec2>,
                                rowStart: int, row: seq<Vec3>, uvRow: seq<Vec2>, x: int)
    reads vertices, uvs
  {
    && 0 <= rowStart && 0 <= x <= |row| && |row| == |uvRow|
    && rowStart + |row| <= vertices.Length && rowStart + |row| <= uvs.Length
    && rowStart <= |v0| && rowStart <= |u0|
    && (forall i :: 0 <= i < rowStart ==> vertices[i] == v0[i])
    && (forall i :: 0 <= i < rowStart ==> uvs[i] == u0[i])
    && (forall i :: 0 <= i < x ==> vertices[rowStart + i] == row[i])
    && (forall i :: 0 <= i < x ==> uvs[rowStart + i] == uvRow[i])
  }

  /** Once all of the row is written, the arrays up to the row's end are the slots
      before it followed by the row. */
  lemma PointsWrittenSlices(vertices: array<Vec3>, uvs: array<Vec2>, v0: seq<Vec3>, u0: seq<Vec2>,
                            rowStart: int, row: seq<Vec3>, uvRow: seq<Vec2>)
    requires PointsWritten(vertices, uvs, v0, u0, rowStart, row, uvRow, |row|)
    ensures vertices[..rowStart + |row|] == v0[..rowStart] + row
    ensures uvs[..rowStart + |uvRow|] == u0[..rowStart] + uvRow
  {
    assert forall i :: 0 <= i < rowStart + |row| ==> vertices[..rowStart + |row|][i] == (v0[..rowStart] + row)[i] by {
      forall i | 0 <= i < rowStart + |row|
        ensures vertices[..rowStart + |row|][i] == (v0[..rowStart] + row)[i]
      {
        if i >= rowStart {
          assert vertices[rowStart + (i - rowStart)] == row[i - rowStart];
        }
      }
    }
    assert forall i :: 0 <= i < rowStart + |uvRow| ==> uvs[..rowStart + |uvRow|][i] == (u0[..rowStart] + uvRow)[i] by {
      forall i | 0 <= i < rowStart + |uvRow|
        ensures uvs[..rowStart + |uvRow|][i] == (u0[..rowStart] + uvRow)[i]
      {
        if i >= rowStart {
          assert uvs[rowStart + (i - rowStart)] == uvRow[i - rowStart];
        }
      }
    }
  }

  /** The first `done` cells of the row of cells that starts at triangle index
      `cellsStart` are written, and every index before it still holds its value in `t0`. */
  ghost predicate CellsWritten(triangles: array<int>, t0: seq<int>, cellsStart: int, meshWidth: int,
                               rowStart: int, done: nat)
    reads triangles
  {
    && 0 <= cellsStart && cellsStart + 6 * done <= triangles.Length && cellsStart <= |t0|
    && (forall i :: 0 <= i < cellsStart ==> triangles[i] == t0[i])
    && (forall i :: 0 <= i < 6 * done ==> triangles[cellsStart + i] == CellRow(meshWidth, rowStart, done)[i])
  }

  /** Once `done` cells are written, the triangle indices up to their end are the ones
      before the row followed by the row's first `done` cells. */
  lemma CellsWrittenSlice(triangles: array<int>, t0: seq<int>, cellsStart: int, meshWidth: int,
                          rowStart: int, done: nat)
    requires CellsWritten(triangles, t0, cellsStart, meshWidth, rowStart, done)
    ensures triangles[..cellsStart + 6 * done] == t0[..cellsStart] + CellRow(meshWidth, rowStart, done)
  {
    var cells := CellRow(meshWidth, rowStart, done);
    assert forall i :: 0 <= i < cellsStart + 6 * done ==> triangles[..cellsStart + 6 * done][i] == (t0[..cellsStart] + cells)[i] by {
      forall i | 0 <= i < cellsStart + 6 * done
        ensures triangles[..cellsStart + 6 * done][i] == (t0[..cellsStart] + cells)[i]
      {
        if i >= cellsStart {
          assert triangles[cellsStart + (i - cellsStart)] == cells[i - cellsStart];
        }
      }
    }
  }

  /** Writes the vertex and uv of point x of row y at the running vertex index, just
      after the points of the row already written. */
  method WritePoint(ghost g: Grid, heightMap: HeightSample, horizontalSize: Vec2, heightMultiplier: real,
                    vertices: array<Vec3>, uvs: array<Vec2>,
                    meshWidth: int, meshHeight: int, uvDenominators: Vec2, x: nat, y: int,
                    vertexIndex: int, ghost v0: seq<Vec3>, ghost u0: seq<Vec2>, ghost rowStart: int)
    requires g == Grid(heightMap, horizontalSize, heightMultiplier, meshWidth, meshHeight, uvDenominators) && g.Valid()
    requires x < meshWidth && vertexIndex == rowStart + x
    requires PointsWritten(vertices, uvs, v0, u0, rowStart, VertexRow(g, y), UvRow(g, y), x)
    modifies vertices, uvs
    ensures PointsWritten(vertices, uvs, v0, u0, rowStart, VertexRow(g, y), UvRow(g, y), x + 1)
  {
    var uv, vertex := ComputePoint(g, heightMap, horizontalSize, heightMultiplier, uvDenominators, x, y);
    vertices[vertexIndex] := vertex;
    uvs[vertexIndex] := uv;
  }

  /** The two triangles of cell `done` of the row, written just after the cells of the
      row already written. */
  method WriteCell(triangles: array<int>, triangleIndex: int, vertexIndex: int, meshWidth: int,
                   ghost t0: seq<int>, ghost cellsStart: int, ghost rowStart: int, ghost done: nat)
    returns (next: int)
    requires CellsWritten(triangles, t0, cellsStart, meshWidth, rowStart, done)
    requires triangleIndex == cellsStart + 6 * done && triangleIndex + 6 <= triangles.Length
    requires vertexIndex == rowStart + done
    modifies triangles
    ensures next == triangleIndex + 6
    ensures CellsWritten(triangles, t0, cellsStart, meshWidth, rowStart, done + 1)
  {
    next := AddCell(triangles, triangleIndex, vertexIndex, meshWidth);
    assert forall i :: 0 <= i < 6 * done ==> CellRow(meshWidth, rowStart, done + 1)[i] == CellRow(meshWidth, rowStart, done)[i];
    assert forall m :: 0 <= m < 6 ==> CellRow(meshWidth, rowStart, done + 1)[6 * done + m] == CellTriangles(vertexIndex, meshWidth)[m];
  }

  /** The inner loop of GenerateMesh, over the points of row `y`: it writes each
      point's vertex and uv and, below the top row and left of the last column, the
      two triangles of the cell the point starts. */
  method FillRow(ghost g: Grid, heightMap: HeightSample, horizontalSize: Vec2, heightMultiplier: real,
                 vertices: array<Vec3>, uvs: array<Vec2>, triangles: array<int>,
                 meshWidth: int, meshHeight: int, uvDenominators: Vec2, y: int,
                 rowStart: int, cellsStart: int)
    returns (vertexIndex: int, triangleIndex: int)
    requires g == Grid(heightMap, horizontalSize, heightMultiplier, meshWidth, meshHeight, uvDenominators) && g.Valid()
    requires 0 <= rowStart && rowStart + meshWidth <= vertices.Length && rowStart + meshWidth <= uvs.Length
    requires 0 <= cellsStart <= triangles.Length
    requires y < meshHeight - 1 ==> cellsStart + 6 * (meshWidth - 1) <= triangles.Length
    modifies vertices, uvs, triangles
    ensures vertexIndex == rowStart + meshWidth
    ensures triangleIndex == cellsStart + (if y < meshHeight - 1 then 6 * (meshWidth - 1) else 0)
    ensures vertices[..vertexIndex] == old(vertices[..rowStart]) + VertexRow(g, y)
    ensures uvs[..vertexIndex] == old(uvs[..rowStart]) + UvRow(g, y)
    ensures triangles[..triangleIndex] ==
      old(triangles[..cellsStart]) + (if y < meshHeight - 1 then CellRow(meshWidth, rowStart, meshWidth - 1) else [])
  {
    vertexIndex, triangleIndex := rowStart, cellsStart;
    ghost var cells := if y < meshHeight - 1 then meshWidth - 1 else 0;
    ghost var row, uvRow := VertexRow(g, y), UvRow(g, y);
    ghost var v0, u0, t0 := vertices[..], uvs[..], triangles[..];
    ghost var done: nat := 0;
    var x := 0;
    while x < meshWidth
      invariant 0 <= x <= meshWidth
      invariant vertexIndex == rowStart + x
      invariant done == MinInt(x, cells) && triangleIndex == cellsStart + 6 * done
      invariant PointsWritten(vertices, uvs, v0, u0, rowStart, row, uvRow, x)
      invariant CellsWritten(triangles, t0, cellsStart, meshWidth, rowStart, done)
    {
      WritePoint(g, heightMap, horizontalSize, heightMultiplier, vertices, uvs,
        meshWidth, meshHeight, uvDenominators, x, y, vertexIndex, v0, u0, rowStart);
      if x < meshWidth - 1 && y < meshHeight - 1 {
        triangleIndex := WriteCell(triangles, triangleIndex, vertexIndex, meshWidth, t0, cellsStart, rowStart, done);
        done := done + 1;
      }

      vertexIndex := vertexIndex + 1;
      x := x + 1;
    }
    PointsWrittenSlices(vertices, uvs, v0, u0, rowStart, row, uvRow);
    CellsWrittenSlice(triangles, t0, cellsStart, meshWidth, rowStart, done);
  }

  /** The body of GenerateMesh's outer loop, at row `y`: with the rows below `y`
      already written, it writes row `y` after them. */
  method FillNextRow(ghost g: Grid, heightMap: HeightSample, horizontalSize: Vec2, heightMultiplier: real,
                     vertices: array<Vec3>, uvs: array<Vec2>, triangles: array<int>,
                     meshWidth: int, meshHeight: int, uvDenominators: Vec2, y: nat,
                     vertexIndex: int, triangleIndex: int)
    returns (nextVertex: int, nextTriangle: int)
    requires g == Grid(heightMap, horizontalSize, heightMultiplier, meshWidth, meshHeight, uvDenominators) && g.Valid()
    requires vertices.Length == uvs.Length == RowStart(meshHeight, meshWidth)
    requires triangles.Length == RowStart(meshHeight - 1, 6 * (meshWidth - 1))
    requires y < meshHeight
    requires vertexIndex <= vertices.Length && triangleIndex <= triangles.Length
    requires vertexIndex == RowStart(y, meshWidth)
    requires triangleIndex == RowStart(MinInt(y, meshHeight - 1), 6 * (meshWidth - 1))
    requires vertices[..vertexIndex] == VertexRows(g, y)
    requires uvs[..vertexIndex] == UvRows(g, y)
    requires triangles[..triangleIndex] == CellRows(meshWidth, meshWidth - 1, MinInt(y, meshHeight - 1))
    modifies vertices, uvs, triangles
    ensures nextVertex <= vertices.Length && nextTriangle <= triangles.Length
    ensures nextVertex == RowStart(y + 1, meshWidth)
    ensures nextTriangle == RowStart(MinInt(y + 1, meshHeight - 1), 6 * (meshWidth - 1))
    ensures vertices[..nextVertex] == VertexRows(g, y + 1)
    ensures uvs[..nextVertex] == UvRows(g, y + 1)
    ensures triangles[..nextTriangle] == CellRows(meshWidth, meshWidth - 1, MinInt(y + 1, meshHeight - 1))
  {
    RowsFit(y, meshWidth, meshHeight);
    if y < meshHeight - 1 {
      RowsFit(y, 6 * (meshWidth - 1), meshHeight - 1);
    }
    nextVertex, nextTriangle := FillRow(g, heightMap, horizontalSize, heightMultiplier, vertices, uvs, triangles,
      meshWidth, meshHeight, uvDenominators, y, vertexIndex, triangleIndex);
  }

  /** The outer loop of GenerateMesh, over the rows of the grid: it fills the vertex,
      uv and triangle arrays row by row, and the running vertex and triangle indices end
      at the arrays' lengths, so that every slot is written. */
  method FillGrid(ghost g: Grid, heightMap: HeightSample, horizontalSize: Vec2, heightMultiplier: real,
                  vertices: array<Vec3>, uvs: array<Vec2>, triangles: array<int>,
                  meshWidth: int, meshHeight: int, uvDenominators: Vec2)
    returns (vertexIndex: int, triangleIndex: int)
    requires g == Grid(heightMap, horizontalSize, heightMultiplier, meshWidth, meshHeight, uvDenominators) && g.Valid()
    requires vertices.Length == uvs.Length == RowStart(meshHeight, meshWidth)
    requires triangles.Length == RowStart(meshHeight - 1, 6 * (meshWidth - 1))
    modifies vertices, uvs, triangles
    ensures vertices[..] == VertexRows(g, meshHeight)
    ensures uvs[..] == UvRows(g, meshHeight)
    ensures triangles[..] == CellRows(meshWidth, meshWidth - 1, meshHeight - 1)
    ensures vertexIndex == vertices.Length && triangleIndex == triangles.Length
  {
    triangleIndex := 0;
    vertexIndex := 0;
    var y := 0;
    while y < meshHeight
      invariant 0 <= y <= meshHeight
      invariant vertexIndex <= vertices.Length && triangleIndex <= triangles.Length
      invariant vertexIndex == RowStart(y, meshWidth)
      invariant triangleIndex == RowStart(MinInt(y, meshHeight - 1), 6 * (meshWidth - 1))
      invariant vertices[..vertexIndex] == VertexRows(g, y)
      invariant uvs[..vertexIndex] == UvRows(g, y)
      invariant triangles[..triangleIndex] == CellRows(meshWidth, meshWidth - 1, MinInt(y, meshHeight - 1))
    {
      vertexIndex, triangleIndex := FillNextRow(g, heightMap, horizontalSize, heightMultiplier, vertices, uvs, triangles,
        meshWidth, meshHeight, uvDenominators, y, vertexIndex, triangleIndex);
      y := y + 1;
    }
    assert vertices[..] == vertices[..vertexIndex];
    assert uvs[..] == uvs[..vertexIndex];
    assert triangles[..] == triangles[..triangleIndex];
  }

  /** GenerateMesh: allocates the vertex, uv and triangle arrays, fills them point by
      point, row by row, and hands them to the mesh. */
  method GenerateMesh(heightMap: HeightSample, horizontalSize: Vec2, heightMultiplier: real, numDivisionsHorizontal: Vec2Int)
    returns (mesh: MeshData)
    requires numDivisionsHorizontal.x >= 1 && numDivisionsHorizontal.y >= 1
    ensures mesh == GridMesh(heightMap, horizontalSize, heightMultiplier, numDivisionsHorizontal)
  {
    var meshWidth := numDivisionsHorizontal.x + 1;
    var meshHeight := numDivisionsHorizontal.y + 1;
    var vertices := new Vec3[meshWidth * meshHeight];
    var uvs := new Vec2[meshWidth * meshHeight];
    var triangles := new int[(meshWidth - 1) * (meshHeight - 1) * 6];
    RowStartIsProduct(meshHeight, meshWidth);
    RowStartIsProduct(meshHeight - 1, 6 * (meshWidth - 1));
    assert (meshWidth - 1) * (meshHeight - 1) * 6 == (meshHeight - 1) * (6 * (meshWidth - 1));

    var uvDenominators := Vec2(1.0 / (meshWidth - 1) as real, 1.0 / (meshHeight - 1) as real);
    ghost var g := Grid(heightMap, horizontalSize, heightMultiplier, meshWidth, meshHeight, uvDenominators);
    assert g == GridOf(heightMap, horizontalSize, heightMultiplier, numDivisionsHorizontal);
    var vertexCount, triangleCount :=
      FillGrid(g, heightMap, horizontalSize, heightMultiplier, vertices, uvs, triangles, meshWidth, meshHeight, uvDenominators);
    mesh := MeshData(vertices[..], triangles[..], uvs[..]);
  }

  /** The mesh has one vertex and one uv per grid point, (nx + 1)(ny + 1) of each, and
      six triangle indices per cell. */
  lemma GridMeshSizes(heightMap: HeightSample, size: Vec2, heightMultiplier: real, divisions: Vec2Int, mesh: MeshData)
    requires divisions.x >= 1 && divisions.y >= 1
    requires mesh == GridMesh(heightMap, size, heightMultiplier, divisions)
    ensures |mesh.vertices| == |mesh.uv| == (divisions.x + 1) * (divisions.y + 1)
    ensures |mesh.triangles| == divisions.x * divisions.y * 6
  {
    RowStartIsProduct(divisions.y + 1, divisions.x + 1);
    RowStartIsProduct(divisions.y, 6 * divisions.x);
    assert divisions.y * (6 * divisions.x) == divisions.x * divisions.y * 6;
  }

  lemma {:induction false} RowsAt(g: Grid, n: nat, y: nat, x: int)
    requires g.Valid() && y < n && 0 <= x < g.w
    ensures RowStart(y, g.w) + x < RowStart(n, g.w)
    ensures VertexRows(g, n)[RowStart(y, g.w) + x] == VertexRow(g, y)[x]
    ensures UvRows(g, n)[RowStart(y, g.w) + x] == UvRow(g, y)[x]
    decreases n
  {
    if y < n - 1 {
      RowsAt(g, n - 1, y, x);
    }
  }

  /** The row-major index of point x of row y: the point's index within its row after
      the `y` rows before. */
  lemma RowMajor(y: nat, w: int, x: int)
    ensures y * w + x == RowStart(y, w) + x
  {
    RowStartIsProduct(y, w);
  }

  lemma ReciprocalScale(a: real, d: real)
    requires 0.0 <= a <= d && d > 0.0
    ensures a * (1.0 / d) == a / d
    ensures 0.0 <= a / d <= 1.0
  {
  }

  /** Grid point (x, y) is vertex y(nx + 1) + x. Its uv is (x / nx, y / ny), in the unit
      square, and the vertex lies at that fraction of the horizontal size, centred on the
      origin, raised by the height map's sample at the uv times the height multiplier. */
  lemma GridMeshPoint(heightMap: HeightSample, size: Vec2, heightMultiplier: real, divisions: Vec2Int,
                      mesh: MeshData, x: int, y: int)
    requires divisions.x >= 1 && divisions.y >= 1
    requires mesh == GridMesh(heightMap, size, heightMultiplier, divisions)
    requires 0 <= x <= divisions.x && 0 <= y <= divisions.y
    ensures 0 <= y * (divisions.x + 1) + x < |mesh.vertices| == |mesh.uv|
    ensures mesh.uv[y * (divisions.x + 1) + x] == Vec2(x as real / divisions.x as real, y as real / divisions.y as real)
    ensures mesh.vertices[y * (divisions.x + 1) + x] ==
              VertexAt(heightMap, size, heightMultiplier, Vec2(x as real / divisions.x as real, y as real / divisions.y as real))
  {
    var g := GridOf(heightMap, size, heightMultiplier, divisions);
    RowMajor(y, g.w, x);
    RowsAt(g, g.h, y, x);
    PrefixAt(g, y, g.w, x);
    UvFraction(x, y, divisions);
  }

  lemma UvFraction(x: int, y: int, divisions: Vec2Int)
    requires divisions.x >= 1 && divisions.y >= 1
    requires 0 <= x <= divisions.x && 0 <= y <= divisions.y
    ensures UvAt(x, y, UvDenominators(divisions.x + 1, divisions.y + 1))
         == Vec2(x as real / divisions.x as real, y as real / divisions.y as real)
  {
    ReciprocalScale(x as real, divisions.x as real);
    ReciprocalScale(y as real, divisions.y as real);
  }

  /** Every uv lies in the unit square. */
  lemma GridMeshUvInUnitSquare(heightMap: HeightSample, size: Vec2, heightMultiplier: real, divisions: Vec2Int,
                               mesh: MeshData, i: int)
    requires divisions.x >= 1 && divisions.y >= 1
    requires mesh == GridMesh(heightMap, size, heightMultiplier, divisions)
    requires 0 <= i < |mesh.uv|
    ensures 0.0 <= mesh.uv[i].x <= 1.0 && 0.0 <= mesh.uv[i].y <= 1.0
  {
    var g := GridOf(heightMap, size, heightMultiplier, divisions);
    UvRowsInUnitSquare(g, g.h, i);
  }

  lemma {:induction false} UvRowsInUnitSquare(g: Grid, n: nat, i: int)
    requires g.Valid() && n <= g.h && g.uvDenominators == UvDenominators(g.w, g.h)
    requires 0 <= i < |UvRows(g, n)|
    ensures 0.0 <= UvRows(g, n)[i].x <= 1.0 && 0.0 <= UvRows(g, n)[i].y <= 1.0
    decreases n
  {
    if i < |UvRows(g, n - 1)| {
      UvRowsInUnitSquare(g, n - 1, i);
    } else {
      var x := i - |UvRows(g, n - 1)|;
      assert UvRows(g, n)[i] == UvRow(g, n - 1)[x];
      UvPointInUnitSquare(g, n - 1, x);
    }
  }

  lemma UvPointInUnitSquare(g: Grid, y: nat, x: int)
    requires g.Valid() && y < g.h && 0 <= x < g.w && g.uvDenominators == UvDenominators(g.w, g.h)
    ensures 0.0 <= UvRow(g, y)[x].x <= 1.0 && 0.0 <= UvRow(g, y)[x].y <= 1.0
  {
    PrefixAt(g, y, g.w, x);
    ReciprocalScale(x as real, (g.w - 1) as real);
    ReciprocalScale(y as real, (g.h - 1) as real);
  }

  lemma {:induction false} CellRowAt(w: int, rowStart: int, k: nat, j: nat, m: int)
    requires j < k && 0 <= m < 6
    ensures CellRow(w, rowStart, k)[6 * j + m] == CellTriangles(rowStart + j, w)[m]
    decreases k
  {
    if j < k - 1 {
      CellRowAt(w, rowStart, k - 1, j, m);
    }
  }

  lemma {:induction false} CellRowsAt(w: int, nx: nat, n: nat, y: nat, j: nat, m: int)
    requires y < n && j < nx && 0 <= m < 6
    ensures RowStart(y, 6 * nx) + 6 * j + m < RowStart(n, 6 * nx)
    ensures CellRows(w, nx, n)[RowStart(y, 6 * nx) + 6 * j + m] == CellTriangles(RowStart(y, w) + j, w)[m]
    decreases n
  {
    if y < n - 1 {
      CellRowsAt(w, nx, n - 1, y, j, m);
    } else {
      CellRowAt(w, RowStart(y, w), nx, j, m);
    }
  }

  /** Cell (x, y) is triangle indices 6(y nx + x) to 6(y nx + x) + 5: the triangles
      (a, a + w, a + w + 1) and (a + w + 1, a + 1, a) of its lower-left vertex
      a = y w + x, where w = nx + 1 is the number of points in a row. */
  lemma GridMeshCell(heightMap: HeightSample, size: Vec2, heightMultiplier: real, divisions: Vec2Int,
                     mesh: MeshData, x: int, y: int, m: int)
    requires divisions.x >= 1 && divisions.y >= 1
    requires mesh == GridMesh(heightMap, size, heightMultiplier, divisions)
    requires 0 <= x < divisions.x && 0 <= y < divisions.y && 0 <= m < 6
    ensures 0 <= 6 * (y * divisions.x + x) + m < |mesh.triangles|
    ensures mesh.triangles[6 * (y * divisions.x + x) + m] ==
              CellTriangles(y * (divisions.x + 1) + x, divisions.x + 1)[m]
  {
    GridCellAt(divisions.x, divisions.y, x, y, m);
  }

  lemma GridCellAt(nx: nat, ny: nat, x: int, y: int, m: int)
    requires 0 <= x < nx && 0 <= y < ny && 0 <= m < 6
    ensures 0 <= 6 * (y * nx + x) + m < |CellRows(nx + 1, nx, ny)|
    ensures CellRows(nx + 1, nx, ny)[6 * (y * nx + x) + m] == CellTriangles(y * (nx + 1) + x, nx + 1)[m]
  {
    CellIndex(y, nx, x, m);
    CellRowsAt(nx + 1, nx, ny, y, x, m);
  }

  lemma CellIndex(y: nat, nx: int, x: int, m: int)
    ensures 6 * (y * nx + x) + m == RowStart(y, 6 * nx) + 6 * x + m
    ensures y * (nx + 1) + x == RowStart(y, nx + 1) + x
  {
    RowStartIsProduct(y, 6 * nx);
    RowStartIsProduct(y, nx + 1);
    assert y * (6 * nx) == 6 * (y * nx);
  }

  lemma {:induction false} CellRowBounds(w: int, rowStart: int, k: nat)
    requires k <= w - 1
    ensures forall i :: 0 <= i < |CellRow(w, rowStart, k)| ==>
              rowStart <= CellRow(w, rowStart, k)[i] < rowStart + 2 * w
  {
    if k > 0 {
      CellRowBounds(w, rowStart, k - 1);
    }
  }

  lemma {:induction false} CellRowsBounds(w: int, nx: nat, n: nat)
    requires w >= 2 && nx == w - 1
    ensures forall i :: 0 <= i < |CellRows(w, nx, n)| ==> 0 <= CellRows(w, nx, n)[i] < RowStart(n + 1, w)
  {
    if n > 0 {
      CellRowsBounds(w, nx, n - 1);
      CellRowBounds(w, RowStart(n - 1, w), nx);
    }
  }

  /** Every triangle index names a vertex of the mesh. */
  lemma GridMeshIndicesValid(heightMap: HeightSample, size: Vec2, heightMultiplier: real, divisions: Vec2Int, mesh: MeshData)
    requires divisions.x >= 1 && divisions.y >= 1
    requires mesh == GridMesh(heightMap, size, heightMultiplier, divisions)
    ensures forall i :: 0 <= i < |mesh.triangles| ==> 0 <= mesh.triangles[i] < |mesh.vertices|
  {
    CellRowsBounds(divisions.x + 1, divisions.x, divisions.y);
  }
}
