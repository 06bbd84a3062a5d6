/** The component that gives a mesh filter a height-map mesh: it caps the division
    counts and generates the mesh when the filter has none. */
module HeightmapMeshComponent {

  import opened Common
  import opened HeightmapMeshGenerator

  /** The cap on each division count; it keeps the vertex count of a generated mesh
      within what a mesh built this way can hold. */
  const MaxNumberDivisions: int := 200

  /** A division count pair capped at MaxNumberDivisions on each axis. */
  function ClampDivisions(d: Vec2Int): (r: Vec2Int)
    ensures r.x <= MaxNumberDivisions && r.y <= MaxNumberDivisions
    ensures r.x <= d.x && r.y <= d.y
    ensures d.x <= MaxNumberDivisions ==> r.x == d.x
    ensures d.y <= MaxNumberDivisions ==> r.y == d.y
    ensures d.x > MaxNumberDivisions ==> r.x == MaxNumberDivisions
    ensures d.y > MaxNumberDivisions ==> r.y == MaxNumberDivisions
  {
    Vec2Int(MinInt(MaxNumberDivisions, d.x), MinInt(MaxNumberDivisions, d.y))
  }

  /** Capping twice is capping once. */
  lemma ClampIsIdempotent(d: Vec2Int)
    ensures ClampDivisions(ClampDivisions(d)) == ClampDivisions(d)
  {
    var c := ClampDivisions(d);
    assert c.x <= MaxNumberDivisions && c.y <= MaxNumberDivisions;
  }

  /** A grid mesh with capped, positive division counts has at most 201 x 201 vertices. */
  lemma ClampedMeshBound(heightMap: HeightSample, size: Vec2, heightMultiplier: real, d: Vec2Int, mesh: MeshData)
    requires d.x >= 1 && d.y >= 1
    requires mesh == GridMesh(heightMap, size, heightMultiplier, ClampDivisions(d))
    ensures |mesh.vertices| == |mesh.uv| <= (MaxNumberDivisions + 1) * (MaxNumberDivisions + 1)
  {
    var c := ClampDivisions(d);
    GridMeshSizes(heightMap, size, heightMultiplier, c, mesh);
    ProductBound(c.x + 1, c.y + 1, MaxNumberDivisions + 1);
  }

  lemma ProductBound(a: int, b: int, n: int)
    requires 0 <= a <= n && 0 <= b <= n
    ensures a * b <= n * n
  {
    assert a * b <= a * n;
    assert a * n <= n * n;
  }

  class HeightmapMeshComponent {
    /** The serialized height map; `None` when no texture is assigned. */
    var heightMap: Option<HeightSample>
    var numberDivisions: Vec2Int
    var horizontalSize: Vec2
    var height: real
    /** The mesh filter's shared mesh; `None` when the filter has no mesh. */
    var sharedMesh: Option<MeshData>

    /** A component as first added: the field initialisers' values, with no height map
        and a mesh filter without a mesh. */
    constructor Default()
      ensures heightMap == None && sharedMesh == None
      ensures numberDivisions == Vec2Int(10, 10) && horizontalSize == Vec2(10.0, 10.0) && height == 1.0
    {
      heightMap := None;
      numberDivisions := Vec2Int(10, 10);
      horizontalSize := Vec2(10.0, 10.0);
      height := 1.0;
      sharedMesh := None;
    }

    /** A component with the given serialized values and the given shared mesh. */
    constructor (heightMap: Option<HeightSample>, numberDivisions: Vec2Int, horizontalSize: Vec2, height: real,
                 sharedMesh: Option<MeshData>)
      ensures this.heightMap == heightMap && this.numberDivisions == numberDivisions
      ensures this.horizontalSize == horizontalSize && this.height == height && this.sharedMesh == sharedMesh
    {
      this.heightMap := heightMap;
      this.numberDivisions := numberDivisions;
      this.horizontalSize := horizontalSize;
      this.height := height;
      this.sharedMesh := sharedMesh;
    }

    /** OnValidate: caps both division counts and changes nothing else. */
    method OnValidate()
      modifies this
      ensures numberDivisions == ClampDivisions(old(numberDivisions))
      ensures heightMap == old(heightMap) && horizontalSize == old(horizontalSize) && height == old(height)
      ensures sharedMesh == old(sharedMesh)
    {
      numberDivisions := Vec2Int(MinInt(MaxNumberDivisions, numberDivisions.x), MinInt(MaxNumberDivisions, numberDivisions.y));
    }

    /** UpdateMeshIfNeeded: when the filter has no mesh and a height map is assigned, it
        generates the grid mesh from the current fields and assigns it; otherwise
        nothing changes. */
    method UpdateMeshIfNeeded()
      requires sharedMesh.None? && heightMap.Some? ==> numberDivisions.x >= 1 && numberDivisions.y >= 1
      modifies this
      ensures heightMap == old(heightMap) && numberDivisions == old(numberDivisions)
      ensures horizontalSize == old(horizontalSize) && height == old(height)
      ensures old(sharedMesh).None? && heightMap.Some? ==>
                sharedMesh == Some(GridMesh(heightMap.value, horizontalSize, height, numberDivisions))
      ensures !(old(sharedMesh).None? && heightMap.Some?) ==> sharedMesh == old(sharedMesh)
    {
      if sharedMesh.None? && heightMap.Some? {
        var newMesh := GenerateMesh(heightMap.value, horizontalSize, height, numberDivisions);
        sharedMesh := Some(newMesh);
      }
    }

    /** Awake: clears the filter's mesh, caps the division counts and regenerates. A
        mesh is then assigned exactly when a height map is, built with the capped
        counts, and so with at most 201 x 201 vertices. */
    method Awake()
      requires heightMap.Some? ==> numberDivisions.x >= 1 && numberDivisions.y >= 1
      modifies this
      ensures heightMap == old(heightMap) && horizontalSize == old(horizontalSize) && height == old(height)
      ensures numberDivisions == ClampDivisions(old(numberDivisions))
      ensures sharedMesh.Some? <==> heightMap.Some?
      ensures sharedMesh.Some? ==>
                && sharedMesh.value == GridMesh(heightMap.value, horizontalSize, height, numberDivisions)
                && |sharedMesh.value.vertices| <= (MaxNumberDivisions + 1) * (MaxNumberDivisions + 1)
    {
      sharedMesh := None;
      OnValidate();
      UpdateMeshIfNeeded();
      if heightMap.Some? {
        ClampedMeshBound(heightMap.value, horizontalSize, height, old(numberDivisions), sharedMesh.value);
      }
    }
  }

  /** Validating twice leaves the same division counts as validating once. */
  method ValidateTwice(c: HeightmapMeshComponent) returns (once: Vec2Int, twice: Vec2Int)
    modifies c
    ensures once == twice == ClampDivisions(old(c.numberDivisions))
  {
    c.OnValidate();
    once := c.numberDivisions;
    c.OnValidate();
    twice := c.numberDivisions;
    ClampIsIdempotent(old(c.numberDivisions));
  }
}
