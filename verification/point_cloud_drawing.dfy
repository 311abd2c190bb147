/** The point-cloud buffer builder: parallel vertex, color, UV-and-radius and
    triangle-index buffers that grow by one quad per point or one triangle per
    triangle splat, and a mesh regenerated from them while a dirty flag is set
    or baked once from them. */
module PointCloud {
  import opened Geometry

  // ---------------------------------------------------------------------------
  // The buffers as a value
  // ---------------------------------------------------------------------------

  /** The four lists m_Vertices, m_Colors32, m_UVRs and m_Triangles */
  datatype Buffers = Buffers(vertices: seq<Vector3>, colors32: seq<Color32>,
                             uvrs: seq<Vector3>, triangles: seq<int>)

  const NoBuffers := Buffers([], [], [], [])

  /** The per-vertex lists run in parallel, the indices form whole triangles
      and every index names an existing vertex. */
  predicate WellFormed(b: Buffers)
  {
    |b.colors32| == |b.vertices| && |b.uvrs| == |b.vertices| &&
    |b.triangles| % 3 == 0 &&
    forall i :: 0 <= i < |b.triangles| ==> 0 <= b.triangles[i] < |b.vertices|
  }

  /** Every list of `b` is a prefix of the same list of `b'`. */
  predicate Extends(b: Buffers, b': Buffers)
  {
    b.vertices <= b'.vertices && b.colors32 <= b'.colors32 &&
    b.uvrs <= b'.uvrs && b.triangles <= b'.triangles
  }

  /** The (u, v, radius) attributes of the four corners of a point's quad */
  function QuadUVRs(radius: real): seq<Vector3>
  {
    [Vector3(0.0, 0.0, radius), Vector3(0.0, 1.0, radius),
     Vector3(1.0, 0.0, radius), Vector3(1.0, 1.0, radius)]
  }

  /** The two triangles of a quad, relative to its first vertex */
  const QuadIndices: seq<int> := [0, 1, 2, 3, 2, 1]

  /** The (u, v, radius) attributes of a triangle splat's corners; `rootHalf`
      is the square root of one half. */
  function TriangleUVRs(radius: real, rootHalf: real): seq<Vector3>
  {
    [Vector3(0.5 - rootHalf, 0.5, radius), Vector3(1.0, 1.5 + rootHalf, radius),
     Vector3(1.0, -0.5 - rootHalf, radius)]
  }

  /** The buffers after AddPoint(point, color, radius) */
  function WithPoint(b: Buffers, point: Vector3, color: Color32, radius: real): (r: Buffers)
    ensures Extends(b, r)
    ensures WellFormed(b) ==> WellFormed(r)
  {
    var start := |b.vertices|;
    Buffers(b.vertices + [point, point, point, point],
            b.colors32 + [color, color, color, color],
            b.uvrs + QuadUVRs(radius),
            b.triangles + [start + 0, start + 1, start + 2, start + 3, start + 2, start + 1])
  }

  /** The buffers after AddTriangle(point, color, radius) */
  function WithTriangle(b: Buffers, point: Vector3, color: Color32, radius: real, rootHalf: real): (r: Buffers)
    ensures Extends(b, r)
    ensures WellFormed(b) ==> WellFormed(r)
  {
    var start := |b.vertices|;
    Buffers(b.vertices + [point, point, point],
            b.colors32 + [color, color, color],
            b.uvrs + TriangleUVRs(radius, rootHalf),
            b.triangles + [start + 0, start + 1, start + 2])
  }

  // ---------------------------------------------------------------------------
  // The mesh
  // ---------------------------------------------------------------------------

  /** UnityEngine.Rendering.IndexFormat */
  datatype IndexFormat = UInt16 | UInt32

  /** How many distinct vertices an index format can address */
  function IndexLimit(f: IndexFormat): nat
  {
    match f
    case UInt16 => 0x1_0000
    case UInt32 => 0x1_0000_0000
  }

  /** A snapshot of the mesh's contents: index format, vertices, colors, the
      first UV channel and the triangle indices */
  datatype Mesh = Mesh(indexFormat: IndexFormat, vertices: seq<Vector3>, colors32: seq<Color32>,
                       uvs: seq<Vector3>, triangles: seq<int>)

  /** A new or cleared mesh */
  const EmptyMesh := Mesh(UInt16, [], [], [], [])

  /** What GenerateMesh stores in the mesh: the buffers copied unchanged, with
      16-bit indices exactly when there are fewer than 65536 vertices. */
  function MeshOf(b: Buffers): (m: Mesh)
    ensures m.vertices == b.vertices && m.colors32 == b.colors32
    ensures m.uvs == b.uvrs && m.triangles == b.triangles
    ensures m.indexFormat == UInt16 <==> |b.vertices| < IndexLimit(UInt16)
    ensures |b.vertices| < 0x8000_0000 ==> |b.vertices| <= IndexLimit(m.indexFormat)
    ensures WellFormed(b) && |b.vertices| < 0x8000_0000 ==>
      forall i :: 0 <= i < |m.triangles| ==> 0 <= m.triangles[i] < IndexLimit(m.indexFormat)
  {
    Mesh(if |b.vertices| < 65536 then UInt16 else UInt32,
         b.vertices, b.colors32, b.uvrs, b.triangles)
  }

  // ---------------------------------------------------------------------------
  // Many splats
  // ---------------------------------------------------------------------------

  /** One AddPoint or AddTriangle call's arguments */
  datatype Splat = Splat(position: Vector3, color: Color32, radius: real)

  /** The buffers after AddPoint for each splat in turn, from empty buffers */
  function PointsBuffers(splats: seq<Splat>): Buffers
  {
    if splats == [] then NoBuffers
    else
      var last := splats[|splats| - 1];
      WithPoint(PointsBuffers(splats[..|splats| - 1]), last.position, last.color, last.radius)
  }

  /** The buffers after AddTriangle for each splat in turn, from empty buffers */
  function TrianglesBuffers(splats: seq<Splat>, rootHalf: real): Buffers
  {
    if splats == [] then NoBuffers
    else
      var last := splats[|splats| - 1];
      WithTriangle(TrianglesBuffers(splats[..|splats| - 1], rootHalf),
                   last.position, last.color, last.radius, rootHalf)
  }

  /** N points give 4N vertices and 6N indices; the k-th point owns vertices
      4k..4k+3, all at its position and in its color, and indices 6k..6k+5,
      which name only its own vertices. */
  lemma {:induction false} PointsLayout(splats: seq<Splat>)
    ensures var b := PointsBuffers(splats);
      WellFormed(b) && |b.vertices| == 4 * |splats| && |b.triangles| == 6 * |splats| &&
      (forall i :: 0 <= i < |b.vertices| ==>
         b.vertices[i] == splats[i / 4].position && b.colors32[i] == splats[i / 4].color &&
         b.uvrs[i] == QuadUVRs(splats[i / 4].radius)[i % 4]) &&
      (forall i :: 0 <= i < |b.triangles| ==> b.triangles[i] == 4 * (i / 6) + QuadIndices[i % 6])
  {
    if splats != [] {
      var n := |splats| - 1;
      var init := splats[..n];
      PointsLayout(init);
      var b0 := PointsBuffers(init);
      var b := PointsBuffers(splats);
      assert b == WithPoint(b0, splats[n].position, splats[n].color, splats[n].radius);
      forall i | 0 <= i < |b.vertices|
        ensures b.vertices[i] == splats[i / 4].position && b.colors32[i] == splats[i / 4].color
        ensures b.uvrs[i] == QuadUVRs(splats[i / 4].radius)[i % 4]
      {
        if i < 4 * n {
          assert i / 4 < n;
          assert init[i / 4] == splats[i / 4];
        } else {
          assert i / 4 == n;
        }
      }
      forall i | 0 <= i < |b.triangles|
        ensures b.triangles[i] == 4 * (i / 6) + QuadIndices[i % 6]
      {
        if i >= 6 * n {
          assert i / 6 == n;
        }
      }
    }
  }

  /** N triangle splats give 3N vertices and 3N indices, the indices being
      0, 1, ..., 3N-1 in order; the k-th splat owns vertices 3k..3k+2. */
  lemma {:induction false} TrianglesLayout(splats: seq<Splat>, rootHalf: real)
    ensures var b := TrianglesBuffers(splats, rootHalf);
      WellFormed(b) && |b.vertices| == 3 * |splats| && |b.triangles| == 3 * |splats| &&
      (forall i :: 0 <= i < |b.vertices| ==>
         b.vertices[i] == splats[i / 3].position && b.colors32[i] == splats[i / 3].color &&
         b.uvrs[i] == TriangleUVRs(splats[i / 3].radius, rootHalf)[i % 3]) &&
      (forall i :: 0 <= i < |b.triangles| ==> b.triangles[i] == i)
  {
    if splats != [] {
      var n := |splats| - 1;
      var init := splats[..n];
      TrianglesLayout(init, rootHalf);
      var b0 := TrianglesBuffers(init, rootHalf);
      var b := TrianglesBuffers(splats, rootHalf);
      assert b == WithTriangle(b0, splats[n].position, splats[n].color, splats[n].radius, rootHalf);
      forall i | 0 <= i < |b.vertices|
        ensures b.vertices[i] == splats[i / 3].position && b.colors32[i] == splats[i / 3].color
        ensures b.uvrs[i] == TriangleUVRs(splats[i / 3].radius, rootHalf)[i % 3]
      {
        if i < 3 * n {
          assert i / 3 < n;
          assert init[i / 3] == splats[i / 3];
        } else {
          assert i / 3 == n;
        }
      }
    }
  }

  // ---------------------------------------------------------------------------
  // List capacity
  // ---------------------------------------------------------------------------

  predicate IsInt32(n: int)
  {
    -0x8000_0000 <= n < 0x8000_0000
  }

  /** Unchecked 32-bit two's-complement wrap-around of a C# int expression */
  function Int32Wrap(x: int): (r: int)
    ensures IsInt32(r)
    ensures (r - x) % 0x1_0000_0000 == 0
    ensures IsInt32(x) ==> r == x
  {
    var m := x % 0x1_0000_0000;
    if m < 0x8000_0000 then m else m - 0x1_0000_0000
  }

  /** The capacity of a List<T> holding `count` items after one more Add:
      a full list grows to 4 when empty and doubles otherwise. */
  function CapacityForAdd(capacity: nat, count: nat): nat
  {
    if count < capacity then capacity
    else if capacity == 0 then 4
    else 2 * capacity
  }

  /** The capacity after `k` Adds to a list of `count` items */
  function CapacityAfterAdds(capacity: nat, count: nat, k: nat): (r: nat)
    ensures count <= capacity ==> count + k <= r
    ensures count + k <= capacity ==> r == capacity
  {
    if k == 0 then capacity
    else CapacityForAdd(CapacityAfterAdds(capacity, count, k - 1), count + k - 1)
  }

  // ---------------------------------------------------------------------------
  // The component
  // ---------------------------------------------------------------------------

  /** The PointCloudDrawing component. The three per-vertex lists always hold
      the same number of items and are given the same capacity, so one field
      `capacity` stands for the capacity of each of them. The component's
      `enabled` flag is the dirty bit: the engine calls Update on it each
      frame while it is set. */
  class PointCloudDrawing {
    var mesh: Mesh
    var vertices: seq<Vector3>
    var uvrs: seq<Vector3>
    var colors32: seq<Color32>
    var triangles: seq<int>
    var capacity: nat
    var rootHalf: real
    var enabled: bool

    /** The buffers as a value */
    function Contents(): Buffers
      reads this
    {
      Buffers(vertices, colors32, uvrs, triangles)
    }

    ghost predicate Valid()
      reads this
    {
      WellFormed(Contents()) && |vertices| <= capacity
    }

    /** AddComponent<PointCloudDrawing>(): the field initialisers run and the
        component starts enabled. */
    constructor ()
      ensures Valid() && Contents() == NoBuffers && capacity == 0
      ensures enabled && mesh == EmptyMesh && rootHalf == 0.0
    {
      mesh := EmptyMesh;
      vertices, uvrs, colors32, triangles := [], [], [], [];
      capacity := 0;
      rootHalf := 0.0;
      enabled := true;
    }

    /** Create(parent, numPoints, material): a new component, then Init.
        `sqrtHalf` is the engine's Mathf.Sqrt(0.5f). `ok` is false when Init
        threw from SetCapacity. */
    static method Create(numPoints: int, sqrtHalf: real) returns (d: PointCloudDrawing, ok: bool)
      requires IsInt32(numPoints)
      ensures fresh(d) && d.Valid() && d.Contents() == NoBuffers && d.enabled
      ensures d.mesh == EmptyMesh && d.rootHalf == sqrtHalf
      ensures ok <==> 0 <= Int32Wrap(numPoints * 4)
      ensures d.capacity == if ok then Int32Wrap(numPoints * 4) else 0
    {
      d := new PointCloudDrawing();
      ok := d.Init(numPoints, sqrtHalf);
    }

    /** SetCapacity(numPoints): each per-vertex list's Capacity becomes
        numPoints * 4, computed in wrapping 32-bit arithmetic. The setter of
        List<T>.Capacity throws when the new capacity is below the count;
        then `ok` is false and nothing changes. */
    method SetCapacity(numPoints: int) returns (ok: bool)
      requires Valid() && IsInt32(numPoints)
      modifies this`capacity
      ensures Valid() && Contents() == old(Contents())
      ensures ok <==> |vertices| <= Int32Wrap(numPoints * 4)
      ensures capacity == if ok then Int32Wrap(numPoints * 4) else old(capacity)
    {
      var requested := Int32Wrap(numPoints * 4);
      if requested < |vertices| {
        ok := false;
      } else {
        capacity := requested;
        ok := true;
      }
    }

    /** Init(numPoints, material) without the engine objects: a new mesh, the
        square root of one half, and the capacity. */
    method Init(numPoints: int, sqrtHalf: real) returns (ok: bool)
      requires Valid() && IsInt32(numPoints)
      modifies this
      ensures Valid() && Contents() == old(Contents()) && enabled == old(enabled)
      ensures mesh == EmptyMesh && rootHalf == sqrtHalf
      ensures ok <==> |vertices| <= Int32Wrap(numPoints * 4)
      ensures capacity == if ok then Int32Wrap(numPoints * 4) else old(capacity)
    {
      mesh := EmptyMesh;
      rootHalf := sqrtHalf;
      ok := SetCapacity(numPoints);
    }

    /** AddPoint: four copies of the point and color, the quad's corner UVs
        with the radius, and the quad's two triangles; sets the dirty bit. */
    method AddPoint(point: Vector3, color: Color32, radius: real)
      requires Valid()
      modifies this
      ensures Valid()
      ensures Contents() == WithPoint(old(Contents()), point, color, radius)
      ensures capacity == CapacityAfterAdds(old(capacity), old(|vertices|), 4)
      ensures enabled && mesh == old(mesh) && rootHalf == old(rootHalf)
    {
      ghost var target := WithPoint(Contents(), point, color, radius);
      assert WellFormed(target);
      var start := |vertices|;
      for idx := 0 to 4
        invariant vertices == old(vertices) + seq(idx, _ => point)
        invariant colors32 == old(colors32) + seq(idx, _ => color)
        invariant capacity == CapacityAfterAdds(old(capacity), start, idx)
        invariant uvrs == old(uvrs) && triangles == old(triangles)
        invariant mesh == old(mesh) && rootHalf == old(rootHalf)
      {
        capacity := CapacityForAdd(capacity, |vertices|);
        vertices := vertices + [point];
        colors32 := colors32 + [color];
      }
      uvrs := uvrs + [Vector3(0.0, 0.0, radius)];
      uvrs := uvrs + [Vector3(0.0, 1.0, radius)];
      uvrs := uvrs + [Vector3(1.0, 0.0, radius)];
      uvrs := uvrs + [Vector3(1.0, 1.0, radius)];
      assert vertices == old(vertices) + [point, point, point, point];
      assert colors32 == old(colors32) + [color, color, color, color];
      assert uvrs == old(uvrs) + QuadUVRs(radius);
      triangles := triangles + [start + 0];
      triangles := triangles + [start + 1];
      triangles := triangles + [start + 2];
      triangles := triangles + [start + 3];
      triangles := triangles + [start + 2];
      triangles := triangles + [start + 1];
      assert triangles == old(triangles) + [start + 0, start + 1, start + 2, start + 3, start + 2, start + 1];
      assert Contents() == target;
      SetDirty();
    }

    /** AddTriangle: three copies of the point and color, the triangle splat's
        corner UVs with the radius, and one triangle; sets the dirty bit. */
    method AddTriangle(point: Vector3, color: Color32, radius: real)
      requires Valid()
      modifies this
      ensures Valid()
      ensures Contents() == WithTriangle(old(Contents()), point, color, radius, rootHalf)
      ensures capacity == CapacityAfterAdds(old(capacity), old(|vertices|), 3)
      ensures enabled && mesh == old(mesh) && rootHalf == old(rootHalf)
    {
      ghost var target := WithTriangle(Contents(), point, color, radius, rootHalf);
      assert WellFormed(target);
      var start := |vertices|;
      for idx := 0 to 3
        invariant vertices == old(vertices) + seq(idx, _ => point)
        invariant colors32 == old(colors32) + seq(idx, _ => color)
        invariant capacity == CapacityAfterAdds(old(capacity), start, idx)
        invariant uvrs == old(uvrs) && triangles == old(triangles)
        invariant mesh == old(mesh) && rootHalf == old(rootHalf)
      {
        capacity := CapacityForAdd(capacity, |vertices|);
        vertices := vertices + [point];
        colors32 := colors32 + [color];
      }
      uvrs := uvrs + [Vector3(0.5 - rootHalf, 0.5, radius)];
      uvrs := uvrs + [Vector3(1.0, 1.5 + rootHalf, radius)];
      uvrs := uvrs + [Vector3(1.0, -0.5 - rootHalf, radius)];
      assert vertices == old(vertices) + [point, point, point];
      assert colors32 == old(colors32) + [color, color, color];
      assert uvrs == old(uvrs) + TriangleUVRs(radius, rootHalf);
      triangles := triangles + [start + 0];
      triangles := triangles + [start + 1];
      triangles := triangles + [start + 2];
      assert triangles == old(triangles) + [start + 0, start + 1, start + 2];
      assert Contents() == target;
      SetDirty();
    }

    /** ClearBuffers: empties the four lists; List<T>.Clear keeps the capacity. */
    method ClearBuffers()
      requires Valid()
      modifies this`vertices, this`colors32, this`uvrs, this`triangles
      ensures Valid() && Contents() == NoBuffers && capacity == old(capacity)
    {
      vertices := [];
      colors32 := [];
      uvrs := [];
      triangles := [];
    }

    /** Clear: empties the buffers and sets the dirty bit. */
    method Clear()
      requires Valid()
      modifies this
      ensures Valid() && Contents() == NoBuffers && enabled
      ensures capacity == old(capacity) && mesh == old(mesh) && rootHalf == old(rootHalf)
    {
      ClearBuffers();
      SetDirty();
    }

    /** Bake: the mesh takes the current buffers, the buffers are emptied and
        the dirty bit is cleared. */
    method Bake()
      requires Valid()
      modifies this
      ensures Valid() && mesh == MeshOf(old(Contents()))
      ensures Contents() == NoBuffers && !enabled
      ensures capacity == old(capacity) && rootHalf == old(rootHalf)
    {
      GenerateMesh();
      ClearBuffers();
      enabled := false;
    }

    /** GenerateMesh: the mesh is cleared and refilled from the buffers. */
    method GenerateMesh()
      modifies this`mesh
      ensures mesh == MeshOf(Contents())
    {
      mesh := EmptyMesh;
      var format := if |vertices| < 65536 then UInt16 else UInt32;
      mesh := mesh.(indexFormat := format);
      mesh := mesh.(vertices := vertices);
      mesh := mesh.(colors32 := colors32);
      mesh := mesh.(uvs := uvrs);
      mesh := mesh.(triangles := triangles);
    }

    /** SetDirty: enables the component, so that Update runs. */
    method SetDirty()
      modifies this`enabled
      ensures enabled
    {
      enabled := true;
    }

    /** Update: regenerates the mesh from the buffers and clears the dirty bit. */
    method Update()
      requires Valid()
      modifies this
      ensures Valid() && mesh == MeshOf(Contents()) && !enabled
      ensures Contents() == old(Contents()) && capacity == old(capacity) && rootHalf == old(rootHalf)
    {
      GenerateMesh();
      enabled := false;
    }
  }

  /** After Bake, adding a point sets the dirty bit again and the next Update
      shows only the new point: the baked buffers do not come back. */
  method BakeThenAddPoint(d: PointCloudDrawing, point: Vector3, color: Color32, radius: real)
    requires d.Valid()
    modifies d
    ensures d.Valid() && !d.enabled
    ensures d.Contents() == WithPoint(NoBuffers, point, color, radius)
    ensures d.mesh == MeshOf(WithPoint(NoBuffers, point, color, radius))
  {
    d.Bake();
    d.AddPoint(point, color, radius);
    assert d.enabled;
    d.Update();
  }
}
