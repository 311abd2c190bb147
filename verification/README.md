# ROS–Unity coordinate spaces and point-cloud buffers, in Dafny

This project models two parts of the Unity robotics packages (ROS-TCP-Connector
and its message visualizations):

- **Coordinate spaces** (`coordinate_spaces.dfy`, module `CoordinateSpaces`).
  Unity's space RUF has x right, y up and z forward. The classes implementing
  `ICoordinateSpace` convert vectors and quaternions into RUF and out of it.
  FLU and FRD are the body frames of REP 103 ("Standard Units of Measure and
  Coordinate Conventions"). `ENULocal` inherits FLU and `NEDLocal` inherits FRD.
  `NED` and `ENU` delegate to `GeometryCompass`. The `From(self, selection)`
  extensions pick a space from the enumeration `CoordinateSpaceSelection`.
  An unknown value logs an error and falls back to RUF. The four overloads
  share one body, `FromSelection`, generic in the message and result types.
  Each class is a constructor of the datatype `SpaceClass`, and its four
  members are four dispatching functions. The compass is a `Compass` value
  holding eight functions, one per compass conversion.
  The conversions are specified against an independent reference:
  `Along(axes, v, d)` reads the signed length of `v` along a physical direction
  (right, left, up, down, forward, back) in a given axis convention. Every fixed
  conversion preserves every physical direction. The round trips, and the rule
  "a quaternion's axis converts like a vector, its scalar part is negated",
  are proved from that reference.
- **Point-cloud buffer builder** (`point_cloud_drawing.dfy`, module `PointCloud`).
  The component `PointCloudDrawing` keeps four parallel lists: vertices,
  colors, (u, v, radius) attributes and triangle indices. `AddPoint` appends a
  quad and `AddTriangle` appends a triangle splat. `Clear` and `Bake` empty the
  lists. `Update` and `Bake` rebuild the mesh, and the component's `enabled`
  flag is the dirty bit. The class has the lists as `seq` fields, plus
  `capacity`, `rootHalf`, `enabled` and `mesh`. Each method's new state is
  stated through pure functions on the `Buffers` value: `WithPoint`,
  `WithTriangle` and `MeshOf`. Lemmas about those functions give the invariant
  (parallel lengths, whole triangles, indices in range), the prefix property and
  the layout after N calls.
  `geometry.dfy` (module `Geometry`) holds `Vector3`, `Quaternion` and `Color32`.

Components are `real`. The conversions only permute components and negate them,
so every equality is exact.

Three facts about the code that the model keeps:

- The AddTriangle corner attributes are `0.5 - rootHalf`, `1.5 + rootHalf` and
  `-0.5 - rootHalf`, with `rootHalf = Mathf.Sqrt(0.5f)`.
- The `List<T>.Capacity` setter throws when the wrapped `numPoints * 4` is
  below the count. `SetCapacity` then reports `ok == false` and changes nothing.
- After `Bake`, `AddPoint` sets `enabled` again, and the next `Update` shows
  only the new points.

## Model

| member | source | states |
|---|---|---|
| `CoordinateSpaces.FluFromRUF` | com.unity.robotics.ros-tcp-connector/Runtime/ROSGeometry/CoordinateSpaces.cs:32 | the FLU result reads, along each physical direction, what the RUF vector reads along it |
| `CoordinateSpaces.FluToRUF` | com.unity.robotics.ros-tcp-connector/Runtime/ROSGeometry/CoordinateSpaces.cs:33 | the RUF result reads, along each physical direction, what the FLU vector reads along it |
| `CoordinateSpaces.FluQuaternionFromRUF` | com.unity.robotics.ros-tcp-connector/Runtime/ROSGeometry/CoordinateSpaces.cs:34 | the axis part is carried into FLU direction by direction; the scalar part is negated |
| `CoordinateSpaces.FluQuaternionToRUF` | com.unity.robotics.ros-tcp-connector/Runtime/ROSGeometry/CoordinateSpaces.cs:35 | the axis part is carried back into RUF direction by direction; the scalar part is negated |
| `CoordinateSpaces.FrdFromRUF` | com.unity.robotics.ros-tcp-connector/Runtime/ROSGeometry/CoordinateSpaces.cs:42 | the FRD result reads, along each physical direction, what the RUF vector reads along it |
| `CoordinateSpaces.FrdToRUF` | com.unity.robotics.ros-tcp-connector/Runtime/ROSGeometry/CoordinateSpaces.cs:43 | the RUF result reads, along each physical direction, what the FRD vector reads along it |
| `CoordinateSpaces.FrdQuaternionFromRUF` | com.unity.robotics.ros-tcp-connector/Runtime/ROSGeometry/CoordinateSpaces.cs:44 | the axis part is carried into FRD direction by direction; the scalar part is negated |
| `CoordinateSpaces.FrdQuaternionToRUF` | com.unity.robotics.ros-tcp-connector/Runtime/ROSGeometry/CoordinateSpaces.cs:45 | the axis part is carried back into RUF direction by direction; the scalar part is negated |
| `CoordinateSpaces.ConvertFromRUF` | com.unity.robotics.ros-tcp-connector/Runtime/ROSGeometry/CoordinateSpaces.cs:22-85 | for every space other than NED and ENU, the result denotes the same physical vector in that space's axis convention |
| `CoordinateSpaces.ConvertToRUF` | com.unity.robotics.ros-tcp-connector/Runtime/ROSGeometry/CoordinateSpaces.cs:22-85 | for every space other than NED and ENU, the RUF result denotes the same physical vector as the input |
| `CoordinateSpaces.ConvertQuaternionFromRUF` | com.unity.robotics.ros-tcp-connector/Runtime/ROSGeometry/CoordinateSpaces.cs:22-85 | for the fixed spaces, the axis part denotes the same physical axis; the scalar part is negated except in RUF, where the quaternion is returned unchanged |
| `CoordinateSpaces.ConvertQuaternionToRUF` | com.unity.robotics.ros-tcp-connector/Runtime/ROSGeometry/CoordinateSpaces.cs:22-85 | for the fixed spaces, the axis part denotes the same physical axis in RUF; the scalar part is negated except in RUF, where the quaternion is returned unchanged |
| `CoordinateSpaces.RufIsIdentity` | com.unity.robotics.ros-tcp-connector/Runtime/ROSGeometry/CoordinateSpaces.cs:24-27 | all four RUF conversions return their input |
| `CoordinateSpaces.FixedVectorRoundTrip` | com.unity.robotics.ros-tcp-connector/Runtime/ROSGeometry/CoordinateSpaces.cs:30-48 | in RUF, FLU, FRD, ENULocal and NEDLocal, ToRUF(FromRUF(v)) == v and FromRUF(ToRUF(v)) == v exactly |
| `CoordinateSpaces.FixedQuaternionRoundTrip` | com.unity.robotics.ros-tcp-connector/Runtime/ROSGeometry/CoordinateSpaces.cs:30-48 | the same for quaternions, componentwise, with w negated twice |
| `CoordinateSpaces.RoundTrip` | com.unity.robotics.ros-tcp-connector/Runtime/ROSGeometry/CoordinateSpaces.cs:50-85 | all seven spaces round-trip vectors and quaternions both ways; NED and ENU do so when the compass conversions invert each other (a fixed heading) |
| `CoordinateSpaces.LocalAliases` | com.unity.robotics.ros-tcp-connector/Runtime/ROSGeometry/CoordinateSpaces.cs:38-48 | ENULocal gives FLU's results and NEDLocal gives FRD's results in all four conversions |
| `CoordinateSpaces.FixedIgnoresCompass` | com.unity.robotics.ros-tcp-connector/Runtime/ROSGeometry/CoordinateSpaces.cs:22-48 | RUF, FLU, FRD and the two local aliases give the same results whatever the compass heading |
| `CoordinateSpaces.QuaternionFollowsVector` | com.unity.robotics.ros-tcp-connector/Runtime/ROSGeometry/CoordinateSpaces.cs:30-46 | in FLU, FRD and their aliases, a quaternion's axis part converts as the vector conversion does, and w is negated |
| `CoordinateSpaces.Switch` | com.unity.robotics.ros-tcp-connector/Runtime/ROSGeometry/CoordinateSpaces.cs:164-183 | in the switch's case order, each of the seven enumeration values selects the class of the same name (its position in the declaration at lines 87-96) without an error; any other value takes the default branch, which logs an error and selects RUF |
| `CoordinateSpaces.FromSelection` | com.unity.robotics.ros-tcp-connector/Runtime/ROSGeometry/CoordinateSpaces.cs:162-256 | for each of the four overloads (PointMsg, Point32Msg, Vector3Msg, QuaternionMsg), the result is From<C> for the space the selection names, or for RUF; an error is logged iff the selection names no member |
| `PointCloud.WithPoint` | com.unity.robotics.message-visualizations/Runtime/Scripts/PointCloudDrawing.cs:50-72 | adding a point keeps the old lists as prefixes and preserves the buffer invariant |
| `PointCloud.WithTriangle` | com.unity.robotics.message-visualizations/Runtime/Scripts/PointCloudDrawing.cs:74-92 | adding a triangle keeps the old lists as prefixes and preserves the buffer invariant |
| `PointCloud.MeshOf` | com.unity.robotics.message-visualizations/Runtime/Scripts/PointCloudDrawing.cs:116-124 | the mesh holds the buffers unchanged; 16-bit indices iff fewer than 65536 vertices; the chosen format addresses every vertex and every index |
| `PointCloud.PointsLayout` | com.unity.robotics.message-visualizations/Runtime/Scripts/PointCloudDrawing.cs:50-72 | N points give well-formed buffers with 4N vertices and 6N indices; point k owns vertices 4k..4k+3 (its position, color and corner UVs) and indices 4k+[0,1,2,3,2,1] |
| `PointCloud.TrianglesLayout` | com.unity.robotics.message-visualizations/Runtime/Scripts/PointCloudDrawing.cs:74-92 | N triangle splats give well-formed buffers with 3N vertices and the indices 0..3N-1; splat k owns vertices 3k..3k+2 |
| `PointCloud.Int32Wrap` | com.unity.robotics.message-visualizations/Runtime/Scripts/PointCloudDrawing.cs:29-31 | the C# product numPoints * 4 wraps into the 32-bit range, congruent modulo 2^32, unchanged when it fits |
| `PointCloud.CapacityAfterAdds` | com.unity.robotics.message-visualizations/Runtime/Scripts/PointCloudDrawing.cs:54-58 | after k Adds the list's capacity holds all items, and it is unchanged when the reserved capacity already sufficed |
| `PointCloud.PointCloudDrawing.constructor` | com.unity.robotics.message-visualizations/Runtime/Scripts/PointCloudDrawing.cs:10-15 | a new component has empty buffers, zero capacity and is enabled |
| `PointCloud.PointCloudDrawing.Create` | com.unity.robotics.message-visualizations/Runtime/Scripts/PointCloudDrawing.cs:17-25 | a fresh, valid, empty, enabled drawing with an empty mesh; capacity 4n when Init does not throw |
| `PointCloud.PointCloudDrawing.SetCapacity` | com.unity.robotics.message-visualizations/Runtime/Scripts/PointCloudDrawing.cs:27-32 | buffers untouched; capacity becomes the wrapped 4n, or the call fails and nothing changes when that is below the vertex count |
| `PointCloud.PointCloudDrawing.Init` | com.unity.robotics.message-visualizations/Runtime/Scripts/PointCloudDrawing.cs:34-48 | a new empty mesh, rootHalf set, buffers unchanged, capacity as SetCapacity |
| `PointCloud.PointCloudDrawing.AddPoint` | com.unity.robotics.message-visualizations/Runtime/Scripts/PointCloudDrawing.cs:50-72 | the buffers become WithPoint of the old ones, the invariant is kept, the dirty bit is set and the mesh is untouched |
| `PointCloud.PointCloudDrawing.AddTriangle` | com.unity.robotics.message-visualizations/Runtime/Scripts/PointCloudDrawing.cs:74-92 | the buffers become WithTriangle of the old ones, the invariant is kept, the dirty bit is set and the mesh is untouched |
| `PointCloud.PointCloudDrawing.ClearBuffers` | com.unity.robotics.message-visualizations/Runtime/Scripts/PointCloudDrawing.cs:94-100 | all four buffers are empty and the capacity is kept |
| `PointCloud.PointCloudDrawing.Clear` | com.unity.robotics.message-visualizations/Runtime/Scripts/PointCloudDrawing.cs:102-106 | all four buffers are empty, the dirty bit is set and the mesh is untouched |
| `PointCloud.PointCloudDrawing.Bake` | com.unity.robotics.message-visualizations/Runtime/Scripts/PointCloudDrawing.cs:108-114 | the mesh is MeshOf the buffers before the call; the buffers are then empty and the dirty bit is clear |
| `PointCloud.PointCloudDrawing.GenerateMesh` | com.unity.robotics.message-visualizations/Runtime/Scripts/PointCloudDrawing.cs:116-124 | the mesh becomes MeshOf the current buffers and nothing else changes |
| `PointCloud.PointCloudDrawing.SetDirty` | com.unity.robotics.message-visualizations/Runtime/Scripts/PointCloudDrawing.cs:126-129 | the dirty bit is set and nothing else changes |
| `PointCloud.PointCloudDrawing.Update` | com.unity.robotics.message-visualizations/Runtime/Scripts/PointCloudDrawing.cs:131-135 | the mesh becomes MeshOf the current buffers, which are kept; the dirty bit is clear |
| `PointCloud.BakeThenAddPoint` | com.unity.robotics.message-visualizations/Runtime/Scripts/PointCloudDrawing.cs:108-135 | after Bake, an AddPoint sets the dirty bit and the next Update's mesh holds only the new point |

## Left out

- `NED` and `ENU` conversions: `GeometryCompass` is not part of this model. Its
  four pairs of conversions are the fields of a `Compass` parameter. Its global
  heading is whatever that value captures.
- `Vector3<C>`, `Quaternion<C>` and `toUnity` are not part of this model. So the
  generic `From<C>`, `To<C>` and `As<C>` extensions are not modelled. The four
  `From(self, selection)` overloads take the generic `From<C>` as a parameter.
  They are proved to call it with the right space, not how it converts.
- The `Transform` extensions `To<C>` and `ToLocal<C>` are left out because they
  read engine objects.
- The `(float)` narrowing of the double message fields is left out, and so is
  all 32-bit float rounding: components are exact reals.
- `Mathf.Sqrt(0.5f)` is not computed. `Init` receives it as the parameter
  `sqrtHalf`.
- `Debug.LogError` is modelled as the `errorLogged` flag. The message text is
  not modelled.
- Engine plumbing in `Create` and `Init` is left out: the parent GameObject, the
  material, `BasicDrawingManager.instance`, `MeshFilter` and `MeshRenderer`.
  The `Mesh` object is a value snapshot of the data the component writes into
  it.
- PointCloud.PointCloudDrawing.constructor: `m_Mesh` is null until `Init` runs,
  but the model starts with an empty mesh. So the null reference error of
  calling `Update` or `Bake` before `Init` is not modelled.
- The engine's per-frame call of `Update` only while the component is enabled
  is not a member. `Update` itself always regenerates the mesh, as in the code.
- `List<T>` growth is modelled only as doubling from 4. The platform's cap on
  the largest array length is not modelled. The capacity of `m_Triangles` is
  never set by the code and is not modelled.
- The obsolete interface `CoordinateSpace` only renames `ICoordinateSpace` and
  is left out.
