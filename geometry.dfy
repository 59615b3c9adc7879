/** The three.js value types the projection engine works on, over exact reals. */
module Geometry {
  import opened Wrappers

  datatype Vec3 = Vec3(x: real, y: real, z: real)

  /** A `Line3`: a segment from `start` to `end`. */
  datatype Line3 = Line3(start: Vec3, end: Vec3)

  datatype Triangle = Triangle(a: Vec3, b: Vec3, c: Vec3)

  /** An axis-aligned `Box3`. */
  datatype Box3 = Box3(min: Vec3, max: Vec3)

  /** One entry `[d0, d1]` of an edge's hidden-overlap list: a range of the edge's parameter. */
  datatype Interval = Interval(d0: real, d1: real)

  /** An entry of `EdgeSet.edges`: the six numbers `[x0, y0, z0, x1, y1, z1]` of one output line. */
  datatype Segment = Segment(x0: real, y0: real, z0: real, x1: real, y1: real, z1: real)

  /** A `BufferGeometry` reduced to what the engine reads: vertex positions and an optional index. */
  datatype Mesh = Mesh(position: seq<Vec3>, index: Option<seq<nat>>)

  /** A `MeshBVH`: the engine only reads back the geometry it was built from. */
  datatype Bvh = Bvh(geometry: Mesh)

  function Min2(a: real, b: real): real { if a <= b then a else b }

  function Max2(a: real, b: real): real { if a >= b then a else b }

  function Sub(a: Vec3, b: Vec3): Vec3 { Vec3(a.x - b.x, a.y - b.y, a.z - b.z) }

  function Add(a: Vec3, b: Vec3): Vec3 { Vec3(a.x + b.x, a.y + b.y, a.z + b.z) }

  function Dot(a: Vec3, b: Vec3): real { a.x * b.x + a.y * b.y + a.z * b.z }

  /** `Vector3.distanceToSquared`. */
  function DistanceSq(a: Vec3, b: Vec3): real { Dot(Sub(a, b), Sub(a, b)) }

  /** `Line3.distanceSq`: the squared length of the segment. */
  function LengthSq(l: Line3): real { DistanceSq(l.start, l.end) }

  /** `Line3.delta`: the vector from start to end. */
  function Delta(l: Line3): Vec3 { Sub(l.end, l.start) }

  function LowestY(l: Line3): real { Min2(l.start.y, l.end.y) }

  function HighestY(l: Line3): real { Max2(l.start.y, l.end.y) }

  function TriangleLowestY(t: Triangle): real { Min2(t.a.y, Min2(t.b.y, t.c.y)) }

  function TriangleHighestY(t: Triangle): real { Max2(t.a.y, Max2(t.b.y, t.c.y)) }

  /** `Box3.containsPoint`: bounds are inclusive on every axis. */
  predicate ContainsPoint(box: Box3, p: Vec3) {
    box.min.x <= p.x <= box.max.x &&
    box.min.y <= p.y <= box.max.y &&
    box.min.z <= p.z <= box.max.z
  }
}
