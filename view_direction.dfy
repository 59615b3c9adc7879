/**
 * The view-direction dispatch of `ProjectionGenerator.generate`: the cloned geometry is turned about
 * the centre of its bounding box so that the requested view looks down the y axis. The rotations by
 * -pi/2 are written with their exact matrix entries (cos = 0, sin = -1).
 */
module ViewDirection {
  import opened Geometry

  const TOP: string := "top"
  const FRONT: string := "front"
  const LEFT: string := "left"

  /** The generator's default `projectionDirection`. */
  const DEFAULT_DIRECTION: string := TOP

  datatype Axis = X | Y | Z

  function Coord(v: Vec3, a: Axis): real {
    match a
    case X => v.x
    case Y => v.y
    case Z => v.z
  }

  /** The lower bound of a non-empty point set along one axis. */
  function MinAlong(ps: seq<Vec3>, a: Axis): (m: real)
    requires |ps| > 0
    ensures forall k :: 0 <= k < |ps| ==> m <= Coord(ps[k], a)
    ensures exists k :: 0 <= k < |ps| && m == Coord(ps[k], a)
    decreases |ps|
  {
    if |ps| == 1 then Coord(ps[0], a)
    else
      var rest := MinAlong(ps[1..], a);
      assert forall k :: 1 <= k < |ps| ==> ps[1..][k - 1] == ps[k];
      Min2(Coord(ps[0], a), rest)
  }

  /** The upper bound of a non-empty point set along one axis. */
  function MaxAlong(ps: seq<Vec3>, a: Axis): (m: real)
    requires |ps| > 0
    ensures forall k :: 0 <= k < |ps| ==> Coord(ps[k], a) <= m
    ensures exists k :: 0 <= k < |ps| && m == Coord(ps[k], a)
    decreases |ps|
  {
    if |ps| == 1 then Coord(ps[0], a)
    else
      var rest := MaxAlong(ps[1..], a);
      assert forall k :: 1 <= k < |ps| ==> ps[1..][k - 1] == ps[k];
      Max2(Coord(ps[0], a), rest)
  }

  /** The middle of the bounding interval along one axis. */
  function MidAlong(ps: seq<Vec3>, a: Axis): (m: real)
    requires |ps| > 0
    ensures MinAlong(ps, a) <= m <= MaxAlong(ps, a)
    ensures m - MinAlong(ps, a) == MaxAlong(ps, a) - m
  {
    (MinAlong(ps, a) + MaxAlong(ps, a)) / 2.0
  }

  /**
   * `Box3.setFromBufferAttribute` followed by `getCenter`: the middle of the bounding box, and the
   * origin for an empty box.
   */
  function BoxCenter(ps: seq<Vec3>): (c: Vec3)
    ensures |ps| == 0 ==> c == Vec3(0.0, 0.0, 0.0)
    ensures |ps| > 0 ==>
      MinAlong(ps, X) <= c.x <= MaxAlong(ps, X) &&
      MinAlong(ps, Y) <= c.y <= MaxAlong(ps, Y) &&
      MinAlong(ps, Z) <= c.z <= MaxAlong(ps, Z)
  {
    if |ps| == 0 then Vec3(0.0, 0.0, 0.0)
    else Vec3(MidAlong(ps, X), MidAlong(ps, Y), MidAlong(ps, Z))
  }

  /** `makeRotationX(-PI / 2)` applied to a vector. */
  function RotateFront(v: Vec3): Vec3 { Vec3(v.x, v.z, -v.y) }

  /** `makeRotationZ(-PI / 2)` applied to a vector. */
  function RotateLeft(v: Vec3): Vec3 { Vec3(v.y, -v.x, v.z) }

  /** Translate by `-c`, rotate, translate back by `c`: the three `applyMatrix4` calls for one vertex. */
  function Turn(v: Vec3, c: Vec3, front: bool): Vec3 {
    Add(c, if front then RotateFront(Sub(v, c)) else RotateLeft(Sub(v, c)))
  }

  /** Every vertex turned about the centre of the bounding box. */
  function Turned(ps: seq<Vec3>, front: bool): (r: seq<Vec3>)
    ensures |r| == |ps|
    ensures forall k :: 0 <= k < |ps| ==> r[k] == Turn(ps[k], BoxCenter(ps), front)
  {
    var c := BoxCenter(ps);
    seq(|ps|, k requires 0 <= k < |ps| => Turn(ps[k], c, front))
  }

  /**
   * The `switch (projectionDirection)`: only "front" and "left" move the vertices; every other value,
   * "top" and any other string alike, leaves the geometry as it is.
   */
  function Reorient(dir: string, ps: seq<Vec3>): (r: seq<Vec3>)
    ensures |r| == |ps|
    ensures dir != FRONT && dir != LEFT ==> r == ps
    ensures dir == FRONT ==> forall k :: 0 <= k < |ps| ==>
      r[k].x == ps[k].x &&
      r[k].y - BoxCenter(ps).y == ps[k].z - BoxCenter(ps).z &&
      r[k].z - BoxCenter(ps).z == BoxCenter(ps).y - ps[k].y
    ensures dir == LEFT ==> forall k :: 0 <= k < |ps| ==>
      r[k].x - BoxCenter(ps).x == ps[k].y - BoxCenter(ps).y &&
      r[k].y - BoxCenter(ps).y == BoxCenter(ps).x - ps[k].x &&
      r[k].z == ps[k].z
  {
    if dir == FRONT then Turned(ps, true)
    else if dir == LEFT then Turned(ps, false)
    else ps
  }

  /** If one axis of `qs` is `off + s * (axis a of ps)` pointwise, its bounds follow those of `ps`. */
  lemma {:induction false} BoundsOfAffine(ps: seq<Vec3>, a: Axis, qs: seq<Vec3>, b: Axis, off: real, flip: bool)
    requires |ps| == |qs| > 0
    requires forall k :: 0 <= k < |ps| ==>
      Coord(qs[k], b) == (if flip then off - Coord(ps[k], a) else off + Coord(ps[k], a))
    ensures !flip ==> MinAlong(qs, b) == off + MinAlong(ps, a) && MaxAlong(qs, b) == off + MaxAlong(ps, a)
    ensures flip ==> MinAlong(qs, b) == off - MaxAlong(ps, a) && MaxAlong(qs, b) == off - MinAlong(ps, a)
  {
    var lo, hi := MinAlong(ps, a), MaxAlong(ps, a);
    var qlo, qhi := MinAlong(qs, b), MaxAlong(qs, b);
    var i :| 0 <= i < |ps| && lo == Coord(ps[i], a);
    var j :| 0 <= j < |ps| && hi == Coord(ps[j], a);
    var i' :| 0 <= i' < |qs| && qlo == Coord(qs[i'], b);
    var j' :| 0 <= j' < |qs| && qhi == Coord(qs[j'], b);
    assert qlo <= Coord(qs[i], b) && qlo <= Coord(qs[j], b);
    assert qhi >= Coord(qs[i], b) && qhi >= Coord(qs[j], b);
    assert lo <= Coord(ps[i'], a) <= hi && lo <= Coord(ps[j'], a) <= hi;
  }

  /** If one axis of `qs` is `off + s * (axis a of ps)` pointwise, so is its midpoint. */
  lemma MidOfAffine(ps: seq<Vec3>, a: Axis, qs: seq<Vec3>, b: Axis, off: real, flip: bool)
    requires |ps| == |qs| > 0
    requires forall k :: 0 <= k < |ps| ==>
      Coord(qs[k], b) == (if flip then off - Coord(ps[k], a) else off + Coord(ps[k], a))
    ensures MidAlong(qs, b) == (if flip then off - MidAlong(ps, a) else off + MidAlong(ps, a))
  {
    BoundsOfAffine(ps, a, qs, b, off, flip);
  }

  /** The bounding-box centre is the triple of the per-axis midpoints. */
  lemma CenterOfMids(ps: seq<Vec3>, c: Vec3)
    requires |ps| > 0
    requires MidAlong(ps, X) == c.x && MidAlong(ps, Y) == c.y && MidAlong(ps, Z) == c.z
    ensures BoxCenter(ps) == c
  {
  }

  /** The front turn keeps the bounding-box centre. */
  lemma {:induction false} FrontKeepsCenter(ps: seq<Vec3>)
    requires |ps| > 0
    ensures BoxCenter(Turned(ps, true)) == BoxCenter(ps)
  {
    var c := BoxCenter(ps);
    var r := Turned(ps, true);
    forall k | 0 <= k < |ps|
      ensures r[k] == Vec3(ps[k].x, (c.y - c.z) + ps[k].z, (c.z + c.y) - ps[k].y)
    {
      assert r[k] == Turn(ps[k], c, true);
    }
    MidOfAffine(ps, X, r, X, 0.0, false);
    MidOfAffine(ps, Z, r, Y, c.y - c.z, false);
    MidOfAffine(ps, Y, r, Z, c.z + c.y, true);
    CenterOfMids(r, c);
  }

  /** The left turn keeps the bounding-box centre. */
  lemma {:induction false} LeftKeepsCenter(ps: seq<Vec3>)
    requires |ps| > 0
    ensures BoxCenter(Turned(ps, false)) == BoxCenter(ps)
  {
    var c := BoxCenter(ps);
    var r := Turned(ps, false);
    forall k | 0 <= k < |ps|
      ensures r[k] == Vec3((c.x - c.y) + ps[k].y, (c.y + c.x) - ps[k].x, ps[k].z)
    {
      assert r[k] == Turn(ps[k], c, false);
    }
    MidOfAffine(ps, Y, r, X, c.x - c.y, false);
    MidOfAffine(ps, X, r, Y, c.y + c.x, true);
    MidOfAffine(ps, Z, r, Z, 0.0, false);
    CenterOfMids(r, c);
  }

  lemma {:induction false} TurnedKeepsCenter(ps: seq<Vec3>, front: bool)
    ensures BoxCenter(Turned(ps, front)) == BoxCenter(ps)
  {
    if |ps| > 0 {
      if front {
        FrontKeepsCenter(ps);
      } else {
        LeftKeepsCenter(ps);
      }
    }
  }

  /** The rotation is about the bounding-box centre, so the centre stays where it was. */
  lemma {:induction false} ReorientKeepsCenter(dir: string, ps: seq<Vec3>)
    ensures BoxCenter(Reorient(dir, ps)) == BoxCenter(ps)
  {
    if dir == FRONT {
      TurnedKeepsCenter(ps, true);
    } else if dir == LEFT {
      TurnedKeepsCenter(ps, false);
    }
  }

  lemma RotationsAreRigid(d: Vec3)
    ensures Dot(RotateFront(d), RotateFront(d)) == Dot(d, d)
    ensures Dot(RotateLeft(d), RotateLeft(d)) == Dot(d, d)
  {
  }

  /** Each vertex keeps its distance from the centre: the reorientation is rigid. */
  lemma ReorientIsRigid(dir: string, ps: seq<Vec3>, k: nat)
    requires k < |ps|
    ensures DistanceSq(Reorient(dir, ps)[k], BoxCenter(ps)) == DistanceSq(ps[k], BoxCenter(ps))
  {
    var c := BoxCenter(ps);
    var d := Sub(ps[k], c);
    RotationsAreRigid(d);
    if dir == FRONT {
      assert Sub(Reorient(dir, ps)[k], c) == RotateFront(d);
    } else if dir == LEFT {
      assert Sub(Reorient(dir, ps)[k], c) == RotateLeft(d);
    }
  }

  lemma TurnFourTimes(v: Vec3, c: Vec3, front: bool)
    ensures Turn(Turn(Turn(Turn(v, c, front), c, front), c, front), c, front) == v
  {
  }

  /** Turning a point set whose centre is `c` moves every vertex by `Turn(_, c, _)`, and keeps `c`. */
  lemma TurnedStep(ps: seq<Vec3>, front: bool, c: Vec3)
    requires BoxCenter(ps) == c
    ensures BoxCenter(Turned(ps, front)) == c
    ensures forall k :: 0 <= k < |ps| ==> Turned(ps, front)[k] == Turn(ps[k], c, front)
  {
    TurnedKeepsCenter(ps, front);
  }

  /** Four quarter turns about the same centre give back the original vertices. */
  lemma {:induction false} ReorientFourTimes(dir: string, ps: seq<Vec3>)
    ensures Reorient(dir, Reorient(dir, Reorient(dir, Reorient(dir, ps)))) == ps
  {
    if dir == FRONT || dir == LEFT {
      var front := dir == FRONT;
      var c := BoxCenter(ps);
      var r1 := Turned(ps, front);
      TurnedStep(ps, front, c);
      var r2 := Turned(r1, front);
      TurnedStep(r1, front, c);
      var r3 := Turned(r2, front);
      TurnedStep(r2, front, c);
      var r4 := Turned(r3, front);
      TurnedStep(r3, front, c);
      forall k | 0 <= k < |ps| ensures r4[k] == ps[k] {
        TurnFourTimes(ps[k], c, front);
      }
      assert r4 == ps;
    }
  }
}
