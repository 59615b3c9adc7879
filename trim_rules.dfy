/**
 * The decision rules of the trim loop in `ProjectionGenerator.generate`: the two shapecast
 * callbacks, the per-edge walk over the triangles the BVH offers, the skipping of degenerate
 * edges and the optional sort, as functions of the collaborators the engine calls.
 */
module TrimRules {
  import opened Wrappers
  import opened Geometry

  /** `DIST_THRESHOLD`: beneath segments shorter than this are culled. */
  const DIST_THRESHOLD: real := 0.0000000001

  /** How far below the line's lowest point `intersectsBounds` extends a box. */
  const BOUNDS_MARGIN: real := 0.000001

  /** What `appendOverlapRange` reports, with the overlap list as it leaves it. */
  datatype Appended = Appended(ok: bool, overlaps: seq<Interval>)

  /**
   * The functions the trimmer calls but whose code is not part of this model. Each is taken as
   * given, with no behaviour assumed beyond its signature. Helpers that fill an out-parameter and
   * return a flag (`trimToBeneathTriPlane`, `getProjectedLineOverlap`) return `Some` exactly when
   * they return true.
   */
  datatype Collaborators = Collaborators(
    isYProjectedLineDegenerate: Line3 -> bool,
    isYProjectedTriangleDegenerate: Triangle -> bool,
    isLineTriangleEdge: (Triangle, Line3) -> bool,
    trimToBeneathTriPlane: (Triangle, Line3) -> Option<Line3>,
    getProjectedLineOverlap: (Line3, Triangle) -> Option<Line3>,
    appendOverlapRange: (Line3, Line3, seq<Interval>) -> Appended,
    compressEdgeOverlaps: seq<Interval> -> seq<Interval>,
    /** `overlapsToLines(line, overlaps, target)`: the target list after the call. */
    overlapsToLines: (Line3, seq<Interval>, seq<Segment>) -> seq<Segment>,
    /** `generateEdges(geometry, UP_VECTOR, angleThreshold)`. */
    generateEdges: (Mesh, real) -> seq<Line3>,
    /** The edges `generateIntersectionEdges(bvh, iterationTime)` finally returns. */
    generateIntersectionEdges: (Bvh, real) -> seq<Line3>,
    /**
     * `Ray.intersectBox` for the ray from `origin` along `direction`. The model hands over the
     * line's delta itself: where a ray meets a box does not depend on the length of its direction,
     * so the `normalize()` (a square root) is left inside this oracle.
     */
    intersectBox: (Vec3, Vec3, Box3) -> Option<Vec3>,
    /** The triangles `bvh.shapecast` hands to `intersectsTriangle`, in order, given `intersectsBounds`. */
    shapecast: (Bvh, Box3 -> bool) -> seq<Triangle>
  )

  // ---------------------------------------------------------------------------------------------
  // intersectsBounds

  /** The box with its lower y bound pulled down to just below the line's lowest point. */
  function LowerBox(box: Box3, line: Line3): (r: Box3)
    ensures r.max == box.max && r.min.x == box.min.x && r.min.z == box.min.z
    ensures r.min.y <= box.min.y && r.min.y <= LowestY(line) - BOUNDS_MARGIN
    ensures r.min.y == box.min.y || r.min.y == LowestY(line) - BOUNDS_MARGIN
    ensures forall p :: ContainsPoint(box, p) ==> ContainsPoint(r, p)
  {
    Box3(Vec3(box.min.x, Min2(LowestY(line) - BOUNDS_MARGIN, box.min.y), box.min.z), box.max)
  }

  /**
   * `intersectsBounds`: enter the node when the line's start lies in the lowered box, or when the
   * ray along the line meets that box closer to the start than the line's own length.
   */
  function IntersectsBounds(g: Collaborators, line: Line3, box: Box3): (r: bool)
    ensures ContainsPoint(LowerBox(box, line), line.start) ==> r
    ensures !ContainsPoint(LowerBox(box, line), line.start) ==>
      match g.intersectBox(line.start, Delta(line), LowerBox(box, line))
      case None => !r
      case Some(hit) => r == (DistanceSq(line.start, hit) < LengthSq(line))
  {
    var lowered := LowerBox(box, line);
    if ContainsPoint(lowered, line.start) then true
    else
      match g.intersectBox(line.start, Delta(line), lowered)
      case Some(hit) => DistanceSq(line.start, hit) < LengthSq(line)
      case None => false
  }

  // ---------------------------------------------------------------------------------------------
  // intersectsTriangle

  /** `intersectsTriangle`'s beneath segment: the whole line when it lies entirely below the triangle, else the trimmed part. */
  function ClipBeneath(g: Collaborators, tri: Triangle, line: Line3): (r: Option<Line3>)
    ensures HighestY(line) < TriangleLowestY(tri) ==> r == Some(line)
    ensures HighestY(line) >= TriangleLowestY(tri) ==> r == g.trimToBeneathTriPlane(tri, line)
  {
    if HighestY(line) < TriangleLowestY(tri) then Some(line)
    else g.trimToBeneathTriPlane(tri, line)
  }

  /**
   * The portion of `line` the triangle may hide, or `None` when one of the guards of
   * `intersectsTriangle` rejects the triangle.
   */
  function Beneath(g: Collaborators, line: Line3, tri: Triangle): (r: Option<Line3>)
    ensures TriangleHighestY(tri) <= LowestY(line) ==> r == None
    ensures g.isYProjectedTriangleDegenerate(tri) ==> r == None
    ensures g.isLineTriangleEdge(tri, line) ==> r == None
    ensures HighestY(line) >= TriangleLowestY(tri) && g.trimToBeneathTriPlane(tri, line) == None ==> r == None
    ensures r.Some? ==> LengthSq(r.value) >= DIST_THRESHOLD * DIST_THRESHOLD
    ensures r.Some? <==>
      TriangleHighestY(tri) > LowestY(line) &&
      !g.isYProjectedTriangleDegenerate(tri) &&
      !g.isLineTriangleEdge(tri, line) &&
      ClipBeneath(g, tri, line).Some? &&
      LengthSq(ClipBeneath(g, tri, line).value) >= DIST_THRESHOLD * DIST_THRESHOLD
    ensures r.Some? && HighestY(line) < TriangleLowestY(tri) ==> r.value == line
    ensures r.Some? && HighestY(line) >= TriangleLowestY(tri) ==> r == g.trimToBeneathTriPlane(tri, line)
  {
    if TriangleHighestY(tri) <= LowestY(line) then None
    else if g.isYProjectedTriangleDegenerate(tri) then None
    else if g.isLineTriangleEdge(tri, line) then None
    else
      match ClipBeneath(g, tri, line)
      case None => None
      // `distance() < DIST_THRESHOLD`, squared on both sides
      case Some(b) => if LengthSq(b) < DIST_THRESHOLD * DIST_THRESHOLD then None else Some(b)
  }

  /**
   * `intersectsTriangle`'s bookkeeping: record the projected overlap of the beneath segment; `compressEdgeOverlaps`
   * runs only when both the overlap query and the append report success.
   */
  function RecordOverlap(g: Collaborators, line: Line3, beneath: Line3, tri: Triangle,
                         overlaps: seq<Interval>): (r: seq<Interval>)
    ensures g.getProjectedLineOverlap(beneath, tri).None? ==> r == overlaps
    ensures g.getProjectedLineOverlap(beneath, tri).Some? ==>
      var app := g.appendOverlapRange(line, g.getProjectedLineOverlap(beneath, tri).value, overlaps);
      r == if app.ok then g.compressEdgeOverlaps(app.overlaps) else app.overlaps
  {
    match g.getProjectedLineOverlap(beneath, tri)
    case None => overlaps
    case Some(ov) =>
      var app := g.appendOverlapRange(line, ov, overlaps);
      if app.ok then g.compressEdgeOverlaps(app.overlaps) else app.overlaps
  }

  /** The edge is hidden entirely: the last recorded interval is exactly [0, 1]. */
  predicate FullyHidden(overlaps: seq<Interval>) {
    |overlaps| != 0 && overlaps[|overlaps| - 1] == Interval(0.0, 1.0)
  }

  /** What `intersectsTriangle` returns (stop the traversal) and the overlap list it leaves. */
  datatype Verdict = Verdict(stop: bool, overlaps: seq<Interval>)

  /** `intersectsTriangle` for one triangle against the current hidden overlaps of `line`. */
  function IntersectsTriangle(g: Collaborators, line: Line3, tri: Triangle,
                              overlaps: seq<Interval>): (v: Verdict)
    ensures Beneath(g, line, tri).None? ==> v == Verdict(false, overlaps)
    ensures Beneath(g, line, tri).Some? ==>
      v.overlaps == RecordOverlap(g, line, Beneath(g, line, tri).value, tri, overlaps)
    ensures v.stop <==> Beneath(g, line, tri).Some? && FullyHidden(v.overlaps)
  {
    match Beneath(g, line, tri)
    case None => Verdict(false, overlaps)
    case Some(b) =>
      var o := RecordOverlap(g, line, b, tri, overlaps);
      Verdict(FullyHidden(o), o)
  }

  // ---------------------------------------------------------------------------------------------
  // One edge against the BVH

  /** The triangles the BVH offers for `line`, pruned by `intersectsBounds`. */
  function Candidates(g: Collaborators, bvh: Bvh, line: Line3): seq<Triangle> {
    g.shapecast(bvh, (box: Box3) => IntersectsBounds(g, line, box))
  }

  /** The overlaps left after offering `tris` in order, stopping at the first verdict that stops. */
  function Scan(g: Collaborators, line: Line3, tris: seq<Triangle>, overlaps: seq<Interval>): (r: seq<Interval>)
    ensures Stops(g, line, tris, overlaps) ==> FullyHidden(r)
    decreases |tris|
  {
    if tris == [] then overlaps
    else
      var v := IntersectsTriangle(g, line, tris[0], overlaps);
      if v.stop then v.overlaps else Scan(g, line, tris[1..], v.overlaps)
  }

  /** Some triangle of `tris` stops the traversal. */
  predicate Stops(g: Collaborators, line: Line3, tris: seq<Triangle>, overlaps: seq<Interval>)
    decreases |tris|
  {
    if tris == [] then false
    else
      var v := IntersectsTriangle(g, line, tris[0], overlaps);
      v.stop || Stops(g, line, tris[1..], v.overlaps)
  }

  /** The hidden overlaps of one candidate edge: a fresh list, then the whole shapecast. */
  function EdgeOverlaps(g: Collaborators, bvh: Bvh, line: Line3): seq<Interval> {
    Scan(g, line, Candidates(g, bvh, line), [])
  }

  /** Once a triangle stops the traversal, triangles the BVH would offer afterwards change nothing. */
  lemma {:induction false} ScanIgnoresAfterStop(g: Collaborators, line: Line3, tris: seq<Triangle>,
                                                later: seq<Triangle>, overlaps: seq<Interval>)
    requires Stops(g, line, tris, overlaps)
    ensures Scan(g, line, tris + later, overlaps) == Scan(g, line, tris, overlaps)
    ensures FullyHidden(Scan(g, line, tris, overlaps))
    decreases |tris|
  {
    var v := IntersectsTriangle(g, line, tris[0], overlaps);
    assert (tris + later)[0] == tris[0];
    if !v.stop {
      assert (tris + later)[1..] == tris[1..] + later;
      ScanIgnoresAfterStop(g, line, tris[1..], later, v.overlaps);
    }
  }

  /** A traversal that never stops has walked every offered triangle: appending more continues it. */
  lemma {:induction false} ScanContinues(g: Collaborators, line: Line3, tris: seq<Triangle>,
                                         later: seq<Triangle>, overlaps: seq<Interval>)
    requires !Stops(g, line, tris, overlaps)
    ensures Scan(g, line, tris + later, overlaps) == Scan(g, line, later, Scan(g, line, tris, overlaps))
    decreases |tris|
  {
    if tris == [] {
      assert tris + later == later;
    } else {
      var v := IntersectsTriangle(g, line, tris[0], overlaps);
      assert (tris + later)[0] == tris[0];
      assert (tris + later)[1..] == tris[1..] + later;
      ScanContinues(g, line, tris[1..], later, v.overlaps);
    }
  }

  /** Triangles that all fail a guard of `intersectsTriangle` record nothing and never stop. */
  lemma {:induction false} ScanWithoutOccluders(g: Collaborators, line: Line3, tris: seq<Triangle>,
                                                overlaps: seq<Interval>)
    requires forall k :: 0 <= k < |tris| ==> Beneath(g, line, tris[k]).None?
    ensures Scan(g, line, tris, overlaps) == overlaps
    ensures !Stops(g, line, tris, overlaps)
    decreases |tris|
  {
    if tris != [] {
      assert forall k :: 0 <= k < |tris| - 1 ==> tris[1..][k] == tris[k + 1];
      ScanWithoutOccluders(g, line, tris[1..], overlaps);
    }
  }

  // ---------------------------------------------------------------------------------------------
  // The trim loop over all candidate edges, without its yields

  /** The first edge at or after `from` whose projection is not degenerate, or `|edges|`. */
  function NextLive(g: Collaborators, edges: seq<Line3>, from: nat): (k: nat)
    requires from <= |edges|
    ensures from <= k <= |edges|
    ensures k < |edges| ==> !g.isYProjectedLineDegenerate(edges[k])
    ensures forall j :: from <= j < k ==> g.isYProjectedLineDegenerate(edges[j])
    decreases |edges| - from
  {
    if from == |edges| || !g.isYProjectedLineDegenerate(edges[from]) then from
    else NextLive(g, edges, from + 1)
  }

  /** Any index that satisfies the two conditions of `NextLive` is the one it returns. */
  lemma NextLiveUnique(g: Collaborators, edges: seq<Line3>, from: nat, j: nat)
    requires from <= j <= |edges|
    requires forall m :: from <= m < j ==> g.isYProjectedLineDegenerate(edges[m])
    requires j < |edges| ==> !g.isYProjectedLineDegenerate(edges[j])
    ensures NextLive(g, edges, from) == j
  {
  }

  /** `finalEdges.edges` after the loop has handled `edges[..n]`, whatever the clock did. */
  function TrimmedPrefix(g: Collaborators, bvh: Bvh, edges: seq<Line3>, n: nat): seq<Segment>
    requires n <= |edges|
  {
    if n == 0 then []
    else
      var before := TrimmedPrefix(g, bvh, edges, n - 1);
      var line := edges[n - 1];
      if g.isYProjectedLineDegenerate(line) then before
      else g.overlapsToLines(line, EdgeOverlaps(g, bvh, line), before)
  }

  /** Degenerate edges contribute nothing to the output. */
  lemma {:induction false} SkipDegenerate(g: Collaborators, bvh: Bvh, edges: seq<Line3>, lo: nat, hi: nat)
    requires lo <= hi <= |edges|
    requires forall j :: lo <= j < hi ==> g.isYProjectedLineDegenerate(edges[j])
    ensures TrimmedPrefix(g, bvh, edges, hi) == TrimmedPrefix(g, bvh, edges, lo)
    decreases hi
  {
    if lo < hi {
      SkipDegenerate(g, bvh, edges, lo, hi - 1);
    }
  }

  /** Handling the next live edge after `from` extends the output by that edge's lines alone. */
  lemma TrimNextLive(g: Collaborators, bvh: Bvh, edges: seq<Line3>, from: nat)
    requires from <= |edges|
    requires NextLive(g, edges, from) < |edges|
    ensures var k := NextLive(g, edges, from);
      TrimmedPrefix(g, bvh, edges, k + 1) ==
        g.overlapsToLines(edges[k], EdgeOverlaps(g, bvh, edges[k]), TrimmedPrefix(g, bvh, edges, from))
  {
    SkipDegenerate(g, bvh, edges, from, NextLive(g, edges, from));
  }

  // ---------------------------------------------------------------------------------------------
  // The edge sort

  /** Ordered non-decreasingly by the comparator `min(a.start.y, a.end.y) - min(b.start.y, b.end.y)`. */
  ghost predicate SortedByLowestY(s: seq<Line3>) {
    forall a, b :: 0 <= a < b < |s| ==> LowestY(s[a]) <= LowestY(s[b])
  }

  /** Splicing `x` in at a position where it fits keeps the list sorted. */
  lemma SpliceSorted(s: seq<Line3>, x: Line3, k: nat, r: seq<Line3>)
    requires SortedByLowestY(s) && k <= |s|
    requires k > 0 ==> LowestY(s[k - 1]) <= LowestY(x)
    requires forall j :: k <= j < |s| ==> LowestY(s[j]) > LowestY(x)
    requires |r| == |s| + 1 && r[k] == x
    requires forall j :: 0 <= j < k ==> r[j] == s[j]
    requires forall j :: k < j < |r| ==> r[j] == s[j - 1]
    ensures SortedByLowestY(r)
  {
    forall a, b | 0 <= a < b < |r| ensures LowestY(r[a]) <= LowestY(r[b]) {
      if b < k {
        assert r[a] == s[a] && r[b] == s[b];
      } else if b == k {
        assert r[a] == s[a] && LowestY(s[a]) <= LowestY(s[k - 1]);
      } else if a < k {
        assert r[a] == s[a] && r[b] == s[b - 1];
      } else if a == k {
        assert r[b] == s[b - 1];
      } else {
        assert r[a] == s[a - 1] && r[b] == s[b - 1];
      }
    }
  }

  /** `s[..k] + [x] + s[k..]` holds `x` at `k`, the prefix before it, the suffix after it, and no more. */
  lemma Spliced(s: seq<Line3>, x: Line3, k: nat)
    requires k <= |s|
    ensures var r := s[..k] + [x] + s[k..];
      |r| == |s| + 1 && r[k] == x &&
      (forall j :: 0 <= j < k ==> r[j] == s[j]) &&
      (forall j :: k < j < |r| ==> r[j] == s[j - 1]) &&
      multiset(r) == multiset(s) + multiset{x}
  {
    var r := s[..k] + [x] + s[k..];
    assert s == s[..k] + s[k..];
    assert multiset(r) == multiset(s[..k]) + multiset{x} + multiset(s[k..]);
  }

  /** Place `x` after every element whose key does not exceed its own. */
  method InsertByLowestY(s: seq<Line3>, x: Line3) returns (r: seq<Line3>)
    requires SortedByLowestY(s)
    ensures SortedByLowestY(r)
    ensures multiset(r) == multiset(s) + multiset{x}
  {
    var k := |s|;
    while k > 0 && LowestY(s[k - 1]) > LowestY(x)
      invariant 0 <= k <= |s|
      invariant forall j :: k <= j < |s| ==> LowestY(s[j]) > LowestY(x)
    {
      k := k - 1;
    }
    r := s[..k] + [x] + s[k..];
    Spliced(s, x, k);
    SpliceSorted(s, x, k, r);
  }

  /** `edges.sort(...)`: a permutation of the input in non-decreasing order of the lowest y. */
  method SortByLowestY(s: seq<Line3>) returns (r: seq<Line3>)
    ensures SortedByLowestY(r)
    ensures multiset(r) == multiset(s)
  {
    r := [];
    for n := 0 to |s|
      invariant SortedByLowestY(r)
      invariant multiset(r) == multiset(s[..n])
    {
      r := InsertByLowestY(r, s[n]);
      assert s[..n + 1] == s[..n] + [s[n]];
    }
    assert s[..|s|] == s;
  }

  /** The candidate list after the optional sort: sorted when asked, untouched otherwise. */
  ghost predicate Arranged(raw: seq<Line3>, edges: seq<Line3>, sortEdges: bool) {
    if sortEdges then SortedByLowestY(edges) && multiset(edges) == multiset(raw)
    else edges == raw
  }
}
