/**
 * `ProjectionGenerator`: the resumable trim task behind `generate`, its `EdgeSet` output and the
 * abort-checking `generateAsync` driver. A JavaScript `yield` becomes a return from `Advance`; every
 * `performance.now()` reading becomes the argument of one `Advance` call.
 */
module Projection {
  import opened Wrappers
  import opened Geometry
  import opened TrimRules
  import ViewDirection

  const DEFAULT_SORT_EDGES: bool := true
  const DEFAULT_ITERATION_TIME: real := 30.0
  const DEFAULT_ANGLE_THRESHOLD: real := 50.0
  const DEFAULT_INCLUDE_INTERSECTION_EDGES: bool := true

  const ABORT_MESSAGE: string := "ProjectionGenerator: Process aborted via AbortSignal."

  /** The generator settings `generate` reads when it starts. */
  datatype GeneratorConfig = GeneratorConfig(
    sortEdges: bool,
    iterationTime: real,
    angleThreshold: real,
    includeIntersectionEdges: bool,
    projectionDirection: string)

  const DEFAULT_CONFIG: GeneratorConfig := GeneratorConfig(
    DEFAULT_SORT_EDGES, DEFAULT_ITERATION_TIME, DEFAULT_ANGLE_THRESHOLD,
    DEFAULT_INCLUDE_INTERSECTION_EDGES, ViewDirection.DEFAULT_DIRECTION)

  // ---------------------------------------------------------------------------------------------
  // EdgeSet

  /** The six position numbers of one output line, both endpoints put at height `y`. */
  function SegmentPositions(e: Segment, y: real): seq<real> {
    [e.x0, y, e.z0, e.x1, y, e.z1]
  }

  /** The position buffer `getLineGeometry(y)` fills: six numbers per edge, in edge order. */
  function LinePositions(edges: seq<Segment>, y: real): (r: seq<real>)
    ensures |r| == 6 * |edges|
    ensures forall k :: 0 <= k < |edges| ==> r[6 * k..6 * k + 6] == SegmentPositions(edges[k], y)
    decreases |edges|
  {
    if edges == [] then []
    else
      var n := |edges| - 1;
      var front := LinePositions(edges[..n], y);
      var r := front + SegmentPositions(edges[n], y);
      assert forall k :: 0 <= k < n ==> r[6 * k..6 * k + 6] == front[6 * k..6 * k + 6];
      r
  }

  /** Every point of the buffer (every third number, from offset 1) has height `y`. */
  lemma LinePointsAtHeight(edges: seq<Segment>, y: real, p: nat)
    requires p < 2 * |edges|
    ensures |LinePositions(edges, y)| == 6 * |edges|
    ensures LinePositions(edges, y)[3 * p + 1] == y
  {
    var r := LinePositions(edges, y);
    var k := p / 2;
    assert r[6 * k..6 * k + 6] == SegmentPositions(edges[k], y);
    if p % 2 == 0 {
      assert 3 * p + 1 == 6 * k + 1;
      assert r[6 * k + 1] == r[6 * k..6 * k + 6][1];
    } else {
      assert 3 * p + 1 == 6 * k + 4;
      assert r[6 * k + 4] == r[6 * k..6 * k + 6][4];
    }
  }

  /** `EdgeSet`: the visible lines collected so far. */
  class EdgeSet {
    var edges: seq<Segment>

    constructor()
      ensures edges == []
    {
      edges := [];
    }

    /** `getLineGeometry(y)`: the `Float32Array` behind the returned geometry's position attribute. */
    method GetLineGeometry(y: real) returns (position: array<real>)
      ensures position.Length == 6 * |edges|
      ensures position[..] == LinePositions(edges, y)
    {
      ghost var spec := LinePositions(edges, y);
      position := new real[|edges| * 6];
      var c := 0;
      for i := 0 to |edges|
        invariant c == 6 * i
        invariant forall m :: 0 <= m < c ==> position[m] == spec[m]
      {
        var line := edges[i];
        assert spec[6 * i..6 * i + 6] == SegmentPositions(line, y);
        position[c] := line.x0; c := c + 1;
        position[c] := y; c := c + 1;
        position[c] := line.z0; c := c + 1;
        position[c] := line.x1; c := c + 1;
        position[c] := y; c := c + 1;
        position[c] := line.z1; c := c + 1;
      }
    }
  }

  // ---------------------------------------------------------------------------------------------
  // What generate computes before the trim loop

  /** `generate`'s argument: a geometry to clone and orient, or a ready `MeshBVH` used as it is. */
  datatype GenerateInput = FromGeometry(geometry: Mesh) | FromBvh(bvh: Bvh)

  /** The BVH the trim loop queries: built over the reoriented clone when given a geometry. */
  function PreparedBvh(input: GenerateInput, dir: string): (r: Bvh)
    ensures input.FromBvh? ==> r == input.bvh
    ensures input.FromGeometry? ==>
      r.geometry.index == input.geometry.index &&
      r.geometry.position == ViewDirection.Reorient(dir, input.geometry.position)
  {
    match input
    case FromGeometry(m) => Bvh(m.(position := ViewDirection.Reorient(dir, m.position)))
    case FromBvh(b) => b
  }

  /** The candidate edges before sorting: feature edges, then intersection edges when enabled. */
  function RawEdges(g: Collaborators, bvh: Bvh, config: GeneratorConfig): (r: seq<Line3>)
    ensures !config.includeIntersectionEdges ==> r == g.generateEdges(bvh.geometry, config.angleThreshold)
    ensures config.includeIntersectionEdges ==>
      r == g.generateEdges(bvh.geometry, config.angleThreshold) +
           g.generateIntersectionEdges(bvh, config.iterationTime)
  {
    var edges := g.generateEdges(bvh.geometry, config.angleThreshold);
    if config.includeIntersectionEdges then edges + g.generateIntersectionEdges(bvh, config.iterationTime)
    else edges
  }

  /** `i / edges.length` for an edge index `i` lies in [0, 1). */
  lemma ProgressBelowOne(i: nat, n: nat)
    requires i < n
    ensures 0.0 <= i as real / n as real < 1.0
  {
    var q := i as real / n as real;
    assert q * (n as real) == i as real;
  }

  // ---------------------------------------------------------------------------------------------
  // The resumable task

  /**
   * Where the generator stands between two `Advance` calls: not yet started; suspended at the
   * `yield` that follows the sort; about to read `performance.now()` after finishing edge `i`;
   * suspended at the `yield` that follows edge `i`; returned.
   */
  datatype Pc = Start | AfterSetupYield | AtDeltaCheck | AfterTrimYield | Finished

  /**
   * What one `Advance` ends with: the generator read the clock and runs on (`next()` has not
   * returned yet); it yielded (`{done: false}`), with the progress passed to `onProgress` if one
   * was given; it returned (`{done: true, value}`) the position buffer; it had already finished
   * (`{done: true, value: undefined}`).
   */
  datatype Event = Running | Suspended(progress: Option<real>) | Returned(lines: seq<real>) | Exhausted

  /** The `options` object handed to `generate`: whether it carries an `onProgress` callback. */
  class GenerateOptions {
    var hasOnProgress: bool

    constructor(hasOnProgress: bool)
      ensures this.hasOnProgress == hasOnProgress
    {
      this.hasOnProgress := hasOnProgress;
    }
  }

  /**
   * A generator object returned by `generate`. Until its first `next()` it has only captured the
   * generator, its options and its input; the settings and `onProgress` are read when setup runs.
   */
  class ProjectionTask {
    const g: Collaborators
    const input: GenerateInput
    const owner: ProjectionGenerator
    const options: GenerateOptions
    const finalEdges: EdgeSet

    /** The settings and the `onProgress` presence read from `owner` and `options` by setup. */
    var config: GeneratorConfig
    var hasOnProgress: bool

    var pc: Pc
    var bvh: Bvh
    var edges: seq<Line3>
    var i: nat
    var hiddenOverlaps: seq<Interval>
    var time: real
    /** The edges sent to the BVH so far. */
    ghost var queried: seq<Line3>
    /** How many times `next()` has been called on this generator object. */
    ghost var nextCalls: nat

    ghost predicate Valid()
      reads this, finalEdges
    {
      Prepared() && Progressed() && QueriedLive()
    }

    /** Once started, the BVH is the prepared one and the edges are the arranged candidates. */
    ghost predicate Prepared()
      reads this
    {
      pc != Start ==>
        bvh == PreparedBvh(input, config.projectionDirection) &&
        Arranged(RawEdges(g, bvh, config), edges, config.sortEdges)
    }

    /** `finalEdges` holds the lines of exactly the edges the loop has handled so far. */
    ghost predicate Progressed()
      reads this, finalEdges
    {
      (pc == Start ==> finalEdges.edges == [] && queried == []) &&
      (pc == AfterSetupYield ==> finalEdges.edges == []) &&
      ((pc == AtDeltaCheck || pc == AfterTrimYield) ==>
        i < |edges| && !g.isYProjectedLineDegenerate(edges[i]) &&
        hiddenOverlaps == EdgeOverlaps(g, bvh, edges[i]) &&
        finalEdges.edges == TrimmedPrefix(g, bvh, edges, i + 1)) &&
      (pc == Finished ==> finalEdges.edges == TrimmedPrefix(g, bvh, edges, |edges|))
    }

    /** No degenerate edge was ever sent to the BVH. */
    ghost predicate QueriedLive()
      reads this
    {
      forall l :: l in queried ==> !g.isYProjectedLineDegenerate(l)
    }

    /** Decreases with every `Advance` until the task has finished. */
    ghost function Measure(): nat
      reads this, finalEdges, owner
      requires Valid()
    {
      match pc
      case Start => 2 * |RawEdges(g, PreparedBvh(input, owner.projectionDirection), owner.Config())| + 2
      case AfterSetupYield => 2 * |edges| + 1
      case AtDeltaCheck => 2 * (|edges| - i)
      case AfterTrimYield => 2 * (|edges| - i - 1) + 1
      case Finished => 0
    }

    /**
     * Where the trim loop, entered at index `from`, stops: at the clock reading after the next
     * live edge, or with the returned line geometry when no live edge is left.
     */
    ghost predicate Continued(from: nat, ev: Event)
      reads this, finalEdges
    {
      from <= |edges| &&
      (NextLive(g, edges, from) == |edges| ==>
        pc == Finished && ev == Returned(LinePositions(TrimmedPrefix(g, bvh, edges, |edges|), 0.0))) &&
      (NextLive(g, edges, from) < |edges| ==>
        pc == AtDeltaCheck && ev == Running && i == NextLive(g, edges, from))
    }

    /** How an `Advance` that did not start finished leaves the task, for each kind of event. */
    ghost predicate Paused(ev: Event)
      reads this, finalEdges
    {
      (ev.Running? ==> pc == AtDeltaCheck) &&
      (ev.Suspended? ==> pc != Finished && (ev.progress.Some? ==> 0.0 <= ev.progress.value < 1.0)) &&
      (ev.Returned? ==>
        pc == Finished && ev.lines == LinePositions(TrimmedPrefix(g, bvh, edges, |edges|), 0.0)) &&
      !ev.Exhausted?
    }

    /**
     * `owner.generate(bvh, options)`: nothing runs until the first `Advance`, so nothing is read
     * yet; `config` and `hasOnProgress` hold placeholders that setup overwrites.
     */
    constructor(g: Collaborators, input: GenerateInput, owner: ProjectionGenerator, options: GenerateOptions)
      ensures Valid() && fresh(finalEdges)
      ensures this.g == g && this.input == input && this.owner == owner && this.options == options
      ensures pc == Start && nextCalls == 0
    {
      this.g := g;
      this.input := input;
      this.owner := owner;
      this.options := options;
      config := DEFAULT_CONFIG;
      hasOnProgress := false;
      finalEdges := new EdgeSet();
      pc := Start;
      bvh := Bvh(Mesh([], None));
      edges := [];
      i := 0;
      hiddenOverlaps := [];
      time := 0.0;
      queried := [];
      nextCalls := 0;
    }

    /** The shapecast for one edge: offer triangles until `intersectsTriangle` says stop. */
    method TrimEdge(line: Line3)
      modifies this`hiddenOverlaps
      ensures hiddenOverlaps == EdgeOverlaps(g, bvh, line)
    {
      var tris := Candidates(g, bvh, line);
      hiddenOverlaps := [];
      var k := 0;
      var stop := false;
      while k < |tris| && !stop
        invariant 0 <= k <= |tris|
        invariant !stop ==> Scan(g, line, tris, []) == Scan(g, line, tris[k..], hiddenOverlaps)
        invariant stop ==> Scan(g, line, tris, []) == hiddenOverlaps
      {
        assert tris[k..][0] == tris[k] && tris[k..][1..] == tris[k + 1..];
        var v := IntersectsTriangle(g, line, tris[k], hiddenOverlaps);
        hiddenOverlaps := v.overlaps;
        stop := v.stop;
        k := k + 1;
      }
    }

    /**
     * The trim loop from index `from`: skip degenerate edges, then either trim the next live edge
     * and stop where the loop body reads `performance.now()`, or leave the loop and return the line geometry.
     */
    method TrimFrom(from: nat) returns (ev: Event)
      requires pc != Start && pc != Finished
      requires bvh == PreparedBvh(input, config.projectionDirection)
      requires Arranged(RawEdges(g, bvh, config), edges, config.sortEdges)
      requires from <= |edges| && finalEdges.edges == TrimmedPrefix(g, bvh, edges, from)
      requires forall l :: l in queried ==> !g.isYProjectedLineDegenerate(l)
      modifies this`pc, this`hiddenOverlaps, this`queried, this`i, finalEdges`edges
      ensures Valid()
      ensures Continued(from, ev) && Measure() <= 2 * (|edges| - from)
      ensures ev.Running? || ev.Returned?
      ensures ev.Running? ==> pc == AtDeltaCheck
      ensures ev.Returned? ==>
        pc == Finished && ev.lines == LinePositions(TrimmedPrefix(g, bvh, edges, |edges|), 0.0)
    {
      var j := SkipFrom(from);
      SkipDegenerate(g, bvh, edges, from, j);
      if j == |edges| {
        ev := Finish();
      } else {
        ev := TrimAt(j);
      }
    }

    /** The loop's `continue` past degenerate edges, from index `from`. */
    method SkipFrom(from: nat) returns (j: nat)
      requires from <= |edges|
      ensures j == NextLive(g, edges, from)
      ensures forall m :: from <= m < j ==> g.isYProjectedLineDegenerate(edges[m])
    {
      j := from;
      while j < |edges| && g.isYProjectedLineDegenerate(edges[j])
        invariant from <= j <= |edges|
        invariant forall m :: from <= m < j ==> g.isYProjectedLineDegenerate(edges[m])
      {
        j := j + 1;
      }
      NextLiveUnique(g, edges, from, j);
    }

    /** Leave the loop: `return finalEdges.getLineGeometry(0)`. */
    method Finish() returns (ev: Event)
      requires pc != Start && pc != Finished
      requires bvh == PreparedBvh(input, config.projectionDirection)
      requires Arranged(RawEdges(g, bvh, config), edges, config.sortEdges)
      requires finalEdges.edges == TrimmedPrefix(g, bvh, edges, |edges|)
      requires forall l :: l in queried ==> !g.isYProjectedLineDegenerate(l)
      modifies this`pc
      ensures Valid() && pc == Finished
      ensures ev == Returned(LinePositions(TrimmedPrefix(g, bvh, edges, |edges|), 0.0))
    {
      pc := Finished;
      var position := finalEdges.GetLineGeometry(0.0);
      ev := Returned(position[..]);
    }

    /** Trim the live edge `j` against the BVH and stop where the loop body reads `performance.now()`. */
    method TrimAt(j: nat) returns (ev: Event)
      requires pc != Start && pc != Finished
      requires bvh == PreparedBvh(input, config.projectionDirection)
      requires Arranged(RawEdges(g, bvh, config), edges, config.sortEdges)
      requires j < |edges| && !g.isYProjectedLineDegenerate(edges[j])
      requires finalEdges.edges == TrimmedPrefix(g, bvh, edges, j)
      requires forall l :: l in queried ==> !g.isYProjectedLineDegenerate(l)
      modifies this`hiddenOverlaps, this`queried, this`i, this`pc, finalEdges`edges
      ensures Valid() && pc == AtDeltaCheck && ev == Running && i == j
    {
      var line := edges[j];
      TrimEdge(line);
      finalEdges.edges := g.overlapsToLines(line, hiddenOverlaps, finalEdges.edges);
      queried := queried + [line];
      i := j;
      pc := AtDeltaCheck;
      ev := Running;
    }

    /** Run the generator from where it stands to its next clock reading, `yield` or `return`. */
    method Advance(now: real) returns (ev: Event)
      requires Valid()
      modifies this, finalEdges
      ensures Valid() && nextCalls == old(nextCalls)
      ensures old(pc) == Start ==> ev == Suspended(None) && pc == AfterSetupYield
      ensures old(pc) == Start ==> config == owner.Config() && hasOnProgress == options.hasOnProgress
      ensures old(pc) != Start ==> config == old(config) && hasOnProgress == old(hasOnProgress)
      ensures old(pc) == Finished ==> ev == Exhausted && pc == Finished
      ensures old(pc) != Start ==> edges == old(edges) && bvh == old(bvh)
      ensures old(pc) == AtDeltaCheck && now - old(time) > config.iterationTime ==>
        ev == Suspended(if hasOnProgress then Some(old(i) as real / |edges| as real) else None) &&
        pc == AfterTrimYield && i == old(i) && time == old(time) &&
        finalEdges.edges == old(finalEdges.edges)
      ensures old(pc) == AtDeltaCheck && !(now - old(time) > config.iterationTime) ==>
        time == old(time) && Continued(old(i) + 1, ev)
      ensures old(pc) == AfterSetupYield ==> time == now && Continued(0, ev)
      ensures old(pc) == AfterTrimYield ==> time == now && Continued(old(i) + 1, ev)
      ensures ev.Suspended? && ev.progress.Some? ==> 0.0 <= ev.progress.value < 1.0
      ensures ev.Running? ==> pc == AtDeltaCheck
      ensures ev.Suspended? ==> pc == AfterSetupYield || pc == AfterTrimYield
      ensures ev.Returned? ==>
        pc == Finished && ev.lines == LinePositions(TrimmedPrefix(g, bvh, edges, |edges|), 0.0)
      ensures ev.Exhausted? <==> old(pc) == Finished
      ensures old(pc) != Finished ==> Measure() < old(Measure()) && Paused(ev)
    {
      if pc == Start {
        ev := Setup();
      } else {
        ev := Resume(now);
      }
    }

    /** `Advance` once setup has run: the settings, the BVH and the edges stay as they are. */
    method Resume(now: real) returns (ev: Event)
      requires Valid() && pc != Start
      modifies this`pc, this`hiddenOverlaps, this`queried, this`i, this`time, finalEdges`edges
      ensures Valid()
      ensures old(pc) == Finished ==> ev == Exhausted && pc == Finished
      ensures old(pc) == AtDeltaCheck && now - old(time) > config.iterationTime ==>
        ev == Suspended(if hasOnProgress then Some(old(i) as real / |edges| as real) else None) &&
        pc == AfterTrimYield && i == old(i) && time == old(time) &&
        finalEdges.edges == old(finalEdges.edges)
      ensures old(pc) == AtDeltaCheck && !(now - old(time) > config.iterationTime) ==>
        time == old(time) && Continued(old(i) + 1, ev)
      ensures old(pc) == AfterSetupYield ==> time == now && Continued(0, ev)
      ensures old(pc) == AfterTrimYield ==> time == now && Continued(old(i) + 1, ev)
      ensures ev.Suspended? && ev.progress.Some? ==> 0.0 <= ev.progress.value < 1.0
      ensures ev.Running? ==> pc == AtDeltaCheck
      ensures ev.Suspended? ==> pc == AfterTrimYield
      ensures ev.Returned? ==>
        pc == Finished && ev.lines == LinePositions(TrimmedPrefix(g, bvh, edges, |edges|), 0.0)
      ensures ev.Exhausted? <==> old(pc) == Finished
      ensures old(pc) != Finished ==> Measure() < old(Measure())
    {
      match pc
      case Finished =>
        ev := Exhausted;
      case AtDeltaCheck =>
        if now - time > config.iterationTime {
          ev := YieldAfterEdge();
        } else {
          ev := ContinueAfterEdge();
        }
      case AfterSetupYield =>
        ev := ResumeAfterSetup(now);
      case AfterTrimYield =>
        ev := ResumeAfterYield(now);
    }

    /**
     * One `task.next()`: advance until the generator yields or returns. `clock(t)` is the value
     * handed to the t-th `Advance`, here `clock(t0)` up to `clock(t1 - 1)`. It is a
     * `performance.now()` reading where that step reads the clock; the step that runs setup reads
     * none, and its value goes unused.
     */
    method Next(clock: nat -> real, t0: nat) returns (ev: Event, t1: nat)
      requires Valid() && pc != Finished
      modifies this, finalEdges
      ensures Valid() && t0 < t1 && nextCalls == old(nextCalls) + 1
      ensures old(pc) == Start ==> config == owner.Config() && hasOnProgress == options.hasOnProgress
      ensures old(pc) != Start ==> config == old(config) && hasOnProgress == old(hasOnProgress)
      ensures ev.Suspended? || ev.Returned?
      ensures ev.Suspended? ==> pc != Finished
      ensures ev.Suspended? && ev.progress.Some? ==> 0.0 <= ev.progress.value < 1.0
      ensures ev.Returned? ==>
        pc == Finished && ev.lines == LinePositions(TrimmedPrefix(g, bvh, edges, |edges|), 0.0)
      ensures Measure() < old(Measure())
    {
      nextCalls := nextCalls + 1;
      ev := Advance(clock(t0));
      ev, t1 := RunOn(ev, clock, t0 + 1);
    }

    /** The rest of one `next()`: keep advancing while the generator runs on past a clock reading. */
    method RunOn(ev0: Event, clock: nat -> real, t0: nat) returns (ev: Event, t1: nat)
      requires Valid() && Paused(ev0)
      modifies this, finalEdges
      ensures Valid() && Paused(ev) && !ev.Running? && t0 <= t1
      ensures config == old(config) && hasOnProgress == old(hasOnProgress) && nextCalls == old(nextCalls)
      ensures Measure() <= old(Measure())
    {
      ev, t1 := ev0, t0;
      while ev.Running?
        invariant Valid() && Paused(ev) && t0 <= t1
        invariant config == old(config) && hasOnProgress == old(hasOnProgress) && nextCalls == old(nextCalls)
        invariant Measure() <= old(Measure())
        decreases Measure()
      {
        ev := Advance(clock(t1));
        t1 := t1 + 1;
      }
    }

    /** The time-budget branch: report `i / edges.length` if there is an `onProgress`, then `yield`. */
    method YieldAfterEdge() returns (ev: Event)
      requires Valid() && pc == AtDeltaCheck
      modifies this`pc
      ensures Valid() && pc == AfterTrimYield
      ensures ev == Suspended(if hasOnProgress then Some(i as real / |edges| as real) else None)
      ensures ev.progress.Some? ==> 0.0 <= ev.progress.value < 1.0
      ensures Measure() < old(Measure())
    {
      ProgressBelowOne(i, |edges|);
      pc := AfterTrimYield;
      ev := Suspended(if hasOnProgress then Some(i as real / |edges| as real) else None);
    }

    /** After the first `yield`: the collected lines start empty, the timer starts, the loop enters at edge 0. */
    method ResumeAfterSetup(now: real) returns (ev: Event)
      requires Valid() && pc == AfterSetupYield
      modifies this`pc, this`hiddenOverlaps, this`queried, this`i, finalEdges`edges, this`time
      ensures Valid() && time == now
      ensures Continued(0, ev) && Measure() < old(Measure())
      ensures ev.Running? || ev.Returned?
      ensures ev.Running? ==> pc == AtDeltaCheck
      ensures ev.Returned? ==>
        pc == Finished && ev.lines == LinePositions(TrimmedPrefix(g, bvh, edges, |edges|), 0.0)
    {
      finalEdges.edges := [];
      time := now;
      ev := TrimFrom(0);
    }

    /** The time check with time to spare: within the time budget, go on with the next edge without yielding. */
    method ContinueAfterEdge() returns (ev: Event)
      requires Valid() && pc == AtDeltaCheck
      modifies this`pc, this`hiddenOverlaps, this`queried, this`i, finalEdges`edges
      ensures Valid()
      ensures Continued(old(i) + 1, ev) && Measure() < old(Measure())
      ensures ev.Running? || ev.Returned?
      ensures ev.Running? ==> pc == AtDeltaCheck
      ensures ev.Returned? ==>
        pc == Finished && ev.lines == LinePositions(TrimmedPrefix(g, bvh, edges, |edges|), 0.0)
    {
      ev := TrimFrom(i + 1);
    }

    /** Back from the `yield` after an edge: resume, restart the timer and go on with the next edge. */
    method ResumeAfterYield(now: real) returns (ev: Event)
      requires Valid() && pc == AfterTrimYield
      modifies this`pc, this`hiddenOverlaps, this`queried, this`i, finalEdges`edges, this`time
      ensures Valid() && time == now
      ensures Continued(old(i) + 1, ev) && Measure() < old(Measure())
      ensures ev.Running? || ev.Returned?
      ensures ev.Running? ==> pc == AtDeltaCheck
      ensures ev.Returned? ==>
        pc == Finished && ev.lines == LinePositions(TrimmedPrefix(g, bvh, edges, |edges|), 0.0)
    {
      assert finalEdges.edges == TrimmedPrefix(g, bvh, edges, i + 1) && i < |edges|;
      time := now;
      ev := TrimFrom(i + 1);
    }

    /** The part of `generate` before its first `yield`: read the settings, orient and index the geometry, collect and sort the edges, then `yield`. */
    method Setup() returns (ev: Event)
      requires Valid() && pc == Start
      modifies this`bvh, this`edges, this`pc, this`config, this`hasOnProgress
      ensures Valid() && pc == AfterSetupYield && ev == Suspended(None)
      ensures config == owner.Config() && hasOnProgress == options.hasOnProgress
      ensures |edges| == |RawEdges(g, PreparedBvh(input, config.projectionDirection), config)|
      ensures Measure() < old(Measure())
    {
      config := owner.Config();
      hasOnProgress := options.hasOnProgress;
      bvh := PreparedBvh(input, config.projectionDirection);
      var raw := RawEdges(g, bvh, config);
      if config.sortEdges {
        edges := SortByLowestY(raw);
        assert |edges| == |multiset(edges)| == |multiset(raw)| == |raw|;
      } else {
        edges := raw;
      }
      pc := AfterSetupYield;
      ev := Suspended(None);
    }
  }

  /** How the promise of `generateAsync` settles. */
  datatype AsyncOutcome = Resolved(value: seq<real>) | Rejected(reason: string)

  /** `ProjectionGenerator`: the settings object whose `generate` creates a task. */
  class ProjectionGenerator {
    var sortEdges: bool
    var iterationTime: real
    var angleThreshold: real
    var includeIntersectionEdges: bool
    var projectionDirection: string

    function Config(): GeneratorConfig
      reads this
    {
      GeneratorConfig(sortEdges, iterationTime, angleThreshold, includeIntersectionEdges, projectionDirection)
    }

    constructor()
      ensures sortEdges == DEFAULT_SORT_EDGES && iterationTime == DEFAULT_ITERATION_TIME
      ensures angleThreshold == DEFAULT_ANGLE_THRESHOLD
      ensures includeIntersectionEdges == DEFAULT_INCLUDE_INTERSECTION_EDGES
      ensures projectionDirection == ViewDirection.TOP
    {
      sortEdges := DEFAULT_SORT_EDGES;
      iterationTime := DEFAULT_ITERATION_TIME;
      angleThreshold := DEFAULT_ANGLE_THRESHOLD;
      includeIntersectionEdges := DEFAULT_INCLUDE_INTERSECTION_EDGES;
      projectionDirection := ViewDirection.TOP;
    }

    /**
     * `generate(input, options)`: a fresh, not yet started task bound to this generator and to
     * `options`; it reads their values only when its first `next()` runs setup.
     */
    method Generate(input: GenerateInput, g: Collaborators, options: GenerateOptions) returns (task: ProjectionTask)
      ensures fresh(task) && fresh(task.finalEdges) && task.Valid() && task.pc == Start
      ensures task.g == g && task.input == input && task.owner == this && task.options == options
      ensures task.nextCalls == 0
    {
      task := new ProjectionTask(g, input, this, options);
    }

    /**
     * `generateAsync`: before every `task.next()` the abort signal is read (`aborted(k)` is the
     * k-th reading; no signal reads false); an abort rejects and stops, `done` resolves with the
     * returned value, anything else waits for the next frame. `clock(t)` is the t-th value passed
     * to the task's `Advance`. Nothing changes the settings while the frames run, so the task
     * starts with the settings and `onProgress` of the `generateAsync` call.
     */
    method GenerateAsync(input: GenerateInput, g: Collaborators, options: GenerateOptions,
                         aborted: nat -> bool, clock: nat -> real)
      returns (outcome: AsyncOutcome, task: ProjectionTask, nexts: nat)
      ensures fresh(task) && task.Valid()
      ensures task.g == g && task.input == input && task.owner == this && task.options == options
      ensures task.pc != Start ==> task.config == Config() && task.hasOnProgress == options.hasOnProgress
      ensures task.nextCalls == nexts
      ensures outcome.Resolved? <==> task.pc == Finished
      ensures NotAbortedBefore(aborted, nexts)
      ensures outcome.Rejected? ==> outcome.reason == ABORT_MESSAGE && aborted(nexts)
      ensures outcome.Resolved? ==>
        nexts > 0 && task.pc == Finished &&
        task.bvh == PreparedBvh(input, Config().projectionDirection) &&
        Arranged(RawEdges(g, task.bvh, Config()), task.edges, Config().sortEdges) &&
        outcome.value == LinePositions(TrimmedPrefix(g, task.bvh, task.edges, |task.edges|), 0.0)
    {
      task := Generate(input, g, options);
      outcome, nexts := RunFrames(task, aborted, clock);
    }
  }

  /** None of the first `n` readings of the abort signal saw it aborted. */
  predicate NotAbortedBefore(aborted: nat -> bool, n: nat) {
    forall k :: 0 <= k < n ==> !aborted(k)
  }

  /**
   * The `run` callback of `generateAsync`, one animation frame per round: read the abort signal,
   * then one `task.next()`; stop on an abort or when the generator is done. `task.nextCalls`
   * counts the `next()` calls, so `nexts` is exactly the number made here.
   */
  method RunFrames(task: ProjectionTask, aborted: nat -> bool, clock: nat -> real)
    returns (outcome: AsyncOutcome, nexts: nat)
    requires task.Valid() && task.pc != Finished
    modifies task, task.finalEdges
    ensures task.Valid()
    ensures old(task.pc) == Start && task.pc != Start ==>
      task.config == task.owner.Config() && task.hasOnProgress == task.options.hasOnProgress
    ensures task.nextCalls == old(task.nextCalls) + nexts
    ensures outcome.Resolved? <==> task.pc == Finished
    ensures NotAbortedBefore(aborted, nexts)
    ensures outcome.Rejected? ==> outcome.reason == ABORT_MESSAGE && aborted(nexts)
    ensures outcome.Resolved? ==>
      nexts > 0 && task.pc == Finished &&
      outcome.value == LinePositions(TrimmedPrefix(task.g, task.bvh, task.edges, |task.edges|), 0.0)
  {
    nexts := 0;
    var t := 0;
    while true
      invariant task.Valid() && task.pc != Finished
      invariant old(task.pc) == Start && task.pc != Start ==>
        task.config == task.owner.Config() && task.hasOnProgress == task.options.hasOnProgress
      invariant task.nextCalls == old(task.nextCalls) + nexts
      invariant NotAbortedBefore(aborted, nexts)
      decreases task.Measure()
    {
      if aborted(nexts) {
        outcome := Rejected(ABORT_MESSAGE);
        return;
      }
      nexts := nexts + 1;
      var ev;
      ev, t := task.Next(clock, t);
      if ev.Returned? {
        outcome := Resolved(ev.lines);
        return;
      }
    }
  }
}
