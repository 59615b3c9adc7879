# three-edge-projection: hidden-line trimming, modelled in Dafny

The library projects the visible edges of a triangle mesh onto the horizontal plane. It is a
generator, `ProjectionGenerator.generate`. The generator first turns a cloned geometry so that the
requested view direction looks down the y axis, then collects the candidate edges and sorts them by
their lowest y. It then walks the edges one by one. For each edge it queries a bounding-volume
hierarchy (BVH) for the triangles that might hide it, and it records the hidden parts of the edge.
Whatever is not hidden goes into an `EdgeSet`, which is flattened into a position buffer at y = 0.
Between edges the generator yields once its time budget is spent. `generateAsync` drives it one
animation frame at a time and checks an abort signal before every step.

A web-worker wrapper, `ProjectionGeneratorWorker`, runs one job at a time on a worker thread. Inside the
worker, options fall back to the generator's defaults with `??`, and progress messages are throttled.
`createInlineWorker` builds the worker from the text of a function's body.

The model is split into these modules:

- `Wrappers`: `Option`, `Result`, and `Coalesce` for `??`.
- `Geometry`: vectors, lines, triangles and boxes over reals.
- `ViewDirection`: the direction switch and its rotations.
- `TrimRules`: the two shapecast callbacks, the per-edge walk over the offered triangles, the
  skipping of degenerate edges, and the sort.
- `Projection`: `EdgeSet`, the resumable task behind `generate`, `ProjectionGenerator` itself, and the
  `generateAsync` driver.
- `GeneratorWorker`: the job handle, the option defaulting and the progress throttle.
- `InlineWorker`: the body extraction.

How the model stands in for the parts it cannot see:

- **Unseen helpers.** The geometric helpers live in files that are not part of this model
  (`generateEdges`, `trimToBeneathTriPlane`, `getProjectedLineOverlap`, `appendOverlapRange`,
  `compressEdgeOverlaps`, `overlapsToLines`, `generateIntersectionEdges`, the degeneracy and
  edge predicates). So are the three.js and three-mesh-bvh calls `Ray.intersectBox` and
  `MeshBVH.shapecast`. All of them are fields of a `Collaborators` value. Nothing is assumed about
  what they compute, but as total functions they are assumed to return normally: no helper and no
  three.js call throws.
- **The generator.** It is a class with a program counter. One `Advance(now)` runs from one clock
  reading to the next: a clock reading, a `yield` or the `return`. One JavaScript `next()` is `Next`,
  which repeats `Advance` until the generator yields or returns.
- **Clocks and abort signals.** `performance.now()` readings and abort-signal readings are
  parameters.
- **Worker traffic.** Worker messages and error events are method arguments.

Behaviour the model reproduces as the code has it:

- Every message that reaches a job's `onmessage` handler clears `running`, and that includes plain
  progress messages (src/worker/ProjectionGeneratorWorker.js:124-126). While a job is still
  reporting progress, a second `generate` is therefore accepted.
- The job's `onerror` handler stays installed after the job has settled.
- `generate` sets `running` before the promise executor runs. When the executor throws, because the
  geometry has no position attribute or `postMessage` cannot clone an option, the promise rejects,
  nothing is posted, and the handle stays running until a message or error event of an earlier job
  arrives, if one still does (`GeneratorWorker.FailedJobBlocks`).
- `dispose` leaves `running` as it was. A handle disposed during a job therefore reports the running
  job, and not the disposal, on the next `generate` (`GeneratorWorker.DisposeWhileRunning`).
- A second `dispose` fails on the `null` worker.
- The generator's progress, `i / edges.length`, is always below 1 (`Projection.ProjectionTask.Advance`).
  The throttle's `progress === 1.0` escape is therefore never taken by messages coming from the
  generator itself.

## Model

| member | source | states |
|---|---|---|
| Wrappers.Coalesce | src/worker/ProjectionGeneratorWorker.js:35-38 | `a ?? b` is the option's value when it is present (null/undefined are absent) and the default otherwise |
| ViewDirection.MinAlong | src/ProjectionGenerator.js:139 | the lower bound of the bounding box along an axis is below every vertex and is attained by one |
| ViewDirection.MaxAlong | src/ProjectionGenerator.js:139 | the upper bound of the bounding box along an axis is above every vertex and is attained by one |
| ViewDirection.MidAlong | src/ProjectionGenerator.js:139-140 | the midpoint along an axis lies between the lower and upper bounds, equally far from both |
| ViewDirection.BoxCenter | src/ProjectionGenerator.js:139-140 | the centre of a non-empty point set lies inside its bounding box on every axis; an empty set gives the origin |
| ViewDirection.RotateFront | src/ProjectionGenerator.js:149 | `makeRotationX(-PI / 2)` on a vector: (x, y, z) becomes (x, z, -y) |
| ViewDirection.RotateLeft | src/ProjectionGenerator.js:155 | `makeRotationZ(-PI / 2)` on a vector: (x, y, z) becomes (y, -x, z) |
| ViewDirection.Turn | src/ProjectionGenerator.js:150-158 | one vertex translated by minus the centre, rotated, and translated back |
| ViewDirection.Turned | src/ProjectionGenerator.js:143-158 | every vertex is translated to the box centre's origin, rotated and translated back, and the count is kept |
| ViewDirection.Reorient | src/ProjectionGenerator.js:147-161 | "front" maps each vertex (relative to the box centre) (x,y,z) to (x,z,-y); "left" maps it to (y,-x,z); every other direction, "top" included, leaves the vertices unchanged; the vertex count is kept |
| ViewDirection.BoundsOfAffine | src/ProjectionGenerator.js:139-140 | when one coordinate of a point set is a shifted or mirrored copy of another's, its bounding-box bounds are the shifted or swapped-and-mirrored bounds |
| ViewDirection.MidOfAffine | src/ProjectionGenerator.js:139-140 | when one coordinate of a point set is a shifted or mirrored copy of another's, so is its bounding-box midpoint |
| ViewDirection.CenterOfMids | src/ProjectionGenerator.js:139-140 | the bounding-box centre is the triple of the per-axis midpoints |
| ViewDirection.FrontKeepsCenter | src/ProjectionGenerator.js:148-153 | the front turn leaves the bounding-box centre where it was |
| ViewDirection.LeftKeepsCenter | src/ProjectionGenerator.js:154-158 | the left turn leaves the bounding-box centre where it was |
| ViewDirection.TurnedKeepsCenter | src/ProjectionGenerator.js:139-158 | a turn about the bounding-box centre leaves that centre where it was |
| ViewDirection.ReorientKeepsCenter | src/ProjectionGenerator.js:139-161 | for every direction the bounding-box centre of the reoriented geometry is the original centre |
| ViewDirection.RotationsAreRigid | src/ProjectionGenerator.js:148-160 | both quarter-turn matrices preserve lengths |
| ViewDirection.ReorientIsRigid | src/ProjectionGenerator.js:147-161 | every vertex keeps its distance from the bounding-box centre |
| ViewDirection.TurnFourTimes | src/ProjectionGenerator.js:149-158 | four quarter turns about the same centre return a vertex to where it started |
| ViewDirection.TurnedStep | src/ProjectionGenerator.js:143-158 | turning a point set moves each vertex about the unchanged centre |
| ViewDirection.ReorientFourTimes | src/ProjectionGenerator.js:147-161 | reorienting four times in the same direction gives back the original vertices |
| TrimRules.LowerBox | src/ProjectionGenerator.js:210 | only `box.min.y` changes; it becomes the smaller of itself and the line's lowest y minus 1e-6, so the box only grows |
| TrimRules.IntersectsBounds | src/ProjectionGenerator.js:207-233 | a lowered box that contains the line's start is entered; otherwise it is entered exactly when the ray meets it closer to the start than the line's length (squared distances) |
| TrimRules.ClipBeneath | src/ProjectionGenerator.js:262-271 | a line entirely below the triangle is kept whole; otherwise the part `trimToBeneathTriPlane` leaves is used |
| TrimRules.Beneath | src/ProjectionGenerator.js:237-278 | the five guards reject in order: the triangle is entirely at or below the line's lowest y, the triangle projects degenerate, the line is a triangle edge, the trim is empty, the beneath segment is shorter than 1e-10; the segment is kept exactly when none holds; the whole line is used when it lies entirely below the triangle |
| TrimRules.RecordOverlap | src/ProjectionGenerator.js:282-289 | the overlaps are compressed only when both the projected overlap and the append succeed; without an overlap the list is unchanged |
| TrimRules.FullyHidden | src/ProjectionGenerator.js:292-297 | the edge counts as hidden entirely when the last recorded interval is exactly [0, 1] |
| TrimRules.IntersectsTriangle | src/ProjectionGenerator.js:235-301 | a rejected triangle records nothing and does not stop; otherwise the overlap is recorded, and the traversal stops exactly when the last interval is exactly [0, 1] |
| TrimRules.Candidates | src/ProjectionGenerator.js:205-233 | the triangles the shapecast offers for one edge, with `intersectsBounds` as its pruning test |
| TrimRules.Scan | src/ProjectionGenerator.js:205-303 | the overlaps after offering the triangles in order, each through `intersectsTriangle`, up to and including the first that stops the traversal; when one stops, the edge ends fully hidden |
| TrimRules.Stops | src/ProjectionGenerator.js:292-297 | whether some offered triangle stops the traversal |
| TrimRules.EdgeOverlaps | src/ProjectionGenerator.js:203-303 | the hidden overlaps of one edge: an empty list, then the whole shapecast |
| TrimRules.ScanIgnoresAfterStop | src/ProjectionGenerator.js:205-303 | once a triangle stops the shapecast, triangles offered later change nothing, and the edge is fully hidden |
| TrimRules.ScanContinues | src/ProjectionGenerator.js:205-303 | a shapecast that has not stopped carries its overlaps on to the next triangles |
| TrimRules.ScanWithoutOccluders | src/ProjectionGenerator.js:235-278 | triangles that all fail a guard leave the hidden overlaps empty of new entries and never stop the traversal |
| TrimRules.NextLive | src/ProjectionGenerator.js:193-200 | the next edge to trim is the first one at or after the index whose projection is not degenerate; every edge skipped is degenerate |
| TrimRules.NextLiveUnique | src/ProjectionGenerator.js:193-200 | any index past only degenerate edges and at a live edge (or the end) is the next edge trimmed |
| TrimRules.TrimmedPrefix | src/ProjectionGenerator.js:193-306 | `finalEdges.edges` after the loop has handled the first n edges: a degenerate edge adds nothing, a live one adds `overlapsToLines` of its hidden overlaps |
| TrimRules.SkipDegenerate | src/ProjectionGenerator.js:196-200 | degenerate edges add nothing to `finalEdges` |
| TrimRules.TrimNextLive | src/ProjectionGenerator.js:193-306 | trimming the next live edge extends `finalEdges` by `overlapsToLines` of that edge alone |
| TrimRules.SpliceSorted | src/ProjectionGenerator.js:180-184 | inserting an edge between the keys below and above its own keeps the list ordered by lowest y |
| TrimRules.SortedByLowestY | src/ProjectionGenerator.js:180-184 | non-decreasing by the comparator key `min(start.y, end.y)` |
| TrimRules.Spliced | src/ProjectionGenerator.js:180-184 | splicing an edge in at a position keeps the prefix and the suffix around it and adds exactly that edge to the multiset |
| TrimRules.InsertByLowestY | src/ProjectionGenerator.js:180-184 | one insertion keeps the order by `min(start.y, end.y)` and adds exactly that edge |
| TrimRules.SortByLowestY | src/ProjectionGenerator.js:178-186 | the sorted edges are a permutation of the input, non-decreasing in their lowest y |
| TrimRules.Arranged | src/ProjectionGenerator.js:177-186 | with `sortEdges` the edges are a sorted permutation of the candidates; without it they are the candidates unchanged |
| Projection.LinePositions | src/ProjectionGenerator.js:55-77 | the buffer holds exactly six numbers per edge, and block k is `[e[0], y, e[2], e[3], y, e[5]]` of edge k |
| Projection.SegmentPositions | src/ProjectionGenerator.js:63-68 | the six numbers of one line: both endpoints, x and z kept, y replaced by the requested height |
| Projection.LinePointsAtHeight | src/ProjectionGenerator.js:63-68 | every point in the buffer has the requested height y |
| Projection.EdgeSet.constructor | src/ProjectionGenerator.js:49-53 | a new `EdgeSet` holds no lines |
| Projection.EdgeSet.GetLineGeometry | src/ProjectionGenerator.js:55-77 | the counter loop fills an array of length `6 * edges.length` with exactly `LinePositions(edges, y)` |
| Projection.PreparedBvh | src/ProjectionGenerator.js:133-165 | a geometry input is queried through its reoriented clone with its index kept; a BVH input is used as given |
| Projection.RawEdges | src/ProjectionGenerator.js:168-175 | the candidates are the feature edges, followed by the intersection edges exactly when those are enabled |
| Projection.ProjectionTask.constructor | src/ProjectionGenerator.js:128 | a new task has run nothing: it holds its generator, its options and its input, and has read neither the settings nor `onProgress` yet |
| Projection.GenerateOptions.constructor | src/ProjectionGenerator.js:128-130 | the options object records whether it carries an `onProgress` callback |
| Projection.ProjectionTask.TrimEdge | src/ProjectionGenerator.js:204-303 | the hidden overlaps of the edge are those of the shapecast walk, stopping at the first triangle that stops it |
| Projection.ProjectionTask.TrimFrom | src/ProjectionGenerator.js:193-200 | from an index, the loop either trims the next live edge or returns the line geometry of all edges |
| Projection.ProjectionTask.SkipFrom | src/ProjectionGenerator.js:193-200 | the `continue` loop stops at the first edge from the index whose projection is not degenerate (or at the end), past only degenerate edges |
| Projection.ProjectionTask.ContinueAfterEdge | src/ProjectionGenerator.js:308-309 | within the time budget the loop goes on with the edge after i, without yielding and without touching the timer |
| Projection.ProjectionTask.Finish | src/ProjectionGenerator.js:325 | the return value is `getLineGeometry(0)` of all trimmed edges |
| Projection.ProjectionTask.TrimAt | src/ProjectionGenerator.js:195-306 | one live edge is trimmed and its lines appended; the task stops at the clock reading with `finalEdges` equal to the trimmed prefix |
| Projection.ProjectionTask.Setup | src/ProjectionGenerator.js:130-188 | the settings and `onProgress` are read from the generator and the options as they are now; the BVH is prepared, the edges are collected and arranged (sorted permutation or unchanged), and the generator yields without progress |
| Projection.ProjectionTask.YieldAfterEdge | src/ProjectionGenerator.js:309-318 | the yield after edge i reports `i / edges.length`, which lies in [0, 1), only when `onProgress` was given |
| Projection.ProjectionTask.ResumeAfterSetup | src/ProjectionGenerator.js:188-193 | after the first yield the collected lines start empty, the timer takes the reading, and the loop starts from edge 0 |
| Projection.ProjectionTask.ResumeAfterYield | src/ProjectionGenerator.js:318-319 | on resumption after a yield the timer restarts and the loop goes on with the edge after i |
| Projection.ProgressBelowOne | src/ProjectionGenerator.js:313 | `i / edges.length` lies in [0, 1) for every edge index i |
| Projection.ProjectionTask.Advance | src/ProjectionGenerator.js:130-325 | it yields only between edges and only when the elapsed time exceeds `iterationTime`, and only then reports `i / edges.length < 1`; the timer resets on resumption; it returns the flattened trimmed edges at y = 0, and a finished task reports done; the termination measure decreases; the first step reads the current settings and `onProgress`, and later steps keep them |
| Projection.ProjectionTask.Resume | src/ProjectionGenerator.js:188-325 | every step after setup: the same outcomes as `Advance`, with the settings, the BVH and the edges left as they are |
| Projection.ProjectionTask.Next | src/ProjectionGenerator.js:110 | one `next()` is counted once, ends in a yield or the return value, and the task gets strictly closer to finishing |
| Projection.ProjectionTask.RunOn | src/ProjectionGenerator.js:110 | within one `next()`, steps that only read the clock are repeated until a yield or the return, with the settings kept and no further `next()` counted |
| Projection.ProjectionGenerator.constructor | src/ProjectionGenerator.js:83-91 | the defaults are `sortEdges` true, `iterationTime` 30, `angleThreshold` 50, `includeIntersectionEdges` true, direction "top" |
| Projection.ProjectionGenerator.Generate | src/ProjectionGenerator.js:128-131 | a fresh, not yet started task bound to this generator and these options; their values are read only when its first `next()` runs |
| Projection.ProjectionGenerator.GenerateAsync | src/ProjectionGenerator.js:93-126 | `next()` is called exactly `nexts` times, each after an abort check that read false; an abort seen at the next check rejects with the abort message and no further `next()` follows; the promise resolves exactly when the task has finished, with its returned line geometry of the oriented, arranged and trimmed edges; a started task ran with the generator's settings and `onProgress` of the call |
| Projection.RunFrames | src/ProjectionGenerator.js:101-121 | the `run` callback calls `next()` exactly `nexts` times, each after a signal check that read false; it rejects on the first check that reads aborted, without calling `next()` again; it resolves exactly when the task is done, with the value of that step |
| GeneratorWorker.Posted | src/worker/ProjectionGeneratorWorker.js:158-166 | the posted options are the caller's, with `onProgress` nulled and `includedProgressCallback` set to whether it was given |
| GeneratorWorker.ReceivedConfig | src/worker/ProjectionGeneratorWorker.js:34-38 | direction, sort, angle and intersection settings take the option unless it is null or undefined, else the default; `iterationTime` is always the default |
| GeneratorWorker.ConfigureGenerator | src/worker/ProjectionGeneratorWorker.js:34-38 | the worker's generator has exactly the received configuration |
| GeneratorWorker.CallerSettingsReachWorker | src/worker/ProjectionGeneratorWorker.js:34-38 | from caller to worker each setting is the caller's or the default, and a non-default `iterationTime` is lost |
| GeneratorWorker.Dispatch | src/worker/ProjectionGeneratorWorker.js:129-145 | an error rejects; otherwise a result resolves with item size 3; otherwise progress reaches `onProgress` if and only if it was given |
| GeneratorWorker.ResultMessage | src/worker/ProjectionGeneratorWorker.js:52-58 | the final message of a job: no error, the result lines, progress 1 |
| GeneratorWorker.ProgressMessage | src/worker/ProjectionGeneratorWorker.js:15-20 | a progress message: no error, no result, the progress value |
| GeneratorWorker.WorkerMessagesDispatch | src/worker/ProjectionGeneratorWorker.js:15-20 | the worker's result message resolves with its lines; its progress messages reach `onProgress` only when one was given |
| GeneratorWorker.ProjectionGeneratorWorker.constructor | src/worker/ProjectionGeneratorWorker.js:77-96 | a new handle is idle, has a worker, and has the creation error handler |
| GeneratorWorker.ProjectionGeneratorWorker.Generate | src/worker/ProjectionGeneratorWorker.js:98-170 | while running it throws "Already running job" and changes nothing; otherwise a disposed handle throws "Worker has been disposed"; an accepted job sets `running` and installs both handlers; it then posts the job with the posted options, unless the geometry has no position attribute or `postMessage` cannot clone the options, in which case the promise rejects with that error and nothing is posted |
| GeneratorWorker.ProjectionGeneratorWorker.OnMessage | src/worker/ProjectionGeneratorWorker.js:124-147 | a delivered message clears `running` and is dispatched; an error or result settles a pending promise and detaches the handler |
| GeneratorWorker.ProjectionGeneratorWorker.OnError | src/worker/ProjectionGeneratorWorker.js:82-94 | before any job the error throws, with the event's message when it has one; during a job it rejects with `NAME: message` and clears `running` |
| GeneratorWorker.ProjectionGeneratorWorker.Dispose | src/worker/ProjectionGeneratorWorker.js:172-177 | the worker becomes null; disposing again fails |
| GeneratorWorker.Settle | src/worker/ProjectionGeneratorWorker.js:119-139 | a promise settles once: only a pending one takes a rejection or a resolution; progress leaves it as it is |
| GeneratorWorker.CreationError | src/worker/ProjectionGeneratorWorker.js:84-92 | the creation error names the event's message when it is non-empty |
| GeneratorWorker.DisposeWhileRunning | src/worker/ProjectionGeneratorWorker.js:100-110 | disposal during a job leaves the handle running, so `generate` reports the running job first |
| GeneratorWorker.FailedJobBlocks | src/worker/ProjectionGeneratorWorker.js:113-150 | a job whose geometry lacks a position attribute rejects without being posted and leaves the handle running, so the next `generate` is refused |
| GeneratorWorker.ProgressThrottle.constructor | src/worker/ProjectionGeneratorWorker.js:9 | the timestamp starts at the job's arrival time and nothing has been posted |
| GeneratorWorker.ProgressThrottle.OnProgress | src/worker/ProjectionGeneratorWorker.js:10-25 | a progress message is posted iff at least 10 ms have passed since the last post or the progress is 1; the timestamp moves only on a post; posts other than progress 1 stay at least 10 ms apart |
| InlineWorker.IndexOf | src/utils/worker.js:5 | the first position of the character, or -1 exactly when it is absent |
| InlineWorker.LastIndexOf | src/utils/worker.js:6 | the last position of the character, or -1 exactly when it is absent |
| InlineWorker.Clamp | src/utils/worker.js:4-7 | a `substring` argument is clamped into [0, length] |
| InlineWorker.Substring | src/utils/worker.js:4-7 | the clamped arguments are swapped when the start lies after the end |
| InlineWorker.WorkerCode | src/utils/worker.js:3-7 | with the first `{` before the last `}`, the code is exactly the text strictly between them |
| InlineWorker.WorkerCodeRebuilds | src/utils/worker.js:3-7 | in that case the code has length j - i - 1, and the text through `{`, the code and the text from `}` on rebuild the source |
| InlineWorker.ThreeParts | src/utils/worker.js:4-7 | cutting a text at two positions and joining the parts gives it back |
| InlineWorker.WorkerCodeUnbalanced | src/utils/worker.js:4-7 | with neither brace the code is empty; with only `{` it is the prefix through `{`; with only `}` it is the prefix before `}`; with `}` before `{` it runs from `}` through `{` (clamp and swap) |
| InlineWorker.WorkerCodeIsBody | src/utils/worker.js:3-7 | for a source whose first `{` is at i and last `}` at j, the code is the text strictly between |
| InlineWorker.FirstIndex | src/utils/worker.js:5 | a position of the character with none before it is what `indexOf` returns |
| InlineWorker.LastIndex | src/utils/worker.js:6 | a position of the character with none after it is what `lastIndexOf` returns |

## Left out

- Floating point: coordinates are reals. `Float32Array` rounding is not modelled, and neither are the
  `Math.PI` terms of the rotation matrices; the quarter turns use their exact entries (cos 0, sin -1).
  `distance() < 1e-10` is compared as squared lengths, which is the same test over the reals.
- The geometric helpers and the three.js / three-mesh-bvh internals are only signatures. Their code is
  not part of this model. The BVH's traversal order is whatever `shapecast` offers, and the
  `MeshBVH` constructor's reordering of the index buffer is not modelled.
- Projection.ProjectionTask.Setup: the yields inside `yield* generateIntersectionEdges(...)` are
  not modelled. That helper's code is not part of this model, so the setup runs to `generate`'s own
  first `yield` in one step, and only the intersection edges it finally returns are used.
- TrimRules.SortByLowestY: the result is sorted and a permutation. It is not stated to equal the
  stable order that `Array.prototype.sort` produces, and the array is not sorted in place.
- Projection.ProjectionTask.Advance: the `finalEdges` argument passed to `onProgress` is not modelled;
  only the reported progress value is.
- Projection.ProjectionTask.ResumeAfterSetup: the source creates a new `EdgeSet` after the first
  `yield`; the model empties the one the task was built with. Nothing outside the task can see it
  before that point, so the lines collected are the same.
- Projection.ProjectionGenerator.Generate: the input is a value captured at the call. The source
  clones the geometry at the first `next()`, so a change to the geometry object in between is not
  modelled; the settings and `onProgress`, which are read then too, are.
- TrimRules.IntersectsBounds: the ray's direction is the line's delta, not normalised. The point where
  a ray meets a box does not depend on the length of its direction, so the normalisation is left to
  the `intersectBox` oracle.
- GeneratorWorker.ProjectionGeneratorWorker.Generate: the two executor failures modelled are a
  missing position attribute (a fixed `TypeError` message, whose wording depends on the engine) and
  a `DataCloneError` from `postMessage`, whose text is an argument. Other exceptions in the executor
  are not modelled.
- Projection.ProjectionGenerator.GenerateAsync: the error paths of `generate` are not modelled, since
  the helpers are taken to return normally. For example, `_box.setFromBufferAttribute` throws at the
  first `next()` on a geometry without a position attribute. When that happens in the first `run()`,
  which runs inside the promise executor, the promise rejects with that error. A throw in a later
  frame escapes `requestAnimationFrame` and leaves the promise pending. `Mesh` cannot express a
  missing position, and `AsyncOutcome` has no rejection other than the abort.
- Truthiness: `onProgress`, `data.error` and `data.result` are booleans or options inside the model.
  An error object counts as truthy, and an empty string error is not distinguished.
- Host plumbing: `performance.now`, `requestAnimationFrame`, `postMessage` with transfer lists,
  `Blob`, `URL.createObjectURL`, `new Worker`, and `Worker.terminate` are left out. The two
  `generateAsync` callbacks run as one loop, and one frame is one loop round.
- GeneratorWorker.ProjectionGeneratorWorker.Dispose: the failure on a second call is a fixed
  `TypeError` message. The exact wording of that error depends on the JavaScript engine.
- The body of `myWorker`, apart from the option defaults, the throttle and the message shapes, is
  left out: building the `BufferGeometry`, running the generator to completion, and `catch`. Its
  module-level imports are not available inside a Blob worker. The duplicate `three` import at
  the top of src/worker/ProjectionGeneratorWorker.js is a module error and is not modelled.
- The examples under example/ and src/worker/silhouetteAsync.worker.js are not modelled. The
  silhouette worker's throttle is the same rule as `GeneratorWorker.ProgressThrottle`.
