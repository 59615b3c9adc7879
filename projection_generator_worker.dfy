/**
 * `ProjectionGeneratorWorker`: the main-thread job handle that posts one job at a time to a web
 * worker, and, inside the worker function `myWorker`, the `??` option defaulting and the progress
 * throttle. Posted and received messages, the worker's error events and clock readings are inputs.
 */
module GeneratorWorker {
  import opened Wrappers
  import Projection

  const NAME: string := "ProjectionGeneratorWorker"
  const ALREADY_RUNNING: string := NAME + ": Already running job."
  const DISPOSED: string := NAME + ": Worker has been disposed."
  /** `this.worker.terminate()` on a handle whose worker is already `null`. */
  const TERMINATE_NULL: string := "TypeError: Cannot read properties of null (reading 'terminate')"
  /** `geometry.attributes.position.array` on a geometry without a position attribute. */
  const NO_POSITION: string := "TypeError: Cannot read properties of undefined (reading 'array')"
  /** Progress messages are at least this many milliseconds apart, unless the progress is 1. */
  const THROTTLE_INTERVAL: real := 10.0

  /**
   * The caller's `options` of `generate`; `None` is a missing, `undefined` or `null` property.
   * `hasOnProgress` is whether `options.onProgress` is truthy.
   */
  datatype ClientOptions = ClientOptions(
    projectionDirection: Option<string>,
    sortEdges: Option<bool>,
    angleThreshold: Option<real>,
    includeIntersectionEdges: Option<bool>,
    iterationTime: Option<real>,
    hasOnProgress: bool)

  /**
   * The `options` object that is posted: the caller's properties, `onProgress` replaced by `null`
   * (so it has no field here) and `includedProgressCallback` added.
   */
  datatype PostedOptions = PostedOptions(
    projectionDirection: Option<string>,
    sortEdges: Option<bool>,
    angleThreshold: Option<real>,
    includeIntersectionEdges: Option<bool>,
    iterationTime: Option<real>,
    includedProgressCallback: bool)

  /**
   * The geometry arrays of a job: the optional index copy and the flat position copy; `position`
   * is `None` when the geometry has no position attribute.
   */
  datatype JobGeometry = JobGeometry(index: Option<seq<nat>>, position: Option<seq<real>>)

  /** One `worker.postMessage({ index, position, options })`. */
  datatype Request = Request(index: Option<seq<nat>>, position: seq<real>, options: PostedOptions)

  /**
   * A message from the worker: `error` is `Some` when `data.error` is truthy, `result` is `Some`
   * when `data.result` is present (a typed array, truthy even when empty).
   */
  datatype Message = Message(error: Option<string>, result: Option<seq<real>>, progress: real)

  /** What the `onmessage` handler does with one message. */
  datatype Effect =
    | Reject(reason: string)
    | Resolve(position: seq<real>, itemSize: nat)
    | ReportProgress(progress: real)
    | Ignore

  /** The promise of the latest job. */
  datatype PromiseState = NoJob | Pending | Fulfilled(position: seq<real>) | RejectedWith(reason: string)

  /** Which `worker.onerror` is installed: the constructor's or the latest job's. */
  datatype ErrorHandler = CreationHandler | JobHandler

  /** The `options` object of the `postMessage` in `generate`. */
  function Posted(options: ClientOptions): (p: PostedOptions)
    ensures p.includedProgressCallback == options.hasOnProgress
    ensures p.projectionDirection == options.projectionDirection && p.sortEdges == options.sortEdges
    ensures p.angleThreshold == options.angleThreshold
    ensures p.includeIntersectionEdges == options.includeIntersectionEdges
    ensures p.iterationTime == options.iterationTime
  {
    PostedOptions(options.projectionDirection, options.sortEdges, options.angleThreshold,
                  options.includeIntersectionEdges, options.iterationTime, options.hasOnProgress)
  }

  /**
   * The settings of the generator inside `myWorker`. Each forwarded option wins unless it is
   * null or undefined; `iterationTime` is never forwarded.
   */
  function ReceivedConfig(options: PostedOptions): (c: Projection.GeneratorConfig)
    ensures options.projectionDirection.Some? ==> c.projectionDirection == options.projectionDirection.value
    ensures options.projectionDirection.None? ==> c.projectionDirection == Projection.DEFAULT_CONFIG.projectionDirection
    ensures options.sortEdges.Some? ==> c.sortEdges == options.sortEdges.value
    ensures options.sortEdges.None? ==> c.sortEdges == Projection.DEFAULT_SORT_EDGES
    ensures options.angleThreshold.Some? ==> c.angleThreshold == options.angleThreshold.value
    ensures options.angleThreshold.None? ==> c.angleThreshold == Projection.DEFAULT_ANGLE_THRESHOLD
    ensures options.includeIntersectionEdges.Some? ==>
      c.includeIntersectionEdges == options.includeIntersectionEdges.value
    ensures options.includeIntersectionEdges.None? ==>
      c.includeIntersectionEdges == Projection.DEFAULT_INCLUDE_INTERSECTION_EDGES
    ensures c.iterationTime == Projection.DEFAULT_ITERATION_TIME
  {
    var d := Projection.DEFAULT_CONFIG;
    Projection.GeneratorConfig(
      Coalesce(options.sortEdges, d.sortEdges),
      d.iterationTime,
      Coalesce(options.angleThreshold, d.angleThreshold),
      Coalesce(options.includeIntersectionEdges, d.includeIntersectionEdges),
      Coalesce(options.projectionDirection, d.projectionDirection))
  }

  /**
   * `myWorker`'s `new ProjectionGenerator()` and the four `??` assignments, on the worker side.
   */
  method ConfigureGenerator(options: PostedOptions) returns (generator: Projection.ProjectionGenerator)
    ensures fresh(generator) && generator.Config() == ReceivedConfig(options)
  {
    generator := new Projection.ProjectionGenerator();
    generator.projectionDirection := Coalesce(options.projectionDirection, generator.projectionDirection);
    generator.sortEdges := Coalesce(options.sortEdges, generator.sortEdges);
    generator.angleThreshold := Coalesce(options.angleThreshold, generator.angleThreshold);
    generator.includeIntersectionEdges := Coalesce(options.includeIntersectionEdges, generator.includeIntersectionEdges);
  }

  /**
   * From the caller to the worker's generator: a setting the caller gives is the one the worker
   * generates with, a setting it leaves out is the default, and the caller's `iterationTime` is lost.
   */
  lemma CallerSettingsReachWorker(options: ClientOptions)
    ensures var c := ReceivedConfig(Posted(options));
      c.projectionDirection == Coalesce(options.projectionDirection, Projection.DEFAULT_CONFIG.projectionDirection) &&
      c.sortEdges == Coalesce(options.sortEdges, Projection.DEFAULT_SORT_EDGES) &&
      c.angleThreshold == Coalesce(options.angleThreshold, Projection.DEFAULT_ANGLE_THRESHOLD) &&
      c.includeIntersectionEdges ==
        Coalesce(options.includeIntersectionEdges, Projection.DEFAULT_INCLUDE_INTERSECTION_EDGES) &&
      c.iterationTime == Projection.DEFAULT_ITERATION_TIME
    ensures options.iterationTime.Some? && options.iterationTime.value != Projection.DEFAULT_ITERATION_TIME ==>
      ReceivedConfig(Posted(options)).iterationTime != options.iterationTime.value
  {
  }

  /**
   * The job's `onmessage` handler: an error rejects, otherwise a result resolves with a position attribute of item
   * size 3, otherwise the progress goes to `onProgress` when the caller gave one.
   */
  function Dispatch(data: Message, hasOnProgress: bool): (e: Effect)
    ensures data.error.Some? <==> e.Reject?
    ensures e.Reject? ==> e.reason == data.error.value
    ensures e.Resolve? <==> data.error.None? && data.result.Some?
    ensures e.Resolve? ==> e.position == data.result.value && e.itemSize == 3
    ensures e.ReportProgress? <==> data.error.None? && data.result.None? && hasOnProgress
    ensures e.ReportProgress? ==> e.progress == data.progress
    ensures e.Ignore? <==> data.error.None? && data.result.None? && !hasOnProgress
  {
    if data.error.Some? then Reject(data.error.value)
    else if data.result.Some? then Resolve(data.result.value, 3)
    else if hasOnProgress then ReportProgress(data.progress)
    else Ignore
  }

  /** The `postMessage` in `myWorker` that ends a successful job. */
  function ResultMessage(lines: seq<real>): Message
  {
    Message(None, Some(lines), 1.0)
  }

  /** The `postMessage` in `onProgressCallback`: a throttled progress message. */
  function ProgressMessage(progress: real): Message
  {
    Message(None, None, progress)
  }

  /**
   * The worker's own messages, dispatched on the main thread: the final message resolves with the
   * lines it carries, a progress message reaches `onProgress` only when the caller gave one.
   */
  lemma WorkerMessagesDispatch(lines: seq<real>, progress: real, hasOnProgress: bool)
    ensures Dispatch(ResultMessage(lines), hasOnProgress) == Resolve(lines, 3)
    ensures Dispatch(ProgressMessage(progress), hasOnProgress) ==
      (if hasOnProgress then ReportProgress(progress) else Ignore)
  {
  }

  /** The job handle: `running`, whether `worker` is `null`, and the handlers it has installed. */
  class ProjectionGeneratorWorker {
    var running: bool
    var disposed: bool
    /** Whether `worker.onmessage` holds the latest job's handler (and not `null`). */
    var listening: bool
    var onerror: ErrorHandler
    /** `Boolean(options.onProgress)` of the latest job. */
    var hasOnProgress: bool
    var promise: PromiseState
    /** Every request posted to the worker, oldest first. */
    var posted: seq<Request>

    /**
     * Before the first accepted job nothing has been posted, the creation handler is installed and
     * the handle is idle; the job handler listens only once a job has been accepted.
     */
    ghost predicate Valid()
      reads this
    {
      (promise == NoJob ==> posted == [] && onerror == CreationHandler && !running && !listening) &&
      (posted != [] ==> promise != NoJob) &&
      (listening ==> promise != NoJob)
    }

    /** The `ProjectionGeneratorWorker` constructor: idle, with a worker and the creation-time error handler. */
    constructor()
      ensures Valid()
      ensures !running && !disposed && !listening && onerror == CreationHandler
      ensures promise == NoJob && posted == []
    {
      running := false;
      disposed := false;
      listening := false;
      onerror := CreationHandler;
      hasOnProgress := false;
      promise := NoJob;
      posted := [];
    }

    /**
     * `generate(geometry, options)`: refuse while running, then refuse once disposed; otherwise
     * mark the handle running, and in the promise executor install both handlers, copy the arrays
     * and post the job. `cloneError` is the `DataCloneError` that `postMessage` raises when a
     * property spread from `options` cannot be cloned. An exception in the executor rejects the
     * promise with nothing posted, and leaves the handle running with both handlers installed.
     */
    method Generate(geometry: JobGeometry, options: ClientOptions, cloneError: Option<string>)
      returns (r: Result<(), string>)
      requires Valid()
      modifies this
      ensures Valid()
      ensures old(running) ==> r == Err(ALREADY_RUNNING)
      ensures !old(running) && old(disposed) ==> r == Err(DISPOSED)
      ensures r.Err? ==>
        running == old(running) && disposed == old(disposed) && listening == old(listening) &&
        onerror == old(onerror) && hasOnProgress == old(hasOnProgress) && promise == old(promise) &&
        posted == old(posted)
      ensures r.Ok? <==> !old(running) && !old(disposed)
      ensures r.Ok? ==>
        running && !disposed && listening && onerror == JobHandler &&
        hasOnProgress == options.hasOnProgress
      ensures r.Ok? && geometry.position.None? ==>
        promise == RejectedWith(NO_POSITION) && posted == old(posted)
      ensures r.Ok? && geometry.position.Some? && cloneError.Some? ==>
        promise == RejectedWith(cloneError.value) && posted == old(posted)
      ensures r.Ok? && geometry.position.Some? && cloneError.None? ==>
        promise == Pending &&
        posted == old(posted) + [Request(geometry.index, geometry.position.value, Posted(options))]
    {
      if running {
        return Err(ALREADY_RUNNING);
      }
      if disposed {
        return Err(DISPOSED);
      }
      running := true;
      promise := Pending;
      onerror := JobHandler;
      listening := true;
      hasOnProgress := options.hasOnProgress;
      r := Ok(());
      match geometry.position
      case None =>
        promise := RejectedWith(NO_POSITION);
      case Some(position) =>
        if cloneError.Some? {
          promise := RejectedWith(cloneError.value);
        } else {
          posted := posted + [Request(geometry.index, position, Posted(options))];
        }
    }

    /**
     * The job's `worker.onmessage`: every message that reaches the job's handler clears `running`; an error or a
     * result settles the promise (if it is still pending) and detaches the handler. A terminated
     * worker and a detached handler receive nothing.
     */
    method OnMessage(data: Message) returns (e: Effect)
      requires Valid()
      modifies this
      ensures Valid()
      ensures disposed == old(disposed) && onerror == old(onerror) && posted == old(posted)
      ensures hasOnProgress == old(hasOnProgress)
      ensures old(disposed) || !old(listening) ==>
        e == Ignore && running == old(running) && listening == old(listening) && promise == old(promise)
      ensures !old(disposed) && old(listening) ==>
        e == Dispatch(data, hasOnProgress) && !running &&
        (listening <==> !(e.Reject? || e.Resolve?)) &&
        promise == Settle(old(promise), e)
    {
      if disposed || !listening {
        return Ignore;
      }
      running := false;
      e := Dispatch(data, hasOnProgress);
      if e.Reject? || e.Resolve? {
        listening := false;
      }
      promise := Settle(promise, e);
    }

    /**
     * `worker.onerror`: before any job the creation handler throws; a job's handler rejects
     * with the event's message and clears `running`. A terminated worker reports no errors.
     */
    method OnError(message: string) returns (thrown: Option<string>)
      requires Valid()
      modifies this
      ensures Valid()
      ensures disposed == old(disposed) && listening == old(listening) && onerror == old(onerror)
      ensures posted == old(posted) && hasOnProgress == old(hasOnProgress)
      ensures old(disposed) ==> thrown == None && running == old(running) && promise == old(promise)
      ensures !old(disposed) && onerror == CreationHandler ==>
        thrown == Some(CreationError(message)) && running == old(running) && promise == old(promise)
      ensures !old(disposed) && onerror == JobHandler ==>
        thrown == None && !running && promise == Settle(old(promise), Reject(NAME + ": " + message))
    {
      thrown := None;
      if disposed {
        return;
      }
      match onerror
      case CreationHandler =>
        thrown := Some(CreationError(message));
      case JobHandler =>
        promise := Settle(promise, Reject(NAME + ": " + message));
        running := false;
    }

    /** `dispose()`: terminate and drop the worker; a second call fails on the `null` worker. */
    method Dispose() returns (r: Result<(), string>)
      requires Valid()
      modifies this`disposed
      ensures Valid()
      ensures old(disposed) ==> r == Err(TERMINATE_NULL) && disposed
      ensures !old(disposed) ==> r == Ok(()) && disposed
    {
      if disposed {
        return Err(TERMINATE_NULL);
      }
      disposed := true;
      r := Ok(());
    }
  }

  /** A promise settles once: later `resolve` and `reject` calls leave it as it is. */
  function Settle(p: PromiseState, e: Effect): (q: PromiseState)
    ensures p != Pending ==> q == p
    ensures p == Pending && e.Reject? ==> q == RejectedWith(e.reason)
    ensures p == Pending && e.Resolve? ==> q == Fulfilled(e.position)
    ensures (e.ReportProgress? || e.Ignore?) ==> q == p
  {
    if p != Pending then p
    else match e
      case Reject(reason) => RejectedWith(reason)
      case Resolve(position, _) => Fulfilled(position)
      case _ => p
  }

  /** The constructor's `onerror` handler's error message, with the event's message when it has one. */
  function CreationError(message: string): (m: string)
    ensures |message| > 0 ==>
      m == NAME + ": Could not create Web Worker with error \"" + message + "\""
    ensures |message| == 0 ==> m == NAME + ": Could not create Web Worker."
  {
    if |message| > 0 then NAME + ": Could not create Web Worker with error \"" + message + "\""
    else NAME + ": Could not create Web Worker."
  }

  /**
   * A dispose while a job runs leaves the handle running, so the next `generate` reports the
   * running job rather than the disposal; only once idle does it report the disposal.
   */
  method DisposeWhileRunning(h: ProjectionGeneratorWorker, geometry: JobGeometry, options: ClientOptions,
                             cloneError: Option<string>)
    returns (r: Result<(), string>)
    requires h.Valid() && h.running && !h.disposed
    modifies h
    ensures r == Err(ALREADY_RUNNING) && h.disposed && h.running
  {
    var d := h.Dispose();
    r := h.Generate(geometry, options, cloneError);
  }

  /**
   * A job whose geometry has no position attribute is rejected without being posted, yet leaves
   * the handle running, so the next `generate` is refused as a running job until a message or an
   * error event of an earlier job arrives, if one still does.
   */
  method FailedJobBlocks(h: ProjectionGeneratorWorker, geometry: JobGeometry, next: JobGeometry,
                         options: ClientOptions, cloneError: Option<string>)
    returns (first: Result<(), string>, second: Result<(), string>)
    requires h.Valid() && !h.running && !h.disposed && geometry.position.None?
    modifies h
    ensures first.Ok?
    ensures h.promise == RejectedWith(NO_POSITION)
    ensures h.posted == old(h.posted)
    ensures second == Err(ALREADY_RUNNING) && h.running
  {
    first := h.Generate(geometry, options, cloneError);
    second := h.Generate(next, options, cloneError);
  }

  /**
   * `onProgressCallback`, the progress callback inside `myWorker`. `prevTime` starts at the clock reading
   * taken when the job message arrives and moves to the reading of every posted message.
   */
  class ProgressThrottle {
    var prevTime: real
    /** The messages posted so far, oldest first. */
    var sent: seq<Message>
    /** The clock reading of each posted message. */
    ghost var sentAt: seq<real>
    ghost const start: real

    /**
     * Every posted message with a progress other than 1 comes at least `THROTTLE_INTERVAL` after
     * the previous one (or after the start).
     */
    ghost predicate Valid()
      reads this
    {
      |sentAt| == |sent| &&
      (forall k :: 0 <= k < |sent| ==> sent[k] == ProgressMessage(sent[k].progress)) &&
      prevTime == (if |sentAt| == 0 then start else sentAt[|sentAt| - 1]) &&
      (forall k :: 0 <= k < |sent| ==>
        sent[k].progress == 1.0 ||
        sentAt[k] - (if k == 0 then start else sentAt[k - 1]) >= THROTTLE_INTERVAL)
    }

    constructor(now: real)
      ensures Valid() && prevTime == now && start == now && sent == []
    {
      prevTime := now;
      start := now;
      sent := [];
      sentAt := [];
    }

    /** One `onProgressCallback(progress)` call: post when 10 ms have passed since the last post, or when the job is done. */
    method OnProgress(progress: real, now: real) returns (post: bool)
      requires Valid()
      modifies this
      ensures Valid()
      ensures post <==> now - old(prevTime) >= THROTTLE_INTERVAL || progress == 1.0
      ensures post ==>
        prevTime == now && sent == old(sent) + [ProgressMessage(progress)] && sentAt == old(sentAt) + [now]
      ensures !post ==> prevTime == old(prevTime) && sent == old(sent) && sentAt == old(sentAt)
    {
      post := now - prevTime >= THROTTLE_INTERVAL || progress == 1.0;
      if post {
        sent := sent + [ProgressMessage(progress)];
        sentAt := sentAt + [now];
        prevTime := now;
      }
    }
  }
}
