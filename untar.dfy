/**
 * `untar(arrayBuffer)`: the entry checks, the worker it starts, and the task
 * whose `onmessage` / `onerror` handlers collect the extracted records and
 * settle the returned promise.
 */
module Untar {
  import opened Wrappers
  import opened FallbackDecoder
  import opened EntryView
  import opened Protocol

  /** The one request the task posts: `{type: "extract", buffer}`. */
  datatype Request = ExtractRequest(buffer: seq<byte>)

  /** The background worker, seen only through the calls the task makes on it. */
  class Worker {
    var inbox: seq<Request>
    var terminateCalls: nat

    constructor ()
      ensures inbox == [] && terminateCalls == 0
    {
      inbox, terminateCalls := [], 0;
    }

    method PostMessage(request: Request)
      modifies this
      ensures inbox == old(inbox) + [request] && terminateCalls == old(terminateCalls)
    {
      inbox := inbox + [request];
    }

    method Terminate()
      modifies this
      ensures terminateCalls == old(terminateCalls) + 1 && inbox == old(inbox)
    {
      terminateCalls := terminateCalls + 1;
    }
  }

  /** The environment: whether a `Worker` constructor exists, and the workers started so far. */
  class Host {
    const hasWorker: bool
    var workers: seq<Worker>

    constructor (hasWorker: bool)
      ensures this.hasWorker == hasWorker && workers == []
    {
      this.hasWorker := hasWorker;
      workers := [];
    }
  }

  /** The argument of `untar`: an `ArrayBuffer` with its bytes, or any other value. */
  datatype Arg = ArrayBuffer(bytes: seq<byte>) | NotArrayBuffer

  const NotArrayBufferMessage := "arrayBuffer is not an instance of ArrayBuffer."
  const NoWorkerMessage := "Worker implementation is not available in this environment."

  /**
   * What `untar` throws before starting anything: the type check comes first,
   * so a non-buffer is reported as a TypeError even where no Worker exists.
   */
  function EntryCheck(arg: Arg, hasWorker: bool): (thrown: Option<ErrorValue>)
    ensures thrown == None <==> arg.ArrayBuffer? && hasWorker
    ensures !arg.ArrayBuffer? ==> thrown == Some(TypeError(NotArrayBufferMessage))
    ensures arg.ArrayBuffer? && !hasWorker ==> thrown == Some(JsError(NoWorkerMessage))
  {
    if !arg.ArrayBuffer? then Some(TypeError(NotArrayBufferMessage))
    else if !hasWorker then Some(JsError(NoWorkerMessage))
    else None
  }

  /** The state the `untar` closure keeps for one extraction, with its two handlers. */
  class Task {
    const worker: Worker
    var files: seq<Entry>
    var progressLog: seq<Entry>
    var settlements: seq<Settlement>
    var console: seq<Diagnostic>

    function State(): TaskState
      reads this, worker
    {
      TaskState(files, progressLog, settlements, worker.terminateCalls, console)
    }

    /** Every record in `files` was reported to `progress`, in the same order. */
    ghost predicate Valid()
      reads this
    {
      progressLog == files
    }

    constructor (worker: Worker)
      requires worker.terminateCalls == 0
      ensures this.worker == worker && State() == Initial && Valid()
    {
      this.worker := worker;
      files, progressLog, settlements, console := [], [], [], [];
    }

    /** `worker.onmessage`; an `extract` record is decorated in place before it is kept. */
    method OnMessage(m: Msg)
      requires Valid()
      modifies this, worker, (if m.Extract? then {m.entry} else {})`decorated
      ensures Valid()
      ensures State() == Step(old(State()), m)
      ensures worker.inbox == old(worker.inbox)
      ensures m.Extract? ==> m.entry.decorated
    {
      match m
      case Log(level, text) =>
        console := console + [Diagnostic(level, LogPrefix + text)];
      case Extract(record) =>
        var file := DecorateExtractedFile(record);
        files := files + [file];
        progressLog := progressLog + [file];
      case Complete =>
        worker.Terminate();
        settlements := settlements + [Resolve(files)];
      case Error(message) =>
        worker.Terminate();
        settlements := settlements + [Reject(JsError(message))];
      case Unknown(kind) =>
        worker.Terminate();
        settlements := settlements + [Reject(JsError(UnknownMessagePrefix + kind))];
    }

    /** `worker.onerror`: reject with the event, without terminating the worker. */
    method OnWorkerError(event: string)
      requires Valid()
      modifies this
      ensures Valid()
      ensures State() == TransportError(old(State()), event)
      ensures worker.terminateCalls == old(worker.terminateCalls)
    {
      settlements := settlements + [Reject(ErrorEvent(event))];
    }
  }

  /**
   * `untar(arrayBuffer)`: throw on a non-buffer, then on a missing Worker;
   * otherwise start one worker, set up the task and post the buffer to it.
   */
  method Untar(host: Host, arg: Arg) returns (r: Result<Task, ErrorValue>)
    modifies host
    ensures EntryCheck(arg, host.hasWorker).Some? ==>
      r == Failure(EntryCheck(arg, host.hasWorker).value) && host.workers == old(host.workers)
    ensures EntryCheck(arg, host.hasWorker).None? ==>
      && r.Success? && fresh(r.value) && fresh(r.value.worker)
      && host.workers == old(host.workers) + [r.value.worker]
      && r.value.worker.inbox == [ExtractRequest(arg.bytes)]
      && r.value.State() == Initial && r.value.Valid()
  {
    if !arg.ArrayBuffer? {
      return Failure(TypeError(NotArrayBufferMessage));
    }
    if !host.hasWorker {
      return Failure(JsError(NoWorkerMessage));
    }
    var worker := new Worker();
    host.workers := host.workers + [worker];
    var task := new Task(worker);
    worker.PostMessage(ExtractRequest(arg.bytes));
    return Success(task);
  }
}
