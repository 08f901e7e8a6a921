/**
 * The message handler of `untar` as a state machine over values. The state
 * records what the handler has done so far: the `files` list it appends to,
 * the `progress` calls, the `resolve`/`reject` calls in the order they were
 * made, the number of `worker.terminate()` calls and the console lines.
 */
module Protocol {
  import opened EntryView

  /** What `reject` or a synchronous `throw` carries. */
  datatype ErrorValue =
    | TypeError(message: string)      // new TypeError(message)
    | JsError(message: string)        // new Error(message)
    | ErrorEvent(detail: string)      // the event passed to `worker.onerror`, as is

  /** The `type` values the handler's switch has a case for. */
  const KnownTypes := {"log", "extract", "complete", "error"}

  /** A `type` value that falls through to the switch's `default` case. */
  type UnknownType = t: string | t !in KnownTypes witness "unknown"

  /**
   * A message from the worker, by its `type` field: one constructor per case
   * of the switch, and `Unknown` for every other `type`.
   */
  datatype Msg =
    | Log(level: string, text: string)
    | Extract(entry: Entry)
    | Complete
    | Error(message: string)
    | Unknown(kind: UnknownType)

  const LogPrefix := "Worker: "
  const UnknownMessagePrefix := "Unknown message from worker: "

  datatype Settlement = Resolve(files: seq<Entry>) | Reject(reason: ErrorValue)

  /** A console line: `console[level](line)`. */
  datatype Diagnostic = Diagnostic(level: string, line: string)

  datatype Outcome = Pending | Resolved(files: seq<Entry>) | Rejected(reason: ErrorValue)

  datatype TaskState = TaskState(
    files: seq<Entry>,
    progress: seq<Entry>,
    settlements: seq<Settlement>,
    terminations: nat,
    console: seq<Diagnostic>)

  /** The state right after the worker is created: nothing received, nothing done. */
  const Initial := TaskState([], [], [], 0, [])

  /** The message types after which the handler calls `terminate`. */
  predicate IsTerminal(m: Msg) {
    m.Complete? || m.Error? || m.Unknown?
  }

  /** `worker.onmessage`: one switch over the message type. */
  function Step(s: TaskState, m: Msg): TaskState {
    match m
    case Log(level, text) =>
      s.(console := s.console + [Diagnostic(level, LogPrefix + text)])
    case Extract(entry) =>
      s.(files := s.files + [entry], progress := s.progress + [entry])
    case Complete =>
      s.(terminations := s.terminations + 1, settlements := s.settlements + [Resolve(s.files)])
    case Error(message) =>
      s.(terminations := s.terminations + 1, settlements := s.settlements + [Reject(JsError(message))])
    case Unknown(kind) =>
      s.(terminations := s.terminations + 1,
         settlements := s.settlements + [Reject(JsError(UnknownMessagePrefix + kind))])
  }

  /** `worker.onerror`: reject with the event; the worker is not terminated. */
  function TransportError(s: TaskState, event: string): TaskState {
    s.(settlements := s.settlements + [Reject(ErrorEvent(event))])
  }

  /** The handler applied to each message of a stream, in delivery order. */
  function Run(s: TaskState, msgs: seq<Msg>): TaskState
    decreases |msgs|
  {
    if msgs == [] then s else Run(Step(s, msgs[0]), msgs[1..])
  }

  /** The records of the `extract` messages of a stream, in order. */
  function Payloads(msgs: seq<Msg>): seq<Entry>
    decreases |msgs|
  {
    if msgs == [] then []
    else (if msgs[0].Extract? then [msgs[0].entry] else []) + Payloads(msgs[1..])
  }

  /** The number of messages of a stream that make the handler call `terminate`. */
  function TerminalCount(msgs: seq<Msg>): nat
    decreases |msgs|
  {
    if msgs == [] then 0 else (if IsTerminal(msgs[0]) then 1 else 0) + TerminalCount(msgs[1..])
  }

  /** The stream with its `log` messages removed. */
  function WithoutLogs(msgs: seq<Msg>): seq<Msg>
    decreases |msgs|
  {
    if msgs == [] then []
    else (if msgs[0].Log? then [] else [msgs[0]]) + WithoutLogs(msgs[1..])
  }

  /** The state without its console lines. */
  function Quiet(s: TaskState): TaskState {
    s.(console := [])
  }

  /** A promise takes the first `resolve` or `reject` call; later ones have no effect. */
  function OutcomeOf(s: TaskState): Outcome {
    if s.settlements == [] then Pending
    else match s.settlements[0]
      case Resolve(files) => Resolved(files)
      case Reject(reason) => Rejected(reason)
  }

  /** Running two streams one after the other is running their concatenation. */
  lemma {:induction false} RunAppend(s: TaskState, a: seq<Msg>, b: seq<Msg>)
    ensures Run(s, a + b) == Run(Run(s, a), b)
    decreases |a|
  {
    if a == [] {
      assert a + b == b;
    } else {
      assert (a + b)[1..] == a[1..] + b;
      RunAppend(Step(s, a[0]), a[1..], b);
    }
  }

  /**
   * Every `extract` appends its record to `files` and reports that record to
   * `progress`; nothing else touches either. So both end up as the old list
   * followed by the extract payloads in arrival order.
   */
  lemma {:induction false} RunFiles(s: TaskState, msgs: seq<Msg>)
    ensures Run(s, msgs).files == s.files + Payloads(msgs)
    ensures Run(s, msgs).progress == s.progress + Payloads(msgs)
    decreases |msgs|
  {
    if msgs != [] {
      RunFiles(Step(s, msgs[0]), msgs[1..]);
    }
  }

  /** Every `complete`, `error` or unknown message calls `terminate`, each time it arrives. */
  lemma {:induction false} RunTerminations(s: TaskState, msgs: seq<Msg>)
    ensures Run(s, msgs).terminations == s.terminations + TerminalCount(msgs)
    decreases |msgs|
  {
    if msgs != [] {
      RunTerminations(Step(s, msgs[0]), msgs[1..]);
    }
  }

  /** The handler only appends to the list of settlement calls. */
  lemma {:induction false} RunKeepsSettlements(s: TaskState, msgs: seq<Msg>)
    ensures |s.settlements| <= |Run(s, msgs).settlements|
    ensures Run(s, msgs).settlements[..|s.settlements|] == s.settlements
    ensures TerminalCount(msgs) == 0 ==> Run(s, msgs).settlements == s.settlements
    decreases |msgs|
  {
    if msgs != [] {
      var t := Step(s, msgs[0]);
      RunKeepsSettlements(t, msgs[1..]);
      assert t.settlements[..|s.settlements|] == s.settlements;
    }
  }

  /** Once a settlement call has been made, no later message changes the outcome. */
  lemma OutcomeIsFirstSettlement(s: TaskState, msgs: seq<Msg>)
    requires OutcomeOf(s) != Pending
    ensures OutcomeOf(Run(s, msgs)) == OutcomeOf(s)
  {
    RunKeepsSettlements(s, msgs);
    assert Run(s, msgs).settlements[0] == Run(s, msgs).settlements[..|s.settlements|][0];
  }

  /**
   * `log` messages are a side channel: dropping them from a stream changes
   * nothing but the console.
   */
  lemma {:induction false} LogsAreSideChannel(s: TaskState, t: TaskState, msgs: seq<Msg>)
    requires Quiet(s) == Quiet(t)
    ensures Quiet(Run(s, msgs)) == Quiet(Run(t, WithoutLogs(msgs)))
    decreases |msgs|
  {
    if msgs != [] {
      var m := msgs[0];
      if m.Log? {
        assert WithoutLogs(msgs) == WithoutLogs(msgs[1..]);
        LogsAreSideChannel(Step(s, m), t, msgs[1..]);
      } else {
        assert WithoutLogs(msgs) == [m] + WithoutLogs(msgs[1..]);
        assert Quiet(Step(s, m)) == Quiet(Step(t, m));
        LogsAreSideChannel(Step(s, m), Step(t, m), msgs[1..]);
      }
    }
  }

  /**
   * A stream as the worker emits it: any number of `log` and `extract`
   * messages, then one terminal message. The worker is terminated once, one
   * settlement call is made, and it carries the extracted records in arrival
   * order, the worker's error text verbatim, or the unknown type.
   */
  lemma ProtocolRun(body: seq<Msg>, last: Msg)
    requires forall i :: 0 <= i < |body| ==> !IsTerminal(body[i])
    requires IsTerminal(last)
    ensures Run(Initial, body + [last]).files == Payloads(body)
    ensures Run(Initial, body + [last]).progress == Payloads(body)
    ensures Run(Initial, body + [last]).terminations == 1
    ensures |Run(Initial, body + [last]).settlements| == 1
    ensures last.Complete? ==> OutcomeOf(Run(Initial, body + [last])) == Resolved(Payloads(body))
    ensures last.Error? ==> OutcomeOf(Run(Initial, body + [last])) == Rejected(JsError(last.message))
    ensures last.Unknown? ==>
      OutcomeOf(Run(Initial, body + [last])) == Rejected(JsError(UnknownMessagePrefix + last.kind))
  {
    var before := Run(Initial, body);
    RunAppend(Initial, body, [last]);
    assert Run(before, [last]) == Step(before, last);
    RunFiles(Initial, body);
    RunTerminations(Initial, body);
    NoTerminalCount(body);
    RunKeepsSettlements(Initial, body);
  }

  /** A stream without terminal messages has a terminal count of zero. */
  lemma {:induction false} NoTerminalCount(msgs: seq<Msg>)
    requires forall i :: 0 <= i < |msgs| ==> !IsTerminal(msgs[i])
    ensures TerminalCount(msgs) == 0
    decreases |msgs|
  {
    if msgs != [] {
      NoTerminalCount(msgs[1..]);
    }
  }

  /** The transport-error path rejects with the event itself and leaves the worker running. */
  lemma TransportErrorKeepsWorker(s: TaskState, event: string)
    requires s.settlements == []
    ensures OutcomeOf(TransportError(s, event)) == Rejected(ErrorEvent(event))
    ensures TransportError(s, event).terminations == s.terminations
    ensures TransportError(s, event).files == s.files
  {
  }
}
