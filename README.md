# js-untar: the extraction orchestrator in Dafny

`untar(arrayBuffer)` hands an in-memory tar archive to a background worker.
It then collects the records the worker sends back and returns a progressive
promise. That promise reports each record as it arrives and settles once with
the whole list or with an error. Every record is decorated with lazy accessors:
`blob`, `getBlobUrl`, `readAsString` and `readAsJSON`.

This project models that file in five modules:

- `Wrappers`: `Option` and `Result`.
- `FallbackDecoder`: the byte-by-byte branch of `readAsString`, used when the
  host has no `TextDecoder`. It has a loop over the buffer, the Latin-1 reading
  it computes, and the inverse of that reading.
- `EntryView`: the decorated record as a class. `_blob`, `_blobUrl` and
  `_string` are `Option` fields. Ghost counters record how often `new Blob`
  and `URL.createObjectURL` ran for each entry.
- `Protocol`: the `onmessage` / `onerror` handlers as a step function over a
  `TaskState` value. The state holds `files`, the `progress` calls, the
  `resolve`/`reject` calls in order, the `terminate` count and the console
  lines. Lemmas cover whole message streams.
- `Untar`: the `untar` entry point and the `Task` class whose handlers
  update `files` in place and call `terminate` on the worker. `OnMessage` is
  proved equal, step by step, to `Protocol.Step`, and `OnWorkerError` to
  `Protocol.TransportError`.

Host services are parameters or small recording classes:

- the existence of `Worker` is `Host.hasWorker`;
- a `Worker` records what is posted to it and how often it is terminated;
- `URL.createObjectURL` is `UrlFactory`;
- a `TextDecoder` is an optional function from an encoding label and bytes to text;
- `JSON.parse` is a function from text to `Result`.

Three behaviours of the code are worth stating outright, and the model
follows them:

- `onerror` rejects without terminating the worker.
- The handler has no guard against messages that arrive after a terminal one.
  A second `complete` or `error` calls `terminate` again, and a late `extract`
  still grows `files`. `Protocol.RunTerminations` and `Protocol.RunFiles` state
  this. Which settlement call wins cannot change
  (`Protocol.OutcomeIsFirstSettlement`), because a promise keeps its first
  settlement. The value it settled with is the list as it was at that call:
  the model does not follow the live array (see "## Left out").
- `readAsString` caches nothing. Its fallback branch writes `_string` and never
  reads it, and the `TextDecoder` branch does not write it. Every call decodes again.

## Model

| member | source | states |
|---|---|---|
| `Untar.EntryCheck` | build/dev/untar.js:22-29 | nothing is thrown exactly when the argument is an ArrayBuffer and a Worker exists; a non-buffer always gives the TypeError, even without a Worker; a buffer without a Worker gives the Error about the missing Worker |
| `Untar.Untar` | build/dev/untar.js:22-70 | if an entry check fails, that error is returned and no worker is created; otherwise exactly one fresh worker is created and receives exactly one `extract` request carrying the buffer, and the task starts with empty `files`, no settlement and no terminate call |
| `Untar.Task.constructor` | build/dev/untar.js:32-34 | a new task has empty `files` and progress log, no settlement calls, no console lines, and its worker has not been terminated |
| `Untar.Task.OnMessage` | build/dev/untar.js:40-66 | the new task state is `Protocol.Step` of the old one: `log` adds only a console line; `extract` decorates the record in place and appends that same record to `files` and to the progress calls; `complete`, `error` and unknown types call `terminate` once and add one resolve/reject call; the progress log keeps equal to `files` |
| `Untar.Task.OnWorkerError` | build/dev/untar.js:36-38 | adds one reject call carrying the error event itself; the worker's terminate count and `files` are unchanged |
| `Protocol.RunFiles` | build/dev/untar.js:47-51 | after any message stream, `files` and the progress calls are each the earlier list followed by the `extract` payloads in arrival order, one per message, with no reordering or deduplication |
| `Protocol.RunTerminations` | build/dev/untar.js:52-64 | after any message stream, the number of `terminate` calls has grown by exactly the number of `complete`, `error` and unknown messages, including ones that arrive after the first terminal message |
| `Protocol.RunAppend` | build/dev/untar.js:40-66 | handling two streams one after the other gives the same state as handling their concatenation |
| `Protocol.RunKeepsSettlements` | build/dev/untar.js:52-64 | the handler only appends resolve/reject calls and never changes earlier ones; a stream with no terminal message makes none |
| `Protocol.OutcomeIsFirstSettlement` | build/dev/untar.js:52-64 | once a resolve or reject call has been made, no further message changes which call is the first, so which settlement wins cannot change (the value recorded is the list as it was at that call) |
| `Protocol.LogsAreSideChannel` | build/dev/untar.js:44-46 | removing every `log` message from a stream leaves `files`, the progress calls, the settlement calls and the terminate count unchanged |
| `Protocol.ProtocolRun` | build/dev/untar.js:43-65 | for a stream of `log`/`extract` messages closed by one terminal message, the worker is terminated exactly once and exactly one settlement call is made: resolve with the extract payloads in order for `complete`; reject with `new Error(message)` carrying the worker's text verbatim for `error`; reject with `"Unknown message from worker: " + type` otherwise |
| `Protocol.TransportErrorKeepsWorker` | build/dev/untar.js:36-38 | on a task not yet settled, the transport error becomes the outcome (reject with the event), and the terminate count and `files` stay as they were |
| `EntryView.DecorateExtractedFile` | build/dev/untar.js:115-118 | returns the very record it was given, now carrying the accessors; none of its caches change |
| `EntryView.Entry.GetBlob` | build/dev/untar.js:74-78 | the first access builds a fresh Blob over the buffer's bytes and stores it; later accesses return the stored Blob and build nothing; at most one Blob is ever built per entry |
| `EntryView.Entry.GetBlobUrl` | build/dev/untar.js:79-83 | the first call creates one object URL for the entry's (memoised) Blob and stores it; if no Blob was cached, that Blob is a fresh one holding the buffer's bytes; later calls return the stored URL without calling `createObjectURL`; at most one URL is ever created per entry |
| `EntryView.EffectiveEncoding` | build/dev/untar.js:86 | an absent or empty encoding means `utf-8`; any other label is used as given; the result is never empty |
| `EntryView.FallbackIgnoresEncoding` | build/dev/untar.js:86-104 | without a `TextDecoder`, the text does not depend on the encoding label, and it has one character per byte |
| `EntryView.Entry.ReadAsString` | build/dev/untar.js:84-107 | returns the decoder's text for the effective encoding when a decoder exists, otherwise the Latin-1 fallback text (one character per byte), which is also stored in `_string`; the result never depends on the stored value |
| `EntryView.Entry.ReadAsJson` | build/dev/untar.js:108-112 | returns the parse of the text that `readAsString` gives with the default encoding; without a decoder, the parse of the Latin-1 text of the buffer, which is also left in `_string`; with a decoder, `_string` is unchanged |
| `FallbackDecoder.CharCodes` | build/dev/untar.js:97-102 | one char code per byte, in buffer order; code i equals byte i and lies in 0..255 |
| `FallbackDecoder.FromCharCodes` | build/dev/untar.js:104 | one character per code, character i having code i |
| `FallbackDecoder.Latin1Decode` | build/dev/untar.js:91-104 | the fallback text has exactly `byteLength` characters and character i has code equal to byte i |
| `FallbackDecoder.DecodeFallback` | build/dev/untar.js:91-104 | the loop over `byteLength` bytes returns exactly the Latin-1 text of the buffer: the same length, and character i has code equal to byte i |
| `FallbackDecoder.DecodeThenEncode` | build/dev/untar.js:91-104 | the fallback decoding loses nothing: re-encoding its text gives back the original bytes |
| `FallbackDecoder.EncodeThenDecode` | build/dev/untar.js:91-104 | every text whose character codes are all below 256 is the fallback decoding of some buffer |
| `FallbackDecoder.DecodeInjective` | build/dev/untar.js:91-104 | two buffers give the same fallback text only if they hold the same bytes |

## Left out

- The module-loader wrapper (lines 1-9), the build-time `workerScriptUri` value (line 120) and the source-map comment (line 124) are packaging, not behaviour.
- Probing `window`, `global` and `webkitURL` (lines 15-17) is not modelled. The Worker capability is `Host.hasWorker`, the decoder is an optional function and `URL` is a `UrlFactory` parameter.
- The worker's own tar parsing is not part of this model. So are the buffer transfer and detachment done by `postMessage` (line 69): the worker only records the request it receives.
- `console[level]` is recorded as a `(level, "Worker: " + msg)` line. The console call itself is not modelled, including the failure that an unknown level would cause.
- `Protocol.Step`, `Untar.Task.OnMessage`: inside one `complete`, `error` or unknown message, the order of `terminate` and the settlement call is not modelled. Both happen in the same step.
- `ProgressivePromise` is not part of this model. The outcome is taken to be the first resolve/reject call, as for a standard promise. The handlers themselves record every call.
- `Untar.Task.OnMessage`: `resolve(files)` passes the live array, so later `extract` messages would still grow the array the promise resolved with. The model stores a copy (`Resolve(files)` holds the list as it was).
- `Protocol.Msg`: the message payloads are already typed, and `Unknown` carries only a `type` string outside the four cases of the switch (`Protocol.UnknownType`). A `type` that is not a string is not modelled. A malformed `log` or `error` message with no `data` field, which would make the handler throw, is not modelled.
- `EntryView.EffectiveEncoding`: of the JavaScript falsy values, only an absent label and the empty string are modelled. Other falsy values such as `null` or `0` are not.
- `FallbackDecoder.FromCharCodes`: it is defined only for codes 0..255, the only codes this path produces. General `String.fromCharCode` (UTF-16 code units, 16-bit wrap-around) is not part of this model.
- `FallbackDecoder.DecodeFallback`: `String.fromCharCode.apply(null, charCodes)` passes one argument per byte, and JavaScript engines cap the length of an argument list (somewhere between about 65 thousand and 500 thousand). On a larger entry the source throws a RangeError. The model returns the text for every buffer length, and so do `EntryView.Entry.ReadAsString` and `EntryView.Entry.ReadAsJson` on the fallback path.
- `EntryView.Entry.ReadAsString`: the `TextDecoder` branch (lines 87-89) is a parameter. Its decoding, and what it does with unsupported labels, is not modelled.
- `EntryView.Entry.ReadAsJson`: `JSON.parse` is a parameter and JSON syntax is not modelled. For example, whether empty text fails depends on that parameter.
- `EntryView.Entry.GetBlobUrl`: the source tests the cache with `||`, so an empty URL string would be made again. `createObjectURL` never returns an empty string, so the model uses a plain `Option`.
- `EntryView.Entry.GetBlob` and `GetBlobUrl` are reachable only on a decorated record. That mirrors the fact that the accessors do not exist before `decorateExtractedFile` runs.
