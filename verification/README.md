# Log-points debug adapter, modelled in Dafny

This project models `NodeDebugSession`, the log-points debug adapter of the
App Service extension. On one side it speaks the Debug Adapter Protocol (DAP)
to the editor. On the other side it calls the remote log-points service of a
hosted web app. The session stores the identity it is given at `attach`: the
session id, debug id, site name, instance affinity and the publishing user
name and password. Every remote request built after that carries this
identity. The session answers `setBreakpoints` and `threads` at once. It turns
the custom commands `loadSource`, `setLogpoint` and `removeLogpoint`, and
`disconnect`, into remote calls, and it answers those requests, or not, when
the call's tagged success/failure result (`CommandRunResult`) comes back. It
reports the scripts the remote side has loaded as `loadedSource` events. Each
script's `sourceId` becomes a numeric `sourceReference` through JavaScript's
`parseInt(sourceId, 10)`.

Files:

- `wrappers.dfy`: module `Wrappers`, the `Option` type (`None` is an
  undefined value, or NaN for a parsed number).
- `js_parse_int.dfy`: module `JsParseInt`. It defines `parseInt` with radix 10,
  as section 19.2.5 of ECMA-262 defines it, as a total function. Its
  properties are a round trip against a reference decimal encoding, the
  skipping of leading whitespace, and when the result is NaN.
- `debug_protocol.dfy`: module `DebugProtocol`. It holds the messages the
  adapter sends, the remote requests and results, and the pure mappings from a
  result to a response body or to a list of `loadedSource` events.
- `log_points_debug_adapter.dfy`: module `LogPointsDebugAdapter`, the class
  `NodeDebugSession`.
  - The class has the six session fields. It has one append-only `trace` of
    everything sent to the client (`Send`) or issued to the remote service
    (`Issue`), in order. It has the set of issued calls that have already
    settled.
  - Each `.then` continuation of the source is a method of its own
    (`…Settled`). It is called with the trace position of the call it resumes
    and the result that call resolved to.
  - The object invariant `Valid()` says three things. Only positions of
    issued calls are marked settled. After an attach, the fields still hold
    what that attach supplied. Every call issued since then carries that
    identity. That a call settles at most once comes from `Pending`, which
    every continuation requires: its position is not yet settled.
- `scenarios.dfy`: module `Scenarios`. It runs whole sessions through the
  method contracts and states what the client sees.

Two behaviours of the code worth stating plainly:

- `removeLogpoint` gets no response: its result is only logged
  (src/diagnostics/logPointsDebugAdapter.ts:125-131), so
  `RemoveLogpointSettled` sends nothing.
- `parseInt` never throws, so the `catch` at
  src/diagnostics/logPointsDebugAdapter.ts:156-158 cannot run.
  `sourceReference` is always set, to NaN (`None`) when no digit follows the
  leading whitespace and the optional sign.

Modelling choices:

- A session field read before `attach` is JavaScript's `undefined`, written
  `None`. The affinity is `None` after an attach without an `instanceId`.
- DAP responses carry the number of the request they answer (`requestSeq`).
  A continuation answers the request whose handler issued its call
  (`RemoteCall.origin`).
- The `args` of a custom request are typed `any` in the source, so the model
  uses a general `JsValue`. `setLogpoint` reads four properties of it. On
  `undefined` or `null` the first read throws a TypeError before any remote
  call is issued. `CustomRequest` then returns `threw` and changes nothing.
- The payloads of successful results have fixed shapes. For `loadSource` it
  is `{data}`, inferred from the use of `result.json.data` at
  src/diagnostics/logPointsDebugAdapter.ts:98. For loaded scripts it is
  `{data: [{name, path, sourceId}]}`, as used at :152-155. The `setLogpoint` payload is opaque and
  is passed through whole.

## Model

| member | source | states |
|---|---|---|
| `LogPointsDebugAdapter.NodeDebugSession.constructor` | src/diagnostics/logPointsDebugAdapter.ts:39-45 | lines and columns are zero-based (`debuggerLinesStartAt1`/`debuggerColumnsStartAt1` false); no identity field is set yet; nothing has been sent or issued |
| `LogPointsDebugAdapter.NodeDebugSession.InitializeRequest` | src/diagnostics/logPointsDebugAdapter.ts:47-52 | appends the response to the initialize request (its capabilities body taken as given), and after it the `initialized` event; nothing else |
| `LogPointsDebugAdapter.NodeDebugSession.AttachRequest` | src/diagnostics/logPointsDebugAdapter.ts:54-66 | afterwards the six fields equal the supplied sessionId, debugId, siteName, instanceId, user name and password; exactly one successful response is sent, with `supportsConfigurationDoneRequest = false`; no remote call; the invariant now binds later calls to these arguments |
| `LogPointsDebugAdapter.NodeDebugSession.SetBreakPointsRequest` | src/diagnostics/logPointsDebugAdapter.ts:68-75 | for any arguments, exactly one response with an empty `breakpoints` list; only the trace may change, so no session field does |
| `LogPointsDebugAdapter.NodeDebugSession.ThreadsRequest` | src/diagnostics/logPointsDebugAdapter.ts:77-87 | exactly one response listing the single thread (1, "thread 1"), and after it exactly one loaded-scripts call with the stored ids |
| `LogPointsDebugAdapter.NodeDebugSession.GetLoadedScripts` | src/diagnostics/logPointsDebugAdapter.ts:146-149 | issues exactly one loaded-scripts request carrying the stored session and debug ids, site, affinity and credential; sends nothing |
| `LogPointsDebugAdapter.NodeDebugSession.CustomRequest` | src/diagnostics/logPointsDebugAdapter.ts:90-131 | `loadSource`, `setLogpoint` and `removeLogpoint` each issue exactly one remote call with the stored identity and their own fields (the argument itself as source or logpoint id; `scriptId`, `lineNumber`, `columnNumber`, `expression` for a logpoint); no response is sent now; any other command, or a throwing `setLogpoint` argument, changes nothing; it throws exactly for `setLogpoint` on undefined or null arguments |
| `LogPointsDebugAdapter.NodeDebugSession.LoadSourceSettled` | src/diagnostics/logPointsDebugAdapter.ts:94-106 | when the load-source result arrives, exactly one successful response to the originating request, with body `LoadSourceBody(result)` |
| `LogPointsDebugAdapter.NodeDebugSession.SetLogpointSettled` | src/diagnostics/logPointsDebugAdapter.ts:112-123 | when the set-logpoint result arrives, exactly one successful response to the originating request, with body `SetLogpointBody(result)` |
| `LogPointsDebugAdapter.NodeDebugSession.RemoveLogpointSettled` | src/diagnostics/logPointsDebugAdapter.ts:127-130 | the remove-logpoint result, success or failure, sends nothing; the call only becomes settled |
| `LogPointsDebugAdapter.NodeDebugSession.DisconnectRequest` | src/diagnostics/logPointsDebugAdapter.ts:134-139 | issues exactly one close-session request carrying the stored session id, site, affinity and credential; no response yet |
| `LogPointsDebugAdapter.NodeDebugSession.CloseSessionSettled` | src/diagnostics/logPointsDebugAdapter.ts:139-143 | exactly one successful disconnect response, the same for a success and a failure result |
| `LogPointsDebugAdapter.NodeDebugSession.LoadedScriptsSettled` | src/diagnostics/logPointsDebugAdapter.ts:151-162 | on success the trace grows by exactly `LoadedSourceEvents(data)`, one event per entry in the order returned; on failure nothing is sent |
| `LogPointsDebugAdapter.NodeDebugSession.PublishCredential` | src/diagnostics/logPointsDebugAdapter.ts:166-172 | the credential's location is undefined; once attached, its user name and password are exactly the ones attach supplied |
| `LogPointsDebugAdapter.NodeDebugSession.Outbound` | src/diagnostics/logPointsDebugAdapter.ts:93-94 | a remote call goes to the stored site and affinity with the stored credential; once attached, a request built from the stored ids carries the whole attached identity |
| `DebugProtocol.Property` | src/diagnostics/logPointsDebugAdapter.ts:109-110 | reading a property throws exactly on undefined and null, and yields an object's own property when present |
| `DebugProtocol.LoadSourceBody` | src/diagnostics/logPointsDebugAdapter.ts:96-104 | the body holds the content exactly when the result is a success, and is `{content: json.data}`; on failure it is `{error: result.error}` |
| `DebugProtocol.SetLogpointBody` | src/diagnostics/logPointsDebugAdapter.ts:114-120 | the body is the whole payload exactly when the result is a success; on failure it is `{error: result.error}` |
| `DebugProtocol.ScriptSourceReference` | src/diagnostics/logPointsDebugAdapter.ts:153-155 | a script whose sourceId is the decimal numeral of n is reported with reference n; one whose sourceId starts with neither a digit, a sign nor whitespace is still reported, with name and path, and the NaN reference |
| `DebugProtocol.LoadedSourceEvents` | src/diagnostics/logPointsDebugAdapter.ts:152-161 | one output per script entry |
| `DebugProtocol.LoadedSourceEventsAt` | src/diagnostics/logPointsDebugAdapter.ts:152-161 | the k-th output is the `loadedSource` event carrying the k-th entry's name, path and `parseInt(sourceId, 10)` |
| `DebugProtocol.LoadedSourceEventsAreEvents` | src/diagnostics/logPointsDebugAdapter.ts:151-162 | the fetch produces only `loadedSource` messages, one per entry and in order: no response and no further remote call |
| `JsParseInt.ParseIntOfDecimal` | src/diagnostics/logPointsDebugAdapter.ts:155 | round trip: `parseInt` of the decimal numeral of any integer n, followed by any text not starting with a digit, is n |
| `JsParseInt.ParseIntSkipsWhitespace` | src/diagnostics/logPointsDebugAdapter.ts:155 | leading whitespace and line terminators never change the result |
| `JsParseInt.ParseIntNaN` | src/diagnostics/logPointsDebugAdapter.ts:155 | whitespace, at most one sign, then no digit: the result is NaN (`None`) |
| `JsParseInt.TrimStartRemovesLeadingWhitespace` | src/diagnostics/logPointsDebugAdapter.ts:155 | the trimming step drops exactly the leading whitespace: what it drops is all whitespace and what it keeps is a suffix not starting with any |
| `JsParseInt.DigitPrefixIsLongest` | src/diagnostics/logPointsDebugAdapter.ts:155 | the digits read are the longest digit prefix: a prefix, all digits, followed by the end or a non-digit |
| `Scenarios.AttachThreadsDisconnect` | src/diagnostics/logPointsDebugAdapter.ts:54-163 | attach, threads, a two-entry loaded-scripts success, then disconnect: the client sees exactly the attach response, the threads response, the two `loadedSource` events in order, then the disconnect response, whatever close-session returned |
| `Scenarios.CustomRequests` | src/diagnostics/logPointsDebugAdapter.ts:90-131 | after attach, `loadSource`, `removeLogpoint` and an unknown command with both results in: the only response after attach is one answer to `loadSource`; the session's remote calls are exactly two, `loadSource` then `removeLogpoint`, both carrying the attached identity |

## Left out

- `KuduLogPointsDebuggerClient` is not part of this model. It is the HTTP
  client of the remote log-points service. Each of its calls is an `Issue`
  entry in the trace, and its result is a parameter of the matching
  `…Settled` method.
- Promise scheduling is not modelled. Completions may arrive in any order
  among the pending calls. A call whose promise rejects, instead of resolving
  to a failure result, never runs its continuation: that call simply stays
  pending.
- The internals of the `vscode-debugadapter` base class are foreign library
  code. This covers the capabilities response that `super.initializeRequest`
  sends, the transport behind `DebugSession.run`, and how `dispatchRequest`
  reports a handler that throws.
- `LogPointsDebugAdapter.NodeDebugSession.InitializeRequest` takes the
  capabilities that `super.initializeRequest` puts in its response as an
  opaque parameter. What the library sets there is not modelled; that the
  response is sent, and before the `initialized` event, is.
- `logger.setup`, `logger.log` and the `util.inspect` formatting are logging
  only. The `removeLogpoint` result that is logged is not kept.
- `LogPointsDebugAdapter.NodeDebugSession.AttachRequest` does not model the
  fields of a response body that already existed before
  `response.body || {}`. The base class supplies none, so the body holds only
  `supportsConfigurationDoneRequest`.
- `JsParseInt.ParseIntOfDecimal` states exact integers. JavaScript numbers
  round beyond 2^53 and keep a negative zero for "-0", and the model has
  neither. NaN is the absence of a number (`None`), not an IEEE value.
- A `loadSource` result whose `json` is itself undefined or null, or a
  loaded-scripts result whose `data` is not an array
  (src/diagnostics/logPointsDebugAdapter.ts:152), would throw inside the
  continuation and send nothing; this is not modelled. A `loadSource` payload
  without `data` does not throw: it is `LoadSourceResponse(Undefined)`, and
  `{content: undefined}` is sent.
- `src/commands/createWebApp.ts` (a UI flow of pickers and message boxes that
  calls into deployment) and `src/constants.ts` (string constants) are not
  modelled. They have no computable behaviour.
