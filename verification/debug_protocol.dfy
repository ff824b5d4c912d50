/** The values the log-points debug adapter exchanges: Debug Adapter
    Protocol messages on the client side, requests and tagged results on the
    remote log-points service side, and the pure mappings between them. */
module DebugProtocol {
  import opened Wrappers
  import opened JsParseInt

  /** A JavaScript value whose shape the adapter does not know: the `any`
      arguments of a custom request and opaque JSON payloads. Numbers are
      kept as integers; the adapter never does arithmetic on them. */
  datatype JsValue =
    | Undefined
    | Null
    | Bool(b: bool)
    | Number(n: int)
    | Str(s: string)
    | Array(elements: seq<JsValue>)
    | Object(properties: map<string, JsValue>)

  /** Property access `v.key`: `None` when it throws a TypeError (on
      `undefined` or `null`), an object's own property, and `undefined`
      otherwise (the keys the adapter reads are not inherited by any
      built-in value). */
  function Property(v: JsValue, key: string): (r: Option<JsValue>)
    ensures r.None? <==> v.Undefined? || v.Null?
    ensures v.Object? && key in v.properties ==> r == Some(v.properties[key])
  {
    match v
    case Undefined => None
    case Null => None
    case Object(props) => Some(if key in props then props[key] else Undefined)
    case _ => Some(Undefined)
  }

  /** Arguments of the `attach` request; `instanceId` may be absent. */
  datatype AttachArgs = AttachArgs(
    siteName: string,
    publishCredentialUsername: string,
    publishCredentialPassword: string,
    instanceId: Option<string>,
    sessionId: string,
    debugId: string,
    trace: Option<bool>)

  /** The publishing credential sent with every remote call; `location` is
      always left undefined. A `None` user name or password is a field the
      session has not been given yet. */
  datatype User = User(location: Option<string>, publishingUserName: Option<string>, publishingPassword: Option<string>)

  /** One request body per operation of the remote log-points service. */
  datatype RemoteRequest =
    | LoadSourceRequest(sessionId: Option<string>, debugId: Option<string>, sourceId: JsValue)
    | SetLogpointRequest(sessionId: Option<string>, debugId: Option<string>, sourceId: JsValue,
                         lineNumber: JsValue, columNumber: JsValue, expression: JsValue)
    | RemoveLogpointRequest(sessionId: Option<string>, debugId: Option<string>, logpointId: JsValue)
    | LoadedScriptsRequest(sessionId: Option<string>, debugId: Option<string>)
    | CloseSessionRequest(sessionId: Option<string>)

  /** A call into the remote client: site, instance affinity, credential and
      request. `origin` is the sequence number of the client request whose
      handler issued it (the response a continuation will answer). */
  datatype RemoteCall = RemoteCall(origin: nat, siteName: Option<string>, affinity: Option<string>,
                                   credential: User, request: RemoteRequest)

  /** The tagged result every remote operation resolves to. */
  datatype CommandRunResult<T> = Success(json: T) | Failure(error: string)

  datatype LoadSourceResponse = LoadSourceResponse(data: JsValue)
  datatype ScriptData = ScriptData(name: string, path: string, sourceId: string)
  datatype LoadedScriptsResponse = LoadedScriptsResponse(data: seq<ScriptData>)

  datatype Thread = Thread(id: int, name: string)

  /** A script as reported to the client; a `None` reference is the NaN that
      `parseInt` produced for a non-numeric source id. */
  datatype Source = Source(name: string, path: string, sourceReference: Option<int>)

  datatype Body =
    | NoBody
    | CapabilitiesBody(capabilities: JsValue)
    | AttachBody(supportsConfigurationDoneRequest: bool)
    | BreakpointsBody(breakpoints: seq<JsValue>)
    | ThreadsBody(threads: seq<Thread>)
    | ContentBody(content: JsValue)
    | JsonBody(json: JsValue)
    | ErrorBody(error: string)

  /** An event's body; a `loadedSource` event carries the `Source` itself as
      its body, with no `reason` field and no wrapping object. */
  datatype EventBody = NoEventBody | SourceBody(source: Source)

  /** A message sent to the client: a response to the request numbered
      `requestSeq`, or an event. */
  datatype Message =
    | Response(requestSeq: nat, command: string, success: bool, body: Body)
    | Event(name: string, eventBody: EventBody)

  /** One step of what the session does towards the outside. */
  datatype Output = Send(message: Message) | Issue(call: RemoteCall)

  /** The only thread the adapter reports. */
  const DefaultThread := Thread(1, "thread 1")

  /** The messages of a trace, in order, without the remote calls. */
  function Messages(t: seq<Output>): seq<Message> {
    if t == [] then []
    else if t[0].Send? then [t[0].message] + Messages(t[1..])
    else Messages(t[1..])
  }

  /** The remote calls of a trace, in order, without the messages. */
  function Calls(t: seq<Output>): seq<RemoteCall> {
    if t == [] then []
    else if t[0].Issue? then [t[0].call] + Calls(t[1..])
    else Calls(t[1..])
  }

  lemma {:induction false} MessagesAppend(a: seq<Output>, b: seq<Output>)
    ensures Messages(a + b) == Messages(a) + Messages(b)
  {
    if a == [] {
      assert a + b == b;
    } else {
      assert (a + b)[0] == a[0] && (a + b)[1..] == a[1..] + b;
      MessagesAppend(a[1..], b);
    }
  }

  lemma MessagesSend(t: seq<Output>, m: Message)
    ensures Messages(t + [Send(m)]) == Messages(t) + [m]
  {
    MessagesAppend(t, [Send(m)]);
  }

  lemma MessagesIssue(t: seq<Output>, c: RemoteCall)
    ensures Messages(t + [Issue(c)]) == Messages(t)
  {
    MessagesAppend(t, [Issue(c)]);
  }

  /** Response body of `loadSource` once the remote result is in: the
      content on success, the error string on failure. */
  function LoadSourceBody(result: CommandRunResult<LoadSourceResponse>): (b: Body)
    ensures result.Success? <==> b.ContentBody?
    ensures result.Success? ==> b == ContentBody(result.json.data)
    ensures result.Failure? ==> b == ErrorBody(result.error)
  {
    match result
    case Success(json) => ContentBody(json.data)
    case Failure(error) => ErrorBody(error)
  }

  /** Response body of `setLogpoint`: the whole payload on success, the
      error string on failure. */
  function SetLogpointBody(result: CommandRunResult<JsValue>): (b: Body)
    ensures result.Success? <==> b.JsonBody?
    ensures result.Success? ==> b == JsonBody(result.json)
    ensures result.Failure? ==> b == ErrorBody(result.error)
  {
    match result
    case Success(json) => JsonBody(json)
    case Failure(error) => ErrorBody(error)
  }

  /** The source reported for one script entry: a `Source` built with the
      library's default reference 0, whose reference is then overwritten
      with `parseInt(sourceId, 10)` (NaN included). */
  function ScriptSource(entry: ScriptData): Source {
    Source(entry.name, entry.path, Some(0)).(sourceReference := ParseInt(entry.sourceId))
  }

  /** A numeric source id becomes that number; one without leading digits
      is still reported, with the NaN reference. */
  lemma ScriptSourceReference(entry: ScriptData, n: int)
    ensures entry.sourceId == SignedDecimal(n) ==> ScriptSource(entry) == Source(entry.name, entry.path, Some(n))
    ensures entry.sourceId == [] || !(IsDigit(entry.sourceId[0]) || IsJsWhitespace(entry.sourceId[0]) || entry.sourceId[0] in "+-")
      ==> ScriptSource(entry) == Source(entry.name, entry.path, None)
  {
    if entry.sourceId == SignedDecimal(n) {
      ParseIntOfDecimal(n, []);
      assert SignedDecimal(n) + [] == SignedDecimal(n);
    }
    if entry.sourceId == [] || !(IsDigit(entry.sourceId[0]) || IsJsWhitespace(entry.sourceId[0]) || entry.sourceId[0] in "+-") {
      ParseIntNaN([], [], entry.sourceId);
      assert [] + [] + entry.sourceId == entry.sourceId;
    }
  }

  function LoadedSourceEvent(entry: ScriptData): Output {
    Send(Event("loadedSource", SourceBody(ScriptSource(entry))))
  }

  /** The events a successful loaded-scripts result produces. */
  function LoadedSourceEvents(data: seq<ScriptData>): (events: seq<Output>)
    ensures |events| == |data|
  {
    if data == [] then []
    else LoadedSourceEvents(data[..|data| - 1]) + [LoadedSourceEvent(data[|data| - 1])]
  }

  lemma LoadedSourceEventsSnoc(data: seq<ScriptData>, k: nat)
    requires k < |data|
    ensures LoadedSourceEvents(data[..k + 1]) == LoadedSourceEvents(data[..k]) + [LoadedSourceEvent(data[k])]
  {
    assert data[..k + 1][..k] == data[..k];
  }

  /** One `loadedSource` event per script entry, in the order returned, each
      carrying that entry's name, path and parsed reference. */
  lemma {:induction false} LoadedSourceEventsAt(data: seq<ScriptData>)
    ensures forall k :: 0 <= k < |data| ==>
      LoadedSourceEvents(data)[k] == Send(Event("loadedSource", SourceBody(ScriptSource(data[k]))))
  {
    if data != [] {
      LoadedSourceEventsAt(data[..|data| - 1]);
    }
  }

  /** Only events are produced: the fetch sends no response and issues no
      further remote call. */
  lemma {:induction false} LoadedSourceEventsAreEvents(data: seq<ScriptData>)
    ensures Messages(LoadedSourceEvents(data)) == seq(|data|, k requires 0 <= k < |data| => Event("loadedSource", SourceBody(ScriptSource(data[k]))))
  {
    if data != [] {
      var init := data[..|data| - 1];
      LoadedSourceEventsAreEvents(init);
      MessagesAppend(LoadedSourceEvents(init), [LoadedSourceEvent(data[|data| - 1])]);
    }
  }
}
