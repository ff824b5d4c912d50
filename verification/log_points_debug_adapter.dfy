/** The log-points debug session: a Debug Adapter Protocol adapter that
    keeps the identity captured at attach time and turns client requests
    into calls to the remote log-points service, and remote results into
    responses and events. Each asynchronous continuation of the adapter is a
    method of its own, given the index of the remote call it resumes and the
    result that call resolved to. */
module LogPointsDebugAdapter {
  import opened Wrappers
  import opened JsParseInt
  import opened DebugProtocol

  /** The call carries the identity of attach `a`: its site, affinity and
      credential, and its session and debug ids (a close-session request
      has no debug id). */
  predicate CarriesIdentity(c: RemoteCall, a: AttachArgs) {
    c.siteName == Some(a.siteName) &&
    c.affinity == a.instanceId &&
    c.credential == User(None, Some(a.publishCredentialUsername), Some(a.publishCredentialPassword)) &&
    c.request.sessionId == Some(a.sessionId) &&
    (!c.request.CloseSessionRequest? ==> c.request.debugId == Some(a.debugId))
  }

  class NodeDebugSession {
    var sessionId: Option<string>
    var debugId: Option<string>
    var siteName: Option<string>
    var affinityValue: Option<string>
    var publishingUsername: Option<string>
    var publishingPassword: Option<string>

    /** Line and column numbering the adapter asks for (zero-based). */
    var debuggerLinesStartAt1: bool
    var debuggerColumnsStartAt1: bool

    /** Everything sent to the client and issued to the remote service, in order. */
    var trace: seq<Output>
    /** Positions in `trace` of remote calls whose continuation has run. */
    var settled: set<nat>

    /** The arguments of the latest attach, and the length of the trace then. */
    ghost var attached: Option<AttachArgs>
    ghost var attachedAt: nat

    /** The session fields hold what attach `a` supplied. */
    ghost predicate Holds(a: AttachArgs)
      reads this
    {
      sessionId == Some(a.sessionId) && debugId == Some(a.debugId) &&
      siteName == Some(a.siteName) && affinityValue == a.instanceId &&
      publishingUsername == Some(a.publishCredentialUsername) &&
      publishingPassword == Some(a.publishCredentialPassword)
    }

    /** Only positions of issued calls are marked settled; after an attach,
        the fields still hold what that attach supplied, and every call
        issued since then carries that identity. (That a call settles at most
        once comes from `Pending`, which every continuation requires.) */
    ghost predicate Valid()
      reads this
    {
      ValidTrace(trace)
    }

    /** `Valid()` for a given trace in place of the current one. */
    ghost predicate ValidTrace(t: seq<Output>)
      reads this
    {
      (forall i :: i in settled ==> i < |t| && t[i].Issue?) &&
      (attached.Some? ==>
        attachedAt <= |t| && Holds(attached.value) &&
        forall k :: attachedAt <= k < |t| && t[k].Issue? ==> CarriesIdentity(t[k].call, attached.value))
    }

    /** Sending a message keeps the invariant. */
    lemma SendKeepsValid(t: seq<Output>, m: Message)
      requires ValidTrace(t)
      ensures ValidTrace(t + [Send(m)])
    {
    }

    /** Position `i` is a remote call still waiting for its result. */
    predicate Pending(i: nat)
      reads this
    {
      i < |trace| && trace[i].Issue? && i !in settled
    }

    /** The publishing credential built from the stored user name and
        password: once attached, the pair that attach supplied. */
    function PublishCredential(): (u: User)
      reads this
      ensures u.location.None?
      ensures Valid() && attached.Some? ==>
        u == User(None, Some(attached.value.publishCredentialUsername), Some(attached.value.publishCredentialPassword))
    {
      User(None, publishingUsername, publishingPassword)
    }

    /** A remote call for `request` to the stored site and affinity, with the
        stored credential: once attached, a request built from the stored
        ids carries the identity attach supplied. */
    function Outbound(origin: nat, request: RemoteRequest): (c: RemoteCall)
      reads this
      ensures c.origin == origin && c.request == request
      ensures Valid() && attached.Some? && request.sessionId == sessionId &&
              (!request.CloseSessionRequest? ==> request.debugId == debugId)
        ==> CarriesIdentity(c, attached.value)
    {
      RemoteCall(origin, siteName, affinityValue, PublishCredential(), request)
    }

    constructor ()
      ensures Valid()
      ensures !debuggerLinesStartAt1 && !debuggerColumnsStartAt1
      ensures sessionId.None? && debugId.None? && siteName.None?
      ensures affinityValue.None? && publishingUsername.None? && publishingPassword.None?
      ensures trace == [] && settled == {} && attached.None?
    {
      sessionId, debugId, siteName := None, None, None;
      affinityValue, publishingUsername, publishingPassword := None, None, None;
      debuggerLinesStartAt1 := false;
      debuggerColumnsStartAt1 := false;
      trace, settled := [], {};
      attached, attachedAt := None, 0;
    }

    /** `initialize`: the protocol library first answers the request with its
        capabilities (taken as a parameter), then the `initialized` event
        follows. */
    method InitializeRequest(req: nat, capabilities: JsValue)
      requires Valid()
      modifies this`trace
      ensures Valid()
      ensures trace == old(trace) + [Send(Response(req, "initialize", true, CapabilitiesBody(capabilities))),
                                     Send(Event("initialized", NoEventBody))]
    {
      trace := trace + [Send(Response(req, "initialize", true, CapabilitiesBody(capabilities)))];
      trace := trace + [Send(Event("initialized", NoEventBody))];
    }

    /** `attach`: store the six identity fields, then send one response
        saying that a configuration-done request is not supported. */
    method AttachRequest(req: nat, args: AttachArgs)
      requires Valid()
      modifies this
      ensures Valid() && attached == Some(args) && Holds(args)
      ensures trace == old(trace) + [Send(Response(req, "attach", true, AttachBody(false)))]
      ensures settled == old(settled)
      ensures debuggerLinesStartAt1 == old(debuggerLinesStartAt1)
      ensures debuggerColumnsStartAt1 == old(debuggerColumnsStartAt1)
    {
      sessionId := Some(args.sessionId);
      debugId := Some(args.debugId);
      siteName := Some(args.siteName);
      affinityValue := args.instanceId;
      publishingUsername := Some(args.publishCredentialUsername);
      publishingPassword := Some(args.publishCredentialPassword);
      attached, attachedAt := Some(args), |trace|;
      trace := trace + [Send(Response(req, "attach", true, AttachBody(false)))];
    }

    /** `setBreakpoints`: one response with no breakpoints, whatever the
        arguments. */
    method SetBreakPointsRequest(req: nat, args: JsValue)
      requires Valid()
      modifies this`trace
      ensures Valid()
      ensures trace == old(trace) + [Send(Response(req, "setBreakpoints", true, BreakpointsBody([])))]
    {
      trace := trace + [Send(Response(req, "setBreakpoints", true, BreakpointsBody([])))];
    }

    /** `threads`: one response listing the single default thread, and only
        then the loaded-scripts fetch. */
    method ThreadsRequest(req: nat)
      requires Valid()
      modifies this`trace
      ensures Valid()
      ensures trace == old(trace) + [Send(Response(req, "threads", true, ThreadsBody([DefaultThread]))),
                                     Issue(Outbound(req, LoadedScriptsRequest(sessionId, debugId)))]
    {
      trace := trace + [Send(Response(req, "threads", true, ThreadsBody([DefaultThread])))];
      GetLoadedScripts(req);
    }

    /** The first half of the loaded-scripts fetch: issue the request; the
        rest runs in `LoadedScriptsSettled`. */
    method GetLoadedScripts(origin: nat)
      requires Valid()
      modifies this`trace
      ensures Valid()
      ensures trace == old(trace) + [Issue(Outbound(origin, LoadedScriptsRequest(sessionId, debugId)))]
    {
      var request := LoadedScriptsRequest(sessionId, debugId);
      trace := trace + [Issue(Outbound(origin, request))];
    }

    /** A custom request: `loadSource`, `setLogpoint` and `removeLogpoint`
        each issue one remote call whose continuation answers (or, for
        `removeLogpoint`, does not); any other command does nothing.
        `threw` is the TypeError of reading `setLogpoint`'s fields off an
        undefined or null argument. */
    method CustomRequest(req: nat, command: string, args: JsValue) returns (threw: bool)
      requires Valid()
      modifies this`trace
      ensures Valid()
      ensures threw <==> command == "setLogpoint" && (args.Undefined? || args.Null?)
      ensures command == "loadSource" ==>
        trace == old(trace) + [Issue(Outbound(req, LoadSourceRequest(sessionId, debugId, args)))]
      ensures command == "setLogpoint" && !threw ==>
        trace == old(trace) + [Issue(Outbound(req, SetLogpointRequest(sessionId, debugId,
          Property(args, "scriptId").value, Property(args, "lineNumber").value,
          Property(args, "columnNumber").value, Property(args, "expression").value)))]
      ensures command == "removeLogpoint" ==>
        trace == old(trace) + [Issue(Outbound(req, RemoveLogpointRequest(sessionId, debugId, args)))]
      ensures threw || command !in ["loadSource", "setLogpoint", "removeLogpoint"] ==> trace == old(trace)
    {
      threw := false;
      var request: RemoteRequest;
      if command == "loadSource" {
        request := LoadSourceRequest(sessionId, debugId, args);
      } else if command == "setLogpoint" {
        var scriptId := Property(args, "scriptId");
        if scriptId.None? {
          threw := true;
          return;
        }
        request := SetLogpointRequest(sessionId, debugId, scriptId.value, Property(args, "lineNumber").value,
                                      Property(args, "columnNumber").value, Property(args, "expression").value);
      } else if command == "removeLogpoint" {
        request := RemoveLogpointRequest(sessionId, debugId, args);
      } else {
        return;
      }
      trace := trace + [Issue(Outbound(req, request))];
    }

    /** `disconnect`: issue close-session with the stored session id; the
        response waits for `CloseSessionSettled`. */
    method DisconnectRequest(req: nat, args: JsValue)
      requires Valid()
      modifies this`trace
      ensures Valid()
      ensures trace == old(trace) + [Issue(Outbound(req, CloseSessionRequest(sessionId)))]
    {
      var request := CloseSessionRequest(sessionId);
      trace := trace + [Issue(Outbound(req, request))];
    }

    /** `loadSource` resumed: exactly one response, never a protocol-level
        failure, carrying the content or the error. */
    method LoadSourceSettled(i: nat, result: CommandRunResult<LoadSourceResponse>)
      requires Valid() && Pending(i) && trace[i].call.request.LoadSourceRequest?
      modifies this`trace, this`settled
      ensures Valid() && settled == old(settled) + {i}
      ensures trace == old(trace) + [Send(Response(old(trace)[i].call.origin, "loadSource", true, LoadSourceBody(result)))]
    {
      var origin := trace[i].call.origin;
      settled := settled + {i};
      trace := trace + [Send(Response(origin, "loadSource", true, LoadSourceBody(result)))];
    }

    /** `setLogpoint` resumed: exactly one response, carrying the payload or
        the error. */
    method SetLogpointSettled(i: nat, result: CommandRunResult<JsValue>)
      requires Valid() && Pending(i) && trace[i].call.request.SetLogpointRequest?
      modifies this`trace, this`settled
      ensures Valid() && settled == old(settled) + {i}
      ensures trace == old(trace) + [Send(Response(old(trace)[i].call.origin, "setLogpoint", true, SetLogpointBody(result)))]
    {
      var origin := trace[i].call.origin;
      settled := settled + {i};
      trace := trace + [Send(Response(origin, "setLogpoint", true, SetLogpointBody(result)))];
    }

    /** `removeLogpoint` resumed: the result is only logged; nothing is sent. */
    method RemoveLogpointSettled(i: nat, result: CommandRunResult<JsValue>)
      requires Valid() && Pending(i) && trace[i].call.request.RemoveLogpointRequest?
      modifies this`settled
      ensures Valid() && settled == old(settled) + {i}
    {
      settled := settled + {i};
    }

    /** close-session resumed: the disconnect response, whatever the result. */
    method CloseSessionSettled(i: nat, result: CommandRunResult<JsValue>)
      requires Valid() && Pending(i) && trace[i].call.request.CloseSessionRequest?
      modifies this`trace, this`settled
      ensures Valid() && settled == old(settled) + {i}
      ensures trace == old(trace) + [Send(Response(old(trace)[i].call.origin, "disconnect", true, NoBody))]
    {
      var origin := trace[i].call.origin;
      settled := settled + {i};
      trace := trace + [Send(Response(origin, "disconnect", true, NoBody))];
    }

    /** The loaded-scripts fetch resumed: on success one `loadedSource`
        event per script entry, in order; on failure nothing. */
    method LoadedScriptsSettled(i: nat, result: CommandRunResult<LoadedScriptsResponse>)
      requires Valid() && Pending(i) && trace[i].call.request.LoadedScriptsRequest?
      modifies this`trace, this`settled
      ensures Valid() && settled == old(settled) + {i}
      ensures trace == old(trace) + (if result.Success? then LoadedSourceEvents(result.json.data) else [])
    {
      settled := settled + {i};
      if result.Success? {
        var data := result.json.data;
        var k := 0;
        while k < |data|
          invariant 0 <= k <= |data|
          invariant Valid() && settled == old(settled) + {i}
          invariant trace == old(trace) + LoadedSourceEvents(data[..k])
        {
          var entry := data[k];
          var source := Source(entry.name, entry.path, Some(0));
          source := source.(sourceReference := ParseInt(entry.sourceId));
          assert source == ScriptSource(entry);
          SendKeepsValid(trace, Event("loadedSource", SourceBody(source)));
          trace := trace + [Send(Event("loadedSource", SourceBody(source)))];
          LoadedSourceEventsSnoc(data, k);
          k := k + 1;
        }
        assert data[..k] == data;
      }
    }
  }
}
