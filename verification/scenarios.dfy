/** Whole sessions, run against the session's method contracts: what the
    client sees from a few request sequences, with each remote result taken
    as an input. */
module Scenarios {
  import opened Wrappers
  import opened DebugProtocol
  import opened LogPointsDebugAdapter

  /** attach, threads, a loaded-scripts result with two entries, then
      disconnect: the client sees the attach and threads responses, one
      `loadedSource` event per entry in order, then the disconnect response,
      whether close-session succeeded or not. */
  method AttachThreadsDisconnect(args: AttachArgs, first: ScriptData, second: ScriptData,
                                 closed: CommandRunResult<JsValue>)
    returns (messages: seq<Message>)
    ensures messages == [
      Response(0, "attach", true, AttachBody(false)),
      Response(1, "threads", true, ThreadsBody([DefaultThread])),
      Event("loadedSource", SourceBody(ScriptSource(first))),
      Event("loadedSource", SourceBody(ScriptSource(second))),
      Response(2, "disconnect", true, NoBody)]
  {
    var attachResponse := Response(0, "attach", true, AttachBody(false));
    var threadsResponse := Response(1, "threads", true, ThreadsBody([DefaultThread]));
    var firstEvent := Event("loadedSource", SourceBody(ScriptSource(first)));
    var secondEvent := Event("loadedSource", SourceBody(ScriptSource(second)));
    var session := new NodeDebugSession();
    session.AttachRequest(0, args);
    session.ThreadsRequest(1);
    ghost var t2 := session.trace;
    assert Messages(t2) == [attachResponse, threadsResponse] by {
      MessagesSend([], attachResponse);
      MessagesSend([Send(attachResponse)], threadsResponse);
      MessagesIssue([Send(attachResponse), Send(threadsResponse)], t2[2].call);
      assert t2 == [Send(attachResponse), Send(threadsResponse)] + [Issue(t2[2].call)];
    }
    session.LoadedScriptsSettled(2, Success(LoadedScriptsResponse([first, second])));
    ghost var t3 := session.trace;
    assert |t3| == 5 && Messages(t3) == [attachResponse, threadsResponse, firstEvent, secondEvent] by {
      MessagesAppend(t2, LoadedSourceEvents([first, second]));
      LoadedSourceEventsAreEvents([first, second]);
    }
    session.DisconnectRequest(2, Undefined);
    ghost var t4 := session.trace;
    assert Messages(t4) == Messages(t3) && t4[5].Issue? && t4[5].call.request.CloseSessionRequest? by {
      MessagesIssue(t3, t4[5].call);
      assert t4 == t3 + [Issue(t4[5].call)];
    }
    session.CloseSessionSettled(5, closed);
    MessagesSend(t4, Response(2, "disconnect", true, NoBody));
    messages := Messages(session.trace);
  }

  /** After attach, `loadSource`, `removeLogpoint` and an unknown command,
      with both remote results in (removal first): only `loadSource` is
      answered, by exactly one response to its own request, and the session
      issued exactly two remote calls, both carrying the attached identity. */
  method CustomRequests(args: AttachArgs, sourceId: JsValue, logpointId: JsValue, other: string,
                        removed: CommandRunResult<JsValue>, loaded: CommandRunResult<LoadSourceResponse>)
    returns (messages: seq<Message>, calls: seq<RemoteCall>)
    requires other !in ["loadSource", "setLogpoint", "removeLogpoint"]
    ensures messages == [Response(0, "attach", true, AttachBody(false)),
                         Response(1, "loadSource", true, LoadSourceBody(loaded))]
    ensures |calls| == 2 && calls[0].request.LoadSourceRequest? && calls[1].request.RemoveLogpointRequest?
    ensures forall c :: c in calls ==> CarriesIdentity(c, args)
  {
    var session := new NodeDebugSession();
    session.AttachRequest(0, args);
    MessagesSend([], Response(0, "attach", true, AttachBody(false)));
    var threw := session.CustomRequest(1, "loadSource", sourceId);
    MessagesIssue(session.trace[..1], session.trace[1].call);
    threw := session.CustomRequest(2, "removeLogpoint", logpointId);
    MessagesIssue(session.trace[..2], session.trace[2].call);
    threw := session.CustomRequest(3, other, Undefined);
    var t := session.trace;
    assert t[..2] == t[..1] + [t[1]] && t == t[..2] + [t[2]];
    session.RemoveLogpointSettled(2, removed);
    session.LoadSourceSettled(1, loaded);
    MessagesSend(t, Response(1, "loadSource", true, LoadSourceBody(loaded)));
    messages := Messages(session.trace);
    var u := session.trace;
    assert |u| == 4 && u[3].Send? && u[..3] == t;
    assert Calls(u[3..]) == [] by { assert u[3..][1..] == []; }
    assert Calls(u[2..]) == [t[2].call] by { assert u[2..][1..] == u[3..]; }
    assert Calls(u[1..]) == [t[1].call, t[2].call] by { assert u[1..][1..] == u[2..]; }
    calls := Calls(u);
  }
}
