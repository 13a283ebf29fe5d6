/** `McpServer::RackApp.call` (lib/mcp_server/rack_app.rb): the per-request
    dispatch. Given what its collaborators do (the authentication predicate,
    the context builder, the transport, the engine's `handle_json` and
    `String#to_json`), the dispatch is a fixed decision procedure; the
    result is a response triple, `nil`, or an exception, together with the
    trace of collaborators it invoked. */
module RackApp {
  import opened Ruby
  import opened Config
  import opened RackRequest
  import McpServer

  /** Context keys are the names of Ruby symbols. */
  type Key = string

  const RequestKey: Key := "request"

  /** A Rack response: status, headers and body parts. */
  datatype Triple = Triple(status: int, headers: map<string, string>, body: seq<string>)

  function JsonHeaders(): (h: map<string, string>)
  {
    map["Content-Type" := "application/json"]
  }

  /** `{error: "Unauthorized"}.to_json` */
  const UnauthorizedBody: string := "{\"error\":\"Unauthorized\"}"

  /** What the configured context builder returned: a Hash of entries, or
      anything else. */
  datatype BuilderResult = NotHash | HashResult(entries: map<Key, RubyObject>)

  /** How the `begin` block around the transport ended: with the value of
      `handle_request`, with a `NoMethodError` raised anywhere in it, or with
      any other exception. The transport is handed the request and may read
      its body: bodyPos is where it leaves the body stream (None when it
      did not move it, as when the error comes before `handle_request`). */
  datatype TransportOutcome =
    | Returned(response: Triple, bodyPos: Option<nat>)
    | NoMethod(bodyPos: Option<nat>)
    | OtherError(exception: ObjectId, bodyPos: Option<nat>)

  /** The collaborators of one call, given by their outcomes. The
      authentication predicate and the context builder are handed the
      request and may read its body: authBodyPos and builderBodyPos are where
      each leaves the body stream (None when it did not move it). The
      engine's `handle_json` and `String#to_json` are opaque functions on
      text. */
  datatype Collaborators = Collaborators(
    authAllows: bool,
    authBodyPos: Option<nat>,
    builderResult: BuilderResult,
    builderBodyPos: Option<nat>,
    transportOutcome: TransportOutcome,
    handleJson: string -> string,
    toJson: string -> string)

  /** The keyword arguments of `MCP::Server.new`. */
  datatype ServerArgs = ServerArgs(
    name: string,
    version: string,
    tools: RubyObject,
    prompts: RubyObject,
    resources: RubyObject,
    serverContext: map<Key, RubyObject>)

  /** One invocation of a collaborator. */
  datatype Event =
    | Authenticate
    | BuildContext
    | NewServer(args: ServerArgs)
    | RegisterReadHandler(handler: RubyObject)
    | RunTransport(transport: RubyObject)
    | RewindBody
    | ReadBody
    | HandleJson(body: string)
    | ToJson(json: string)

  /** What `call` ends with. */
  datatype Outcome =
    | Response(triple: Triple)
    | NilResponse
    | Raised(error: RubyError)

  /** A whole run: the outcome, the trace, and the body stream afterwards. */
  datatype Run = Run(outcome: Outcome, trace: seq<Event>, body: Option<Stream>)

  /** `build_server_context`: a context seeded with the request, into which a
      Hash returned by the builder is merged (its entries winning on a clash).
      A builder that is absent or returns anything but a Hash adds nothing. */
  function BuildServerContext(request: ObjectId, builder: RubyObject, result: BuilderResult): (context: map<Key, RubyObject>)
    ensures context.Keys ==
            {RequestKey} + (if Truthy(builder) && result.HashResult? then result.entries.Keys else {})
    ensures forall k :: k in context ==>
              context[k] == if Truthy(builder) && result.HashResult? && k in result.entries
                            then result.entries[k] else Ref(request)
  {
    var seed := map[RequestKey := Ref(request)];
    if Truthy(builder) && result.HashResult? then seed + result.entries else seed
  }

  /** Without a builder, or when it returns no Hash, the context is the
      request alone. */
  lemma ContextIsRequestAlone(request: ObjectId, builder: RubyObject, result: BuilderResult)
    requires !Truthy(builder) || result.NotHash?
    ensures BuildServerContext(request, builder, result) == map[RequestKey := Ref(request)]
    ensures |BuildServerContext(request, builder, result)| == 1
  {
  }

  /** The arguments of `MCP::Server.new`: the fixed name and version, each
      catalog or `[]` in its place when it is `nil` or `false`, and the
      context. */
  function ServerArgsFor(s: Settings, context: map<Key, RubyObject>): (a: ServerArgs)
    ensures a.name == "mcp_server" && a.version == "0.1.0"
    ensures a.serverContext == context
    ensures Truthy(s.tools) ==> a.tools == s.tools
    ensures !Truthy(s.tools) ==> a.tools == Array([])
    ensures Truthy(s.prompts) ==> a.prompts == s.prompts
    ensures !Truthy(s.prompts) ==> a.prompts == Array([])
    ensures Truthy(s.resources) ==> a.resources == s.resources
    ensures !Truthy(s.resources) ==> a.resources == Array([])
  {
    ServerArgs("mcp_server", "0.1.0",
               Or(s.tools, Array([])), Or(s.prompts, Array([])), Or(s.resources, Array([])),
               context)
  }

  /** The authentication gate refuses: a predicate is configured and it
      answers falsy. */
  predicate Denied(s: Settings, c: Collaborators)
  {
    Truthy(s.authenticateWith) && !c.authAllows
  }

  function UnauthorizedResponse(): (t: Triple)
  {
    Triple(401, JsonHeaders(), [UnauthorizedBody])
  }

  /** Lines 12-25 once the gate lets the request through: the predicate and
      the builder are called exactly when they are configured, and the last
      step builds the engine from the defaulted catalogs and the context. */
  function Prepare(s: Settings, request: ObjectId, c: Collaborators): (trace: seq<Event>)
    ensures |trace| >= 1
    ensures trace[|trace| - 1] ==
            NewServer(ServerArgsFor(s, BuildServerContext(request, s.buildContextWith, c.builderResult)))
    ensures Authenticate in trace <==> Truthy(s.authenticateWith)
    ensures BuildContext in trace <==> Truthy(s.buildContextWith)
    ensures forall e :: e in trace ==> !e.RunTransport? && e != RewindBody && e != ReadBody
  {
    var context := BuildServerContext(request, s.buildContextWith, c.builderResult);
    (if Truthy(s.authenticateWith) then [Authenticate] else [])
    + (if Truthy(s.buildContextWith) then [BuildContext] else [])
    + [NewServer(ServerArgsFor(s, context))]
  }

  /** The body after the predicate (rack_app.rb:12), when it is configured. */
  function AuthMoved(s: Settings, body: Option<Stream>, c: Collaborators): (r: Option<Stream>)
    ensures r.Some? <==> body.Some?
    ensures r.Some? ==> r.value.content == body.value.content && r.value.rewindable == body.value.rewindable
    ensures !Truthy(s.authenticateWith) || c.authBodyPos.None? ==> r == body
  {
    if Truthy(s.authenticateWith) then MovedTo(body, c.authBodyPos) else body
  }

  /** The body after the predicate and then the builder (rack_app.rb:53), each
      only when it is configured: the body the transport block receives. */
  function SetupMoved(s: Settings, body: Option<Stream>, c: Collaborators): (r: Option<Stream>)
    ensures r.Some? <==> body.Some?
    ensures r.Some? ==> r.value.content == body.value.content && r.value.rewindable == body.value.rewindable
    ensures ((!Truthy(s.authenticateWith) || c.authBodyPos.None?) &&
             (!Truthy(s.buildContextWith) || c.builderBodyPos.None?)) ==> r == body
  {
    var b := AuthMoved(s, body, c);
    if Truthy(s.buildContextWith) then MovedTo(b, c.builderBodyPos) else b
  }

  /** The fallback for engines without transport support (lines 36-40):
      rewind the body if it responds to `rewind`, read it, let the engine
      handle it, and answer 200 with the engine's JSON text passed through
      `to_json` once more. A `nil` body does not respond to `read` either. */
  function LegacyFallback(trace: seq<Event>, body: Option<Stream>, c: Collaborators): (run: Run)
    ensures trace <= run.trace
    ensures body.None? ==> run == Run(Raised(NoMethodError), trace, body)
    ensures body.Some? ==> run.outcome.Response? && run.outcome.triple.status == 200
                           && run.outcome.triple.headers == JsonHeaders() && |run.outcome.triple.body| == 1
    ensures body.Some? ==> run.body.Some? && run.body.value.pos >= |body.value.content|
  {
    if body.None? then Run(Raised(NoMethodError), trace, body)
    else
      var st := body.value;
      var start := if st.rewindable then Rewound(st) else st;
      var rewinds := if st.rewindable then [RewindBody] else [];
      var (data, after) := ReadRest(start);
      var json := c.handleJson(data);
      Run(Response(Triple(200, JsonHeaders(), [c.toJson(json)])),
          trace + rewinds + [ReadBody, HandleJson(data), ToJson(json)],
          Some(after))
  }

  /** Lines 31-44: without a transport the result stays `nil` and the body is
      left alone; with one, the `begin` block's outcome decides, from the
      body as the transport left it. The stage only appends to the trace,
      and never a setup event. */
  function TransportStage(transport: RubyObject, trace: seq<Event>, body: Option<Stream>, c: Collaborators): (run: Run)
    ensures trace <= run.trace
    ensures forall i :: |trace| <= i < |run.trace| ==>
              !run.trace[i].Authenticate? && !run.trace[i].BuildContext? && !run.trace[i].NewServer?
    ensures run.outcome.NilResponse? <==> !Truthy(transport)
    ensures !Truthy(transport) ==> run.trace == trace && run.body == body
  {
    if !Truthy(transport) then Run(NilResponse, trace, body)
    else
      var t := trace + [RunTransport(transport)];
      var after := MovedTo(body, c.transportOutcome.bodyPos);
      match c.transportOutcome
      case Returned(triple, _) => Run(Response(triple), t, after)
      case OtherError(e, _) => Run(Raised(OtherException(e)), t, after)
      case NoMethod(_) => LegacyFallback(t, after, c)
  }

  /** The whole of `call` on a configuration snapshot (None when
      `McpServer.configuration` is `nil`, so that reading an attribute of it
      raises `NoMethodError`). The result is `nil` exactly when the gate lets
      the request through and no transport is configured; every other path
      ends with a response or an exception. */
  function Dispatch(config: Option<Settings>, request: ObjectId, body: Option<Stream>, c: Collaborators): (run: Run)
    ensures run.outcome.NilResponse? <==>
            config.Some? && !Denied(config.value, c) && !Truthy(config.value.transport)
    ensures run.body.Some? <==> body.Some?
  {
    if config.None? then Run(Raised(NoMethodError), [], body)
    else
      var s := config.value;
      if Denied(s, c) then Run(Response(UnauthorizedResponse()), [Authenticate], AuthMoved(s, body, c))
      else
        var prepared := Prepare(s, request, c);
        var registered := prepared +
          (if Truthy(s.resourcesReadHandler) then [RegisterReadHandler(s.resourcesReadHandler)] else []);
        TransportStage(s.transport, registered, SetupMoved(s, body, c), c)
  }

  /** A refusing predicate ends the call with the fixed 401 response; the
      context builder, the engine and the transport are never invoked, and
      the body is where the predicate left it. */
  lemma AuthDeniedShortCircuits(s: Settings, request: ObjectId, body: Option<Stream>, c: Collaborators)
    requires Truthy(s.authenticateWith) && !c.authAllows
    ensures Dispatch(Some(s), request, body, c) ==
            Run(Response(Triple(401, map["Content-Type" := "application/json"], ["{\"error\":\"Unauthorized\"}"])),
                [Authenticate], MovedTo(body, c.authBodyPos))
  {
  }

  /** With no predicate, or one that answers truthy, the call goes on: the
      builder is invoked exactly when configured, and the engine is built
      from the defaulted catalogs and the assembled context. */
  lemma AuthPassedContinues(s: Settings, request: ObjectId, body: Option<Stream>, c: Collaborators)
    requires !Truthy(s.authenticateWith) || c.authAllows
    ensures var trace := Dispatch(Some(s), request, body, c).trace;
            && NewServer(ServerArgsFor(s, BuildServerContext(request, s.buildContextWith, c.builderResult))) in trace
            && (Authenticate in trace <==> Truthy(s.authenticateWith))
            && (BuildContext in trace <==> Truthy(s.buildContextWith))
  {
    var prepared := Prepare(s, request, c);
    var trace := Dispatch(Some(s), request, body, c).trace;
    assert trace[|prepared| - 1] == prepared[|prepared| - 1];
  }

  /** With a transport whose `handle_request` returns, its triple is the
      result unchanged; `call`'s own code leaves the body where the
      transport left it. */
  lemma TransportResponsePassesThrough(s: Settings, request: ObjectId, body: Option<Stream>, c: Collaborators, t: Triple, p: Option<nat>)
    requires !Denied(s, c) && Truthy(s.transport)
    requires c.transportOutcome == Returned(t, p)
    ensures Dispatch(Some(s), request, body, c).outcome == Response(t)
    ensures Dispatch(Some(s), request, body, c).body == MovedTo(SetupMoved(s, body, c), p)
  {
  }

  /** Without a transport the call returns `nil`, having run no transport;
      `call`'s own code reads no body, which stays where the predicate and
      the builder left it. */
  lemma NoTransportReturnsNil(s: Settings, request: ObjectId, body: Option<Stream>, c: Collaborators)
    requires !Denied(s, c) && !Truthy(s.transport)
    ensures Dispatch(Some(s), request, body, c).outcome == NilResponse
    ensures Dispatch(Some(s), request, body, c).body == SetupMoved(s, body, c)
    ensures forall e :: e in Dispatch(Some(s), request, body, c).trace ==> !e.RunTransport? && e != ReadBody
  {
  }

  /** A `NoMethodError` from the transport block falls back to the engine's
      `handle_json`: the body, as the predicate, the builder and the
      transport left it, is rewound exactly once when it can be, then read
      to its end, and the engine's JSON text is encoded again as the single
      body part of a 200 response. */
  lemma NoMethodFallsBackToHandleJson(s: Settings, request: ObjectId, st: Stream, c: Collaborators, p: Option<nat>)
    requires !Denied(s, c) && Truthy(s.transport)
    requires c.transportOutcome == NoMethod(p)
    ensures var run := Dispatch(Some(s), request, Some(st), c);
            var left := MovedTo(SetupMoved(s, Some(st), c), p).value;
            var data := if st.rewindable then st.content else ReadRest(left).0;
            && run.outcome == Response(Triple(200, map["Content-Type" := "application/json"],
                                              [c.toJson(c.handleJson(data))]))
            && multiset(run.trace)[RewindBody] == (if st.rewindable then 1 else 0)
            && run.body.Some? && run.body.value.pos >= |st.content|
            && run.body.value.content == st.content
  {
    var registered := Prepare(s, request, c) +
      (if Truthy(s.resourcesReadHandler) then [RegisterReadHandler(s.resourcesReadHandler)] else []);
    var t := registered + [RunTransport(s.transport)];
    FallbackRewindsOnce(t, MovedTo(SetupMoved(s, Some(st), c), p).value, c);
  }

  /** Why the fallback rewinds: when the predicate, the builder or the
      transport has read the body to its end before the `NoMethodError`, a
      rewindable body still reaches `handle_json` whole, while a body that
      cannot be rewound reaches it as "". */
  lemma ConsumedBodyNeedsRewind(s: Settings, request: ObjectId, st: Stream, c: Collaborators, p: Option<nat>)
    requires !Denied(s, c) && Truthy(s.transport)
    requires c.transportOutcome == NoMethod(p)
    requires MovedTo(SetupMoved(s, Some(st), c), p).value.pos >= |st.content|
    ensures st.rewindable ==> HandleJson(st.content) in Dispatch(Some(s), request, Some(st), c).trace
    ensures !st.rewindable ==> HandleJson("") in Dispatch(Some(s), request, Some(st), c).trace
  {
  }

  /** The fallback on its own: it rewinds at most once, reads the body from
      where the rewind leaves it, and encodes the engine's answer again. */
  lemma FallbackRewindsOnce(trace: seq<Event>, st: Stream, c: Collaborators)
    ensures var run := LegacyFallback(trace, Some(st), c);
            var data := if st.rewindable then st.content else ReadRest(st).0;
            && run.outcome == Response(Triple(200, JsonHeaders(), [c.toJson(c.handleJson(data))]))
            && multiset(run.trace)[RewindBody] == multiset(trace)[RewindBody] + (if st.rewindable then 1 else 0)
            && run.body.Some? && run.body.value.pos >= |st.content|
            && run.body.value.content == st.content
  {
  }

  /** In the fallback, a `nil` body raises `NoMethodError` on `read`. */
  lemma FallbackWithoutBodyRaises(s: Settings, request: ObjectId, c: Collaborators, p: Option<nat>)
    requires !Denied(s, c) && Truthy(s.transport)
    requires c.transportOutcome == NoMethod(p)
    ensures Dispatch(Some(s), request, None, c).outcome == Raised(NoMethodError)
  {
  }

  /** Any other exception from the transport block is not rescued; `call`'s
      own code leaves the body where the transport left it. */
  lemma OtherErrorPropagates(s: Settings, request: ObjectId, body: Option<Stream>, c: Collaborators, e: ObjectId, p: Option<nat>)
    requires !Denied(s, c) && Truthy(s.transport)
    requires c.transportOutcome == OtherError(e, p)
    ensures Dispatch(Some(s), request, body, c).outcome == Raised(OtherException(e))
    ensures Dispatch(Some(s), request, body, c).body == MovedTo(SetupMoved(s, body, c), p)
  {
  }

  /** With `McpServer.configuration` still `nil`, the first attribute read
      raises before any collaborator runs. */
  lemma UnconfiguredRaises(request: ObjectId, body: Option<Stream>, c: Collaborators)
    ensures Dispatch(None, request, body, c) == Run(Raised(NoMethodError), [], body)
  {
  }

  /** `call` as the code is written against configuration.rb, whose class has
      no `resources_read_handler` or `transport` reader. Up to the gate it
      behaves as the corrected `call`. */
  function DispatchAsWritten(config: Option<Settings>, request: ObjectId, body: Option<Stream>, c: Collaborators): (run: Run)
    ensures config.None? || Denied(config.value, c) ==> run == Dispatch(config, request, body, c)
  {
    if config.None? then Run(Raised(NoMethodError), [], body)
    else
      var s := config.value;
      if Denied(s, c) then Run(Response(UnauthorizedResponse()), [Authenticate], AuthMoved(s, body, c))
      else
        var prepared := Prepare(s, request, c);
        var body := SetupMoved(s, body, c);
        match ReadAsWritten(s, ResourcesReadHandler)
        case Missing => Run(Raised(NoMethodError), prepared, body)
        case Found(handler) =>
          var registered := prepared + (if Truthy(handler) then [RegisterReadHandler(handler)] else []);
          match ReadAsWritten(s, Transport)
          case Missing => Run(Raised(NoMethodError), registered, body)
          case Found(transport) => TransportStage(transport, registered, body, c)
  }

  /** As written, every request that passes the gate raises `NoMethodError`
      at rack_app.rb:27 after the engine has been built, where the model with
      the two attributes returns `nil` for a default configuration. */
  lemma AsWrittenRaisesPastGate(s: Settings, request: ObjectId, body: Option<Stream>, c: Collaborators)
    requires !Denied(s, c)
    ensures DispatchAsWritten(Some(s), request, body, c).outcome == Raised(NoMethodError)
    ensures s == Defaults() ==> Dispatch(Some(s), request, body, c).outcome == NilResponse
  {
  }

  /** The configuration `call` observes. */
  function ConfigView(app: McpServer.ModuleState): (r: Option<Settings>)
    reads app, app.configuration
    ensures r.Some? <==> app.configuration != null
  {
    if app.configuration == null then None else Some(app.configuration.Snapshot())
  }

  /** `RackApp.call(env)`. */
  method Call(app: McpServer.ModuleState, request: Request, c: Collaborators) returns (outcome: Outcome, trace: seq<Event>)
    modifies request.body
    ensures var run := Dispatch(ConfigView(app), request.id, old(BodyView(request.body)), c);
            outcome == run.outcome && trace == run.trace && BodyView(request.body) == run.body
  {
    var config := app.configuration;
    if config == null {
      outcome, trace := Raised(NoMethodError), [];
      return;
    }
    var denied;
    denied, trace := Setup(config, request, c);
    if denied {
      outcome := Response(Triple(401, JsonHeaders(), [UnauthorizedBody]));
      return;
    }
    outcome, trace := TransportBlock(config.transport, trace, request, c);
  }

  /** Lines 12-29 of `call`, once the configuration is found: the
      authentication gate, the context, the engine and the read handler.
      The predicate and the builder may move the body stream. */
  method Setup(config: Configuration, request: Request, c: Collaborators) returns (denied: bool, trace: seq<Event>)
    modifies request.body
    ensures denied == Denied(config.Snapshot(), c)
    ensures denied ==> trace == [Authenticate]
    ensures denied ==> BodyView(request.body) == AuthMoved(config.Snapshot(), old(BodyView(request.body)), c)
    ensures !denied ==> (trace == Prepare(config.Snapshot(), request.id, c) +
                           (if Truthy(config.resourcesReadHandler) then [RegisterReadHandler(config.resourcesReadHandler)] else []))
    ensures !denied ==> BodyView(request.body) == SetupMoved(config.Snapshot(), old(BodyView(request.body)), c)
  {
    trace := [];
    denied := false;
    if Truthy(config.authenticateWith) {
      trace := trace + [Authenticate];
      MoveBody(request, c.authBodyPos);
      if !c.authAllows {
        denied := true;
        return;
      }
    }
    if Truthy(config.buildContextWith) {
      trace := trace + [BuildContext];
      MoveBody(request, c.builderBodyPos);
    }
    var context := BuildServerContext(request.id, config.buildContextWith, c.builderResult);
    var args := ServerArgs("mcp_server", "0.1.0",
                           Or(config.tools, Array([])), Or(config.prompts, Array([])),
                           Or(config.resources, Array([])), context);
    trace := trace + [NewServer(args)];
    if Truthy(config.resourcesReadHandler) {
      trace := trace + [RegisterReadHandler(config.resourcesReadHandler)];
    }
  }

  /** A collaborator handed the request leaves its body stream at p, if it
      moved it at all. */
  method MoveBody(request: Request, p: Option<nat>)
    modifies request.body
    ensures BodyView(request.body) == MovedTo(old(BodyView(request.body)), p)
  {
    if request.body != null && p.Some? {
      request.body.MoveTo(p.value);
    }
  }

  /** Lines 31-44 of `call`, once the engine is built: `response` starts as
      `nil` and is set by the transport block when a transport is
      configured; the transport may move the body stream. */
  method TransportBlock(transport: RubyObject, registered: seq<Event>, request: Request, c: Collaborators)
    returns (outcome: Outcome, trace: seq<Event>)
    modifies request.body
    ensures var run := TransportStage(transport, registered, old(BodyView(request.body)), c);
            outcome == run.outcome && trace == run.trace && BodyView(request.body) == run.body
  {
    outcome := NilResponse;
    trace := registered;
    if Truthy(transport) {
      trace := trace + [RunTransport(transport)];
      MoveBody(request, c.transportOutcome.bodyPos);
      match c.transportOutcome
      case Returned(t, _) =>
        outcome := Response(t);
      case OtherError(e, _) =>
        outcome := Raised(OtherException(e));
      case NoMethod(_) =>
        outcome, trace := Fallback(trace, request, c);
    }
  }

  /** The `rescue NoMethodError` branch (lines 36-40). */
  method Fallback(trace0: seq<Event>, request: Request, c: Collaborators) returns (outcome: Outcome, trace: seq<Event>)
    modifies request.body
    ensures var run := LegacyFallback(trace0, old(BodyView(request.body)), c);
            outcome == run.outcome && trace == run.trace && BodyView(request.body) == run.body
  {
    trace := trace0;
    var body := request.body;
    if body == null {
      outcome := Raised(NoMethodError);
      return;
    }
    if body.rewindable {
      body.Rewind();
      trace := trace + [RewindBody];
    }
    var data := body.Read();
    trace := trace + [ReadBody];
    var json := c.handleJson(data);
    trace := trace + [HandleJson(data)];
    var encoded := c.toJson(json);
    trace := trace + [ToJson(json)];
    outcome := Response(Triple(200, JsonHeaders(), [encoded]));
  }
}
