# mcp_server dispatch core in Dafny

This project models the Ruby gem `mcp_server`. The gem is a Rack application that puts an
MCP engine (`MCP::Server`, from the `mcp` library) behind an HTTP endpoint. The model covers
three parts:

- `McpServer::RackApp.call`, the dispatch for each request:
  - the authentication gate;
  - assembly of the server context (`build_server_context`);
  - construction of the engine with the configured catalogs;
  - optional registration of the resource-read handler;
  - the transport block and its `NoMethodError` fallback to `handle_json`;
  - the `nil` result when no transport is configured.
- `McpServer::Configuration`, the mutable record of extension points.
- The module-level `McpServer.configuration` slot and `McpServer.configure`.

Collaborators are taken as given outcomes:

- whether the authentication predicate answers truthy, and where it leaves the request's body
  stream (it is handed the request and may read it);
- what the context builder returns (a Hash or not), and where it leaves the body stream;
- how the transport block ends (a returned triple, a `NoMethodError`, or another exception);
- the engine's `handle_json` and `String#to_json`, as opaque functions on text.

Given those outcomes, `RackApp.Dispatch` is the decision procedure. It returns the outcome (a
response triple, `nil`, or a raised exception), the trace of collaborators that were invoked,
and the request body stream afterwards. `RackApp.Call` is the imperative rendering and is proved
equal to `Dispatch`.

Files:

- `ruby.dfy`: Ruby values as far as the adapter distinguishes them (`nil`, `false`, arrays,
  other objects), truthiness, and `||`.
- `configuration.dfy`: `Configuration` as a class, its snapshot `Settings`, attribute writes, and
  the effect of a configuration block (a sequence of attribute writes).
- `mcp_server.dfy`: the module slot, `configure` and `configuration=`.
- `rack_request.dfy`: the Rack request and its body stream (content, position, rewindable).
- `rack_app.dfy`: the dispatch.

Where the code and the tests disagree, the model follows the code. `rack_app.rb` has none of the
following, although tests in `test/test_rack_app.rb` expect them:

- a 405 response for PUT or PATCH;
- a 400 "Invalid JSON" response;
- a 500 response for a transport that raises (the exception propagates instead);
- normalisation of the response body's shape;
- a `response_handler`;
- a 500 "Internal server error" response when no transport is configured (`call` returns `nil`).

## Model

| member | source | states |
|---|---|---|
| `Ruby.Or` | lib/mcp_server/rack_app.rb:21-23 | `x \|\| y` gives `x` when it is truthy and `y` otherwise; the result is truthy exactly when either operand is |
| `Config.Get` | lib/mcp_server/configuration.rb:3 | the attribute readers: reading attribute f gives that attribute's current value; its properties are stated through `Set` and `ReadersDetermineSettings` |
| `Config.ReadersDetermineSettings` | lib/mcp_server/configuration.rb:3 | writing back the value just read changes nothing, and two configurations whose seven readers agree hold the same settings |
| `Config.Set` | lib/mcp_server/configuration.rb:3 | writing an attribute and reading it back gives the value written, and every other attribute keeps its value |
| `Config.ReadAsWritten` | lib/mcp_server/configuration.rb:3 | against the class as written, a reader answers exactly when it is one of the five declared accessors, with the attribute's value, and otherwise raises `NoMethodError` |
| `Config.Defaults` | lib/mcp_server/configuration.rb:5-11 | a fresh configuration has `nil` for `authenticate_with`, `build_context_with`, `resources_read_handler` and `transport`, and `[]` for `tools`, `prompts` and `resources` |
| `Config.Configuration.constructor` | lib/mcp_server/configuration.rb:5-11 | `Configuration.new` produces exactly the default settings |
| `Config.Configuration.Write` | lib/mcp_server/configuration.rb:3 | an attribute writer changes that one attribute to the value given and nothing else |
| `Config.ApplyAll` | lib/mcp_server.rb:10 | the effect of a configuration block's writes, in order; the block's final write is in force afterwards |
| `Config.ApplyAllLastWrite` | lib/mcp_server.rb:10 | after a configuration block, each attribute holds the value of its last write in the block, or its earlier value if the block does not write it |
| `Config.ApplyAllKeepsUnwritten` | lib/mcp_server.rb:9-10 | an attribute that a block does not write keeps the value set by an earlier `configure` or by direct assignment |
| `Config.ApplyAllConcat` | lib/mcp_server.rb:9-10 | two `configure` blocks in a row on the same object have the effect of one block holding both sets of writes in order |
| `McpServer.ModuleState.constructor` | lib/mcp_server.rb:6 | the module's configuration slot starts out `nil` |
| `McpServer.ModuleState.SetConfiguration` | lib/mcp_server.rb:6 | `McpServer.configuration = c` replaces the stored object wholesale |
| `McpServer.ModuleState.Configure` | lib/mcp_server.rb:8-11 | a stored configuration is kept as the same object and is not reset; an empty slot first receives a fresh default configuration; the block's writes are then visible through the stored object |
| `RackRequest.Rewound` | lib/mcp_server/rack_app.rb:38 | `rewind` moves the position back to 0 and leaves the content alone |
| `RackRequest.ReadRest` | lib/mcp_server/rack_app.rb:39 | `read` returns the rest of the content from the current position, or "" when already at or past the end; a position before the end moves to exactly the end, and one past the end stays where it is |
| `RackRequest.MovedTo` | lib/mcp_server/rack_app.rb:12-53 | a collaborator handed the request (the predicate at line 12, the builder at line 53, the transport at line 35) leaves the body at the position it reports, or where it was if it reports none; content and rewindability never change |
| `RackRequest.BodyStream.MoveTo` | lib/mcp_server/rack_app.rb:12-53 | the stream object's state after the reads of a collaborator handed the request (the predicate at line 12, the builder at line 53, the transport at line 35) is its old state at the new position |
| `RackRequest.RewoundReadIsWholeBody` | lib/mcp_server/rack_app.rb:38-39 | reading after a rewind yields the whole body |
| `RackRequest.SecondReadIsEmpty` | lib/mcp_server/rack_app.rb:38-39 | a body that has already been read yields "" on the next read, which is why the body is rewound first |
| `RackRequest.BodyStream.Rewind` | lib/mcp_server/rack_app.rb:38 | the stream object's state after `rewind` is `Rewound` of its state before |
| `RackRequest.BodyStream.Read` | lib/mcp_server/rack_app.rb:39 | the stream object's data and state after `read` are `ReadRest` of its state before |
| `RackApp.BuildServerContext` | lib/mcp_server/rack_app.rb:49-58 | the context's keys are `:request` together with the keys of a Hash returned by a configured builder; Hash values win on a clash, and otherwise `:request` maps to the request |
| `RackApp.ContextIsRequestAlone` | lib/mcp_server/rack_app.rb:50-57 | with no builder, or a builder that returns something other than a Hash, the context is exactly `{request: request}`, with one key |
| `RackApp.ServerArgsFor` | lib/mcp_server/rack_app.rb:18-25 | the engine is built with name "mcp_server" and version "0.1.0"; each catalog is passed unchanged when truthy and as `[]` when `nil` or `false`; the server context is passed as assembled |
| `RackApp.AuthMoved` | lib/mcp_server/rack_app.rb:12 | the predicate, which is handed the request, moves the body only when it is configured, and then to the position it reports; content and rewindability never change |
| `RackApp.SetupMoved` | lib/mcp_server/rack_app.rb:12-16 | the body as the predicate and then the builder leave it, each only when configured; with neither reporting a move, the body is untouched; content and rewindability never change |
| `RackApp.Prepare` | lib/mcp_server/rack_app.rb:12-25 | past the gate, the predicate is called exactly when configured and so is the builder; the last step builds the engine from the defaulted catalogs and the assembled context; `call`'s own code here neither runs the transport nor reads the body; the predicate and the builder may move it (`SetupMoved`) |
| `RackApp.LegacyFallback` | lib/mcp_server/rack_app.rb:36-40 | the rescue branch only appends to the trace; a `nil` body raises `NoMethodError`; otherwise the answer is a 200 JSON response with one body part, and the body ends at or past its end |
| `RackApp.TransportStage` | lib/mcp_server/rack_app.rb:31-44 | the result is `nil` exactly when no transport is configured, and then neither the trace nor the body changes; the stage only appends to the trace, and never a setup event |
| `RackApp.Dispatch` | lib/mcp_server/rack_app.rb:8-45 | `call` as a function of the configuration snapshot and the collaborators' outcomes: it returns `nil` exactly when the gate lets the request through and no transport is configured; every other path ends with a response or an exception |
| `RackApp.AuthDeniedShortCircuits` | lib/mcp_server/rack_app.rb:12-14 | a configured predicate that answers falsy yields exactly `[401, {"Content-Type"=>"application/json"}, ['{"error":"Unauthorized"}']]`; the trace holds only the predicate call; `call`'s own code leaves the body alone, where the predicate left it |
| `RackApp.AuthPassedContinues` | lib/mcp_server/rack_app.rb:12-25 | with no predicate, or one that answers truthy, the engine is built from the defaulted catalogs and the assembled context; the predicate is called exactly when it is configured, and so is the builder |
| `RackApp.TransportResponsePassesThrough` | lib/mcp_server/rack_app.rb:31-44 | with a transport configured, the triple that `handle_request` returns is the result, unchanged; `call`'s own code leaves the body where the predicate, the builder and then the transport left it |
| `RackApp.NoTransportReturnsNil` | lib/mcp_server/rack_app.rb:31-44 | without a transport, `call` returns `nil`; no transport runs, and `call`'s own code leaves the body alone, where the predicate and the builder left it |
| `RackApp.NoMethodFallsBackToHandleJson` | lib/mcp_server/rack_app.rb:36-40 | a `NoMethodError` in the transport block gives `[200, {"Content-Type"=>"application/json"}, [to_json(handle_json(body))]]`; the body, as the predicate, the builder and the transport left it, is rewound exactly once if it can be and is then read to its end (the whole content when rewound, the rest from where those collaborators left it otherwise) |
| `RackApp.ConsumedBodyNeedsRewind` | lib/mcp_server/rack_app.rb:12-39 | when the predicate, the builder or the transport read the body to its end before the `NoMethodError`, a rewindable body still reaches `handle_json` whole, and a body that cannot be rewound reaches it as "" |
| `RackApp.FallbackRewindsOnce` | lib/mcp_server/rack_app.rb:36-40 | the fallback adds exactly one rewind when the body can be rewound and none otherwise, reads what the rewind leaves, and answers 200 with the engine's JSON text encoded again |
| `RackApp.FallbackWithoutBodyRaises` | lib/mcp_server/rack_app.rb:38-39 | in the fallback, a `nil` body does not respond to `rewind`, and `read` on it raises `NoMethodError` |
| `RackApp.OtherErrorPropagates` | lib/mcp_server/rack_app.rb:33-41 | any exception from the transport block other than `NoMethodError` leaves `call` unrescued; `call`'s own code leaves the body where the predicate, the builder and the transport left it |
| `RackApp.UnconfiguredRaises` | lib/mcp_server/rack_app.rb:10-12 | with `McpServer.configuration` still `nil`, reading `authenticate_with` raises `NoMethodError` before any collaborator runs |
| `RackApp.DispatchAsWritten` | lib/mcp_server/rack_app.rb:8-45 | `call` against the five-accessor `Configuration`; up to the gate it agrees with `Dispatch` |
| `RackApp.AsWrittenRaisesPastGate` | lib/mcp_server/rack_app.rb:27 | against the five-accessor `Configuration`, every request that passes the gate raises `NoMethodError` at the `resources_read_handler` read; the corrected model returns `nil` for a default configuration |
| `RackApp.Call` | lib/mcp_server/rack_app.rb:8-45 | `call`'s outcome, its trace of collaborator calls and the body stream afterwards are those of `Dispatch` on the stored configuration and the body before the call |
| `RackApp.Setup` | lib/mcp_server/rack_app.rb:12-29 | the gate, context, engine and read-handler part of `call` refuses exactly when `Denied` holds, with the trace and body of the 401 path; otherwise its trace is `Prepare`'s plus the registration, and the body is `SetupMoved` of the body before |
| `RackApp.MoveBody` | lib/mcp_server/rack_app.rb:12-35 | a collaborator handed the request leaves the body stream object in the state `MovedTo` gives |
| `RackApp.TransportBlock` | lib/mcp_server/rack_app.rb:31-44 | the transport part of `call` matches `TransportStage` in outcome, trace and body stream, including the transport's move of the body |
| `RackApp.Fallback` | lib/mcp_server/rack_app.rb:36-40 | the rescue branch matches `LegacyFallback` in outcome, trace and body stream |

## Findings

| source | as written | input that shows it | evidently intended | confidence | as-written member | corrected member |
|---|---|---|---|---|---|---|
| lib/mcp_server/configuration.rb:3 | `Configuration` declares five accessors, but rack_app.rb:27 reads `resources_read_handler` and rack_app.rb:32 reads `transport` (and test_configuration.rb:38-48 writes both); `DispatchAsWritten` is `call` against that class | any request that passes the authentication gate, e.g. under the default configuration: `call` raises `NoMethodError` at rack_app.rb:27 | accessors for both attributes, starting out `nil` (the seven-field `Config.Configuration` that `Dispatch` reads) | medium, not executed (a file that is not part of this model could reopen the class) | `RackApp.AsWrittenRaisesPastGate` | `RackApp.Dispatch` |

## Left out

- The `MCP::Server` engine, which is a foreign library and not part of this model. Its
  construction is recorded only by its arguments. `handle_json` is an opaque function on text.
  JSON-RPC routing (`initialize`, `ping`, `tools/*`, `prompts/*`, `resources/*`) and
  `serverInfo` are not modelled.
- Concrete transports such as `StreamableHTTPTransport`. Only how the transport block ends is
  modelled, together with where the transport leaves the request's body stream.
- The `transport=` assignment on the engine. The engine is built for one request and is not
  visible after `call`, so it is not modelled as state.
- The internals of `resources_read_handler` registration. Only whether the registration happens,
  and with which handler, appears in the trace.
- Parsing of the Rack environment and JSON serialisation.
  - `String#to_json` is an opaque function on text.
  - The 401 body is the literal text that `Hash#to_json` produces for `{error: "Unauthorized"}`.
- Exceptions from other collaborators: the authentication predicate, the context builder,
  `MCP::Server.new`, `handle_json` and `to_json`. In Ruby these propagate out of `call`. The
  model gives these collaborators only normal outcomes.
- `RackApp.TransportResponsePassesThrough`: `handle_request` is taken to return a response
  triple. Ruby would pass any returned value through unchanged.
- `RackApp.TransportStage`: for the same reason, its result is `nil` only when no transport is
  configured. A `handle_request` that returned `nil` would make `call` return `nil` as well.
- `RackApp.Dispatch`: for the same reason, `nil` only when the gate passes and no transport is
  configured. Ruby would also return `nil` when `handle_request` returns `nil`.
- `RackApp.BuildServerContext`: context keys are symbol names. A builder Hash with a String key
  `"request"` would not clash with `:request` in Ruby, but it does clash in the model.
- `McpServer.ModuleState.Configure`: the block is modelled as the sequence of attribute writes it
  performs on the configuration it receives. A block that runs other code, reassigns
  `McpServer.configuration`, or raises is not modelled.
- Ruby values are abstracted to `nil`, `false`, arrays of opaque elements, and other objects by
  identity. A catalog given as a producer lambda is an opaque object and is passed through
  unchanged, as the code does.
- `McpServer.ModuleState.SetConfiguration`: the slot holds a `Configuration` or `nil`. Storing
  `false` cannot be expressed, although `||=` at lib/mcp_server.rb:9 would replace it as it
  replaces `nil`. Storing an object that is not a `Configuration` cannot be expressed either.
- `McpServer.ModuleState.Configure`: calling `configure` without a block is not modelled. In
  Ruby, `yield` then raises `LocalJumpError` after the slot has been filled.
- Concurrency: the code has none. The configuration is plain module state.
