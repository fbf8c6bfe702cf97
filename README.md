# RuleGo network endpoint — a Dafny model

This project models the network endpoint of the RuleGo rule engine (`endpoint/net/net.go`).
The endpoint accepts byte-stream connections and reads newline-delimited frames from each one.
It drops heartbeat frames (`ping`) and matches every other frame against a registry of
regular-expression routes. It hands the frame, wrapped in a request/response exchange, to every
route whose pattern matches.

The model has these parts:

- **Route registry** (`registry.dfy`, module `Registry`). `Net.routers` is an optional map from
  route id to `RegexpRouter`; `None` is Go's nil map. `Add` and `Remove` are pure specifications of
  `AddRouter` and `RemoveRouter`, with all their error cases. `Targets` is the set of routes a frame
  reaches. `WellFormed` is the invariant the registry keeps: every entry is keyed by its router's id,
  its own `id` field stays empty, and its pattern is the one compiled from the router's expression
  (none for the empty expression, meaning "match all").
- **Read loop** (`read_loop.dfy`, module `ReadLoop`). `ClientHandler.handler` becomes a step
  function over abstract events. Each `Read` event says whether arming the read deadline failed and
  what `ReadLine` returned. An `IdleTimerFires` event is the idle timer's callback. The loop produces
  a trace of actions: timer start, deadline arming, timer resets, one `Dispatch` per non-heartbeat
  frame (with the request message and the set of route ids it reaches), and `Disconnect`.
- **Envelopes** (`message.dfy`, module `Message`). `RequestMessage` and `ResponseMessage` are
  classes whose fields the accessors update in place. A ghost field `sent` records the writes a
  response issued on its connection, in order, whether or not the connection reported an error.
- **Endpoint** (`endpoint.dfy`, module `Endpoint`). The class `Net` holds the configuration,
  listener and registry. The lifecycle members `New`, `Init`, `Start`, `Close`, `Destroy` and `Id`
  state the new configuration, listener and result in their own contracts. `AddRouter` and
  `RemoveRouter` are proved against the `Registry` specification, and `Handler` (the read loop,
  with `Next`, `Deliver` and `MatchRoutes` for one event, one frame and the routes loop) against
  the `ReadLoop` specification.
- **Foreign parts** are parameters. `Regex.Engine` stands for the `regexp` package: the error
  `Compile` reports, and whether a compiled expression matches some bytes. `checkAndSetId` stands
  for `BaseEndpoint.CheckAndSetRouterId`. `Connection` carries the peer address and the result of
  every `Write`. `Listener` carries the result of its `Close`. What `net.Listen` and
  `maps.Map2Struct` return are method parameters.
- `scenarios.dfy` states, as lemmas, what the registry and the loop do together in two scenarios.

Details of the code the model keeps:

- The read deadline and the idle timer both use `ReadTimeout + 5` seconds (net.go:383). The model
  counts these seconds as an unbounded integer; see `ReadLoop.IdleSeconds` under "## Left out".
- `RemoveRouter` reports "not found" only when the registry map exists; on a nil map it returns nil
  (net.go:306-317).
- The duplicate-route error text is `duplicate router <expr>`, naming the route's expression
  (net.go:293-294).
- The error `SetBody` records without a connection is `write err: conn is nil` (net.go:178-181).
- `Headers()` stores the remote address under `Remoteaddr`, the key in the canonical form
  `MIMEHeader.Set` uses (net.go:77-85).
- The loop makes two separate deadline tests (net.go:406-417). An `OpError` wrapping the deadline
  error makes the loop go round again. An error whose `Error()` text is exactly `i/o timeout` passes
  the first test, so the timer is reset and the data returned with it is delivered as a frame.
  `bufio.Reader.ReadLine` returns no data together with an error, so in Go that frame is empty; the
  model lets the error carry any data (see `ReadLoop.Step` under "## Left out").

## Model

| member | source | states |
|---|---|---|
| `Registry.Add` | endpoint/net/net.go:272-304 | a nil router fails with `RouterNil` (text `router can not nil`) and id ""; a non-empty expression that does not compile fails with the compile error and id ""; every failure leaves the registry unchanged; otherwise the id is the one `CheckAndSetRouterId` set, a registered id fails with the duplicate error (text `duplicate router <expr>`), and success adds exactly one entry (router with that id, empty entry id, compiled pattern) under it and keeps the other entries; the registry invariant is preserved |
| `Registry.Remove` | endpoint/net/net.go:306-317 | "not found" (text `router: <id> not found`) exactly when the map exists and lacks the id, leaving it unchanged; a nil map stays nil with no error; afterwards the id is absent and every other entry is unchanged; the invariant is preserved |
| `Registry.EmptyExpressionMatchesAll` | endpoint/net/net.go:277-279 | a route registered with the empty expression is among the targets of every frame |
| `Registry.PatternRouteMatchesOnly` | endpoint/net/net.go:444-448 | a route with a non-empty expression is a target of a frame exactly when its pattern matches the frame's bytes |
| `Registry.DistinctRoutesCoexist` | endpoint/net/net.go:290-300 | two routes added under different ids are both registered afterwards, the first unchanged |
| `Registry.DuplicateKeepsOriginal` | endpoint/net/net.go:293-294 | adding a router whose id is registered returns that id with an error and leaves the registered entry as it was |
| `Registry.RemovedRouteReceivesNothing` | endpoint/net/net.go:306-317 | after removing an id no frame is dispatched to it |
| `Registry.TargetsAreRegistered` | endpoint/net/net.go:444-448 | the routes a frame reaches are registered routes; a nil registry has none |
| `ReadLoop.InboundMsgFields` | endpoint/net/net.go:439-441 | the message handed to the routes has TEXT data, the peer address as message type, the frame as data, and metadata holding exactly `remoteAddr` set to the peer address |
| `ReadLoop.DeliverEffects` | endpoint/net/net.go:419-448 | with `ReadTimeout > 0` a read frame first resets the idle timer to `ReadTimeout + 5`; without one it causes at most a dispatch; it is dispatched exactly when it is not `ping`, and only as itself, with `InboundMsg` and `Targets` |
| `ReadLoop.StepEffects` | endpoint/net/net.go:385-449 | only a read ends the loop, and then it has armed the deadline (with a timeout) and disconnected; while the loop goes on the connection becomes closed only by the idle timer firing with `ReadTimeout > 0` |
| `ReadLoop.Handle` | endpoint/net/net.go:375-451 | a handler run first starts the idle timer for `ReadTimeout + 5` seconds, and if it stopped its last action is `Disconnect` |
| `ReadLoop.DispatchesFollowRoutes` | endpoint/net/net.go:423-448 | every dispatched frame differs from the heartbeat, goes to exactly the routes whose pattern is nil or matches it, and carries the request message built from it (TEXT, sender address as type, frame as data, remote address in the metadata) |
| `ReadLoop.HeartbeatNeverDispatched` | endpoint/net/net.go:423-425 | in a whole handler run no dispatched frame equals `ping` |
| `ReadLoop.NoTimeoutNoDeadlines` | endpoint/net/net.go:395-401 | with `ReadTimeout <= 0` no read deadline is armed and the idle timer is never reset |
| `ReadLoop.SilentConnectionStaysOpen` | endpoint/net/net.go:385-389 | with `ReadTimeout <= 0` the idle timer's callback never disconnects: a run of timer events has an empty trace and does not stop |
| `ReadLoop.StopIsFinal` | endpoint/net/net.go:406-418 | once the loop has stopped, no later event changes the trace |
| `ReadLoop.StopEndsWithDisconnect` | endpoint/net/net.go:396-417 | a loop that stopped ended with `Disconnect` |
| `ReadLoop.ClosedConnectionDispatchesNothing` | endpoint/net/net.go:385-401 | after the idle timer closed the connection no frame is dispatched, and the next read ends the loop |
| `ReadLoop.RunAppend` | endpoint/net/net.go:393-449 | a run over two event sequences is the run over the first followed by the run over the second, started from the connection state the first left (closed exactly when the idle timer fired with `ReadTimeout > 0`), as long as the first did not stop the loop |
| `ReadLoop.IdleTimeoutDisconnects` | endpoint/net/net.go:383-389 | with `ReadTimeout > 0`, when the idle timer fires after any run that is still going, the trace so far is kept, the next action is `Disconnect` unless the timer had already fired, and no frame is dispatched from then on |
| `ReadLoop.FrameResetsIdleTimer` | endpoint/net/net.go:395-422 | with `ReadTimeout > 0`, every line read on a usable connection by a run still going, `ping` included, arms the read deadline and then resets the idle timer, both to `ReadTimeout + 5` seconds (unwrapped, see `ReadLoop.IdleSeconds` under "## Left out"), right after the trace so far |
| `ReadLoop.FrameIsDispatched` | endpoint/net/net.go:403-448 | after any run still going on a connection the timer has not closed (or with no read timeout), a line that is not `ping` is dispatched, after the trace so far, with its message and exactly its routes |
| `ReadLoop.DeliverFrames` | endpoint/net/net.go:419-448 | a delivered read dispatches its frame exactly once unless it is `ping`, and nothing else |
| `ReadLoop.StepFrames` | endpoint/net/net.go:393-448 | one event dispatches the frames `Delivered` assigns it, and an event that ends the loop dispatches nothing and ends `Delivered` too |
| `ReadLoop.DispatchedFramesAreDelivered` | endpoint/net/net.go:393-448 | the frames the loop dispatches are, in order and each once, exactly `Delivered`: the data of every non-`ping` line or `i/o timeout`-text error read before the loop ends, on a connection usable for reading |
| `ReadLoop.DeadlineOpErrorContinues` | endpoint/net/net.go:406-413 | an `OpError` wrapping the deadline error only re-arms the deadline: no dispatch, no disconnect, the loop goes on |
| `ReadLoop.OtherReadErrorDisconnects` | endpoint/net/net.go:406-417 | any other error whose text is not the deadline text disconnects and stops the loop |
| `ReadLoop.DeadlineTextIsDelivered` | endpoint/net/net.go:406 | an error whose text equals the deadline text is handled exactly like a successfully read line carrying the same data |
| `Message.RefreshHeaders` | endpoint/net/net.go:77-85 | the header is the existing one or a new empty one; with a connection the remote-address key holds exactly the peer address; no other key changes |
| `Message.RemoteAddr` | endpoint/net/net.go:88-94 | "" without a connection, the peer address otherwise |
| `Message.TextMsg` | endpoint/net/net.go:104-108 | the built message has TEXT data type, the sender as message type, the body as data and empty metadata |
| `Message.GetMsgIsMemoized` | endpoint/net/net.go:104-111 | two calls of `GetMsg` return the same message, which is the stored one afterwards: the message already stored, or the one built from the connection and body when none was set; nothing but the message slot changes |
| `Message.RequestMessage.constructor` | endpoint/net/net.go:428-431 | the request holds the connection and the frame, with no headers, message or error |
| `Message.RequestMessage.Body` | endpoint/net/net.go:73-75 | returns the stored body |
| `Message.RequestMessage.Headers` | endpoint/net/net.go:77-85 | the stored header becomes `RefreshHeaders` of the old one and is returned |
| `Message.RequestMessage.From` | endpoint/net/net.go:88-94 | the peer address, or "" without a connection |
| `Message.RequestMessage.GetParam` | endpoint/net/net.go:96-98 | always "" |
| `Message.RequestMessage.SetMsg` | endpoint/net/net.go:100-102 | the stored message becomes the argument |
| `Message.RequestMessage.GetMsg` | endpoint/net/net.go:104-111 | a stored message is returned unchanged; otherwise the TEXT message from `From()` and the body is built, stored and returned |
| `Message.RequestMessage.SetStatusCode` | endpoint/net/net.go:113-115 | changes nothing |
| `Message.RequestMessage.SetBody` | endpoint/net/net.go:117-119 | the body becomes the argument |
| `Message.RequestMessage.SetError` | endpoint/net/net.go:121-123 | the error slot becomes the argument |
| `Message.RequestMessage.GetError` | endpoint/net/net.go:125-127 | returns the error slot |
| `Message.RequestMessage.Conn` | endpoint/net/net.go:129-131 | returns the connection |
| `Message.ResponseMessage.constructor` | endpoint/net/net.go:432-437 | the response holds the connection, an empty body, nothing written, no headers, message or error |
| `Message.ResponseMessage.Body` | endpoint/net/net.go:143-145 | returns the stored body |
| `Message.ResponseMessage.Headers` | endpoint/net/net.go:147-155 | the stored header becomes `RefreshHeaders` of the old one and is returned |
| `Message.ResponseMessage.From` | endpoint/net/net.go:157-162 | the peer address, or "" without a connection |
| `Message.ResponseMessage.GetParam` | endpoint/net/net.go:164-166 | always "" |
| `Message.ResponseMessage.SetMsg` | endpoint/net/net.go:168-170 | the stored message becomes the argument |
| `Message.ResponseMessage.GetMsg` | endpoint/net/net.go:171-173 | returns the stored message and never builds one |
| `Message.ResponseMessage.SetStatusCode` | endpoint/net/net.go:175-176 | changes nothing |
| `Message.ResponseMessage.SetBody` | endpoint/net/net.go:178-187 | the body is always stored; without a connection nothing is written and the error is `write err: conn is nil`; with one the bytes are written once, and the error slot takes the write's error or stays as it was |
| `Message.ResponseMessage.SetError` | endpoint/net/net.go:189-191 | the error slot becomes the argument |
| `Message.ResponseMessage.GetError` | endpoint/net/net.go:193-195 | returns the error slot |
| `Types.NewMsg` | rulego.go:92 | the arguments are timestamp, message type, data type, metadata and data, in that order |
| `Endpoint.WithProtocol` | endpoint/net/net.go:247-249 | the protocol is never empty afterwards: an empty one becomes `tcp`, anything else is kept |
| `Endpoint.Net.New` | endpoint/net/net.go:237-241 | configuration `tcp` / `:6335` / 60 seconds, no listener, nil registry |
| `Endpoint.Net.Init` | endpoint/net/net.go:244-252 | the configuration is the merged one with the protocol default applied (also when the merge failed), the rule configuration is stored, and the merge error is returned |
| `Endpoint.Net.Start` | endpoint/net/net.go:319-326 | a successful listen stores the listener and returns nil; a failed one leaves no listener and returns the error |
| `Endpoint.Net.Close` | endpoint/net/net.go:259-266 | the listener is cleared; the result is the listener's close result, or nil when there was none, so a second call returns nil |
| `Endpoint.Net.Destroy` | endpoint/net/net.go:255-257 | closes the listener, dropping the error |
| `Endpoint.Net.Id` | endpoint/net/net.go:268-270 | the endpoint's id is its bind address |
| `Endpoint.Net.AddRouter` | endpoint/net/net.go:272-304 | the new registry, id and error are those of `Registry.Add`, and the registry invariant is kept |
| `Endpoint.Net.RemoveRouter` | endpoint/net/net.go:306-317 | the new registry and error are those of `Registry.Remove`, and the registry invariant is kept |
| `Endpoint.Net.MatchRoutes` | endpoint/net/net.go:444-448 | the routes loop selects exactly the registered routes whose pattern is nil or matches the frame |
| `Endpoint.Net.Deliver` | endpoint/net/net.go:420-448 | a read frame resets the idle timer when the timeout is on, then, unless it is `ping`, is dispatched with its request message (the remote address added to its metadata) to `MatchRoutes`' routes |
| `Endpoint.Net.Next` | endpoint/net/net.go:385-425 | one event has exactly the effect `ReadLoop.Step` gives it: timer callback, deadline arming, error classification, delivery |
| `Endpoint.Net.Handler` | endpoint/net/net.go:375-451 | the loop's trace and its disconnected flag are those of `ReadLoop.Handle` on the same events |
| `Scenarios.ErrorRouteScenario` | endpoint/net/net.go:423-448 | route `a` with `^ERR`: an error line reaches `a`, an info line no route, `ping` is not dispatched; after removing `a` an error line reaches no route |
| `Scenarios.CatchAllScenario` | endpoint/net/net.go:277-279 | a catch-all route and a `^X` route: `Xyz` reaches both, `abc` only the catch-all |

## Left out

- Socket I/O is not modelled: `net.Listen`, `SetReadDeadline`, `ReadLine` framing (its `isPrefix` splitting of long lines) and `Write` are represented by their results only.
- The accept loop started by `Start` (its `ErrClosed` exit and its per-connection goroutines) is left out because it only does concurrency and socket I/O.
- The goroutines, the `time.AfterFunc` timer running concurrently with the loop, the `recover` guard and the `Lock`/`Unlock` around the registry are left out. In the model the timer's callback runs only between loop iterations, and the registry does not change while a connection is being read.
- Endpoint.Net.Handler: a read on a connection that the idle timer already closed is modelled as failing when its deadline is armed. This is the `net.Conn` behaviour on a closed connection, which the model cannot see.
- `onDisconnect` and the deferred close are one `Disconnect` action: its `conn.Close`, `Timer.Stop` and log line are not separated.
- Logging (`Printf`, the response's `log` callback) is left out because it is only a side-effect sink.
- `DoProcess` and the rule chains behind it are not part of this model. A dispatch records the frame, its message and the set of routes it reaches (an empty set means no route is invoked). The order of the `DoProcess` calls within one frame follows Go's unspecified map order and is not modelled. The per-frame `ResponseMessage` is passed only to `DoProcess`, so the loop model does not build it.
- `Type()` is left out because its prefix constant lives in the `types` package, which is not part of this model.
- `types.NewMsg`'s generated message id and any timestamp it fills in are not modelled.
- Message.RequestMessage.Headers and Message.ResponseMessage.Headers return the header as a value. Go returns the stored map itself, so a caller's later `Set` or `Add` on it changes the envelope's header; that sharing is not captured.
- Message.RequestMessage.GetMsg, Message.ResponseMessage.GetMsg, Message.RequestMessage.SetMsg and Message.ResponseMessage.SetMsg pass the message as a value. Go's `SetMsg` stores the caller's `*types.RuleMsg` (net.go:100-102, 168-170) and both `GetMsg` return the stored pointer (net.go:104-111, 171-173), so later changes through that pointer, by whoever holds it, land in the envelope. `Endpoint.Net.Deliver` writes the message back with `SetMsg` after adding the remote address, as the handler's change through the pointer does. Other callers' changes through the pointer are not captured.
- ReadLoop.IdleSeconds: the idle timer and deadline durations are `ReadTimeout + 5` seconds as an unbounded integer. Go computes `time.Duration(ReadTimeout+5) * time.Second` in int64 nanoseconds (net.go:383), which wraps once `ReadTimeout + 5` exceeds about 9.2e9 seconds; the duration then goes negative, the idle timer fires at once and disconnects, and every read deadline is already past. The model does not capture that wrap, so `StartTimer`, `ArmDeadline` and `ResetTimer` carry the unwrapped value.
- ReadLoop.Step: a read error carries arbitrary data, which over-approximates `bufio.Reader.ReadLine`, which never returns data together with an error. An error whose text is `i/o timeout` is therefore delivered in Go as an empty frame, reaching every catch-all route and every route whose pattern matches empty input; the model proves its properties for any data, the empty frame included.
- Routers are values. `CheckAndSetRouterId` (net.go:287) writes the id into the caller's router in place, on the success and duplicate paths but not after a nil router or a compile error; the model returns that id instead of changing the caller's router. A caller that changes a router after `AddRouter` (Go shares the pointer) is not modelled either.
- `rulego.go` (a façade over the engine pool), `rulego_test.go` and `examples/node_config/node_config.go` are not part of this model.
