# Intranet RPC example: a Dafny model

This project models the "intranet" example of a kameo/libp2p remote-actor
toolkit. It has three parts:

- **IntranetCommon** (`intranet_common.dfy`) models the two server actors.
  - `CalculatorActor` answers add, subtract, multiply and divide requests. It
    counts every request. A divide request is answered with `None` (no result)
    when the divisor is zero or when the quotient is infinite or NaN.
  - `NotificationActor` records one client row per subscribing peer and hands
    out subscription ids of the form `sub-<peer>-<n>`.
- **IntranetClient** (`intranet_client.dfy`) models the client side:
  - the search for a remote calculator that skips the client's own peer;
  - one round of the demo, which dispatches five Chinese-named operations;
  - the three-way report of a divide call;
  - the push-notification handler with its counter and display texts;
  - the subscription sequence (register, look up, ask).
- **IntranetRpc** (`intranet_rpc.dfy`) models the transport configuration:
  - the server and client configuration defaults;
  - the multiaddr strings the server listens on and the client dials, with
    proofs that each one reads back as the host, port and peer id it was
    built from;
  - the connection settings, including the client's fixed 300-second idle
    timeout.

Supporting modules:

- `Wrappers`: `Option` and `Result`.
- `Decimal`: Rust's `{}` formatting of unsigned integers, with its parser and
  the round trip between them.
- `Text`: splitting at a separator character.
- `Multiaddr`: the `/`-separated segment syntax of addresses.

Floating point is abstract. Every member that computes with `f64` takes a
`FloatOps` record of operations (`add`, `sub`, `mul`, `div`, the zero, infinity
and NaN tests, and display). The proofs hold for any implementation of them.

Only `find_calculator_service` (`examples/intranet_client.rs:187`) skips
providers on the local peer. `subscribe_to_push_services`
(`examples/intranet_client.rs:216`) takes whatever `lookup("notification")`
returns, so the model gives that lookup's result to `SubscribeToPushServices`
as an input.

## Model

| member | source | states |
|---|---|---|
| IntranetCommon.CalculatorActor.constructor | examples/intranet_common.rs:61-67 | a new calculator has the given name, a request count of 0 and an empty history |
| IntranetCommon.CalculatorActor.HandleAdd | examples/intranet_common.rs:75-93 | the request count goes up by exactly one. The reply is `(a + b, "a + b", server name)` |
| IntranetCommon.CalculatorActor.HandleSubtract | examples/intranet_common.rs:100-118 | the request count goes up by exactly one. The reply is `(a - b, "a - b", server name)` |
| IntranetCommon.CalculatorActor.HandleMultiply | examples/intranet_common.rs:125-143 | the request count goes up by exactly one. The reply is `(a * b, "a × b", server name)` |
| IntranetCommon.CalculatorActor.HandleDivide | examples/intranet_common.rs:150-187 | the request count goes up by exactly one, even when the division is refused. The reply is the one `DivideReply` gives |
| IntranetCommon.DivideCheck | examples/intranet_common.rs:160-178 | the three outcomes: the divisor is zero; the quotient is infinite or NaN; the quotient is finite. Each holds exactly when its condition does |
| IntranetCommon.DivideReply | examples/intranet_common.rs:160-185 | the handler replies `None` (no result) exactly when b is zero or a / b is not finite. A `Some` reply carries a finite a / b, the text "a ÷ b" and the server's name |
| IntranetCommon.ExpressionText | examples/intranet_common.rs:84-91 | the reply's expression text starts with the first operand's display text and ends with the second's. In between are one space, the operation's symbol and one space, so its length in characters is the two operands' lengths plus 3 (in UTF-8 bytes `×` and `÷` take two each, so Rust's `len` would be one more for those) |
| IntranetCommon.ExpressionTextDetermines | examples/intranet_common.rs:84-91 | the operation text identifies the operation and both operands' display forms, as long as those forms have no spaces |
| IntranetCommon.ClientRow | examples/intranet_common.rs:307-313 | the stored row has the request's peer and name, the placeholder actor id 0 and exactly one stream, the requested one |
| IntranetCommon.SubscriptionId | examples/intranet_common.rs:302 | an id is `sub-`, then the peer's text, then `-`, then digits that parse back to the counter value it was built from |
| IntranetCommon.SubscriptionIdInjective | examples/intranet_common.rs:302 | two subscription ids are equal only when both the peer and the counter are equal |
| IntranetCommon.SubscriptionIdsDiffer | examples/intranet_common.rs:302-303 | ids issued for different counter values differ, whatever the peers |
| IntranetCommon.IssuedIdsDistinct | examples/intranet_common.rs:302-303 | in any reachable state of a notification actor, no two of the ids it has handed out are equal |
| IntranetCommon.LatestFromAppend | examples/intranet_common.rs:315 | after a new request, that peer's latest request is the new one and every other peer's is unchanged |
| IntranetCommon.NotificationActor.constructor | examples/intranet_common.rs:278-287 | a new notification actor has no clients and an event count of 0 |
| IntranetCommon.NotificationActor.HandleSubscribe | examples/intranet_common.rs:297-328 | the id is `sub-<peer>-<old count>`. The count goes up by one. The peer's row is replaced by `ClientRow`, every other row is kept, and the client total grows only for a new peer. The id joins the list of ids handed out. It keeps the invariant that each key's row comes from that peer's latest request, and that the i-th id handed out was built from the i-th request's peer and the counter value i |
| IntranetCommon.ResubscribeFromSamePeer | examples/intranet_common.rs:302-315 | a peer that subscribes twice gets two different ids and still occupies one row. That row lists only the second stream |
| IntranetClient.IsLocal | examples/intranet_client.rs:187 | a provider counts as local only when its actor id names a peer and that peer is the client's own. An actor id without a peer is never local |
| IntranetClient.SelectedAtUnique | examples/intranet_client.rs:185-192 | at most one entry of a lookup stream is the one the search selects |
| IntranetClient.FindCalculatorService | examples/intranet_client.rs:182-196 | the result is Some exactly when some entry is a non-local reference with only local references before it, and it is that entry. None means the stream ended or failed after only local references |
| IntranetClient.OperationName | examples/intranet_client.rs:159-165 | the Chinese name of each operation: 加法 add, 减法 subtract, 乘法 multiply, 除法 divide. `Dispatch` is its inverse (`DispatchRoundTrip`) |
| IntranetClient.Dispatch | examples/intranet_client.rs:159-165 | each of the four Chinese operation names maps to its operation, and any other name maps to nothing |
| IntranetClient.DispatchRoundTrip | examples/intranet_client.rs:159-165 | dispatching the name of an operation gives that operation back |
| IntranetClient.PlannedCalls | examples/intranet_client.rs:155-168 | no more calls than entries, each to the chosen calculator and carrying the client's peer id and name. When every operation name dispatches, call i is entry i's operation on entry i's two operands |
| IntranetClient.RunDemoRound | examples/intranet_client.rs:146-168 | with no remote calculator found, nothing is sent. Otherwise the round sends exactly the planned calls for the five built-in calculations to the calculator the search selects |
| IntranetClient.DemoRoundCalls | examples/intranet_client.rs:129-135 | the five built-in calculations all dispatch, so the round's calls are 15 + 25, 100 - 35, 12.5 × 8, 144 ÷ 12 and 100 ÷ 0, in that order, all to the chosen calculator |
| IntranetClient.DemoDivideByZeroHasNoResult | examples/intranet_client.rs:134 | the fifth demo call (100 ÷ 0) is a divide request that the calculator answers with no result |
| IntranetClient.ReportArithmetic | examples/intranet_client.rs:259-277 | a delivered reply is reported at info level with its value, operation and server. A failed call is reported at error level carrying its error |
| IntranetClient.ReportDivide | examples/intranet_client.rs:352-375 | three outcomes: an answered division at info level, no result at warn level and a failed call at error level. The report and its level each match their case of the reply exactly |
| IntranetClient.DeliveredDivideReport | examples/intranet_client.rs:361-371 | when a divide request reaches the calculator, the client reports "no result" at warn level exactly when the divisor is zero or the quotient is not finite. Otherwise it reports the finite quotient |
| IntranetClient.SeverityIcon | examples/intranet_client.rs:465-469 | the icon logged for each severity: ℹ️ for info, ⚠️ for warning, ❌ for error. `SeverityDisplayDistinct` proves the three differ |
| IntranetClient.SeverityText | examples/intranet_client.rs:471-475 | the label logged for each severity: 信息, 警告, 错误. `SeverityDisplayDistinct` proves the three differ |
| IntranetClient.StreamIcon | examples/intranet_client.rs:502-506 | the icon logged for each stream type: 📊 server metrics, 🧮 calculation history, 🔔 system events. `StreamIconDistinct` proves the three differ |
| IntranetClient.SeverityDisplayDistinct | examples/intranet_client.rs:465-475 | each of the three severities has its own icon and its own label |
| IntranetClient.StreamIconDistinct | examples/intranet_client.rs:502-506 | each of the three stream types has its own icon |
| IntranetClient.ClientNotificationHandler.constructor | examples/intranet_client.rs:389-396 | a new handler has the given client name and a notification count of 0 |
| IntranetClient.ClientNotificationHandler.HandleServerStatusUpdate | examples/intranet_client.rs:403-423 | the notification count goes up by one, and the kind of push (a status update) joins the history |
| IntranetClient.ClientNotificationHandler.HandleTaskCompletionNotice | examples/intranet_client.rs:429-449 | the notification count goes up by one, and the kind of push (a task notice) joins the history |
| IntranetClient.ClientNotificationHandler.HandleEventBroadcast | examples/intranet_client.rs:455-486 | the notification count goes up by one. The displayed icon and label are the ones for the broadcast's severity |
| IntranetClient.ClientNotificationHandler.HandleStreamDataItem | examples/intranet_client.rs:492-514 | the notification count goes up by one. The displayed icon is the one for the item's stream type |
| IntranetClient.SubscribeToPushServices | examples/intranet_client.rs:199-243 | a failed register, lookup or ask makes the whole call fail with that error. A missing notification service still gives a handler and sends nothing. Otherwise exactly one ServerMetrics subscription is sent, carrying the client's peer and name, and the handler is returned |
| IntranetRpc.DefaultServerConfig | examples/intranet_rpc.rs:27-39 | the server defaults: host 0.0.0.0, TCP port 8020, QUIC port 8021, name "server", a 300-second idle timeout, a 60-second request timeout, 500 concurrent streams |
| IntranetRpc.DefaultClientConfig | examples/intranet_rpc.rs:52-63 | the client defaults: server 127.0.0.1 on TCP port 8020, no server peer id, name "client", a 60-second request timeout, 500 concurrent streams |
| IntranetRpc.ServerTcpAddress | examples/intranet_rpc.rs:125 | the TCP listen address built from the configured host and TCP port. `ServerTcpAddressParses` reads it back |
| IntranetRpc.ServerQuicAddress | examples/intranet_rpc.rs:128 | the QUIC-v1 listen address built from the configured host and QUIC port. `ServerQuicAddressParses` reads it back |
| IntranetRpc.ClientListenAddress | examples/intranet_rpc.rs:233 | the fixed wildcard TCP listen address with port 0. `ClientListenAddressParses` reads it back |
| IntranetRpc.ClientDialAddress | examples/intranet_rpc.rs:236-244 | the dial address: host and TCP port, plus a `/p2p/` part only when a server peer id is configured. `ClientDialAddressParses` reads it back |
| IntranetRpc.ServerTcpAddressParses | examples/intranet_rpc.rs:125 | the server's TCP listen address reads back as a TCP endpoint with the configured host and TCP port and no peer id |
| IntranetRpc.ServerQuicAddressParses | examples/intranet_rpc.rs:128 | the server's QUIC listen address reads back as a QUIC-v1 endpoint with the configured host and QUIC port |
| IntranetRpc.ClientListenAddressParses | examples/intranet_rpc.rs:233 | the client listens on the wildcard TCP address with port 0 |
| IntranetRpc.ClientDialAddressParses | examples/intranet_rpc.rs:236-244 | the dial address reads back as the configured server host and TCP port. It carries the peer id exactly when the configuration has one |
| IntranetRpc.DefaultServerAddresses | examples/intranet_rpc.rs:125-128 | with the defaults, the server listens on `/ip4/0.0.0.0/tcp/8020` and `/ip4/0.0.0.0/udp/8021/quic-v1` |
| IntranetRpc.DefaultClientDialAddress | examples/intranet_rpc.rs:236-244 | with the defaults, the client dials `/ip4/127.0.0.1/tcp/8020` |
| IntranetRpc.ServerSettings | examples/intranet_rpc.rs:107-117 | the server uses its configured stream limit and idle timeout, and a negotiating-stream limit of 1024 |
| IntranetRpc.ClientSettings | examples/intranet_rpc.rs:215-225 | the client uses its configured stream limit, a fixed 300-second idle timeout and a negotiating-stream limit of 1024 |
| IntranetRpc.ClientIdleTimeoutIgnoresConfig | examples/intranet_rpc.rs:224 | two client configurations with the same request timeout and stream limit get identical settings. The idle timeout plays no part |
| IntranetRpc.NewServer | examples/intranet_rpc.rs:92-132 | setup fails exactly when one of the two listen addresses is rejected, and the error names that address (TCP is checked first). Otherwise the server listens on both addresses, in that order |
| IntranetRpc.NewClient | examples/intranet_rpc.rs:200-250 | setup fails exactly when listening on the fixed address or dialling the server address is refused. The two are separate inputs, and listening is tried first. Otherwise the client listens on the wildcard address and dials the configured server |
| Decimal.DecimalDigits | examples/intranet_common.rs:302 | a number's decimal text is non-empty, made only of digits, and has no leading zero unless the number is 0 |
| Decimal.DecimalRoundTrip | examples/intranet_rpc.rs:125 | parsing a number's decimal text gives the number back |
| Decimal.DecimalInjective | examples/intranet_common.rs:302 | different numbers have different decimal texts |
| Multiaddr.SplitSegmentsRoundTrip | examples/intranet_rpc.rs:236-244 | splitting a `/`-joined address at its slashes gives back the segments it was built from |

## Left out

- Building the libp2p swarm (identity, TCP, QUIC, noise, yamux, the kameo behaviour) is external code. The only thing the model keeps is whether each address is accepted, and `NewServer`/`NewClient` take that as a parameter.
- `IntranetRpc.NewServer` and `IntranetRpc.NewClient` do not model the builder's own `?` exits (`examples/intranet_rpc.rs:101`, `114`, `209`, `222`). Those fail inside libp2p's transport and behaviour setup, before any address is used.
- Swarm event loops (`spawn_event_loop`) only log connection events, so they are not modelled. Nothing in the code removes a client row when its connection closes.
- The kameo registry and messaging are external code. Registering, `lookup`, `lookup_all`, `ask`, correlation and request timeouts appear only through their results, which are inputs to the model. The registry names `"calculator"`, `"notification"` and `"client_handler"` are therefore not part of the model.
- IEEE-754 `f64` arithmetic, the `== 0.0` test and `{}` formatting of floats are external code. They are the abstract `FloatOps` operations. The `f32` fields of status updates stay an abstract type.
- The counters `request_count`, `event_count` and `notification_count` are `nat`, so the model does not capture `u64` overflow. It would need 2^64 messages.
- `PeerId` is modelled as its base58 text. How that text is drawn from the key is external code.
- `SystemTime` values (`connected_at`, `start_time`) and the `sleep` calls are left out, because the model has no clock.
- Log output is left out. The only displayed texts kept are the severity icon and label and the stream icon, which a handler picks by the message's kind. The status-update and task-notice displays (`examples/intranet_client.rs:416-419`, `442-445`) print the message's fields, and the model leaves them out. The handlers' histories record only the kind of each push, not its contents.
- `run_demo_mode` repeats forever with a round counter and a pause, and the model covers one round. The `interval`-second wait before each round (`examples/intranet_client.rs:125`, `138`; 3 s by default) and the retry when no calculator is found are left out.
- `main`, the `clap` arguments, `print_banner`, `run_interactive_mode` (it only logs) and the server program `intranet_server.rs` are not part of this model.
- `local_peer_id()` and `config()` on `RpcServer`/`RpcClient` are plain getters and are left out.
- `IntranetRpc.ServerTcpAddressParses`, `ServerQuicAddressParses` and `ClientDialAddressParses` hold only for a host and peer id that contain no `/`. A `/` in either shifts the segments, so `ParseEndpoint` reads back a different host, port or peer id. libp2p's own parser may still accept such text as some other multiaddr, and the model does not say what it then names.
- `IntranetCommon.ExpressionTextDetermines` covers only operand display texts without spaces, which is true of Rust's float formatting.
