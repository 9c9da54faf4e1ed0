# sockiopath routing core, in Dafny

sockiopath is a Netty-based Java library. It pairs a WebSocket "control" connection with UDP traffic. A client first sends `join` over WebSocket and receives `session|<id>`. After that it sends datagrams (or binary WebSocket frames) framed as `<address>|<sessionId>|<data>`. The server:

- parses each unit;
- looks up the session;
- on UDP, rebinds the session to the sender;
- calls the handler registered for the address;
- writes the handler's response back on the transport the unit came from.

This project models that routing core and proves properties of it:

- **`messaging.dfy`** models the delimiter framing parser `DefaultMessageParser`. It is a byte-cursor loop over a `java.nio.ByteBuffer` (`nio.dfy`), specified by a pure `Parse` function with:
  - a round trip and its converse;
  - the if-and-only-if condition for a successful parse;
  - the concrete cases the tests use.
- **`sessions.dfy`** and **`websocket_sessions.dfy`** model the session records and the two map-backed session stores. Null maps become an immutable `Map.of()`, which refuses `put` and `remove`.
- **`dispatch.dfy`** models the dispatch engine, `SockiopathHandler` and `SockiopathServerHandler`:
  - every logger call, `writeAndFlush`, handler call and pool acquire/release is appended to an event log (`netty.dfy`);
  - the handler's future is an input, `HandlerOutcome`;
  - lemmas count the handler calls, writes and errors per inbound unit.
- **`udp.dfy`** models `UdpServerHandler` with its optional channel-pool gate, and the standalone `UdpHandler`. A lemma proves `UdpHandler` agrees with the engine.
- **`udp_server.dfy`** models the static `UdpServer.byteBufferToString`.
- **`text_protocol.dfy`** and **`websocket.dfy`** model the WebSocket text protocol: join, broadcast, unregister, and the rejection of other frames. They cover `WebSocketServerHandler`, `WebSocketHandler` and `WebSocketSessionHandler`.
- **`server.dfy`** models the default methods of the `SockiopathServer` interface: staged shutdown of the ExecutorService, `stop`, shutdown of the event loop groups, `byteBufferToString`, and the 500 ms defaults. The pool's answers are inputs.
- **`scenarios.dfy`** replays the join/broadcast/unregister walk-through of the WebSocket server handler's tests against the model.

Shared building blocks:

- `java.dfy` holds Java's signed `byte`, the `(char)` cast, exceptions as values, and `java.util.Map`.
- `wrappers.dfy` holds `Option`, `Result` and `Outcome`.

## Model

| member | source | states |
|---|---|---|
| JavaLang.CharOf | src/main/java/io/worldy/sockiopath/messaging/DefaultMessageParser.java:41 | The `(char)` cast of a signed byte: non-negative bytes keep their value, negative ones map to 0x10000 + b (U+FF80..U+FFFF) |
| Messaging.FindDelimiter | src/main/java/io/worldy/sockiopath/messaging/DefaultMessageParser.java:37-48 | The index found is a delimiter and no delimiter lies between the start and it; None means no delimiter remains |
| Messaging.DefaultMessageParser.constructor | src/main/java/io/worldy/sockiopath/messaging/DefaultMessageParser.java:12-14 | The parser keeps the delimiter char it is given |
| Messaging.DefaultMessageParser.Apply | src/main/java/io/worldy/sockiopath/messaging/DefaultMessageParser.java:17-27 | Whatever the caller's position, the result is `Parse` of the whole buffer from index 0, and the cursor ends at the capacity on every path |
| Messaging.DefaultMessageParser.GetData | src/main/java/io/worldy/sockiopath/messaging/DefaultMessageParser.java:29-35 | Returns exactly the bytes from the cursor to the capacity and exhausts the buffer |
| Messaging.DefaultMessageParser.GetPart | src/main/java/io/worldy/sockiopath/messaging/DefaultMessageParser.java:37-49 | Returns the chars before the next delimiter and consumes that delimiter; with no delimiter left, returns empty with the buffer exhausted |
| Messaging.ParseFrame | src/main/java/io/worldy/sockiopath/messaging/DefaultMessageParser.java:17-49 | Round trip: `addr·d·sid·d·data` parses back to its three parts when addr and sid hold no delimiter, whatever data holds |
| Messaging.ParseInvertsFrame | src/main/java/io/worldy/sockiopath/messaging/DefaultMessageParser.java:17-49 | Converse: every successful parse comes from such a frame, with the data being all remaining bytes |
| Messaging.ParseSucceedsIffTwoDelimiters | src/main/java/io/worldy/sockiopath/messaging/DefaultMessageParser.java:37-48 | A parse succeeds if and only if the buffer holds at least two delimiter bytes |
| Messaging.ParsedFieldsExcludeDelimiter | src/main/java/io/worldy/sockiopath/messaging/DefaultMessageParser.java:41-46 | The address and session id never contain the delimiter; the three fields plus two delimiters account for every byte |
| Messaging.ParseExample | src/test/java/io/worldy/sockiopath/messaging/DefaultMessageParserTest.java:14-21 | "address\|sessionId\|data" parses to ("address", "sessionId", "data") |
| Messaging.ParseEmptySessionId | src/main/java/io/worldy/sockiopath/messaging/DefaultMessageParser.java:37-48 | Adjacent delimiters give an empty session id: "address-empty\|\|payload" |
| Messaging.ParseExampleFailures | src/main/java/io/worldy/sockiopath/messaging/DefaultMessageParser.java:37-48 | A buffer with no delimiter, or only one, gives empty ("noAddress", "a\|b") |
| Messaging.AsciiFrame | src/main/java/io/worldy/sockiopath/messaging/DefaultMessageParser.java:17-49 | The ASCII bytes of "a\|s\|x" parse back to (a, s, x) when a and s hold no '\|' |
| Sessions.SockiopathSession.constructor | src/main/java/io/worldy/sockiopath/session/SockiopathSession.java:13-15 | A new session holds the given WebSocket context; both UDP fields are null |
| Sessions.SockiopathSession.WithUdpSocketAddress | src/main/java/io/worldy/sockiopath/session/SockiopathSession.java:25-28 | Overwrites only the UDP address (last writer wins) and returns the same session |
| Sessions.SockiopathSession.WithUdpContext | src/main/java/io/worldy/sockiopath/session/SockiopathSession.java:34-37 | Overwrites only the UDP context and returns the same session |
| Sessions.MapBackedSessionStore.constructor | src/main/java/io/worldy/sockiopath/session/MapBackedSessionStore.java:18-25 | A null map gives an empty immutable store; any other map is used as given |
| Sessions.MapBackedSessionStore.Get | src/main/java/io/worldy/sockiopath/session/MapBackedSessionStore.java:28-31 | Returns the stored session exactly when the key is present, null otherwise |
| Sessions.MapBackedSessionStore.Size | src/main/java/io/worldy/sockiopath/session/MapBackedSessionStore.java:44-47 | The number of keys |
| Sessions.MapBackedSessionStore.KeySet | src/main/java/io/worldy/sockiopath/session/MapBackedSessionStore.java:49-52 | Exactly the keys `get` finds |
| Sessions.MapBackedSessionStore.Put | src/main/java/io/worldy/sockiopath/session/MapBackedSessionStore.java:33-36 | Returns the previous mapping and binds only that key; the size grows by one if and only if the key was new. An immutable map throws and stays as it was |
| Sessions.MapBackedSessionStore.Remove | src/main/java/io/worldy/sockiopath/session/MapBackedSessionStore.java:38-41 | Returns the removed session and deletes only that key; the size drops by one if and only if the key was present. An immutable map throws |
| Sessions.MapBackedSessionStore.CreateSession | src/main/java/io/worldy/sockiopath/session/SessionStore.java:21-23 | A new session for ctx with unset UDP fields, not stored |
| WebSocketSessions.MapBackedSessionStore.constructor | src/main/java/io/worldy/sockiopath/websocket/session/MapBackedSessionStore.java:20-27 | A null map gives an empty immutable store |
| WebSocketSessions.MapBackedSessionStore.Get | src/main/java/io/worldy/sockiopath/websocket/session/MapBackedSessionStore.java:30-33 | Returns the stored session exactly when the key is present |
| WebSocketSessions.MapBackedSessionStore.Size | src/main/java/io/worldy/sockiopath/websocket/session/MapBackedSessionStore.java:46-49 | The number of keys |
| WebSocketSessions.MapBackedSessionStore.KeySet | src/main/java/io/worldy/sockiopath/websocket/session/MapBackedSessionStore.java:51-54 | Exactly the keys `get` finds |
| WebSocketSessions.MapBackedSessionStore.Put | src/main/java/io/worldy/sockiopath/websocket/session/MapBackedSessionStore.java:35-38 | Returns the previous mapping and binds only that key; immutable maps throw |
| WebSocketSessions.MapBackedSessionStore.Remove | src/main/java/io/worldy/sockiopath/websocket/session/MapBackedSessionStore.java:40-43 | Returns the removed session and deletes only that key; immutable maps throw |
| WebSocketSessions.MapBackedSessionStore.CreateSession | src/main/java/io/worldy/sockiopath/websocket/session/MapBackedSessionStore.java:56-59 | A session over ctx; the map is not touched |
| Dispatch.SenderHost | src/main/java/io/worldy/sockiopath/SockiopathHandler.java:94-99 | The host a log line names: the canonical host name when the address resolved, the host name otherwise |
| Dispatch.LogErrorHostAsWritten | src/main/java/io/worldy/sockiopath/SockiopathHandler.java:89 | `logError`'s host as written fails (NullPointerException) exactly for unresolved senders |
| Dispatch.LogErrorAsWrittenFailsForVirtualSender | src/main/java/io/worldy/sockiopath/websocket/WebSocketServerHandler.java:29 | The virtual sender of binary frames is unresolved, so `logError` as written throws for it |
| Dispatch.SenderHostExtendsLogError | src/main/java/io/worldy/sockiopath/SockiopathHandler.java:82-99 | The corrected host agrees with `logError` wherever that one does not throw, and names the virtual sender |
| Dispatch.HandlerInvokedOnlyWhenDispatched | src/main/java/io/worldy/sockiopath/SockiopathHandler.java:74-132 | A unit calls a handler once, with the parsed message, if and only if it parses, has a session and has a registered address; otherwise it calls none |
| Dispatch.ResponseWrittenOnce | src/main/java/io/worldy/sockiopath/SockiopathHandler.java:115-124 | Exactly one write, carrying the response on the unit's own transport, if and only if a dispatched handler responds in time; otherwise no write |
| Dispatch.ErrorLoggedOnce | src/main/java/io/worldy/sockiopath/SockiopathHandler.java:74-132 | Exactly one error log if and only if the unit does not parse or its handler times out or fails |
| Dispatch.UnitSelections | src/main/java/io/worldy/sockiopath/SockiopathHandler.java:74-132 | Per case, the writes, handler calls and errors of one unit; an undispatched unit writes nothing and calls nothing |
| Dispatch.SockiopathHandler.constructor | src/main/java/io/worldy/sockiopath/SockiopathHandler.java:59-65 | The engine over a store, handlers and a default parser for the delimiter, with no context registered |
| Dispatch.SockiopathHandler.ChannelRead0 | src/main/java/io/worldy/sockiopath/SockiopathHandler.java:74-80 | Appends exactly the unit's events (an unparsable unit's error line names the corrected host, see Findings), never changes the store's map, and on UDP rebinds the session of a parsed message to the sender and context |
| Dispatch.SockiopathHandler.LogError | src/main/java/io/worldy/sockiopath/SockiopathHandler.java:82-90 | One error line naming the sender by the corrected host (see Findings), followed by the rendered content when debug is on, else "Enable debugging to see content" |
| Dispatch.SockiopathHandler.ServerProcess | src/main/java/io/worldy/sockiopath/SockiopathServerHandler.java:42-59 | Drops a message with no session after one debug line; rebinds a UDP session before delegating; non-UDP sessions are untouched |
| Dispatch.SockiopathHandler.Process | src/main/java/io/worldy/sockiopath/SockiopathHandler.java:92-132 | Session gate, UDP rebind before handler lookup (even with no handler), one debug line for an unknown address, then the call and its one completion |
| Dispatch.SockiopathHandler.ChannelRegistered | src/main/java/io/worldy/sockiopath/SockiopathHandler.java:157-163 | Passes the event on, and records the context only on UDP |
| Dispatch.SockiopathHandler.GetChannelHandlerContext | src/main/java/io/worldy/sockiopath/SockiopathHandler.java:165-170 | Returns the registered context if and only if the handler is UDP; otherwise throws UnsupportedOperationException with the source's message |
| Dispatch.SockiopathHandler.ExceptionCaught | src/main/java/io/worldy/sockiopath/SockiopathHandler.java:151-155 | Exactly one error line with the cause; nothing is closed |
| Dispatch.SockiopathHandler.SetChannelPool | src/main/java/io/worldy/sockiopath/SockiopathServerHandler.java:38-40 | Always throws UnsupportedOperationException |
| Dispatch.SockiopathHandler.GetSession | src/main/java/io/worldy/sockiopath/SockiopathServerHandler.java:61-63 | The store's session for the id, null when absent |
| Dispatch.SockiopathHandler.GetSessionCount | src/main/java/io/worldy/sockiopath/SockiopathServerHandler.java:65-67 | The store's size |
| Udp.PooledDispatch | src/main/java/io/worldy/sockiopath/udp/UdpServerHandler.java:58-76 | With a pool, a successful acquire dispatches once between the acquire and the release of the same channel; a failed acquire logs one error and neither calls nor writes |
| Udp.UdpServerHandler.constructor | src/main/java/io/worldy/sockiopath/udp/UdpServerHandler.java:28-50 | The engine with `isUdp` true and no pool |
| Udp.UdpServerHandler.IsUdp | src/main/java/io/worldy/sockiopath/udp/UdpServerHandler.java:52-55 | True: the engine it extends runs on UDP |
| Udp.UdpServerHandler.SetChannelPool | src/main/java/io/worldy/sockiopath/udp/UdpServerHandler.java:78-80 | Installs the pool instead of throwing |
| Udp.UdpServerHandler.ChannelRead0 | src/main/java/io/worldy/sockiopath/udp/UdpServerHandler.java:58-76 | The packet's content and sender go through the engine, directly or behind the pool gate; the session is rebound whenever the unit is dispatched, and a failed acquire leaves it untouched |
| Udp.UdpHandlerAgreesWithEngine | src/main/java/io/worldy/sockiopath/udp/UdpHandler.java:76-126 | For every parsable packet the standalone handler's events equal the engine's on UDP; an unparsable one logs exactly one error |
| Udp.UdpHandler.constructor | src/main/java/io/worldy/sockiopath/udp/UdpHandler.java:43-68 | Store, handlers, default parser for the delimiter, no context registered |
| Udp.UdpHandler.ChannelRegistered | src/main/java/io/worldy/sockiopath/udp/UdpHandler.java:70-74 | Passes the event on and always records the context |
| Udp.UdpHandler.GetChannelHandlerContext | src/main/java/io/worldy/sockiopath/udp/UdpHandler.java:139-141 | The context recorded at registration |
| Udp.UdpHandler.ChannelRead0 | src/main/java/io/worldy/sockiopath/udp/UdpHandler.java:76-83 | Appends the packet's events; every packet routed to an existing session rebinds its UDP address to the sender and its UDP context to the context; the store's map is unchanged |
| Udp.UdpHandler.LogError | src/main/java/io/worldy/sockiopath/udp/UdpHandler.java:85-93 | One "Unable to parse UDP message" error, with content only when debug is on |
| Udp.UdpHandler.Process | src/main/java/io/worldy/sockiopath/udp/UdpHandler.java:95-126 | Session gate, rebind, handler lookup, then one datagram to the sender on success or one error otherwise |
| Udp.UdpHandler.ExceptionCaught | src/main/java/io/worldy/sockiopath/udp/UdpHandler.java:133-137 | One "Error handling Udp connection" error with the cause; the channel stays open |
| UdpServer.ByteBufferToString | src/main/java/io/worldy/sockiopath/udp/UdpServer.java:69-81 | Result length is the capacity, its i-th char is the cast of byte i read from 0, and the cursor ends at the capacity |
| TextProtocol.BroadcastReachesEverySession | src/main/java/io/worldy/sockiopath/websocket/WebSocketServerHandler.java:76-81 | A broadcast writes one frame per session and nothing else; the sender gets the bare text, every other session "<shortId>: text" |
| TextProtocol.BroadcastWritesEachSessionOnce | src/main/java/io/worldy/sockiopath/websocket/WebSocketHandler.java:47-52 | With distinct contexts, every session's context gets exactly one write and no other context gets any |
| TextProtocol.RemovedSessionReceivesNothing | src/test/java/io/worldy/sockiopath/websocket/session/WebSocketSessionHandlerTest.java:43-53 | After a session is removed, no broadcast writes to its context |
| TextProtocol.Broadcast | src/main/java/io/worldy/sockiopath/websocket/session/WebSocketSessionHandler.java:38-43 | The key-set loop visits every key exactly once and writes what `BroadcastWrites` prescribes for that order |
| WebSocket.WebSocketServerHandler.constructor | src/main/java/io/worldy/sockiopath/websocket/WebSocketServerHandler.java:32-54 | The engine with `isUdp` false |
| WebSocket.WebSocketServerHandler.ChannelRead0 | src/main/java/io/worldy/sockiopath/websocket/WebSocketServerHandler.java:61-89 | "join" stores a new session under the long id and replies "session\|<id>"; other text from an unjoined channel writes nothing; from a joined one it broadcasts; binary frames go to the engine from the virtual address (an unparsable one is logged with the corrected host, see Findings); other objects are rejected by class name |
| WebSocket.WebSocketServerHandler.CreateSession | src/main/java/io/worldy/sockiopath/websocket/WebSocketServerHandler.java:91-95 | A fresh session for ctx under its long id, other keys unchanged |
| WebSocket.WebSocketServerHandler.RemoveSession | src/main/java/io/worldy/sockiopath/websocket/WebSocketServerHandler.java:97-103 | Removes exactly the channel's key |
| WebSocket.WebSocketServerHandler.ChannelUnregistered | src/main/java/io/worldy/sockiopath/websocket/WebSocketServerHandler.java:105-109 | Passes the event on, then removes exactly the channel's session |
| WebSocket.WebSocketHandler.constructor | src/main/java/io/worldy/sockiopath/websocket/WebSocketHandler.java:24-26 | The handler over the given store |
| WebSocket.WebSocketHandler.FromMap | src/main/java/io/worldy/sockiopath/websocket/WebSocketHandler.java:28-30 | The handler over a new store wrapping the map (a null map becomes an empty immutable one) |
| WebSocket.WebSocketHandler.ChannelRead0 | src/main/java/io/worldy/sockiopath/websocket/WebSocketHandler.java:32-58 | The text protocol as above; every non-text frame, binary included, throws UnsupportedOperationException naming its class |
| WebSocket.WebSocketHandler.CreateSession | src/main/java/io/worldy/sockiopath/websocket/WebSocketHandler.java:60-64 | A fresh session for ctx under its long id |
| WebSocket.WebSocketHandler.RemoveSession | src/main/java/io/worldy/sockiopath/websocket/WebSocketHandler.java:66-72 | Removes exactly the channel's key |
| WebSocket.WebSocketHandler.ChannelUnregistered | src/main/java/io/worldy/sockiopath/websocket/WebSocketHandler.java:74-78 | Passes the event on, then removes the channel's session only |
| WebSocketSessions.WebSocketSessionHandler.constructor | src/main/java/io/worldy/sockiopath/websocket/session/WebSocketSessionHandler.java:19-21 | The handler over the given store |
| WebSocketSessions.WebSocketSessionHandler.ChannelRead0 | src/main/java/io/worldy/sockiopath/websocket/session/WebSocketSessionHandler.java:23-49 | "join" stores `WebSocketSession(ctx)` and replies; unjoined text writes nothing; joined text is broadcast to every stored context; non-text frames throw with the class name |
| WebSocketSessions.WebSocketSessionHandler.CreateSession | src/main/java/io/worldy/sockiopath/websocket/session/WebSocketSessionHandler.java:51-55 | Binds the long id to a session over ctx, other keys unchanged |
| WebSocketSessions.WebSocketSessionHandler.RemoveSession | src/main/java/io/worldy/sockiopath/websocket/session/WebSocketSessionHandler.java:57-63 | Removes exactly the channel's key |
| WebSocketSessions.WebSocketSessionHandler.ChannelUnregistered | src/main/java/io/worldy/sockiopath/websocket/session/WebSocketSessionHandler.java:65-69 | Passes the event on, then removes the channel's session |
| Server.ShutdownBeforeAnyWait | src/main/java/io/worldy/sockiopath/SockiopathServer.java:68-99 | `shutdown()` comes before every `awaitTermination`; every path opens with the same lines and ends with "done shutting down ExecutorService." |
| Server.ShutdownOutcome | src/main/java/io/worldy/sockiopath/SockiopathServer.java:76-96 | Graceful gives an empty list; hasty or failed give the first `shutdownNow` tasks and their own line; an interruption logs, adds the `shutdownNow` tasks and restores the flag, which happens only then |
| JavaLang.NatToStringValue | src/main/java/io/worldy/sockiopath/SockiopathServer.java:55-66 | The group index in each shutdown line is written in decimal: its digits spell the index, with no leading zero |
| Server.EachGroupShutDownInOrder | src/main/java/io/worldy/sockiopath/SockiopathServer.java:55-66 | Every event loop group is shut down gracefully exactly once, in list order |
| Server.SockiopathServer.constructor | src/main/java/io/worldy/sockiopath/SockiopathServer.java:101-107 | Both shutdown timeouts default to 500 ms |
| Server.SockiopathServer.ShutdownAndAwaitTermination | src/main/java/io/worldy/sockiopath/SockiopathServer.java:68-99 | Performs exactly the plan's steps for the given wait results and returns its cancelled tasks; the interrupt flag is set if and only if a wait was interrupted |
| Server.SockiopathServer.Stop | src/main/java/io/worldy/sockiopath/SockiopathServer.java:50-53 | Cancels the close future without interrupting, before the whole pool shutdown |
| Server.SockiopathServer.ShutdownEventLoops | src/main/java/io/worldy/sockiopath/SockiopathServer.java:55-66 | One numbered line and one `shutdownGracefully` per group, in order, between the opening and closing lines |
| Server.ByteBufferToString | src/main/java/io/worldy/sockiopath/SockiopathServer.java:155-168 | Result length is the capacity, its i-th char is the cast of byte i read from 0, and the cursor ends at the capacity |
| Scenarios.JoinBroadcastUnregister | src/test/java/io/worldy/sockiopath/websocket/WebSocketServerHandlerTest.java:89-128 | Two channels join and speak, then the first leaves. Session counts are 1, 2, 1; each context gets exactly two writes; a `String` frame is rejected as "unsupported frame type: java.lang.String" |

## Left out

- I/O, threads and timing are not modelled. The handler's future, the pool's `acquire()`, `awaitTermination` and `shutdownNow()` are inputs, and `orTimeout` appears only as the `TimedOut` outcome. `synchronized (sessionStore)` and races between a broadcast and a removal are not modelled.
- Custom parser functions and the SLF4J logger are not modelled. The engine always uses `DefaultMessageParser`, and `logger.isDebugEnabled()` is a constant flag.
- The debug lines that only echo the frame (`"{} received {}"`, `"sessions {}"`) are not modelled. The log lines the tests assert are.
- `new String(bytes)` in debug lines is kept as the raw bytes (`LogPayload`), because the platform charset is outside the model.
- `channelReadComplete` (a bare `flush`) is not modelled.
- Plain getters of `SockiopathSession` are direct field reads.
- Each handler keeps its own event log. Events of the shared `WebSocketServerHandler`/`UdpServerHandler` engine go to the engine's log.
- Java map aliasing is not modelled: a store owns its map, and an outside holder of the same map does not see updates.
- `WebSocketSessionImpl`, the type the WebSocket-session store's `createSession` returns, is not part of this model. The model builds the `WebSocketSession` record instead.
- `SockiopathServerHandler` passes a constructor argument list that `SockiopathHandler` does not declare, and it shadows the `sessionStore` field. The model assumes one shared session store.
- Netty bootstrap and wiring are not modelled: `start`, `actualPort`, `getPort`, `basicWebSocketChannelHandler`, the clients, the command line and the Quarkus runner. WebSocket framing (RFC 6455) is done by Netty.
- Interruption is modelled only as the interrupt status being set again.
- Dispatch.SockiopathHandler.LogError, Dispatch.SockiopathHandler.ChannelRead0 and WebSocket.WebSocketServerHandler.ChannelRead0 name the sender of an unparsable unit by the corrected host (canonical host name, else host name). For an unresolved sender the source throws NullPointerException at SockiopathHandler.java:89 instead. The binary-frame virtual address is such a sender. The as-written behaviour is modelled separately; see Findings.
- Udp.UdpHandler.ChannelRead0, Udp.UdpHandler.LogError and Udp.UdpHandler.Process require a resolved sender. The source dereferences `getAddress()` on its error and no-session paths, and datagram senders always carry an address.
- Udp.UdpHandlerEvents requires a resolved sender, for the same reason.

## Findings

| source | as written | input that shows it | evidently intended | confidence | as-written member | corrected member |
|---|---|---|---|---|---|---|
| src/main/java/io/worldy/sockiopath/SockiopathHandler.java:89 | `logError` names the sender by `sender.getAddress().getCanonicalHostName()` | An unparsable binary WebSocket frame is dispatched from the unresolved `VIRTUAL_INET_SOCKET_ADDRESS` (WebSocketServerHandler.java:29, 84). Its `getAddress()` is null, so `logError` throws NullPointerException instead of logging | Fall back to the host name, as `process` does at lines 94-99 | not executed | Dispatch.LogErrorAsWrittenFailsForVirtualSender | Dispatch.SenderHostExtendsLogError |
