/** The WebSocket handlers over `SockiopathSession`s: `WebSocketServerHandler`, which speaks
    the text protocol and hands binary frames to the dispatch engine, and the older
    `WebSocketHandler`, which speaks only the text protocol. */
module WebSocket {
  import opened Wrappers
  import opened JavaLang
  import opened Messaging
  import opened Netty
  import opened Sessions
  import opened Dispatch
  import opened TextProtocol

  /** The store's state after a "join" from ctx: a new session for ctx under the channel's
      id if the map accepts it, the map as it was otherwise. */
  twostate predicate Joined(store: MapBackedSessionStore, ctx: Context)
    reads store, store.store.Values
  {
    var id := SessionId(ctx);
    if store.mutable then
      && id in store.store && fresh(store.store[id])
      && store.store == old(store.store)[id := store.store[id]]
      && store.store[id].webSocketContext == ctx
      && store.store[id].udpSocketAddress.None? && store.store[id].udpContext.None?
    else store.store == old(store.store)
  }

  class WebSocketServerHandler {
    /** The engine this handler extends, with `isUdp()` false. */
    const handler: SockiopathHandler

    constructor(sessionStore: MapBackedSessionStore, messageHandlers: map<string, MessageBus>,
                deliminator: char, debugEnabled: bool)
      ensures fresh(handler) && !handler.isUdp
      ensures handler.sessionStore == sessionStore && handler.messageHandlers == messageHandlers
      ensures handler.parser.deliminator == deliminator && handler.debugEnabled == debugEnabled
      ensures handler.channelHandlerContext.None? && handler.events == []
    {
      handler := new SockiopathHandler(false, sessionStore, messageHandlers, deliminator, debugEnabled);
    }

    /** `channelRead0(ctx, frame)`. Text frames follow the text protocol (`order` is the
        order the broadcast visited the sessions in); a binary frame is one unit for the
        engine, sent from the virtual address; any other frame is rejected. */
    method ChannelRead0(ctx: Context, frame: WebSocketFrame, outcome: HandlerOutcome)
      returns (r: Outcome<Throwable>, order: seq<string>)
      requires !handler.isUdp
      modifies handler`events, handler.sessionStore`store
      ensures var id := SessionId(ctx);
              frame.TextFrame? && frame.text == TEXT_COMMAND_JOIN ==>
                && Joined(handler.sessionStore, ctx)
                && r == (if handler.sessionStore.mutable then Pass else Fail(UnsupportedOperationException(None)))
                && handler.events == old(handler.events) + [Log(Debug, CreateSessionLine(id))]
                                     + (if handler.sessionStore.mutable then [JoinReply(ctx)] else [])
      ensures var id := SessionId(ctx);
              frame.TextFrame? && frame.text != TEXT_COMMAND_JOIN && id !in old(handler.sessionStore.store) ==>
                && r == Pass && handler.sessionStore.store == old(handler.sessionStore.store)
                && handler.events == old(handler.events) + [Log(Debug, UnjoinedLine(frame.text))]
      ensures var id := SessionId(ctx);
              frame.TextFrame? && frame.text != TEXT_COMMAND_JOIN && id in old(handler.sessionStore.store) ==>
                && r == Pass && handler.sessionStore.store == old(handler.sessionStore.store)
                && IsEnumeration(order, handler.sessionStore.store.Keys)
                && handler.events == old(handler.events)
                     + BroadcastWrites(order, ContextsOf(handler.sessionStore.store), id, ctx.channel.id.shortText, frame.text)
      ensures frame.BinaryFrame? ==>
                && r == Pass && handler.sessionStore.store == old(handler.sessionStore.store)
                && handler.events == old(handler.events)
                     + UnitEvents(false, handler.debugEnabled, handler.messageHandlers, old(handler.sessionStore.store.Keys),
                                  handler.parser.deliminator, frame.content, ctx, VIRTUAL_INET_SOCKET_ADDRESS, outcome)
      ensures frame.OtherFrame? ==>
                && r == Fail(UnsupportedFrame(frame.className))
                && handler.sessionStore.store == old(handler.sessionStore.store)
                && handler.events == old(handler.events)
    {
      order := [];
      var store := handler.sessionStore;
      match frame
      case TextFrame(text) =>
        var sessionId := SessionId(ctx);
        var sessionShortId := ctx.channel.id.shortText;
        if text == TEXT_COMMAND_JOIN {
          r := CreateSession(ctx);
          if r.Pass? {
            handler.events := handler.events + [JoinReply(ctx)];
          }
        } else if store.Get(sessionId).None? {
          handler.events := handler.events + [Log(Debug, UnjoinedLine(text))];
          r := Pass;
        } else {
          var writes;
          order, writes := Broadcast(ContextsOf(store.store), sessionId, sessionShortId, text);
          handler.events := handler.events + writes;
          r := Pass;
        }
      case BinaryFrame(content) =>
        handler.ChannelRead0(ctx, VIRTUAL_INET_SOCKET_ADDRESS, content, outcome);
        r := Pass;
      case OtherFrame(className) =>
        r := Fail(UnsupportedFrame(className));
    }

    /** `createSession`: logs the id, then puts a new session for ctx under it. */
    method CreateSession(ctx: Context) returns (r: Outcome<Throwable>)
      modifies handler`events, handler.sessionStore`store
      ensures Joined(handler.sessionStore, ctx)
      ensures r == if handler.sessionStore.mutable then Pass else Fail(UnsupportedOperationException(None))
      ensures handler.events == old(handler.events) + [Log(Debug, CreateSessionLine(SessionId(ctx)))]
    {
      var sessionId := SessionId(ctx);
      handler.events := handler.events + [Log(Debug, CreateSessionLine(sessionId))];
      var session := handler.sessionStore.CreateSession(ctx);
      var put := handler.sessionStore.Put(sessionId, session);
      r := if put.Ok? then Pass else Fail(put.error);
    }

    /** `removeSession`: logs the id, then removes that key only. */
    method RemoveSession(ctx: Context) returns (r: Outcome<Throwable>)
      modifies handler`events, handler.sessionStore`store
      ensures handler.sessionStore.mutable ==>
                r == Pass && handler.sessionStore.store == old(handler.sessionStore.store) - {SessionId(ctx)}
      ensures !handler.sessionStore.mutable ==>
                r == Fail(UnsupportedOperationException(None)) && handler.sessionStore.store == old(handler.sessionStore.store)
      ensures handler.events == old(handler.events) + [Log(Debug, RemoveSessionLine(SessionId(ctx)))]
    {
      var sessionId := SessionId(ctx);
      handler.events := handler.events + [Log(Debug, RemoveSessionLine(sessionId))];
      var removed := handler.sessionStore.Remove(sessionId);
      r := if removed.Ok? then Pass else Fail(removed.error);
    }

    /** `channelUnregistered`: passes the event on, then removes the channel's session. */
    method ChannelUnregistered(ctx: Context) returns (r: Outcome<Throwable>)
      modifies handler`events, handler.sessionStore`store
      ensures handler.sessionStore.mutable ==>
                r == Pass && handler.sessionStore.store == old(handler.sessionStore.store) - {SessionId(ctx)}
      ensures !handler.sessionStore.mutable ==>
                r == Fail(UnsupportedOperationException(None)) && handler.sessionStore.store == old(handler.sessionStore.store)
      ensures handler.events == old(handler.events)
                + [FireChannelUnregistered(ctx), Log(Debug, RemoveSessionLine(SessionId(ctx)))]
    {
      handler.events := handler.events + [FireChannelUnregistered(ctx)];
      r := RemoveSession(ctx);
    }
  }

  class WebSocketHandler {
    const sessionStore: MapBackedSessionStore
    var events: seq<Event>

    constructor(sessionStore: MapBackedSessionStore)
      ensures this.sessionStore == sessionStore && events == []
    {
      this.sessionStore := sessionStore;
      events := [];
    }

    /** The constructor over a map: the map (null as None) wrapped in a new store. */
    constructor FromMap(sessionMap: Option<JavaUtil.JavaMap<SockiopathSession>>)
      ensures fresh(sessionStore) && events == []
      ensures sessionMap.None? ==> sessionStore.store == map[] && !sessionStore.mutable
      ensures sessionMap.Some? ==> sessionStore.store == sessionMap.value.entries
                                   && sessionStore.mutable == sessionMap.value.mutable
    {
      sessionStore := new MapBackedSessionStore(sessionMap);
      events := [];
    }

    /** `channelRead0(ctx, frame)`: the text protocol; every other frame, binary ones
        included, is rejected. */
    method ChannelRead0(ctx: Context, frame: WebSocketFrame) returns (r: Outcome<Throwable>, order: seq<string>)
      modifies this`events, sessionStore`store
      ensures var id := SessionId(ctx);
              frame.TextFrame? && frame.text == TEXT_COMMAND_JOIN ==>
                && Joined(sessionStore, ctx)
                && r == (if sessionStore.mutable then Pass else Fail(UnsupportedOperationException(None)))
                && events == old(events) + [Log(Debug, CreateSessionLine(id))]
                             + (if sessionStore.mutable then [JoinReply(ctx)] else [])
      ensures var id := SessionId(ctx);
              frame.TextFrame? && frame.text != TEXT_COMMAND_JOIN && id !in old(sessionStore.store) ==>
                && r == Pass && sessionStore.store == old(sessionStore.store)
                && events == old(events) + [Log(Debug, UnjoinedLine(frame.text))]
      ensures var id := SessionId(ctx);
              frame.TextFrame? && frame.text != TEXT_COMMAND_JOIN && id in old(sessionStore.store) ==>
                && r == Pass && sessionStore.store == old(sessionStore.store)
                && IsEnumeration(order, sessionStore.store.Keys)
                && events == old(events)
                     + BroadcastWrites(order, ContextsOf(sessionStore.store), id, ctx.channel.id.shortText, frame.text)
      ensures frame.BinaryFrame? ==>
                && r == Fail(UnsupportedFrame("io.netty.handler.codec.http.websocketx.BinaryWebSocketFrame"))
                && sessionStore.store == old(sessionStore.store) && events == old(events)
      ensures frame.OtherFrame? ==>
                && r == Fail(UnsupportedFrame(frame.className))
                && sessionStore.store == old(sessionStore.store) && events == old(events)
    {
      order := [];
      match frame
      case TextFrame(text) =>
        var sessionId := SessionId(ctx);
        var sessionShortId := ctx.channel.id.shortText;
        if text == TEXT_COMMAND_JOIN {
          r := CreateSession(ctx);
          if r.Pass? {
            events := events + [JoinReply(ctx)];
          }
        } else if sessionStore.Get(sessionId).None? {
          events := events + [Log(Debug, UnjoinedLine(text))];
          r := Pass;
        } else {
          var writes;
          order, writes := Broadcast(ContextsOf(sessionStore.store), sessionId, sessionShortId, text);
          events := events + writes;
          r := Pass;
        }
      case BinaryFrame(_) =>
        r := Fail(UnsupportedFrame("io.netty.handler.codec.http.websocketx.BinaryWebSocketFrame"));
      case OtherFrame(className) =>
        r := Fail(UnsupportedFrame(className));
    }

    method CreateSession(ctx: Context) returns (r: Outcome<Throwable>)
      modifies this`events, sessionStore`store
      ensures Joined(sessionStore, ctx)
      ensures r == if sessionStore.mutable then Pass else Fail(UnsupportedOperationException(None))
      ensures events == old(events) + [Log(Debug, CreateSessionLine(SessionId(ctx)))]
    {
      var sessionId := SessionId(ctx);
      events := events + [Log(Debug, CreateSessionLine(sessionId))];
      var session := sessionStore.CreateSession(ctx);
      var put := sessionStore.Put(sessionId, session);
      r := if put.Ok? then Pass else Fail(put.error);
    }

    method RemoveSession(ctx: Context) returns (r: Outcome<Throwable>)
      modifies this`events, sessionStore`store
      ensures sessionStore.mutable ==> r == Pass && sessionStore.store == old(sessionStore.store) - {SessionId(ctx)}
      ensures !sessionStore.mutable ==>
                r == Fail(UnsupportedOperationException(None)) && sessionStore.store == old(sessionStore.store)
      ensures events == old(events) + [Log(Debug, RemoveSessionLine(SessionId(ctx)))]
    {
      var sessionId := SessionId(ctx);
      events := events + [Log(Debug, RemoveSessionLine(sessionId))];
      var removed := sessionStore.Remove(sessionId);
      r := if removed.Ok? then Pass else Fail(removed.error);
    }

    method ChannelUnregistered(ctx: Context) returns (r: Outcome<Throwable>)
      modifies this`events, sessionStore`store
      ensures sessionStore.mutable ==> r == Pass && sessionStore.store == old(sessionStore.store) - {SessionId(ctx)}
      ensures !sessionStore.mutable ==>
                r == Fail(UnsupportedOperationException(None)) && sessionStore.store == old(sessionStore.store)
      ensures events == old(events) + [FireChannelUnregistered(ctx), Log(Debug, RemoveSessionLine(SessionId(ctx)))]
    {
      events := events + [FireChannelUnregistered(ctx)];
      r := RemoveSession(ctx);
    }
  }
}
