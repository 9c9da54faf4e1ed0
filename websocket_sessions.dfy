/** The `websocket.session` package: `WebSocketSession`, a record of the joining channel's
    context; its map-backed store; and `WebSocketSessionHandler`, which speaks the text
    protocol over those sessions. */
module WebSocketSessions {
  import opened Wrappers
  import opened JavaLang
  import opened JavaUtil
  import opened Netty
  import opened TextProtocol

  datatype WebSocketSession = WebSocketSession(context: Context)

  function ContextsOf(store: map<string, WebSocketSession>): (contexts: map<string, Context>)
    ensures contexts.Keys == store.Keys
    ensures forall k :: k in store ==> contexts[k] == store[k].context
  {
    map k | k in store :: store[k].context
  }

  class MapBackedSessionStore {
    var store: map<string, WebSocketSession>
    /** False for the `Map.of()` that stands in for a null map: it refuses put and remove. */
    const mutable: bool

    constructor(initial: Option<JavaMap<WebSocketSession>>)
      ensures initial.None? ==> store == map[] && !mutable
      ensures initial.Some? ==> store == initial.value.entries && mutable == initial.value.mutable
    {
      match initial
      case None =>
        store := map[];
        mutable := false;
      case Some(m) =>
        store := m.entries;
        mutable := m.mutable;
    }

    function Get(key: string): (r: Option<WebSocketSession>)
      reads this
      ensures r.Some? <==> key in store
      ensures r.Some? ==> r.value == store[key]
    {
      if key in store then Some(store[key]) else None
    }

    function Size(): (n: nat)
      reads this
      ensures n == |store.Keys|
    {
      |store|
    }

    function KeySet(): (keys: set<string>)
      reads this
      ensures forall k :: k in keys <==> Get(k).Some?
    {
      store.Keys
    }

    method Put(key: string, session: WebSocketSession) returns (r: Result<Option<WebSocketSession>, Throwable>)
      modifies this`store
      ensures !mutable ==> r == Err(UnsupportedOperationException(None)) && store == old(store)
      ensures mutable ==> r == Ok(old(Get(key))) && store == old(store)[key := session]
      ensures mutable ==> Size() == if key in old(store) then old(Size()) else old(Size()) + 1
    {
      if !mutable {
        return Err(UnsupportedOperationException(None));
      }
      r := Ok(Get(key));
      PutSize(store, key, session);
      store := store[key := session];
    }

    method Remove(key: string) returns (r: Result<Option<WebSocketSession>, Throwable>)
      modifies this`store
      ensures !mutable ==> r == Err(UnsupportedOperationException(None)) && store == old(store)
      ensures mutable ==> r == Ok(old(Get(key))) && store == old(store) - {key}
      ensures mutable ==> Size() == if key in old(store) then old(Size()) - 1 else old(Size())
    {
      if !mutable {
        return Err(UnsupportedOperationException(None));
      }
      r := Ok(Get(key));
      RemoveSize(store, key);
      store := store - {key};
    }

    /** `createSession(ctx)`: a session for ctx, which is not stored. */
    function CreateSession(ctx: Context): (s: WebSocketSession)
      ensures s.context == ctx
    {
      WebSocketSession(ctx)
    }
  }

  class WebSocketSessionHandler {
    const sessionStore: MapBackedSessionStore
    var events: seq<Event>

    constructor(sessionStore: MapBackedSessionStore)
      ensures this.sessionStore == sessionStore && events == []
    {
      this.sessionStore := sessionStore;
      events := [];
    }

    /** `channelRead0(ctx, frame)`: the text protocol; every other frame is rejected. */
    method ChannelRead0(ctx: Context, frame: WebSocketFrame) returns (r: Outcome<Throwable>, order: seq<string>)
      modifies this`events, sessionStore`store
      ensures var id := SessionId(ctx);
              frame.TextFrame? && frame.text == TEXT_COMMAND_JOIN ==>
                && sessionStore.store == (if sessionStore.mutable then old(sessionStore.store)[id := WebSocketSession(ctx)]
                                          else old(sessionStore.store))
                && r == (if sessionStore.mutable then Pass else Fail(UnsupportedOperationException(None)))
                && events == old(events) + [Log(Debug, CreateSessionLine(id))]
                             + (if sessionStore.mutable then [JoinReply(ctx)] else [])
      ensures var id := SessionId(ctx);
              frame.TextFrame? && frame.text != TEXT_COMMAND_JOIN && id !in old(sessionStore.store) ==>
                && r == Pass && sessionStore.store == old(sessionStore.store)
                && events == old(events) + [Log(Debug, UnjoinedLine(frame.text))]
      ensures var id := SessionId(ctx);
              frame.TextFrame? && frame.text != TEXT_COMMAND_JOIN && id in old(sessionStore.store) ==>
                && r == Pass && sessionStore.store == old(sessionStore.store)
                && IsEnumeration(order, sessionStore.store.Keys)
                && events == old(events)
                     + BroadcastWrites(order, ContextsOf(sessionStore.store), id, ctx.channel.id.shortText, frame.text)
      ensures frame.BinaryFrame? ==>
                && r == Fail(UnsupportedFrame("io.netty.handler.codec.http.websocketx.BinaryWebSocketFrame"))
                && sessionStore.store == old(sessionStore.store) && events == old(events)
      ensures frame.OtherFrame? ==>
                && r == Fail(UnsupportedFrame(frame.className))
                && sessionStore.store == old(sessionStore.store) && events == old(events)
    {
      order := [];
      match frame
      case TextFrame(text) =>
        var sessionId := SessionId(ctx);
        var sessionShortId := ctx.channel.id.shortText;
        if text == TEXT_COMMAND_JOIN {
          r := CreateSession(ctx);
          if r.Pass? {
            events := events + [JoinReply(ctx)];
          }
        } else if sessionStore.Get(sessionId).None? {
          events := events + [Log(Debug, UnjoinedLine(text))];
          r := Pass;
        } else {
          var writes;
          order, writes := Broadcast(ContextsOf(sessionStore.store), sessionId, sessionShortId, text);
          events := events + writes;
          r := Pass;
        }
      case BinaryFrame(_) =>
        r := Fail(UnsupportedFrame("io.netty.handler.codec.http.websocketx.BinaryWebSocketFrame"));
      case OtherFrame(className) =>
        r := Fail(UnsupportedFrame(className));
    }

    /** `createSession`: logs the id, then puts `new WebSocketSession(ctx)` under it. */
    method CreateSession(ctx: Context) returns (r: Outcome<Throwable>)
      modifies this`events, sessionStore`store
      ensures sessionStore.store == if sessionStore.mutable then old(sessionStore.store)[SessionId(ctx) := WebSocketSession(ctx)]
                                    else old(sessionStore.store)
      ensures r == if sessionStore.mutable then Pass else Fail(UnsupportedOperationException(None))
      ensures events == old(events) + [Log(Debug, CreateSessionLine(SessionId(ctx)))]
    {
      var sessionId := SessionId(ctx);
      events := events + [Log(Debug, CreateSessionLine(sessionId))];
      var put := sessionStore.Put(sessionId, WebSocketSession(ctx));
      r := if put.Ok? then Pass else Fail(put.error);
    }

    method RemoveSession(ctx: Context) returns (r: Outcome<Throwable>)
      modifies this`events, sessionStore`store
      ensures sessionStore.mutable ==> r == Pass && sessionStore.store == old(sessionStore.store) - {SessionId(ctx)}
      ensures !sessionStore.mutable ==>
                r == Fail(UnsupportedOperationException(None)) && sessionStore.store == old(sessionStore.store)
      ensures events == old(events) + [Log(Debug, RemoveSessionLine(SessionId(ctx)))]
    {
      var sessionId := SessionId(ctx);
      events := events + [Log(Debug, RemoveSessionLine(sessionId))];
      var removed := sessionStore.Remove(sessionId);
      r := if removed.Ok? then Pass else Fail(removed.error);
    }

    method ChannelUnregistered(ctx: Context) returns (r: Outcome<Throwable>)
      modifies this`events, sessionStore`store
      ensures sessionStore.mutable ==> r == Pass && sessionStore.store == old(sessionStore.store) - {SessionId(ctx)}
      ensures !sessionStore.mutable ==>
                r == Fail(UnsupportedOperationException(None)) && sessionStore.store == old(sessionStore.store)
      ensures events == old(events) + [FireChannelUnregistered(ctx), Log(Debug, RemoveSessionLine(SessionId(ctx)))]
    {
      events := events + [FireChannelUnregistered(ctx)];
      r := RemoveSession(ctx);
    }
  }
}
