/** The session package: `SockiopathSession`, a record whose UDP side is rebound by every
    datagram routed to it, and `MapBackedSessionStore`, a store over a `java.util.Map`
    keyed by session id (the WebSocket channel's long id). */
module Sessions {
  import opened Wrappers
  import opened JavaLang
  import opened JavaUtil
  import opened Netty

  class SockiopathSession {
    /** The context of the WebSocket channel that joined; final. */
    const webSocketContext: Context
    /** The last UDP sender and UDP context routed to this session; None until the first. */
    var udpSocketAddress: Option<SocketAddress>
    var udpContext: Option<Context>

    constructor(webSocketContext: Context)
      ensures this.webSocketContext == webSocketContext
      ensures udpSocketAddress.None? && udpContext.None?
    {
      this.webSocketContext := webSocketContext;
      udpSocketAddress := None;
      udpContext := None;
    }

    /** Rebinds the UDP address (last writer wins) and returns the same session. */
    method WithUdpSocketAddress(udpSocketAddress: SocketAddress) returns (r: SockiopathSession)
      modifies this`udpSocketAddress
      ensures r == this
      ensures this.udpSocketAddress == Some(udpSocketAddress)
    {
      this.udpSocketAddress := Some(udpSocketAddress);
      r := this;
    }

    /** Rebinds the UDP context (last writer wins) and returns the same session. */
    method WithUdpContext(udpContext: Context) returns (r: SockiopathSession)
      modifies this`udpContext
      ensures r == this
      ensures this.udpContext == Some(udpContext)
    {
      this.udpContext := Some(udpContext);
      r := this;
    }
  }

  /** The store's view of a backing map: the session under each key, and the WebSocket
      context each of them joined with. */
  function ContextsOf(store: map<string, SockiopathSession>): (contexts: map<string, Context>)
    ensures contexts.Keys == store.Keys
    ensures forall k :: k in store ==> contexts[k] == store[k].webSocketContext
  {
    map k | k in store :: store[k].webSocketContext
  }

  class MapBackedSessionStore {
    var store: map<string, SockiopathSession>
    /** False for the `Map.of()` that stands in for a null map: it refuses put and remove. */
    const mutable: bool

    /** A null map (None) becomes an empty immutable map; any other map is used as given. */
    constructor(initial: Option<JavaMap<SockiopathSession>>)
      ensures initial.None? ==> store == map[] && !mutable
      ensures initial.Some? ==> store == initial.value.entries && mutable == initial.value.mutable
    {
      match initial
      case None =>
        store := map[];
        mutable := false;
      case Some(m) =>
        store := m.entries;
        mutable := m.mutable;
    }

    /** `get().apply(key)`: the session stored under key, None for the Java null. */
    function Get(key: string): (r: Option<SockiopathSession>)
      reads this
      ensures r.Some? <==> key in store
      ensures r.Some? ==> r.value == store[key]
    {
      if key in store then Some(store[key]) else None
    }

    function Size(): (n: nat)
      reads this
      ensures n == |store.Keys|
    {
      |store|
    }

    function KeySet(): (keys: set<string>)
      reads this
      ensures forall k :: k in keys <==> Get(k).Some?
    {
      store.Keys
    }

    /** `put().apply(key, session)`: the previous session under key, or the
        UnsupportedOperationException of an immutable map, which then stays as it was. */
    method Put(key: string, session: SockiopathSession) returns (r: Result<Option<SockiopathSession>, Throwable>)
      modifies this`store
      ensures !mutable ==> r == Err(UnsupportedOperationException(None)) && store == old(store)
      ensures mutable ==> r == Ok(old(Get(key))) && store == old(store)[key := session]
      ensures mutable ==> Size() == if key in old(store) then old(Size()) else old(Size()) + 1
    {
      if !mutable {
        return Err(UnsupportedOperationException(None));
      }
      r := Ok(Get(key));
      PutSize(store, key, session);
      store := store[key := session];
    }

    /** `remove().apply(key)`: the session that was under key, or the
        UnsupportedOperationException of an immutable map, which then stays as it was. */
    method Remove(key: string) returns (r: Result<Option<SockiopathSession>, Throwable>)
      modifies this`store
      ensures !mutable ==> r == Err(UnsupportedOperationException(None)) && store == old(store)
      ensures mutable ==> r == Ok(old(Get(key))) && store == old(store) - {key}
      ensures mutable ==> Size() == if key in old(store) then old(Size()) - 1 else old(Size())
    {
      if !mutable {
        return Err(UnsupportedOperationException(None));
      }
      r := Ok(Get(key));
      RemoveSize(store, key);
      store := store - {key};
    }

    /** The default `createSession(ctx)` of `SessionStore`: a new session for ctx, which
        is not stored. */
    method CreateSession(ctx: Context) returns (s: SockiopathSession)
      ensures fresh(s)
      ensures s.webSocketContext == ctx && s.udpSocketAddress.None? && s.udpContext.None?
    {
      s := new SockiopathSession(ctx);
    }
  }
}
