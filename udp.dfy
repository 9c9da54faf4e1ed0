/** The UDP side: `UdpServerHandler`, the dispatch engine with an optional channel-pool
    gate, and the standalone `UdpHandler`, an older copy of the engine specialised to
    datagrams. */
module Udp {
  import opened Wrappers
  import opened JavaLang
  import opened Messaging
  import opened Netty
  import opened Sessions
  import opened Dispatch
  import Nio
  import UdpServer

  /** The events of a pooled datagram: the acquire, then either the dispatch followed by the
      release of the acquired channel, or the acquire error. Without a pool, the dispatch. */
  function PooledEvents(channelPool: Option<ChannelPool>, acquire: AcquireResult, dispatch: seq<Event>): seq<Event> {
    match channelPool
    case None => dispatch
    case Some(pool) =>
      [PoolAcquire(pool)]
      + match acquire
        case Acquired(ch) => dispatch + [PoolRelease(pool, ch)]
        case AcquireFailed(cause) => [Log(Error, "Error acquiring channel from pool. " + MessageText(cause))]
  }

  /** With a pool, a successful acquire dispatches exactly once between the acquire and the
      release of that same channel; a failed one only logs the error: no handler call and
      no write. */
  lemma PooledDispatch(pool: ChannelPool, acquire: AcquireResult, dispatch: seq<Event>)
    ensures var es := PooledEvents(Some(pool), acquire, dispatch);
            acquire.Acquired? ==>
              && es[0] == PoolAcquire(pool) && es[|es| - 1] == PoolRelease(pool, acquire.channel)
              && es[1..|es| - 1] == dispatch
              && WritesOf(es) == WritesOf(dispatch) && InvokesOf(es) == InvokesOf(dispatch)
              && ErrorsOf(es) == ErrorsOf(dispatch)
    ensures var es := PooledEvents(Some(pool), acquire, dispatch);
            acquire.AcquireFailed? ==>
              && WritesOf(es) == [] && InvokesOf(es) == []
              && ErrorsOf(es) == [Log(Error, "Error acquiring channel from pool. " + MessageText(acquire.cause))]
  {
    var es := PooledEvents(Some(pool), acquire, dispatch);
    SelectionsOne(PoolAcquire(pool));
    match acquire
    case Acquired(ch) =>
      assert es == [PoolAcquire(pool)] + dispatch + [PoolRelease(pool, ch)];
      SelectionsAppend([PoolAcquire(pool)] + dispatch, [PoolRelease(pool, ch)]);
      SelectionsAppend([PoolAcquire(pool)], dispatch);
      SelectionsOne(PoolRelease(pool, ch));
    case AcquireFailed(cause) =>
      var line := Log(Error, "Error acquiring channel from pool. " + MessageText(cause));
      assert es == [PoolAcquire(pool)] + [line];
      SelectionsAppend([PoolAcquire(pool)], [line]);
      SelectionsOne(line);
  }

  class UdpServerHandler {
    /** The engine this handler extends, with `isUdp()` true. */
    const handler: SockiopathHandler
    var channelPool: Option<ChannelPool>

    constructor(sessionStore: MapBackedSessionStore, messageHandlers: map<string, MessageBus>,
                deliminator: char, debugEnabled: bool)
      ensures fresh(handler) && handler.isUdp
      ensures handler.sessionStore == sessionStore && handler.messageHandlers == messageHandlers
      ensures handler.parser.deliminator == deliminator && handler.debugEnabled == debugEnabled
      ensures handler.channelHandlerContext.None? && handler.events == []
      ensures channelPool.None?
    {
      handler := new SockiopathHandler(true, sessionStore, messageHandlers, deliminator, debugEnabled);
      channelPool := None;
    }

    function IsUdp(): (udp: bool)
      reads this
      ensures udp == handler.isUdp
    {
      handler.isUdp
    }

    /** Installs the pool (the base server handler would throw instead). */
    method SetChannelPool(channelPool: ChannelPool)
      modifies this`channelPool
      ensures this.channelPool == Some(channelPool)
    {
      this.channelPool := Some(channelPool);
    }

    /** `channelRead0(ctx, packet)`: the packet's content from its sender goes through the
        engine, behind the pool when one is installed. `acquire` is how the pool's
        `acquire()` completed. */
    method ChannelRead0(ctx: Context, packet: DatagramPacket, acquire: AcquireResult, outcome: HandlerOutcome)
      requires handler.isUdp
      modifies handler`events, handler.ParsedSession(packet.content)
      ensures handler.events == old(handler.events) + PooledEvents(channelPool, acquire,
                UnitEvents(true, handler.debugEnabled, handler.messageHandlers, old(handler.sessionStore.store.Keys),
                           handler.parser.deliminator, packet.content, ctx, packet.sender, outcome))
      ensures handler.sessionStore.store == old(handler.sessionStore.store)
      ensures channelPool.None? || acquire.Acquired? ==>
                var parsed := Parse(handler.parser.deliminator, packet.content);
                parsed.Some? ==> handler.Correlated(parsed.value, ctx, packet.sender)
      ensures channelPool.Some? && acquire.AcquireFailed? ==> unchanged(handler.ParsedSession(packet.content))
    {
      if channelPool.None? {
        handler.ChannelRead0(ctx, packet.sender, packet.content, outcome);
        return;
      }
      var pool := channelPool.value;
      handler.events := handler.events + [PoolAcquire(pool)];
      match acquire
      case Acquired(ch) =>
        handler.ChannelRead0(ctx, packet.sender, packet.content, outcome);
        handler.events := handler.events + [PoolRelease(pool, ch)];
      case AcquireFailed(cause) =>
        handler.events := handler.events + [Log(Error, "Error acquiring channel from pool. " + MessageText(cause))];
    }
  }

  /** The events of the standalone `UdpHandler` for one packet. */
  function UdpHandlerEvents(debugEnabled: bool, handlers: map<string, MessageBus>, sessionIds: set<string>,
                            delim: char, packet: DatagramPacket, context: Context, outcome: HandlerOutcome): seq<Event>
    requires Resolved(packet.sender)
  {
    match Parse(delim, packet.content)
    case None =>
      [Log(Error, "Unable to parse UDP message. sender: [" + packet.sender.address.value.canonicalHostName
                  + "]. content: " + (if debugEnabled then Render(packet.content) else ENABLE_DEBUGGING_MESSAGE))]
    case Some(m) =>
      if m.sessionId !in sessionIds then
        [Log(Debug, NoSessionLine(packet.sender.address.value.canonicalHostName))]
      else if m.address !in handlers then [Log(Debug, NoHandlerLine(m.address))]
      else
        (if debugEnabled then [LogPayload(Debug, HandleMessagePrefix(m.address), m.data)] else [])
        + [Invoke(handlers[m.address], m)]
        + match outcome
          case Responded(response) => [Write(ToContext(context), DatagramOut(response, packet.sender))]
          case TimedOut => [LogThrown(Error, None, TimeoutException())]
          case Failed(cause) => [LogThrown(Error, cause.message, cause)]
  }

  /** The standalone handler behaves as the server engine on UDP for every packet that
      parses; on one that does not, both log one error and nothing else. */
  lemma UdpHandlerAgreesWithEngine(debugEnabled: bool, handlers: map<string, MessageBus>, sessionIds: set<string>,
                                   delim: char, packet: DatagramPacket, context: Context, outcome: HandlerOutcome)
    requires Resolved(packet.sender)
    ensures Parse(delim, packet.content).Some? ==>
              UdpHandlerEvents(debugEnabled, handlers, sessionIds, delim, packet, context, outcome)
              == UnitEvents(true, debugEnabled, handlers, sessionIds, delim, packet.content, context, packet.sender, outcome)
    ensures Parse(delim, packet.content).None? ==>
              var es := UdpHandlerEvents(debugEnabled, handlers, sessionIds, delim, packet, context, outcome);
              |es| == 1 && IsError(es[0])
  {
    match Parse(delim, packet.content)
    case None =>
    case Some(m) =>
      if m.sessionId in sessionIds && m.address in handlers {
        assert Completion(true, context, packet.sender, outcome)
            == match outcome
               case Responded(response) => [Write(ToContext(context), DatagramOut(response, packet.sender))]
               case TimedOut => [LogThrown(Error, None, TimeoutException())]
               case Failed(cause) => [LogThrown(Error, cause.message, cause)];
      }
  }

  class UdpHandler {
    const sessionStore: MapBackedSessionStore
    const messageHandlers: map<string, MessageBus>
    const parser: DefaultMessageParser
    const debugEnabled: bool
    var channelHandlerContext: Option<Context>
    var events: seq<Event>

    constructor(sessionStore: MapBackedSessionStore, messageHandlers: map<string, MessageBus>,
                deliminator: char, debugEnabled: bool)
      ensures this.sessionStore == sessionStore && this.messageHandlers == messageHandlers
      ensures parser.deliminator == deliminator && this.debugEnabled == debugEnabled
      ensures channelHandlerContext.None? && events == []
    {
      this.sessionStore := sessionStore;
      this.messageHandlers := messageHandlers;
      this.debugEnabled := debugEnabled;
      parser := new DefaultMessageParser(deliminator);
      channelHandlerContext := None;
      events := [];
    }

    ghost function SessionFor(payload: seq<byte>): set<object>
      reads sessionStore
    {
      match Parse(parser.deliminator, payload)
      case Some(m) => if m.sessionId in sessionStore.store then {sessionStore.store[m.sessionId]} else {}
      case None => {}
    }

    /** `channelRegistered`: passes the event on and always remembers the context. */
    method ChannelRegistered(ctx: Context)
      modifies this`events, this`channelHandlerContext
      ensures events == old(events) + [FireChannelRegistered(ctx)]
      ensures channelHandlerContext == Some(ctx)
    {
      events := events + [FireChannelRegistered(ctx)];
      channelHandlerContext := Some(ctx);
    }

    function GetChannelHandlerContext(): (r: Option<Context>)
      reads this
      ensures r == channelHandlerContext
    {
      channelHandlerContext
    }

    /** `channelRead0(context, packet)`. Datagram senders are resolved addresses: the
        handler dereferences `getAddress()` on its error paths. */
    method ChannelRead0(context: Context, packet: DatagramPacket, outcome: HandlerOutcome)
      requires Resolved(packet.sender)
      modifies this`events, SessionFor(packet.content)
      ensures events == old(events) + UdpHandlerEvents(debugEnabled, messageHandlers, old(sessionStore.store.Keys),
                                                       parser.deliminator, packet, context, outcome)
      ensures sessionStore.store == old(sessionStore.store)
      ensures var parsed := Parse(parser.deliminator, packet.content);
              parsed.Some? && parsed.value.sessionId in sessionStore.store ==>
                && sessionStore.store[parsed.value.sessionId].udpSocketAddress == Some(packet.sender)
                && sessionStore.store[parsed.value.sessionId].udpContext == Some(context)
    {
      var copy := new Nio.ByteBuffer.Wrap(packet.content);
      var parsed := parser.Apply(copy);
      if parsed.Some? {
        Process(parsed.value, context, packet, outcome);
      } else {
        var content := new Nio.ByteBuffer.Wrap(packet.content);
        LogError(packet, content);
      }
    }

    method LogError(packet: DatagramPacket, content: Nio.ByteBuffer)
      requires Resolved(packet.sender)
      modifies this`events, content`position
      ensures events == old(events) + [Log(Error, "Unable to parse UDP message. sender: ["
                + packet.sender.address.value.canonicalHostName + "]. content: "
                + (if debugEnabled then Render(old(content.data[..])) else ENABLE_DEBUGGING_MESSAGE))]
    {
      var message: string;
      if debugEnabled {
        message := UdpServer.ByteBufferToString(content);
        assert message == Render(content.data[..]);
      } else {
        message := ENABLE_DEBUGGING_MESSAGE;
      }
      events := events + [Log(Error, "Unable to parse UDP message. sender: ["
                                     + packet.sender.address.value.canonicalHostName + "]. content: " + message)];
    }

    /** `process`: drop a message with no session, rebind the session to the packet's
        sender and context, then call the handler for the address and answer by datagram. */
    method Process(m: SockiopathMessage, context: Context, packet: DatagramPacket, outcome: HandlerOutcome)
      requires Resolved(packet.sender) && Parse(parser.deliminator, packet.content) == Some(m)
      modifies this`events, SessionFor(packet.content)
      ensures events == old(events) + UdpHandlerEvents(debugEnabled, messageHandlers, old(sessionStore.store.Keys),
                                                       parser.deliminator, packet, context, outcome)
      ensures sessionStore.store == old(sessionStore.store)
      ensures m.sessionId in sessionStore.store ==>
                && sessionStore.store[m.sessionId].udpSocketAddress == Some(packet.sender)
                && sessionStore.store[m.sessionId].udpContext == Some(context)
    {
      var sender := packet.sender;
      var session := sessionStore.Get(m.sessionId);
      if session.None? {
        events := events + [Log(Debug, NoSessionLine(sender.address.value.canonicalHostName))];
        return;
      }
      var _ := session.value.WithUdpSocketAddress(packet.sender);
      var _ := session.value.WithUdpContext(context);
      if m.address !in messageHandlers {
        events := events + [Log(Debug, NoHandlerLine(m.address))];
        return;
      }
      var handler := messageHandlers[m.address];
      if debugEnabled {
        events := events + [LogPayload(Debug, HandleMessagePrefix(m.address), m.data)];
      }
      events := events + [Invoke(handler, m)];
      if outcome.Responded? {
        events := events + [Write(ToContext(context), DatagramOut(outcome.response, sender))];
      } else {
        var error := if outcome.TimedOut? then TimeoutException() else outcome.cause;
        events := events + [LogThrown(Error, error.message, error)];
      }
    }

    /** `exceptionCaught`: one error line with the cause; the channel is not closed. */
    method ExceptionCaught(ctx: Context, cause: Throwable)
      modifies this`events
      ensures events == old(events) + [LogThrown(Error, Some("Error handling Udp connection: " + MessageText(cause)), cause)]
    {
      events := events + [LogThrown(Error, Some("Error handling Udp connection: " + MessageText(cause)), cause)];
    }
  }
}
