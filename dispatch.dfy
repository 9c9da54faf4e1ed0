/** The dispatch engine of `SockiopathHandler` and `SockiopathServerHandler`: every inbound
    unit (a datagram's content, or a binary WebSocket frame's) is parsed, gated on its
    session, correlated with its UDP sender, routed to the handler registered for its
    address, and answered on the transport it came from. The handler's future is an input:
    how it completed after `orTimeout(timeoutMillis)`. */
module Dispatch {
  import opened Wrappers
  import opened JavaLang
  import opened Messaging
  import opened Netty
  import opened Sessions
  import Nio
  import UdpServer

  const ENABLE_DEBUGGING_MESSAGE: string := "Enable debugging to see content"
  const CHANNEL_HANDLER_CONTEXT_UNSUPPORTED: string :=
    "Getting the ChannelHandlerContext is only supported for UdpHandlers."

  /** The host a log line names for a sender: the canonical host name of its address, or
      its host name when the address did not resolve (as `process` computes it). */
  function SenderHost(sender: SocketAddress): (host: string)
    ensures Resolved(sender) ==> host == sender.address.value.canonicalHostName
    ensures !Resolved(sender) ==> host == sender.hostName
  {
    match sender.address
    case Some(a) => a.canonicalHostName
    case None => sender.hostName
  }

  /** The host `logError` computes as written, `sender.getAddress().getCanonicalHostName()`:
      None stands for the NullPointerException an unresolved sender raises. */
  function LogErrorHostAsWritten(sender: SocketAddress): (host: Option<string>)
    ensures host.None? <==> !Resolved(sender)
  {
    match sender.address
    case Some(a) => Some(a.canonicalHostName)
    case None => None
  }

  /** The unresolved address WebSocket binary frames are dispatched with. */
  const VIRTUAL_INET_SOCKET_ADDRESS: SocketAddress := SocketAddress(None, "VIRTUAL_INET_SOCKET_ADDRESS", 42)

  /** As written, an unparsable binary frame (sent from the virtual address) makes
      `logError` throw instead of logging. */
  lemma LogErrorAsWrittenFailsForVirtualSender()
    ensures LogErrorHostAsWritten(VIRTUAL_INET_SOCKET_ADDRESS).None?
  {
  }

  /** The corrected host is defined for every sender and agrees with the line as written
      wherever that one does not throw. */
  lemma SenderHostExtendsLogError(sender: SocketAddress)
    ensures LogErrorHostAsWritten(sender).Some? ==> LogErrorHostAsWritten(sender).value == SenderHost(sender)
    ensures SenderHost(VIRTUAL_INET_SOCKET_ADDRESS) == "VIRTUAL_INET_SOCKET_ADDRESS"
  {
  }

  function ParseErrorLine(host: string, debugEnabled: bool, content: seq<byte>): string {
    "Unable to parse message. sender: [" + host + "]. content: "
      + (if debugEnabled then Render(content) else ENABLE_DEBUGGING_MESSAGE)
  }

  function NoSessionLine(host: string): string {
    "No session for request. sender: [" + host + "]."
  }

  function HandleMessagePrefix(address: string): string {
    "Handling message. address: [" + address + "]. content: "
  }

  function NoHandlerLine(address: string): string {
    "No message handler for: " + address
  }

  /** The one write that answers a unit: a datagram to the sender through the UDP context,
      or a binary frame on the WebSocket context's channel. */
  function ResponseWrite(isUdp: bool, context: Context, sender: SocketAddress, response: seq<byte>): Event {
    if isUdp then Write(ToContext(context), DatagramOut(response, sender))
    else Write(ToChannel(context.channel), FrameOut(BinaryFrame(response)))
  }

  /** What `whenComplete` does: write the response, or log the error with its cause.
      A timeout is the message-less TimeoutException of `orTimeout`. */
  function Completion(isUdp: bool, context: Context, sender: SocketAddress, outcome: HandlerOutcome): seq<Event> {
    match outcome
    case Responded(response) => [ResponseWrite(isUdp, context, sender, response)]
    case TimedOut => [LogThrown(Error, None, TimeoutException())]
    case Failed(cause) => [LogThrown(Error, cause.message, cause)]
  }

  /** The events of `process` for a parsed message, given whether its session exists. */
  function ProcessEvents(isUdp: bool, debugEnabled: bool, handlers: map<string, MessageBus>, found: bool,
                         m: SockiopathMessage, context: Context, sender: SocketAddress,
                         outcome: HandlerOutcome): seq<Event>
  {
    if !found then [Log(Debug, NoSessionLine(SenderHost(sender)))]
    else if m.address !in handlers then [Log(Debug, NoHandlerLine(m.address))]
    else
      (if debugEnabled then [LogPayload(Debug, HandleMessagePrefix(m.address), m.data)] else [])
      + [Invoke(handlers[m.address], m)]
      + Completion(isUdp, context, sender, outcome)
  }

  /** The events of `channelRead0(context, sender, payload)` against the session ids held. */
  function UnitEvents(isUdp: bool, debugEnabled: bool, handlers: map<string, MessageBus>, sessionIds: set<string>,
                      delim: char, payload: seq<byte>, context: Context, sender: SocketAddress,
                      outcome: HandlerOutcome): seq<Event>
  {
    match Parse(delim, payload)
    case None => [Log(Error, ParseErrorLine(SenderHost(sender), debugEnabled, payload))]
    case Some(m) => ProcessEvents(isUdp, debugEnabled, handlers, m.sessionId in sessionIds, m, context, sender, outcome)
  }

  /** A unit reaches a handler: it parses, its session exists and its address is registered. */
  predicate Dispatched(handlers: map<string, MessageBus>, sessionIds: set<string>, delim: char, payload: seq<byte>) {
    Parse(delim, payload).Some?
    && Parse(delim, payload).value.sessionId in sessionIds
    && Parse(delim, payload).value.address in handlers
  }

  /** Every inbound unit calls its handler at most once, exactly when it is dispatched, and
      with the parsed message. */
  lemma HandlerInvokedOnlyWhenDispatched(isUdp: bool, debugEnabled: bool, handlers: map<string, MessageBus>,
                                         sessionIds: set<string>, delim: char, payload: seq<byte>,
                                         context: Context, sender: SocketAddress, outcome: HandlerOutcome)
    ensures var es := UnitEvents(isUdp, debugEnabled, handlers, sessionIds, delim, payload, context, sender, outcome);
            |InvokesOf(es)| == if Dispatched(handlers, sessionIds, delim, payload) then 1 else 0
    ensures var es := UnitEvents(isUdp, debugEnabled, handlers, sessionIds, delim, payload, context, sender, outcome);
            Dispatched(handlers, sessionIds, delim, payload) ==>
              var m := Parse(delim, payload).value;
              InvokesOf(es) == [Invoke(handlers[m.address], m)]
  {
    UnitSelections(isUdp, debugEnabled, handlers, sessionIds, delim, payload, context, sender, outcome);
  }

  /** Exactly one response is written when, and only when, a dispatched handler responds
      in time; it is written on the unit's own transport and carries the response bytes. */
  lemma ResponseWrittenOnce(isUdp: bool, debugEnabled: bool, handlers: map<string, MessageBus>,
                            sessionIds: set<string>, delim: char, payload: seq<byte>,
                            context: Context, sender: SocketAddress, outcome: HandlerOutcome)
    ensures var es := UnitEvents(isUdp, debugEnabled, handlers, sessionIds, delim, payload, context, sender, outcome);
            |WritesOf(es)| == if Dispatched(handlers, sessionIds, delim, payload) && outcome.Responded? then 1 else 0
    ensures var es := UnitEvents(isUdp, debugEnabled, handlers, sessionIds, delim, payload, context, sender, outcome);
            Dispatched(handlers, sessionIds, delim, payload) && outcome.Responded? ==>
              WritesOf(es) == [ResponseWrite(isUdp, context, sender, outcome.response)]
  {
    UnitSelections(isUdp, debugEnabled, handlers, sessionIds, delim, payload, context, sender, outcome);
  }

  /** Exactly one error is logged when the unit does not parse, or when a dispatched
      handler times out or fails; in every other case none is. */
  lemma ErrorLoggedOnce(isUdp: bool, debugEnabled: bool, handlers: map<string, MessageBus>,
                        sessionIds: set<string>, delim: char, payload: seq<byte>,
                        context: Context, sender: SocketAddress, outcome: HandlerOutcome)
    ensures var es := UnitEvents(isUdp, debugEnabled, handlers, sessionIds, delim, payload, context, sender, outcome);
            |ErrorsOf(es)| == if Parse(delim, payload).None?
                                 || (Dispatched(handlers, sessionIds, delim, payload) && !outcome.Responded?)
                              then 1 else 0
  {
    UnitSelections(isUdp, debugEnabled, handlers, sessionIds, delim, payload, context, sender, outcome);
  }

  /** The writes, invocations and errors of a unit, case by case. */
  lemma UnitSelections(isUdp: bool, debugEnabled: bool, handlers: map<string, MessageBus>,
                       sessionIds: set<string>, delim: char, payload: seq<byte>,
                       context: Context, sender: SocketAddress, outcome: HandlerOutcome)
    ensures var es := UnitEvents(isUdp, debugEnabled, handlers, sessionIds, delim, payload, context, sender, outcome);
            !Dispatched(handlers, sessionIds, delim, payload) ==>
              WritesOf(es) == [] && InvokesOf(es) == []
              && |ErrorsOf(es)| == if Parse(delim, payload).None? then 1 else 0
    ensures var es := UnitEvents(isUdp, debugEnabled, handlers, sessionIds, delim, payload, context, sender, outcome);
            Dispatched(handlers, sessionIds, delim, payload) ==>
              var m := Parse(delim, payload).value;
              && InvokesOf(es) == [Invoke(handlers[m.address], m)]
              && WritesOf(es) == (if outcome.Responded? then [ResponseWrite(isUdp, context, sender, outcome.response)] else [])
              && |ErrorsOf(es)| == if outcome.Responded? then 0 else 1
  {
    match Parse(delim, payload)
    case None =>
      SelectionsOne(Log(Error, ParseErrorLine(SenderHost(sender), debugEnabled, payload)));
    case Some(m) =>
      ProcessSelections(isUdp, debugEnabled, handlers, m.sessionId in sessionIds, m, context, sender, outcome);
  }

  /** The writes, invocations and errors of `process` for a parsed message. */
  lemma ProcessSelections(isUdp: bool, debugEnabled: bool, handlers: map<string, MessageBus>, found: bool,
                          m: SockiopathMessage, context: Context, sender: SocketAddress, outcome: HandlerOutcome)
    ensures var es := ProcessEvents(isUdp, debugEnabled, handlers, found, m, context, sender, outcome);
            !(found && m.address in handlers) ==> WritesOf(es) == [] && InvokesOf(es) == [] && ErrorsOf(es) == []
    ensures var es := ProcessEvents(isUdp, debugEnabled, handlers, found, m, context, sender, outcome);
            found && m.address in handlers ==>
              && InvokesOf(es) == [Invoke(handlers[m.address], m)]
              && WritesOf(es) == (if outcome.Responded? then [ResponseWrite(isUdp, context, sender, outcome.response)] else [])
              && |ErrorsOf(es)| == if outcome.Responded? then 0 else 1
  {
    if !found {
      SelectionsOne(Log(Debug, NoSessionLine(SenderHost(sender))));
    } else if m.address !in handlers {
      SelectionsOne(Log(Debug, NoHandlerLine(m.address)));
    } else {
      HandledSelections(isUdp, debugEnabled, handlers[m.address], m, context, sender, outcome);
    }
  }

  /** The events of a handled message: an optional debug line, the call, its completion. */
  lemma HandledSelections(isUdp: bool, debugEnabled: bool, bus: MessageBus, m: SockiopathMessage,
                          context: Context, sender: SocketAddress, outcome: HandlerOutcome)
    ensures var es := (if debugEnabled then [LogPayload(Debug, HandleMessagePrefix(m.address), m.data)] else [])
                      + [Invoke(bus, m)] + Completion(isUdp, context, sender, outcome);
            && InvokesOf(es) == [Invoke(bus, m)]
            && WritesOf(es) == (if outcome.Responded? then [ResponseWrite(isUdp, context, sender, outcome.response)] else [])
            && |ErrorsOf(es)| == if outcome.Responded? then 0 else 1
  {
    var head := if debugEnabled then [LogPayload(Debug, HandleMessagePrefix(m.address), m.data)] else [];
    var call := [Invoke(bus, m)];
    var done := Completion(isUdp, context, sender, outcome);
    SelectionsAppend(head + call, done);
    SelectionsAppend(head, call);
    SelectionsOne(call[0]);
    CompletionSelections(isUdp, context, sender, outcome);
    if debugEnabled {
      SelectionsOne(head[0]);
    } else {
      assert WritesOf(head) == [] && InvokesOf(head) == [] && ErrorsOf(head) == [];
    }
  }

  /** A completion is one write on success and one error otherwise. */
  lemma CompletionSelections(isUdp: bool, context: Context, sender: SocketAddress, outcome: HandlerOutcome)
    ensures var done := Completion(isUdp, context, sender, outcome);
            && InvokesOf(done) == []
            && WritesOf(done) == (if outcome.Responded? then [ResponseWrite(isUdp, context, sender, outcome.response)] else [])
            && |ErrorsOf(done)| == if outcome.Responded? then 0 else 1
  {
    SelectionsOne(Completion(isUdp, context, sender, outcome)[0]);
  }

  /** The dispatch engine: a `SockiopathServerHandler` over the shared session store, with
      the default parser for its delimiter. `isUdp` is the subclass's `isUdp()`. */
  class SockiopathHandler {
    const isUdp: bool
    const sessionStore: MapBackedSessionStore
    const messageHandlers: map<string, MessageBus>
    const parser: DefaultMessageParser
    /** Whether the logger has debug enabled (`logger.isDebugEnabled()`). */
    const debugEnabled: bool
    var channelHandlerContext: Option<Context>
    /** Every log call, write and handler invocation made so far, in order. */
    var events: seq<Event>

    constructor(isUdp: bool, sessionStore: MapBackedSessionStore, messageHandlers: map<string, MessageBus>,
                deliminator: char, debugEnabled: bool)
      ensures this.isUdp == isUdp && this.sessionStore == sessionStore
      ensures this.messageHandlers == messageHandlers && this.debugEnabled == debugEnabled
      ensures parser.deliminator == deliminator
      ensures channelHandlerContext.None? && events == []
    {
      this.isUdp := isUdp;
      this.sessionStore := sessionStore;
      this.messageHandlers := messageHandlers;
      this.debugEnabled := debugEnabled;
      parser := new DefaultMessageParser(deliminator);
      channelHandlerContext := None;
      events := [];
    }

    /** The session object a message for id may rebind, if the store holds one. */
    ghost function SessionAt(id: string): set<object>
      reads sessionStore
    {
      if id in sessionStore.store then {sessionStore.store[id]} else {}
    }

    /** The session object a UDP payload may rebind. */
    ghost function ParsedSession(payload: seq<byte>): set<object>
      reads sessionStore
    {
      match Parse(parser.deliminator, payload)
      case Some(m) => if isUdp then SessionAt(m.sessionId) else {}
      case None => {}
    }

    /** The session gate shared by `process` and its server override: a UDP unit rebinds
        its session to the sender and context; nothing else changes in the session. */
    twostate predicate Correlated(m: SockiopathMessage, context: Context, sender: SocketAddress)
      reads this, sessionStore, SessionAt(m.sessionId)
    {
      && sessionStore.store == old(sessionStore.store)
      && (isUdp && m.sessionId in sessionStore.store ==>
            && sessionStore.store[m.sessionId].udpSocketAddress == Some(sender)
            && sessionStore.store[m.sessionId].udpContext == Some(context))
    }

    /** `channelRead0(context, sender, payload)`: the parser reads a copy of the payload; a
        message goes to the server `process`, anything else to `logError`. */
    method ChannelRead0(context: Context, sender: SocketAddress, payload: seq<byte>, outcome: HandlerOutcome)
      modifies this`events, ParsedSession(payload)
      ensures events == old(events) + UnitEvents(isUdp, debugEnabled, messageHandlers, old(sessionStore.store.Keys),
                                                 parser.deliminator, payload, context, sender, outcome)
      ensures sessionStore.store == old(sessionStore.store)
      ensures Parse(parser.deliminator, payload).Some? ==>
                Correlated(Parse(parser.deliminator, payload).value, context, sender)
    {
      var copy := new Nio.ByteBuffer.Wrap(payload);
      var parsed := parser.Apply(copy);
      if parsed.Some? {
        ServerProcess(parsed.value, context, sender, outcome);
      } else {
        var again := new Nio.ByteBuffer.Wrap(payload);
        LogError(sender, again);
      }
    }

    /** `logError`, with the sender named as `process` names it (see SenderHost). */
    method LogError(sender: SocketAddress, content: Nio.ByteBuffer)
      modifies this`events, content`position
      ensures events == old(events) + [Log(Error, ParseErrorLine(SenderHost(sender), debugEnabled, content.data[..]))]
    {
      var message: string;
      if debugEnabled {
        message := UdpServer.ByteBufferToString(content);
        assert message == Render(content.data[..]);
      } else {
        message := ENABLE_DEBUGGING_MESSAGE;
      }
      events := events + [Log(Error, "Unable to parse message. sender: [" + SenderHost(sender) + "]. content: " + message)];
    }

    /** `SockiopathServerHandler.process`: drop a message with no session, rebind a UDP
        session, then hand over to the generic `process`. */
    method ServerProcess(m: SockiopathMessage, context: Context, sender: SocketAddress, outcome: HandlerOutcome)
      modifies this`events, if isUdp then SessionAt(m.sessionId) else {}
      ensures events == old(events) + ProcessEvents(isUdp, debugEnabled, messageHandlers,
                                                    m.sessionId in old(sessionStore.store), m, context, sender, outcome)
      ensures Correlated(m, context, sender)
    {
      var session := sessionStore.Get(m.sessionId);
      if session.None? {
        events := events + [Log(Debug, NoSessionLine(SenderHost(sender)))];
        return;
      }
      if isUdp {
        var _ := session.value.WithUdpSocketAddress(sender);
        var _ := session.value.WithUdpContext(context);
      }
      Process(m, context, sender, outcome);
    }

    /** The generic `process`: the same session gate, then the handler registered for the
        address is called and its completion answered. */
    method Process(m: SockiopathMessage, context: Context, sender: SocketAddress, outcome: HandlerOutcome)
      modifies this`events, if isUdp then SessionAt(m.sessionId) else {}
      ensures events == old(events) + ProcessEvents(isUdp, debugEnabled, messageHandlers,
                                                    m.sessionId in old(sessionStore.store), m, context, sender, outcome)
      ensures Correlated(m, context, sender)
    {
      var session := sessionStore.Get(m.sessionId);
      if session.None? {
        events := events + [Log(Debug, NoSessionLine(SenderHost(sender)))];
        return;
      }
      if isUdp {
        var _ := session.value.WithUdpSocketAddress(sender);
        var _ := session.value.WithUdpContext(context);
      }
      if m.address !in messageHandlers {
        events := events + [Log(Debug, NoHandlerLine(m.address))];
        return;
      }
      var handler := messageHandlers[m.address];
      if debugEnabled {
        events := events + [LogPayload(Debug, HandleMessagePrefix(m.address), m.data)];
      }
      events := events + [Invoke(handler, m)];
      if outcome.Responded? {
        if isUdp {
          events := events + [Write(ToContext(context), DatagramOut(outcome.response, sender))];
        } else {
          events := events + [Write(ToChannel(context.channel), FrameOut(BinaryFrame(outcome.response)))];
        }
      } else {
        var error := if outcome.TimedOut? then TimeoutException() else outcome.cause;
        events := events + [LogThrown(Error, error.message, error)];
      }
    }

    /** `channelRegistered`: passes the event on and remembers the context on UDP only. */
    method ChannelRegistered(ctx: Context)
      modifies this`events, this`channelHandlerContext
      ensures events == old(events) + [FireChannelRegistered(ctx)]
      ensures channelHandlerContext == if isUdp then Some(ctx) else old(channelHandlerContext)
    {
      events := events + [FireChannelRegistered(ctx)];
      if isUdp {
        channelHandlerContext := Some(ctx);
      }
    }

    /** `getChannelHandlerContext`: the registered context (None before registration) on
        UDP; an UnsupportedOperationException otherwise. */
    function GetChannelHandlerContext(): (r: Result<Option<Context>, Throwable>)
      reads this
      ensures isUdp <==> r.Ok?
      ensures r.Ok? ==> r.value == channelHandlerContext
      ensures r.Err? ==> r.error == UnsupportedOperationException(Some(CHANNEL_HANDLER_CONTEXT_UNSUPPORTED))
    {
      if isUdp then Ok(channelHandlerContext)
      else Err(UnsupportedOperationException(Some(CHANNEL_HANDLER_CONTEXT_UNSUPPORTED)))
    }

    /** `exceptionCaught`: one error line with the cause; the channel stays open. */
    method ExceptionCaught(ctx: Context, cause: Throwable)
      modifies this`events
      ensures events == old(events) + [LogThrown(Error, Some("Error handling connection: " + MessageText(cause)), cause)]
    {
      events := events + [LogThrown(Error, Some("Error handling connection: " + MessageText(cause)), cause)];
    }

    /** The base server handler's `setChannelPool` always throws. */
    method SetChannelPool(channelPool: ChannelPool) returns (r: Outcome<Throwable>)
      ensures r == Fail(UnsupportedOperationException(None))
    {
      r := Fail(UnsupportedOperationException(None));
    }

    function GetSession(id: string): (r: Option<SockiopathSession>)
      reads this, sessionStore
      ensures r.Some? <==> id in sessionStore.store
      ensures r.Some? ==> r.value == sessionStore.store[id]
    {
      sessionStore.Get(id)
    }

    function GetSessionCount(): (n: nat)
      reads this, sessionStore
      ensures n == |sessionStore.store.Keys|
    {
      sessionStore.Size()
    }
  }
}
