/** Netty and logging collaborators as opaque values, and the observable event log.
    Every logger call, every `writeAndFlush`, every handler invocation and every pool
    acquire/release a handler performs is appended, in order, to an `Event` sequence. */
module Netty {
  import opened Wrappers
  import opened JavaLang
  import opened Messaging

  datatype ChannelId = ChannelId(longText: string, shortText: string)
  datatype Channel = Channel(id: ChannelId)
  /** A `ChannelHandlerContext`: an opaque handle and the channel it belongs to. */
  datatype Context = Context(handle: nat, channel: Channel)

  datatype InetAddress = InetAddress(canonicalHostName: string)
  /** An `InetSocketAddress`; `address` is None when the host name did not resolve. */
  datatype SocketAddress = SocketAddress(address: Option<InetAddress>, hostName: string, port: int)

  predicate Resolved(a: SocketAddress) {
    a.address.Some?
  }

  datatype DatagramPacket = DatagramPacket(content: seq<byte>, sender: SocketAddress)

  /** Frames arriving on, or written to, a WebSocket connection. `OtherFrame` is any other
      object reaching the handler, named by its class. */
  datatype WebSocketFrame =
    | TextFrame(text: string)
    | BinaryFrame(content: seq<byte>)
    | OtherFrame(className: string)

  /** What a `writeAndFlush` carries: a datagram to a recipient, or a WebSocket frame. */
  datatype Outbound = DatagramOut(content: seq<byte>, recipient: SocketAddress) | FrameOut(frame: WebSocketFrame)

  /** `context.writeAndFlush(...)` or `context.channel().writeAndFlush(...)`. */
  datatype Target = ToContext(context: Context) | ToChannel(channel: Channel)

  datatype ChannelPool = ChannelPool(id: nat)
  datatype PooledChannel = PooledChannel(id: nat)
  /** How the future returned by `ChannelPool.acquire()` completed. */
  datatype AcquireResult = Acquired(channel: PooledChannel) | AcquireFailed(cause: Throwable)

  datatype Level = Error | Warn | Info | Debug

  datatype Event =
    | Log(level: Level, line: string)
      /** `logger.x(text, throwable)`; `text` is None when it is null. */
    | LogThrown(level: Level, text: Option<string>, cause: Throwable)
      /** `logger.x(prefix + new String(payload))`: the payload decoded by the platform charset. */
    | LogPayload(level: Level, prefix: string, payload: seq<byte>)
    | Write(target: Target, outbound: Outbound)
      /** `bus.consumer().apply(message)` with the bus's timeout. */
    | Invoke(bus: MessageBus, request: SockiopathMessage)
    | FireChannelRegistered(context: Context)
    | FireChannelUnregistered(context: Context)
    | PoolAcquire(pool: ChannelPool)
    | PoolRelease(pool: ChannelPool, channel: PooledChannel)

  predicate IsError(e: Event) {
    (e.Log? || e.LogThrown? || e.LogPayload?) && e.level == Error
  }

  function WritesOf(es: seq<Event>): seq<Event>
  {
    if es == [] then [] else (if es[0].Write? then [es[0]] else []) + WritesOf(es[1..])
  }

  function InvokesOf(es: seq<Event>): seq<Event>
  {
    if es == [] then [] else (if es[0].Invoke? then [es[0]] else []) + InvokesOf(es[1..])
  }

  function ErrorsOf(es: seq<Event>): seq<Event>
  {
    if es == [] then [] else (if IsError(es[0]) then [es[0]] else []) + ErrorsOf(es[1..])
  }

  /** Each selection keeps exactly the events of its kind, in their order. */
  lemma {:induction false} SelectionsSound(es: seq<Event>, e: Event)
    ensures e in WritesOf(es) <==> e in es && e.Write?
    ensures e in InvokesOf(es) <==> e in es && e.Invoke?
    ensures e in ErrorsOf(es) <==> e in es && IsError(e)
  {
    if es != [] {
      SelectionsSound(es[1..], e);
      assert es == [es[0]] + es[1..];
    }
  }

  /** Each selection of an appended log is the appended selections. */
  lemma {:induction false} SelectionsAppend(a: seq<Event>, b: seq<Event>)
    ensures WritesOf(a + b) == WritesOf(a) + WritesOf(b)
    ensures InvokesOf(a + b) == InvokesOf(a) + InvokesOf(b)
    ensures ErrorsOf(a + b) == ErrorsOf(a) + ErrorsOf(b)
  {
    if a != [] {
      assert (a + b)[1..] == a[1..] + b;
      SelectionsAppend(a[1..], b);
    } else {
      assert a + b == b;
    }
  }

  /** A single event is selected exactly by its own kind. */
  lemma SelectionsOne(e: Event)
    ensures WritesOf([e]) == if e.Write? then [e] else []
    ensures InvokesOf([e]) == if e.Invoke? then [e] else []
    ensures ErrorsOf([e]) == if IsError(e) then [e] else []
  {
    assert [e][1..] == [];
  }
}
