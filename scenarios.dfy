/** The join, broadcast and unregister walk-through of the WebSocket server handler's tests,
    stated over the model: two channels join one after the other, each broadcast reaches
    every joined session once, an unregistered channel's session stops receiving, and an
    object that is not a frame is rejected by its class name. */
module Scenarios {
  import opened Wrappers
  import opened JavaLang
  import opened JavaUtil
  import opened Messaging
  import opened Netty
  import opened Sessions
  import opened TextProtocol
  import opened WebSocket

  /** The tests' mocked contexts, whose channel ids read "long<n>" and "short<n>". */
  const CTX1: Context := Context(1, Channel(ChannelId("long1", "short1")))
  const CTX2: Context := Context(2, Channel(ChannelId("long2", "short2")))

  /** "join" from ctx on a mutable store: the session is added and no context is written
      (the reply goes to the channel). */
  method JoinStep(server: WebSocketServerHandler, ctx: Context)
    requires !server.handler.isUdp && server.handler.sessionStore.mutable
    modifies server.handler`events, server.handler.sessionStore`store
    ensures ContextsOf(server.handler.sessionStore.store)
            == old(ContextsOf(server.handler.sessionStore.store))[SessionId(ctx) := ctx]
    ensures forall c :: WritesTo(server.handler.events, c) == old(WritesTo(server.handler.events, c))
  {
    ghost var before := server.handler.events;
    var r, order := server.ChannelRead0(ctx, TextFrame(TEXT_COMMAND_JOIN), TimedOut);
    ghost var added := [Log(Debug, CreateSessionLine(SessionId(ctx))), JoinReply(ctx)];
    assert server.handler.events == before + added;
    forall c ensures WritesTo(server.handler.events, c) == WritesTo(before, c) {
      WritesToAppend(before, added, c);
      assert added[..1][..0] == [] && added[..1] == [added[0]];
    }
  }

  /** Text from a joined channel: one write to each session's context, none elsewhere. */
  method BroadcastStep(server: WebSocketServerHandler, ctx: Context, text: string)
    requires !server.handler.isUdp && text != TEXT_COMMAND_JOIN
    requires SessionId(ctx) in server.handler.sessionStore.store
    requires DistinctContexts(ContextsOf(server.handler.sessionStore.store))
    modifies server.handler`events, server.handler.sessionStore`store
    ensures server.handler.sessionStore.store == old(server.handler.sessionStore.store)
    ensures var contexts := ContextsOf(server.handler.sessionStore.store);
            forall k :: k in contexts ==>
              WritesTo(server.handler.events, contexts[k]) == old(WritesTo(server.handler.events, contexts[k])) + 1
    ensures forall c :: c !in ContextsOf(server.handler.sessionStore.store).Values ==>
              WritesTo(server.handler.events, c) == old(WritesTo(server.handler.events, c))
  {
    ghost var before := server.handler.events;
    var r, order := server.ChannelRead0(ctx, TextFrame(text), TimedOut);
    ghost var contexts := ContextsOf(server.handler.sessionStore.store);
    ghost var writes := BroadcastWrites(order, contexts, SessionId(ctx), ctx.channel.id.shortText, text);
    forall k | k in contexts ensures WritesTo(server.handler.events, contexts[k]) == WritesTo(before, contexts[k]) + 1 {
      BroadcastWritesEachSessionOnce(order, contexts, SessionId(ctx), ctx.channel.id.shortText, text, contexts[k]);
      WritesToAppend(before, writes, contexts[k]);
    }
    forall c | c !in contexts.Values ensures WritesTo(server.handler.events, c) == WritesTo(before, c) {
      BroadcastWritesEachSessionOnce(order, contexts, SessionId(ctx), ctx.channel.id.shortText, text, c);
      WritesToAppend(before, writes, c);
    }
  }

  /** Text from a channel without a session: only logged. */
  method UnjoinedStep(server: WebSocketServerHandler, ctx: Context, text: string)
    requires !server.handler.isUdp && text != TEXT_COMMAND_JOIN
    requires SessionId(ctx) !in server.handler.sessionStore.store
    modifies server.handler`events, server.handler.sessionStore`store
    ensures server.handler.sessionStore.store == old(server.handler.sessionStore.store)
    ensures forall c :: WritesTo(server.handler.events, c) == old(WritesTo(server.handler.events, c))
  {
    ghost var before := server.handler.events;
    var r, order := server.ChannelRead0(ctx, TextFrame(text), TimedOut);
    ghost var added := [Log(Debug, UnjoinedLine(text))];
    forall c ensures WritesTo(server.handler.events, c) == WritesTo(before, c) {
      WritesToAppend(before, added, c);
    }
  }

  /** ctx unregisters from a mutable store: its session goes, nothing is written. */
  method UnregisterStep(server: WebSocketServerHandler, ctx: Context)
    requires server.handler.sessionStore.mutable
    modifies server.handler`events, server.handler.sessionStore`store
    ensures ContextsOf(server.handler.sessionStore.store)
            == old(ContextsOf(server.handler.sessionStore.store)) - {SessionId(ctx)}
    ensures forall c :: WritesTo(server.handler.events, c) == old(WritesTo(server.handler.events, c))
  {
    ghost var before := server.handler.events;
    var r := server.ChannelUnregistered(ctx);
    ghost var added := [FireChannelUnregistered(ctx), Log(Debug, RemoveSessionLine(SessionId(ctx)))];
    assert server.handler.events == before + added;
    forall c ensures WritesTo(server.handler.events, c) == WritesTo(before, c) {
      WritesToAppend(before, added, c);
      assert added[..1][..0] == [] && added[..1] == [added[0]];
      assert WritesTo(added[..1], c) == 0;
      assert WritesTo(added, c) == 0;
    }
  }

  /** A new channel joins and then speaks: its session is added, and the broadcast writes
      once to its own context and once to every context that was already joined. */
  method JoinAndSpeak(server: WebSocketServerHandler, ctx: Context, text: string) returns (count: nat)
    requires !server.handler.isUdp && server.handler.sessionStore.mutable && text != TEXT_COMMAND_JOIN
    requires SessionId(ctx) !in server.handler.sessionStore.store
    requires ctx !in ContextsOf(server.handler.sessionStore.store).Values
    requires DistinctContexts(ContextsOf(server.handler.sessionStore.store))
    modifies server.handler`events, server.handler.sessionStore`store
    ensures ContextsOf(server.handler.sessionStore.store)
            == old(ContextsOf(server.handler.sessionStore.store))[SessionId(ctx) := ctx]
    ensures count == old(|server.handler.sessionStore.store|) + 1
    ensures WritesTo(server.handler.events, ctx) == old(WritesTo(server.handler.events, ctx)) + 1
    ensures var contexts := old(ContextsOf(server.handler.sessionStore.store));
            forall k :: k in contexts ==>
              WritesTo(server.handler.events, contexts[k]) == old(WritesTo(server.handler.events, contexts[k])) + 1
    ensures forall c :: c != ctx && c !in old(ContextsOf(server.handler.sessionStore.store)).Values ==>
              WritesTo(server.handler.events, c) == old(WritesTo(server.handler.events, c))
  {
    ghost var contexts := ContextsOf(server.handler.sessionStore.store);
    JoinStep(server, ctx);
    ghost var joined := ContextsOf(server.handler.sessionStore.store);
    assert joined == contexts[SessionId(ctx) := ctx];
    assert joined.Keys == server.handler.sessionStore.store.Keys == old(server.handler.sessionStore.store).Keys + {SessionId(ctx)};
    count := server.handler.GetSessionCount();
    assert DistinctContexts(joined);
    BroadcastStep(server, ctx, text);
    assert joined[SessionId(ctx)] == ctx;
    forall k | k in contexts
      ensures WritesTo(server.handler.events, contexts[k]) == old(WritesTo(server.handler.events, contexts[k])) + 1
    {
      assert k in joined && joined[k] == contexts[k];
    }
    forall c | c != ctx && c !in contexts.Values
      ensures WritesTo(server.handler.events, c) == old(WritesTo(server.handler.events, c))
    {
      assert c !in joined.Values;
    }
  }

  /** The first channel joins an empty store and speaks: it alone receives its text. */
  method FirstJoins(server: WebSocketServerHandler, ctx1: Context, ctx2: Context) returns (count: nat)
    requires !server.handler.isUdp && server.handler.sessionStore.mutable
    requires SessionId(ctx1) != SessionId(ctx2) && ctx1 != ctx2
    requires ContextsOf(server.handler.sessionStore.store) == map[]
    modifies server.handler`events, server.handler.sessionStore`store
    ensures count == 1
    ensures ContextsOf(server.handler.sessionStore.store) == map[SessionId(ctx1) := ctx1]
    ensures WritesTo(server.handler.events, ctx1) == old(WritesTo(server.handler.events, ctx1)) + 1
    ensures WritesTo(server.handler.events, ctx2) == old(WritesTo(server.handler.events, ctx2))
  {
    assert server.handler.sessionStore.store.Keys == {};
    count := JoinAndSpeak(server, ctx1, "test1-1");
  }

  /** The second channel joins and speaks: both sessions receive its text. */
  method SecondJoins(server: WebSocketServerHandler, ctx1: Context, ctx2: Context) returns (count: nat)
    requires !server.handler.isUdp && server.handler.sessionStore.mutable
    requires SessionId(ctx1) != SessionId(ctx2) && ctx1 != ctx2
    requires ContextsOf(server.handler.sessionStore.store) == map[SessionId(ctx1) := ctx1]
    modifies server.handler`events, server.handler.sessionStore`store
    ensures count == 2
    ensures ContextsOf(server.handler.sessionStore.store) == map[SessionId(ctx1) := ctx1, SessionId(ctx2) := ctx2]
    ensures WritesTo(server.handler.events, ctx1) == old(WritesTo(server.handler.events, ctx1)) + 1
    ensures WritesTo(server.handler.events, ctx2) == old(WritesTo(server.handler.events, ctx2)) + 1
  {
    ghost var joined := ContextsOf(server.handler.sessionStore.store);
    assert server.handler.sessionStore.store.Keys == {SessionId(ctx1)};
    assert joined.Values == {ctx1};
    count := JoinAndSpeak(server, ctx2, "test2-1");
    assert SessionId(ctx1) in joined && joined[SessionId(ctx1)] == ctx1;
  }

  /** Of two joined channels the first leaves: one session is left, the second channel's
      text reaches only its own context, and the first channel's text reaches no one. */
  method LeaveThenSpeak(server: WebSocketServerHandler, ctx1: Context, ctx2: Context) returns (count: nat)
    requires !server.handler.isUdp && server.handler.sessionStore.mutable
    requires SessionId(ctx1) != SessionId(ctx2) && ctx1 != ctx2
    requires ContextsOf(server.handler.sessionStore.store) == map[SessionId(ctx1) := ctx1, SessionId(ctx2) := ctx2]
    modifies server.handler`events, server.handler.sessionStore`store
    ensures count == 1
    ensures WritesTo(server.handler.events, ctx1) == old(WritesTo(server.handler.events, ctx1))
    ensures WritesTo(server.handler.events, ctx2) == old(WritesTo(server.handler.events, ctx2)) + 1
  {
    var store := server.handler.sessionStore;
    var id1, id2 := SessionId(ctx1), SessionId(ctx2);
    UnregisterStep(server, ctx1);
    assert ContextsOf(store.store) == map[id2 := ctx2];
    assert store.store.Keys == {id2};
    count := server.handler.GetSessionCount();

    assert id2 in store.store;
    assert DistinctContexts(ContextsOf(store.store));
    BroadcastStep(server, ctx2, "test2-2");
    assert ContextsOf(store.store)[id2] == ctx2;
    assert ContextsOf(store.store).Values == {ctx2};

    assert id1 !in store.store;
    UnjoinedStep(server, ctx1, "test1-2");
  }

  /** The walk-through: session counts 1, 2 and, after the first channel unregisters, 1;
      each context receives two writes; a `String` is rejected as an unsupported frame. */
  method JoinBroadcastUnregister()
    returns (afterFirstJoin: nat, afterSecondJoin: nat, afterUnregister: nat,
             writesToFirst: nat, writesToSecond: nat, rejected: Outcome<Throwable>)
    ensures afterFirstJoin == 1 && afterSecondJoin == 2 && afterUnregister == 1
    ensures writesToFirst == 2 && writesToSecond == 2
    ensures rejected == Fail(UnsupportedOperationException(Some("unsupported frame type: java.lang.String")))
  {
    var ctx1, ctx2 := CTX1, CTX2;
    assert SessionId(ctx1)[4] != SessionId(ctx2)[4];
    var store := new MapBackedSessionStore(Some(JavaMap(map[], true)));
    var server := new WebSocketServerHandler(store, map[], '|', false);
    assert ContextsOf(store.store) == map[];
    assert WritesTo(server.handler.events, ctx1) == 0 && WritesTo(server.handler.events, ctx2) == 0;

    afterFirstJoin := FirstJoins(server, ctx1, ctx2);
    afterSecondJoin := SecondJoins(server, ctx1, ctx2);
    afterUnregister := LeaveThenSpeak(server, ctx1, ctx2);
    writesToFirst := WritesTo(server.handler.events, ctx1);
    writesToSecond := WritesTo(server.handler.events, ctx2);

    var order;
    rejected, order := server.ChannelRead0(ctx2, OtherFrame("java.lang.String"), TimedOut);
    assert "unsupported frame type: " + "java.lang.String" == "unsupported frame type: java.lang.String";
  }
}
