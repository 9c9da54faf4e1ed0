/** The text control protocol the three WebSocket handlers share: "join" opens a session
    under the channel's long id and is answered with "session|<id>"; any other text from a
    joined channel is broadcast to every session, prefixed with the sender's short id for
    everyone but the sender; a channel that unregisters loses its session. */
module TextProtocol {
  import opened Wrappers
  import opened JavaLang
  import opened Netty

  const TEXT_COMMAND_JOIN: string := "join"
  const TEXT_RESPONSE_PART_SESSION: string := "session|"

  /** The session key of a channel: its id's long text. */
  function SessionId(ctx: Context): string {
    ctx.channel.id.longText
  }

  /** The reply to "join", written on the joining channel. */
  function JoinReply(ctx: Context): Event {
    Write(ToChannel(ctx.channel), FrameOut(TextFrame(TEXT_RESPONSE_PART_SESSION + SessionId(ctx))))
  }

  function CreateSessionLine(id: string): string {
    "createSession " + id
  }

  function RemoveSessionLine(id: string): string {
    "removeSession " + id
  }

  function UnjoinedLine(text: string): string {
    "message with no session: " + text
  }

  /** What any frame other than the ones a handler understands is rejected with. */
  function UnsupportedFrame(className: string): Throwable {
    UnsupportedOperationException(Some("unsupported frame type: " + className))
  }

  /** The text a session receives from a broadcast: unprefixed for the sender's own key,
      prefixed with the sender's short id for every other key. */
  function BroadcastText(key: string, senderId: string, shortId: string, text: string): string {
    if key == senderId then text else shortId + ": " + text
  }

  function BroadcastWrite(contexts: map<string, Context>, key: string, senderId: string, shortId: string,
                          text: string): Event
    requires key in contexts
  {
    Write(ToContext(contexts[key]), FrameOut(TextFrame(BroadcastText(key, senderId, shortId, text))))
  }

  /** The writes of a broadcast that visits the keys in the given order. */
  function BroadcastWrites(order: seq<string>, contexts: map<string, Context>, senderId: string, shortId: string,
                           text: string): seq<Event>
    requires forall k :: k in order ==> k in contexts
  {
    if order == [] then []
    else BroadcastWrites(order[..|order| - 1], contexts, senderId, shortId, text)
         + [BroadcastWrite(contexts, order[|order| - 1], senderId, shortId, text)]
  }

  /** The order a `keySet().forEach` visits: each key of the set exactly once. */
  predicate IsEnumeration(order: seq<string>, keys: set<string>) {
    && (forall k :: k in order ==> k in keys)
    && (forall k :: k in keys ==> k in order)
    && (forall i, j :: 0 <= i < j < |order| ==> order[i] != order[j])
  }

  /** The i-th write of a broadcast goes to the i-th key visited. */
  lemma {:induction false} BroadcastWritesAt(order: seq<string>, contexts: map<string, Context>, senderId: string,
                                             shortId: string, text: string, i: nat)
    requires forall k :: k in order ==> k in contexts
    requires i < |order|
    ensures |BroadcastWrites(order, contexts, senderId, shortId, text)| == |order|
    ensures BroadcastWrites(order, contexts, senderId, shortId, text)[i]
            == BroadcastWrite(contexts, order[i], senderId, shortId, text)
  {
    var init := order[..|order| - 1];
    if i < |order| - 1 {
      BroadcastWritesAt(init, contexts, senderId, shortId, text, i);
    } else if |order| > 1 {
      BroadcastWritesAt(init, contexts, senderId, shortId, text, 0);
    } else {
      assert init == [];
    }
  }

  /** A visit order without repetitions is as long as the set it enumerates. */
  lemma {:induction false} EnumerationSize(order: seq<string>, keys: set<string>)
    requires IsEnumeration(order, keys)
    ensures |order| == |keys|
  {
    if order != [] {
      var last := order[|order| - 1];
      var init := order[..|order| - 1];
      assert IsEnumeration(init, keys - {last}) by {
        forall k | k in init ensures k in keys - {last} {
          var i :| 0 <= i < |init| && init[i] == k;
          assert order[i] == k && i < |order| - 1;
        }
        forall k | k in keys - {last} ensures k in init {
          var i :| 0 <= i < |order| && order[i] == k;
          assert i < |order| - 1 && init[i] == k;
        }
      }
      EnumerationSize(init, keys - {last});
    } else {
      assert forall k :: k !in keys;
      assert keys == {};
    }
  }

  /** A broadcast writes once per session: every session receives its own text, the sender
      the text itself and every other session the prefixed text, and nothing else is
      written. */
  lemma BroadcastReachesEverySession(order: seq<string>, contexts: map<string, Context>, senderId: string,
                                     shortId: string, text: string)
    requires IsEnumeration(order, contexts.Keys)
    ensures var writes := BroadcastWrites(order, contexts, senderId, shortId, text);
            && |writes| == |contexts|
            && (forall k :: k in contexts ==> BroadcastWrite(contexts, k, senderId, shortId, text) in writes)
            && (forall w :: w in writes ==> exists k :: k in contexts && w == BroadcastWrite(contexts, k, senderId, shortId, text))
    ensures var writes := BroadcastWrites(order, contexts, senderId, shortId, text);
            senderId in contexts ==> Write(ToContext(contexts[senderId]), FrameOut(TextFrame(text))) in writes
    ensures var writes := BroadcastWrites(order, contexts, senderId, shortId, text);
            forall k :: k in contexts && k != senderId ==>
              Write(ToContext(contexts[k]), FrameOut(TextFrame(shortId + ": " + text))) in writes
  {
    var writes := BroadcastWrites(order, contexts, senderId, shortId, text);
    EnumerationSize(order, contexts.Keys);
    if order != [] {
      BroadcastWritesAt(order, contexts, senderId, shortId, text, 0);
    }
    forall k | k in contexts ensures BroadcastWrite(contexts, k, senderId, shortId, text) in writes {
      var i :| 0 <= i < |order| && order[i] == k;
      BroadcastWritesAt(order, contexts, senderId, shortId, text, i);
    }
    forall w | w in writes ensures exists k :: k in contexts && w == BroadcastWrite(contexts, k, senderId, shortId, text) {
      var i :| 0 <= i < |writes| && writes[i] == w;
      BroadcastWritesAt(order, contexts, senderId, shortId, text, i);
    }
  }

  /** Once a session is removed, a broadcast over the remaining ones writes nothing to its
      context (each channel has a context of its own). */
  lemma RemovedSessionReceivesNothing(order: seq<string>, contexts: map<string, Context>, removed: string,
                                      senderId: string, shortId: string, text: string)
    requires removed in contexts
    requires forall k :: k in contexts && k != removed ==> contexts[k] != contexts[removed]
    requires IsEnumeration(order, (contexts - {removed}).Keys)
    ensures forall w :: w in BroadcastWrites(order, contexts - {removed}, senderId, shortId, text) ==>
              w.Write? && w.target != ToContext(contexts[removed])
  {
    var rest := contexts - {removed};
    var writes := BroadcastWrites(order, rest, senderId, shortId, text);
    forall w | w in writes ensures w.Write? && w.target != ToContext(contexts[removed]) {
      var i :| 0 <= i < |writes| && writes[i] == w;
      if order != [] {
        BroadcastWritesAt(order, rest, senderId, shortId, text, 0);
      }
      BroadcastWritesAt(order, rest, senderId, shortId, text, i);
    }
  }

  /** How many writes of es go to the context ctx itself. */
  function WritesTo(es: seq<Event>, ctx: Context): nat {
    if es == [] then 0
    else WritesTo(es[..|es| - 1], ctx)
         + (if es[|es| - 1].Write? && es[|es| - 1].target == ToContext(ctx) then 1 else 0)
  }

  lemma {:induction false} WritesToAppend(a: seq<Event>, b: seq<Event>, ctx: Context)
    ensures WritesTo(a + b, ctx) == WritesTo(a, ctx) + WritesTo(b, ctx)
    decreases |b|
  {
    if b == [] {
      assert a + b == a;
    } else {
      assert (a + b)[..|a + b| - 1] == a + b[..|b| - 1];
      WritesToAppend(a, b[..|b| - 1], ctx);
    }
  }

  /** How many visited keys hold the context c. */
  function Visits(order: seq<string>, contexts: map<string, Context>, c: Context): nat
    requires forall k :: k in order ==> k in contexts
  {
    if order == [] then 0
    else Visits(order[..|order| - 1], contexts, c) + (if contexts[order[|order| - 1]] == c then 1 else 0)
  }

  lemma {:induction false} BroadcastWritesToVisits(order: seq<string>, contexts: map<string, Context>, senderId: string,
                                                   shortId: string, text: string, c: Context)
    requires forall k :: k in order ==> k in contexts
    ensures WritesTo(BroadcastWrites(order, contexts, senderId, shortId, text), c) == Visits(order, contexts, c)
  {
    if order != [] {
      var init := order[..|order| - 1];
      var last := BroadcastWrite(contexts, order[|order| - 1], senderId, shortId, text);
      BroadcastWritesToVisits(init, contexts, senderId, shortId, text, c);
      WritesToAppend(BroadcastWrites(init, contexts, senderId, shortId, text), [last], c);
      assert [last][..0] == [];
    }
  }

  lemma {:induction false} VisitsNone(order: seq<string>, contexts: map<string, Context>, c: Context)
    requires forall k :: k in order ==> k in contexts && contexts[k] != c
    ensures Visits(order, contexts, c) == 0
  {
    if order != [] {
      VisitsNone(order[..|order| - 1], contexts, c);
    }
  }

  /** Distinct sessions hold distinct contexts (each is its own channel's). */
  predicate DistinctContexts(contexts: map<string, Context>) {
    forall a, b :: a in contexts && b in contexts && a != b ==> contexts[a] != contexts[b]
  }

  lemma {:induction false} VisitsOnce(order: seq<string>, contexts: map<string, Context>, k: string)
    requires forall j :: j in order ==> j in contexts
    requires forall i, j :: 0 <= i < j < |order| ==> order[i] != order[j]
    requires DistinctContexts(contexts) && k in order
    ensures Visits(order, contexts, contexts[k]) == 1
  {
    var init := order[..|order| - 1];
    var last := order[|order| - 1];
    if last == k {
      forall j | j in init ensures j in contexts && contexts[j] != contexts[k] {
        var i :| 0 <= i < |init| && init[i] == j;
        assert order[i] == j;
      }
      VisitsNone(init, contexts, contexts[k]);
    } else {
      var i :| 0 <= i < |order| && order[i] == k;
      assert init[i] == k;
      VisitsOnce(init, contexts, k);
    }
  }

  /** When sessions hold distinct contexts, a broadcast writes exactly once to each
      session's context and never to a context no session holds. */
  lemma BroadcastWritesEachSessionOnce(order: seq<string>, contexts: map<string, Context>, senderId: string,
                                       shortId: string, text: string, c: Context)
    requires IsEnumeration(order, contexts.Keys) && DistinctContexts(contexts)
    ensures WritesTo(BroadcastWrites(order, contexts, senderId, shortId, text), c)
            == if exists k :: k in contexts && contexts[k] == c then 1 else 0
  {
    BroadcastWritesToVisits(order, contexts, senderId, shortId, text, c);
    if k :| k in contexts && contexts[k] == c {
      VisitsOnce(order, contexts, k);
    } else {
      VisitsNone(order, contexts, c);
    }
  }

  /** The `forEach` over the key set: visits every key once, in some order, and writes each
      session's text to its context. */
  method Broadcast(contexts: map<string, Context>, senderId: string, shortId: string, text: string)
    returns (order: seq<string>, writes: seq<Event>)
    ensures IsEnumeration(order, contexts.Keys)
    ensures writes == BroadcastWrites(order, contexts, senderId, shortId, text)
  {
    var remaining := contexts.Keys;
    order := [];
    writes := [];
    while remaining != {}
      invariant remaining <= contexts.Keys
      invariant forall k :: k in order <==> k in contexts.Keys - remaining
      invariant forall i, j :: 0 <= i < j < |order| ==> order[i] != order[j]
      invariant writes == BroadcastWrites(order, contexts, senderId, shortId, text)
      decreases remaining
    {
      var key :| key in remaining;
      assert key !in order;
      writes := writes + [BroadcastWrite(contexts, key, senderId, shortId, text)];
      order := order + [key];
      remaining := remaining - {key};
    }
  }
}
