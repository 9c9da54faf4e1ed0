/** The messaging package: the message and handler records, and `DefaultMessageParser`,
    which frames a buffer as `<address><d><sessionId><d><data>` for a delimiter char d. */
module Messaging {
  import opened Wrappers
  import opened JavaLang
  import Nio

  datatype SockiopathMessage = SockiopathMessage(address: string, sessionId: string, data: seq<byte>)

  /** A registered handler: its consumer (an opaque id here) and its timeout. */
  datatype MessageBus = MessageBus(consumer: nat, timeoutMillis: int)

  /** How the consumer's future, bounded by `orTimeout(timeoutMillis)`, completed. */
  datatype HandlerOutcome = Responded(response: seq<byte>) | TimedOut | Failed(cause: Throwable)

  const DEFAULT_MESSAGE_DELIMINATOR: char := '|'

  predicate IsDelimiter(delim: char, b: byte) {
    CharOf(b) == delim
  }

  predicate NoDelimiter(delim: char, bs: seq<byte>) {
    forall i :: 0 <= i < |bs| ==> !IsDelimiter(delim, bs[i])
  }

  /** The index of the first delimiter byte at or after `from`, if there is one. */
  function FindDelimiter(delim: char, bs: seq<byte>, from: nat): (r: Option<nat>)
    requires from <= |bs|
    ensures r.Some? ==> from <= r.value < |bs| && IsDelimiter(delim, bs[r.value])
    ensures r.Some? ==> NoDelimiter(delim, bs[from..r.value])
    ensures r.None? ==> NoDelimiter(delim, bs[from..])
    decreases |bs| - from
  {
    if from == |bs| then None
    else if IsDelimiter(delim, bs[from]) then Some(from)
    else
      var r := FindDelimiter(delim, bs, from + 1);
      assert forall i :: from < i <= |bs| ==> bs[from..i] == [bs[from]] + bs[from + 1..i];
      assert bs[from..] == [bs[from]] + bs[from + 1..];
      r
  }

  /** The parse the source performs: the address up to the first delimiter, the session id
      up to the second, and every remaining byte as data; None when either is missing. */
  function Parse(delim: char, bs: seq<byte>): Option<SockiopathMessage> {
    match FindDelimiter(delim, bs, 0)
    case None => None
    case Some(i) =>
      match FindDelimiter(delim, bs, i + 1)
      case None => None
      case Some(j) => Some(SockiopathMessage(Render(bs[..i]), Render(bs[i + 1..j]), bs[j + 1..]))
  }

  /** The wire form a client sends: address, delimiter byte, session id, delimiter byte, data. */
  function Frame(d: byte, address: seq<byte>, sessionId: seq<byte>, data: seq<byte>): seq<byte> {
    address + [d] + sessionId + [d] + data
  }

  predicate HasTwoDelimiters(delim: char, bs: seq<byte>) {
    exists i, j :: 0 <= i < j < |bs| && IsDelimiter(delim, bs[i]) && IsDelimiter(delim, bs[j])
  }

  class DefaultMessageParser {
    const deliminator: char

    constructor(deliminator: char)
      ensures this.deliminator == deliminator
    {
      this.deliminator := deliminator;
    }

    /** `apply`: rewinds the buffer to 0 whatever its position was, reads the two parts and
        the data, and leaves the cursor at the capacity on every path. */
    method Apply(content: Nio.ByteBuffer) returns (r: Option<SockiopathMessage>)
      modifies content`position
      ensures r == Parse(deliminator, content.data[..])
      ensures content.position == content.data.Length
    {
      var capacity := content.Capacity();
      content.SetPosition(0);
      ghost var bs := content.data[..];
      var address := GetPart(content, capacity);
      if address.None? {
        return None;
      }
      ghost var i := content.position - 1;
      var sessionId := GetPart(content, capacity);
      if sessionId.None? {
        return None;
      }
      ghost var j := content.position - 1;
      var data := GetData(content, capacity);
      assert bs[..i] == bs[0..i];
      r := Some(SockiopathMessage(address.value, sessionId.value, data));
    }

    /** `getData`: every byte from the cursor to the capacity. */
    method GetData(content: Nio.ByteBuffer, capacity: nat) returns (data: seq<byte>)
      requires capacity == content.data.Length && content.position <= capacity
      modifies content`position
      ensures data == content.data[old(content.position)..]
      ensures content.position == capacity
    {
      ghost var start := content.position;
      data := [];
      while content.position < capacity
        invariant start <= content.position <= capacity
        invariant data == content.data[start..content.position]
        decreases capacity - content.position
      {
        var b := content.Get();
        data := data + [b];
      }
    }

    /** `getPart`: the chars before the next delimiter, consuming the delimiter too; None
        (with the buffer exhausted) when no delimiter is left. */
    method GetPart(content: Nio.ByteBuffer, capacity: nat) returns (part: Option<string>)
      requires capacity == content.data.Length && content.position <= capacity
      modifies content`position
      ensures match FindDelimiter(deliminator, content.data[..], old(content.position))
              case None => part.None? && content.position == capacity
              case Some(i) => part == Some(Render(content.data[old(content.position)..i])) && content.position == i + 1
    {
      ghost var start := content.position;
      ghost var bs := content.data[..];
      var builder: string := [];
      var delimiterFound := false;
      while content.position < capacity
        invariant start <= content.position <= capacity
        invariant builder == Render(bs[start..content.position])
        invariant NoDelimiter(deliminator, bs[start..content.position])
        invariant !delimiterFound
        decreases capacity - content.position
      {
        var b := content.Get();
        var character := CharOf(b);
        if deliminator == character {
          delimiterFound := true;
          break;
        }
        assert bs[start..content.position] == bs[start..content.position - 1] + [b];
        RenderAppend(bs[start..content.position - 1], [b]);
        builder := builder + [character];
      }
      if delimiterFound {
        FirstDelimiter(deliminator, bs, start, content.position - 1);
        part := Some(builder);
      } else {
        NoDelimiterLeft(deliminator, bs, start);
        part := None;
      }
    }
  }

  /** A delimiter preceded by none from `from` on is the one FindDelimiter finds. */
  lemma FirstDelimiter(delim: char, bs: seq<byte>, from: nat, k: nat)
    requires from <= k < |bs| && IsDelimiter(delim, bs[k])
    requires NoDelimiter(delim, bs[from..k])
    ensures FindDelimiter(delim, bs, from) == Some(k)
  {
  }

  lemma NoDelimiterLeft(delim: char, bs: seq<byte>, from: nat)
    requires from <= |bs| && NoDelimiter(delim, bs[from..])
    ensures FindDelimiter(delim, bs, from).None?
  {
  }

  /** Round trip: a framed message whose address and session id hold no delimiter byte
      parses back to exactly its three parts, whatever the data holds. */
  lemma {:induction false} ParseFrame(d: byte, address: seq<byte>, sessionId: seq<byte>, data: seq<byte>)
    requires NoDelimiter(CharOf(d), address) && NoDelimiter(CharOf(d), sessionId)
    ensures Parse(CharOf(d), Frame(d, address, sessionId, data))
         == Some(SockiopathMessage(Render(address), Render(sessionId), data))
  {
    var delim := CharOf(d);
    var bs := Frame(d, address, sessionId, data);
    var i := |address|;
    var j := |address| + 1 + |sessionId|;
    assert bs[0..i] == address && bs[i] == d;
    FirstDelimiter(delim, bs, 0, i);
    assert bs[i + 1..j] == sessionId && bs[j] == d;
    FirstDelimiter(delim, bs, i + 1, j);
    assert bs[..i] == address && bs[j + 1..] == data;
  }

  /** Parsing succeeds exactly when the buffer holds at least two delimiter bytes. */
  lemma ParseSucceedsIffTwoDelimiters(delim: char, bs: seq<byte>)
    ensures Parse(delim, bs).Some? <==> HasTwoDelimiters(delim, bs)
  {
    if HasTwoDelimiters(delim, bs) {
      var i, j :| 0 <= i < j < |bs| && IsDelimiter(delim, bs[i]) && IsDelimiter(delim, bs[j]);
      assert bs[0..][i] == bs[i];
      var f := FindDelimiter(delim, bs, 0).value;
      assert f <= i;
      assert bs[f + 1..][j - f - 1] == bs[j];
    }
  }

  /** Completeness: every successful parse is the parse of a frame, with the address and
      session id free of delimiters and the payload the whole rest of the buffer. */
  lemma ParseInvertsFrame(d: byte, bs: seq<byte>, m: SockiopathMessage)
    requires Parse(CharOf(d), bs) == Some(m)
    ensures exists address, sessionId ::
              && NoDelimiter(CharOf(d), address) && NoDelimiter(CharOf(d), sessionId)
              && bs == Frame(d, address, sessionId, m.data)
              && m.address == Render(address) && m.sessionId == Render(sessionId)
  {
    var delim := CharOf(d);
    var i := FindDelimiter(delim, bs, 0).value;
    var j := FindDelimiter(delim, bs, i + 1).value;
    CharOfInjective(bs[i], d);
    CharOfInjective(bs[j], d);
    var address, sessionId := bs[..i], bs[i + 1..j];
    assert address == bs[0..i];
    assert NoDelimiter(delim, address) && NoDelimiter(delim, sessionId);
    assert m.data == bs[j + 1..];
    assert bs == Frame(d, address, sessionId, m.data);
    assert m.address == Render(address) && m.sessionId == Render(sessionId);
  }

  /** Neither the address nor the session id ever contains the delimiter char, and the three
      parts account for every byte but the two delimiters. */
  lemma ParsedFieldsExcludeDelimiter(delim: char, bs: seq<byte>)
    requires Parse(delim, bs).Some?
    ensures delim !in Parse(delim, bs).value.address
    ensures delim !in Parse(delim, bs).value.sessionId
    ensures |Parse(delim, bs).value.address| + |Parse(delim, bs).value.sessionId|
            + |Parse(delim, bs).value.data| + 2 == |bs|
  {
    var i := FindDelimiter(delim, bs, 0).value;
    var j := FindDelimiter(delim, bs, i + 1).value;
    assert bs[..i] == bs[0..i];
    var m := Parse(delim, bs).value;
    assert forall k :: 0 <= k < |m.address| ==> m.address[k] == CharOf(bs[0..i][k]);
    assert forall k :: 0 <= k < |m.sessionId| ==> m.sessionId[k] == CharOf(bs[i + 1..j][k]);
  }

  /** A concrete round trip: "address|sessionId|data" with '|'. */
  lemma ParseExample()
    ensures Parse('|', Ascii("address|sessionId|data"))
         == Some(SockiopathMessage("address", "sessionId", Ascii("data")))
  {
    assert "address|sessionId|data" == "address" + "|" + "sessionId" + "|" + "data";
    AsciiFrame("address", "sessionId", "data");
  }

  /** Adjacent delimiters give an empty field: "address-empty||payload". */
  lemma ParseEmptySessionId()
    ensures Parse('|', Ascii("address-empty||payload"))
         == Some(SockiopathMessage("address-empty", "", Ascii("payload")))
  {
    assert "address-empty||payload" == "address-empty" + "|" + "" + "|" + "payload";
    AsciiFrame("address-empty", "", "payload");
  }

  /** A buffer with a single delimiter does not parse: "noAddress" and "a|b". */
  lemma ParseExampleFailures()
    ensures Parse('|', Ascii("noAddress")).None?
    ensures Parse('|', Ascii("a|b")).None?
  {
    var none := Ascii("noAddress");
    assert Render(none) == "noAddress";
    assert NoDelimiter('|', none[0..]) by {
      forall k | 0 <= k < |none| ensures !IsDelimiter('|', none[0..][k]) {
        assert CharOf(none[k]) == "noAddress"[k];
      }
    }
    NoDelimiterLeft('|', none, 0);
    var one := Ascii("a|b");
    assert Render(one) == "a|b";
    assert CharOf(one[0]) == 'a' && CharOf(one[1]) == '|' && CharOf(one[2]) == 'b';
    FirstDelimiter('|', one, 0, 1);
    assert NoDelimiter('|', one[2..]) by {
      assert one[2..] == [one[2]];
    }
    NoDelimiterLeft('|', one, 2);
  }

  /** For '|'-free ASCII parts, the ASCII bytes of "a|s|x" are a frame with '|' (byte 124). */
  lemma AsciiFrame(address: string, sessionId: string, data: string)
    requires IsAscii(address) && IsAscii(sessionId) && IsAscii(data)
    requires '|' !in address && '|' !in sessionId
    ensures IsAscii(address + "|" + sessionId + "|" + data)
    ensures Parse('|', Ascii(address + "|" + sessionId + "|" + data))
         == Some(SockiopathMessage(address, sessionId, Ascii(data)))
  {
    var whole := address + "|" + sessionId + "|" + data;
    assert IsAscii(whole) by {
      forall k | 0 <= k < |whole| ensures whole[k] as int < 0x80 {
        if k < |address| { assert whole[k] == address[k]; }
        else if k == |address| { }
        else if k < |address| + 1 + |sessionId| { assert whole[k] == sessionId[k - |address| - 1]; }
        else if k == |address| + 1 + |sessionId| { }
        else { assert whole[k] == data[k - |address| - 2 - |sessionId|]; }
      }
    }
    var a, s, x := Ascii(address), Ascii(sessionId), Ascii(data);
    assert Ascii(whole) == Frame(124, a, s, x);
    assert NoDelimiter('|', a) by {
      forall k | 0 <= k < |a| ensures !IsDelimiter('|', a[k]) {
        assert Render(a)[k] == address[k];
      }
    }
    assert NoDelimiter('|', s) by {
      forall k | 0 <= k < |s| ensures !IsDelimiter('|', s[k]) {
        assert Render(s)[k] == sessionId[k];
      }
    }
    ParseFrame(124, a, s, x);
  }
}
