/** `UdpServer`, as far as the handlers use it: its static `byteBufferToString`, which the
    dispatch engine calls to show unparsable content. */
module UdpServer {
  import opened JavaLang
  import Nio

  /** Rewinds the buffer to 0 and renders every byte up to the capacity through the
      signed `(char)` cast; the cursor is left at the capacity. */
  method ByteBufferToString(content: Nio.ByteBuffer) returns (s: string)
    modifies content`position
    ensures |s| == content.data.Length
    ensures forall i :: 0 <= i < |s| ==> s[i] == CharOf(content.data[i])
    ensures content.position == content.data.Length
  {
    var capacity := content.Capacity();
    content.SetPosition(0);
    var builder: string := [];
    while content.position < capacity
      invariant content.position <= capacity
      invariant builder == Render(content.data[..content.position])
      decreases capacity - content.position
    {
      var singleByte := content.Get();
      var character := CharOf(singleByte);
      assert content.data[..content.position] == content.data[..content.position - 1] + [singleByte];
      RenderAppend(content.data[..content.position - 1], [singleByte]);
      builder := builder + [character];
    }
    assert content.data[..content.position] == content.data[..];
    s := builder;
  }
}
