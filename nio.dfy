/** `java.nio.ByteBuffer`, as far as the core uses it: a fixed array of bytes and a read
    cursor. The buffers the core reads are `nioBuffer()` slices or `ByteBuffer.wrap`, whose
    limit is their capacity, so the model has no separate limit. */
module Nio {
  import opened JavaLang

  class ByteBuffer {
    const data: array<byte>
    var position: nat

    /** `ByteBuffer.wrap(bytes)` (or a fresh copy's `nioBuffer()`): cursor at 0. */
    constructor Wrap(bytes: seq<byte>)
      ensures data[..] == bytes && position == 0
      ensures fresh(data)
    {
      data := new byte[|bytes|](i requires 0 <= i < |bytes| => bytes[i]);
      position := 0;
    }

    function Capacity(): nat {
      data.Length
    }

    method SetPosition(p: nat)
      requires p <= data.Length
      modifies this`position
      ensures position == p
    {
      position := p;
    }

    /** Relative `get()`: the byte at the cursor, then the cursor moves on by one. */
    method Get() returns (b: byte)
      requires position < data.Length
      modifies this`position
      ensures b == data[old(position)] && position == old(position) + 1
    {
      b := data[position];
      position := position + 1;
    }
  }
}
