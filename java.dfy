/** The few pieces of the Java platform the core relies on: signed bytes, the `(char)`
    cast, exceptions as values, and `java.util.Map` instances that may be immutable. */
module JavaLang {
  import opened Wrappers

  /** A Java `byte`: a signed 8-bit integer. */
  newtype byte = x: int | -128 <= x < 128

  /** Java's `(char) b` for a byte: the byte is sign-extended and the low 16 bits are kept,
      so non-negative bytes give the chars U+0000..U+007F and negative ones U+FF80..U+FFFF. */
  function CharOf(b: byte): (c: char)
    ensures b >= 0 ==> c as int == b as int
    ensures b < 0 ==> c as int == b as int + 0x1_0000
  {
    if b >= 0 then b as int as char else (b as int + 0x1_0000) as char
  }

  /** Distinct bytes give distinct chars: the cast loses nothing. */
  lemma CharOfInjective(a: byte, b: byte)
    requires CharOf(a) == CharOf(b)
    ensures a == b
  {
  }

  /** The string whose i-th char is `(char)` of the i-th byte. */
  function Render(bs: seq<byte>): (s: string)
    ensures |s| == |bs|
    ensures forall i :: 0 <= i < |bs| ==> s[i] == CharOf(bs[i])
  {
    seq(|bs|, i requires 0 <= i < |bs| => CharOf(bs[i]))
  }

  lemma RenderAppend(a: seq<byte>, b: seq<byte>)
    ensures Render(a + b) == Render(a) + Render(b)
  {
    assert forall i :: 0 <= i < |a + b| ==> Render(a + b)[i] == (Render(a) + Render(b))[i];
  }

  /** `String.getBytes()` for a string of 7-bit chars: one byte per char, the char's code. */
  predicate IsAscii(s: string) {
    forall i :: 0 <= i < |s| ==> s[i] as int < 0x80
  }

  function Ascii(s: string): (bs: seq<byte>)
    requires IsAscii(s)
    ensures |bs| == |s|
    ensures Render(bs) == s
  {
    var bs := seq(|s|, i requires 0 <= i < |s| => s[i] as int as byte);
    assert forall i :: 0 <= i < |s| ==> Render(bs)[i] == s[i];
    bs
  }

  /** A Java exception or error, by class name and `getMessage()` (null is None). */
  datatype Throwable = Throwable(className: string, message: Option<string>)

  /** What `"..." + t.getMessage()` appends: the message, or "null" when there is none. */
  function MessageText(t: Throwable): string {
    match t.message
    case Some(m) => m
    case None => "null"
  }

  function UnsupportedOperationException(message: Option<string>): Throwable {
    Throwable("java.lang.UnsupportedOperationException", message)
  }

  function TimeoutException(): Throwable {
    Throwable("java.util.concurrent.TimeoutException", None)
  }

  /** The decimal digits of a non-negative int, as string concatenation writes them. */
  function NatToString(n: nat): (s: string)
    ensures 1 <= |s|
    ensures forall i :: 0 <= i < |s| ==> '0' <= s[i] <= '9'
  {
    var digit := ["0123456789"[n % 10]];
    if n < 10 then digit else NatToString(n / 10) + digit
  }

  /** The number a string of decimal digits spells, most significant digit first. */
  function DigitsValue(s: string): nat
    requires forall i :: 0 <= i < |s| ==> '0' <= s[i] <= '9'
  {
    if s == [] then 0 else DigitsValue(s[..|s| - 1]) * 10 + (s[|s| - 1] as int - '0' as int)
  }

  /** NatToString writes n in decimal: its digits spell n, with no leading zero. */
  lemma {:induction false} NatToStringValue(n: nat)
    ensures DigitsValue(NatToString(n)) == n
    ensures |NatToString(n)| == 1 || NatToString(n)[0] != '0'
  {
    var s := NatToString(n);
    var digit := ["0123456789"[n % 10]];
    assert digit[0] as int - '0' as int == n % 10;
    if n < 10 {
      assert s == digit && s[..0] == [];
    } else {
      NatToStringValue(n / 10);
      assert s == NatToString(n / 10) + digit;
      assert s[..|s| - 1] == NatToString(n / 10);
    }
  }
}

/** `java.util.Map` as the stores receive it: its entries, and whether it accepts
    `put`/`remove` (`Map.of()` and friends throw `UnsupportedOperationException`). */
module JavaUtil {

  datatype JavaMap<V> = JavaMap(entries: map<string, V>, mutable: bool)

  /** `put` adds one key exactly when the key was absent. */
  lemma {:induction false} PutSize<V>(m: map<string, V>, k: string, v: V)
    ensures |m[k := v]| == if k in m then |m| else |m| + 1
  {
    if k in m {
      assert m[k := v].Keys == m.Keys;
    } else {
      assert m[k := v].Keys == m.Keys + {k};
    }
  }

  /** `remove` drops one key exactly when the key was present. */
  lemma {:induction false} RemoveSize<V>(m: map<string, V>, k: string)
    ensures |m - {k}| == if k in m then |m| - 1 else |m|
  {
    if k in m {
      assert (m - {k}).Keys + {k} == m.Keys;
    } else {
      assert (m - {k}).Keys == m.Keys;
    }
  }
}
