/** Bytes as read from and written to a socket. */
module Bytes {

  newtype byte = x: int | 0 <= x < 256

  /** The bytes of an ASCII string. */
  function AsciiBytes(s: string): (b: seq<byte>)
    requires forall i :: 0 <= i < |s| ==> s[i] as int < 128
    ensures |b| == |s|
    ensures forall i :: 0 <= i < |s| ==> b[i] as int == s[i] as int
  {
    seq(|s|, i requires 0 <= i < |s| => s[i] as int as byte)
  }

  /** Go's `string(bytes)`, one character per byte. Only ASCII characters
      (white space, the token `Invalid`) are ever inspected in the text. */
  function ToText(b: seq<byte>): (s: string)
    ensures |s| == |b|
    ensures forall i :: 0 <= i < |b| ==> s[i] as int == b[i] as int
  {
    seq(|b|, i requires 0 <= i < |b| => b[i] as int as char)
  }

  /** One `conn.Read` into a fresh zero-filled buffer of `size` bytes when
      `available` bytes are waiting: the buffer receives as many of them as
      fit, and the rest of it stays zero. */
  function ReadInto(size: nat, available: seq<byte>): (buf: seq<byte>)
    ensures |buf| == size
    ensures forall i :: 0 <= i < size && i < |available| ==> buf[i] == available[i]
    ensures forall i :: |available| <= i < size ==> buf[i] == 0
  {
    seq(size, i requires 0 <= i < size => if i < |available| then available[i] else 0)
  }

  /** The first `n` bytes of `b`, or all of them when there are fewer (the
      `buffer[:n]` slice after one read into an `n`-byte buffer). */
  function Take(b: seq<byte>, n: nat): (r: seq<byte>)
    ensures |r| == if |b| < n then |b| else n
    ensures r <= b
  {
    if |b| <= n then b else b[..n]
  }
}
