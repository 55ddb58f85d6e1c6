/** The i3-ipc framing the Sway client speaks: a 14-byte header of the magic
    string "i3-ipc", a little-endian 32-bit payload length and a little-endian
    32-bit message type, followed by the payload. */
module I3Ipc {
  import opened Bytes

  const Magic: seq<byte> := AsciiBytes("i3-ipc")
  const HeaderSize: nat := 14
  /** Message type 4 asks for the full layout tree. */
  const GetTree: nat := 4
  const TwoTo32: nat := 0x1_0000_0000

  /** Little-endian encoding of a 32-bit unsigned value: the low byte first,
      each next byte taken from what is left after dividing by 256. */
  function EncodeLE32(n: nat): (b: seq<byte>)
    requires n < TwoTo32
    ensures |b| == 4
  {
    var n1 := n / 256;
    var n2 := n1 / 256;
    var n3 := n2 / 256;
    [(n % 256) as byte, (n1 % 256) as byte, (n2 % 256) as byte, n3 as byte]
  }

  /** Little-endian decoding of four bytes. Go ORs the bytes shifted by 0, 8,
      16 and 24 bits into a 64-bit `int`; the shifted bytes occupy disjoint
      bit ranges, so the OR is their sum, written here innermost-last. */
  function DecodeLE32(b: seq<byte>): (n: nat)
    requires |b| == 4
    ensures n < TwoTo32
  {
    b[0] as nat + 256 * (b[1] as nat + 256 * (b[2] as nat + 256 * b[3] as nat))
  }

  lemma EncodeDecodeLE32(n: nat)
    requires n < TwoTo32
    ensures DecodeLE32(EncodeLE32(n)) == n
  {
    var n1 := n / 256;
    var n2 := n1 / 256;
    var n3 := n2 / 256;
    assert n == n % 256 + 256 * n1;
    assert n1 == n1 % 256 + 256 * n2;
    assert n2 == n2 % 256 + 256 * n3;
  }

  lemma DecodeEncodeLE32(b: seq<byte>)
    requires |b| == 4
    ensures EncodeLE32(DecodeLE32(b)) == b
  {
    var n := DecodeLE32(b);
    var n1 := b[1] as nat + 256 * (b[2] as nat + 256 * b[3] as nat);
    var n2 := b[2] as nat + 256 * b[3] as nat;
    assert n % 256 == b[0] as nat && n / 256 == n1;
    assert n1 % 256 == b[1] as nat && n1 / 256 == n2;
    assert n2 % 256 == b[2] as nat && n2 / 256 == b[3] as nat;
  }

  /** A framed message: header, then payload. */
  function Frame(messageType: nat, payload: seq<byte>): (m: seq<byte>)
    requires messageType < TwoTo32 && |payload| < TwoTo32
    ensures |m| == HeaderSize + |payload|
  {
    Magic + EncodeLE32(|payload|) + EncodeLE32(messageType) + payload
  }

  /** The request the Sway client writes, byte for byte as the source builds
      it: "i3-ipc", then 0,0,0,0, then 4,0,0,0. */
  const GetTreeRequest: seq<byte> := AsciiBytes("i3-ipc") + [0, 0, 0, 0] + [4, 0, 0, 0]

  /** The payload length announced by a 14-byte header: bytes 6 to 9,
      little-endian. */
  function PayloadLength(header: seq<byte>): (n: nat)
    requires |header| == HeaderSize
    ensures n < TwoTo32
  {
    DecodeLE32(header[6..10])
  }

  /** The message type announced by a 14-byte header: bytes 10 to 13. */
  function MessageType(header: seq<byte>): (n: nat)
    requires |header| == HeaderSize
    ensures n < TwoTo32
  {
    DecodeLE32(header[10..14])
  }

  /** The literal request is the GET_TREE frame with an empty payload: 14
      bytes, the magic, length 0, type 4. */
  lemma GetTreeRequestIsFramed()
    ensures GetTreeRequest == Frame(GetTree, [])
    ensures |GetTreeRequest| == HeaderSize
    ensures GetTreeRequest[..6] == Magic
    ensures PayloadLength(GetTreeRequest) == 0
    ensures MessageType(GetTreeRequest) == GetTree
  {
    assert EncodeLE32(0) == [0, 0, 0, 0];
    assert EncodeLE32(4) == [4, 0, 0, 0];
    assert GetTreeRequest[6..10] == [0, 0, 0, 0];
    assert GetTreeRequest[10..14] == [4, 0, 0, 0];
  }

  /** Reading the header of any frame recovers its payload length, its type
      and the magic; the payload follows the header. */
  lemma FrameHeaderRoundTrip(messageType: nat, payload: seq<byte>)
    requires messageType < TwoTo32 && |payload| < TwoTo32
    ensures var m := Frame(messageType, payload);
      && m[..6] == Magic
      && PayloadLength(m[..HeaderSize]) == |payload|
      && MessageType(m[..HeaderSize]) == messageType
      && m[HeaderSize..] == payload
  {
    var m := Frame(messageType, payload);
    assert m[..HeaderSize][6..10] == EncodeLE32(|payload|);
    assert m[..HeaderSize][10..14] == EncodeLE32(messageType);
    EncodeDecodeLE32(|payload|);
    EncodeDecodeLE32(messageType);
  }
}
