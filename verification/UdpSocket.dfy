/** Receiving datagrams into a buffer that is used again and again. */
module UdpSocket {
  import opened Codec

  /** What does not fit the buffer is dropped. */
  function Truncated(datagram: seq<byte>, size: nat): seq<byte> {
    if |datagram| <= size then datagram else datagram[..size]
  }

  /** The socket fills the front of the buffer; older bytes stay behind it. */
  method RecvFrom(buf: array<byte>, datagram: seq<byte>) returns (len: nat)
    modifies buf
    ensures len <= buf.Length && buf[..len] == Truncated(datagram, buf.Length)
  {
    len := if |datagram| <= buf.Length then |datagram| else buf.Length;
    for i := 0 to len
      invariant buf[..i] == datagram[..i]
    {
      buf[i] := datagram[i];
    }
    assert datagram[..|datagram|] == datagram;
  }
}
