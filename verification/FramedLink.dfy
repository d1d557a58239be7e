/** The unix socket between a sidecar's channel client and its session on the agent. Both ends run the same loop:
    messages from the bridge are framed onto the socket, frames from the socket are handed to the bridge. */
module FramedLink {
  import opened Codec

  /** One direction: the length its reader has latched, the bytes in flight, and whether a failed write has cut the
      last frame short and ended the writer. */
  datatype Link = Link(len: u16, unread: seq<byte>, cut: bool)

  const EMPTY := Link(0, [], false)

  function Pending(l: Link): seq<Message> {
    DecodeFrom(l.len, l.unread)
  }

  /** The bytes in flight are whole frames, up to the prefix the reader has already taken; after a failed write the
      beginning of one more frame may follow them. */
  ghost predicate WellFramed(l: Link) {
    exists tail: seq<byte> :: FramedBy(l, Pending(l), tail)
  }

  ghost predicate FramedBy(l: Link, ms: seq<Message>, tail: seq<byte>) {
    InFlight(l.len, l.unread, ms, tail) && (!l.cut ==> tail == [])
  }

  lemma FramedIsWell(l: Link, ms: seq<Message>, tail: seq<byte>)
    requires FramedBy(l, ms, tail)
    ensures WellFramed(l) && Pending(l) == ms
  {
    InFlightDecodes(l.len, l.unread, ms, tail);
    assert FramedBy(l, Pending(l), tail);
  }

  function Write(l: Link, m: Message): Link {
    l.(unread := l.unread + Encode(m))
  }

  /** The write fails when the socket has taken `room` more bytes. */
  function WriteCut(l: Link, m: Message, room: nat): Link {
    l.(unread := l.unread + Accepted(m, room), cut := true)
  }

  /** The reader has consumed `c` bytes when another event of its loop comes first, and is abandoned. */
  function Abandoned(l: Link, c: nat): Link
    requires CanAbandon(l.len, l.unread, c)
  {
    var k := Kept(l.len, l.unread, c);
    l.(len := k.len, unread := k.rest)
  }

  function Read(l: Link): Link {
    var r := ReadOne(l.len, l.unread);
    l.(len := r.len, unread := r.rest)
  }

  lemma EmptyLink()
    ensures WellFramed(EMPTY) && Pending(EMPTY) == []
  {
    NothingBegins();
    FramedIsWell(EMPTY, [], []);
  }

  lemma WriteKeeps(l: Link, m: Message)
    requires WellFramed(l) && !l.cut && Fits(m)
    ensures WellFramed(Write(l, m)) && Pending(Write(l, m)) == Pending(l) + [m]
  {
    InFlightWrite(l.len, l.unread, Pending(l), m);
    FramedIsWell(Write(l, m), Pending(l) + [m], []);
  }

  /** A write that fails adds no message, whole or in part, to those in flight. */
  lemma WriteCutKeeps(l: Link, m: Message, room: nat)
    requires WellFramed(l) && !l.cut && Fits(m) && room < |Encode(m)|
    ensures WellFramed(WriteCut(l, m, room)) && Pending(WriteCut(l, m, room)) == Pending(l)
  {
    InFlightCut(l.len, l.unread, Pending(l), m, room);
    FramedIsWell(WriteCut(l, m, room), Pending(l), Encode(m)[..room]);
  }

  /** Abandoned before any byte, or with just the prefix taken, a read changes nothing about the messages in flight. */
  lemma AbandonKeeps(l: Link, c: nat)
    requires WellFramed(l) && CanAbandon(l.len, l.unread, c) && SafePoint(l.len, c)
    ensures WellFramed(Abandoned(l, c)) && Pending(Abandoned(l, c)) == Pending(l)
  {
    if c == 0 {
      assert l.unread[0..] == l.unread;
    } else {
      var tail: seq<byte> :| FramedBy(l, Pending(l), tail);
      InFlightLatch(l.unread, Pending(l), tail);
      FramedIsWell(Abandoned(l, c), Pending(l), tail);
    }
  }

  /** An abandoned read has consumed its bytes for good, and at exactly those two points this costs no message on any
      link. */
  lemma AbandonKeepsIff(len: u16, c: nat)
    requires exists s: seq<byte> :: CanAbandon(len, s, c)
    ensures (forall l: Link | l.len == len && CanAbandon(len, l.unread, c) :: Pending(Abandoned(l, c)) == Pending(l))
       <==> SafePoint(len, c)
    ensures forall l: Link | l.len == len && CanAbandon(len, l.unread, c) ::
              |Abandoned(l, c).unread| == |l.unread| - c
  {
    KeptReaderSameIffSafe(len, c);
    forall l: Link | l.len == len && CanAbandon(len, l.unread, c)
      ensures Pending(Abandoned(l, c)) == Pending(l) <==> KeptSame(len, l.unread, c)
    {
    }
    if !SafePoint(len, c) {
      var s: seq<byte> :| CanAbandon(len, s, c) && !KeptSame(len, s, c);
      assert Pending(Abandoned(Link(len, s, false), c)) != Pending(Link(len, s, false));
    }
  }

  /** A message in flight is read whole, and the next read starts at a frame boundary. */
  lemma ReadKeeps(l: Link)
    requires WellFramed(l) && Pending(l) != []
    ensures ReadOne(l.len, l.unread).outcome == Received(Pending(l)[0])
    ensures WellFramed(Read(l)) && Pending(Read(l)) == Pending(l)[1..]
  {
    var ms := Pending(l);
    var tail: seq<byte> :| FramedBy(l, ms, tail);
    InFlightRead(l.len, l.unread, ms, tail);
    FramedIsWell(Read(l), ms[1..], tail);
  }

  /** When no whole frame is left the reader finds the end of the stream, never a malformed message. */
  lemma ReadEnds(l: Link)
    requires WellFramed(l) && Pending(l) == []
    ensures ReadOne(l.len, l.unread).outcome == UnexpectedEof
  {
    var tail: seq<byte> :| FramedBy(l, [], tail);
    InFlightEnds(l.len, l.unread, tail);
  }

  datatype Event =
    | FromBridge(msg: Message, room: nat)
    | FromPeer(sendOk: bool)

  /** Client::run and Session::run: `incoming` is read, `outgoing` written, `toBridge` is what the bridge was sent. */
  class Task {
    const incoming: ByteStream
    const outgoing: ByteStream
    const reader: DNSMessageReader
    var toBridge: seq<Message>

    ghost predicate Valid() reads this, incoming, outgoing {
      incoming != outgoing && incoming.Valid() && outgoing.Valid()
    }

    ghost function In(): Link reads this, incoming, reader {
      Link(reader.currentMsgLen, incoming.Unread(), false)
    }

    constructor (incoming: ByteStream, outgoing: ByteStream)
      requires incoming != outgoing && incoming.Valid() && outgoing.Valid()
      ensures Valid() && this.incoming == incoming && this.outgoing == outgoing
      ensures In() == Link(0, incoming.Unread(), false) && toBridge == [] && fresh(reader)
    {
      this.incoming, this.outgoing, toBridge := incoming, outgoing, [];
      reader := new DNSMessageReader();
    }

    /** One turn of the loop; the answer says whether the loop goes on. */
    method Turn(e: Event) returns (running: bool)
      requires Valid()
      modifies this, reader, incoming, outgoing
      ensures Valid()
      ensures e.FromBridge? ==>
          && running == (|Encode(e.msg)| <= e.room)
          && var before := Link(0, old(outgoing.Unread()), false);
          && Link(0, outgoing.Unread(), !running)
             == (if running then Write(before, e.msg) else WriteCut(before, e.msg, e.room))
          && In() == old(In()) && toBridge == old(toBridge)
      ensures e.FromPeer? ==>
          && var r := ReadOne(old(In()).len, old(In()).unread);
          && In() == Read(old(In())) && running == r.outcome.Received?
          && toBridge == old(toBridge) + (if running && e.sendOk then [r.outcome.msg] else [])
          && outgoing.Unread() == old(outgoing.Unread())
    {
      match e
      case FromBridge(msg, room) =>
        running := SendDnsMessage(outgoing, msg, room);
      case FromPeer(sendOk) =>
        var r := reader.Read(incoming);
        running := r.Received?;
        if r.Received? && sendOk {
          toBridge := toBridge + [r.msg];
        }
    }
  }
}
