/** The byte relay of the TCP tunnel: it copies one direction of a connection through a reused buffer. */
module Relay {
  import opened Codec
  import opened Tunnel

  class Forwarder {
    const read: ByteStream
    const write: ByteStream
    const buf: array<byte>
    var ended: Ended
    ghost var lost: seq<byte>

    ghost predicate Valid() reads this, read, write {
      read != write && read.Valid() && write.Valid() && buf.Length == BUFFER_SIZE
    }

    ghost function View(): Hop reads this, read, write {
      Hop(read.Unread(), write.Unread(), lost, ended)
    }

    constructor (read: ByteStream, write: ByteStream)
      requires read != write && read.Valid() && write.Valid()
      ensures Valid() && this.read == read && this.write == write && fresh(buf)
      ensures View() == Hop(read.Unread(), write.Unread(), [], StillOpen)
    {
      this.read, this.write, ended, lost := read, write, StillOpen, [];
      buf := new byte[BUFFER_SIZE](_ => 0);
    }

    /** Reads land at the front of the buffer; what earlier reads left behind them stays. */
    method Fill() returns (len: nat)
      requires Valid()
      modifies read, buf
      ensures Valid() && len <= BUFFER_SIZE
      ensures buf[..len] + read.Unread() == old(read.Unread())
      ensures len == 0 ==> old(read.Unread()) == []
      ensures write.Unread() == old(write.Unread())
    {
      var got := read.Poll(BUFFER_SIZE);
      len := |got|;
      for i := 0 to len
        invariant buf[..i] == got[..i]
        invariant read.Unread() == old(read.Unread())[|got|..] && read.Valid() && write.Valid()
        invariant write.Unread() == old(write.Unread())
      {
        buf[i] := got[i];
      }
    }

    /** One iteration; `len` is what the read took. */
    method Iterate(e: Event) returns (ghost len: nat)
      requires Valid() && ended == StillOpen
      modifies this`ended, this`lost, read, write, buf
      ensures Valid() && View() == HopNext(old(View()), e, len)
    {
      len := 0;
      match e
      case Stop => ended := ShutDown;
      case ReadError => ended := ReadFailed;
      case Readable(room) =>
        var got := Fill();
        len := got;
        ghost var data := buf[..got];
        assert old(read.Unread())[..got] == data && old(read.Unread())[got..] == read.Unread();
        if got == 0 {
          ended := StreamClosed;
        } else {
          var ok := write.WriteAll(buf[..got], room);
          if !ok {
            ended, lost := WriteFailed, data[room..];
          }
        }
    }
  }

  /** Both directions of one connection: what is read on one side goes out on the other. */
  method StartForwarders(ra: ByteStream, rb: ByteStream, wa: ByteStream, wb: ByteStream)
    returns (there: Forwarder, back: Forwarder)
    requires ra != wb && rb != wa
    requires ra.Valid() && rb.Valid() && wa.Valid() && wb.Valid()
    ensures fresh(there) && fresh(back) && fresh(there.buf) && fresh(back.buf)
    ensures there != back && there.buf != back.buf
    ensures there.Valid() && there.read == ra && there.write == wb
    ensures back.Valid() && back.read == rb && back.write == wa
    ensures there.View() == Hop(ra.Unread(), wb.Unread(), [], StillOpen)
    ensures back.View() == Hop(rb.Unread(), wa.Unread(), [], StillOpen)
  {
    there := new Forwarder(ra, wb);
    back := new Forwarder(rb, wa);
  }

  /** Two relays in a row: the second reads what the first writes. */
  class Pipe {
    const first: Forwarder
    const second: Forwarder
    var closed: bool

    /** Everything the source has sent. */
    ghost var sent: seq<byte>

    ghost function Footprint(): set<object> {
      {this, first, second, first.buf, second.buf, first.read, second.read, second.write}
    }

    ghost predicate Valid() reads Footprint() {
      && first != second && first.buf != second.buf
      && first.write == second.read && first.read != second.write
      && first.Valid() && second.Valid()
    }

    ghost function View(): Way reads Footprint()
      requires Valid()
    {
      Way(sent, closed, first.read.Unread(), first.lost, first.ended, second.read.Unread(), second.lost, second.ended,
          second.write.Unread())
    }

    constructor (first: Forwarder, second: Forwarder)
      requires first != second && first.buf != second.buf
      requires first.write == second.read && first.read != second.write
      requires first.Valid() && second.Valid()
      requires first.View() == second.View() == Hop([], [], [], StillOpen)
      ensures Valid() && this.first == first && this.second == second && View() == NEW_WAY
    {
      this.first, this.second, closed, sent := first, second, false, [];
    }

    method Send(data: seq<byte>)
      requires Valid()
      modifies this`sent, first.read
      ensures Valid()
      ensures View() == old(View()).(sent := old(sent) + data, waiting := old(View()).waiting + data)
    {
      var _ := first.read.WriteAll(data, |data|);
      sent := sent + data;
    }

    method Close()
      requires Valid()
      modifies this`closed
      ensures Valid() && View() == old(View()).(closed := true)
    {
      closed := true;
    }

    method StepFirst(e: Event) returns (ghost len: nat)
      requires Valid() && first.ended == StillOpen
      modifies first`ended, first`lost, first.read, first.write, first.buf
      ensures Valid() && View() == RelayNext(old(View()), true, e, len)
    {
      len := first.Iterate(e);
    }

    method StepSecond(e: Event) returns (ghost len: nat)
      requires Valid() && second.ended == StillOpen
      modifies second`ended, second`lost, second.read, second.write, second.buf
      ensures Valid() && View() == RelayNext(old(View()), false, e, len)
    {
      len := second.Iterate(e);
    }

    /** One turn of this direction; in a turn of a relay, the read takes as much as is at hand in one piece. */
    method Step(t: Turn) returns (ghost u: Turn)
      requires Valid() && !t.Tell? && (t.Relay? ==> CanRelay(View(), t.first, t.e))
      modifies Footprint()
      ensures Valid() && View() == WayNext(old(View()), u) && SameButLen(t, u)
    {
      u := t;
      match t
      case Sends(_, data) => Send(data);
      case Closes(_) => Close();
      case Relay(_, true, e, _) =>
        ghost var len := StepFirst(e);
        u := t.(len := len);
      case Relay(_, false, e, _) =>
        ghost var len := StepSecond(e);
        u := t.(len := len);
    }
  }

  /** The two directions share no relay, no buffer and no stream. */
  ghost predicate Apart(a: Pipe, b: Pipe) {
    && a != b && a.first != b.first && a.first != b.second && a.second != b.first && a.second != b.second
    && a.first.buf != b.first.buf && a.first.buf != b.second.buf
    && a.second.buf != b.first.buf && a.second.buf != b.second.buf
    && a.first.read != b.first.read && a.first.read != b.second.read && a.first.read != b.second.write
    && a.second.read != b.first.read && a.second.read != b.second.read && a.second.read != b.second.write
    && a.second.write != b.first.read && a.second.write != b.second.read && a.second.write != b.second.write
  }

  lemma ApartFootprints(a: Pipe, b: Pipe)
    requires Apart(a, b)
    ensures a.Footprint() !! b.Footprint()
  {
  }

  /** A client's connection, a unix socket and the service's connection, with the sidecar's relays between the first two
      and the agent's between the last two. */
  class Connection {
    const up: Pipe
    const down: Pipe

    /** Whether the session was told to shut down, on the sidecar and on the agent. */
    var sidecarTold: bool
    var agentTold: bool

    ghost var turns: seq<Turn>

    /** The connection is as its turns so far have left it. */
    ghost predicate Valid() reads this, up, down, up.Footprint(), down.Footprint() {
      && Apart(up, down) && up.Valid() && down.Valid()
      && up.View() == End(turns).up && down.View() == End(turns).down
      && sidecarTold == End(turns).sidecarTold && agentTold == End(turns).agentTold
    }

    constructor ()
      ensures Valid() && turns == []
    {
      var there, back := StartPipes();
      up, down, sidecarTold, agentTold, turns := there, back, false, false, [];
    }

    method Tell(sidecar: bool)
      requires Valid()
      modifies this`sidecarTold, this`agentTold, this`turns
      ensures Valid() && turns == old(turns) + [Turn.Tell(sidecar)]
    {
      EndExtends(turns, Turn.Tell(sidecar));
      NextWays(End(turns), Turn.Tell(sidecar));
      if sidecar {
        sidecarTold := true;
      } else {
        agentTold := true;
      }
      turns := turns + [Turn.Tell(sidecar)];
    }

    /** A turn of one direction leaves the other alone. */
    method StepUp(t: Turn) returns (ghost u: Turn)
      requires Valid() && !t.Tell? && t.upwards && Possible(End(turns), t)
      modifies this`turns, up.Footprint()
      ensures Valid() && turns == old(turns) + [u] && SameButLen(t, u)
    {
      ApartFootprints(up, down);
      u := up.Step(t);
      WayTurn(turns, t, u);
      turns := turns + [u];
    }

    method StepDown(t: Turn) returns (ghost u: Turn)
      requires Valid() && !t.Tell? && !t.upwards && Possible(End(turns), t)
      modifies this`turns, down.Footprint()
      ensures Valid() && turns == old(turns) + [u] && SameButLen(t, u)
    {
      ApartFootprints(up, down);
      u := down.Step(t);
      WayTurn(turns, t, u);
      turns := turns + [u];
    }

    /** Any turn of a direction that is possible; the bytes at hand decide how much a relay reads. */
    method Step(t: Turn) returns (ghost u: Turn)
      requires Valid() && !t.Tell? && Possible(End(turns), t)
      modifies this`turns, (if t.upwards then up else down).Footprint()
      ensures Valid() && turns == old(turns) + [u] && SameButLen(t, u)
    {
      if t.upwards {
        u := StepUp(t);
      } else {
        u := StepDown(t);
      }
    }
  }

  /** The streams of a connection and the relays between them, on both hosts. */
  method StartPipes() returns (up: Pipe, down: Pipe)
    ensures Apart(up, down) && up.Valid() && down.Valid() && up.View() == down.View() == NEW_WAY
  {
    var clientOut := new ByteStream();
    var clientIn := new ByteStream();
    var socketUp := new ByteStream();
    var socketDown := new ByteStream();
    var serviceOut := new ByteStream();
    var serviceIn := new ByteStream();
    var sidecarUp, sidecarDown := StartForwarders(clientOut, socketDown, clientIn, socketUp);
    var agentDown, agentUp := StartForwarders(serviceOut, socketUp, serviceIn, socketDown);
    up := new Pipe(sidecarUp, agentUp);
    down := new Pipe(agentDown, sidecarDown);
  }
}
