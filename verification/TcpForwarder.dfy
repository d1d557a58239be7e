/** The DNS-over-TCP forwarder: it connects only when there is something to send, writes what it takes from its queue
    to the current connection, and goes back to waiting when a write or a read fails. */
module TcpForwarder {
  import opened Codec
  import opened Seqs
  import opened TcpInbound

  datatype State = Connected(conn: nat) | Waiting | Connecting | Invalid

  /** What became of a message taken from the queue; connections are numbered in the order they were made. */
  datatype Fate = Written(msg: Message, conn: nat) | Lost(msg: Message, conn: nat)

  /** `wires` holds the bytes each connection has accepted, `ins` what it has brought, and `arrived` everything the
      bridge has sent so far. */
  datatype Forwarder = Forwarder(
    running: bool,
    state: State,
    queue: seq<Message>,
    closed: bool,
    wires: seq<seq<byte>>,
    ins: seq<Inbound>,
    toBridge: seq<Message>,
    arrived: seq<Message>,
    fates: seq<Fate>)

  /** What happens next: the bridge sends or goes away, the peer sends or goes away, or one branch of the select of the
      current state completes. `room` is how many more bytes the connection accepts before it fails, `eaten` how many
      the reader of the iteration has consumed when a request comes first. */
  datatype Input =
    | Arrive(msg: Message)
    | Close
    | PeerSends(data: seq<byte>)
    | PeerCloses
    | Shutdown
    | Peeked
    | ConnectionMade
    | FromNet(sendOk: bool)
    | NetFails
    | FromBridge(room: nat, eaten: nat)

  const INITIAL := Forwarder(true, Waiting, [], false, [], [], [], [], [])

  function Stopped(s: Forwarder): Forwarder {
    s.(running := false, state := Invalid)
  }

  function OnWaiting(s: Forwarder, i: Input): Forwarder {
    match i
    case Shutdown => Stopped(s)
    case Peeked => if s.queue != [] then s.(state := Connecting) else if s.closed then Stopped(s) else s
    case _ => s
  }

  function OnConnecting(s: Forwarder, i: Input): Forwarder {
    match i
    case Shutdown => Stopped(s)
    case ConnectionMade =>
      s.(state := Connected(|s.wires|), wires := s.wires + [[]], ins := s.ins + [FRESH])
    case _ => s
  }

  function OnConnected(s: Forwarder, i: Input): Forwarder
    requires s.state.Connected? && s.state.conn < |s.wires| == |s.ins|
  {
    match i
    case Shutdown => Stopped(s)
    case FromNet(sendOk) => if CanComplete(s.ins[s.state.conn]) then OnRead(s, sendOk) else s
    case NetFails => s.(state := Waiting)
    case FromBridge(room, eaten) =>
      if s.queue == [] then (if s.closed then Stopped(s) else s)
      else if CanAbandon(0, s.ins[s.state.conn].unread, eaten) then OnWrite(s, room, eaten)
      else s
    case _ => s
  }

  function OnRead(s: Forwarder, sendOk: bool): Forwarder
    requires s.state.Connected? && s.state.conn < |s.wires| == |s.ins|
  {
    var c := s.state.conn;
    var s' := s.(ins := s.ins[c := ReadNext(s.ins[c], sendOk)]);
    match Report(s.ins[c])
    case Received(m) => if sendOk then s'.(toBridge := s.toBridge + [m]) else Stopped(s')
    case _ => s'.(state := Waiting)
  }

  function OnWrite(s: Forwarder, room: nat, eaten: nat): Forwarder
    requires s.state.Connected? && s.state.conn < |s.wires| == |s.ins| && s.queue != []
    requires CanAbandon(0, s.ins[s.state.conn].unread, eaten)
  {
    var m, c := s.queue[0], s.state.conn;
    var s' := s.(queue := s.queue[1..], wires := s.wires[c := s.wires[c] + Accepted(m, room)],
                 ins := s.ins[c := CutAfter(s.ins[c], eaten)]);
    if |Encode(m)| <= room then s'.(fates := s.fates + [Written(m, c)])
    else s'.(fates := s.fates + [Lost(m, c)], state := Waiting)
  }

  /** What the two peers do, whatever the loop is at. The bridge only sends messages that fit a frame. */
  predicate FromOutside(i: Input) {
    i.Arrive? || i.Close? || i.PeerSends? || i.PeerCloses?
  }

  function Outside(s: Forwarder, i: Input): Forwarder
    requires FromOutside(i)
  {
    match i
    case Arrive(m) =>
      if s.closed || !Fits(m) then s else s.(queue := s.queue + [m], arrived := s.arrived + [m])
    case Close => s.(closed := true)
    case PeerSends(data) =>
      if s.state.Connected? && s.state.conn < |s.ins|
      then s.(ins := s.ins[s.state.conn := Arrives(s.ins[s.state.conn], data)]) else s
    case PeerCloses =>
      if s.state.Connected? && s.state.conn < |s.ins|
      then s.(ins := s.ins[s.state.conn := s.ins[s.state.conn].(ended := true)]) else s
  }

  function Next(s: Forwarder, i: Input): Forwarder {
    if FromOutside(i) then Outside(s, i)
    else if !s.running then s
    else match s.state
      case Waiting => OnWaiting(s, i)
      case Connecting => OnConnecting(s, i)
      case Connected(c) => if c < |s.wires| == |s.ins| then OnConnected(s, i) else s
      case Invalid => s
  }

  ghost function Run(inputs: seq<Input>, k: nat): Forwarder
    requires k <= |inputs|
  {
    if k == 0 then INITIAL else Next(Run(inputs, k - 1), inputs[k - 1])
  }

  // ---- What every run keeps ----

  function MessageOf(f: Fate): Message {
    f.msg
  }

  function WrittenOn(c: nat): Fate -> bool {
    (f: Fate) => f.Written? && f.conn == c
  }

  /** Every message that arrived was written or lost, in order of arrival, or is still queued. */
  ghost predicate Conserved(s: Forwarder) {
    s.arrived == Map(MessageOf, s.fates) + s.queue && AllFit(s.arrived)
  }

  /** The peer of connection `c` decodes exactly the messages written to it. */
  ghost predicate PeerGets(s: Forwarder, c: nat)
    requires c < |s.wires|
  {
    DecodeAll(s.wires[c]) == Pick(s.fates, WrittenOn(c), MessageOf)
  }

  /** A message is lost only as the last one of its connection, so no connection loses two. */
  ghost predicate LossIsLast(fates: seq<Fate>) {
    forall i, j | 0 <= i < j < |fates| ::
      fates[i].conn <= fates[j].conn && (fates[i].Lost? ==> fates[i].conn < fates[j].conn)
  }

  /** The current connection is the newest, and everything taken for it has been written whole. */
  ghost predicate CleanSoFar(s: Forwarder, c: nat) {
    && c == |s.wires| - 1
    && s.wires[c] == EncodeAll(Pick(s.fates, WrittenOn(c), MessageOf))
    && forall f | f in s.fates && f.conn == c :: f.Written?
  }

  ghost predicate Ok(s: Forwarder) {
    && (s.running <==> s.state != Invalid) && |s.ins| == |s.wires|
    && Conserved(s)
    && (s.state == Connecting ==> s.queue != [])
    && (s.state.Connected? ==> CleanSoFar(s, s.state.conn))
    && (forall f | f in s.fates :: f.conn < |s.wires|)
    && (forall c | 0 <= c < |s.wires| :: PeerGets(s, c))
    && LossIsLast(s.fates)
  }

  /** A write that fails part way adds nothing the peer can decode. */
  lemma PartialFrame(m: Message, room: nat)
    requires Fits(m) && room < |Encode(m)|
    ensures DecodeAll(Encode(m)[..room]) == []
  {
    BeginningEnds(Encode(m)[..room]);
  }

  lemma {:induction false} PickedFit(fates: seq<Fate>, n: nat, c: nat)
    requires n <= |fates| && forall f | f in fates :: Fits(f.msg)
    ensures AllFit(PickIn(fates, n, WrittenOn(c), MessageOf))
  {
    if n > 0 {
      PickedFit(fates, n - 1, c);
      assert fates[n - 1] in fates;
    }
  }

  lemma {:induction false} NothingWrittenYet(fates: seq<Fate>, n: nat, c: nat)
    requires n <= |fates| && forall f | f in fates :: f.conn < c
    ensures PickIn(fates, n, WrittenOn(c), MessageOf) == []
  {
    if n > 0 {
      NothingWrittenYet(fates, n - 1, c);
      assert fates[n - 1] in fates;
    }
  }

  lemma NewPeerGetsNothing(s: Forwarder)
    requires Ok(s) && s.state == Connecting
    ensures var s' := OnConnecting(s, ConnectionMade); PeerGets(s', |s.wires|) && CleanSoFar(s', |s.wires|)
  {
    var s' := OnConnecting(s, ConnectionMade);
    NothingWrittenYet(s.fates, |s.fates|, |s.wires|);
    assert s'.wires[|s.wires|] == [] == EncodeAll([]);
  }

  lemma ConnectOk(s: Forwarder)
    requires Ok(s) && s.running && s.state == Connecting
    ensures Ok(OnConnecting(s, ConnectionMade))
  {
    var s' := OnConnecting(s, ConnectionMade);
    NewPeerGetsNothing(s);
    forall c | 0 <= c < |s.wires| ensures PeerGets(s', c) {
      assert PeerGets(s, c);
    }
  }

  lemma WriteBytes(fates: seq<Fate>, c: nat, m: Message, room: nat)
    requires Fits(m) && forall f | f in fates :: Fits(f.msg)
    ensures var ms := Pick(fates, WrittenOn(c), MessageOf);
      var wire := EncodeAll(ms) + Accepted(m, room);
      if |Encode(m)| <= room then wire == EncodeAll(ms + [m]) && DecodeAll(wire) == ms + [m]
      else DecodeAll(wire) == ms
  {
    var ms := Pick(fates, WrittenOn(c), MessageOf);
    PickedFit(fates, |fates|, c);
    if |Encode(m)| <= room {
      EncodeAllAppend(ms, m);
      RoundTrip(ms + [m]);
    } else {
      DecodeAfterEncode(ms, Encode(m)[..room]);
      PartialFrame(m, room);
    }
  }

  lemma FatesFit(s: Forwarder)
    requires Conserved(s)
    ensures forall f | f in s.fates :: Fits(f.msg)
  {
    forall f | f in s.fates ensures Fits(f.msg) {
      var i :| 0 <= i < |s.fates| && s.fates[i] == f;
      assert s.arrived[i] == f.msg && f.msg in s.arrived;
    }
  }

  /** What writing the head of the queue does, and the fate of that message. */
  function WriteHead(s: Forwarder, room: nat): Fate
    requires s.state.Connected? && s.queue != []
  {
    if |Encode(s.queue[0])| <= room then Written(s.queue[0], s.state.conn) else Lost(s.queue[0], s.state.conn)
  }

  lemma WriteConserves(s: Forwarder, f: Fate)
    requires Conserved(s) && s.queue != [] && f.msg == s.queue[0]
    ensures s.arrived == Map(MessageOf, s.fates + [f]) + s.queue[1..] && Fits(f.msg)
  {
    assert s.queue == [f.msg] + s.queue[1..];
    assert f.msg in s.arrived;
    MapConcat(MessageOf, s.fates, [f]);
    assert Map(MessageOf, [f]) == [f.msg];
  }

  lemma WritePeers(s: Forwarder, room: nat, c: nat)
    requires Ok(s) && s.state.Connected? && s.queue != [] && c < |s.wires|
    ensures c == s.state.conn ==>
      var wire := s.wires[c] + Accepted(s.queue[0], room);
      var ms := Pick(s.fates + [WriteHead(s, room)], WrittenOn(c), MessageOf);
      && DecodeAll(wire) == ms
      && (WriteHead(s, room).Written? ==> wire == EncodeAll(ms))
    ensures c != s.state.conn ==>
      DecodeAll(s.wires[c]) == Pick(s.fates + [WriteHead(s, room)], WrittenOn(c), MessageOf)
  {
    assert PeerGets(s, c);
    PickAppend(s.fates, WriteHead(s, room), WrittenOn(c), MessageOf);
    if c == s.state.conn {
      FatesFit(s);
      WriteConserves(s, WriteHead(s, room));
      WriteBytes(s.fates, c, s.queue[0], room);
    }
  }

  lemma WriteOk(s: Forwarder, room: nat, eaten: nat)
    requires Ok(s) && s.running && s.state.Connected? && s.queue != []
    requires CanAbandon(0, s.ins[s.state.conn].unread, eaten)
    ensures Ok(OnWrite(s, room, eaten))
  {
    var s', f, c := OnWrite(s, room, eaten), WriteHead(s, room), s.state.conn;
    WriteConserves(s, f);
    assert s'.fates == s.fates + [f] && s'.wires == s.wires[c := s.wires[c] + Accepted(f.msg, room)];
    forall k | 0 <= k < |s'.wires| ensures PeerGets(s', k) {
      WritePeers(s, room, k);
    }
    WritePeers(s, room, c);
    WriteLossIsLast(s, f);
  }

  lemma WriteLossIsLast(s: Forwarder, f: Fate)
    requires Ok(s) && s.state.Connected? && f.conn == s.state.conn
    ensures LossIsLast(s.fates + [f])
  {
    forall i | 0 <= i < |s.fates| ensures s.fates[i].conn <= f.conn && (s.fates[i].Lost? ==> s.fates[i].conn < f.conn) {
      assert s.fates[i] in s.fates;
    }
  }

  lemma QueueOk(s: Forwarder, s': Forwarder)
    requires Ok(s) && Conserved(s') && s'.fates == s.fates && s'.wires == s.wires && |s'.ins| == |s.ins|
    requires s'.running <==> s'.state != Invalid
    requires s'.state == Connecting ==> s'.queue != []
    requires s'.state.Connected? ==> s'.state == s.state
    ensures Ok(s')
  {
    forall c | 0 <= c < |s'.wires| ensures PeerGets(s', c) {
      assert PeerGets(s, c);
    }
  }

  lemma OutsideOk(s: Forwarder, i: Input)
    requires Ok(s) && FromOutside(i)
    ensures Ok(Outside(s, i))
  {
    if i.Arrive? {
      Regroup(Map(MessageOf, s.fates), s.queue, [i.msg]);
    }
    assert Conserved(Outside(s, i));
    QueueOk(s, Outside(s, i));
  }

  lemma ConnectedOk(s: Forwarder, i: Input)
    requires Ok(s) && s.running && s.state.Connected? && !FromOutside(i)
    ensures Ok(OnConnected(s, i))
  {
    if i.FromNet? {
      if CanComplete(s.ins[s.state.conn]) {
        ReadOk(s, i.sendOk);
      }
    } else if i.FromBridge? && s.queue != [] {
      if CanAbandon(0, s.ins[s.state.conn].unread, i.eaten) {
        WriteOk(s, i.room, i.eaten);
      }
    } else {
      QueueOk(s, OnConnected(s, i));
    }
  }

  lemma ReadOk(s: Forwarder, sendOk: bool)
    requires Ok(s) && s.running && s.state.Connected? && CanComplete(s.ins[s.state.conn])
    ensures Ok(OnRead(s, sendOk))
  {
    var s' := OnRead(s, sendOk);
    assert s'.arrived == s.arrived && s'.fates == s.fates && s'.queue == s.queue && s'.wires == s.wires;
    QueueOk(s, s');
  }

  lemma NextOk(s: Forwarder, i: Input)
    requires Ok(s)
    ensures Ok(Next(s, i))
  {
    if FromOutside(i) {
      OutsideOk(s, i);
    } else if s.running && s.state == Connecting && i.ConnectionMade? {
      ConnectOk(s);
    } else if s.running && s.state.Connected? {
      ConnectedOk(s, i);
    } else {
      QueueOk(s, Next(s, i));
    }
  }

  /** In every run: first in first out, each message written whole to one connection or lost to a failed write, the
      peers decode just what was written, no connection attempt without a message pending, and the loop never finds
      the placeholder state. */
  lemma {:induction false} RunOk(inputs: seq<Input>, k: nat)
    requires k <= |inputs|
    ensures Ok(Run(inputs, k))
  {
    if k > 0 {
      RunOk(inputs, k - 1);
      NextOk(Run(inputs, k - 1), inputs[k - 1]);
    }
  }

  function IsLost(f: Fate): bool {
    f.Lost?
  }

  ghost function WriteErrors(inputs: seq<Input>, k: nat): nat
    requires k <= |inputs|
  {
    if k == 0 then 0 else
      var before, after := Run(inputs, k - 1), Run(inputs, k);
      WriteErrors(inputs, k - 1)
      + if inputs[k - 1].FromBridge? && before.state.Connected? && after.state == Waiting then 1 else 0
  }

  /** Messages are lost only by write errors, one each. */
  lemma {:induction false} OneLossPerWriteError(inputs: seq<Input>, k: nat)
    requires k <= |inputs|
    ensures Count(Run(inputs, k).fates, IsLost) == WriteErrors(inputs, k)
  {
    if k > 0 {
      OneLossPerWriteError(inputs, k - 1);
      RunOk(inputs, k - 1);
      LossOfStep(Run(inputs, k - 1), inputs[k - 1]);
    }
  }

  lemma LossOfStep(s: Forwarder, i: Input)
    requires Ok(s)
    ensures Count(Next(s, i).fates, IsLost) == Count(s.fates, IsLost)
         + if i.FromBridge? && s.state.Connected? && Next(s, i).state == Waiting then 1 else 0
  {
    var s' := Next(s, i);
    if s'.fates != s.fates {
      var f := s'.fates[|s.fates|];
      assert s'.fates == s.fates + [f];
      CountConcat(s.fates, [f], IsLost);
      CountOne(f, IsLost);
    }
  }

  // ---- When the loop stops, and what it does otherwise ----

  /** A shutdown, the bridge's closed queue found empty, or a message read that the bridge no longer takes. */
  ghost predicate Ends(s: Forwarder, i: Input) {
    || i == Shutdown
    || (s.queue == [] && s.closed && ((s.state == Waiting && i == Peeked) || (s.state.Connected? && i.FromBridge?)))
    || (s.state.Connected? && i == FromNet(false) && s.ins != [] && Report(s.ins[|s.ins| - 1]).Received?)
  }

  lemma NextStopsIff(s: Forwarder, i: Input)
    requires Ok(s) && s.running
    ensures !Next(s, i).running <==> Ends(s, i)
  {
  }

  lemma StoppedStays(s: Forwarder, i: Input)
    requires !s.running
    ensures !Next(s, i).running
  {
  }

  /** In every run the loop has stopped exactly if one of these was seen while it ran; no closed peer, failed write or
      error of a connection ever stops it. */
  lemma {:induction false} StoppedIff(inputs: seq<Input>, k: nat)
    requires k <= |inputs|
    ensures !Run(inputs, k).running <==> StopsBefore(inputs, k)
  {
    if k > 0 {
      StoppedIff(inputs, k - 1);
      StopsNext(inputs, k - 1);
      StopsSplits(inputs, k - 1);
    }
  }

  ghost predicate StopsAt(inputs: seq<Input>, j: nat)
    requires j < |inputs|
  {
    Run(inputs, j).running && Ends(Run(inputs, j), inputs[j])
  }

  ghost predicate StopsBefore(inputs: seq<Input>, k: nat)
    requires k <= |inputs|
  {
    exists j: nat {:trigger StopsAt(inputs, j)} :: j < k && StopsAt(inputs, j)
  }

  lemma StopsSplits(inputs: seq<Input>, k: nat)
    requires k < |inputs|
    ensures StopsBefore(inputs, k + 1) <==> StopsBefore(inputs, k) || StopsAt(inputs, k)
  {
  }

  lemma StopsNext(inputs: seq<Input>, k: nat)
    requires k < |inputs|
    ensures !Run(inputs, k + 1).running <==> !Run(inputs, k).running || StopsAt(inputs, k)
  {
    RunOk(inputs, k);
    if Run(inputs, k).running {
      NextStopsIff(Run(inputs, k), inputs[k]);
    } else {
      StoppedStays(Run(inputs, k), inputs[k]);
    }
  }

  /** What gives a connection up: an error, a read that comes to its end without a message, a write that fails. */
  ghost predicate GivesUp(s: Forwarder, i: Input) {
    && s.state.Connected? && s.ins != []
    && (|| i == NetFails
        || (i.FromNet? && CanComplete(s.ins[|s.ins| - 1]) && !Report(s.ins[|s.ins| - 1]).Received?)
        || (i.FromBridge? && s.queue != [] && CanAbandon(0, s.ins[|s.ins| - 1].unread, i.eaten)
            && i.room < |Encode(s.queue[0])|))
  }

  /** A loop that does not stop connects exactly when there is something to send, and is connected until it gives the
      connection up; then it waits for something to send. */
  lemma StateAfter(s: Forwarder, i: Input)
    requires Ok(s) && s.running && !Ends(s, i)
    ensures var s' := Next(s, i);
      && s'.running
      && (s'.state == Connecting <==> if s.state == Waiting then i == Peeked && s.queue != []
                                      else s.state == Connecting && i != ConnectionMade)
      && (s'.state.Connected? <==> if s.state == Connecting then i == ConnectionMade
                                   else s.state.Connected? && !GivesUp(s, i))
      && (s'.state.Connected? && s.state.Connected? ==> s'.state == s.state)
  {
  }

  /** A connection lost while reading costs no request: all that is queued waits for the next one. */
  lemma GivingUpKeepsQueue(s: Forwarder, i: Input)
    requires Ok(s) && s.running && !Ends(s, i) && GivesUp(s, i) && !i.FromBridge?
    ensures var s' := Next(s, i);
      s'.running && s'.state == Waiting && s'.queue == s.queue && s'.fates == s.fates && s'.wires == s.wires
  {
  }

  /** A read waits for the rest of a message as long as the peer may send it. */
  lemma IncompleteReadWaits(s: Forwarder, sendOk: bool)
    requires Ok(s) && s.running && s.state.Connected?
    requires Beginning(s.ins[|s.ins| - 1].unread) && !s.ins[|s.ins| - 1].ended
    ensures Next(s, FromNet(sendOk)) == s
  {
    BeginningEnds(s.ins[|s.ins| - 1].unread);
  }

  /** A peer that closes in the middle of a message, or between two, is noticed by the next read. */
  lemma ClosedPeerIsLeft(s: Forwarder, sendOk: bool)
    requires Ok(s) && s.running && s.state.Connected? && Beginning(s.ins[|s.ins| - 1].unread)
    ensures var s' := Next(Next(s, PeerCloses), FromNet(sendOk));
      s'.running && s'.state == Waiting && s'.queue == s.queue && s'.toBridge == s.toBridge
  {
    BeginningEnds(s.ins[|s.ins| - 1].unread);
  }

  /** A request taken from the queue goes to the connection, as far as the connection takes it. */
  lemma RequestIsSent(s: Forwarder, room: nat, eaten: nat)
    requires Ok(s) && s.running && s.state.Connected? && s.queue != []
    requires CanAbandon(0, s.ins[|s.ins| - 1].unread, eaten)
    ensures var s', m, c := Next(s, FromBridge(room, eaten)), s.queue[0], |s.wires| - 1;
      && s'.queue == s.queue[1..] && |s'.wires| == |s.wires|
      && s'.wires[c] == s.wires[c] + (if |m| + 2 <= room then Encode(m) else Encode(m)[..room])
      && s'.fates == s.fates + [if |m| + 2 <= room then Written(m, c) else Lost(m, c)]
  {
  }

  lemma WaitingConnects(s: Forwarder)
    requires Ok(s) && s.running && s.state == Waiting && s.queue != []
    ensures var s' := Next(Next(s, Peeked), ConnectionMade);
      && s' == s.(state := Connected(|s.wires|), wires := s.wires + [[]], ins := s.ins + [FRESH])
      && Ok(s')
  {
    NextOk(s, Peeked);
    assert Next(s, Peeked) == s.(state := Connecting);
    NextOk(Next(s, Peeked), ConnectionMade);
  }

  /** Whenever the loop waits with a request queued, three turns are enough to bring it to its peer. */
  lemma WaitingSends(s: Forwarder, room: nat)
    requires Ok(s) && s.running && s.state == Waiting && s.queue != [] && |s.queue[0]| + 2 <= room
    ensures var s' := Next(Next(Next(s, Peeked), ConnectionMade), FromBridge(room, 0));
      && s'.running && s'.state == Connected(|s.wires|) && s'.queue == s.queue[1..]
      && |s'.wires| == |s.wires| + 1 && DecodeAll(s'.wires[|s.wires|]) == [s.queue[0]]
  {
    var s2 := Next(Next(s, Peeked), ConnectionMade);
    WaitingConnects(s);
    RequestIsSent(s2, room, 0);
    StateAfter(s2, FromBridge(room, 0));
    HeadDecodes(s.queue[0], s);
  }

  lemma HeadDecodes(m: Message, s: Forwarder)
    requires Ok(s) && s.queue != [] && m == s.queue[0]
    ensures DecodeAll([] + Encode(m)) == [m]
  {
    assert m in s.arrived;
    assert [] + Encode(m) == Encode(m);
    RoundTripExactlyWhenFits(m);
  }

  /** A whole reply at hand goes to the bridge, and the next read starts behind it. */
  lemma ReplyIsHandedOn(s: Forwarder, m: Message, tail: seq<byte>)
    requires Ok(s) && s.running && s.state.Connected? && Fits(m) && s.ins[|s.ins| - 1].unread == Encode(m) + tail
    ensures var s' := Next(s, FromNet(true));
      && s'.running && s'.state == s.state && s'.toBridge == s.toBridge + [m]
      && |s'.ins| == |s.ins| && s'.ins[|s.ins| - 1].unread == tail
  {
    ReadEncoded(m, tail);
  }

  lemma ClosedNext(s: Forwarder, i: Input)
    ensures Next(s, i).closed <==> s.closed || i == Close
  {
  }

  function IsClose(i: Input): bool {
    i == Close
  }

  /** The queue is closed once the bridge has gone away, and only then. */
  lemma {:induction false} ClosedIff(inputs: seq<Input>, k: nat)
    requires k <= |inputs|
    ensures Run(inputs, k).closed <==> CountIn(inputs, k, IsClose) > 0
  {
    if k > 0 {
      ClosedIff(inputs, k - 1);
      ClosedNext(Run(inputs, k - 1), inputs[k - 1]);
    }
  }

  /** What the bridge sends is queued until it has gone away. */
  lemma ArrivalIsQueued(s: Forwarder, m: Message)
    requires !s.closed && Fits(m)
    ensures Next(s, Arrive(m)).queue == s.queue + [m] && Next(s, Arrive(m)).arrived == s.arrived + [m]
  {
  }

  // ---- What comes back from the peers ----

  function HandedBy(i: Inbound): seq<Message> {
    i.handed
  }

  /** The bridge was handed what the connections brought, one connection after the other; each connection that was never
      cut after a byte brought the first messages its peer sent. */
  ghost predicate InsOk(s: Forwarder) {
    && s.toBridge == Collect(s.ins, |s.ins|, HandedBy)
    && (forall c | 0 <= c < |s.ins| && s.ins[c].intact :: Follows(s.ins[c]))
    && (s.state.Connected? ==> 0 < |s.ins| && (s.ins[|s.ins| - 1].intact ==> InStep(s.ins[|s.ins| - 1])))
  }

  /** Only the newest connection changes. */
  lemma LastChanges(ins: seq<Inbound>, i: Inbound, more: seq<Message>)
    requires ins != [] && i.handed == ins[|ins| - 1].handed + more
    ensures Collect(ins[|ins| - 1 := i], |ins|, HandedBy) == Collect(ins, |ins|, HandedBy) + more
  {
    var n := |ins| - 1;
    CollectUpdate(ins, n, i, n, HandedBy);
    Regroup(Collect(ins, n, HandedBy), ins[n].handed, more);
  }

  lemma LastOk(s: Forwarder, s': Forwarder, i: Inbound, more: seq<Message>)
    requires InsOk(s) && s.state.Connected?
    requires s'.ins == s.ins[|s.ins| - 1 := i] && s'.toBridge == s.toBridge + more
    requires i.handed == s.ins[|s.ins| - 1].handed + more
    requires i.intact ==> Follows(i) && (s'.state.Connected? ==> InStep(i))
    ensures InsOk(s')
  {
    LastChanges(s.ins, i, more);
  }

  lemma NewConnectionInsOk(s: Forwarder)
    requires InsOk(s)
    ensures InsOk(OnConnecting(s, ConnectionMade))
  {
    CollectAppend(s.ins, FRESH, HandedBy);
    FreshInStep();
  }

  lemma PeerInsOk(s: Forwarder, i: Input, after: Inbound)
    requires Ok(s) && InsOk(s) && s.state.Connected? && (i.PeerSends? || i.PeerCloses?)
    requires var before := s.ins[|s.ins| - 1];
      after == if i.PeerSends? then Arrives(before, i.data) else before.(ended := true)
    ensures InsOk(Outside(s, i))
  {
    var before := s.ins[|s.ins| - 1];
    if before.intact {
      if i.PeerSends? {
        ArrivesInStep(before, i.data);
      }
      InStepFollows(after);
    }
    assert s.toBridge + [] == s.toBridge && before.handed + [] == before.handed;
    LastOk(s, Outside(s, i), after, []);
  }

  lemma OutsideInsOk(s: Forwarder, i: Input)
    requires Ok(s) && InsOk(s) && FromOutside(i)
    ensures InsOk(Outside(s, i))
  {
    if s.state.Connected? && i.PeerSends? {
      PeerInsOk(s, i, Arrives(s.ins[|s.ins| - 1], i.data));
    } else if s.state.Connected? && i.PeerCloses? {
      PeerInsOk(s, i, s.ins[|s.ins| - 1].(ended := true));
    }
  }

  lemma ReadInsOk(s: Forwarder, sendOk: bool)
    requires Ok(s) && InsOk(s) && s.state.Connected? && CanComplete(s.ins[s.state.conn])
    ensures InsOk(OnRead(s, sendOk))
  {
    var before := s.ins[|s.ins| - 1];
    var after := ReadNext(before, sendOk);
    var more := if Report(before).Received? && sendOk then [Report(before).msg] else [];
    if before.intact && more != [] {
      ReadInStep(before);
      InStepFollows(after);
    }
    assert more == [] ==> after.handed == before.handed && s.toBridge + more == s.toBridge;
    LastOk(s, OnRead(s, sendOk), after, more);
  }

  lemma WriteInsOk(s: Forwarder, room: nat, eaten: nat)
    requires Ok(s) && InsOk(s) && s.state.Connected? && s.queue != []
    requires CanAbandon(0, s.ins[s.state.conn].unread, eaten)
    ensures InsOk(OnWrite(s, room, eaten))
  {
    var before := s.ins[|s.ins| - 1];
    if before.intact && eaten == 0 {
      CutInStep(before);
    }
    assert s.toBridge + [] == s.toBridge && before.handed + [] == before.handed;
    LastOk(s, OnWrite(s, room, eaten), CutAfter(before, eaten), []);
  }

  lemma NextInsOk(s: Forwarder, i: Input)
    requires Ok(s) && InsOk(s)
    ensures InsOk(Next(s, i))
  {
    if FromOutside(i) {
      OutsideInsOk(s, i);
    } else if s.running && s.state == Connecting && i.ConnectionMade? {
      NewConnectionInsOk(s);
    } else if s.running && s.state.Connected? && i.FromNet? && CanComplete(s.ins[s.state.conn]) {
      ReadInsOk(s, i.sendOk);
    } else if s.running && s.state.Connected? && i.FromBridge? && s.queue != []
           && CanAbandon(0, s.ins[s.state.conn].unread, i.eaten) {
      WriteInsOk(s, i.room, i.eaten);
    }
  }

  /** In every run the bridge is handed, connection by connection, the first messages of each peer, as long as no
      iteration on that connection was cut after a byte. */
  lemma {:induction false} RunInsOk(inputs: seq<Input>, k: nat)
    requires k <= |inputs|
    ensures InsOk(Run(inputs, k))
  {
    if k > 0 {
      assert InsOk(Next(Run(inputs, k - 1), inputs[k - 1])) by {
        RunOk(inputs, k - 1);
        RunInsOk(inputs, k - 1);
        NextInsOk(Run(inputs, k - 1), inputs[k - 1]);
      }
    }
  }

  /** No request comes when the reader has consumed more than `limit` bytes of the current read. */
  ghost predicate CutsAtMost(inputs: seq<Input>, limit: nat) {
    forall k | 0 <= k < |inputs| && inputs[k].FromBridge? :: inputs[k].eaten <= limit
  }

  ghost predicate HandsOnInOrder(s: Forwarder) {
    forall c | 0 <= c < |s.ins| :: Follows(s.ins[c])
  }

  ghost predicate AllIntact(s: Forwarder) {
    forall c | 0 <= c < |s.ins| :: s.ins[c].intact
  }

  lemma NextIntact(s: Forwarder, i: Input)
    requires AllIntact(s) && (i.FromBridge? ==> i.eaten == 0)
    ensures AllIntact(Next(s, i))
  {
  }

  lemma {:induction false} NeverCutIsIntact(inputs: seq<Input>, k: nat)
    requires k <= |inputs| && CutsAtMost(inputs, 0)
    ensures AllIntact(Run(inputs, k))
  {
    if k > 0 {
      NeverCutIsIntact(inputs, k - 1);
      NextIntact(Run(inputs, k - 1), inputs[k - 1]);
    }
  }

  /** Exactly when every run hands on, for every connection, only the first messages the peer sent: when no request may
      come after a byte of a reply. */
  lemma HandsOnInOrderIff(limit: nat)
    ensures (forall inputs | CutsAtMost(inputs, limit) :: HandsOnInOrder(Run(inputs, |inputs|))) <==> limit == 0
  {
    if limit == 0 {
      forall inputs | CutsAtMost(inputs, limit) ensures HandsOnInOrder(Run(inputs, |inputs|)) {
        RunInsOk(inputs, |inputs|);
        NeverCutIsIntact(inputs, |inputs|);
      }
    } else {
      CutRunMisreads(1);
      MisreadRunCuts(1);
      assert CutsAtMost(MisreadRun(1), limit);
    }
  }

  /** A request goes out and the first part of its reply arrives and is read; another request comes, and then the rest
      arrives. */
  function CutRun(first: seq<byte>, rest: seq<byte>): (inputs: seq<Input>)
    ensures |inputs| == 9
  {
    [Arrive([0, 0]), Peeked, ConnectionMade, FromBridge(4, 0), PeerSends(first), Arrive([0, 0]),
     FromBridge(4, |first|), PeerSends(rest), FromNet(true)]
  }

  /** The one connection is up. */
  ghost predicate Up(s: Forwarder, queue: seq<Message>, i: Inbound, toBridge: seq<Message>) {
    && s.running && !s.closed && s.state == Connected(0) && |s.wires| == 1
    && s.queue == queue && s.ins == [i] && s.toBridge == toBridge
  }

  lemma UpWrites(s: Forwarder, m: Message, i: Inbound, eaten: nat)
    requires Up(s, [m], i, []) && |m| == 2 && CanAbandon(0, i.unread, eaten)
    ensures Up(Next(s, FromBridge(4, eaten)), [], CutAfter(i, eaten), [])
  {
  }

  lemma UpReads(s: Forwarder, i: Inbound, m: Message)
    requires Up(s, [], i, []) && Report(i) == Received(m)
    ensures Up(Next(s, FromNet(true)), [], ReadNext(i, true), [m])
  {
  }

  lemma CutRunCutsAtMost(first: seq<byte>, rest: seq<byte>)
    ensures CutsAtMost(CutRun(first, rest), |first|)
  {
    var inputs := CutRun(first, rest);
    forall k | 0 <= k < |inputs| && inputs[k].FromBridge? ensures inputs[k].eaten <= |first| {
      assert k == 3 || k == 6;
    }
  }

  lemma CutRunConnects(first: seq<byte>, rest: seq<byte>)
    ensures Up(Run(CutRun(first, rest), 3), [[0, 0]], FRESH, [])
  {
    var inputs := CutRun(first, rest);
    assert Run(inputs, 0) == INITIAL;
    assert Run(inputs, 1) == Next(INITIAL, inputs[0]);
    assert Run(inputs, 2) == Next(Run(inputs, 1), inputs[1]);
    assert Run(inputs, 3) == Next(Run(inputs, 2), inputs[2]);
  }

  lemma CutRunSends(first: seq<byte>, rest: seq<byte>)
    ensures Up(Run(CutRun(first, rest), 6), [[0, 0]], Inbound(first, first, false, [], true), [])
  {
    var inputs := CutRun(first, rest);
    var s3, s4, s5 := Run(inputs, 3), Run(inputs, 4), Run(inputs, 5);
    CutRunConnects(first, rest);
    UpWrites(s3, [0, 0], FRESH, 0);
    assert [] + first == first;
    assert s4 == Next(s3, inputs[3]) && s5 == Next(s4, inputs[4]);
    assert Run(inputs, 6) == Next(s5, inputs[5]);
  }

  lemma CutRunCuts(first: seq<byte>, rest: seq<byte>)
    requires first != [] && CanAbandon(0, first, |first|)
    ensures Up(Run(CutRun(first, rest), 8), [], Inbound(first + rest, rest, false, [], false), [])
  {
    var inputs := CutRun(first, rest);
    var s6, s7 := Run(inputs, 6), Run(inputs, 7);
    CutRunSends(first, rest);
    var i6 := Inbound(first, first, false, [], true);
    UpWrites(s6, [0, 0], i6, |first|);
    assert CutAfter(i6, |first|) == Inbound(first, [], false, [], false);
    assert [] + rest == rest;
    assert s7 == Next(s6, inputs[6]) && Run(inputs, 8) == Next(s7, inputs[7]);
  }

  lemma CutRunReads(first: seq<byte>, rest: seq<byte>, m: Message)
    requires first != [] && CanAbandon(0, first, |first|) && ReadOne(0, rest).outcome == Received(m)
    ensures var s := Run(CutRun(first, rest), 9);
      s.toBridge == [m] && |s.ins| == 1 && s.ins[0].received == first + rest && s.ins[0].handed == [m]
  {
    var inputs := CutRun(first, rest);
    CutRunCuts(first, rest);
    UpReads(Run(inputs, 8), Inbound(first + rest, rest, false, [], false), m);
    assert Run(inputs, 9) == Next(Run(inputs, 8), inputs[8]);
  }

  /** The run in which a request comes when `c` bytes of the reply have been read: just after its prefix, or half way
      through it. */
  function MisreadRun(c: nat): (inputs: seq<Input>)
    requires c == 1 || c == 2
    ensures |inputs| == 9
  {
    CutRun(Encode(Misread(c))[..c], Encode(Misread(c))[c..])
  }

  lemma MisreadRunCuts(c: nat)
    requires c == 1 || c == 2
    ensures CutsAtMost(MisreadRun(c), c)
  {
    var first, rest := Encode(Misread(c))[..c], Encode(Misread(c))[c..];
    CutRunCutsAtMost(first, rest);
  }

  /** There the forwarder hands the bridge a message the peer never sent. */
  lemma CutRunMisreads(c: nat)
    requires c == 1 || c == 2
    ensures var s := Run(MisreadRun(c), 9);
      s.toBridge == [[0, 0]] && |s.ins| == 1 && DecodeAll(s.ins[0].received) == [Misread(c)] && !HandsOnInOrder(s)
  {
    var first, rest := Encode(Misread(c))[..c], Encode(Misread(c))[c..];
    MisreadIsRead(c);
    CutRunReads(first, rest, [0, 0]);
    assert first + rest == Encode(Misread(c));
    MisreadBreaks(Run(MisreadRun(c), 9), [0, 0], Misread(c));
  }

  lemma MisreadBreaks(s: Forwarder, handed: Message, sent: Message)
    requires |s.ins| == 1 && s.ins[0].handed == [handed] && DecodeAll(s.ins[0].received) == [sent] && handed != sent
    ensures !HandsOnInOrder(s)
  {
    assert !([handed] <= [sent]) by {
      assert [handed][0] != [sent][0];
    }
    assert !Follows(s.ins[0]);
  }

  // ---- The loop ----

  class Task {
    var running: bool
    var connectState: State
    var fromBridge: seq<Message>
    var closed: bool
    var wires: seq<seq<byte>>
    var ins: seq<Inbound>
    var toBridge: seq<Message>
    ghost var arrived: seq<Message>
    ghost var fates: seq<Fate>

    ghost function View(): Forwarder reads this {
      Forwarder(running, connectState, fromBridge, closed, wires, ins, toBridge, arrived, fates)
    }

    ghost predicate Valid() reads this {
      Ok(View()) && InsOk(View())
    }

    constructor ()
      ensures Valid() && View() == INITIAL
    {
      running, connectState, fromBridge, closed, wires, ins, toBridge := true, Waiting, [], false, [], [], [];
      arrived, fates := [], [];
    }

    /** What the bridge and the peer do meanwhile. */
    method Meanwhile(i: Input)
      requires Valid() && FromOutside(i)
      modifies this`fromBridge, this`closed, this`ins, this`arrived
      ensures Valid() && View() == Next(old(View()), i)
    {
      NextOk(View(), i);
      NextInsOk(View(), i);
      match i {
        case Arrive(m) =>
          if !closed && Fits(m) {
            fromBridge, arrived := fromBridge + [m], arrived + [m];
          }
        case Close => closed := true;
        case PeerSends(data) =>
          if connectState.Connected? {
            var c := connectState.conn;
            ins := ins[c := Arrives(ins[c], data)];
          }
        case PeerCloses =>
          if connectState.Connected? {
            var c := connectState.conn;
            ins := ins[c := ins[c].(ended := true)];
          }
      }
    }

    /** send_dns_message on the current connection. */
    method SendDns(c: nat, m: Message, room: nat) returns (ok: bool)
      requires c < |wires|
      modifies this`wires
      ensures ok <==> |Encode(m)| <= room
      ensures wires == old(wires)[c := old(wires)[c] + Accepted(m, room)]
    {
      var s := new ByteStream();
      ok := SendDnsMessage(s, m, room);
      var sent := s.Drain();
      assert sent == [] + Accepted(m, room) == Accepted(m, room);
      wires := wires[c := wires[c] + sent];
    }

    method WhileWaiting(i: Input)
      requires running && connectState == Invalid
      modifies this`running, this`connectState
      ensures View() == old(OnWaiting(View().(state := Waiting), i))
    {
      if i.Shutdown? || (i.Peeked? && fromBridge == [] && closed) {
        running := false;
      } else if i.Peeked? && fromBridge != [] {
        connectState := Connecting;
      } else {
        connectState := Waiting;
      }
    }

    method WhileConnecting(i: Input)
      requires running && connectState == Invalid
      modifies this`running, this`connectState, this`wires, this`ins
      ensures View() == old(OnConnecting(View().(state := Connecting), i))
    {
      if i.Shutdown? {
        running := false;
      } else if i.ConnectionMade? {
        connectState, wires, ins := Connected(|wires|), wires + [[]], ins + [FRESH];
      } else {
        connectState := Connecting;
      }
    }

    /** A new reader reads one message from the current connection. */
    method ReadDns(c: nat, sendOk: bool) returns (r: Outcome)
      requires c < |ins|
      modifies this`ins
      ensures r == Report(old(ins)[c]) && ins == old(ins)[c := ReadNext(old(ins)[c], sendOk)]
    {
      var stream := new ByteStream();
      var _ := stream.WriteAll(ins[c].unread, |ins[c].unread|);
      assert stream.Unread() == [] + ins[c].unread == ins[c].unread;
      var reader := new DNSMessageReader();
      r := reader.Read(stream);
      var rest := stream.Drain();
      var handed := if r.Received? && sendOk then ins[c].handed + [r.msg] else ins[c].handed;
      assert handed == ReadNext(ins[c], sendOk).handed;
      ins := ins[c := ins[c].(unread := rest, handed := handed)];
    }

    method WhileConnected(c: nat, i: Input)
      requires running && connectState == Invalid && c < |wires| == |ins|
      modifies this
      ensures View() == old(OnConnected(View().(state := Connected(c)), i))
    {
      match i {
        case Shutdown => running := false;
        case NetFails => connectState := Waiting;
        case FromNet(sendOk) => Receive(c, sendOk);
        case FromBridge(room, eaten) =>
          if fromBridge != [] {
            if CanAbandon(0, ins[c].unread, eaten) {
              Send(c, room, eaten);
            } else {
              connectState := Connected(c);
            }
          } else if closed {
            running := false;
          } else {
            connectState := Connected(c);
          }
        case _ => connectState := Connected(c);
      }
    }

    method Receive(c: nat, sendOk: bool)
      requires running && connectState == Invalid && c < |wires| == |ins|
      modifies this`running, this`connectState, this`ins, this`toBridge
      ensures View() == old(OnConnected(View().(state := Connected(c)), FromNet(sendOk)))
    {
      if !CanComplete(ins[c]) {
        connectState := Connected(c);
        return;
      }
      var outcome := ReadDns(c, sendOk);
      if !outcome.Received? {
        connectState := Waiting;
      } else if sendOk {
        toBridge := toBridge + [outcome.msg];
        connectState := Connected(c);
      } else {
        running := false;
      }
    }

    /** The reader of this iteration is dropped with the bytes it has consumed. */
    method Send(c: nat, room: nat, eaten: nat)
      requires running && connectState == Invalid && c < |wires| == |ins| && fromBridge != []
      requires CanAbandon(0, ins[c].unread, eaten)
      modifies this`connectState, this`fromBridge, this`wires, this`ins, this`fates
      ensures View() == old(OnWrite(View().(state := Connected(c)), room, eaten))
    {
      ins := ins[c := CutAfter(ins[c], eaten)];
      var m := fromBridge[0];
      fromBridge := fromBridge[1..];
      var ok := SendDns(c, m, room);
      fates := fates + [if ok then Written(m, c) else Lost(m, c)];
      connectState := if ok then Connected(c) else Waiting;
    }

    /** One iteration: the state is taken out, and every branch that goes on puts one back. */
    method Iterate(i: Input)
      requires Valid() && running && !FromOutside(i)
      modifies this
      ensures Valid() && View() == Next(old(View()), i)
    {
      NextOk(View(), i);
      NextInsOk(View(), i);
      ghost var before := View();
      var state := connectState;
      connectState := Invalid;
      assert View().(state := state) == before;
      match state
      case Waiting => WhileWaiting(i);
      case Connecting => WhileConnecting(i);
      case Connected(c) => WhileConnected(c, i);
    }
  }
}
