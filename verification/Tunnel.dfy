/** A tunnelled TCP connection: each direction goes through two relays, one on the sidecar and one on the agent, and
    each host stops both its relays as soon as one of them has ended. This is the specification the relays are proved
    against, and what every run of it keeps and loses. */
module Tunnel {
  import opened Codec

  const BUFFER_SIZE := 4096

  datatype Ended = StillOpen | StreamClosed | WriteFailed | ReadFailed | ShutDown

  /** What the select finds; `room` is how much the writer takes before it fails. */
  datatype Event = Readable(room: nat) | ReadError | Stop

  // ---- One relay ----

  /** What a relay can read, what it has written, and what it lost to a failed write. */
  datatype Hop = Hop(input: seq<byte>, output: seq<byte>, lost: seq<byte>, ended: Ended)

  /** How many bytes a read takes, when `len` are at hand in one piece. */
  function Chunk(input: seq<byte>, len: nat): (n: nat)
    ensures n <= |input| && n <= BUFFER_SIZE && (n == 0 <==> input == [])
  {
    if input == [] then 0 else if 0 < len <= BUFFER_SIZE && len <= |input| then len else 1
  }

  function HopNext(h: Hop, e: Event, len: nat): Hop {
    match e
    case Stop => h.(ended := ShutDown)
    case ReadError => h.(ended := ReadFailed)
    case Readable(room) =>
      var n := Chunk(h.input, len);
      if n == 0 then h.(ended := StreamClosed)
      else if n <= room then h.(input := h.input[n..], output := h.output + h.input[..n])
      else
        var data := h.input[..n];
        Hop(h.input[n..], h.output + data[..room], data[room..], WriteFailed)
  }

  /** Only a failed write loses bytes that were read. */
  predicate HopOk(h: Hop) {
    h.lost != [] <==> h.ended == WriteFailed
  }

  /** What is read is written, except for what a failed write loses; then at most one buffer is read. */
  lemma HopMoves(h: Hop, e: Event, len: nat) returns (moved: seq<byte>)
    requires HopOk(h) && h.ended == StillOpen
    ensures var h' := HopNext(h, e, len);
      && HopOk(h') && h'.output == h.output + moved && h.input == moved + (h'.lost + h'.input)
      && |moved| + |h'.lost| <= BUFFER_SIZE
      && (e == Stop <==> h'.ended == ShutDown) && (e == ReadError <==> h'.ended == ReadFailed)
      && (h'.ended == StillOpen ==> moved != []) && (!e.Readable? ==> moved == [])
      && (h'.ended == StreamClosed <==> e.Readable? && h.input == [])
  {
    var h' := HopNext(h, e, len);
    moved := [];
    if e.Readable? && h.input != [] {
      var n := Chunk(h.input, len);
      var data := h.input[..n];
      moved := if n <= e.room then data else data[..e.room];
      assert data + h.input[n..] == h.input;
      if n > e.room {
        assert data == data[..e.room] + data[e.room..];
        Regroup(data[..e.room], data[e.room..], h.input[n..]);
      }
    }
  }

  // ---- One direction ----

  /** The source has sent `sent`; `waiting` is unread by the first relay and `socket` by the second. */
  datatype Way = Way(
    sent: seq<byte>,
    closed: bool,
    waiting: seq<byte>,
    lostFirst: seq<byte>,
    first: Ended,
    socket: seq<byte>,
    lostSecond: seq<byte>,
    second: Ended,
    arrived: seq<byte>)

  const NEW_WAY := Way([], false, [], [], StillOpen, [], [], StillOpen, [])

  function FirstHop(w: Way): Hop {
    Hop(w.waiting, w.socket, w.lostFirst, w.first)
  }

  function SecondHop(w: Way): Hop {
    Hop(w.socket, w.arrived, w.lostSecond, w.second)
  }

  function RelayNext(w: Way, first: bool, e: Event, len: nat): Way {
    if first then
      var h := HopNext(FirstHop(w), e, len);
      w.(waiting := h.input, socket := h.output, lostFirst := h.lost, first := h.ended)
    else
      var h := HopNext(SecondHop(w), e, len);
      w.(socket := h.input, arrived := h.output, lostSecond := h.lost, second := h.ended)
  }

  function EndedOf(w: Way, first: bool): Ended {
    if first then w.first else w.second
  }

  /** A read completes when there is something to read or the end of the stream has come; the first relay sees the end
      when the source closes, the second once the first is gone. */
  predicate CanRelay(w: Way, first: bool, e: Event) {
    && EndedOf(w, first) == StillOpen
    && (e.Readable? ==> if first then w.waiting != [] || w.closed else w.socket != [] || w.first != StillOpen)
  }

  /** Every byte sent has arrived, or is lost to a failed write, or is unread. */
  predicate WayOk(w: Way) {
    && w.sent == w.arrived + (w.lostSecond + (w.socket + (w.lostFirst + w.waiting)))
    && HopOk(FirstHop(w)) && HopOk(SecondHop(w))
    && (w.first == StreamClosed ==> w.closed && w.waiting == [])
    && (w.second == StreamClosed ==> w.first != StillOpen && w.socket == [])
  }

  lemma RelayNextOk(w: Way, first: bool, e: Event, len: nat)
    requires WayOk(w) && CanRelay(w, first, e)
    ensures WayOk(RelayNext(w, first, e, len))
    ensures RelayNext(w, first, e, len).sent == w.sent
  {
    var w' := RelayNext(w, first, e, len);
    if first {
      var moved := HopMoves(FirstHop(w), e, len);
      assert w.lostFirst + w.waiting == w.waiting;
      Regroup(w.socket, moved, w'.lostFirst + w'.waiting);
    } else {
      var moved := HopMoves(SecondHop(w), e, len);
      var rest := w.lostFirst + w.waiting;
      Regroup(moved, w'.lostSecond + w'.socket, rest);
      Regroup(w'.lostSecond, w'.socket, rest);
      Regroup(w.arrived, moved, w'.lostSecond + (w'.socket + rest));
      assert w.lostSecond + (w.socket + rest) == w.socket + rest;
    }
  }

  lemma SendsOk(w: Way, data: seq<byte>)
    requires WayOk(w) && !w.closed
    ensures WayOk(w.(sent := w.sent + data, waiting := w.waiting + data))
  {
    Regroup(w.lostFirst, w.waiting, data);
    Regroup(w.socket, w.lostFirst + w.waiting, data);
    Regroup(w.lostSecond, w.socket + (w.lostFirst + w.waiting), data);
    Regroup(w.arrived, w.lostSecond + (w.socket + (w.lostFirst + w.waiting)), data);
  }

  /** Exactly when all that was sent has arrived: no write failed, and neither relay has anything left to read. */
  lemma ArrivedAllIff(w: Way)
    requires WayOk(w)
    ensures w.arrived <= w.sent
    ensures w.arrived == w.sent
       <==> w.first != WriteFailed && w.second != WriteFailed && w.waiting == [] && w.socket == []
  {
    assert |w.sent| == |w.arrived| + |w.lostSecond| + |w.socket| + |w.lostFirst| + |w.waiting|;
    if w.lostSecond == w.socket == w.lostFirst == w.waiting == [] {
      assert w.sent == w.arrived;
    }
  }

  // ---- One connection ----

  /** How it began to end on a host: with the relay of which direction, and whether the session had been told to shut
      down by then. */
  datatype Ending = NotYet | Began(upwards: bool, told: bool)

  /** The sidecar has the first relay of the way up and the second of the way down, the agent the other two. */
  datatype Conn = Conn(
    up: Way,
    down: Way,
    sidecarTold: bool,
    agentTold: bool,
    sidecar: Ending,
    agent: Ending)

  const START := Conn(NEW_WAY, NEW_WAY, false, false, NotYet, NotYet)

  datatype Turn =
    | Sends(upwards: bool, data: seq<byte>)
    | Closes(upwards: bool)
    | Relay(upwards: bool, first: bool, e: Event, len: nat)
    | Tell(sidecar: bool)

  function Direction(c: Conn, upwards: bool): Way {
    if upwards then c.up else c.down
  }

  function Put(c: Conn, upwards: bool, w: Way): Conn {
    if upwards then c.(up := w) else c.(down := w)
  }

  /** Whether the first, or the second, relay of a direction is on the sidecar. */
  predicate OnSidecar(upwards: bool, first: bool) {
    upwards == first
  }

  function Told(c: Conn, sidecar: bool): bool {
    if sidecar then c.sidecarTold else c.agentTold
  }

  function EndingOn(c: Conn, sidecar: bool): Ending {
    if sidecar then c.sidecar else c.agent
  }

  /** The relay of this direction on a host. */
  function RelayOn(c: Conn, sidecar: bool, upwards: bool): Ended {
    EndedOf(Direction(c, upwards), upwards == sidecar)
  }

  /** A host stops a relay only after the other one there has ended, or when it is told to shut the session down. */
  predicate Possible(c: Conn, t: Turn) {
    match t
    case Sends(upwards, _) => !Direction(c, upwards).closed
    case Closes(_) => true
    case Tell(_) => true
    case Relay(upwards, first, e, _) =>
      && CanRelay(Direction(c, upwards), first, e)
      && (e == Stop ==>
            Told(c, OnSidecar(upwards, first)) || RelayOn(c, OnSidecar(upwards, first), !upwards) != StillOpen)
  }

  /** The same turn, but for how much a relay reads. */
  predicate SameButLen(t: Turn, u: Turn) {
    if t.Relay? then u.Relay? && t == u.(len := t.len) else u == t
  }

  /** Note the first relay that ends on a host. */
  function Noted(c: Conn, sidecar: bool, upwards: bool): Conn {
    if EndingOn(c, sidecar).Began? || RelayOn(c, sidecar, upwards) == StillOpen then c
    else if sidecar then c.(sidecar := Began(upwards, c.sidecarTold))
    else c.(agent := Began(upwards, c.agentTold))
  }

  function WayNext(w: Way, t: Turn): Way {
    match t
    case Sends(_, data) => w.(sent := w.sent + data, waiting := w.waiting + data)
    case Closes(_) => w.(closed := true)
    case Relay(_, first, e, len) => RelayNext(w, first, e, len)
    case Tell(_) => w
  }

  function Next(c: Conn, t: Turn): Conn {
    if t.Tell? then
      if t.sidecar then c.(sidecarTold := true) else c.(agentTold := true)
    else
      var c' := Put(c, t.upwards, WayNext(Direction(c, t.upwards), t));
      if t.Relay? then Noted(c', OnSidecar(t.upwards, t.first), t.upwards) else c'
  }

  /** A turn of one direction leaves the other alone. */
  lemma NextWays(c: Conn, t: Turn)
    ensures Next(c, t).up == if !t.Tell? && t.upwards then WayNext(c.up, t) else c.up
    ensures Next(c, t).down == if !t.Tell? && !t.upwards then WayNext(c.down, t) else c.down
    ensures Next(c, t).sidecarTold == (c.sidecarTold || t == Tell(true))
    ensures Next(c, t).agentTold == (c.agentTold || t == Tell(false))
  {
  }

  /** A run; a turn that is not possible does not happen. */
  ghost function Run(turns: seq<Turn>, k: nat): Conn
    requires k <= |turns|
  {
    if k == 0 then START else
      var c := Run(turns, k - 1);
      if Possible(c, turns[k - 1]) then Next(c, turns[k - 1]) else c
  }

  /** It has begun to end on a host exactly when a relay there has ended, and the first that did was not stopped for
      nothing. `up` and `down` are the two relays of the host. */
  predicate EndingOk(ending: Ending, up: Ended, down: Ended) {
    && (ending == NotYet <==> (up == StillOpen && down == StillOpen))
    && (ending.Began? ==>
          var began := if ending.upwards then up else down;
          began != StillOpen && (began == ShutDown ==> ending.told))
  }

  predicate HostOk(c: Conn, sidecar: bool) {
    EndingOk(EndingOn(c, sidecar), RelayOn(c, sidecar, true), RelayOn(c, sidecar, false))
  }

  predicate Ok(c: Conn) {
    WayOk(c.up) && WayOk(c.down) && HostOk(c, true) && HostOk(c, false)
  }

  lemma SourceOk(c: Conn, upwards: bool, w: Way)
    requires Ok(c) && WayOk(w)
    requires w.first == Direction(c, upwards).first && w.second == Direction(c, upwards).second
    ensures Ok(Put(c, upwards, w))
  {
  }

  lemma RelayWaysOk(c: Conn, t: Turn)
    requires WayOk(c.up) && WayOk(c.down) && t.Relay? && Possible(c, t)
    ensures WayOk(Next(c, t).up) && WayOk(Next(c, t).down)
  {
    RelayNextOk(Direction(c, t.upwards), t.first, t.e, t.len);
  }

  /** What a relay turn does to the endings: only its own may change, and to a stop only if asked for. */
  lemma RelayEndings(c: Conn, t: Turn)
    requires WayOk(c.up) && WayOk(c.down) && t.Relay? && Possible(c, t)
    ensures var c', here := Put(c, t.upwards, WayNext(Direction(c, t.upwards), t)), OnSidecar(t.upwards, t.first);
      && (RelayOn(c', here, t.upwards) == ShutDown <==> t.e == Stop)
      && RelayOn(c', here, !t.upwards) == RelayOn(c, here, !t.upwards)
      && RelayOn(c', !here, true) == RelayOn(c, !here, true) && RelayOn(c', !here, false) == RelayOn(c, !here, false)
  {
    var w := Direction(c, t.upwards);
    var moved := HopMoves(if t.first then FirstHop(w) else SecondHop(w), t.e, t.len);
  }

  /** A relay ends on this host, for the first time or not. */
  lemma NotedOk(c: Conn, c': Conn, sidecar: bool, upwards: bool)
    requires HostOk(c, sidecar) && RelayOn(c, sidecar, upwards) == StillOpen
    requires EndingOn(c', sidecar) == EndingOn(c, sidecar) && Told(c', sidecar) == Told(c, sidecar)
    requires RelayOn(c', sidecar, !upwards) == RelayOn(c, sidecar, !upwards)
    requires RelayOn(c', sidecar, upwards) == ShutDown ==>
      Told(c, sidecar) || RelayOn(c, sidecar, !upwards) != StillOpen
    ensures HostOk(Noted(c', sidecar, upwards), sidecar)
  {
  }

  lemma RelayHostOk(c: Conn, t: Turn)
    requires Ok(c) && t.Relay? && Possible(c, t)
    ensures HostOk(Next(c, t), true) && HostOk(Next(c, t), false)
  {
    var c', here := Put(c, t.upwards, WayNext(Direction(c, t.upwards), t)), OnSidecar(t.upwards, t.first);
    RelayEndings(c, t);
    NotedOk(c, c', here, t.upwards);
    assert HostOk(c, !here);
    assert HostOk(Noted(c', here, t.upwards), !here);
    assert Next(c, t) == Noted(c', here, t.upwards);
  }

  lemma NextOk(c: Conn, t: Turn)
    requires Ok(c) && Possible(c, t)
    ensures Ok(Next(c, t))
  {
    match t
    case Sends(upwards, data) =>
      var w := Direction(c, upwards);
      SendsOk(w, data);
      SourceOk(c, upwards, w.(sent := w.sent + data, waiting := w.waiting + data));
    case Closes(upwards) =>
      SourceOk(c, upwards, Direction(c, upwards).(closed := true));
    case Tell(_) =>
    case Relay(_, _, _, _) =>
      RelayWaysOk(c, t);
      RelayHostOk(c, t);
  }

  lemma {:induction false} RunOk(turns: seq<Turn>, k: nat)
    requires k <= |turns|
    ensures Ok(Run(turns, k))
  {
    if k > 0 {
      RunOk(turns, k - 1);
      if Possible(Run(turns, k - 1), turns[k - 1]) {
        NextOk(Run(turns, k - 1), turns[k - 1]);
      }
    }
  }

  // ---- What arrives ----

  ghost function At(turns: seq<Turn>, k: nat, upwards: bool): Way
    requires k <= |turns|
  {
    Direction(Run(turns, k), upwards)
  }

  ghost predicate Complete(turns: seq<Turn>, k: nat, upwards: bool)
    requires k <= |turns|
  {
    At(turns, k, upwards).arrived == At(turns, k, upwards).sent
  }

  /** At any time of any run what has arrived is a prefix of what was sent, and all of it exactly when no write has
      failed and neither relay has anything left to read. */
  lemma CompleteIff(turns: seq<Turn>, k: nat, upwards: bool)
    requires k <= |turns|
    ensures var w := At(turns, k, upwards);
      && w.arrived <= w.sent
      && (Complete(turns, k, upwards)
          <==> w.first != WriteFailed && w.second != WriteFailed && w.waiting == [] && w.socket == [])
  {
    RunOk(turns, k);
    ArrivedAllIff(At(turns, k, upwards));
  }

  /** What a turn cannot undo. */
  predicate Since(w: Way, w': Way) {
    && w.sent <= w'.sent
    && (w.second != StillOpen ==> w'.second == w.second && w'.arrived == w.arrived)
    && (w.first != StillOpen ==> w'.first == w.first && |w'.waiting| - |w.waiting| == |w'.sent| - |w.sent|)
  }

  lemma NextSince(c: Conn, t: Turn, upwards: bool)
    requires Possible(c, t)
    ensures Since(Direction(c, upwards), Direction(Next(c, t), upwards))
  {
  }

  lemma {:induction false} EndedStays(turns: seq<Turn>, j: nat, k: nat, upwards: bool)
    requires j <= k <= |turns|
    ensures Since(At(turns, j, upwards), At(turns, k, upwards))
    decreases k
  {
    if j < k {
      EndedStays(turns, j, k - 1, upwards);
      if Possible(Run(turns, k - 1), turns[k - 1]) {
        NextSince(Run(turns, k - 1), turns[k - 1], upwards);
      }
    }
  }

  /** The relay that turn `j` stops. */
  ghost predicate Stops(turns: seq<Turn>, j: nat, upwards: bool, first: bool)
    requires j < |turns|
  {
    && turns[j].Relay? && turns[j].upwards == upwards && turns[j].first == first && turns[j].e == Stop
    && Possible(Run(turns, j), turns[j])
  }

  /** A stop of the second relay makes a direction incomplete for good exactly when something was still on its way to
      that relay, or had been lost before it, or is sent afterwards. */
  lemma SecondStopLosesIff(turns: seq<Turn>, j: nat, k: nat, upwards: bool)
    requires j < k <= |turns| && Stops(turns, j, upwards, false)
    ensures var w := At(turns, j, upwards);
      Complete(turns, k, upwards)
      <==> w.first != WriteFailed && w.waiting == [] && w.socket == [] && At(turns, k, upwards).sent == w.sent
  {
    EndedStays(turns, j, j + 1, upwards);
    EndedStays(turns, j + 1, k, upwards);
    assert At(turns, j + 1, upwards) == At(turns, j, upwards).(second := ShutDown);
    CompleteIff(turns, j, upwards);
    CompleteIff(turns, j + 1, upwards);
  }

  /** A stop of the first relay does so exactly when it still had something to read, or something is sent afterwards,
      or the second relay does not bring over what is on the socket. */
  lemma FirstStopLosesIff(turns: seq<Turn>, j: nat, k: nat, upwards: bool)
    requires j < k <= |turns| && Stops(turns, j, upwards, true)
    ensures var w, w' := At(turns, j, upwards), At(turns, k, upwards);
      Complete(turns, k, upwards)
      <==> w.waiting == [] && w'.sent == w.sent && w'.socket == [] && w'.second != WriteFailed
  {
    EndedStays(turns, j + 1, k, upwards);
    assert At(turns, j + 1, upwards) == At(turns, j, upwards).(first := ShutDown);
    CompleteIff(turns, k, upwards);
  }

  // ---- Which connections are sure to be complete ----

  /** Both relays of the direction have ended, and none of them by an error. */
  predicate EndedWell(w: Way) {
    w.first in {StreamClosed, ShutDown} && w.second in {StreamClosed, ShutDown}
  }

  /** A direction that has ended without an error is complete if on both hosts its relay was the first to end and no
      shutdown had been asked for by then; whatever became of the other direction since. */
  lemma FirstToEndIsComplete(turns: seq<Turn>, k: nat, upwards: bool)
    requires k <= |turns| && EndedWell(At(turns, k, upwards))
    requires Run(turns, k).sidecar == Run(turns, k).agent == Began(upwards, false)
    ensures Complete(turns, k, upwards) && At(turns, k, upwards).closed
  {
    var c := Run(turns, k);
    RunOk(turns, k);
    CompleteIff(turns, k, upwards);
    assert HostOk(c, true) && HostOk(c, false);
    assert RelayOn(c, upwards, upwards) == StreamClosed && RelayOn(c, !upwards, upwards) == StreamClosed;
  }

  /** The run began to end this way on the two hosts, and the direction has ended without an error. */
  ghost predicate EndsAs(turns: seq<Turn>, upwards: bool, sidecar: Ending, agent: Ending) {
    var c := Run(turns, |turns|);
    c.sidecar == sidecar && c.agent == agent && EndedWell(Direction(c, upwards))
  }

  /** Exactly the order of endings that makes completeness sure: for any other one there is a run that loses bytes. */
  lemma SurelyCompleteIff(upwards: bool, sidecar: Ending, agent: Ending)
    requires sidecar.Began? && agent.Began?
    ensures (forall turns | EndsAs(turns, upwards, sidecar, agent) :: Complete(turns, |turns|, upwards))
       <==> sidecar == agent == Began(upwards, false)
  {
    if sidecar == agent == Began(upwards, false) {
      forall turns | EndsAs(turns, upwards, sidecar, agent) ensures Complete(turns, |turns|, upwards) {
        FirstToEndIsComplete(turns, |turns|, upwards);
      }
    } else {
      var turns := LosingRun(upwards, sidecar, agent);
      assert EndsAs(turns, upwards, sidecar, agent) && !Complete(turns, |turns|, upwards);
    }
  }

  lemma {:induction false} RunPrefix(turns: seq<Turn>, more: seq<Turn>, k: nat)
    requires k <= |turns|
    ensures Run(turns + more, k) == Run(turns, k)
  {
    if k > 0 {
      RunPrefix(turns, more, k - 1);
    }
  }

  ghost function End(turns: seq<Turn>): Conn {
    Run(turns, |turns|)
  }

  lemma EndExtends(turns: seq<Turn>, t: Turn)
    requires Possible(End(turns), t)
    ensures End(turns + [t]) == Next(End(turns), t)
  {
    RunPrefix(turns, [t], |turns|);
  }

  /** A turn of one direction, whatever the relay reads, changes that direction and nothing else. */
  lemma WayTurn(turns: seq<Turn>, t: Turn, u: Turn)
    requires !t.Tell? && Possible(End(turns), t) && SameButLen(t, u)
    ensures var c, c' := End(turns), End(turns + [u]);
      && c'.up == (if t.upwards then WayNext(c.up, u) else c.up)
      && c'.down == (if t.upwards then c.down else WayNext(c.down, u))
      && c'.sidecarTold == c.sidecarTold && c'.agentTold == c.agentTold
  {
    EndExtends(turns, u);
    NextWays(End(turns), u);
  }

  lemma Extend(turns: seq<Turn>, t: Turn) returns (more: seq<Turn>)
    requires Possible(End(turns), t)
    ensures End(more) == Next(End(turns), t)
  {
    more := turns + [t];
    EndExtends(turns, t);
  }

  /** Prepare a host on which it is to begin to end this way: tell it to shut down, and let the relay of the other
      direction fail, if so required. */
  lemma Prepare(turns: seq<Turn>, upwards: bool, sidecar: bool, ending: Ending) returns (more: seq<Turn>)
    requires var c := End(turns);
      && EndingOn(c, sidecar) == NotYet && !Told(c, sidecar) && ending.Began?
      && RelayOn(c, sidecar, true) == StillOpen && RelayOn(c, sidecar, false) == StillOpen
    ensures var c, c' := End(turns), End(more);
      && Direction(c', upwards) == Direction(c, upwards)
      && Told(c', sidecar) == ending.told
      && EndingOn(c', sidecar) == (if ending.upwards == upwards then NotYet else ending)
      && (ending.upwards != upwards ==> RelayOn(c', sidecar, !upwards) != StillOpen)
      && Told(c', !sidecar) == Told(c, !sidecar) && EndingOn(c', !sidecar) == EndingOn(c, !sidecar)
      && RelayOn(c', !sidecar, true) == RelayOn(c, !sidecar, true)
      && RelayOn(c', !sidecar, false) == RelayOn(c, !sidecar, false)
  {
    more := turns;
    if ending.told {
      more := Extend(more, Tell(sidecar));
    }
    if ending.upwards != upwards {
      more := Extend(more, Relay(!upwards, sidecar == !upwards, ReadError, 0));
    }
  }

  lemma LosingRun(upwards: bool, sidecar: Ending, agent: Ending) returns (turns: seq<Turn>)
    requires sidecar.Began? && agent.Began? && !(sidecar == agent == Began(upwards, false))
    ensures EndsAs(turns, upwards, sidecar, agent) && !Complete(turns, |turns|, upwards)
  {
    var here, there := if upwards then sidecar else agent, if upwards then agent else sidecar;
    if here == Began(upwards, false) {
      turns := LosingAtSecond(upwards, there);
    } else {
      turns := LosingAtFirst(upwards, here, there);
    }
    assert EndingOn(End(turns), upwards) == here && EndingOn(End(turns), !upwards) == there;
  }

  /** The first relay is stopped with a byte to read. */
  lemma FirstStopped(upwards: bool, here: Ending) returns (turns: seq<Turn>)
    requires here.Began? && here != Began(upwards, false)
    ensures var c, w := End(turns), Direction(End(turns), upwards);
      && w == NEW_WAY.(sent := [1], waiting := [1], first := ShutDown)
      && RelayOn(c, !upwards, !upwards) == StillOpen && !Told(c, !upwards)
      && EndingOn(c, upwards) == here && EndingOn(c, !upwards) == NotYet
  {
    turns := Prepare([], upwards, upwards, here);
    turns := Extend(turns, Sends(upwards, [1]));
    turns := Extend(turns, Relay(upwards, true, Stop, 0));
  }

  /** The second relay then sees the end of the stream. */
  lemma LosingAtFirst(upwards: bool, here: Ending, there: Ending) returns (turns: seq<Turn>)
    requires here.Began? && there.Began? && here != Began(upwards, false)
    ensures var c := End(turns);
      && EndingOn(c, upwards) == here && EndingOn(c, !upwards) == there
      && EndedWell(Direction(c, upwards)) && Direction(c, upwards).arrived == [] != Direction(c, upwards).sent
  {
    turns := FirstStopped(upwards, here);
    turns := Prepare(turns, upwards, !upwards, there);
    turns := Extend(turns, Relay(upwards, false, Readable(0), 0));
  }

  /** Once the second relay has ended with bytes missing, they are missing for good. */
  lemma LostForGood(turns: seq<Turn>, more: seq<Turn>, k: nat, upwards: bool)
    requires |turns| <= k <= |turns + more|
    requires At(turns, |turns|, upwards).second != StillOpen && !Complete(turns, |turns|, upwards)
    ensures !Complete(turns + more, k, upwards)
  {
    RunPrefix(turns, more, |turns|);
    EndedStays(turns + more, |turns|, k, upwards);
    CompleteIff(turns, |turns|, upwards);
  }

  /** No error and no shutdown is needed to lose bytes: when the far end closes its own direction while a byte is on its
      way to it, the relay that should bring it there is stopped. */
  lemma CleanCloseLoses(upwards: bool) returns (turns: seq<Turn>)
    ensures var c, w := End(turns), Direction(End(turns), upwards);
      && !c.sidecarTold && !c.agentTold
      && Direction(c, !upwards) == NEW_WAY.(closed := true, first := StreamClosed)
      && w == NEW_WAY.(sent := [1], waiting := [1], second := ShutDown)
  {
    turns := Extend([], Closes(!upwards));
    turns := Extend(turns, Relay(!upwards, true, Readable(0), 0));
    turns := Extend(turns, Sends(upwards, [1]));
    turns := Extend(turns, Relay(upwards, false, Stop, 0));
  }

  /** The first relay has brought a byte to the socket and seen its stream end. */
  lemma FirstDone(upwards: bool) returns (turns: seq<Turn>)
    ensures var c, w := End(turns), Direction(End(turns), upwards);
      && w == NEW_WAY.(sent := [1], closed := true, socket := [1], first := StreamClosed)
      && Direction(c, !upwards) == NEW_WAY && !c.sidecarTold && !c.agentTold
      && EndingOn(c, upwards) == Began(upwards, false) && EndingOn(c, !upwards) == NotYet
  {
    turns := Extend([], Sends(upwards, [1]));
    assert End(turns) == Put(START, upwards, NEW_WAY.(sent := [1], waiting := [1]));
    turns := Extend(turns, Relay(upwards, true, Readable(1), 1));
    assert End(turns) == Put(START, upwards, NEW_WAY.(sent := [1], socket := [1]));
    turns := Extend(turns, Closes(upwards));
    turns := Extend(turns, Relay(upwards, true, Readable(0), 0));
  }

  /** The second relay is stopped with a byte on the socket, after the first has seen its stream end. */
  lemma LosingAtSecond(upwards: bool, there: Ending) returns (turns: seq<Turn>)
    requires there.Began? && there != Began(upwards, false)
    ensures var c := End(turns);
      && EndingOn(c, upwards) == Began(upwards, false) && EndingOn(c, !upwards) == there
      && EndedWell(Direction(c, upwards)) && Direction(c, upwards).arrived == [] != Direction(c, upwards).sent
  {
    turns := FirstDone(upwards);
    turns := Prepare(turns, upwards, !upwards, there);
    turns := Extend(turns, Relay(upwards, false, Stop, 0));
  }
}
