/** The sidecar's side of the routing protocol: UDP requests are passed to the agent, and each reply goes back to
    the address that claimed its id. */
module IngressBridge {
  import opened Codec
  import opened PendingTable
  import opened History
  import opened Seqs
  import opened UdpSocket

  const BUFFER_SIZE := 1524

  datatype SocketAddr = SocketAddr(ip: nat, port: u16)

  datatype Datagram = Datagram(addr: SocketAddr, msg: Message)

  /** The events after which the loop goes round again. A shutdown or a socket error only leaves the loop. */
  datatype Event =
    | Timeout
    | FromNet(datagram: seq<byte>, source: SocketAddr, sendOk: bool)
    | FromBridge(msg: Message, sendOk: bool)

  datatype Turn = Turn(event: Event, at: nat, now: nat)

  function OpOf(e: Event): Op<SocketAddr> {
    match e
    case Timeout => Skip
    case FromNet(d, source, _) =>
      (match TryNew(Truncated(d, BUFFER_SIZE)) case Received(m) => Open(Id(m), source) case _ => Skip)
    case FromBridge(m, _) => Close(Id(m))
  }

  function TickOf(t: Turn): Tick<SocketAddr> {
    Tick(OpOf(t.event), t.at, t.now)
  }

  function Ticks(turns: seq<Turn>): seq<Tick<SocketAddr>> {
    Map(TickOf, turns)
  }

  ghost function TableAt(turns: seq<Turn>, timeout: nat, k: nat): Table<SocketAddr>
    requires k <= |turns|
  {
    At(Ticks(turns), timeout, k)
  }

  /** The request a turn accepts from its socket. */
  function Accepts(e: Event): seq<Datagram> {
    match e
    case FromNet(d, source, _) =>
      (match TryNew(Truncated(d, BUFFER_SIZE)) case Received(m) => [Datagram(source, m)] case _ => [])
    case _ => []
  }

  /** What a turn hands to the channel client. */
  function Passes(e: Event): seq<Message> {
    if e.FromNet? && e.sendOk && Accepts(e) != [] then [Accepts(e)[0].msg] else []
  }

  /** What a turn hands to the socket: the reply is attempted once, whether or not the socket takes it. */
  function Returns(e: Event, table: Table<SocketAddr>): seq<Datagram> {
    if e.FromBridge? && Id(e.msg) in table then [Datagram(table[Id(e.msg)].owner, e.msg)] else []
  }

  function Takes(e: Event): seq<Message> {
    if e.FromBridge? then [e.msg] else []
  }

  // ---- The logs of a run ----

  ghost function AcceptedBy(turns: seq<Turn>, k: nat): seq<Datagram>
    requires k <= |turns|
  {
    Collect(turns, k, (t: Turn) => Accepts(t.event))
  }

  ghost function PassedBy(turns: seq<Turn>, k: nat): seq<Message>
    requires k <= |turns|
  {
    Collect(turns, k, (t: Turn) => Passes(t.event))
  }

  ghost function ReturnedBy(turns: seq<Turn>, timeout: nat, k: nat): seq<Datagram>
    requires k <= |turns|
  {
    if k == 0 then [] else
      ReturnedBy(turns, timeout, k - 1) + Returns(turns[k - 1].event, TableAt(turns, timeout, k - 1))
  }

  ghost function TakenBy(turns: seq<Turn>, k: nat): seq<Message>
    requires k <= |turns|
  {
    Collect(turns, k, (t: Turn) => Takes(t.event))
  }

  lemma TableOfPrefix(turns: seq<Turn>, t: Turn, timeout: nat, k: nat)
    requires k <= |turns|
    ensures TableAt(turns + [t], timeout, k) == TableAt(turns, timeout, k)
  {
    AtPrefix(Ticks(turns), [TickOf(t)], timeout, k);
    assert Ticks(turns + [t]) == Ticks(turns) + [TickOf(t)];
  }

  lemma {:induction false} ReturnedOfPrefix(turns: seq<Turn>, t: Turn, timeout: nat, k: nat)
    requires k <= |turns|
    ensures ReturnedBy(turns + [t], timeout, k) == ReturnedBy(turns, timeout, k)
  {
    if k > 0 {
      ReturnedOfPrefix(turns, t, timeout, k - 1);
      TableOfPrefix(turns, t, timeout, k - 1);
    }
  }

  lemma LogsAppend(turns: seq<Turn>, t: Turn, timeout: nat)
    ensures var n := |turns|;
      && TableAt(turns + [t], timeout, n + 1) == Next(TableAt(turns, timeout, n), TickOf(t), timeout)
      && AcceptedBy(turns + [t], n + 1) == AcceptedBy(turns, n) + Accepts(t.event)
      && PassedBy(turns + [t], n + 1) == PassedBy(turns, n) + Passes(t.event)
      && ReturnedBy(turns + [t], timeout, n + 1)
         == ReturnedBy(turns, timeout, n) + Returns(t.event, TableAt(turns, timeout, n))
      && TakenBy(turns + [t], n + 1) == TakenBy(turns, n) + Takes(t.event)
  {
    TableOfPrefix(turns, t, timeout, |turns|);
    ReturnedOfPrefix(turns, t, timeout, |turns|);
    CollectAppend(turns, t, (u: Turn) => Accepts(u.event));
    CollectAppend(turns, t, (u: Turn) => Passes(u.event));
    CollectAppend(turns, t, (u: Turn) => Takes(u.event));
  }

  // ---- What every run of the bridge keeps ----

  function MessageOf(d: Datagram): Message {
    d.msg
  }

  function With(addr: SocketAddr, id: u16): Datagram -> bool {
    (d: Datagram) => d.addr == addr && Id(d.msg) == id
  }

  /** Every request this address made with this id was answered at most once, so replies never outnumber requests;
      a request still pending is one that has not been answered. */
  lemma RepliesNeverExceedRequests(turns: seq<Turn>, timeout: nat, addr: SocketAddr, id: u16)
    ensures var n := |turns|;
      Count(ReturnedBy(turns, timeout, n), With(addr, id)) + One(Holds(TableAt(turns, timeout, n), id, addr))
      <= Count(AcceptedBy(turns, n), With(addr, id))
  {
    OwnerLedger(Ticks(turns), timeout, |turns|, id, addr);
    RepliesAreAnswers(turns, timeout, |turns|, addr, id);
    AcceptedAreRequests(turns, |turns|, addr, id);
  }

  lemma TurnReturns(returned: seq<Datagram>, e: Event, table: Table<SocketAddr>, addr: SocketAddr, id: u16)
    ensures Count(returned + Returns(e, table), With(addr, id))
         == Count(returned, With(addr, id)) + One(OpOf(e) == Close(id) && Holds(table, id, addr))
  {
    CountConcat(returned, Returns(e, table), With(addr, id));
    if Returns(e, table) != [] {
      CountOne(Returns(e, table)[0], With(addr, id));
    }
  }

  lemma TurnAccepts(accepted: seq<Datagram>, e: Event, addr: SocketAddr, id: u16)
    ensures Count(accepted + Accepts(e), With(addr, id))
         == Count(accepted, With(addr, id)) + One(OpOf(e) == Open(id, addr))
  {
    CountConcat(accepted, Accepts(e), With(addr, id));
    if Accepts(e) != [] {
      CountOne(Accepts(e)[0], With(addr, id));
    }
  }

  lemma {:induction false} RepliesAreAnswers(turns: seq<Turn>, timeout: nat, k: nat, addr: SocketAddr, id: u16)
    requires k <= |turns|
    ensures Count(ReturnedBy(turns, timeout, k), With(addr, id)) == Answers(Ticks(turns), timeout, k, id, addr)
  {
    if k > 0 {
      RepliesAreAnswers(turns, timeout, k - 1, addr, id);
      TurnReturns(ReturnedBy(turns, timeout, k - 1), turns[k - 1].event, TableAt(turns, timeout, k - 1), addr, id);
    }
  }

  lemma {:induction false} AcceptedAreRequests(turns: seq<Turn>, k: nat, addr: SocketAddr, id: u16)
    requires k <= |turns|
    ensures Count(AcceptedBy(turns, k), With(addr, id)) == Requests(Ticks(turns), k, id, addr)
  {
    if k > 0 {
      AcceptedAreRequests(turns, k - 1, addr, id);
      TurnAccepts(AcceptedBy(turns, k - 1), turns[k - 1].event, addr, id);
    }
  }

  /** The replies are messages taken from the client channel, in order, none used twice. */
  lemma {:induction false} RepliesAreTaken(turns: seq<Turn>, timeout: nat, k: nat)
    requires k <= |turns|
    ensures Subsequence(Map(MessageOf, ReturnedBy(turns, timeout, k)), TakenBy(turns, k))
  {
    if k > 0 {
      var e, table := turns[k - 1].event, TableAt(turns, timeout, k - 1);
      RepliesAreTaken(turns, timeout, k - 1);
      GrowReplies(ReturnedBy(turns, timeout, k - 1), TakenBy(turns, k - 1), e, table);
    }
  }

  lemma GrowReplies(before: seq<Datagram>, taken: seq<Message>, e: Event, table: Table<SocketAddr>)
    requires Subsequence(Map(MessageOf, before), taken)
    ensures Subsequence(Map(MessageOf, before + Returns(e, table)), taken + Takes(e))
  {
    var more := Map(MessageOf, Returns(e, table));
    MapConcat(MessageOf, before, Returns(e, table));
    if e.FromBridge? {
      assert more == [] || more == [e.msg];
      SubsequenceGrow(Map(MessageOf, before), taken, more, e.msg);
    } else {
      assert before + Returns(e, table) == before && taken + Takes(e) == taken;
    }
  }

  /** Each datagram sent back answers its own earlier request: same address, same id, younger than timeout + gap. */
  lemma ReplyHasRequest(turns: seq<Turn>, timeout: nat, gap: nat, j: nat) returns (o: nat)
    requires Timely(Ticks(turns), gap)
    requires j < |turns| && Returns(turns[j].event, TableAt(turns, timeout, j)) != []
    ensures o < j && Accepts(turns[o].event) != []
    ensures var reply, request := Returns(turns[j].event, TableAt(turns, timeout, j))[0], Accepts(turns[o].event)[0];
      && reply.addr == request.addr && Id(reply.msg) == Id(request.msg)
      && turns[o].at <= turns[j].at < turns[o].at + timeout + gap
    ensures o == Opener(Ticks(turns), timeout, j, Id(turns[j].event.msg))
  {
    o := Opener(Ticks(turns), timeout, j, Id(turns[j].event.msg));
    AnswersAreFresh(Ticks(turns), timeout, gap, j);
  }

  /** Turn `j` sends a reply to a request that is `age` old. */
  ghost predicate RepliesAtAge(turns: seq<Turn>, timeout: nat, j: nat, age: nat)
    requires j < |turns|
  {
    && Returns(turns[j].event, TableAt(turns, timeout, j)) != []
    && turns[j].at == TableAt(turns, timeout, j)[Id(turns[j].event.msg)].created + age
  }

  /** A reply sent at or after the timeout of its request. */
  ghost predicate Late(turns: seq<Turn>, timeout: nat, j: nat)
    requires j < |turns|
  {
    exists age: nat :: age >= timeout && RepliesAtAge(turns, timeout, j, age)
  }

  /** A request received just in time to survive its sweep is answered after the longest turn. */
  lemma LatestReply(timeout: nat, gap: nat) returns (turns: seq<Turn>)
    requires timeout > 0
    ensures Timely(Ticks(turns), gap) && |turns| == 2 && RepliesAtAge(turns, timeout, 1, timeout + gap - 1)
  {
    var last, m: Message := timeout - 1 + gap, [0, 0];
    turns := [Turn(FromNet(m, SocketAddr(0, 0), true), 0, timeout - 1), Turn(FromBridge(m, true), last, last)];
    assert TableAt(turns, timeout, 0) == map[];
    assert TableAt(turns, timeout, 1) == map[0 := Entry(0, SocketAddr(0, 0))];
  }

  /** Replies can be late exactly when a turn takes time and requests are remembered at all. */
  lemma NeverLateIff(timeout: nat, gap: nat)
    ensures (forall turns, j: nat | Timely(Ticks(turns), gap) && j < |turns| :: !Late(turns, timeout, j))
       <==> gap == 0 || timeout == 0
  {
    if gap > 0 && timeout > 0 {
      var turns := LatestReply(timeout, gap);
      assert Late(turns, timeout, 1);
    }
    forall turns, j: nat | Timely(Ticks(turns), gap) && j < |turns| && Late(turns, timeout, j)
      ensures gap > 0 && timeout > 0
    {
      assert Answered(Ticks(turns), timeout, j);
      AnswersAreFresh(Ticks(turns), timeout, gap, j);
      if timeout == 0 {
        NoTimeoutNoAnswer(Ticks(turns), j);
      }
    }
  }

  /** Datagrams received are rejected, collide, or open an entry; entries are answered, expire, or are pending. */
  lemma ConservationLedger(turns: seq<Turn>, timeout: nat)
    ensures var n, ticks := |turns|, Ticks(turns);
      && Arrivals(turns, n)
         == Invalid(turns, n) + Tally(ticks, timeout, n, Colliding) + Tally(ticks, timeout, n, Claiming)
      && Tally(ticks, timeout, n, Claiming)
         == |ReturnedBy(turns, timeout, n)| + Expired(ticks, timeout, n) + |TableAt(turns, timeout, n)|
      && |TableAt(turns, timeout, n)| <= 0x1_0000
  {
    Ledger(Ticks(turns), timeout, |turns|);
    TableBounded(TableAt(turns, timeout, |turns|));
    ArrivalsSplit(turns, timeout, |turns|);
    AnsweredAreReturned(turns, timeout, |turns|);
  }

  ghost function Arrivals(turns: seq<Turn>, k: nat): nat
    requires k <= |turns|
  {
    if k == 0 then 0 else Arrivals(turns, k - 1) + One(turns[k - 1].event.FromNet?)
  }

  ghost function Invalid(turns: seq<Turn>, k: nat): nat
    requires k <= |turns|
  {
    if k == 0 then 0 else
      Invalid(turns, k - 1) + One(turns[k - 1].event.FromNet? && |turns[k - 1].event.datagram| < 2)
  }

  lemma {:induction false} ArrivalsSplit(turns: seq<Turn>, timeout: nat, k: nat)
    requires k <= |turns|
    ensures Arrivals(turns, k) == Invalid(turns, k)
         + Tally(Ticks(turns), timeout, k, Colliding) + Tally(Ticks(turns), timeout, k, Claiming)
  {
    if k > 0 {
      ArrivalsSplit(turns, timeout, k - 1);
      ArrivalFate(turns[k - 1].event, TableAt(turns, timeout, k - 1));
    }
  }

  lemma ArrivalFate(e: Event, table: Table<SocketAddr>)
    ensures One(e.FromNet?) == One(e.FromNet? && |e.datagram| < 2)
         + One(FateOf(OpOf(e), table) == Colliding) + One(FateOf(OpOf(e), table) == Claiming)
    ensures |Returns(e, table)| == One(FateOf(OpOf(e), table) == Answering)
  {
  }

  lemma {:induction false} AnsweredAreReturned(turns: seq<Turn>, timeout: nat, k: nat)
    requires k <= |turns|
    ensures |ReturnedBy(turns, timeout, k)| == Tally(Ticks(turns), timeout, k, Answering)
  {
    if k > 0 {
      AnsweredAreReturned(turns, timeout, k - 1);
      ArrivalFate(turns[k - 1].event, TableAt(turns, timeout, k - 1));
    }
  }

  // ---- The turns of a run, said in bytes ----

  /** The first bytes a datagram of a client leaves in the buffer. */
  function Front(datagram: seq<byte>): seq<byte> {
    datagram[..if |datagram| <= BUFFER_SIZE then |datagram| else BUFFER_SIZE]
  }

  predicate IsRequest(t: Turn) {
    t.event.FromNet? && |t.event.datagram| >= 2
  }

  predicate IsPassedOn(t: Turn) {
    IsRequest(t) && t.event.sendOk
  }

  function FrontOf(t: Turn): Message {
    if IsRequest(t) then Front(t.event.datagram) else [0, 0]
  }

  function RequestOf(t: Turn): Datagram {
    if IsRequest(t) then Datagram(t.event.source, Front(t.event.datagram)) else Datagram(SocketAddr(0, 0), [0, 0])
  }

  /** A valid datagram goes to the agent whole, or as much of it as the buffer holds, if the channel takes it; nothing
      else does. */
  lemma PassedOnByTurn(turns: seq<Turn>, t: Turn)
    ensures PassedBy(turns + [t], |turns| + 1) == PassedBy(turns, |turns|) +
      if t.event.FromNet? && t.event.sendOk && |t.event.datagram| >= 2 then
        [if |t.event.datagram| <= 1524 then t.event.datagram else t.event.datagram[..1524]]
      else []
  {
    LogsAppend(turns, t, 0);
  }

  lemma FrontIsTruncated(t: Turn)
    ensures t.event.FromNet? ==> Front(t.event.datagram) == Truncated(t.event.datagram, BUFFER_SIZE)
  {
    if t.event.FromNet? {
      assert t.event.datagram[..|t.event.datagram|] == t.event.datagram;
    }
  }

  /** What was passed on in a run: the valid datagrams the channel took, in order of arrival. */
  lemma PassedOnAre(turns: seq<Turn>)
    ensures var passed, at := PassedBy(turns, |turns|), Indices(turns, |turns|, IsPassedOn);
      |passed| == |at| && forall i | 0 <= i < |at| :: at[i] < |turns| && passed[i] == FrontOf(turns[at[i]])
  {
    forall k | 0 <= k < |turns|
      ensures Passes(turns[k].event) == if IsPassedOn(turns[k]) then [FrontOf(turns[k])] else []
    {
      FrontIsTruncated(turns[k]);
    }
    CollectAt(turns, |turns|, (t: Turn) => Passes(t.event), IsPassedOn, FrontOf);
  }

  /** What was accepted: the valid datagrams, each with its source. */
  lemma AcceptedAre(turns: seq<Turn>)
    ensures var accepted, at := AcceptedBy(turns, |turns|), Indices(turns, |turns|, IsRequest);
      |accepted| == |at| && forall i | 0 <= i < |at| :: at[i] < |turns| && accepted[i] == RequestOf(turns[at[i]])
  {
    forall k | 0 <= k < |turns|
      ensures Accepts(turns[k].event) == if IsRequest(turns[k]) then [RequestOf(turns[k])] else []
    {
      FrontIsTruncated(turns[k]);
    }
    CollectAt(turns, |turns|, (t: Turn) => Accepts(t.event), IsRequest, RequestOf);
  }

  ghost function RefusedByChannel(turns: seq<Turn>, k: nat): nat
    requires k <= |turns|
  {
    if k == 0 then 0 else
      RefusedByChannel(turns, k - 1) + One(IsRequest(turns[k - 1]) && !turns[k - 1].event.sendOk)
  }

  /** Every datagram received is invalid, refused by the channel, or passed on. */
  lemma {:induction false} PassedOnLedger(turns: seq<Turn>, k: nat)
    requires k <= |turns|
    ensures Arrivals(turns, k) == Invalid(turns, k) + RefusedByChannel(turns, k) + |PassedBy(turns, k)|
  {
    if k > 0 {
      PassedOnLedger(turns, k - 1);
    }
  }

  /** What a turn means for requests and replies. */
  function BeatOf(t: Turn): Beat<SocketAddr> {
    Beat(if IsRequest(t) then Asked(FrontOf(t), t.event.source)
         else if t.event.FromBridge? then CameBack(t.event.msg)
         else Nothing, t.at, t.now)
  }

  function Beats(turns: seq<Turn>): seq<Beat<SocketAddr>> {
    Map(BeatOf, turns)
  }

  lemma TicksOfBeats(turns: seq<Turn>)
    ensures TicksOf(Ticks(turns), Beats(turns))
  {
    forall i | 0 <= i < |turns| ensures TickOf(turns[i]) == TickOfBeat(BeatOf(turns[i])) {
      FrontIsTruncated(turns[i]);
    }
  }

  /** Exactly what a turn sends to its clients, said without the table: a message that comes back goes, whole, to the
      address of the remembered request with the same first two bytes, if one still waits; nothing else is sent. */
  lemma RepliedByTurn(turns: seq<Turn>, t: Turn, timeout: nat)
    ensures var n, before, after := |turns|, ReturnedBy(turns, timeout, |turns|),
                                    ReturnedBy(turns + [t], timeout, |turns| + 1);
      && (forall o: nat | t.event.FromBridge? && Answerable(Beats(turns), timeout, o, n, t.event.msg) ::
            IsRequest(turns[o]) && after == before + [Datagram(turns[o].event.source, t.event.msg)])
      && (!t.event.FromBridge? || !(exists o: nat :: Answerable(Beats(turns), timeout, o, n, t.event.msg)) ==>
            after == before)
  {
    LogsAppend(turns, t, timeout);
    if t.event.FromBridge? {
      TicksOfBeats(turns);
      TableByHistory(Ticks(turns), Beats(turns), timeout, |turns|, t.event.msg);
    }
  }

  /** Requests whose first two bytes differ never collide: a request does so exactly when one with the same first two
      bytes, remembered, still waits. */
  lemma CollidesIff(turns: seq<Turn>, t: Turn, timeout: nat)
    requires IsRequest(t)
    ensures FateOf(OpOf(t.event), TableAt(turns, timeout, |turns|)) == Colliding
       <==> exists o: nat :: Answerable(Beats(turns), timeout, o, |turns|, FrontOf(t))
  {
    FrontIsTruncated(t);
    TicksOfBeats(turns);
    CollidesByHistory(Ticks(turns), Beats(turns), timeout, |turns|, FrontOf(t), t.event.source);
  }

  // ---- The event loop ----

  class Bridge {
    const timeout: nat
    const buf: array<byte>
    var mtxState: Table<SocketAddr>
    var toClient: seq<Message>
    var wire: seq<Datagram>
    ghost var turns: seq<Turn>

    /** The tables and outputs are those of the turns taken so far. */
    ghost predicate Valid() reads this {
      && buf.Length == BUFFER_SIZE
      && mtxState == TableAt(turns, timeout, |turns|)
      && toClient == PassedBy(turns, |turns|)
      && wire == ReturnedBy(turns, timeout, |turns|)
    }

    constructor (timeout: nat)
      ensures Valid() && turns == [] && this.timeout == timeout && fresh(buf)
    {
      this.timeout := timeout;
      buf := new byte[BUFFER_SIZE](_ => 0);
      mtxState, toClient, wire, turns := map[], [], [], [];
    }

    method Accept(datagram: seq<byte>, source: SocketAddr, sendOk: bool, at: nat)
      requires buf.Length == BUFFER_SIZE
      modifies this`mtxState, this`toClient, buf
      ensures var e := FromNet(datagram, source, sendOk);
        && mtxState == Apply(old(mtxState), OpOf(e), at)
        && toClient == old(toClient) + Passes(e)
    {
      var len := RecvFrom(buf, datagram);
      match TryNew(buf[..len]) {
        case Received(msg) =>
          if sendOk {
            toClient := toClient + [msg];
          }
          mtxState := Register(mtxState, Id(msg), Entry(at, source));
        case _ =>
      }
    }

    method Reply(msg: Message, sendOk: bool)
      modifies this`mtxState, this`wire
      ensures var e := FromBridge(msg, sendOk);
        && mtxState == Apply(old(mtxState), OpOf(e), 0)
        && wire == old(wire) + Returns(e, old(mtxState))
    {
      if Id(msg) in mtxState {
        var state := mtxState[Id(msg)];
        mtxState := mtxState - {Id(msg)};
        wire := wire + [Datagram(state.owner, msg)];
      }
    }

    /** One turn of the loop: the event, handled at `at`, then the sweep at `now`. */
    method Step(event: Event, at: nat, now: nat)
      requires Valid()
      modifies this, buf
      ensures Valid() && turns == old(turns) + [Turn(event, at, now)]
    {
      LogsAppend(turns, Turn(event, at, now), timeout);
      match event {
        case Timeout =>
        case FromNet(datagram, source, sendOk) => Accept(datagram, source, sendOk, at);
        case FromBridge(msg, sendOk) => Reply(msg, sendOk);
      }
      mtxState := Sweep(mtxState, now, timeout);
      turns := turns + [Turn(event, at, now)];
    }
  }
}
