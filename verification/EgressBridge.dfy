/** The agent's side of the routing protocol: requests from all sidecars go to one forwarder, and each reply goes to
    the channel registered under the name of the client that claimed its id. */
module EgressBridge {
  import opened Codec
  import opened PendingTable
  import opened History
  import opened Seqs

  type Name = string

  /** The sending half of a reply channel, told apart by the session that holds the receiving half. */
  type Channel = string

  datatype Event =
    | Timeout
    | Registration(name: Name, channel: Channel)
    | FromNet(msg: Message)
    | FromBridge(client: Name, request: Message, sendOk: bool)

  /** `deadAt` and `dead` are the channels whose receiver is gone when the event is handled and at the clean-up. */
  datatype Turn = Turn(event: Event, at: nat, now: nat, deadAt: set<Channel>, dead: set<Channel>)

  datatype Delivery = Delivery(channel: Channel, msg: Message)

  datatype Request = Request(client: Name, msg: Message)

  /** What becomes of a message that comes back from the forwarder. */
  datatype ReplyFate = Delivered | SendFailed | NoClient | Orphaned

  type Clients = map<Name, Channel>

  /** A request that the forwarder refused claims no id. */
  function OpOf(e: Event): Op<Name> {
    match e
    case FromNet(m) => Close(Id(m))
    case FromBridge(c, m, true) => Open(Id(m), c)
    case _ => Skip
  }

  function TickOf(t: Turn): Tick<Name> {
    Tick(OpOf(t.event), t.at, t.now)
  }

  function Ticks(turns: seq<Turn>): seq<Tick<Name>> {
    Map(TickOf, turns)
  }

  ghost function TableAt(turns: seq<Turn>, timeout: nat, k: nat): Table<Name>
    requires k <= |turns|
  {
    At(Ticks(turns), timeout, k)
  }

  function Alive(clients: Clients, dead: set<Channel>): Clients {
    map name | name in clients && clients[name] !in dead :: clients[name]
  }

  function NextClients(clients: Clients, t: Turn): Clients {
    Alive(if t.event.Registration? then clients[t.event.name := t.event.channel] else clients, t.dead)
  }

  ghost function ClientsAt(turns: seq<Turn>, k: nat): Clients
    requires k <= |turns|
  {
    if k == 0 then map[] else NextClients(ClientsAt(turns, k - 1), turns[k - 1])
  }

  function FateOfReply(m: Message, table: Table<Name>, clients: Clients, dead: set<Channel>): ReplyFate {
    if Id(m) !in table then Orphaned
    else
      var client := table[Id(m)].owner;
      if client !in clients then NoClient
      else if clients[client] in dead then SendFailed
      else Delivered
  }

  function Delivers(t: Turn, table: Table<Name>, clients: Clients): seq<Delivery> {
    if t.event.FromNet? && FateOfReply(t.event.msg, table, clients, t.deadAt) == Delivered
    then [Delivery(clients[table[Id(t.event.msg)].owner], t.event.msg)]
    else []
  }

  /** What a turn hands to the forwarder. */
  function Forwards(e: Event): seq<Request> {
    if e.FromBridge? && e.sendOk then [Request(e.client, e.request)] else []
  }

  function Receives(e: Event): seq<Request> {
    if e.FromBridge? then [Request(e.client, e.request)] else []
  }

  function Returns(e: Event): seq<Message> {
    if e.FromNet? then [e.msg] else []
  }

  // ---- The logs of a run ----

  ghost function DeliveredBy(turns: seq<Turn>, timeout: nat, k: nat): seq<Delivery>
    requires k <= |turns|
  {
    if k == 0 then [] else
      DeliveredBy(turns, timeout, k - 1)
      + Delivers(turns[k - 1], TableAt(turns, timeout, k - 1), ClientsAt(turns, k - 1))
  }

  ghost function ForwardedBy(turns: seq<Turn>, k: nat): seq<Request>
    requires k <= |turns|
  {
    Collect(turns, k, (t: Turn) => Forwards(t.event))
  }

  ghost function ReceivedBy(turns: seq<Turn>, k: nat): seq<Request>
    requires k <= |turns|
  {
    Collect(turns, k, (t: Turn) => Receives(t.event))
  }

  ghost function ReturnedBy(turns: seq<Turn>, k: nat): seq<Message>
    requires k <= |turns|
  {
    Collect(turns, k, (t: Turn) => Returns(t.event))
  }

  lemma {:induction false} StateOfPrefix(turns: seq<Turn>, t: Turn, timeout: nat, k: nat)
    requires k <= |turns|
    ensures TableAt(turns + [t], timeout, k) == TableAt(turns, timeout, k)
    ensures ClientsAt(turns + [t], k) == ClientsAt(turns, k)
  {
    AtPrefix(Ticks(turns), [TickOf(t)], timeout, k);
    assert Ticks(turns + [t]) == Ticks(turns) + [TickOf(t)];
    if k > 0 {
      StateOfPrefix(turns, t, timeout, k - 1);
    }
  }

  lemma {:induction false} DeliveredOfPrefix(turns: seq<Turn>, t: Turn, timeout: nat, k: nat)
    requires k <= |turns|
    ensures DeliveredBy(turns + [t], timeout, k) == DeliveredBy(turns, timeout, k)
  {
    if k > 0 {
      StateOfPrefix(turns, t, timeout, k - 1);
      DeliveredOfPrefix(turns, t, timeout, k - 1);
    }
  }

  lemma LogsAppend(turns: seq<Turn>, t: Turn, timeout: nat)
    ensures var n := |turns|;
      && TableAt(turns + [t], timeout, n + 1) == Next(TableAt(turns, timeout, n), TickOf(t), timeout)
      && ClientsAt(turns + [t], n + 1) == NextClients(ClientsAt(turns, n), t)
      && DeliveredBy(turns + [t], timeout, n + 1)
         == DeliveredBy(turns, timeout, n) + Delivers(t, TableAt(turns, timeout, n), ClientsAt(turns, n))
      && ForwardedBy(turns + [t], n + 1) == ForwardedBy(turns, n) + Forwards(t.event)
      && ReceivedBy(turns + [t], n + 1) == ReceivedBy(turns, n) + Receives(t.event)
      && ReturnedBy(turns + [t], n + 1) == ReturnedBy(turns, n) + Returns(t.event)
  {
    StateOfPrefix(turns, t, timeout, |turns|);
    DeliveredOfPrefix(turns, t, timeout, |turns|);
    CollectAppend(turns, t, (u: Turn) => Forwards(u.event));
    CollectAppend(turns, t, (u: Turn) => Receives(u.event));
    CollectAppend(turns, t, (u: Turn) => Returns(u.event));
    assert Ticks(turns + [t])[|turns|] == TickOf(t);
  }

  // ---- Where a delivery comes from ----

  ghost predicate NotRegisteredBetween(turns: seq<Turn>, name: Name, lo: nat, hi: nat)
    requires hi <= |turns|
  {
    forall j | lo < j < hi :: !(turns[j].event.Registration? && turns[j].event.name == name)
  }

  /** The turn that registered the channel a name stands for: the last registration of that name, its channel
      alive at every clean-up since. */
  ghost function Registrar(turns: seq<Turn>, k: nat, name: Name): (r: nat)
    requires k <= |turns| && name in ClientsAt(turns, k)
    ensures r < k && turns[r].event == Registration(name, ClientsAt(turns, k)[name])
    ensures NotRegisteredBetween(turns, name, r, k)
    ensures forall j | r <= j < k :: ClientsAt(turns, k)[name] !in turns[j].dead
  {
    if turns[k - 1].event.Registration? && turns[k - 1].event.name == name then k - 1
    else Registrar(turns, k - 1, name)
  }

  ghost predicate DeliversAt(turns: seq<Turn>, timeout: nat, j: nat)
    requires j < |turns|
  {
    Delivers(turns[j], TableAt(turns, timeout, j), ClientsAt(turns, j)) != []
  }

  /** The request a delivery answers. */
  ghost function MatchOf(turns: seq<Turn>, timeout: nat, j: nat): (o: nat)
    requires j < |turns| && DeliversAt(turns, timeout, j)
    ensures o < j && turns[o].event.FromBridge? && turns[o].event.sendOk
    ensures Id(turns[o].event.request) == Id(turns[j].event.msg)
    ensures Opened(Ticks(turns), timeout, o, Id(turns[j].event.msg))
    ensures TableAt(turns, timeout, j)[Id(turns[j].event.msg)].owner == turns[o].event.client
  {
    Opener(Ticks(turns), timeout, j, Id(turns[j].event.msg))
  }

  /** A delivery goes to the channel registered last under the name of the client whose request opened the entry. */
  lemma DeliveryGoesToRequester(turns: seq<Turn>, timeout: nat, j: nat) returns (r: nat)
    requires j < |turns| && DeliversAt(turns, timeout, j)
    ensures var d := Delivers(turns[j], TableAt(turns, timeout, j), ClientsAt(turns, j))[0];
      var o := MatchOf(turns, timeout, j);
      && d.msg == turns[j].event.msg && Id(d.msg) == Id(turns[o].event.request)
      && r < j && turns[r].event == Registration(turns[o].event.client, d.channel)
      && NotRegisteredBetween(turns, turns[o].event.client, r, j)
      && d.channel !in turns[j].deadAt
  {
    r := Registrar(turns, j, turns[MatchOf(turns, timeout, j)].event.client);
  }

  /** No request is answered twice, however often the upstream repeats itself. */
  lemma DeliveriesMatchDistinctRequests(turns: seq<Turn>, timeout: nat, j1: nat, j2: nat)
    requires j1 < j2 < |turns| && DeliversAt(turns, timeout, j1) && DeliversAt(turns, timeout, j2)
    ensures MatchOf(turns, timeout, j1) != MatchOf(turns, timeout, j2)
  {
    AnswersMatchDistinctRequests(Ticks(turns), timeout, j1, j2);
  }

  lemma DeliveryIsFresh(turns: seq<Turn>, timeout: nat, gap: nat, j: nat)
    requires Timely(Ticks(turns), gap)
    requires j < |turns| && DeliversAt(turns, timeout, j)
    ensures turns[MatchOf(turns, timeout, j)].at <= turns[j].at < turns[MatchOf(turns, timeout, j)].at + timeout + gap
  {
    AnswersAreFresh(Ticks(turns), timeout, gap, j);
  }

  /** Turn `j` delivers a reply to a request that is `age` old. */
  ghost predicate DeliversAtAge(turns: seq<Turn>, timeout: nat, j: nat, age: nat)
    requires j < |turns|
  {
    DeliversAt(turns, timeout, j) && turns[j].at == turns[MatchOf(turns, timeout, j)].at + age
  }

  /** A reply delivered at or after the timeout of its request. */
  ghost predicate Late(turns: seq<Turn>, timeout: nat, j: nat)
    requires j < |turns|
  {
    exists age: nat :: age >= timeout && DeliversAtAge(turns, timeout, j, age)
  }

  /** A client registers, and its request, received just in time to survive its sweep, is answered after the longest
      turn. */
  function LatestTurns(timeout: nat, gap: nat): (turns: seq<Turn>)
    requires timeout > 0
    ensures |turns| == 3
  {
    var last, m: Message := timeout - 1 + gap, [0, 0];
    [Turn(Registration("a", "a"), 0, 0, {}, {}), Turn(FromBridge("a", m, true), 0, timeout - 1, {}, {}),
     Turn(FromNet(m), last, last, {}, {})]
  }

  lemma LatestClients(timeout: nat, gap: nat)
    requires timeout > 0
    ensures ClientsAt(LatestTurns(timeout, gap), 2) == map["a" := "a"]
  {
    var turns := LatestTurns(timeout, gap);
    assert ClientsAt(turns, 0) == map[];
    assert ClientsAt(turns, 1) == NextClients(map[], turns[0]) == map["a" := "a"];
    assert ClientsAt(turns, 2) == NextClients(map["a" := "a"], turns[1]);
  }

  lemma LatestTable(timeout: nat, gap: nat)
    requires timeout > 0
    ensures TableAt(LatestTurns(timeout, gap), timeout, 2) == map[0 := Entry(0, "a")]
  {
    var turns := LatestTurns(timeout, gap);
    assert TableAt(turns, timeout, 0) == map[];
    assert TableAt(turns, timeout, 1) == Next(map[], TickOf(turns[0]), timeout) == map[];
    assert TableAt(turns, timeout, 2) == Next(map[], TickOf(turns[1]), timeout);
  }

  lemma LatestDelivery(timeout: nat, gap: nat)
    requires timeout > 0
    ensures Timely(Ticks(LatestTurns(timeout, gap)), gap)
    ensures DeliversAtAge(LatestTurns(timeout, gap), timeout, 2, timeout + gap - 1)
  {
    LatestClients(timeout, gap);
    LatestTable(timeout, gap);
  }

  /** Deliveries can be late exactly when a turn takes time and requests are remembered at all. */
  lemma NeverLateIff(timeout: nat, gap: nat)
    ensures (forall turns, j: nat | Timely(Ticks(turns), gap) && j < |turns| :: !Late(turns, timeout, j))
       <==> gap == 0 || timeout == 0
  {
    if gap > 0 && timeout > 0 {
      LatestDelivery(timeout, gap);
      assert Late(LatestTurns(timeout, gap), timeout, 2);
    }
    forall turns, j: nat | Timely(Ticks(turns), gap) && j < |turns| && Late(turns, timeout, j)
      ensures gap > 0 && timeout > 0
    {
      assert Answered(Ticks(turns), timeout, j);
      DeliveryIsFresh(turns, timeout, gap, j);
      if timeout == 0 {
        NoTimeoutNoAnswer(Ticks(turns), j);
      }
    }
  }

  // ---- Ledgers ----

  ghost function Replies(turns: seq<Turn>, timeout: nat, k: nat, fate: ReplyFate): nat
    requires k <= |turns|
  {
    if k == 0 then 0 else
      var t := turns[k - 1];
      Replies(turns, timeout, k - 1, fate)
      + One(t.event.FromNet?
            && FateOfReply(t.event.msg, TableAt(turns, timeout, k - 1), ClientsAt(turns, k - 1), t.deadAt) == fate)
  }

  ghost function Refused(turns: seq<Turn>, k: nat): nat
    requires k <= |turns|
  {
    if k == 0 then 0 else Refused(turns, k - 1) + One(turns[k - 1].event.FromBridge? && !turns[k - 1].event.sendOk)
  }

  /** Requests are refused by the forwarder, collide, or open an entry; entries are answered, expire or are pending. */
  lemma RequestLedger(turns: seq<Turn>, timeout: nat)
    ensures var n, ticks := |turns|, Ticks(turns);
      && |ReceivedBy(turns, n)|
         == Refused(turns, n) + Tally(ticks, timeout, n, Colliding) + Tally(ticks, timeout, n, Claiming)
      && Tally(ticks, timeout, n, Claiming)
         == Tally(ticks, timeout, n, Answering) + Expired(ticks, timeout, n) + |TableAt(turns, timeout, n)|
      && |TableAt(turns, timeout, n)| <= 0x1_0000
  {
    Ledger(Ticks(turns), timeout, |turns|);
    TableBounded(TableAt(turns, timeout, |turns|));
    RequestsSplit(turns, timeout, |turns|);
  }

  /** Messages from the forwarder are delivered, lost to a closed channel, without a client, or orphaned; all but the
      orphaned ones used up an entry. */
  lemma ReplyLedger(turns: seq<Turn>, timeout: nat)
    ensures var n := |turns|;
      && |ReturnedBy(turns, n)|
         == |DeliveredBy(turns, timeout, n)| + Replies(turns, timeout, n, SendFailed)
          + Replies(turns, timeout, n, NoClient) + Replies(turns, timeout, n, Orphaned)
      && Tally(Ticks(turns), timeout, n, Answering)
         == |DeliveredBy(turns, timeout, n)| + Replies(turns, timeout, n, SendFailed)
          + Replies(turns, timeout, n, NoClient)
  {
    RepliesSplit(turns, timeout, |turns|);
    AnswersSplit(turns, timeout, |turns|);
  }

  lemma {:induction false} RequestsSplit(turns: seq<Turn>, timeout: nat, k: nat)
    requires k <= |turns|
    ensures |ReceivedBy(turns, k)| == Refused(turns, k)
         + Tally(Ticks(turns), timeout, k, Colliding) + Tally(Ticks(turns), timeout, k, Claiming)
  {
    if k > 0 {
      RequestsSplit(turns, timeout, k - 1);
      RequestFate(turns[k - 1].event, TableAt(turns, timeout, k - 1));
    }
  }

  lemma RequestFate(e: Event, table: Table<Name>)
    ensures |Receives(e)| == One(e.FromBridge? && !e.sendOk)
         + One(FateOf(OpOf(e), table) == Colliding) + One(FateOf(OpOf(e), table) == Claiming)
  {
  }

  lemma {:induction false} RepliesSplit(turns: seq<Turn>, timeout: nat, k: nat)
    requires k <= |turns|
    ensures |ReturnedBy(turns, k)|
         == |DeliveredBy(turns, timeout, k)| + Replies(turns, timeout, k, SendFailed)
          + Replies(turns, timeout, k, NoClient) + Replies(turns, timeout, k, Orphaned)
  {
    if k > 0 {
      RepliesSplit(turns, timeout, k - 1);
    }
  }

  lemma {:induction false} AnswersSplit(turns: seq<Turn>, timeout: nat, k: nat)
    requires k <= |turns|
    ensures Tally(Ticks(turns), timeout, k, Answering)
         == |DeliveredBy(turns, timeout, k)| + Replies(turns, timeout, k, SendFailed)
          + Replies(turns, timeout, k, NoClient)
  {
    if k > 0 {
      AnswersSplit(turns, timeout, k - 1);
    }
  }

  // ---- Isolation between clients ----

  function From(client: Name, id: u16): Request -> bool {
    (r: Request) => r.client == client && Id(r.msg) == id
  }

  function To(channel: Channel, id: u16): Delivery -> bool {
    (d: Delivery) => d.channel == channel && Id(d.msg) == id
  }

  /** Every session registers its own channel under its own name. */
  ghost predicate OwnChannels(turns: seq<Turn>) {
    forall t | t in turns && t.event.Registration? :: t.event.channel == t.event.name
  }

  /** A client never gets more messages with an id than it sent requests with that id, refused ones not counted. */
  lemma DeliveriesNeverExceedRequests(turns: seq<Turn>, timeout: nat, client: Name, id: u16)
    requires OwnChannels(turns)
    ensures var n := |turns|;
      Count(DeliveredBy(turns, timeout, n), To(client, id)) + One(Holds(TableAt(turns, timeout, n), id, client))
      <= Count(ForwardedBy(turns, n), From(client, id)) <= Count(ReceivedBy(turns, n), From(client, id))
  {
    OwnerLedger(Ticks(turns), timeout, |turns|, id, client);
    DeliveriesAreAnswers(turns, timeout, |turns|, client, id);
    ForwardedAreRequests(turns, |turns|, client, id);
    ForwardedAreReceived(turns, |turns|, client, id);
  }

  lemma {:induction false} DeliveriesAreAnswers(turns: seq<Turn>, timeout: nat, k: nat, client: Name, id: u16)
    requires k <= |turns| && OwnChannels(turns)
    ensures Count(DeliveredBy(turns, timeout, k), To(client, id)) <= Answers(Ticks(turns), timeout, k, id, client)
  {
    if k > 0 {
      DeliveriesAreAnswers(turns, timeout, k - 1, client, id);
      OwnChannelOfName(turns, k - 1);
      TurnDelivers(DeliveredBy(turns, timeout, k - 1), turns[k - 1],
                   TableAt(turns, timeout, k - 1), ClientsAt(turns, k - 1), client, id);
    }
  }

  lemma OwnChannelOfName(turns: seq<Turn>, k: nat)
    requires k <= |turns| && OwnChannels(turns)
    ensures forall name | name in ClientsAt(turns, k) :: ClientsAt(turns, k)[name] == name
  {
    forall name | name in ClientsAt(turns, k) ensures ClientsAt(turns, k)[name] == name {
      assert turns[Registrar(turns, k, name)] in turns;
    }
  }

  lemma TurnDelivers(delivered: seq<Delivery>, t: Turn, table: Table<Name>, clients: Clients, client: Name, id: u16)
    requires forall name | name in clients :: clients[name] == name
    ensures Count(delivered + Delivers(t, table, clients), To(client, id))
         <= Count(delivered, To(client, id)) + One(OpOf(t.event) == Close(id) && Holds(table, id, client))
  {
    CountConcat(delivered, Delivers(t, table, clients), To(client, id));
    if Delivers(t, table, clients) != [] {
      CountOne(Delivers(t, table, clients)[0], To(client, id));
    }
  }

  lemma {:induction false} ForwardedAreRequests(turns: seq<Turn>, k: nat, client: Name, id: u16)
    requires k <= |turns|
    ensures Count(ForwardedBy(turns, k), From(client, id)) == Requests(Ticks(turns), k, id, client)
  {
    if k > 0 {
      ForwardedAreRequests(turns, k - 1, client, id);
      TurnForwards(ForwardedBy(turns, k - 1), turns[k - 1].event, client, id);
    }
  }

  lemma TurnForwards(forwarded: seq<Request>, e: Event, client: Name, id: u16)
    ensures Count(forwarded + Forwards(e), From(client, id))
         == Count(forwarded, From(client, id)) + One(OpOf(e) == Open(id, client))
  {
    CountConcat(forwarded, Forwards(e), From(client, id));
    if Forwards(e) != [] {
      CountOne(Forwards(e)[0], From(client, id));
    }
  }

  lemma {:induction false} ForwardedAreReceived(turns: seq<Turn>, k: nat, client: Name, id: u16)
    requires k <= |turns|
    ensures Count(ForwardedBy(turns, k), From(client, id)) <= Count(ReceivedBy(turns, k), From(client, id))
  {
    if k > 0 {
      ForwardedAreReceived(turns, k - 1, client, id);
      var e := turns[k - 1].event;
      CountConcat(ForwardedBy(turns, k - 1), Forwards(e), From(client, id));
      CountConcat(ReceivedBy(turns, k - 1), Receives(e), From(client, id));
      assert Forwards(e) == [] || Forwards(e) == Receives(e);
    }
  }

  function MessageOf(d: Delivery): Message {
    d.msg
  }

  /** Deliveries are messages from the forwarder, in order, none used twice. */
  lemma {:induction false} DeliveriesAreReturned(turns: seq<Turn>, timeout: nat, k: nat)
    requires k <= |turns|
    ensures Subsequence(Map(MessageOf, DeliveredBy(turns, timeout, k)), ReturnedBy(turns, k))
  {
    if k > 0 {
      DeliveriesAreReturned(turns, timeout, k - 1);
      var more := Delivers(turns[k - 1], TableAt(turns, timeout, k - 1), ClientsAt(turns, k - 1));
      assert more == [] || (turns[k - 1].event.FromNet? && |more| == 1 && more[0].msg == turns[k - 1].event.msg);
      GrowDeliveries(DeliveredBy(turns, timeout, k - 1), ReturnedBy(turns, k - 1), more, Returns(turns[k - 1].event));
    }
  }

  lemma GrowDeliveries(before: seq<Delivery>, returned: seq<Message>, more: seq<Delivery>, back: seq<Message>)
    requires Subsequence(Map(MessageOf, before), returned)
    requires |back| <= 1 && (more == [] || (|more| == 1 && back == [more[0].msg]))
    ensures Subsequence(Map(MessageOf, before + more), returned + back)
  {
    MapConcat(MessageOf, before, more);
    if back == [] {
      assert before + more == before && returned + back == returned;
    } else {
      assert back == [back[0]] && (more != [] ==> Map(MessageOf, more) == [more[0].msg]);
      SubsequenceGrow(Map(MessageOf, before), returned, Map(MessageOf, more), back[0]);
    }
  }

  // ---- The turns of a run, said without the tables ----

  predicate Registers(t: Turn, name: Name, channel: Channel) {
    t.event == Registration(name, channel)
  }

  /** Turn `r` registered this channel, the name was not registered again before turn `k`, and no clean-up since found
      the channel dead. */
  ghost predicate Stands(turns: seq<Turn>, r: nat, k: nat, name: Name, channel: Channel)
    requires k <= |turns|
  {
    && r < k && Registers(turns[r], name, channel)
    && NotRegisteredBetween(turns, name, r, k)
    && forall j | r <= j < k :: channel !in turns[j].dead
  }

  /** A name stands for a channel exactly as long as its last registration is of this channel and the channel is alive;
      what becomes of other channels does not matter. */
  lemma RegisteredIff(turns: seq<Turn>, k: nat, name: Name, channel: Channel)
    requires k <= |turns|
    ensures name in ClientsAt(turns, k) && ClientsAt(turns, k)[name] == channel
       <==> exists r: nat :: Stands(turns, r, k, name, channel)
  {
    if name in ClientsAt(turns, k) && ClientsAt(turns, k)[name] == channel {
      assert Stands(turns, Registrar(turns, k, name), k, name, channel);
    }
    if r: nat :| Stands(turns, r, k, name, channel) {
      StaysRegistered(turns, r, k, name, channel, k);
    }
  }

  lemma {:induction false} StaysRegistered(turns: seq<Turn>, r: nat, k: nat, name: Name, channel: Channel, j: nat)
    requires k <= |turns| && Stands(turns, r, k, name, channel) && r < j <= k
    ensures name in ClientsAt(turns, j) && ClientsAt(turns, j)[name] == channel
    decreases j
  {
    if j > r + 1 {
      StaysRegistered(turns, r, k, name, channel, j - 1);
    }
  }

  /** The last registration of this name, and it is alive. */
  ghost predicate Reachable(turns: seq<Turn>, k: nat, name: Name, dead: set<Channel>)
    requires k <= |turns|
  {
    exists r: nat, channel :: Stands(turns, r, k, name, channel) && channel !in dead
  }

  lemma ReachableIff(turns: seq<Turn>, k: nat, name: Name, dead: set<Channel>)
    requires k <= |turns|
    ensures Reachable(turns, k, name, dead)
       <==> name in ClientsAt(turns, k) && ClientsAt(turns, k)[name] !in dead
  {
    if Reachable(turns, k, name, dead) {
      var r: nat, channel :| Stands(turns, r, k, name, channel) && channel !in dead;
      RegisteredIff(turns, k, name, channel);
    }
    if name in ClientsAt(turns, k) && ClientsAt(turns, k)[name] !in dead {
      RegisteredIff(turns, k, name, ClientsAt(turns, k)[name]);
      var r: nat :| Stands(turns, r, k, name, ClientsAt(turns, k)[name]);
    }
  }

  predicate IsRequest(t: Turn) {
    t.event.FromBridge? && t.event.sendOk
  }

  /** What a turn means for requests and replies. */
  function BeatOf(t: Turn): Beat<Name> {
    Beat(if IsRequest(t) then Asked(t.event.request, t.event.client)
         else if t.event.FromNet? then CameBack(t.event.msg)
         else Nothing, t.at, t.now)
  }

  function Beats(turns: seq<Turn>): seq<Beat<Name>> {
    Map(BeatOf, turns)
  }

  lemma TicksOfBeats(turns: seq<Turn>)
    ensures TicksOf(Ticks(turns), Beats(turns))
  {
  }

  /** A message that comes back in turn `k` has this channel to go to: request `o` can be answered, registration `r` of
      the client that made it stands, and its channel is open. */
  ghost predicate GoesTo(turns: seq<Turn>, timeout: nat, msg: Message, dead: set<Channel>, o: nat, r: nat,
                         channel: Channel) {
    && Answerable(Beats(turns), timeout, o, |turns|, msg) && IsRequest(turns[o])
    && Stands(turns, r, |turns|, turns[o].event.client, channel) && channel !in dead
  }

  /** Exactly what a turn delivers, said without the tables: a message that comes back goes, whole, to the open channel
      its requester registered last; nothing else is delivered. */
  lemma DeliveredByTurn(turns: seq<Turn>, t: Turn, timeout: nat)
    ensures var before, after := DeliveredBy(turns, timeout, |turns|), DeliveredBy(turns + [t], timeout, |turns| + 1);
      && (forall o: nat, r: nat, c | t.event.FromNet? && GoesTo(turns, timeout, t.event.msg, t.deadAt, o, r, c) ::
            after == before + [Delivery(c, t.event.msg)])
      && (!t.event.FromNet?
          || !(exists o: nat, r: nat, c :: GoesTo(turns, timeout, t.event.msg, t.deadAt, o, r, c)) ==>
            after == before)
  {
    LogsAppend(turns, t, timeout);
    if t.event.FromNet? {
      TicksOfBeats(turns);
      TableByHistory(Ticks(turns), Beats(turns), timeout, |turns|, t.event.msg);
      forall o: nat, r: nat, c | GoesTo(turns, timeout, t.event.msg, t.deadAt, o, r, c)
        ensures Delivers(t, TableAt(turns, timeout, |turns|), ClientsAt(turns, |turns|)) == [Delivery(c, t.event.msg)]
      {
        RegisteredIff(turns, |turns|, turns[o].event.client, c);
      }
      if Delivers(t, TableAt(turns, timeout, |turns|), ClientsAt(turns, |turns|)) != [] {
        SomewhereToGo(turns, t, timeout);
      }
    }
  }

  lemma {:induction false} SomewhereToGo(turns: seq<Turn>, t: Turn, timeout: nat)
    requires Delivers(t, TableAt(turns, timeout, |turns|), ClientsAt(turns, |turns|)) != []
    ensures exists o: nat, r: nat, c :: GoesTo(turns, timeout, t.event.msg, t.deadAt, o, r, c)
  {
    TicksOfBeats(turns);
    TableByHistory(Ticks(turns), Beats(turns), timeout, |turns|, t.event.msg);
    var o: nat :| Answerable(Beats(turns), timeout, o, |turns|, t.event.msg);
    var client := turns[o].event.client;
    var channel := ClientsAt(turns, |turns|)[client];
    RegisteredIff(turns, |turns|, client, channel);
    var r: nat :| Stands(turns, r, |turns|, client, channel);
    assert GoesTo(turns, timeout, t.event.msg, t.deadAt, o, r, channel);
  }

  function RequestOf(t: Turn): Request {
    if t.event.FromBridge? then Request(t.event.client, t.event.request) else Request("", [0, 0])
  }

  /** What went to the forwarder in a run: the requests it took, in the order they came, each once. */
  lemma ForwardedAre(turns: seq<Turn>)
    ensures var forwarded, at := ForwardedBy(turns, |turns|), Indices(turns, |turns|, IsRequest);
      |forwarded| == |at| && forall i | 0 <= i < |at| :: at[i] < |turns| && forwarded[i] == RequestOf(turns[at[i]])
  {
    CollectAt(turns, |turns|, (t: Turn) => Forwards(t.event), IsRequest, RequestOf);
  }

  // ---- The event loop ----

  class Bridge {
    const timeout: nat
    var clients: Clients
    var messages: Table<Name>
    var toForwarder: seq<Request>
    var delivered: seq<Delivery>
    ghost var turns: seq<Turn>

    ghost predicate Valid() reads this {
      && messages == TableAt(turns, timeout, |turns|)
      && clients == ClientsAt(turns, |turns|)
      && toForwarder == ForwardedBy(turns, |turns|)
      && delivered == DeliveredBy(turns, timeout, |turns|)
    }

    constructor (timeout: nat)
      ensures Valid() && turns == [] && this.timeout == timeout
    {
      this.timeout := timeout;
      clients, messages, toForwarder, delivered, turns := map[], map[], [], [], [];
    }

    method CleanupClients(dead: set<Channel>)
      modifies this`clients
      ensures clients == Alive(old(clients), dead)
    {
      var rest, kept: Clients := clients, map[];
      while rest != map[]
        invariant forall name | name in rest :: name in old(clients) && rest[name] == old(clients)[name]
        invariant forall name | name in kept ::
            name in old(clients) && name !in rest && kept[name] == old(clients)[name]
        invariant forall name | name in old(clients) && name !in rest ::
            name in kept <==> old(clients)[name] !in dead
        decreases rest.Keys
      {
        var name :| name in rest;
        if rest[name] !in dead {
          kept := kept[name := rest[name]];
        }
        assert (rest - {name}).Keys == rest.Keys - {name};
        rest := rest - {name};
      }
      clients := kept;
    }

    method FromNetwork(msg: Message, dead: set<Channel>)
      modifies this`messages, this`delivered
      ensures messages == Apply(old(messages), Close(Id(msg)), 0)
      ensures delivered == old(delivered)
           + Delivers(Turn(FromNet(msg), 0, 0, dead, dead), old(messages), clients)
    {
      if Id(msg) in messages {
        var state := messages[Id(msg)];
        messages := messages - {Id(msg)};
        if state.owner in clients {
          var channel := clients[state.owner];
          if channel !in dead {
            delivered := delivered + [Delivery(channel, msg)];
          }
        }
      }
    }

    method FromSession(client: Name, msg: Message, sendOk: bool, at: nat)
      modifies this`messages, this`toForwarder
      ensures messages == Apply(old(messages), OpOf(FromBridge(client, msg, sendOk)), at)
      ensures toForwarder == old(toForwarder) + Forwards(FromBridge(client, msg, sendOk))
    {
      if sendOk {
        toForwarder := toForwarder + [Request(client, msg)];
        messages := Register(messages, Id(msg), Entry(at, client));
      }
    }

    method Handle(event: Event, at: nat, deadAt: set<Channel>)
      modifies this`clients, this`messages, this`toForwarder, this`delivered
      ensures messages == Apply(old(messages), OpOf(event), at)
      ensures clients == if event.Registration? then old(clients)[event.name := event.channel] else old(clients)
      ensures toForwarder == old(toForwarder) + Forwards(event)
      ensures delivered == old(delivered) + Delivers(Turn(event, at, at, deadAt, deadAt), old(messages), old(clients))
    {
      match event
      case Timeout =>
      case Registration(name, channel) => clients := clients[name := channel];
      case FromNet(msg) => FromNetwork(msg, deadAt);
      case FromBridge(client, request, sendOk) => FromSession(client, request, sendOk, at);
    }

    /** One turn of the loop: the event, then both clean-ups. */
    method Step(event: Event, at: nat, now: nat, deadAt: set<Channel>, dead: set<Channel>)
      requires Valid()
      modifies this
      ensures Valid() && turns == old(turns) + [Turn(event, at, now, deadAt, dead)]
    {
      ghost var t := Turn(event, at, now, deadAt, dead);
      LogsAppend(turns, t, timeout);
      Handle(event, at, deadAt);
      CleanupClients(dead);
      messages := Sweep(messages, now, timeout);
      turns := turns + [t];
    }
  }
}
