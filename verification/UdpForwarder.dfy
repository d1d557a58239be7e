/** The UDP forwarder of the agent: it resolves its host, then sends every request to all the addresses found and hands
    every well-formed datagram it receives to the bridge. */
module UdpForwarder {
  import opened Codec
  import opened Seqs
  import opened UdpSocket

  const BUFFER_SIZE := 2048
  /** Milliseconds. */
  const RETRY := 5000

  datatype Address = V4(octets: nat, port: u16) | V6(groups: nat, port: u16)

  datatype Found = Resolved(addresses: seq<Address>) | LookupFailed

  /** Where a shutdown cuts a try short. */
  datatype Cut = Never | InLookup | InSleep

  /** One try: how long the lookup takes, what it finds, how late the timer of the sleep fires. */
  datatype Try = Try(took: nat, found: Found, late: nat, cut: Cut)

  datatype LookupEnd = Hosts(hosts: seq<Address>) | Stopped | StillLooking

  function V4sOf(t: Try): seq<Address> {
    if t.found.Resolved? then Pick(t.found.addresses, (a: Address) => a.V4?, (a: Address) => a) else []
  }

  predicate IsV4(a: Address) {
    a.V4?
  }

  /** The hosts are the IPv4 addresses found, all of them and in the order found; a failed lookup finds none. */
  lemma V4sAre(t: Try)
    ensures t.found == LookupFailed ==> V4sOf(t) == []
    ensures t.found.Resolved? ==>
      var found, at := t.found.addresses, Indices(t.found.addresses, |t.found.addresses|, IsV4);
      && |V4sOf(t)| == |at|
      && forall i | 0 <= i < |at| :: at[i] < |found| && V4sOf(t)[i] == found[at[i]] && V4sOf(t)[i].V4?
  {
    if t.found.Resolved? {
      var found, p := t.found.addresses, (a: Address) => a.V4?;
      PickAt(found, |found|, p, (a: Address) => a);
      IndicesSame(found, |found|, p, IsV4);
      IndicesAre(found, |found|, IsV4);
    }
  }

  predicate Fruitless(t: Try) {
    t.cut == Never && V4sOf(t) == []
  }

  /** When the lookup after a fruitless one begins: a quick one takes up the retry delay, a slow one adds to it. */
  function NextBegin(begin: nat, t: Try): (r: nat)
    ensures begin + RETRY <= r
  {
    begin + RETRY + t.late + if t.took <= RETRY then 0 else t.took
  }

  ghost predicate Paced(begins: seq<nat>, tries: seq<Try>) {
    |begins| <= |tries| && forall i: nat | i + 1 < |begins| :: begins[i + 1] == NextBegin(begins[i], tries[i])
  }

  lemma PacedAppend(begins: seq<nat>, tries: seq<Try>, begin: nat)
    requires Paced(begins, tries) && |begins| < |tries|
    requires begins != [] ==> begin == NextBegin(begins[|begins| - 1], tries[|begins| - 1])
    ensures Paced(begins + [begin], tries)
  {
  }

  /** All tries before the `n`th find nothing. */
  ghost predicate FruitlessBefore(tries: seq<Try>, n: nat) {
    n <= |tries| && forall i: nat | i < n :: Fruitless(tries[i])
  }

  lemma FruitlessNext(tries: seq<Try>, n: nat)
    requires FruitlessBefore(tries, n) && n < |tries| && Fruitless(tries[n])
    ensures FruitlessBefore(tries, n + 1)
  {
  }

  lemma PacedIsApart(begins: seq<nat>, tries: seq<Try>)
    requires Paced(begins, tries)
    ensures forall i: nat | i + 1 < |begins| ::
              begins[i + 1] == begins[i] + tries[i].late + if tries[i].took <= 5000 then 5000 else tries[i].took + 5000
  {
  }

  /** The lookups begin at least the retry delay apart, and the first that finds an IPv4 address, or is cut short,
      decides. */
  method Lookup(start: nat, tries: seq<Try>) returns (end: LookupEnd, begins: seq<nat>)
    ensures |begins| <= |tries| && forall i: nat | i + 1 < |begins| ::
              begins[i + 1] == begins[i] + tries[i].late + if tries[i].took <= 5000 then 5000 else tries[i].took + 5000
    ensures forall i: nat | i + 1 < |begins| :: tries[i].cut == Never && V4sOf(tries[i]) == []
    ensures end.StillLooking? ==> forall i: nat | i < |tries| :: tries[i].cut == Never && V4sOf(tries[i]) == []
    ensures !end.StillLooking? ==>
              begins != [] && var t := tries[|begins| - 1];
              && (t.cut != Never || V4sOf(t) != [])
              && (end.Hosts? <==> t.cut != InLookup && V4sOf(t) != [])
              && (end.Hosts? ==> end.hosts == V4sOf(t))
  {
    var clock: nat := start;
    begins, end := [], StillLooking;
    while |begins| < |tries|
      invariant Paced(begins, tries) && FruitlessBefore(tries, |begins|)
      invariant begins != [] ==> clock == NextBegin(begins[|begins| - 1], tries[|begins| - 1])
      decreases |tries| - |begins|
    {
      var t := tries[|begins|];
      var begin := clock;
      PacedAppend(begins, tries, begin);
      begins := begins + [begin];
      PacedIsApart(begins, tries);
      if t.cut == InLookup {
        return Stopped, begins;
      }
      var hosts := V4sOf(t);
      if hosts != [] {
        return Hosts(hosts), begins;
      }
      clock := clock + t.took;
      var elapsed := clock - begin;
      var sleepTime: nat := if elapsed <= RETRY then RETRY - elapsed else RETRY;
      if t.cut == InSleep {
        return Stopped, begins;
      }
      FruitlessNext(tries, |begins| - 1);
      clock := clock + sleepTime + t.late;
    }
    PacedIsApart(begins, tries);
  }

  datatype Sending = Sending(host: Address, msg: Message)

  function ToAllIn(msg: Message, hosts: seq<Address>, n: nat): seq<Sending>
    requires n <= |hosts|
  {
    if n == 0 then [] else ToAllIn(msg, hosts, n - 1) + [Sending(hosts[n - 1], msg)]
  }

  /** All sends for the first `n` requests. */
  function FanOut(msgs: seq<Message>, n: nat, hosts: seq<Address>): seq<Sending>
    requires n <= |msgs|
  {
    if n == 0 then [] else FanOut(msgs, n - 1, hosts) + ToAllIn(msgs[n - 1], hosts, |hosts|)
  }

  lemma {:induction false} FanOutOfPrefix(msgs: seq<Message>, msg: Message, n: nat, hosts: seq<Address>)
    requires n <= |msgs|
    ensures FanOut(msgs + [msg], n, hosts) == FanOut(msgs, n, hosts)
  {
    if n > 0 {
      FanOutOfPrefix(msgs, msg, n - 1, hosts);
    }
  }

  /** What was sent to one host. */
  function SentTo(wire: seq<Sending>, host: Address): seq<Message> {
    Pick(wire, (s: Sending) => s.host == host, (s: Sending) => s.msg)
  }

  function Repeat(msg: Message, times: nat): (r: seq<Message>) {
    if times == 0 then [] else Repeat(msg, times - 1) + [msg]
  }

  /** Every message `times` times in a row. */
  function Stutter(msgs: seq<Message>, n: nat, times: nat): seq<Message>
    requires n <= |msgs|
  {
    if n == 0 then [] else Stutter(msgs, n - 1, times) + Repeat(msgs[n - 1], times)
  }

  lemma {:induction false} OneRequestTo(msg: Message, hosts: seq<Address>, n: nat, host: Address)
    requires n <= |hosts|
    ensures SentTo(ToAllIn(msg, hosts, n), host) == Repeat(msg, CountIn(hosts, n, a => a == host))
  {
    if n > 0 {
      OneRequestTo(msg, hosts, n - 1, host);
      var last := Sending(hosts[n - 1], msg);
      PickConcat(ToAllIn(msg, hosts, n - 1), [last], (s: Sending) => s.host == host, (s: Sending) => s.msg);
      PickOne(last, (s: Sending) => s.host == host, (s: Sending) => s.msg);
    }
  }

  /** A host is sent the requests in order, each as often as the lookup listed the host. */
  lemma {:induction false} EachHostInOrder(msgs: seq<Message>, n: nat, hosts: seq<Address>, host: Address)
    requires n <= |msgs|
    ensures SentTo(FanOut(msgs, n, hosts), host) == Stutter(msgs, n, Count(hosts, a => a == host))
  {
    if n > 0 {
      EachHostInOrder(msgs, n - 1, hosts, host);
      OneRequestTo(msgs[n - 1], hosts, |hosts|, host);
      PickConcat(FanOut(msgs, n - 1, hosts), ToAllIn(msgs[n - 1], hosts, |hosts|),
                 (s: Sending) => s.host == host, (s: Sending) => s.msg);
    }
  }

  lemma {:induction false} StutterOnce(msgs: seq<Message>, n: nat)
    requires n <= |msgs|
    ensures Stutter(msgs, n, 1) == msgs[..n]
  {
    if n > 0 {
      StutterOnce(msgs, n - 1);
      assert Repeat(msgs[n - 1], 1) == [msgs[n - 1]] by {
        assert Repeat(msgs[n - 1], 0) == [];
      }
    }
  }

  /** A host listed once is sent exactly the requests, in order. */
  lemma ListedOnceGetsAll(msgs: seq<Message>, hosts: seq<Address>, host: Address)
    requires Count(hosts, (a: Address) => a == host) == 1
    ensures SentTo(FanOut(msgs, |msgs|, hosts), host) == msgs
  {
    EachHostInOrder(msgs, |msgs|, hosts, host);
    StutterOnce(msgs, |msgs|);
    assert msgs[..|msgs|] == msgs;
  }

  /** A datagram and whether the bridge still listens. */
  datatype Arrival = Arrival(datagram: seq<byte>, heard: bool)

  function Hands(a: Arrival): seq<Message> {
    if a.heard && |a.datagram| >= 2 then [Truncated(a.datagram, BUFFER_SIZE)] else []
  }

  /** The messages handed on from the first `n` datagrams. */
  function HandedOn(arrivals: seq<Arrival>, n: nat): seq<Message>
    requires n <= |arrivals|
  {
    Collect(arrivals, n, Hands)
  }

  predicate IsHeard(a: Arrival) {
    a.heard && |a.datagram| >= 2
  }

  function Front(a: Arrival): Message {
    if |a.datagram| < 2 then [0, 0] else a.datagram[..if |a.datagram| <= 2048 then |a.datagram| else 2048]
  }

  /** What is handed to the bridge: the valid datagrams that come while it listens, whole or as much as the buffer
      holds, in the order they come. */
  lemma HandedOnAre(arrivals: seq<Arrival>)
    ensures var handed, at := HandedOn(arrivals, |arrivals|), Indices(arrivals, |arrivals|, IsHeard);
      |handed| == |at| && forall i | 0 <= i < |at| :: at[i] < |arrivals| && handed[i] == Front(arrivals[at[i]])
  {
    forall k | 0 <= k < |arrivals|
      ensures Hands(arrivals[k]) == if IsHeard(arrivals[k]) then [Front(arrivals[k])] else []
    {
      assert arrivals[k].datagram[..|arrivals[k].datagram|] == arrivals[k].datagram;
    }
    CollectAt(arrivals, |arrivals|, Hands, IsHeard, Front);
  }

  /** What goes to the bridge can be framed. */
  lemma {:induction false} HandedOnFits(arrivals: seq<Arrival>, n: nat)
    requires n <= |arrivals|
    ensures AllFit(HandedOn(arrivals, n))
  {
    if n > 0 {
      HandedOnFits(arrivals, n - 1);
    }
  }

  datatype Event =
    | Shutdown
    | SocketError
    | FromBridge(msg: Message)
    | FromNet(arrival: Arrival)

  class Forwarder {
    const hosts: seq<Address>
    const buf: array<byte>
    var wire: seq<Sending>
    var toBridge: seq<Message>
    var running: bool
    ghost var taken: seq<Message>
    ghost var arrivals: seq<Arrival>

    ghost predicate Valid() reads this {
      && buf.Length == BUFFER_SIZE
      && wire == FanOut(taken, |taken|, hosts)
      && toBridge == HandedOn(arrivals, |arrivals|)
    }

    constructor (hosts: seq<Address>)
      ensures Valid() && running && this.hosts == hosts && taken == [] && arrivals == [] && fresh(buf)
    {
      this.hosts := hosts;
      buf := new byte[BUFFER_SIZE](_ => 0);
      wire, toBridge, running, taken, arrivals := [], [], true, [], [];
    }

    /** Failed sends are only logged, so every host gets its attempt. */
    method SendToAll(msg: Message)
      modifies this`wire
      ensures wire == old(wire) + ToAllIn(msg, hosts, |hosts|)
    {
      for i := 0 to |hosts|
        invariant wire == old(wire) + ToAllIn(msg, hosts, i)
      {
        wire := wire + [Sending(hosts[i], msg)];
      }
    }

    /** One turn of the event loop. */
    method Step(e: Event)
      requires Valid() && running
      modifies this, buf
      ensures Valid()
      ensures taken == old(taken) + if e.FromBridge? then [e.msg] else []
      ensures arrivals == old(arrivals) + if e.FromNet? then [e.arrival] else []
      ensures running <==> e.FromBridge? || e.FromNet?
    {
      match e
      case Shutdown => running := false;
      case SocketError => running := false;
      case FromBridge(msg) =>
        SendToAll(msg);
        FanOutOfPrefix(taken, msg, |taken|, hosts);
        taken := taken + [msg];
      case FromNet(arrival) =>
        var len := RecvFrom(buf, arrival.datagram);
        match TryNew(buf[..len]) {
          case Received(msg) =>
            if arrival.heard {
              toBridge := toBridge + [msg];
            }
          case _ =>
        }
        CollectAppend(arrivals, arrival, Hands);
        arrivals := arrivals + [arrival];
    }
  }
}
