/** One request all the way up and its reply all the way down: when nothing goes wrong on the way, a client gets the
    answer of the upstream, byte for byte. */
module EndToEnd {
  import opened Codec
  import opened PendingTable
  import opened Seqs
  import opened FramedLink
  import opened Routing
  import opened Guarantees
  import IB = IngressBridge
  import EB = EgressBridge

  /** Who asks what, through which sidecar, and what the upstream answers. */
  datatype Case = Case(
    agentTimeout: nat,
    timeout: nat,
    y: Name,
    addr: IB.SocketAddr,
    request: Message,
    reply: Message)

  /** A request that fits the bridge's buffer, and a reply with the same first two bytes. */
  predicate Proper(c: Case) {
    c.agentTimeout > 0 && c.timeout > 0 && |c.request| <= 1524 && Fits(c.reply) && c.request[..2] == c.reply[..2]
  }

  /** The sidecar connects, the client asks, the upstream answers; each task does its part in turn. */
  function Round(c: Case): (actions: seq<Action>)
    ensures |actions| == 12
  {
    [Connect(c.y, c.timeout), EgressMail(true, 0, 0),
     Ingress(c.y, IB.FromNet(c.request, c.addr, true), 0, 0), ClientWrite(c.y), SessionRead(c.y),
     EgressMail(true, 0, 0), UpstreamTake, UpstreamEmit(c.reply), EgressNet(0, 0),
     SessionWrite(c.y), ClientRead(c.y), Ingress(c.y, IB.FromBridge(c.reply, true), 0, 0)]
  }

  function Asks(c: Case): IB.Turn {
    IB.Turn(IB.FromNet(c.request, c.addr, true), 0, 0)
  }

  function GetsReply(c: Case): IB.Turn {
    IB.Turn(IB.FromBridge(c.reply, true), 0, 0)
  }

  function Registers(c: Case): EB.Turn {
    EB.Turn(EB.Registration(c.y, c.y), 0, 0, {}, {})
  }

  function Forwards(c: Case): EB.Turn {
    EB.Turn(EB.FromBridge(c.y, c.request, true), 0, 0, {}, {})
  }

  function Delivers(c: Case): EB.Turn {
    EB.Turn(EB.FromNet(c.reply), 0, 0, {}, {})
  }

  function OnWire(m: Message): Link {
    Link(0, Encode(m), false)
  }

  /** The world with this one sidecar. */
  function Only(c: Case, s: Sidecar, inbox: seq<Mail>, egress: seq<EB.Turn>, toUpstream: seq<Message>,
                taken: seq<Message>, fromUpstream: seq<Message>, emitted: seq<Message>): World {
    World(c.agentTimeout, map[c.y := s], inbox, egress, toUpstream, taken, fromUpstream, emitted)
  }

  function Fresh(c: Case): Sidecar {
    Started(c.timeout)
  }

  function Waiting(c: Case): Sidecar {
    Fresh(c).(turns := [Asks(c)])
  }

  /** Whatever the world, the one sidecar is alone in it. */
  lemma OneSidecar(c: Case, a: Sidecar, b: Sidecar)
    ensures map[c.y := a][c.y := b] == map[c.y := b]
    ensures b.session ==> forall w: World | w.sidecars == map[c.y := b] :: Dead(w) == {}
  {
  }

  lemma Connects(c: Case)
    ensures var w := Start(c.agentTimeout);
      && Enabled(w, Connect(c.y, c.timeout))
      && Act(w, Connect(c.y, c.timeout)) == Only(c, Fresh(c), [Register(c.y)], [], [], [], [], [])
  {
    assert [] + [Register(c.y)] == [Register(c.y)];
  }

  /** A turn of the agent that takes something from a session. */
  lemma MailTurn(w: World, e: EB.Event)
    requires !e.FromNet? && Dead(w) == {}
    ensures EgressTurn(w, e, 0, 0) == w.(egress := w.egress + [EB.Turn(e, 0, 0, {}, {})],
                                         toUpstream := w.toUpstream + Map(RequestMessage, EB.Forwards(e)))
  {
  }

  lemma IsRegistered(c: Case)
    ensures var w := Only(c, Fresh(c), [Register(c.y)], [], [], [], [], []);
      && Enabled(w, EgressMail(true, 0, 0))
      && Act(w, EgressMail(true, 0, 0)) == Only(c, Fresh(c), [], [Registers(c)], [], [], [], [])
  {
    var w := Only(c, Fresh(c), [], [], [], [], [], []);
    assert [Register(c.y)][1..] == [];
    OneSidecar(c, Fresh(c), Fresh(c));
    MailTurn(w, EB.Registration(c.y, c.y));
    assert w.egress + [Registers(c)] == [Registers(c)];
    assert w.toUpstream + Map(RequestMessage, EB.Forwards(EB.Registration(c.y, c.y))) == [];
  }

  /** A turn of the one sidecar leaves the rest of the world as it is. */
  lemma SidecarMoves(c: Case, s: Sidecar, s': Sidecar, w: World)
    requires w.sidecars == map[c.y := s]
    ensures Put(w, c.y, s') == w.(sidecars := map[c.y := s'])
  {
    OneSidecar(c, s, s');
  }

  lemma ClientAsks(c: Case)
    requires Proper(c)
    ensures var w := Only(c, Fresh(c), [], [Registers(c)], [], [], [], []);
      var a := Ingress(c.y, Asks(c).event, 0, 0);
      && Enabled(w, a)
      && Act(w, a) == Only(c, Waiting(c).(toClient := [c.request]), [], [Registers(c)], [], [], [], [])
  {
    var w := Only(c, Fresh(c), [], [Registers(c)], [], [], [], []);
    assert [] + [Asks(c)] == [Asks(c)] && [] + [c.request] == [c.request];
    IB.FrontIsTruncated(Asks(c));
    assert IngressTurn(Fresh(c), Asks(c)) == Waiting(c).(toClient := [c.request]);
    SidecarMoves(c, Fresh(c), Waiting(c).(toClient := [c.request]), w);
  }

  lemma ClientSends(c: Case)
    ensures var w := Only(c, Waiting(c).(toClient := [c.request]), [], [Registers(c)], [], [], [], []);
      && Enabled(w, ClientWrite(c.y))
      && Act(w, ClientWrite(c.y)) == Only(c, Waiting(c).(up := OnWire(c.request)), [], [Registers(c)], [], [], [], [])
  {
    var s := Waiting(c).(toClient := [c.request]);
    var w := Only(c, s, [], [Registers(c)], [], [], [], []);
    assert [] + Encode(c.request) == Encode(c.request) && [c.request][1..] == [];
    assert Routing.ClientWrites(s) == Waiting(c).(up := OnWire(c.request));
    SidecarMoves(c, s, Waiting(c).(up := OnWire(c.request)), w);
  }

  lemma ReadsOff(m: Message)
    requires Fits(m)
    ensures ReadOne(0, Encode(m)) == ReadStep(Received(m), 0, []) && Pending(OnWire(m)) == [m]
    ensures Read(OnWire(m)) == EMPTY
  {
    ReadEncoded(m, []);
    assert Encode(m) + [] == Encode(m);
    RoundTripExactlyWhenFits(m);
  }

  lemma SessionReads(c: Case)
    requires Proper(c)
    ensures var w := Only(c, Waiting(c).(up := OnWire(c.request)), [], [Registers(c)], [], [], [], []);
      && Enabled(w, SessionRead(c.y))
      && Act(w, SessionRead(c.y)) == Only(c, Waiting(c), [Dns(c.y, c.request)], [Registers(c)], [], [], [], [])
  {
    var w := Only(c, Waiting(c).(up := OnWire(c.request)), [], [Registers(c)], [], [], [], []);
    ReadsOff(c.request);
    SidecarMoves(c, Waiting(c).(up := OnWire(c.request)), Waiting(c), w);
    assert [] + [Dns(c.y, c.request)] == [Dns(c.y, c.request)];
  }

  lemma AgentForwards(c: Case)
    ensures var w := Only(c, Waiting(c), [Dns(c.y, c.request)], [Registers(c)], [], [], [], []);
      && Enabled(w, EgressMail(true, 0, 0))
      && Act(w, EgressMail(true, 0, 0))
         == Only(c, Waiting(c), [], [Registers(c), Forwards(c)], [c.request], [], [], [])
  {
    var w := Only(c, Waiting(c), [], [Registers(c)], [], [], [], []);
    assert [Dns(c.y, c.request)][1..] == [];
    OneSidecar(c, Waiting(c), Waiting(c));
    MailTurn(w, EB.FromBridge(c.y, c.request, true));
    assert w.egress + [Forwards(c)] == [Registers(c), Forwards(c)];
    assert w.toUpstream + Map(RequestMessage, EB.Forwards(Forwards(c).event)) == [c.request];
  }

  lemma UpstreamTakes(c: Case)
    ensures var w := Only(c, Waiting(c), [], [Registers(c), Forwards(c)], [c.request], [], [], []);
      && Enabled(w, UpstreamTake)
      && Act(w, UpstreamTake) == Only(c, Waiting(c), [], [Registers(c), Forwards(c)], [], [c.request], [], [])
  {
    assert [] + [c.request] == [c.request] && [c.request][1..] == [];
  }

  lemma UpstreamAnswers(c: Case)
    requires Proper(c)
    ensures var w := Only(c, Waiting(c), [], [Registers(c), Forwards(c)], [], [c.request], [], []);
      && Enabled(w, UpstreamEmit(c.reply))
      && Act(w, UpstreamEmit(c.reply))
         == Only(c, Waiting(c), [], [Registers(c), Forwards(c)], [], [c.request], [c.reply], [c.reply])
  {
    assert [] + [c.reply] == [c.reply];
  }

  /** After its two turns the agent knows the sidecar and remembers its request. */
  lemma AgentKnows(c: Case)
    requires Proper(c)
    ensures var turns := [Registers(c), Forwards(c)];
      && EB.ClientsAt(turns, 2) == map[c.y := c.y]
      && EB.TableAt(turns, c.agentTimeout, 2) == map[Id(c.request) := Entry(0, c.y)]
  {
    var one, two := [Registers(c)], [Registers(c), Forwards(c)];
    assert [] + one == one && one + [Forwards(c)] == two;
    EB.LogsAppend([], Registers(c), c.agentTimeout);
    EB.LogsAppend(one, Forwards(c), c.agentTimeout);
    assert EB.ClientsAt([], 0) == map[] && EB.TableAt([], c.agentTimeout, 0) == map[];
  }

  lemma OutOfAgent(c: Case)
    requires Proper(c)
    ensures var turns := [Registers(c), Forwards(c)];
      EB.Delivers(Delivers(c), EB.TableAt(turns, c.agentTimeout, 2), EB.ClientsAt(turns, 2))
      == [EB.Delivery(c.y, c.reply)]
  {
    AgentKnows(c);
    SameIdIff(c.request, c.reply);
  }

  /** A turn of the agent that delivers something and forwards nothing. */
  lemma DeliveringTurn(w: World, m: Message, y: Name)
    requires var t := EB.Turn(EB.FromNet(m), 0, 0, {}, {});
      EB.Delivers(t, EB.TableAt(w.egress, w.timeout, |w.egress|), EB.ClientsAt(w.egress, |w.egress|))
      == [EB.Delivery(y, m)]
    requires y in w.sidecars && Dead(w) == {}
    ensures var t, s := EB.Turn(EB.FromNet(m), 0, 0, {}, {}), w.sidecars[y];
      EgressTurn(w, EB.FromNet(m), 0, 0) == Put(w.(egress := w.egress + [t]), y, s.(channel := s.channel + [m]))
  {
    assert w.toUpstream + Map(RequestMessage, EB.Forwards(EB.FromNet(m))) == w.toUpstream;
  }

  lemma AgentDelivers(c: Case)
    requires Proper(c)
    ensures var w := Only(c, Waiting(c), [], [Registers(c), Forwards(c)], [], [c.request], [c.reply], [c.reply]);
      && Enabled(w, EgressNet(0, 0))
      && Act(w, EgressNet(0, 0)) == Only(c, Waiting(c).(channel := [c.reply]), [],
                                         [Registers(c), Forwards(c), Delivers(c)], [], [c.request], [], [c.reply])
  {
    var w := Only(c, Waiting(c), [], [Registers(c), Forwards(c)], [], [c.request], [], [c.reply]);
    assert [c.reply][1..] == [] && [] + [c.reply] == [c.reply];
    OneSidecar(c, Waiting(c), Waiting(c));
    OutOfAgent(c);
    DeliveringTurn(w, c.reply, c.y);
    assert w.egress + [Delivers(c)] == [Registers(c), Forwards(c), Delivers(c)];
    SidecarMoves(c, Waiting(c), Waiting(c).(channel := [c.reply]), w.(egress := w.egress + [Delivers(c)]));
  }

  /** The world once the agent is done. */
  function Settled(c: Case, s: Sidecar): World {
    Only(c, s, [], [Registers(c), Forwards(c), Delivers(c)], [], [c.request], [], [c.reply])
  }

  lemma SessionSends(c: Case)
    ensures var w := Settled(c, Waiting(c).(channel := [c.reply]));
      && Enabled(w, SessionWrite(c.y))
      && Act(w, SessionWrite(c.y)) == Settled(c, Waiting(c).(down := OnWire(c.reply)))
  {
    var s := Waiting(c).(channel := [c.reply]);
    assert [] + Encode(c.reply) == Encode(c.reply) && [c.reply][1..] == [];
    assert Routing.SessionWrites(s) == Waiting(c).(down := OnWire(c.reply));
    SidecarMoves(c, s, Waiting(c).(down := OnWire(c.reply)), Settled(c, s));
  }

  lemma ClientReads(c: Case)
    requires Proper(c)
    ensures var w := Settled(c, Waiting(c).(down := OnWire(c.reply)));
      && Enabled(w, ClientRead(c.y))
      && Act(w, ClientRead(c.y)) == Settled(c, Waiting(c).(toIngress := [c.reply]))
  {
    var s := Waiting(c).(down := OnWire(c.reply));
    ReadsOff(c.reply);
    assert [] + [c.reply] == [c.reply];
    assert Routing.ClientReads(s) == Waiting(c).(toIngress := [c.reply]);
    SidecarMoves(c, s, Waiting(c).(toIngress := [c.reply]), Settled(c, s));
  }

  lemma ReplyGoesOut(c: Case)
    ensures var w := Settled(c, Waiting(c).(toIngress := [c.reply]));
      var a := Ingress(c.y, GetsReply(c).event, 0, 0);
      && Enabled(w, a)
      && Act(w, a) == Settled(c, Fresh(c).(turns := [Asks(c), GetsReply(c)]))
  {
    var s, s' := Waiting(c).(toIngress := [c.reply]), Fresh(c).(turns := [Asks(c), GetsReply(c)]);
    assert [Asks(c)] + [GetsReply(c)] == [Asks(c), GetsReply(c)] && [c.reply][1..] == [];
    assert s.toClient + IB.Passes(GetsReply(c).event) == s.toClient;
    assert IngressTurn(s, GetsReply(c)) == s';
    SidecarMoves(c, s, s', Settled(c, s));
  }

  ghost predicate Reaches(c: Case, k: nat, w: World)
    requires k <= 12
  {
    Run(c.agentTimeout, Round(c), k) == w
  }

  lemma NextReaches(c: Case, k: nat, w: World, a: Action, w': World)
    requires k < 12 && Reaches(c, k, w) && Round(c)[k] == a && Enabled(w, a) && Act(w, a) == w'
    ensures Reaches(c, k + 1, w')
  {
  }

  lemma SidecarAsks(c: Case)
    requires Proper(c)
    ensures Reaches(c, 3, Only(c, Waiting(c).(toClient := [c.request]), [], [Registers(c)], [], [], [], []))
  {
    var w1 := Only(c, Fresh(c), [Register(c.y)], [], [], [], [], []);
    var w2 := Only(c, Fresh(c), [], [Registers(c)], [], [], [], []);
    var w3 := Only(c, Waiting(c).(toClient := [c.request]), [], [Registers(c)], [], [], [], []);
    Connects(c);
    NextReaches(c, 0, Start(c.agentTimeout), Connect(c.y, c.timeout), w1);
    IsRegistered(c);
    NextReaches(c, 1, w1, EgressMail(true, 0, 0), w2);
    ClientAsks(c);
    NextReaches(c, 2, w2, Ingress(c.y, Asks(c).event, 0, 0), w3);
  }

  function OnSocket(c: Case): World {
    Only(c, Waiting(c).(up := OnWire(c.request)), [], [Registers(c)], [], [], [], [])
  }

  lemma UpToSocket(c: Case)
    requires Proper(c)
    ensures Reaches(c, 4, OnSocket(c))
  {
    SidecarAsks(c);
    ClientSends(c);
    NextReaches(c, 3, Only(c, Waiting(c).(toClient := [c.request]), [], [Registers(c)], [], [], [], []),
                ClientWrite(c.y), OnSocket(c));
  }

  lemma UpToInbox(c: Case)
    requires Proper(c)
    ensures Reaches(c, 5, Only(c, Waiting(c), [Dns(c.y, c.request)], [Registers(c)], [], [], [], []))
  {
    UpToSocket(c);
    SessionReads(c);
    NextReaches(c, 4, OnSocket(c), SessionRead(c.y),
                Only(c, Waiting(c), [Dns(c.y, c.request)], [Registers(c)], [], [], [], []));
  }

  lemma UpToAgent(c: Case)
    requires Proper(c)
    ensures Reaches(c, 6, Only(c, Waiting(c), [], [Registers(c), Forwards(c)], [c.request], [], [], []))
  {
    UpToInbox(c);
    AgentForwards(c);
    NextReaches(c, 5, Only(c, Waiting(c), [Dns(c.y, c.request)], [Registers(c)], [], [], [], []),
                EgressMail(true, 0, 0),
                Only(c, Waiting(c), [], [Registers(c), Forwards(c)], [c.request], [], [], []));
  }

  lemma DownFromUpstream(c: Case)
    requires Proper(c)
    ensures Reaches(c, 9, Settled(c, Waiting(c).(channel := [c.reply])))
  {
    var w6 := Only(c, Waiting(c), [], [Registers(c), Forwards(c)], [c.request], [], [], []);
    var w7 := Only(c, Waiting(c), [], [Registers(c), Forwards(c)], [], [c.request], [], []);
    var w8 := Only(c, Waiting(c), [], [Registers(c), Forwards(c)], [], [c.request], [c.reply], [c.reply]);
    UpToAgent(c);
    UpstreamTakes(c);
    NextReaches(c, 6, w6, UpstreamTake, w7);
    UpstreamAnswers(c);
    NextReaches(c, 7, w7, UpstreamEmit(c.reply), w8);
    AgentDelivers(c);
    NextReaches(c, 8, w8, EgressNet(0, 0), Settled(c, Waiting(c).(channel := [c.reply])));
  }

  lemma DownFromAgent(c: Case)
    requires Proper(c)
    ensures Reaches(c, 12, Settled(c, Fresh(c).(turns := [Asks(c), GetsReply(c)])))
  {
    var w9 := Settled(c, Waiting(c).(channel := [c.reply]));
    var w10 := Settled(c, Waiting(c).(down := OnWire(c.reply)));
    var w11 := Settled(c, Waiting(c).(toIngress := [c.reply]));
    DownFromUpstream(c);
    SessionSends(c);
    NextReaches(c, 9, w9, SessionWrite(c.y), w10);
    ClientReads(c);
    NextReaches(c, 10, w10, ClientRead(c.y), w11);
    ReplyGoesOut(c);
    NextReaches(c, 11, w11, Ingress(c.y, GetsReply(c).event, 0, 0),
                Settled(c, Fresh(c).(turns := [Asks(c), GetsReply(c)])));
  }

  /** After the request the sidecar's bridge remembers who asked. */
  lemma SidecarKnows(c: Case)
    requires Proper(c)
    ensures IB.TableAt([Asks(c)], c.timeout, 1) == map[Id(c.request) := Entry(0, c.addr)]
    ensures IB.ReturnedBy([Asks(c)], c.timeout, 1) == []
  {
    assert [] + [Asks(c)] == [Asks(c)];
    IB.LogsAppend([], Asks(c), c.timeout);
    assert IB.ReturnedBy([], c.timeout, 0) == [] && IB.TableAt([], c.timeout, 0) == map[];
    IB.FrontIsTruncated(Asks(c));
    assert IB.OpOf(Asks(c).event) == Open(Id(c.request), c.addr);
  }

  lemma SidecarReturns(c: Case)
    requires Proper(c)
    ensures IB.ReturnedBy([Asks(c), GetsReply(c)], c.timeout, 2) == [IB.Datagram(c.addr, c.reply)]
  {
    SidecarKnows(c);
    SameIdIff(c.request, c.reply);
    assert [Asks(c)] + [GetsReply(c)] == [Asks(c), GetsReply(c)];
    IB.LogsAppend([Asks(c)], GetsReply(c), c.timeout);
  }

  /** The request reached the upstream, and the reply the client that asked. */
  lemma RequestIsAnswered(c: Case)
    requires Proper(c)
    ensures var w := End(c.agentTimeout, Round(c));
      w.taken == [c.request] && Returned(w, c.y) == [IB.Datagram(c.addr, c.reply)]
  {
    DownFromAgent(c);
    assert Reaches(c, 12, Settled(c, Fresh(c).(turns := [Asks(c), GetsReply(c)])));
    SidecarReturns(c);
  }
}
