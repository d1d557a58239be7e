/** The whole system: any number of sidecars, each an ingress bridge, a channel client and a session joined by a unix
    socket; one egress bridge; and an upstream that may drop, repeat, reorder or invent replies. Tasks interleave in
    any order. A sidecar that reconnects gets a new bridge and a new session name, so it counts as another sidecar. */
module Routing {
  import opened Codec
  import opened PendingTable
  import opened Seqs
  import opened FramedLink
  import IB = IngressBridge
  import EB = EgressBridge

  type Name = EB.Name

  /** `turns` is the run of the ingress bridge so far; the rest is what is under way to and from the agent. `client` and
      `session` say whether the two ends of the socket still run, `lostUp` and `lostDown` hold the message whose write
      failed, if one did, and `brokenUp` and `brokenDown` say whether a read was ever abandoned in the middle of a
      prefix or a body. */
  datatype Sidecar = Sidecar(
    timeout: nat,
    turns: seq<IB.Turn>,
    toClient: seq<Message>,
    lostUp: seq<Message>,
    up: Link,
    channel: seq<Message>,
    lostDown: seq<Message>,
    down: Link,
    toIngress: seq<Message>,
    client: bool,
    session: bool,
    brokenUp: bool,
    brokenDown: bool)

  datatype Mail = Register(name: Name) | Dns(name: Name, msg: Message)

  datatype World = World(
    timeout: nat,
    sidecars: map<Name, Sidecar>,
    inbox: seq<Mail>,
    egress: seq<EB.Turn>,
    toUpstream: seq<Message>,
    taken: seq<Message>,
    fromUpstream: seq<Message>,
    emitted: seq<Message>)

  const NOBODY := Sidecar(0, [], [], [], EMPTY, [], [], EMPTY, [], false, false, false, false)

  function Car(w: World, n: Name): Sidecar {
    if n in w.sidecars then w.sidecars[n] else NOBODY
  }

  function Put(w: World, n: Name, s: Sidecar): World {
    w.(sidecars := w.sidecars[n := s])
  }

  datatype Action =
    | Connect(name: Name, timeout: nat)
    | ClientEnds(name: Name)
    | SessionEnds(name: Name)
    | Ingress(name: Name, event: IB.Event, at: nat, now: nat)
    | ClientWrite(name: Name)
    | ClientWriteFails(name: Name, room: nat)
    | ClientAbandon(name: Name, consumed: nat)
    | ClientRead(name: Name)
    | SessionWrite(name: Name)
    | SessionWriteFails(name: Name, room: nat)
    | SessionAbandon(name: Name, consumed: nat)
    | SessionRead(name: Name)
    | EgressMail(sendOk: bool, at: nat, now: nat)
    | EgressNet(at: nat, now: nat)
    | EgressIdle(at: nat, now: nat)
    | UpstreamTake
    | UpstreamEmit(msg: Message)

  function Tail<T>(s: seq<T>): seq<T> {
    if s == [] then [] else s[1..]
  }

  /** A running channel client, or session, has a message to write. */
  predicate ClientHas(w: World, n: Name) {
    n in w.sidecars && w.sidecars[n].client && w.sidecars[n].toClient != []
  }

  predicate SessionHas(w: World, n: Name) {
    n in w.sidecars && w.sidecars[n].session && w.sidecars[n].channel != []
  }

  predicate Enabled(w: World, a: Action) {
    match a
    case Connect(n, _) => n !in w.sidecars
    case ClientEnds(n) => n in w.sidecars
    case SessionEnds(n) => n in w.sidecars
    case Ingress(n, e, _, _) =>
      n in w.sidecars && (e.FromBridge? ==> w.sidecars[n].toIngress != [] && w.sidecars[n].toIngress[0] == e.msg)
    case ClientWrite(n) => ClientHas(w, n)
    case ClientWriteFails(n, room) => ClientHas(w, n) && room < |Encode(w.sidecars[n].toClient[0])|
    case ClientAbandon(n, c) =>
      n in w.sidecars && w.sidecars[n].client && CanAbandon(w.sidecars[n].down.len, w.sidecars[n].down.unread, c)
    case ClientRead(n) => n in w.sidecars && w.sidecars[n].client && Pending(w.sidecars[n].down) != []
    case SessionWrite(n) => SessionHas(w, n)
    case SessionWriteFails(n, room) => SessionHas(w, n) && room < |Encode(w.sidecars[n].channel[0])|
    case SessionAbandon(n, c) =>
      n in w.sidecars && w.sidecars[n].session && CanAbandon(w.sidecars[n].up.len, w.sidecars[n].up.unread, c)
    case SessionRead(n) => n in w.sidecars && w.sidecars[n].session && Pending(w.sidecars[n].up) != []
    case EgressMail(_, _, _) => w.inbox != []
    case EgressNet(_, _) => w.fromUpstream != []
    case EgressIdle(_, _) => true
    case UpstreamTake => w.toUpstream != []
    case UpstreamEmit(m) => Fits(m)
  }

  function Dead(w: World): set<EB.Channel> {
    set n | n in w.sidecars && !w.sidecars[n].session
  }

  function EventOf(m: Mail, sendOk: bool): EB.Event {
    match m
    case Register(n) => EB.Registration(n, n)
    case Dns(n, msg) => EB.FromBridge(n, msg, sendOk)
  }

  ghost function EgressTurn(w: World, e: EB.Event, at: nat, now: nat): World {
    var t := EB.Turn(e, at, now, Dead(w), Dead(w));
    var n := |w.egress|;
    var out := EB.Delivers(t, EB.TableAt(w.egress, w.timeout, n), EB.ClientsAt(w.egress, n));
    var w' := w.(egress := w.egress + [t], toUpstream := w.toUpstream + Map(RequestMessage, EB.Forwards(e)));
    if out == [] || out[0].channel !in w.sidecars then w'
    else
      var s := w.sidecars[out[0].channel];
      Put(w', out[0].channel, s.(channel := s.channel + [out[0].msg]))
  }

  function RequestMessage(r: EB.Request): Message {
    r.msg
  }

  function IngressTurn(s: Sidecar, t: IB.Turn): Sidecar {
    s.(turns := s.turns + [t], toClient := s.toClient + IB.Passes(t.event),
       toIngress := if t.event.FromBridge? then Tail(s.toIngress) else s.toIngress)
  }

  function Started(timeout: nat): Sidecar {
    NOBODY.(timeout := timeout, client := true, session := true)
  }

  function ClientWrites(s: Sidecar): Sidecar
    requires s.toClient != []
  {
    s.(toClient := s.toClient[1..], up := Write(s.up, s.toClient[0]))
  }

  /** A failed write ends the task, and the message is lost. */
  function ClientWriteCut(s: Sidecar, room: nat): Sidecar
    requires s.toClient != []
  {
    s.(toClient := s.toClient[1..], up := WriteCut(s.up, s.toClient[0], room), lostUp := [s.toClient[0]],
       client := false)
  }

  function SessionWrites(s: Sidecar): Sidecar
    requires s.channel != []
  {
    s.(channel := s.channel[1..], down := Write(s.down, s.channel[0]))
  }

  function SessionWriteCut(s: Sidecar, room: nat): Sidecar
    requires s.channel != []
  {
    s.(channel := s.channel[1..], down := WriteCut(s.down, s.channel[0], room), lostDown := [s.channel[0]],
       session := false)
  }

  function ClientReads(s: Sidecar): Sidecar {
    s.(down := Read(s.down), toIngress := s.toIngress + ReadMessage(s.down))
  }

  /** Only two points of abandonment are safe. */
  function ClientAbandons(s: Sidecar, c: nat): Sidecar
    requires CanAbandon(s.down.len, s.down.unread, c)
  {
    s.(down := Abandoned(s.down, c), brokenDown := s.brokenDown || !SafePoint(s.down.len, c))
  }

  function SessionAbandons(s: Sidecar, c: nat): Sidecar
    requires CanAbandon(s.up.len, s.up.unread, c)
  {
    s.(up := Abandoned(s.up, c), brokenUp := s.brokenUp || !SafePoint(s.up.len, c))
  }

  ghost function Act(w: World, a: Action): World
    requires Enabled(w, a)
  {
    match a
    case Connect(n, timeout) => Put(w, n, Started(timeout)).(inbox := w.inbox + [Register(n)])
    case ClientEnds(n) => Put(w, n, w.sidecars[n].(client := false))
    case SessionEnds(n) => Put(w, n, w.sidecars[n].(session := false))
    case Ingress(n, e, at, now) => Put(w, n, IngressTurn(w.sidecars[n], IB.Turn(e, at, now)))
    case ClientWrite(n) => Put(w, n, ClientWrites(w.sidecars[n]))
    case ClientWriteFails(n, room) => Put(w, n, ClientWriteCut(w.sidecars[n], room))
    case ClientAbandon(n, c) => Put(w, n, ClientAbandons(w.sidecars[n], c))
    case ClientRead(n) => Put(w, n, ClientReads(w.sidecars[n]))
    case SessionWrite(n) => Put(w, n, SessionWrites(w.sidecars[n]))
    case SessionWriteFails(n, room) => Put(w, n, SessionWriteCut(w.sidecars[n], room))
    case SessionAbandon(n, c) => Put(w, n, SessionAbandons(w.sidecars[n], c))
    case SessionRead(n) =>
      var s := w.sidecars[n];
      Put(w, n, s.(up := Read(s.up))).(inbox := w.inbox + MailRead(n, s.up))
    case EgressMail(sendOk, at, now) =>
      EgressTurn(w.(inbox := w.inbox[1..]), EventOf(w.inbox[0], sendOk), at, now)
    case EgressNet(at, now) =>
      EgressTurn(w.(fromUpstream := w.fromUpstream[1..]), EB.FromNet(w.fromUpstream[0]), at, now)
    case EgressIdle(at, now) => EgressTurn(w, EB.Timeout, at, now)
    case UpstreamTake => w.(toUpstream := w.toUpstream[1..], taken := w.taken + [w.toUpstream[0]])
    case UpstreamEmit(m) => w.(fromUpstream := w.fromUpstream + [m], emitted := w.emitted + [m])
  }

  /** What the reader hands on after one call. */
  function ReadMessage(l: Link): seq<Message> {
    match ReadOne(l.len, l.unread).outcome case Received(m) => [m] case _ => []
  }

  function MailRead(n: Name, l: Link): seq<Mail> {
    match ReadOne(l.len, l.unread).outcome case Received(m) => [Dns(n, m)] case _ => []
  }

  function Start(timeout: nat): World {
    World(timeout, map[], [], [], [], [], [], [])
  }

  /** A run: every interleaving is a sequence of actions; one that is not enabled does not happen. */
  ghost function Run(timeout: nat, actions: seq<Action>, k: nat): World
    requires k <= |actions|
  {
    if k == 0 then Start(timeout) else
      var w := Run(timeout, actions, k - 1);
      if Enabled(w, actions[k - 1]) then Act(w, actions[k - 1]) else w
  }

  // ---- The flow of messages ----

  function OfClient(n: Name): EB.Request -> bool {
    (r: EB.Request) => r.client == n
  }

  function OnChannel(n: Name): EB.Delivery -> bool {
    (d: EB.Delivery) => d.channel == n
  }

  function MailOf(n: Name): Mail -> bool {
    (m: Mail) => m.Dns? && m.name == n
  }

  function MailMessage(m: Mail): Message {
    if m.Dns? then m.msg else [0, 0]
  }

  /** What the egress bridge has taken from a sidecar. */
  ghost function Heard(turns: seq<EB.Turn>, n: Name): seq<Message> {
    Pick(EB.ReceivedBy(turns, |turns|), OfClient(n), RequestMessage)
  }

  /** What the egress bridge has put on a sidecar's channel. */
  ghost function Pushed(turns: seq<EB.Turn>, timeout: nat, n: Name): seq<Message> {
    Pick(EB.DeliveredBy(turns, timeout, |turns|), OnChannel(n), EB.MessageOf)
  }

  /** What is in the egress bridge's inbox from a sidecar. */
  function Mailed(inbox: seq<Mail>, n: Name): seq<Message> {
    Pick(inbox, MailOf(n), MailMessage)
  }

  /** One direction between the ends of the socket: `waiting` is queued behind the message lost to a failed write. */
  ghost predicate LinkOk(l: Link, lost: seq<Message>, waiting: seq<Message>, writing: bool) {
    && WellFramed(l) && AllFit(waiting)
    && |lost| <= 1 && (lost != [] <==> l.cut) && (l.cut ==> !writing)
  }

  /** What has been written and can still be read, then what was lost, then what waits. */
  function Under(l: Link, lost: seq<Message>, waiting: seq<Message>): seq<Message> {
    Pending(l) + (lost + waiting)
  }

  /** Unless its socket is broken that way:
      Messages a sidecar passed on are, in order: heard by the egress bridge, in its inbox, on the socket, lost to the
      one failed write, or queued. Messages pushed to a sidecar are, in order: taken by its bridge, queued for it, on
      the socket, lost to the one failed write, or on the channel. The socket carries whole frames, and after a failed
      write the beginning of one more. */
  ghost predicate Flows(s: Sidecar, heard: seq<Message>, mailed: seq<Message>, pushed: seq<Message>) {
    && (!s.brokenUp ==>
          && IB.PassedBy(s.turns, |s.turns|) == heard + mailed + Under(s.up, s.lostUp, s.toClient)
          && LinkOk(s.up, s.lostUp, s.toClient, s.client))
    && (!s.brokenDown ==>
          && pushed == IB.TakenBy(s.turns, |s.turns|) + s.toIngress + Under(s.down, s.lostDown, s.channel)
          && LinkOk(s.down, s.lostDown, s.channel, s.session))
  }

  ghost predicate FlowsAt(w: World, n: Name) {
    Flows(Car(w, n), Heard(w.egress, n), Mailed(w.inbox, n), Pushed(w.egress, w.timeout, n))
  }

  /** Registrations name sidecars that exist. */
  ghost predicate Known(w: World) {
    && (forall m | m in w.inbox && m.Register? :: m.name in w.sidecars)
    && (forall t | t in w.egress && t.event.Registration? :: t.event.name in w.sidecars)
  }

  ghost predicate AgentOk(w: World) {
    && EB.ReturnedBy(w.egress, |w.egress|) + w.fromUpstream == w.emitted
    && AllFit(w.emitted)
    && w.taken + w.toUpstream == ForwardedMessages(w.egress)
    && EB.OwnChannels(w.egress)
    && Known(w)
  }

  /** What the egress bridge has handed to its forwarder. */
  ghost function ForwardedMessages(turns: seq<EB.Turn>): seq<Message> {
    Map(RequestMessage, EB.ForwardedBy(turns, |turns|))
  }

  ghost predicate Ok(w: World) {
    AgentOk(w) && forall n :: FlowsAt(w, n)
  }

  lemma StartOk(timeout: nat)
    ensures Ok(Start(timeout))
  {
    EmptyLink();
  }

  // ---- One sidecar ----

  lemma NobodyFlows(timeout: nat)
    ensures Flows(Started(timeout), [], [], [])
  {
    EmptyLink();
  }

  lemma NobodyHasNothing(heard: seq<Message>, mailed: seq<Message>, pushed: seq<Message>)
    requires Flows(NOBODY, heard, mailed, pushed)
    ensures heard == [] && mailed == [] && pushed == []
  {
    EmptyLink();
  }

  lemma IngressTurnFlows(s: Sidecar, t: IB.Turn, heard: seq<Message>, mailed: seq<Message>, pushed: seq<Message>)
    requires Flows(s, heard, mailed, pushed)
    requires t.event.FromBridge? ==> s.toIngress != [] && s.toIngress[0] == t.event.msg
    ensures Flows(IngressTurn(s, t), heard, mailed, pushed)
  {
    IB.LogsAppend(s.turns, t, s.timeout);
    QueueGrows(heard + mailed, s.up, s.lostUp, s.toClient, IB.Passes(t.event));
    if !s.brokenUp {
      PassedFit(t.event, s.toClient);
    }
    QueueTaken(IB.TakenBy(s.turns, |s.turns|), s.toIngress, IB.Takes(t.event), Under(s.down, s.lostDown, s.channel));
  }

  lemma QueueGrows(a: seq<Message>, l: Link, lost: seq<Message>, waiting: seq<Message>, more: seq<Message>)
    ensures a + Under(l, lost, waiting + more) == a + Under(l, lost, waiting) + more
  {
    Regroup(lost, waiting, more);
    Regroup(Pending(l), lost + waiting, more);
    Regroup(a, Under(l, lost, waiting), more);
  }

  lemma QueueTaken(taken: seq<Message>, queue: seq<Message>, head: seq<Message>, rest: seq<Message>)
    requires head == [] || (queue != [] && head == [queue[0]])
    ensures taken + queue + rest == (taken + head) + (if head == [] then queue else Tail(queue)) + rest
  {
    if head != [] {
      assert queue == head + Tail(queue);
    } else {
      assert taken + head == taken;
    }
  }

  lemma PassedFit(e: IB.Event, queue: seq<Message>)
    requires AllFit(queue)
    ensures AllFit(queue + IB.Passes(e))
  {
  }

  lemma TailFits(waiting: seq<Message>)
    requires AllFit(waiting) && waiting != []
    ensures Fits(waiting[0]) && AllFit(waiting[1..])
  {
    assert waiting[0] in waiting && forall m | m in waiting[1..] :: m in waiting;
  }

  lemma HeadApart(pending: seq<Message>, waiting: seq<Message>)
    requires waiting != []
    ensures pending + ([] + waiting) == pending + ([waiting[0]] + waiting[1..])
    ensures pending + ([] + waiting) == pending + [waiting[0]] + ([] + waiting[1..])
  {
    assert [] + waiting == waiting == [waiting[0]] + waiting[1..];
    assert [] + waiting[1..] == waiting[1..];
    Regroup(pending, [waiting[0]], waiting[1..]);
  }

  /** Moving the head of a queue onto the socket keeps what is on its way, in order. */
  lemma WriteMoves(l: Link, lost: seq<Message>, waiting: seq<Message>)
    requires LinkOk(l, lost, waiting, true) && waiting != []
    ensures LinkOk(Write(l, waiting[0]), lost, waiting[1..], true)
    ensures Under(Write(l, waiting[0]), lost, waiting[1..]) == Under(l, lost, waiting)
  {
    TailFits(waiting);
    WriteKeeps(l, waiting[0]);
    HeadApart(Pending(l), waiting);
  }

  /** A failed write loses the head of the queue, and nothing else. */
  lemma WriteCutLoses(l: Link, lost: seq<Message>, waiting: seq<Message>, room: nat)
    requires LinkOk(l, lost, waiting, true) && waiting != [] && room < |Encode(waiting[0])|
    ensures LinkOk(WriteCut(l, waiting[0], room), [waiting[0]], waiting[1..], false)
    ensures Under(WriteCut(l, waiting[0], room), [waiting[0]], waiting[1..]) == Under(l, lost, waiting)
  {
    TailFits(waiting);
    WriteCutKeeps(l, waiting[0], room);
    HeadApart(Pending(l), waiting);
  }

  lemma WritesFlow(s: Sidecar, heard: seq<Message>, mailed: seq<Message>, pushed: seq<Message>)
    requires Flows(s, heard, mailed, pushed)
    ensures s.client && s.toClient != [] ==> Flows(ClientWrites(s), heard, mailed, pushed)
    ensures s.session && s.channel != [] ==> Flows(SessionWrites(s), heard, mailed, pushed)
  {
    if s.client && s.toClient != [] && !s.brokenUp {
      WriteMoves(s.up, s.lostUp, s.toClient);
    }
    if s.session && s.channel != [] && !s.brokenDown {
      WriteMoves(s.down, s.lostDown, s.channel);
    }
  }

  lemma ClientWriteCutFlows(s: Sidecar, room: nat, heard: seq<Message>, mailed: seq<Message>, pushed: seq<Message>)
    requires Flows(s, heard, mailed, pushed) && s.client && s.toClient != [] && room < |Encode(s.toClient[0])|
    ensures Flows(ClientWriteCut(s, room), heard, mailed, pushed)
  {
    if !s.brokenUp {
      WriteCutLoses(s.up, s.lostUp, s.toClient, room);
    }
  }

  lemma SessionWriteCutFlows(s: Sidecar, room: nat, heard: seq<Message>, mailed: seq<Message>, pushed: seq<Message>)
    requires Flows(s, heard, mailed, pushed) && s.session && s.channel != [] && room < |Encode(s.channel[0])|
    ensures Flows(SessionWriteCut(s, room), heard, mailed, pushed)
  {
    if !s.brokenDown {
      WriteCutLoses(s.down, s.lostDown, s.channel, room);
    }
  }

  lemma AbandonFlows(s: Sidecar, c: nat, heard: seq<Message>, mailed: seq<Message>, pushed: seq<Message>)
    requires Flows(s, heard, mailed, pushed)
    ensures CanAbandon(s.down.len, s.down.unread, c) ==> Flows(ClientAbandons(s, c), heard, mailed, pushed)
    ensures CanAbandon(s.up.len, s.up.unread, c) ==> Flows(SessionAbandons(s, c), heard, mailed, pushed)
  {
    if CanAbandon(s.down.len, s.down.unread, c) && !ClientAbandons(s, c).brokenDown {
      AbandonKeeps(s.down, c);
    }
    if CanAbandon(s.up.len, s.up.unread, c) && !SessionAbandons(s, c).brokenUp {
      AbandonKeeps(s.up, c);
    }
  }

  /** What a read takes off the socket is the head of what is under way. */
  lemma ReadTakes(l: Link, lost: seq<Message>, waiting: seq<Message>, writing: bool)
    requires LinkOk(l, lost, waiting, writing) && Pending(l) != []
    ensures ReadOne(l.len, l.unread).outcome == Received(Pending(l)[0])
    ensures LinkOk(Read(l), lost, waiting, writing)
    ensures Under(l, lost, waiting) == [Pending(l)[0]] + Under(Read(l), lost, waiting)
  {
    ReadKeeps(l);
    HeadFirst(Pending(l), lost + waiting);
  }

  lemma HeadFirst(pending: seq<Message>, rest: seq<Message>)
    requires pending != []
    ensures pending + rest == [pending[0]] + (pending[1..] + rest)
  {
    assert pending == [pending[0]] + pending[1..];
    Regroup([pending[0]], pending[1..], rest);
  }

  lemma ClientReadFlows(s: Sidecar, heard: seq<Message>, mailed: seq<Message>, pushed: seq<Message>)
    requires Flows(s, heard, mailed, pushed) && Pending(s.down) != []
    ensures Flows(ClientReads(s), heard, mailed, pushed)
  {
    if !s.brokenDown {
      ReadTakes(s.down, s.lostDown, s.channel, s.session);
      var taken, m := IB.TakenBy(s.turns, |s.turns|), Pending(s.down)[0];
      HeadMoves(taken, s.toIngress, m, Under(Read(s.down), s.lostDown, s.channel));
    }
  }

  lemma SessionReadFlows(s: Sidecar, heard: seq<Message>, mailed: seq<Message>, pushed: seq<Message>)
    requires Flows(s, heard, mailed, pushed) && Pending(s.up) != []
    ensures Flows(s.(up := Read(s.up)), heard, mailed + [Pending(s.up)[0]], pushed)
    ensures ReadOne(s.up.len, s.up.unread).outcome == Received(Pending(s.up)[0])
  {
    if !s.brokenUp {
      ReadTakes(s.up, s.lostUp, s.toClient, s.client);
      HeadMoves(heard, mailed, Pending(s.up)[0], Under(Read(s.up), s.lostUp, s.toClient));
    }
  }

  lemma HeadMoves(a: seq<Message>, b: seq<Message>, m: Message, rest: seq<Message>)
    ensures a + (b + [m]) + rest == a + b + ([m] + rest)
  {
    Regroup(a, b, [m]);
    Regroup(a + b, [m], rest);
  }

  lemma PushFlows(s: Sidecar, m: Message, heard: seq<Message>, mailed: seq<Message>, pushed: seq<Message>)
    requires Flows(s, heard, mailed, pushed) && Fits(m)
    ensures Flows(s.(channel := s.channel + [m]), heard, mailed, pushed + [m])
  {
    QueueGrows(IB.TakenBy(s.turns, |s.turns|) + s.toIngress, s.down, s.lostDown, s.channel, [m]);
  }

  lemma HearFlows(s: Sidecar, head: seq<Message>, heard: seq<Message>, mailed: seq<Message>, pushed: seq<Message>)
    requires Flows(s, heard, head + mailed, pushed)
    ensures Flows(s, heard + head, mailed, pushed)
  {
    Regroup(heard, head, mailed);
  }

  // ---- Every action keeps the flow ----

  /** A change confined to one sidecar leaves the flows of the others as they were. */
  lemma LocalOk(w: World, n: Name, s: Sidecar)
    requires Ok(w) && n in w.sidecars
    requires Flows(s, Heard(w.egress, n), Mailed(w.inbox, n), Pushed(w.egress, w.timeout, n))
    ensures Ok(Put(w, n, s))
  {
    forall m ensures FlowsAt(Put(w, n, s), m) {
      assert FlowsAt(w, m);
    }
  }

  lemma ConnectOk(w: World, n: Name, timeout: nat)
    requires Ok(w) && Enabled(w, Connect(n, timeout))
    ensures Ok(Act(w, Connect(n, timeout)))
  {
    var w' := Act(w, Connect(n, timeout));
    forall m ensures FlowsAt(w', m) {
      assert FlowsAt(w, m);
      RegisterIsNoMessage(w.inbox, n, m);
      if m == n {
        NobodyHasNothing(Heard(w.egress, n), Mailed(w.inbox, n), Pushed(w.egress, w.timeout, n));
        NobodyFlows(timeout);
      }
    }
    ConnectAgentOk(w, n, timeout);
  }

  lemma RegisterIsNoMessage(inbox: seq<Mail>, n: Name, m: Name)
    ensures Mailed(inbox + [Register(n)], m) == Mailed(inbox, m)
  {
    PickAppend(inbox, Register(n), MailOf(m), MailMessage);
  }

  lemma ConnectAgentOk(w: World, n: Name, timeout: nat)
    requires AgentOk(w) && Enabled(w, Connect(n, timeout))
    ensures AgentOk(Act(w, Connect(n, timeout)))
  {
  }

  lemma EndsOk(w: World, a: Action)
    requires Ok(w) && Enabled(w, a) && (a.ClientEnds? || a.SessionEnds?)
    ensures Ok(Act(w, a))
  {
    assert FlowsAt(w, a.name);
    var s := w.sidecars[a.name];
    LocalOk(w, a.name, if a.ClientEnds? then s.(client := false) else s.(session := false));
  }

  lemma WriteOk(w: World, a: Action)
    requires Ok(w) && Enabled(w, a) && (a.ClientWrite? || a.SessionWrite?)
    ensures Ok(Act(w, a))
  {
    var n := a.name;
    assert FlowsAt(w, n);
    WritesFlow(w.sidecars[n], Heard(w.egress, n), Mailed(w.inbox, n), Pushed(w.egress, w.timeout, n));
    LocalOk(w, n, if a.ClientWrite? then ClientWrites(w.sidecars[n]) else SessionWrites(w.sidecars[n]));
  }

  lemma ClientWriteFailsOk(w: World, n: Name, room: nat)
    requires Ok(w) && Enabled(w, ClientWriteFails(n, room))
    ensures Ok(Act(w, ClientWriteFails(n, room)))
  {
    assert FlowsAt(w, n);
    ClientWriteCutFlows(w.sidecars[n], room, Heard(w.egress, n), Mailed(w.inbox, n), Pushed(w.egress, w.timeout, n));
    LocalOk(w, n, ClientWriteCut(w.sidecars[n], room));
  }

  lemma SessionWriteFailsOk(w: World, n: Name, room: nat)
    requires Ok(w) && Enabled(w, SessionWriteFails(n, room))
    ensures Ok(Act(w, SessionWriteFails(n, room)))
  {
    assert FlowsAt(w, n);
    SessionWriteCutFlows(w.sidecars[n], room, Heard(w.egress, n), Mailed(w.inbox, n), Pushed(w.egress, w.timeout, n));
    LocalOk(w, n, SessionWriteCut(w.sidecars[n], room));
  }

  lemma AbandonOk(w: World, a: Action)
    requires Ok(w) && Enabled(w, a) && (a.ClientAbandon? || a.SessionAbandon?)
    ensures Ok(Act(w, a))
  {
    var n, c := a.name, a.consumed;
    assert FlowsAt(w, n);
    AbandonFlows(w.sidecars[n], c, Heard(w.egress, n), Mailed(w.inbox, n), Pushed(w.egress, w.timeout, n));
    LocalOk(w, n, if a.ClientAbandon? then ClientAbandons(w.sidecars[n], c) else SessionAbandons(w.sidecars[n], c));
  }

  lemma ClientReadOk(w: World, n: Name)
    requires Ok(w) && Enabled(w, ClientRead(n))
    ensures Ok(Act(w, ClientRead(n)))
  {
    assert FlowsAt(w, n);
    ClientReadFlows(w.sidecars[n], Heard(w.egress, n), Mailed(w.inbox, n), Pushed(w.egress, w.timeout, n));
    LocalOk(w, n, ClientReads(w.sidecars[n]));
  }

  lemma IngressOk(w: World, n: Name, e: IB.Event, at: nat, now: nat)
    requires Ok(w) && Enabled(w, Ingress(n, e, at, now))
    ensures Ok(Act(w, Ingress(n, e, at, now)))
  {
    var s, t := w.sidecars[n], IB.Turn(e, at, now);
    assert FlowsAt(w, n);
    IngressTurnFlows(s, t, Heard(w.egress, n), Mailed(w.inbox, n), Pushed(w.egress, w.timeout, n));
    LocalOk(w, n, IngressTurn(s, t));
  }

  lemma MailAdded(inbox: seq<Mail>, n: Name, m: Message, k: Name)
    ensures Mailed(inbox + [Dns(n, m)], k) == if k == n then Mailed(inbox, k) + [m] else Mailed(inbox, k)
  {
    PickAppend(inbox, Dns(n, m), MailOf(k), MailMessage);
  }

  lemma SessionReadOwnFlows(w: World, n: Name)
    requires Ok(w) && Enabled(w, SessionRead(n))
    ensures FlowsAt(Act(w, SessionRead(n)), n)
  {
    assert FlowsAt(w, n);
    var s := w.sidecars[n];
    SessionReadFlows(s, Heard(w.egress, n), Mailed(w.inbox, n), Pushed(w.egress, w.timeout, n));
    MailAdded(w.inbox, n, Pending(s.up)[0], n);
  }

  lemma MailReadElsewhere(inbox: seq<Mail>, n: Name, l: Link, k: Name)
    requires k != n
    ensures Mailed(inbox + MailRead(n, l), k) == Mailed(inbox, k)
  {
    if MailRead(n, l) == [] {
      assert inbox + MailRead(n, l) == inbox;
    } else {
      MailAdded(inbox, n, MailRead(n, l)[0].msg, k);
    }
  }

  lemma SameFlows(w: World, w': World, k: Name)
    requires Ok(w) && Car(w', k) == Car(w, k) && Mailed(w'.inbox, k) == Mailed(w.inbox, k)
    requires w'.egress == w.egress && w'.timeout == w.timeout
    ensures FlowsAt(w', k)
  {
    assert FlowsAt(w, k);
  }

  lemma SessionReadOtherFlows(w: World, n: Name, k: Name)
    requires Ok(w) && Enabled(w, SessionRead(n)) && k != n
    ensures FlowsAt(Act(w, SessionRead(n)), k)
  {
    MailReadElsewhere(w.inbox, n, w.sidecars[n].up, k);
    SameFlows(w, Act(w, SessionRead(n)), k);
  }

  lemma SessionReadAgentOk(w: World, n: Name)
    requires AgentOk(w) && Enabled(w, SessionRead(n))
    ensures AgentOk(Act(w, SessionRead(n)))
  {
  }

  lemma SessionReadOk(w: World, n: Name)
    requires Ok(w) && Enabled(w, SessionRead(n))
    ensures Ok(Act(w, SessionRead(n)))
  {
    forall k ensures FlowsAt(Act(w, SessionRead(n)), k) {
      if k == n {
        SessionReadOwnFlows(w, n);
      } else {
        SessionReadOtherFlows(w, n, k);
      }
    }
    SessionReadAgentOk(w, n);
  }

  /** The part of a turn's event that comes from a sidecar. */
  function HeardNow(e: EB.Event, n: Name): seq<Message> {
    if e.FromBridge? && e.client == n then [e.request] else []
  }

  function PushedNow(out: seq<EB.Delivery>, n: Name): seq<Message> {
    if out != [] && out[0].channel == n then [out[0].msg] else []
  }

  ghost function Out(w: World, t: EB.Turn): (out: seq<EB.Delivery>)
    ensures |out| <= 1 && (out != [] ==> [out[0].msg] == EB.Returns(t.event))
  {
    EB.Delivers(t, EB.TableAt(w.egress, w.timeout, |w.egress|), EB.ClientsAt(w.egress, |w.egress|))
  }

  lemma HeardGrows(turns: seq<EB.Turn>, timeout: nat, t: EB.Turn, n: Name)
    ensures Heard(turns + [t], n) == Heard(turns, n) + HeardNow(t.event, n)
  {
    EB.LogsAppend(turns, t, timeout);
    PickConcat(EB.ReceivedBy(turns, |turns|), EB.Receives(t.event), OfClient(n), RequestMessage);
    if t.event.FromBridge? {
      PickOne(EB.Request(t.event.client, t.event.request), OfClient(n), RequestMessage);
    }
  }

  lemma PushedGrows(w: World, t: EB.Turn, n: Name)
    ensures Pushed(w.egress + [t], w.timeout, n)
         == Pushed(w.egress, w.timeout, n) + PushedNow(Out(w, t), n)
  {
    var out := Out(w, t);
    EB.LogsAppend(w.egress, t, w.timeout);
    PickConcat(EB.DeliveredBy(w.egress, w.timeout, |w.egress|), out, OnChannel(n), EB.MessageOf);
    if out != [] {
      assert out == [out[0]];
      PickOne(out[0], OnChannel(n), EB.MessageOf);
    }
  }

  /** The world just before an egress turn, its event already taken out of its queue. */
  ghost predicate Poised(w: World, e: EB.Event) {
    && (forall n :: PoisedAt(w, e, n))
    && EB.ReturnedBy(w.egress, |w.egress|) + EB.Returns(e) + w.fromUpstream == w.emitted
    && AllFit(w.emitted)
    && w.taken + w.toUpstream == ForwardedMessages(w.egress)
    && EB.OwnChannels(w.egress)
    && Known(w)
    && (e.Registration? ==> e.channel == e.name && e.name in w.sidecars)
  }

  ghost predicate PoisedAt(w: World, e: EB.Event, n: Name) {
    Flows(Car(w, n), Heard(w.egress, n), HeardNow(e, n) + Mailed(w.inbox, n), Pushed(w.egress, w.timeout, n))
  }

  /** A delivery goes to a sidecar that exists. */
  lemma DeliveryIsKnown(w: World, t: EB.Turn)
    requires EB.OwnChannels(w.egress) && Known(w)
    ensures Out(w, t) != [] ==> Out(w, t)[0].channel in w.sidecars
  {
    var clients := EB.ClientsAt(w.egress, |w.egress|);
    forall name | name in clients ensures clients[name] in w.sidecars {
      assert w.egress[EB.Registrar(w.egress, |w.egress|, name)] in w.egress;
    }
  }

  lemma EgressTurnAgentOk(w: World, e: EB.Event, at: nat, now: nat)
    requires Poised(w, e)
    ensures AgentOk(EgressTurn(w, e, at, now))
  {
    var t, w' := EB.Turn(e, at, now, Dead(w), Dead(w)), EgressTurn(w, e, at, now);
    assert w'.egress == w.egress + [t] && w'.emitted == w.emitted && w'.fromUpstream == w.fromUpstream;
    assert w'.inbox == w.inbox && w'.sidecars.Keys >= w.sidecars.Keys;
    TurnForwards(w, t);
    TurnAgentOk(w, w', t);
  }

  /** What a turn forwards joins the end of what the upstream will take. */
  lemma TurnForwards(w: World, t: EB.Turn)
    requires w.taken + w.toUpstream == ForwardedMessages(w.egress)
    ensures w.taken + (w.toUpstream + Map(RequestMessage, EB.Forwards(t.event))) == ForwardedMessages(w.egress + [t])
  {
    EB.LogsAppend(w.egress, t, w.timeout);
    MapConcat(RequestMessage, EB.ForwardedBy(w.egress, |w.egress|), EB.Forwards(t.event));
  }

  lemma TurnKnown(w: World, w': World, t: EB.Turn)
    requires EB.OwnChannels(w.egress) && Known(w)
    requires t.event.Registration? ==> t.event.channel == t.event.name && t.event.name in w.sidecars
    requires w'.egress == w.egress + [t] && w'.inbox == w.inbox && w'.sidecars.Keys >= w.sidecars.Keys
    ensures EB.OwnChannels(w'.egress) && Known(w')
  {
  }

  lemma TurnAgentOk(w: World, w': World, t: EB.Turn)
    requires Poised(w, t.event)
    requires w'.egress == w.egress + [t] && w'.emitted == w.emitted && w'.fromUpstream == w.fromUpstream
    requires w'.inbox == w.inbox && w'.sidecars.Keys >= w.sidecars.Keys
    requires w'.taken + w'.toUpstream == ForwardedMessages(w'.egress)
    ensures AgentOk(w')
  {
    TurnKnown(w, w', t);
    EB.LogsAppend(w.egress, t, w.timeout);
    assert EB.ReturnedBy(w'.egress, |w'.egress|) == EB.ReturnedBy(w.egress, |w.egress|) + EB.Returns(t.event);
  }

  /** What a turn takes from a sidecar and what it puts on its channel. */
  lemma TurnFlows(s: Sidecar, e: EB.Event, out: seq<EB.Delivery>, n: Name,
                  heard: seq<Message>, mailed: seq<Message>, pushed: seq<Message>)
    requires Flows(s, heard, HeardNow(e, n) + mailed, pushed)
    requires forall d | d in out :: Fits(d.msg)
    ensures Flows(if PushedNow(out, n) == [] then s else s.(channel := s.channel + PushedNow(out, n)),
                  heard + HeardNow(e, n), mailed, pushed + PushedNow(out, n))
  {
    HearFlows(s, HeardNow(e, n), heard, mailed, pushed);
    if PushedNow(out, n) == [] {
      assert pushed + [] == pushed;
    } else {
      PushFlows(s, out[0].msg, heard + HeardNow(e, n), mailed, pushed);
    }
  }

  lemma OutFits(w: World, t: EB.Turn)
    requires Poised(w, t.event)
    ensures forall d | d in Out(w, t) :: Fits(d.msg)
  {
    if Out(w, t) != [] {
      assert EB.Returns(t.event)[0] in w.emitted;
    }
  }

  lemma TurnCar(w: World, e: EB.Event, at: nat, now: nat, n: Name)
    requires Poised(w, e)
    ensures var t := EB.Turn(e, at, now, Dead(w), Dead(w));
      var s, pushed := Car(w, n), PushedNow(Out(w, t), n);
      && Car(EgressTurn(w, e, at, now), n) == (if pushed == [] then s else s.(channel := s.channel + pushed))
  {
    DeliveryIsKnown(w, EB.Turn(e, at, now, Dead(w), Dead(w)));
  }

  lemma EgressTurnFlows(w: World, e: EB.Event, at: nat, now: nat, n: Name)
    requires Poised(w, e)
    ensures FlowsAt(EgressTurn(w, e, at, now), n)
  {
    var t := EB.Turn(e, at, now, Dead(w), Dead(w));
    assert PoisedAt(w, e, n);
    TurnCar(w, e, at, now, n);
    OutFits(w, t);
    HeardGrows(w.egress, w.timeout, t, n);
    PushedGrows(w, t, n);
    TurnFlows(Car(w, n), e, Out(w, t), n, Heard(w.egress, n), Mailed(w.inbox, n), Pushed(w.egress, w.timeout, n));
  }

  lemma EgressTurnOk(w: World, e: EB.Event, at: nat, now: nat)
    requires Poised(w, e)
    ensures Ok(EgressTurn(w, e, at, now))
  {
    EgressTurnAgentOk(w, e, at, now);
    forall n ensures FlowsAt(EgressTurn(w, e, at, now), n) {
      EgressTurnFlows(w, e, at, now, n);
    }
  }

  lemma MailHead(mail: Mail, sendOk: bool, inbox: seq<Mail>, n: Name)
    requires inbox != [] && inbox[0] == mail
    ensures Mailed(inbox, n) == HeardNow(EventOf(mail, sendOk), n) + Mailed(inbox[1..], n)
  {
    PickPrepend(mail, inbox[1..], MailOf(n), MailMessage);
    assert inbox == [mail] + inbox[1..];
  }

  lemma MailAgentOk(w: World, sendOk: bool)
    requires AgentOk(w) && w.inbox != []
    ensures var e, w1 := EventOf(w.inbox[0], sendOk), w.(inbox := w.inbox[1..]);
      && EB.ReturnedBy(w1.egress, |w1.egress|) + EB.Returns(e) + w1.fromUpstream == w1.emitted
      && Known(w1)
      && (e.Registration? ==> e.channel == e.name && e.name in w1.sidecars)
  {
    assert w.inbox[0] in w.inbox;
    assert EB.ReturnedBy(w.egress, |w.egress|) + [] == EB.ReturnedBy(w.egress, |w.egress|);
  }

  lemma MailPoised(w: World, sendOk: bool)
    requires Ok(w) && w.inbox != []
    ensures Poised(w.(inbox := w.inbox[1..]), EventOf(w.inbox[0], sendOk))
  {
    var mail, e, w1 := w.inbox[0], EventOf(w.inbox[0], sendOk), w.(inbox := w.inbox[1..]);
    forall n ensures PoisedAt(w1, e, n) {
      assert FlowsAt(w, n);
      MailHead(mail, sendOk, w.inbox, n);
    }
    MailAgentOk(w, sendOk);
  }

  lemma NoMailHeard(w: World, e: EB.Event, n: Name)
    requires Ok(w) && !e.FromBridge?
    ensures PoisedAt(w, e, n)
  {
    assert FlowsAt(w, n);
    assert HeardNow(e, n) == [];
    assert [] + Mailed(w.inbox, n) == Mailed(w.inbox, n);
  }

  lemma NetReturned(w: World)
    requires AgentOk(w) && w.fromUpstream != []
    ensures EB.ReturnedBy(w.egress, |w.egress|) + EB.Returns(EB.FromNet(w.fromUpstream[0])) + w.fromUpstream[1..]
         == w.emitted
  {
    assert w.fromUpstream == [w.fromUpstream[0]] + w.fromUpstream[1..];
  }

  lemma NetPoised(w: World)
    requires Ok(w) && w.fromUpstream != []
    ensures Poised(w.(fromUpstream := w.fromUpstream[1..]), EB.FromNet(w.fromUpstream[0]))
  {
    var e, w1 := EB.FromNet(w.fromUpstream[0]), w.(fromUpstream := w.fromUpstream[1..]);
    NetReturned(w);
    forall n ensures PoisedAt(w1, e, n) {
      NoMailHeard(w, e, n);
    }
  }

  lemma IdlePoised(w: World)
    requires Ok(w)
    ensures Poised(w, EB.Timeout)
  {
    forall n ensures PoisedAt(w, EB.Timeout, n) {
      NoMailHeard(w, EB.Timeout, n);
    }
    assert EB.ReturnedBy(w.egress, |w.egress|) + [] == EB.ReturnedBy(w.egress, |w.egress|);
  }

  lemma EgressOk(w: World, a: Action)
    requires Ok(w) && Enabled(w, a) && (a.EgressMail? || a.EgressNet? || a.EgressIdle?)
    ensures Ok(Act(w, a))
  {
    match a
    case EgressMail(sendOk, at, now) =>
      MailPoised(w, sendOk);
      EgressTurnOk(w.(inbox := w.inbox[1..]), EventOf(w.inbox[0], sendOk), at, now);
    case EgressNet(at, now) =>
      NetPoised(w);
      EgressTurnOk(w.(fromUpstream := w.fromUpstream[1..]), EB.FromNet(w.fromUpstream[0]), at, now);
    case EgressIdle(at, now) =>
      IdlePoised(w);
      EgressTurnOk(w, EB.Timeout, at, now);
  }

  lemma UpstreamAgentOk(w: World, a: Action)
    requires AgentOk(w) && Enabled(w, a) && (a.UpstreamTake? || a.UpstreamEmit?)
    ensures AgentOk(Act(w, a))
  {
    if a.UpstreamTake? {
      assert w.toUpstream == [w.toUpstream[0]] + w.toUpstream[1..];
      Regroup(w.taken, [w.toUpstream[0]], w.toUpstream[1..]);
    }
  }

  lemma UpstreamOk(w: World, a: Action)
    requires Ok(w) && Enabled(w, a) && (a.UpstreamTake? || a.UpstreamEmit?)
    ensures Ok(Act(w, a))
  {
    forall n ensures FlowsAt(Act(w, a), n) {
      SameFlows(w, Act(w, a), n);
    }
    UpstreamAgentOk(w, a);
  }

  lemma ActOk(w: World, a: Action)
    requires Ok(w) && Enabled(w, a)
    ensures Ok(Act(w, a))
  {
    match a
    case Connect(n, timeout) => ConnectOk(w, n, timeout);
    case SessionRead(n) => SessionReadOk(w, n);
    case EgressMail(_, _, _) => EgressOk(w, a);
    case EgressNet(_, _) => EgressOk(w, a);
    case EgressIdle(_, _) => EgressOk(w, a);
    case UpstreamTake => UpstreamOk(w, a);
    case UpstreamEmit(_) => UpstreamOk(w, a);
    case Ingress(n, e, at, now) => IngressOk(w, n, e, at, now);
    case ClientEnds(_) => EndsOk(w, a);
    case SessionEnds(_) => EndsOk(w, a);
    case ClientWrite(_) => WriteOk(w, a);
    case SessionWrite(_) => WriteOk(w, a);
    case ClientWriteFails(n, room) => ClientWriteFailsOk(w, n, room);
    case SessionWriteFails(n, room) => SessionWriteFailsOk(w, n, room);
    case ClientAbandon(_, _) => AbandonOk(w, a);
    case SessionAbandon(_, _) => AbandonOk(w, a);
    case ClientRead(n) => ClientReadOk(w, n);
  }

  /** In every interleaving no hop between the bridges loses, reorders, merges or invents a message. */
  lemma {:induction false} RunOk(timeout: nat, actions: seq<Action>, k: nat)
    requires k <= |actions|
    ensures Ok(Run(timeout, actions, k)) && Run(timeout, actions, k).timeout == timeout
  {
    if k == 0 {
      StartOk(timeout);
    } else {
      RunOk(timeout, actions, k - 1);
      var w := Run(timeout, actions, k - 1);
      if Enabled(w, actions[k - 1]) {
        ActOk(w, actions[k - 1]);
      }
    }
  }
}
