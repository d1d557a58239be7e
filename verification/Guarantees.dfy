/** What the whole system promises to the clients of each sidecar, over every run: whatever the interleaving and
    whatever the upstream sends. */
module Guarantees {
  import opened Codec
  import opened PendingTable
  import opened Seqs
  import opened Routing
  import FL = FramedLink
  import IB = IngressBridge
  import EB = EgressBridge

  function HasId(id: u16): Message -> bool {
    (m: Message) => Id(m) == id
  }

  /** The world at the end of a run. */
  ghost function End(timeout: nat, actions: seq<Action>): World {
    Run(timeout, actions, |actions|)
  }

  /** What a sidecar's bridge has passed on to the agent. */
  ghost function Passed(w: World, y: Name): seq<Message> {
    IB.PassedBy(Car(w, y).turns, |Car(w, y).turns|)
  }

  /** What has reached a sidecar's bridge from the agent. */
  ghost function Taken(w: World, y: Name): seq<Message> {
    IB.TakenBy(Car(w, y).turns, |Car(w, y).turns|)
  }

  /** The datagrams a sidecar has accepted from its clients, and those it has sent back to them. */
  ghost function Accepted(w: World, y: Name): seq<IB.Datagram> {
    IB.AcceptedBy(Car(w, y).turns, |Car(w, y).turns|)
  }

  ghost function Returned(w: World, y: Name): seq<IB.Datagram> {
    IB.ReturnedBy(Car(w, y).turns, Car(w, y).timeout, |Car(w, y).turns|)
  }

  // ---- Broken sockets ----

  /** Every read of this sidecar's socket that was abandoned was abandoned at a safe point. */
  ghost predicate SafelyRead(timeout: nat, actions: seq<Action>, y: Name) {
    forall k {:trigger SafeAt(timeout, actions, k, y)} | 0 <= k < |actions| :: SafeAt(timeout, actions, k, y)
  }

  ghost predicate SafeAt(timeout: nat, actions: seq<Action>, k: nat, y: Name)
    requires k < |actions|
  {
    var s := Car(Run(timeout, actions, k), y);
    match actions[k]
    case ClientAbandon(n, c) => n == y ==> SafePoint(s.down.len, c)
    case SessionAbandon(n, c) => n == y ==> SafePoint(s.up.len, c)
    case _ => true
  }

  /** Only a sidecar's own reads can break its socket; the guarantees that ask for whole sockets thus hold for it
      whatever becomes of the others. */
  lemma {:induction false} SafelyReadIsWhole(timeout: nat, actions: seq<Action>, k: nat, y: Name)
    requires k <= |actions| && SafelyRead(timeout, actions, y)
    ensures var s := Car(Run(timeout, actions, k), y); !s.brokenUp && !s.brokenDown
  {
    if k > 0 {
      SafelyReadIsWhole(timeout, actions, k - 1, y);
      assert SafeAt(timeout, actions, k - 1, y);
      var w := Run(timeout, actions, k - 1);
      if Enabled(w, actions[k - 1]) {
        BreaksOnlyUnsafely(w, actions[k - 1], y);
      }
    }
  }

  lemma BreaksOnlyUnsafely(w: World, a: Action, y: Name)
    requires Enabled(w, a)
    requires a.ClientAbandon? && a.name == y ==> SafePoint(Car(w, y).down.len, a.consumed)
    requires a.SessionAbandon? && a.name == y ==> SafePoint(Car(w, y).up.len, a.consumed)
    ensures Car(Act(w, a), y).brokenUp ==> Car(w, y).brokenUp
    ensures Car(Act(w, a), y).brokenDown ==> Car(w, y).brokenDown
  {
    if a.EgressMail? || a.EgressNet? || a.EgressIdle? {
      EgressActBreaksNothing(w, a, y);
    } else if a.ClientAbandon? || a.SessionAbandon? {
      AbandonBreaksOnlyUnsafely(w, a, y);
    } else {
      OtherBreaksNothing(w, a, y);
    }
  }

  lemma AbandonBreaksOnlyUnsafely(w: World, a: Action, y: Name)
    requires Enabled(w, a) && (a.ClientAbandon? || a.SessionAbandon?)
    requires a.name == y ==> SafePoint(if a.ClientAbandon? then Car(w, y).down.len else Car(w, y).up.len, a.consumed)
    ensures Car(Act(w, a), y).brokenUp ==> Car(w, y).brokenUp
    ensures Car(Act(w, a), y).brokenDown ==> Car(w, y).brokenDown
  {
  }

  lemma OtherBreaksNothing(w: World, a: Action, y: Name)
    requires Enabled(w, a) && !a.EgressMail? && !a.EgressNet? && !a.EgressIdle?
    requires !a.ClientAbandon? && !a.SessionAbandon?
    ensures Car(Act(w, a), y).brokenUp ==> Car(w, y).brokenUp
    ensures Car(Act(w, a), y).brokenDown ==> Car(w, y).brokenDown
  {
  }

  lemma EgressActBreaksNothing(w: World, a: Action, y: Name)
    requires Enabled(w, a) && (a.EgressMail? || a.EgressNet? || a.EgressIdle?)
    ensures Car(Act(w, a), y).brokenUp ==> Car(w, y).brokenUp
    ensures Car(Act(w, a), y).brokenDown ==> Car(w, y).brokenDown
  {
    match a
    case EgressMail(sendOk, at, now) =>
      EgressBreaksNothing(w.(inbox := w.inbox[1..]), EventOf(w.inbox[0], sendOk), at, now, y);
    case EgressNet(at, now) =>
      EgressBreaksNothing(w.(fromUpstream := w.fromUpstream[1..]), EB.FromNet(w.fromUpstream[0]), at, now, y);
    case EgressIdle(at, now) => EgressBreaksNothing(w, EB.Timeout, at, now, y);
  }

  lemma EgressBreaksNothing(w: World, e: EB.Event, at: nat, now: nat, y: Name)
    ensures Car(EgressTurn(w, e, at, now), y).brokenUp == Car(w, y).brokenUp
    ensures Car(EgressTurn(w, e, at, now), y).brokenDown == Car(w, y).brokenDown
  {
  }

  // ---- Isolation ----

  /** Sidecars are isolated from each other: one never gets more messages with an id than the agent forwarded for it,
      and no more of these were forwarded than it asked for. Each half needs its own direction of this one socket
      whole. */
  lemma SidecarIsolation(timeout: nat, actions: seq<Action>, y: Name, id: u16)
    ensures var w := End(timeout, actions);
      var forwarded := Count(EB.ForwardedBy(w.egress, |w.egress|), EB.From(y, id));
      && (!Car(w, y).brokenDown ==> Count(Taken(w, y), HasId(id)) <= forwarded)
      && (!Car(w, y).brokenUp ==> forwarded <= Count(Passed(w, y), HasId(id)))
  {
    var w := End(timeout, actions);
    RunOk(timeout, actions, |actions|);
    if !Car(w, y).brokenDown {
      TakenWithinPushed(w, y, id);
    }
    EB.DeliveriesNeverExceedRequests(w.egress, timeout, y, id);
    if !Car(w, y).brokenUp {
      HeardWithinPassed(w, y, id);
    }
  }

  lemma TakenWithinPushed(w: World, y: Name, id: u16)
    requires Ok(w) && !Car(w, y).brokenDown
    ensures Count(Taken(w, y), HasId(id))
         <= Count(EB.DeliveredBy(w.egress, w.timeout, |w.egress|), EB.To(y, id))
  {
    var s, log := Car(w, y), EB.DeliveredBy(w.egress, w.timeout, |w.egress|);
    CountOfPrefix(Taken(w, y), Later(s), HasId(id));
    PushedSplits(w, y);
    CountPicked(log, |log|, OnChannel(y), EB.MessageOf, HasId(id), EB.To(y, id));
  }

  lemma HeardWithinPassed(w: World, y: Name, id: u16)
    requires Ok(w) && !Car(w, y).brokenUp
    ensures Count(EB.ReceivedBy(w.egress, |w.egress|), EB.From(y, id)) <= Count(Passed(w, y), HasId(id))
  {
    var s, log := Car(w, y), EB.ReceivedBy(w.egress, |w.egress|);
    CountOfPrefix(Heard(w.egress, y), Sooner(w, y), HasId(id));
    PassedSplits(w, y);
    CountPicked(log, |log|, OfClient(y), RequestMessage, HasId(id), EB.From(y, id));
  }

  /** Clients of one sidecar are isolated too: an address never gets more replies with an id than it sent requests. */
  lemma AddressIsolation(timeout: nat, actions: seq<Action>, y: Name, addr: IB.SocketAddr, id: u16)
    ensures var w := End(timeout, actions);
      Count(Returned(w, y), IB.With(addr, id)) <= Count(Accepted(w, y), IB.With(addr, id))
  {
    var s := Car(End(timeout, actions), y);
    IB.RepliesNeverExceedRequests(s.turns, s.timeout, addr, id);
  }

  // ---- Payload integrity ----

  /** The messages sent back to clients are, byte for byte and in order, messages the upstream emitted, unless the
      sidecar's own socket is broken on the way down. */
  lemma PayloadIntegrity(timeout: nat, actions: seq<Action>, y: Name)
    ensures var w := End(timeout, actions);
      !Car(w, y).brokenDown ==> Subsequence(Map(IB.MessageOf, Returned(w, y)), w.emitted)
  {
    var w := End(timeout, actions);
    RunOk(timeout, actions, |actions|);
    if !Car(w, y).brokenDown {
      var returned := Map(IB.MessageOf, Returned(w, y));
      IB.RepliesAreTaken(Car(w, y).turns, Car(w, y).timeout, |Car(w, y).turns|);
      TakenFromEmitted(w, y);
      SubsequenceTrans(returned, |returned|, Taken(w, y), |Taken(w, y)|, w.emitted, |w.emitted|);
    }
  }

  /** What reaches a sidecar is a subsequence of what the upstream emitted. */
  lemma TakenFromEmitted(w: World, y: Name)
    requires Ok(w) && !Car(w, y).brokenDown
    ensures Subsequence(Taken(w, y), w.emitted)
  {
    PushedFromReturned(w.egress, w.timeout, y);
    PushedSplits(w, y);
    SubsequenceOfParts(Taken(w, y), Later(Car(w, y)), EB.ReturnedBy(w.egress, |w.egress|), w.fromUpstream);
  }

  /** What is still on its way down to a sidecar's bridge. */
  function Later(s: Sidecar): seq<Message> {
    s.toIngress + Under(s.down, s.lostDown, s.channel)
  }

  lemma PushedSplits(w: World, y: Name)
    requires Ok(w) && !Car(w, y).brokenDown
    ensures Pushed(w.egress, w.timeout, y) == Taken(w, y) + Later(Car(w, y))
  {
    assert FlowsAt(w, y);
    var s := Car(w, y);
    Regroup(Taken(w, y), s.toIngress, Under(s.down, s.lostDown, s.channel));
  }

  /** What is still on its way up from a sidecar's bridge. */
  function Sooner(w: World, y: Name): seq<Message> {
    Mailed(w.inbox, y) + Under(Car(w, y).up, Car(w, y).lostUp, Car(w, y).toClient)
  }

  lemma PassedSplits(w: World, y: Name)
    requires Ok(w) && !Car(w, y).brokenUp
    ensures Passed(w, y) == Heard(w.egress, y) + Sooner(w, y)
  {
    assert FlowsAt(w, y);
    var s := Car(w, y);
    Regroup(Heard(w.egress, y), Mailed(w.inbox, y), Under(s.up, s.lostUp, s.toClient));
  }

  lemma PushedFromReturned(turns: seq<EB.Turn>, timeout: nat, y: Name)
    ensures Subsequence(Pushed(turns, timeout, y), EB.ReturnedBy(turns, |turns|))
  {
    var log, pushed := EB.DeliveredBy(turns, timeout, |turns|), Pushed(turns, timeout, y);
    SubsequencePick(log, |log|, OnChannel(y), EB.MessageOf);
    EB.DeliveriesAreReturned(turns, timeout, |turns|);
    SubsequenceTrans(pushed, |pushed|, Map(EB.MessageOf, log), |log|, EB.ReturnedBy(turns, |turns|),
                     |EB.ReturnedBy(turns, |turns|)|);
  }

  // ---- What the upstream gets ----

  /** What the upstream has taken and what waits for it is what the agent forwarded, in order; and the part of it that
      came from a sidecar is, byte for byte and in order, requests this sidecar accepted from its clients. */
  lemma UpstreamGetsRequests(timeout: nat, actions: seq<Action>, y: Name)
    ensures var w := End(timeout, actions);
      var forwarded := EB.ForwardedBy(w.egress, |w.egress|);
      && w.taken + w.toUpstream == Map(RequestMessage, forwarded)
      && (!Car(w, y).brokenUp ==>
            Subsequence(Pick(forwarded, OfClient(y), RequestMessage), Map(IB.MessageOf, Accepted(w, y))))
  {
    var w := End(timeout, actions);
    RunOk(timeout, actions, |actions|);
    var forwarded, heard := Pick(EB.ForwardedBy(w.egress, |w.egress|), OfClient(y), RequestMessage), Heard(w.egress, y);
    if !Car(w, y).brokenUp {
      ForwardedFromHeard(w.egress, |w.egress|, y);
      HeardFromAccepted(w, y);
      var accepted := Map(IB.MessageOf, Accepted(w, y));
      SubsequenceTrans(forwarded, |forwarded|, heard, |heard|, accepted, |accepted|);
    }
  }

  lemma HeardFromAccepted(w: World, y: Name)
    requires Ok(w) && !Car(w, y).brokenUp
    ensures Subsequence(Heard(w.egress, y), Map(IB.MessageOf, Accepted(w, y)))
  {
    var accepted := Map(IB.MessageOf, Accepted(w, y));
    PassedSplits(w, y);
    PassedFromAccepted(Car(w, y).turns, |Car(w, y).turns|);
    SubsequenceOfParts(Heard(w.egress, y), Sooner(w, y), accepted, []);
    assert accepted + [] == accepted;
  }

  lemma {:induction false} ForwardedFromHeard(turns: seq<EB.Turn>, k: nat, y: Name)
    requires k <= |turns|
    ensures Subsequence(Pick(EB.ForwardedBy(turns, k), OfClient(y), RequestMessage),
                        Pick(EB.ReceivedBy(turns, k), OfClient(y), RequestMessage))
  {
    if k > 0 {
      ForwardedFromHeard(turns, k - 1, y);
      ForwardedGrows(EB.ForwardedBy(turns, k - 1), EB.ReceivedBy(turns, k - 1), turns[k - 1].event, y);
    }
  }

  lemma ForwardedGrows(forwarded: seq<EB.Request>, received: seq<EB.Request>, e: EB.Event, y: Name)
    requires Subsequence(Pick(forwarded, OfClient(y), RequestMessage), Pick(received, OfClient(y), RequestMessage))
    ensures Subsequence(Pick(forwarded + EB.Forwards(e), OfClient(y), RequestMessage),
                        Pick(received + EB.Receives(e), OfClient(y), RequestMessage))
  {
    var before, all := Pick(forwarded, OfClient(y), RequestMessage), Pick(received, OfClient(y), RequestMessage);
    PickConcat(forwarded, EB.Forwards(e), OfClient(y), RequestMessage);
    PickConcat(received, EB.Receives(e), OfClient(y), RequestMessage);
    if e.FromBridge? {
      PickOne(EB.Request(e.client, e.request), OfClient(y), RequestMessage);
    }
    var more := Pick(EB.Forwards(e), OfClient(y), RequestMessage);
    var head := Pick(EB.Receives(e), OfClient(y), RequestMessage);
    if head == [] {
      assert before + more == before && all + head == all;
    } else {
      SubsequenceGrow(before, all, more, head[0]);
    }
  }

  lemma {:induction false} PassedFromAccepted(turns: seq<IB.Turn>, k: nat)
    requires k <= |turns|
    ensures Subsequence(IB.PassedBy(turns, k), Map(IB.MessageOf, IB.AcceptedBy(turns, k)))
  {
    if k > 0 {
      PassedFromAccepted(turns, k - 1);
      PassedGrows(IB.PassedBy(turns, k - 1), IB.AcceptedBy(turns, k - 1), turns[k - 1].event);
    }
  }

  lemma PassedGrows(passed: seq<Message>, accepted: seq<IB.Datagram>, e: IB.Event)
    requires Subsequence(passed, Map(IB.MessageOf, accepted))
    ensures Subsequence(passed + IB.Passes(e), Map(IB.MessageOf, accepted + IB.Accepts(e)))
  {
    var all := Map(IB.MessageOf, accepted);
    MapConcat(IB.MessageOf, accepted, IB.Accepts(e));
    if IB.Accepts(e) == [] {
      assert passed + IB.Passes(e) == passed && accepted + IB.Accepts(e) == accepted;
    } else {
      var m := IB.Accepts(e)[0].msg;
      assert Map(IB.MessageOf, IB.Accepts(e)) == [m];
      SubsequenceGrow(passed, all, IB.Passes(e), m);
    }
  }

  // ---- Sidecars can be answered ----

  /** While its session lives, a sidecar's registration is in the inbox or stands, under its own channel. */
  ghost predicate RegistrationOk(w: World, y: Name) {
    y in w.sidecars && w.sidecars[y].session ==> Register(y) in w.inbox || Registered(w, y)
  }

  ghost predicate Registered(w: World, y: Name) {
    var clients := EB.ClientsAt(w.egress, |w.egress|);
    y in clients && clients[y] == y
  }

  /** In every run, once its registration is read, a sidecar is registered until its session ends: no other sidecar's
      coming, going or traffic can change that. */
  lemma AliveIsRegistered(timeout: nat, actions: seq<Action>, y: Name)
    requires var w := End(timeout, actions); y in w.sidecars && w.sidecars[y].session && Register(y) !in w.inbox
    ensures Registered(End(timeout, actions), y)
  {
    RegistrationKept(timeout, actions, |actions|, y);
  }

  lemma {:induction false} RegistrationKept(timeout: nat, actions: seq<Action>, k: nat, y: Name)
    requires k <= |actions|
    ensures RegistrationOk(Run(timeout, actions, k), y)
  {
    if k > 0 {
      RegistrationKept(timeout, actions, k - 1, y);
      var w := Run(timeout, actions, k - 1);
      if Enabled(w, actions[k - 1]) {
        RegistrationNext(w, actions[k - 1], y);
      }
    }
  }

  lemma RegistrationNext(w: World, a: Action, y: Name)
    requires RegistrationOk(w, y) && Enabled(w, a)
    ensures RegistrationOk(Act(w, a), y)
  {
    if a.EgressMail? {
      MailRegisters(w, a.sendOk, a.at, a.now, y);
    } else if a.EgressNet? {
      var e, w1 := EB.FromNet(w.fromUpstream[0]), w.(fromUpstream := w.fromUpstream[1..]);
      TurnRegisters(w1, e, a.at, a.now, y);
    } else if a.EgressIdle? {
      TurnRegisters(w, EB.Timeout, a.at, a.now, y);
    } else {
      OtherRegisters(w, a, y);
    }
  }

  lemma OtherRegisters(w: World, a: Action, y: Name)
    requires RegistrationOk(w, y) && Enabled(w, a) && !a.EgressMail? && !a.EgressNet? && !a.EgressIdle?
    ensures RegistrationOk(Act(w, a), y)
  {
    assert Act(w, a).egress == w.egress;
    assert forall m | m in w.inbox :: m in Act(w, a).inbox;
    if a.Connect? && a.name == y {
      assert Act(w, a).inbox[|w.inbox|] == Register(y);
    }
  }

  lemma TurnRegisters(w: World, e: EB.Event, at: nat, now: nat, y: Name)
    requires RegistrationOk(w, y) && (e.Registration? ==> e.channel == e.name)
    ensures RegistrationOk(EgressTurn(w, e, at, now), y)
  {
    TurnClients(w, e, at, now);
  }

  lemma TurnClients(w: World, e: EB.Event, at: nat, now: nat)
    ensures var t, w' := EB.Turn(e, at, now, Dead(w), Dead(w)), EgressTurn(w, e, at, now);
      && EB.ClientsAt(w'.egress, |w'.egress|) == EB.NextClients(EB.ClientsAt(w.egress, |w.egress|), t)
      && w'.inbox == w.inbox
  {
    EB.LogsAppend(w.egress, EB.Turn(e, at, now, Dead(w), Dead(w)), w.timeout);
  }

  lemma MailRegisters(w: World, sendOk: bool, at: nat, now: nat, y: Name)
    requires RegistrationOk(w, y) && w.inbox != []
    ensures RegistrationOk(Act(w, EgressMail(sendOk, at, now)), y)
  {
    var w1, e := w.(inbox := w.inbox[1..]), EventOf(w.inbox[0], sendOk);
    TurnClients(w1, e, at, now);
    assert w.inbox == [w.inbox[0]] + w1.inbox;
  }

  // ---- No duplication across sidecars ----

  predicate Distinct(ys: seq<Name>) {
    forall i, j | 0 <= i < j < |ys| :: ys[i] != ys[j]
  }

  ghost function TakenTogether(w: World, ys: seq<Name>): multiset<Message> {
    if ys == [] then multiset{} else multiset(Taken(w, ys[0])) + TakenTogether(w, ys[1..])
  }

  ghost function PickedTogether(log: seq<EB.Delivery>, n: nat, ys: seq<Name>): multiset<Message>
    requires n <= |log|
  {
    if ys == [] then multiset{} else
      multiset(PickIn(log, n, OnChannel(ys[0]), EB.MessageOf)) + PickedTogether(log, n, ys[1..])
  }

  /** All sidecars whose sockets are whole on the way down together get every emitted message at most as often as it was
      emitted. */
  lemma NothingDuplicated(timeout: nat, actions: seq<Action>, ys: seq<Name>)
    requires Distinct(ys) && forall y | y in ys :: !Car(End(timeout, actions), y).brokenDown
    ensures var w := End(timeout, actions); TakenTogether(w, ys) <= multiset(w.emitted)
  {
    var w := End(timeout, actions);
    RunOk(timeout, actions, |actions|);
    var log, back := EB.DeliveredBy(w.egress, w.timeout, |w.egress|), EB.ReturnedBy(w.egress, |w.egress|);
    TakenWithinPicked(w, ys);
    PickedWithinLog(log, |log|, ys);
    var delivered := Map(EB.MessageOf, log);
    EB.DeliveriesAreReturned(w.egress, w.timeout, |w.egress|);
    SubsequenceMultiset(delivered, |delivered|, back, |back|);
    assert delivered[..|delivered|] == delivered && back[..|back|] == back;
    assert multiset(w.emitted) == multiset(back) + multiset(w.fromUpstream);
  }

  lemma {:induction false} TakenWithinPicked(w: World, ys: seq<Name>)
    requires Ok(w) && forall y | y in ys :: !Car(w, y).brokenDown
    ensures var log := EB.DeliveredBy(w.egress, w.timeout, |w.egress|);
      TakenTogether(w, ys) <= PickedTogether(log, |log|, ys)
  {
    if ys != [] {
      TakenOfPushed(w, ys[0]);
      TakenWithinPicked(w, ys[1..]);
    }
  }

  lemma TakenOfPushed(w: World, y: Name)
    requires Ok(w) && !Car(w, y).brokenDown
    ensures multiset(Taken(w, y)) <= multiset(Pushed(w.egress, w.timeout, y))
  {
    PushedSplits(w, y);
    assert multiset(Taken(w, y) + Later(Car(w, y))) == multiset(Taken(w, y)) + multiset(Later(Car(w, y)));
  }

  lemma {:induction false} PickedWithinLog(log: seq<EB.Delivery>, n: nat, ys: seq<Name>)
    requires n <= |log| && Distinct(ys)
    ensures PickedTogether(log, n, ys) <= multiset(Map(EB.MessageOf, log)[..n])
  {
    if n == 0 {
      PickedFromNothing(log, ys);
    } else {
      PickedWithinLog(log, n - 1, ys);
      PickedGrows(log, n, ys);
      var image := Map(EB.MessageOf, log);
      OneMore(image, n);
      MoreWithin(PickedTogether(log, n - 1, ys), multiset(image[..n - 1]), log[n - 1].msg);
    }
  }

  lemma MoreWithin(part: multiset<Message>, all: multiset<Message>, m: Message)
    requires part <= all
    ensures part + multiset{m} <= all + multiset{m} && part + multiset{} <= all + multiset{m}
  {
  }

  lemma OneMore(ms: seq<Message>, n: nat)
    requires 0 < n <= |ms|
    ensures multiset(ms[..n]) == multiset(ms[..n - 1]) + multiset{ms[n - 1]}
  {
    assert ms[..n] == ms[..n - 1] + [ms[n - 1]];
  }

  lemma {:induction false} PickedFromNothing(log: seq<EB.Delivery>, ys: seq<Name>)
    ensures PickedTogether(log, 0, ys) == multiset{}
  {
    if ys != [] {
      PickedFromNothing(log, ys[1..]);
    }
  }

  lemma {:induction false} PickedGrows(log: seq<EB.Delivery>, n: nat, ys: seq<Name>)
    requires 0 < n <= |log| && Distinct(ys)
    ensures PickedTogether(log, n, ys) == PickedTogether(log, n - 1, ys)
         + if log[n - 1].channel in ys then multiset{log[n - 1].msg} else multiset{}
  {
    if ys != [] {
      var d := log[n - 1];
      PickedGrows(log, n, ys[1..]);
      assert d.channel in ys <==> d.channel == ys[0] || d.channel in ys[1..];
      assert d.channel == ys[0] ==> d.channel !in ys[1..];
      var before := PickIn(log, n - 1, OnChannel(ys[0]), EB.MessageOf);
      assert multiset(before + [d.msg]) == multiset(before) + multiset{d.msg};
    }
  }

  // ---- Every reply has its cause ----

  /** A reply sent to an address answers an earlier request of that address with the same id, younger than the
      timeout and one turn, and its bytes are those of a message the upstream emitted, unless the sidecar's own socket
      is broken on the way down. */
  lemma ReplyIsCaused(timeout: nat, actions: seq<Action>, y: Name, gap: nat, j: nat) returns (o: nat)
    requires var s := Car(End(timeout, actions), y);
      && Timely(IB.Ticks(s.turns), gap) && j < |s.turns|
      && IB.Returns(s.turns[j].event, IB.TableAt(s.turns, s.timeout, j)) != []
    ensures var w, s := End(timeout, actions), Car(End(timeout, actions), y);
      var reply := IB.Returns(s.turns[j].event, IB.TableAt(s.turns, s.timeout, j))[0];
      && o < j && IB.Accepts(s.turns[o].event) != []
      && IB.Accepts(s.turns[o].event)[0].addr == reply.addr
      && Id(IB.Accepts(s.turns[o].event)[0].msg) == Id(reply.msg)
      && s.turns[o].at <= s.turns[j].at < s.turns[o].at + s.timeout + gap
      && (!s.brokenDown ==> reply.msg in w.emitted)
  {
    var w := End(timeout, actions);
    var s := Car(w, y);
    o := IB.ReplyHasRequest(s.turns, s.timeout, gap, j);
    RunOk(timeout, actions, |actions|);
    if !s.brokenDown {
      TakenFromEmitted(w, y);
      TakenInLog(s.turns, j, |s.turns|);
      InBoth(Taken(w, y), w.emitted, s.turns[j].event.msg);
    }
  }

  lemma InBoth(part: seq<Message>, all: seq<Message>, m: Message)
    requires Subsequence(part, all) && m in part
    ensures m in all
  {
    SubsequenceMultiset(part, |part|, all, |all|);
    assert part[..|part|] == part && all[..|all|] == all;
    assert m in multiset(part);
  }

  lemma {:induction false} TakenInLog(turns: seq<IB.Turn>, j: nat, k: nat)
    requires j < k <= |turns| && turns[j].event.FromBridge?
    ensures turns[j].event.msg in IB.TakenBy(turns, k)
  {
    if j == k - 1 {
      assert IB.Takes(turns[j].event)[0] == turns[j].event.msg;
    } else {
      TakenInLog(turns, j, k - 1);
    }
  }

  /** A message the agent puts on a sidecar's channel answers a request with the same id that came from that very
      sidecar; different messages answer different requests, and each request is young enough. */
  lemma PushIsCaused(timeout: nat, actions: seq<Action>, gap: nat, j: nat)
    requires var turns := End(timeout, actions).egress;
      j < |turns| && EB.DeliversAt(turns, timeout, j) && Timely(EB.Ticks(turns), gap)
    ensures var turns := End(timeout, actions).egress;
      var d := EB.Delivers(turns[j], EB.TableAt(turns, timeout, j), EB.ClientsAt(turns, j))[0];
      var o := EB.MatchOf(turns, timeout, j);
      && o < j && turns[o].event.FromBridge? && turns[o].event.client == d.channel
      && Id(turns[o].event.request) == Id(d.msg)
      && turns[j].at < turns[o].at + timeout + gap
      && forall i | 0 <= i < j && EB.DeliversAt(turns, timeout, i) :: EB.MatchOf(turns, timeout, i) != o
  {
    var turns := End(timeout, actions).egress;
    RunOk(timeout, actions, |actions|);
    var r := EB.DeliveryGoesToRequester(turns, timeout, j);
    assert turns[r] in turns;
    EB.DeliveryIsFresh(turns, timeout, gap, j);
    forall i | 0 <= i < j && EB.DeliversAt(turns, timeout, i)
      ensures EB.MatchOf(turns, timeout, i) != EB.MatchOf(turns, timeout, j)
    {
      EB.DeliveriesMatchDistinctRequests(turns, timeout, i, j);
    }
  }
}
