/** The egress bridge joined to the loopback forwarder, whose two ends are one queue: every request comes back
    unchanged. As long as ids are not reused while in use, the bridge then is an echo service. */
module Loopback {
  import opened Codec
  import opened PendingTable
  import opened Seqs
  import opened EgressBridge

  function MessageIn(r: Request): Message {
    r.msg
  }

  /** How many messages have come back. */
  ghost function Back(turns: seq<Turn>, k: nat): nat
    requires k <= |turns|
  {
    |ReturnedBy(turns, k)|
  }

  /** What comes back is what was put in, first in first out. */
  ghost predicate LoopedAt(turns: seq<Turn>, k: nat)
    requires k <= |turns|
  {
    ReturnedBy(turns, k) <= Map(MessageIn, ForwardedBy(turns, k))
  }

  ghost predicate Looped(turns: seq<Turn>) {
    forall k | 0 <= k <= |turns| :: LoopedAt(turns, k)
  }

  /** The requests still in the loop. */
  ghost function Queue(turns: seq<Turn>, k: nat): seq<Request>
    requires k <= |turns| && LoopedAt(turns, k)
  {
    ForwardedBy(turns, k)[Back(turns, k)..]
  }

  /** No request of the first `k` turns collided, no entry expired, and no reply found its client gone. */
  ghost predicate Lossless(turns: seq<Turn>, timeout: nat, k: nat)
    requires k <= |turns|
  {
    && Tally(Ticks(turns), timeout, k, Colliding) == 0 && Expired(Ticks(turns), timeout, k) == 0
    && Replies(turns, timeout, k, SendFailed) == 0 && Replies(turns, timeout, k, NoClient) == 0
  }

  /** The same of one turn. */
  ghost predicate Calm(turns: seq<Turn>, timeout: nat, k: nat)
    requires k < |turns|
  {
    var t, table := turns[k], TableAt(turns, timeout, k);
    && FateOf(OpOf(t.event), table) != Colliding
    && Gone(Apply(table, OpOf(t.event), t.at), t.now, timeout) == {}
    && (t.event.FromNet? ==>
          FateOfReply(t.event.msg, table, ClientsAt(turns, k), t.deadAt) in {Delivered, Orphaned})
  }

  lemma LosslessNext(turns: seq<Turn>, timeout: nat, k: nat)
    requires k < |turns|
    ensures Lossless(turns, timeout, k + 1) <==> Lossless(turns, timeout, k) && Calm(turns, timeout, k)
  {
  }

  lemma LosslessBefore(turns: seq<Turn>, timeout: nat, k: nat)
    requires k < |turns| && Lossless(turns, timeout, k + 1)
    ensures Lossless(turns, timeout, k)
  {
    LosslessNext(turns, timeout, k);
  }

  predicate Free(queue: seq<Request>, id: u16) {
    forall i | 0 <= i < |queue| :: Id(queue[i].msg) != id
  }

  function Echo(r: Request): Delivery {
    Delivery(r.client, r.msg)
  }

  /** The table holds exactly the requests in the loop, each under its own client. */
  ghost predicate Mirrors(table: Table<Name>, queue: seq<Request>) {
    && (forall i, j | 0 <= i < j < |queue| :: Id(queue[i].msg) != Id(queue[j].msg))
    && (forall i | 0 <= i < |queue| ::
          Id(queue[i].msg) in table && table[Id(queue[i].msg)].owner == queue[i].client)
    && (forall id | id in table :: !Free(queue, id))
  }

  lemma SweepOfNothing(t: Table<Name>, now: nat, timeout: nat)
    requires Gone(t, now, timeout) == {}
    ensures Swept(t, now, timeout) == t
  {
    forall id | id in t ensures Live(t[id], now, timeout) {
      assert id !in Gone(t, now, timeout);
    }
  }

  lemma MirrorsOpen(table: Table<Name>, queue: seq<Request>, r: Request, at: nat)
    requires Mirrors(table, queue) && Id(r.msg) !in table
    ensures Mirrors(Apply(table, Open(Id(r.msg), r.client), at), queue + [r])
  {
    var table', queue' := Apply(table, Open(Id(r.msg), r.client), at), queue + [r];
    forall id | id in table' ensures !Free(queue', id) {
      if id == Id(r.msg) {
        assert queue'[|queue|] == r;
      } else {
        var i :| 0 <= i < |queue| && Id(queue[i].msg) == id;
        assert queue'[i] == queue[i];
      }
    }
  }

  lemma MirrorsClose(table: Table<Name>, queue: seq<Request>, at: nat)
    requires Mirrors(table, queue) && queue != []
    ensures Mirrors(Apply(table, Close(Id(queue[0].msg)), at), queue[1..])
  {
    var rest, table' := queue[1..], table - {Id(queue[0].msg)};
    forall id | id in table' ensures !Free(rest, id) {
      assert !Free(queue, id);
      var i :| 0 <= i < |queue| && Id(queue[i].msg) == id;
      assert rest[i - 1] == queue[i];
    }
  }

  /** A calm reply pops the queue, and goes to the client of the request that comes off it. */
  lemma CalmReply(turns: seq<Turn>, timeout: nat, k: nat)
    requires k < |turns| && OwnChannels(turns) && LoopedAt(turns, k) && LoopedAt(turns, k + 1)
    requires Calm(turns, timeout, k) && Mirrors(TableAt(turns, timeout, k), Queue(turns, k))
    requires turns[k].event.FromNet?
    ensures Queue(turns, k) != [] && Id(Queue(turns, k)[0].msg) == Id(turns[k].event.msg)
    ensures Queue(turns, k + 1) == Queue(turns, k)[1..]
    ensures Delivers(turns[k], TableAt(turns, timeout, k), ClientsAt(turns, k)) == [Echo(Queue(turns, k)[0])]
  {
    QueuePops(turns, k);
    OwnChannelOfName(turns, k);
  }

  /** A calm turn moves the table and the queue together. */
  lemma CalmTurn(turns: seq<Turn>, timeout: nat, k: nat)
    requires k < |turns| && OwnChannels(turns) && LoopedAt(turns, k) && LoopedAt(turns, k + 1)
    requires Calm(turns, timeout, k) && Mirrors(TableAt(turns, timeout, k), Queue(turns, k))
    ensures Mirrors(TableAt(turns, timeout, k + 1), Queue(turns, k + 1))
  {
    var t, table, queue := turns[k], TableAt(turns, timeout, k), Queue(turns, k);
    SweepOfNothing(Apply(table, OpOf(t.event), t.at), t.now, timeout);
    match t.event {
      case FromNet(m) =>
        CalmReply(turns, timeout, k);
        MirrorsClose(table, queue, t.at);
      case FromBridge(c, m, true) =>
        QueuePushes(turns, k);
        MirrorsOpen(table, queue, Request(c, m), t.at);
      case _ =>
        QueueStays(turns, k);
    }
  }

  lemma QueuePops(turns: seq<Turn>, k: nat)
    requires k < |turns| && LoopedAt(turns, k) && LoopedAt(turns, k + 1) && turns[k].event.FromNet?
    ensures Queue(turns, k) != [] && Queue(turns, k)[0].msg == turns[k].event.msg
    ensures Queue(turns, k + 1) == Queue(turns, k)[1..]
  {
    var forwarded := ForwardedBy(turns, k);
    assert ForwardedBy(turns, k + 1) == forwarded;
    assert ReturnedBy(turns, k + 1)[Back(turns, k)] == turns[k].event.msg;
    assert Map(MessageIn, forwarded)[Back(turns, k)] == forwarded[Back(turns, k)].msg;
  }

  lemma QueuePushes(turns: seq<Turn>, k: nat)
    requires k < |turns| && LoopedAt(turns, k) && LoopedAt(turns, k + 1)
    requires turns[k].event.FromBridge? && turns[k].event.sendOk
    ensures Queue(turns, k + 1) == Queue(turns, k) + [Request(turns[k].event.client, turns[k].event.request)]
  {
    assert ReturnedBy(turns, k + 1) == ReturnedBy(turns, k);
  }

  lemma QueueStays(turns: seq<Turn>, k: nat)
    requires k < |turns| && LoopedAt(turns, k) && LoopedAt(turns, k + 1)
    requires Forwards(turns[k].event) == [] && Returns(turns[k].event) == []
    ensures Queue(turns, k + 1) == Queue(turns, k)
  {
  }

  /** Deliveries, then what is still in the loop, are the accepted requests in order, each for its own client. */
  ghost predicate EchoesAt(turns: seq<Turn>, timeout: nat, k: nat)
    requires k <= |turns| && LoopedAt(turns, k)
  {
    DeliveredBy(turns, timeout, k) + Map(Echo, Queue(turns, k)) == Map(Echo, ForwardedBy(turns, k))
  }

  ghost predicate EchoStateAt(turns: seq<Turn>, timeout: nat, k: nat)
    requires k <= |turns|
  {
    LoopedAt(turns, k) && Mirrors(TableAt(turns, timeout, k), Queue(turns, k)) && EchoesAt(turns, timeout, k)
  }

  lemma NothingLooped(turns: seq<Turn>, timeout: nat)
    ensures EchoStateAt(turns, timeout, 0)
  {
  }

  lemma EchoNext(turns: seq<Turn>, timeout: nat, k: nat)
    requires k < |turns| && Looped(turns) && OwnChannels(turns) && EchoStateAt(turns, timeout, k)
    requires Lossless(turns, timeout, k + 1)
    ensures EchoStateAt(turns, timeout, k + 1)
  {
    LosslessNext(turns, timeout, k);
    assert LoopedAt(turns, k + 1);
    CalmTurn(turns, timeout, k);
    EchoTurn(turns, timeout, k);
  }

  /** As long as nothing is lost the bridge refines an echo, and its table holds exactly the requests in the loop. */
  lemma {:induction false} EchoRefinement(turns: seq<Turn>, timeout: nat, k: nat)
    requires k <= |turns| && Looped(turns) && OwnChannels(turns) && Lossless(turns, timeout, k)
    ensures EchoStateAt(turns, timeout, k)
  {
    if k == 0 {
      NothingLooped(turns, timeout);
    } else {
      LosslessBefore(turns, timeout, k - 1);
      EchoRefinement(turns, timeout, k - 1);
      EchoNext(turns, timeout, k - 1);
    }
  }

  /** Exactly when the loop is an echo, once everything has come back: no request collided, no entry expired, and no
      reply found its client unregistered or its channel closed. */
  lemma EchoIffLossless(turns: seq<Turn>, timeout: nat)
    requires Looped(turns) && OwnChannels(turns)
    requires LoopedAt(turns, |turns|) && Queue(turns, |turns|) == []
    ensures EchoesAt(turns, timeout, |turns|) <==> Lossless(turns, timeout, |turns|)
  {
    var n := |turns|;
    if Lossless(turns, timeout, n) {
      EchoRefinement(turns, timeout, n);
    }
    if EchoesAt(turns, timeout, n) {
      EchoedAll(turns, timeout);
      RequestLedger(turns, timeout);
      ReplyLedger(turns, timeout);
      ForwardedOrRefused(turns, n);
    }
  }

  /** An echo of everything is as long as what was forwarded, and so is what came back. */
  lemma EchoedAll(turns: seq<Turn>, timeout: nat)
    requires LoopedAt(turns, |turns|) && Queue(turns, |turns|) == [] && EchoesAt(turns, timeout, |turns|)
    ensures |DeliveredBy(turns, timeout, |turns|)| == |ReturnedBy(turns, |turns|)| == |ForwardedBy(turns, |turns|)|
  {
    assert |Map(Echo, Queue(turns, |turns|))| == 0;
  }

  lemma {:induction false} ForwardedOrRefused(turns: seq<Turn>, k: nat)
    requires k <= |turns|
    ensures |ForwardedBy(turns, k)| + Refused(turns, k) == |ReceivedBy(turns, k)|
  {
    if k > 0 {
      ForwardedOrRefused(turns, k - 1);
    }
  }

  lemma EchoTurn(turns: seq<Turn>, timeout: nat, k: nat)
    requires k < |turns| && OwnChannels(turns) && LoopedAt(turns, k) && LoopedAt(turns, k + 1)
    requires Calm(turns, timeout, k) && Mirrors(TableAt(turns, timeout, k), Queue(turns, k))
    requires EchoesAt(turns, timeout, k)
    ensures EchoesAt(turns, timeout, k + 1)
  {
    var more := Delivers(turns[k], TableAt(turns, timeout, k), ClientsAt(turns, k));
    if turns[k].event.FromNet? {
      CalmReply(turns, timeout, k);
    }
    EchoStep(turns, k, DeliveredBy(turns, timeout, k), more);
    assert DeliveredBy(turns, timeout, k + 1) == DeliveredBy(turns, timeout, k) + more;
  }

  lemma EchoStep(turns: seq<Turn>, k: nat, delivered: seq<Delivery>, more: seq<Delivery>)
    requires k < |turns| && LoopedAt(turns, k) && LoopedAt(turns, k + 1)
    requires delivered + Map(Echo, Queue(turns, k)) == Map(Echo, ForwardedBy(turns, k))
    requires turns[k].event.FromNet? ==> Queue(turns, k) != []
    requires more == if turns[k].event.FromNet? then [Echo(Queue(turns, k)[0])] else []
    ensures delivered + more + Map(Echo, Queue(turns, k + 1)) == Map(Echo, ForwardedBy(turns, k + 1))
  {
    var queue, forwarded := Queue(turns, k), ForwardedBy(turns, k);
    if turns[k].event.FromNet? {
      QueuePops(turns, k);
      EchoPops(delivered, queue);
      assert ForwardedBy(turns, k + 1) == forwarded;
    } else if Forwards(turns[k].event) != [] {
      QueuePushes(turns, k);
      EchoPushes(delivered, queue, forwarded, Forwards(turns[k].event)[0]);
    } else {
      QueueStays(turns, k);
      assert ForwardedBy(turns, k + 1) == forwarded && delivered + more == delivered;
    }
  }

  lemma EchoPops(delivered: seq<Delivery>, queue: seq<Request>)
    requires queue != []
    ensures delivered + [Echo(queue[0])] + Map(Echo, queue[1..]) == delivered + Map(Echo, queue)
  {
    assert Map(Echo, queue) == [Echo(queue[0])] + Map(Echo, queue[1..]);
  }

  lemma EchoPushes(delivered: seq<Delivery>, queue: seq<Request>, forwarded: seq<Request>, r: Request)
    requires delivered + Map(Echo, queue) == Map(Echo, forwarded)
    ensures delivered + [] + Map(Echo, queue + [r]) == Map(Echo, forwarded + [r])
  {
    MapConcat(Echo, queue, [r]);
    MapConcat(Echo, forwarded, [r]);
    assert delivered + [] + (Map(Echo, queue) + [Echo(r)]) == (delivered + Map(Echo, queue)) + [Echo(r)];
  }

  // ---- The same condition, said of the run alone ----

  /** When the requests were accepted. */
  ghost function TimesBy(turns: seq<Turn>, k: nat): seq<nat>
    requires k <= |turns|
  {
    Collect(turns, k, (t: Turn) => Times(t))
  }

  function Times(t: Turn): seq<nat> {
    if Forwards(t.event) == [] then [] else [t.at]
  }

  lemma {:induction false} OneTimeEach(turns: seq<Turn>, k: nat)
    requires k <= |turns|
    ensures |TimesBy(turns, k)| == |ForwardedBy(turns, k)|
  {
    if k > 0 {
      OneTimeEach(turns, k - 1);
    }
  }

  /** When the requests still in the loop were accepted. */
  ghost function QueueTimes(turns: seq<Turn>, k: nat): (times: seq<nat>)
    requires k <= |turns| && LoopedAt(turns, k)
    ensures |times| == |Queue(turns, k)|
  {
    OneTimeEach(turns, k);
    TimesBy(turns, k)[Back(turns, k)..]
  }

  predicate Young(times: seq<nat>, now: nat, timeout: nat) {
    forall i | 0 <= i < |times| :: times[i] <= now < times[i] + timeout
  }

  /** In turn `k` an accepted request uses an id of no request in the loop, no request in the loop is as old as the
      timeout at the sweep, and the client of a request that comes back is registered last with an open channel. */
  ghost predicate Quiet(turns: seq<Turn>, timeout: nat, k: nat)
    requires k < |turns|
  {
    && LoopedAt(turns, k) && LoopedAt(turns, k + 1)
    && (Forwards(turns[k].event) != [] ==> Free(Queue(turns, k), Id(turns[k].event.request)))
    && Young(QueueTimes(turns, k + 1), turns[k].now, timeout)
    && (turns[k].event.FromNet? && Queue(turns, k) != [] ==>
          Reachable(turns, k, Queue(turns, k)[0].client, turns[k].deadAt))
  }

  ghost predicate AlwaysQuiet(turns: seq<Turn>, timeout: nat, k: nat)
    requires k <= |turns|
  {
    forall j: nat {:trigger Quiet(turns, timeout, j)} | j < k :: Quiet(turns, timeout, j)
  }

  /** The table holds the requests in the loop, each since it was accepted. */
  ghost predicate MirrorsTimed(table: Table<Name>, queue: seq<Request>, times: seq<nat>) {
    && Mirrors(table, queue) && |times| == |queue|
    && forall i | 0 <= i < |queue| :: table[Id(queue[i].msg)].created == times[i]
  }

  lemma TimedOpen(table: Table<Name>, queue: seq<Request>, times: seq<nat>, r: Request, at: nat)
    requires MirrorsTimed(table, queue, times) && Id(r.msg) !in table
    ensures MirrorsTimed(Apply(table, Open(Id(r.msg), r.client), at), queue + [r], times + [at])
  {
    MirrorsOpen(table, queue, r, at);
  }

  lemma TimedClose(table: Table<Name>, queue: seq<Request>, times: seq<nat>, at: nat)
    requires MirrorsTimed(table, queue, times) && queue != []
    ensures MirrorsTimed(Apply(table, Close(Id(queue[0].msg)), at), queue[1..], times[1..])
  {
    MirrorsClose(table, queue, at);
    forall i | 0 <= i < |queue[1..]| ensures Id(queue[1..][i].msg) != Id(queue[0].msg) {
      assert queue[1..][i] == queue[i + 1];
    }
  }

  lemma QueueTimesMove(turns: seq<Turn>, k: nat)
    requires k < |turns| && LoopedAt(turns, k) && LoopedAt(turns, k + 1)
    ensures var times, times' := QueueTimes(turns, k), QueueTimes(turns, k + 1);
      if turns[k].event.FromNet? then times != [] && times' == times[1..]
      else times' == times + Times(turns[k])
  {
    OneTimeEach(turns, k);
    if turns[k].event.FromNet? {
      QueuePops(turns, k);
    }
  }

  /** Before its sweep a turn without a collision moves table, queue and times together. */
  lemma TimedTurn(turns: seq<Turn>, timeout: nat, k: nat)
    requires k < |turns| && LoopedAt(turns, k) && LoopedAt(turns, k + 1)
    requires MirrorsTimed(TableAt(turns, timeout, k), Queue(turns, k), QueueTimes(turns, k))
    requires FateOf(OpOf(turns[k].event), TableAt(turns, timeout, k)) != Colliding
    ensures MirrorsTimed(Apply(TableAt(turns, timeout, k), OpOf(turns[k].event), turns[k].at),
                         Queue(turns, k + 1), QueueTimes(turns, k + 1))
  {
    var t, table, queue, times := turns[k], TableAt(turns, timeout, k), Queue(turns, k), QueueTimes(turns, k);
    QueueTimesMove(turns, k);
    match t.event {
      case FromNet(m) =>
        QueuePops(turns, k);
        TimedClose(table, queue, times, t.at);
      case FromBridge(c, m, true) =>
        QueuePushes(turns, k);
        TimedOpen(table, queue, times, Request(c, m), t.at);
      case _ =>
        QueueStays(turns, k);
    }
  }

  /** A sweep removes something exactly when a request in the loop is too old. */
  lemma GoneIffOld(table: Table<Name>, queue: seq<Request>, times: seq<nat>, now: nat, timeout: nat)
    requires MirrorsTimed(table, queue, times)
    ensures Gone(table, now, timeout) == {} <==> Young(times, now, timeout)
  {
    if Gone(table, now, timeout) == {} {
      forall i | 0 <= i < |times| ensures times[i] <= now < times[i] + timeout {
        assert Id(queue[i].msg) !in Gone(table, now, timeout);
      }
    } else {
      var id :| id in Gone(table, now, timeout);
      assert !Free(queue, id);
      var i :| 0 <= i < |queue| && Id(queue[i].msg) == id;
      assert table[id].created == times[i];
    }
  }

  lemma CollidesIffReused(table: Table<Name>, queue: seq<Request>, e: Event)
    requires Mirrors(table, queue)
    ensures FateOf(OpOf(e), table) == Colliding <==> Forwards(e) != [] && !Free(queue, Id(e.request))
  {
  }

  lemma ReachesIffOpen(table: Table<Name>, queue: seq<Request>, clients: Clients, dead: set<Channel>)
    requires Mirrors(table, queue) && queue != []
    ensures FateOfReply(queue[0].msg, table, clients, dead) in {Delivered, Orphaned}
       <==> queue[0].client in clients && clients[queue[0].client] !in dead
  {
    assert Id(queue[0].msg) in table && table[Id(queue[0].msg)].owner == queue[0].client;
  }

  lemma SweepIffYoung(turns: seq<Turn>, timeout: nat, k: nat)
    requires k < |turns| && LoopedAt(turns, k) && LoopedAt(turns, k + 1)
    requires MirrorsTimed(TableAt(turns, timeout, k), Queue(turns, k), QueueTimes(turns, k))
    requires FateOf(OpOf(turns[k].event), TableAt(turns, timeout, k)) != Colliding
    ensures var t := turns[k];
      Gone(Apply(TableAt(turns, timeout, k), OpOf(t.event), t.at), t.now, timeout) == {}
      <==> Young(QueueTimes(turns, k + 1), t.now, timeout)
  {
    var t := turns[k];
    TimedTurn(turns, timeout, k);
    GoneIffOld(Apply(TableAt(turns, timeout, k), OpOf(t.event), t.at), Queue(turns, k + 1), QueueTimes(turns, k + 1),
               t.now, timeout);
  }

  lemma CalmIffQuiet(turns: seq<Turn>, timeout: nat, k: nat)
    requires k < |turns| && LoopedAt(turns, k) && LoopedAt(turns, k + 1)
    requires MirrorsTimed(TableAt(turns, timeout, k), Queue(turns, k), QueueTimes(turns, k))
    ensures Calm(turns, timeout, k) <==> Quiet(turns, timeout, k)
  {
    var t, table, queue := turns[k], TableAt(turns, timeout, k), Queue(turns, k);
    assert FateOf(OpOf(t.event), table) == Colliding <==> Forwards(t.event) != [] && !Free(queue, Id(t.event.request))
    by {
      CollidesIffReused(table, queue, t.event);
    }
    if FateOf(OpOf(t.event), table) != Colliding {
      SweepIffYoung(turns, timeout, k);
      if t.event.FromNet? {
        QueuePops(turns, k);
        ReachesIffOpen(table, queue, ClientsAt(turns, k), t.deadAt);
        ReachableIff(turns, k, queue[0].client, t.deadAt);
      }
    }
  }

  ghost predicate TimedAt(turns: seq<Turn>, timeout: nat, k: nat)
    requires k <= |turns|
  {
    LoopedAt(turns, k) && MirrorsTimed(TableAt(turns, timeout, k), Queue(turns, k), QueueTimes(turns, k))
  }

  lemma TimedStart(turns: seq<Turn>, timeout: nat)
    ensures TimedAt(turns, timeout, 0)
  {
  }

  lemma TimedStep(turns: seq<Turn>, timeout: nat, k: nat)
    requires k < |turns| && TimedAt(turns, timeout, k) && LoopedAt(turns, k + 1) && Calm(turns, timeout, k)
    ensures TimedAt(turns, timeout, k + 1)
  {
    TimedTurn(turns, timeout, k);
    SweepOfNothing(Apply(TableAt(turns, timeout, k), OpOf(turns[k].event), turns[k].at), turns[k].now, timeout);
  }

  lemma TimedNext(turns: seq<Turn>, timeout: nat, k: nat)
    requires k < |turns| && Looped(turns) && Lossless(turns, timeout, k + 1) && TimedAt(turns, timeout, k)
    ensures TimedAt(turns, timeout, k + 1)
  {
    LosslessNext(turns, timeout, k);
    assert LoopedAt(turns, k + 1);
    TimedStep(turns, timeout, k);
  }

  lemma {:induction false} LosslessIsTimed(turns: seq<Turn>, timeout: nat, k: nat)
    requires k <= |turns| && Looped(turns) && Lossless(turns, timeout, k)
    ensures TimedAt(turns, timeout, k)
  {
    if k == 0 {
      TimedStart(turns, timeout);
    } else {
      LosslessBefore(turns, timeout, k - 1);
      LosslessIsTimed(turns, timeout, k - 1);
      TimedNext(turns, timeout, k - 1);
    }
  }

  lemma LosslessSplits(turns: seq<Turn>, timeout: nat, k: nat)
    requires k < |turns| && Looped(turns)
    ensures Lossless(turns, timeout, k + 1) <==> Lossless(turns, timeout, k) && Quiet(turns, timeout, k)
  {
    LosslessNext(turns, timeout, k);
    if Lossless(turns, timeout, k) {
      LosslessIsTimed(turns, timeout, k);
      assert LoopedAt(turns, k + 1);
      CalmIffQuiet(turns, timeout, k);
    }
  }

  lemma QuietSplits(turns: seq<Turn>, timeout: nat, k: nat)
    requires k < |turns|
    ensures AlwaysQuiet(turns, timeout, k + 1) <==> AlwaysQuiet(turns, timeout, k) && Quiet(turns, timeout, k)
  {
  }

  lemma NothingLostYet(turns: seq<Turn>, timeout: nat)
    ensures Lossless(turns, timeout, 0) && AlwaysQuiet(turns, timeout, 0)
  {
  }

  /** Nothing is lost exactly when every turn is quiet. */
  lemma {:induction false} LosslessIffQuiet(turns: seq<Turn>, timeout: nat, k: nat)
    requires k <= |turns| && Looped(turns)
    ensures Lossless(turns, timeout, k) <==> AlwaysQuiet(turns, timeout, k)
  {
    if k == 0 {
      NothingLostYet(turns, timeout);
    } else {
      LosslessIffQuiet(turns, timeout, k - 1);
      QuietSplits(turns, timeout, k - 1);
      LosslessSplits(turns, timeout, k - 1);
    }
  }

  /** Once everything has come back, the loop was an echo exactly when every turn was quiet. */
  lemma EchoIffQuiet(turns: seq<Turn>, timeout: nat)
    requires Looped(turns) && OwnChannels(turns)
    requires LoopedAt(turns, |turns|) && Queue(turns, |turns|) == []
    ensures EchoesAt(turns, timeout, |turns|) <==> AlwaysQuiet(turns, timeout, |turns|)
  {
    EchoIffLossless(turns, timeout);
    LosslessIffQuiet(turns, timeout, |turns|);
  }

  /** Seen by one client: what it got, then what it still has in the loop, is what it sent, in order. */
  lemma EchoPerClient(turns: seq<Turn>, timeout: nat, client: Name)
    requires Looped(turns) && OwnChannels(turns) && Lossless(turns, timeout, |turns|)
    ensures LoopedAt(turns, |turns|)
    ensures Pick(DeliveredBy(turns, timeout, |turns|), ToClient(client), MessageOf)
          + Pick(Queue(turns, |turns|), ByClient(client), MessageIn)
         == Pick(ForwardedBy(turns, |turns|), ByClient(client), MessageIn)
  {
    var n := |turns|;
    EchoRefinement(turns, timeout, n);
    PickConcat(DeliveredBy(turns, timeout, n), Map(Echo, Queue(turns, n)), ToClient(client), MessageOf);
    PickEcho(Queue(turns, n), |Queue(turns, n)|, client);
    PickEcho(ForwardedBy(turns, n), |ForwardedBy(turns, n)|, client);
  }

  function ByClient(client: Name): Request -> bool {
    (r: Request) => r.client == client
  }

  function ToClient(client: Name): Delivery -> bool {
    (d: Delivery) => d.channel == client
  }

  lemma {:induction false} PickEcho(rs: seq<Request>, n: nat, client: Name)
    requires n <= |rs|
    ensures PickIn(Map(Echo, rs), n, ToClient(client), MessageOf) == PickIn(rs, n, ByClient(client), MessageIn)
  {
    if n > 0 {
      PickEcho(rs, n - 1, client);
    }
  }

  // ---- Without the discipline on ids ----

  function Plain(e: Event): Turn {
    Turn(e, 0, 0, {}, {})
  }

  /** Two clients use one id at once, and the loop returns both requests. */
  function SharedIdTurns(m: Message): (turns: seq<Turn>)
    ensures |turns| == 6
  {
    [Plain(Registration("a", "a")), Plain(Registration("b", "b")), Plain(FromBridge("a", m, true)),
     Plain(FromBridge("b", m, true)), Plain(FromNet(m)), Plain(FromNet(m))]
  }

  function SharedClients(k: nat): Clients {
    if k == 0 then map[] else if k == 1 then map["a" := "a"] else map["a" := "a", "b" := "b"]
  }

  function SharedTable(m: Message, k: nat): Table<Name> {
    if k == 3 || k == 4 then map[Id(m) := Entry(0, "a")] else map[]
  }

  function SharedForwarded(m: Message, k: nat): seq<Request> {
    if k < 3 then [] else if k == 3 then [Request("a", m)] else [Request("a", m), Request("b", m)]
  }

  function SharedBack(m: Message, k: nat): seq<Message> {
    if k < 5 then [] else if k == 5 then [m] else [m, m]
  }

  function SharedDelivered(m: Message, k: nat): seq<Delivery> {
    if k < 5 then [] else [Delivery("a", m)]
  }

  lemma {:induction false} SharedState(m: Message, k: nat)
    requires k <= 6
    ensures ClientsAt(SharedIdTurns(m), k) == SharedClients(k)
    ensures TableAt(SharedIdTurns(m), 10, k) == SharedTable(m, k)
  {
    if k > 0 {
      SharedState(m, k - 1);
      var t := SharedIdTurns(m)[k - 1];
      SharedTurn(m, k - 1);
      assert ClientsAt(SharedIdTurns(m), k) == NextClients(ClientsAt(SharedIdTurns(m), k - 1), t);
    }
  }

  lemma SharedTurn(m: Message, k: nat)
    requires k < 6
    ensures var t := SharedIdTurns(m)[k];
      && NextClients(SharedClients(k), t) == SharedClients(k + 1)
      && Next(SharedTable(m, k), TickOf(t), 10) == SharedTable(m, k + 1)
  {
  }

  lemma SharedOutputs(m: Message, k: nat)
    requires k < 6
    ensures var t := SharedIdTurns(m)[k];
      && SharedForwarded(m, k) + Forwards(t.event) == SharedForwarded(m, k + 1)
      && SharedBack(m, k) + Returns(t.event) == SharedBack(m, k + 1)
      && SharedDelivered(m, k) + Delivers(t, SharedTable(m, k), SharedClients(k)) == SharedDelivered(m, k + 1)
  {
  }

  lemma {:induction false} SharedLogs(m: Message, k: nat)
    requires k <= 6
    ensures ForwardedBy(SharedIdTurns(m), k) == SharedForwarded(m, k)
    ensures ReturnedBy(SharedIdTurns(m), k) == SharedBack(m, k)
    ensures DeliveredBy(SharedIdTurns(m), 10, k) == SharedDelivered(m, k)
  {
    if k > 0 {
      SharedLogs(m, k - 1);
      SharedState(m, k - 1);
      SharedOutputs(m, k - 1);
    }
  }

  lemma SharedLoops(m: Message, k: nat)
    requires k <= 6
    ensures SharedBack(m, k) <= Map(MessageIn, SharedForwarded(m, k))
  {
  }

  /** When two clients use one id at once the bridge is no echo: the first is answered and the second never is, though
      both requests went round the loop. */
  lemma SharedIdLosesEcho(m: Message)
    ensures var turns := SharedIdTurns(m);
      && Looped(turns) && OwnChannels(turns)
      && ForwardedBy(turns, 6) == [Request("a", m), Request("b", m)] && Back(turns, 6) == 2
      && DeliveredBy(turns, 10, 6) == [Delivery("a", m)]
      && LoopedAt(turns, 6) && Queue(turns, 6) == [] && !EchoesAt(turns, 10, 6) && !Lossless(turns, 10, 6)
  {
    var turns := SharedIdTurns(m);
    forall k | 0 <= k <= |turns| ensures LoopedAt(turns, k) {
      SharedLogs(m, k);
      SharedLoops(m, k);
    }
    SharedLogs(m, 6);
    assert |Map(Echo, ForwardedBy(turns, 6))| == 2 && |Map(Echo, Queue(turns, 6))| == 0;
    EchoIffLossless(turns, 10);
  }
}
