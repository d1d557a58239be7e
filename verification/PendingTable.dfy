/** The table of pending requests that both bridges keep: a 16-bit id is claimed by the first request that uses it,
    released by the first reply, and swept away once it is too old.
    A run is a sequence of ticks, one per turn of a bridge's event loop. */
module PendingTable {
  import opened Codec

  datatype Entry<O> = Entry(created: nat, owner: O)

  type Table<O> = map<u16, Entry<O>>

  /** The part of an event the table sees. */
  datatype Op<O> = Open(id: u16, owner: O) | Close(id: u16) | Skip

  /** The event is handled when the clock reads `at`, the sweep that follows reads `now`. */
  datatype Tick<O> = Tick(op: Op<O>, at: nat, now: nat)

  /** checked_duration_since yields nothing for a creation time in the future, which counts as expired. */
  predicate Live<O>(e: Entry<O>, now: nat, timeout: nat) {
    e.created <= now && now - e.created < timeout
  }

  function Swept<O>(t: Table<O>, now: nat, timeout: nat): Table<O> {
    map id | id in t && Live(t[id], now, timeout) :: t[id]
  }

  function InsertIfAbsent<O>(t: Table<O>, id: u16, e: Entry<O>): Table<O> {
    if id in t then t else t[id := e]
  }

  function Apply<O>(t: Table<O>, op: Op<O>, at: nat): Table<O> {
    match op
    case Open(id, owner) => InsertIfAbsent(t, id, Entry(at, owner))
    case Close(id) => t - {id}
    case Skip => t
  }

  function Next<O>(t: Table<O>, tick: Tick<O>, timeout: nat): Table<O> {
    Swept(Apply(t, tick.op, tick.at), tick.now, timeout)
  }

  // ---- The two table operations as the bridges write them ----

  /** Drain the table and collect what is still live, in whatever order the hash map yields it. */
  method Sweep<O>(table: Table<O>, now: nat, timeout: nat) returns (kept: Table<O>)
    ensures kept == Swept(table, now, timeout)
  {
    var rest := table;
    kept := map[];
    while rest != map[]
      invariant forall id | id in rest :: id in table && rest[id] == table[id]
      invariant forall id | id in kept :: id in table && id !in rest && kept[id] == table[id]
      invariant forall id | id in table && id !in rest :: id in kept <==> Live(table[id], now, timeout)
      decreases rest.Keys
    {
      var id :| id in rest;
      if Live(rest[id], now, timeout) {
        kept := kept[id := rest[id]];
      }
      assert (rest - {id}).Keys == rest.Keys - {id};
      rest := rest - {id};
    }
  }

  /** Insert the new entry, and put the previous one back if there was one. */
  method Register<O>(table: Table<O>, id: u16, e: Entry<O>) returns (r: Table<O>)
    ensures r == InsertIfAbsent(table, id, e)
  {
    r := table[id := e];
    if id in table {
      var prev := table[id];
      r := r[id := prev];
    }
  }

  // ---- Runs ----

  /** The table after the first `k` ticks. */
  ghost function At<O>(ticks: seq<Tick<O>>, timeout: nat, k: nat): Table<O>
    requires k <= |ticks|
  {
    if k == 0 then map[] else Next(At(ticks, timeout, k - 1), ticks[k - 1], timeout)
  }

  lemma {:induction false} AtPrefix<O>(ticks: seq<Tick<O>>, more: seq<Tick<O>>, timeout: nat, k: nat)
    requires k <= |ticks|
    ensures At(ticks + more, timeout, k) == At(ticks, timeout, k)
  {
    if k > 0 {
      AtPrefix(ticks, more, timeout, k - 1);
    }
  }

  ghost predicate Requested<O>(ticks: seq<Tick<O>>, k: nat, id: u16)
    requires k < |ticks|
  {
    ticks[k].op.Open? && ticks[k].op.id == id
  }

  /** Tick `k` claims `id`: it is a request and nobody holds the id. */
  ghost predicate Opened<O>(ticks: seq<Tick<O>>, timeout: nat, k: nat, id: u16)
    requires k < |ticks|
  {
    Requested(ticks, k, id) && id !in At(ticks, timeout, k)
  }

  /** Tick `k` is a reply that finds its request. */
  ghost predicate Answered<O>(ticks: seq<Tick<O>>, timeout: nat, k: nat)
    requires k < |ticks|
  {
    ticks[k].op.Close? && ticks[k].op.id in At(ticks, timeout, k)
  }

  ghost predicate NoReplyBetween<O>(ticks: seq<Tick<O>>, id: u16, lo: nat, hi: nat)
    requires hi <= |ticks|
  {
    forall j | lo < j < hi :: ticks[j].op != Close(id)
  }

  /** The tick that claimed a pending id. Until now the entry never changed and no reply came:
      colliding requests touch neither owner nor creation time. */
  ghost function Opener<O>(ticks: seq<Tick<O>>, timeout: nat, k: nat, id: u16): (o: nat)
    requires k <= |ticks| && id in At(ticks, timeout, k)
    ensures o < k && Opened(ticks, timeout, o, id)
    ensures At(ticks, timeout, k)[id] == Entry(ticks[o].at, ticks[o].op.owner)
    ensures forall j | o < j <= k :: id in At(ticks, timeout, j)
                                  && At(ticks, timeout, j)[id] == At(ticks, timeout, k)[id]
    ensures NoReplyBetween(ticks, id, o, k)
  {
    if id in At(ticks, timeout, k - 1) then Opener(ticks, timeout, k - 1, id) else k - 1
  }

  /** Two replies that both find a request find different ones. */
  lemma AnswersMatchDistinctRequests<O>(ticks: seq<Tick<O>>, timeout: nat, j1: nat, j2: nat)
    requires j1 < j2 < |ticks| && Answered(ticks, timeout, j1) && Answered(ticks, timeout, j2)
    ensures var o1 := Opener(ticks, timeout, j1, ticks[j1].op.id);
      var o2 := Opener(ticks, timeout, j2, ticks[j2].op.id);
      o1 != o2 && (ticks[j1].op.id == ticks[j2].op.id ==> o1 < j1 < o2 < j2)
  {
    var id := ticks[j1].op.id;
    var o2 := Opener(ticks, timeout, j2, ticks[j2].op.id);
    if ticks[j2].op.id == id {
      assert ticks[j1].op == Close(id) && ticks[o2].op.Open?;
    }
  }

  /** The clock never goes back, and a turn of the loop begins at most `gap` after the sweep of the one before. */
  ghost predicate Timely<O>(ticks: seq<Tick<O>>, gap: nat) {
    && (forall k | 0 <= k < |ticks| :: ticks[k].at <= ticks[k].now)
    && (forall k | 0 < k < |ticks| :: ticks[k - 1].now <= ticks[k].at <= ticks[k - 1].now + gap)
  }

  ghost predicate Monotone<O>(ticks: seq<Tick<O>>) {
    forall k | 0 <= k < |ticks| ::
      ticks[k].at <= ticks[k].now && (k > 0 ==> ticks[k - 1].now <= ticks[k].at)
  }

  lemma {:induction false} MonotoneNow<O>(ticks: seq<Tick<O>>, j: nat, k: nat)
    requires Monotone(ticks) && j <= k < |ticks|
    ensures ticks[j].at <= ticks[k].now && ticks[j].now <= ticks[k].now
    decreases k
  {
    if j < k {
      MonotoneNow(ticks, j, k - 1);
    }
  }

  /** `id` was claimed by tick `o`, not answered since, and was young enough at the last sweep. */
  ghost predicate Unanswered<O>(ticks: seq<Tick<O>>, timeout: nat, k: nat, id: u16, o: nat)
    requires 0 < k <= |ticks|
  {
    && o < k && Opened(ticks, timeout, o, id)
    && NoReplyBetween(ticks, id, o, k)
    && ticks[o].at + timeout > ticks[k - 1].now
  }

  /** Exactly which ids are pending: those claimed, not answered, and not yet too old. */
  lemma PendingIff<O>(ticks: seq<Tick<O>>, timeout: nat, k: nat, id: u16)
    requires 0 < k <= |ticks| && Monotone(ticks)
    ensures id in At(ticks, timeout, k) <==> exists o :: Unanswered(ticks, timeout, k, id, o)
  {
    if id in At(ticks, timeout, k) {
      assert Unanswered(ticks, timeout, k, id, Opener(ticks, timeout, k, id));
    }
    if o :| Unanswered(ticks, timeout, k, id, o) {
      Survives(ticks, timeout, k, id, o, k);
    }
  }

  lemma {:induction false} Survives<O>(ticks: seq<Tick<O>>, timeout: nat, k: nat, id: u16, o: nat, j: nat)
    requires 0 < k <= |ticks| && Monotone(ticks) && Unanswered(ticks, timeout, k, id, o)
    requires o < j <= k
    ensures id in At(ticks, timeout, j) && At(ticks, timeout, j)[id] == Entry(ticks[o].at, ticks[o].op.owner)
    decreases j
  {
    MonotoneNow(ticks, o, j - 1);
    MonotoneNow(ticks, j - 1, k - 1);
    if j > o + 1 {
      Survives(ticks, timeout, k, id, o, j - 1);
    }
  }

  /** Tick `o` requests `id`, no reply with it came before tick `k`, and every sweep since found the request young. */
  ghost predicate Outlives<O>(ticks: seq<Tick<O>>, timeout: nat, o: nat, k: nat, id: u16)
    requires k <= |ticks|
  {
    && o < k && Requested(ticks, o, id)
    && NoReplyBetween(ticks, id, o, k)
    && forall j | o <= j < k :: ticks[o].at <= ticks[j].now < ticks[o].at + timeout
  }

  /** Said without the table: tick `o` claims its id, because no earlier claim of it lives on. */
  ghost predicate Claims<O>(ticks: seq<Tick<O>>, timeout: nat, o: nat)
    requires o < |ticks|
    decreases o
  {
    ticks[o].op.Open? && forall p: nat | p < o ::
      !(Claims(ticks, timeout, p) && Outlives(ticks, timeout, p, o, ticks[o].op.id))
  }

  ghost predicate Held<O>(ticks: seq<Tick<O>>, timeout: nat, o: nat, k: nat, id: u16)
    requires k <= |ticks|
  {
    o < k && Claims(ticks, timeout, o) && Outlives(ticks, timeout, o, k, id)
  }

  /** The table is a function of the history alone: an id is in it exactly when a claim of it lives on, with the owner
      and the time of that claim. */
  lemma {:induction false} TableIff<O>(ticks: seq<Tick<O>>, timeout: nat, k: nat, id: u16)
    requires k <= |ticks|
    ensures id in At(ticks, timeout, k) <==> exists o: nat :: Held(ticks, timeout, o, k, id)
    ensures forall o: nat | Held(ticks, timeout, o, k, id) ::
              id in At(ticks, timeout, k) && At(ticks, timeout, k)[id] == Entry(ticks[o].at, ticks[o].op.owner)
    decreases k
  {
    if id in At(ticks, timeout, k) {
      var o := Opener(ticks, timeout, k, id);
      TableIff(ticks, timeout, o, id);
      OpenerHolds(ticks, timeout, k, id);
    }
    forall o: nat | Held(ticks, timeout, o, k, id)
      ensures id in At(ticks, timeout, k) && At(ticks, timeout, k)[id] == Entry(ticks[o].at, ticks[o].op.owner)
    {
      TableIff(ticks, timeout, o, id);
      ClaimLives(ticks, timeout, o, k, id, k);
    }
  }

  lemma OpenerHolds<O>(ticks: seq<Tick<O>>, timeout: nat, k: nat, id: u16)
    requires k <= |ticks| && id in At(ticks, timeout, k)
    requires forall p: nat :: !Held(ticks, timeout, p, Opener(ticks, timeout, k, id), id)
    ensures Held(ticks, timeout, Opener(ticks, timeout, k, id), k, id)
  {
    var o := Opener(ticks, timeout, k, id);
    forall p: nat | p < o ensures !(Claims(ticks, timeout, p) && Outlives(ticks, timeout, p, o, id)) {
      assert !Held(ticks, timeout, p, o, id);
    }
    forall j | o <= j < k ensures ticks[o].at <= ticks[j].now < ticks[o].at + timeout {
      assert id in At(ticks, timeout, j + 1);
      PendingAreFresh(ticks, timeout, j + 1, id);
    }
  }

  lemma {:induction false} ClaimLives<O>(ticks: seq<Tick<O>>, timeout: nat, o: nat, k: nat, id: u16, j: nat)
    requires k <= |ticks| && Held(ticks, timeout, o, k, id) && id !in At(ticks, timeout, o) && o < j <= k
    ensures id in At(ticks, timeout, j) && At(ticks, timeout, j)[id] == Entry(ticks[o].at, ticks[o].op.owner)
    decreases j
  {
    if j > o + 1 {
      ClaimLives(ticks, timeout, o, k, id, j - 1);
    }
  }

  /** After every sweep each pending entry is younger than the timeout. */
  lemma PendingAreFresh<O>(ticks: seq<Tick<O>>, timeout: nat, k: nat, id: u16)
    requires 0 < k <= |ticks| && id in At(ticks, timeout, k)
    ensures var e := At(ticks, timeout, k)[id]; e.created <= ticks[k - 1].now < e.created + timeout
  {
  }

  /** A reply is only matched to a request younger than the timeout plus the longest turn. */
  lemma AnswersAreFresh<O>(ticks: seq<Tick<O>>, timeout: nat, gap: nat, j: nat)
    requires Timely(ticks, gap) && j < |ticks| && Answered(ticks, timeout, j)
    ensures j > 0 && At(ticks, timeout, j)[ticks[j].op.id].created <= ticks[j].at
    ensures ticks[j].at < At(ticks, timeout, j)[ticks[j].op.id].created + timeout + gap
  {
    PendingAreFresh(ticks, timeout, j, ticks[j].op.id);
  }

  lemma NoTimeoutNoAnswer<O>(ticks: seq<Tick<O>>, k: nat)
    requires k <= |ticks|
    ensures At(ticks, 0, k) == map[]
    ensures k < |ticks| ==> !Answered(ticks, 0, k)
  {
    if k > 0 {
      assert forall id | id in At(ticks, 0, k) :: false;
    }
  }

  /** Once the last claim is old enough the table is empty, however many requests have collided since. */
  lemma Drains<O>(ticks: seq<Tick<O>>, timeout: nat, k: nat, last: nat)
    requires 0 < k <= |ticks| && ticks[k - 1].now >= last + timeout
    requires forall o, id: u16 | 0 <= o < k && Opened(ticks, timeout, o, id) :: ticks[o].at <= last
    ensures At(ticks, timeout, k) == map[]
  {
    var t := At(ticks, timeout, k);
    forall id | id in t ensures t[id].created <= last {
      assert Opened(ticks, timeout, Opener(ticks, timeout, k, id), id);
    }
  }

  // ---- Ledgers ----

  ghost function One(b: bool): nat {
    if b then 1 else 0
  }

  /** Requests with this id from this owner among the first `k` ticks. */
  ghost function Requests<O>(ticks: seq<Tick<O>>, k: nat, id: u16, owner: O): nat
    requires k <= |ticks|
  {
    if k == 0 then 0 else
      Requests(ticks, k - 1, id, owner) + One(ticks[k - 1].op == Open(id, owner))
  }

  ghost function Collisions<O>(ticks: seq<Tick<O>>, timeout: nat, k: nat, id: u16, owner: O): nat
    requires k <= |ticks|
  {
    if k == 0 then 0 else
      Collisions(ticks, timeout, k - 1, id, owner)
      + One(ticks[k - 1].op == Open(id, owner) && id in At(ticks, timeout, k - 1))
  }

  ghost predicate Holds<O>(t: Table<O>, id: u16, owner: O) {
    id in t && t[id].owner == owner
  }

  ghost function Answers<O>(ticks: seq<Tick<O>>, timeout: nat, k: nat, id: u16, owner: O): nat
    requires k <= |ticks|
  {
    if k == 0 then 0 else
      Answers(ticks, timeout, k - 1, id, owner)
      + One(ticks[k - 1].op == Close(id) && Holds(At(ticks, timeout, k - 1), id, owner))
  }

  ghost function Expiries<O>(ticks: seq<Tick<O>>, timeout: nat, k: nat, id: u16, owner: O): nat
    requires k <= |ticks|
  {
    if k == 0 then 0 else
      Expiries(ticks, timeout, k - 1, id, owner)
      + One(Holds(Apply(At(ticks, timeout, k - 1), ticks[k - 1].op, ticks[k - 1].at), id, owner)
            && id !in At(ticks, timeout, k))
  }

  /** For every id and owner, each request either collided or was answered, expired or is still pending. */
  lemma {:induction false} OwnerLedger<O>(ticks: seq<Tick<O>>, timeout: nat, k: nat, id: u16, owner: O)
    requires k <= |ticks|
    ensures Requests(ticks, k, id, owner)
         == Collisions(ticks, timeout, k, id, owner) + Answers(ticks, timeout, k, id, owner)
          + Expiries(ticks, timeout, k, id, owner) + One(Holds(At(ticks, timeout, k), id, owner))
  {
    if k > 0 {
      OwnerLedger(ticks, timeout, k - 1, id, owner);
    }
  }

  /** What becomes of the request or the reply in a tick. */
  datatype Fate = Neither | Claiming | Colliding | Answering | Orphan

  function FateOf<O>(op: Op<O>, t: Table<O>): Fate {
    match op
    case Open(id, _) => if id in t then Colliding else Claiming
    case Close(id) => if id in t then Answering else Orphan
    case Skip => Neither
  }

  ghost function Tally<O>(ticks: seq<Tick<O>>, timeout: nat, k: nat, fate: Fate): nat
    requires k <= |ticks|
  {
    if k == 0 then 0 else
      Tally(ticks, timeout, k - 1, fate) + One(FateOf(ticks[k - 1].op, At(ticks, timeout, k - 1)) == fate)
  }

  /** How many entries the sweeps have removed. */
  ghost function Expired<O>(ticks: seq<Tick<O>>, timeout: nat, k: nat): nat
    requires k <= |ticks|
  {
    if k == 0 then 0 else
      var tick := ticks[k - 1];
      Expired(ticks, timeout, k - 1) + |Gone(Apply(At(ticks, timeout, k - 1), tick.op, tick.at), tick.now, timeout)|
  }

  /** The ids a sweep removes. */
  function Gone<O>(t: Table<O>, now: nat, timeout: nat): set<u16> {
    set id | id in t && !Live(t[id], now, timeout)
  }

  lemma SweepSplits<O>(t: Table<O>, now: nat, timeout: nat)
    ensures |t| == |Gone(t, now, timeout)| + |Swept(t, now, timeout)|
  {
    assert t.Keys == Gone(t, now, timeout) + Swept(t, now, timeout).Keys;
  }

  lemma {:induction false} Ledger<O>(ticks: seq<Tick<O>>, timeout: nat, k: nat)
    requires k <= |ticks|
    ensures Tally(ticks, timeout, k, Claiming)
         == Tally(ticks, timeout, k, Answering) + Expired(ticks, timeout, k) + |At(ticks, timeout, k)|
  {
    if k > 0 {
      Ledger(ticks, timeout, k - 1);
      var before, tick := At(ticks, timeout, k - 1), ticks[k - 1];
      ApplySize(before, tick.op, tick.at);
      SweepSplits(Apply(before, tick.op, tick.at), tick.now, timeout);
    }
  }

  lemma ApplySize<O>(t: Table<O>, op: Op<O>, at: nat)
    ensures |Apply(t, op, at)| == |t| + One(FateOf(op, t) == Claiming) - One(FateOf(op, t) == Answering)
  {
    var r := Apply(t, op, at);
    match op
    case Open(id, owner) =>
      if id !in t {
        assert r.Keys == t.Keys + {id};
      }
    case Close(id) =>
      assert r.Keys == t.Keys - {id};
    case Skip =>
  }

  /** There is one slot per 16-bit id, so a table never outgrows the id space. */
  lemma TableBounded<O>(t: Table<O>)
    ensures |t| <= 0x1_0000
  {
    assert |t| == |t.Keys|;
    AtMostAllIds(t.Keys, 0x1_0000);
  }

  lemma {:induction false} AtMostAllIds(ids: set<u16>, n: nat)
    requires forall id | id in ids :: id < n
    ensures |ids| <= n
  {
    if n == 0 {
      assert ids == {};
    } else {
      var fewer := ids - {n - 1};
      AtMostAllIds(fewer, n - 1);
      assert ids <= fewer + {n - 1};
    }
  }
}
