/** The collections of sessions the servers own: a vector for TCP, a map by session name for DNS. Sessions are numbered
    in the order they start, and at any time every one of them is accounted for exactly once. */
module Sessions {
  import opened Names
  import opened Seqs

  function Is(s: nat): nat -> bool {
    (x: nat) => x == s
  }

  function NotIn(done: set<nat>): nat -> bool {
    (x: nat) => x !in done
  }

  function In(done: set<nat>): nat -> bool {
    (x: nat) => x in done
  }

  function Same(x: nat): nat {
    x
  }

  /** How often a session is on a list. */
  function Times(l: seq<nat>, s: nat): nat {
    Count(l, Is(s))
  }

  function Once(b: bool): nat {
    if b then 1 else 0
  }

  predicate Increasing(s: seq<nat>) {
    forall i, j | 0 <= i < j < |s| :: s[i] < s[j]
  }

  lemma TimesAppend(l: seq<nat>, x: nat, s: nat)
    ensures Times(l + [x], s) == Times(l, s) + Once(x == s)
  {
    CountConcat(l, [x], Is(s));
    CountOne(x, Is(s));
  }

  /** Splitting a list by a set neither loses nor repeats anything. */
  lemma Split(l: seq<nat>, done: set<nat>, s: nat)
    ensures Times(Pick(l, NotIn(done), Same), s) + Times(Pick(l, In(done), Same), s) == Times(l, s)
  {
    CountPicked(l, |l|, NotIn(done), Same, Is(s), IsAndNotIn(s, done));
    CountPicked(l, |l|, In(done), Same, Is(s), IsAndIn(s, done));
    CountsAddUp(l, |l|, done, s);
  }

  function IsAndNotIn(s: nat, done: set<nat>): nat -> bool {
    (x: nat) => x !in done && x == s
  }

  function IsAndIn(s: nat, done: set<nat>): nat -> bool {
    (x: nat) => x in done && x == s
  }

  lemma {:induction false} CountsAddUp(l: seq<nat>, n: nat, done: set<nat>, s: nat)
    requires n <= |l|
    ensures CountIn(l, n, IsAndNotIn(s, done)) + CountIn(l, n, IsAndIn(s, done)) == CountIn(l, n, Is(s))
  {
    if n > 0 {
      CountsAddUp(l, n - 1, done, s);
    }
  }

  lemma {:induction false} KeptInOrder(s: seq<nat>, n: nat, done: set<nat>)
    requires n <= |s| && Increasing(s)
    ensures var kept := PickIn(s, n, NotIn(done), Same);
      Increasing(kept) && forall i | 0 <= i < |kept| :: n > 0 && kept[i] <= s[n - 1] && kept[i] !in done
  {
    if n > 0 {
      KeptInOrder(s, n - 1, done);
    }
  }

  lemma {:induction false} EndedAreDone(s: seq<nat>, n: nat, done: set<nat>)
    requires n <= |s|
    ensures forall x | x in PickIn(s, n, In(done), Same) :: x in done && x in s
    ensures forall x | x in PickIn(s, n, NotIn(done), Same) :: x !in done && x in s
  {
    if n > 0 {
      EndedAreDone(s, n - 1, done);
    }
  }

  lemma NoTimesNoElement(l: seq<nat>)
    requires forall s: nat :: Times(l, s) == 0
    ensures l == []
  {
    if l != [] {
      HeadHasTimes(l);
    }
  }

  lemma HeadHasTimes(l: seq<nat>)
    requires l != []
    ensures Times(l, l[0]) > 0
  {
    Occurs(l, |l|, 0);
  }

  /** A clean-up from turn `lo` on, but before turn `hi`, found the session ended. */
  ghost predicate FoundEnded(dones: seq<set<nat>>, s: nat, lo: nat, hi: nat) {
    exists i :: lo <= i < hi <= |dones| && s in dones[i]
  }

  /** After `i` turns no clean-up has found a session ended that is still kept, and one has found each that was shut
      down. */
  ghost predicate FoundSoFar(kept: seq<nat>, shutDown: seq<nat>, dones: seq<set<nat>>, i: nat) {
    && (forall s | s in kept :: s < i && !FoundEnded(dones, s, s, i))
    && (forall s | s in shutDown :: FoundEnded(dones, s, s, i))
  }

  lemma FoundNext(kept: seq<nat>, shutDown: seq<nat>, dones: seq<set<nat>>, i: nat)
    requires i < |dones| && FoundSoFar(kept, shutDown, dones, i)
    ensures FoundSoFar(Pick(kept + [i], NotIn(dones[i]), Same),
                       shutDown + Pick(kept + [i], In(dones[i]), Same), dones, i + 1)
  {
    EndedAreDone(kept + [i], |kept + [i]|, dones[i]);
    forall s: nat | FoundEnded(dones, s, s, i) ensures FoundEnded(dones, s, s, i + 1) {
      var j :| s <= j < i && s in dones[j];
      assert s in dones[j];
    }
    forall s | s in kept + [i] && s in dones[i] ensures FoundEnded(dones, s, s, i + 1) {
      assert s <= i < i + 1;
    }
  }

  lemma {:induction false} Occurs(l: seq<nat>, n: nat, i: nat)
    requires i < n <= |l|
    ensures CountIn(l, n, Is(l[i])) > 0
  {
    if i < n - 1 {
      Occurs(l, n - 1, i);
    }
  }

  // ---- TCP ----

  class TcpSessions {
    var sessions: seq<nat>
    var next: nat

    /** Those whose shutdown was awaited by the clean-up, and those only signalled when the loop was left. */
    var shutDown: seq<nat>
    var signalled: seq<nat>

    /** Every session started is on one of the lists, once. */
    ghost predicate Valid() reads this {
      && (forall s: nat :: Times(sessions, s) + Times(shutDown, s) + Times(signalled, s) == Once(s < next))
      && Increasing(sessions)
    }

    constructor ()
      ensures Valid() && sessions == [] && next == 0 && shutDown == [] && signalled == []
    {
      sessions, next, shutDown, signalled := [], 0, [], [];
    }

    /** sessions_cleanup: one pass over the drained vector builds the list to keep and the list to shut down. */
    method Cleanup(done: set<nat>)
      requires Valid()
      modifies this`sessions, this`shutDown
      ensures Valid()
      ensures sessions == Pick(old(sessions), NotIn(done), Same)
      ensures shutDown == old(shutDown) + Pick(old(sessions), In(done), Same)
    {
      var kept, ended := [], [];
      for i := 0 to |sessions|
        invariant kept == PickIn(sessions, i, NotIn(done), Same)
        invariant ended == PickIn(sessions, i, In(done), Same)
      {
        if sessions[i] in done {
          ended := ended + [sessions[i]];
        } else {
          kept := kept + [sessions[i]];
        }
      }
      KeptInOrder(sessions, |sessions|, done);
      forall s: nat ensures Times(kept, s) + Times(shutDown + ended, s) == Times(sessions, s) + Times(shutDown, s) {
        Split(sessions, done, s);
        CountConcat(shutDown, ended, Is(s));
      }
      sessions, shutDown := kept, shutDown + ended;
    }

    /** One turn of the accept loop; `done` are the sessions whose task has ended by the clean-up. */
    method Accept(done: set<nat>)
      requires Valid()
      modifies this
      ensures Valid() && next == old(next) + 1 && signalled == old(signalled)
      ensures sessions == Pick(old(sessions) + [old(next)], NotIn(done), Same)
      ensures shutDown == old(shutDown) + Pick(old(sessions) + [old(next)], In(done), Same)
    {
      forall i | 0 <= i < |sessions| ensures sessions[i] < next {
        Occurs(sessions, |sessions|, i);
        assert Times(sessions, sessions[i]) > 0;
      }
      forall s: nat ensures Times(sessions + [next], s) == Times(sessions, s) + Once(s == next) {
        TimesAppend(sessions, next, s);
      }
      sessions, next := sessions + [next], next + 1;
      Cleanup(done);
    }

    /** Leaving the loop drops the vector, and dropping a wrapper signals its task. */
    method Leave()
      requires Valid()
      modifies this
      ensures Valid() && sessions == [] && signalled == old(signalled) + old(sessions)
      ensures next == old(next) && shutDown == old(shutDown)
    {
      forall s: nat ensures Times(signalled + sessions, s) == Times(signalled, s) + Times(sessions, s) {
        CountConcat(signalled, sessions, Is(s));
      }
      sessions, signalled := [], signalled + sessions;
    }

    /** The whole loop, for any ended sessions at each turn; session `s` is the one accepted at turn `s`. Every session
        ever started was either shut down once by a clean-up, and that is if and only if one found it ended, or
        signalled once at the end, in the order of their start. */
    method Run(dones: seq<set<nat>>)
      requires Valid() && next == 0 && signalled == []
      modifies this
      ensures next == |dones| && sessions == [] && Increasing(signalled)
      ensures forall s: nat :: Times(shutDown, s) + Times(signalled, s) == Once(s < |dones|)
      ensures forall s | s in shutDown :: FoundEnded(dones, s, s, |dones|)
      ensures forall s | s in signalled :: !FoundEnded(dones, s, s, |dones|)
    {
      NothingYet();
      for i := 0 to |dones|
        invariant Valid() && next == i && signalled == []
        invariant FoundSoFar(sessions, shutDown, dones, i)
      {
        FoundNext(sessions, shutDown, dones, i);
        Accept(dones[i]);
      }
      ghost var last := sessions;
      Leave();
      assert signalled == last;
      assert forall s: nat :: Times(sessions, s) == 0;
    }

    lemma NothingYet()
      requires Valid() && next == 0
      ensures sessions == [] && shutDown == []
    {
      forall s: nat ensures Times(sessions, s) == Times(shutDown, s) == 0 {
        assert Times(sessions, s) + Times(shutDown, s) + Times(signalled, s) == Once(s < next);
      }
      NoTimesNoElement(sessions);
      NoTimesNoElement(shutDown);
    }
  }

  // ---- DNS ----

  ghost predicate Injective(m: map<Name, nat>) {
    forall a, b | a in m && b in m && a != b :: m[a] != m[b]
  }

  ghost predicate Holds(m: map<Name, nat>, s: nat) {
    exists n :: n in m && m[n] == s
  }

  /** Whether the map holds this session and it has ended. */
  ghost function Ending(m: map<Name, nat>, done: set<nat>, s: nat): nat {
    Once(Holds(m, s) && s in done)
  }

  function Kept(m: map<Name, nat>, done: set<nat>): map<Name, nat> {
    map n | n in m && m[n] !in done :: m[n]
  }

  class DnsServer {
    var sessions: map<Name, nat>
    var next: nat

    /** Those whose shutdown was awaited, and those that had ended and were dropped. */
    var shutDown: seq<nat>
    var dropped: seq<nat>

    /** Every session started is in the map under one name, or on one of the lists, once. */
    ghost predicate Valid() reads this {
      && Injective(sessions)
      && forall s: nat :: Once(Holds(sessions, s)) + Times(shutDown, s) + Times(dropped, s) == Once(s < next)
    }

    constructor ()
      ensures Valid() && sessions == map[] && next == 0 && shutDown == [] && dropped == []
    {
      sessions, next, shutDown, dropped := map[], 0, [], [];
    }

    /** Take every session out of the map, in whatever order it yields them, and sort out the ended ones. */
    method Partition(done: set<nat>) returns (kept: map<Name, nat>, ended: seq<nat>)
      requires Injective(sessions)
      ensures kept == Kept(sessions, done)
      ensures forall s: nat :: Times(ended, s) == Ending(sessions, done, s)
    {
      var rest := sessions;
      kept, ended := map[], [];
      while rest != map[]
        invariant Injective(rest)
        invariant forall n | n in rest :: n in sessions && rest[n] == sessions[n]
        invariant forall n | n in kept :: n in sessions && n !in rest && kept[n] == sessions[n]
        invariant forall n | n in sessions && n !in rest :: n in kept <==> sessions[n] !in done
        invariant forall s: nat :: Times(ended, s) + Ending(rest, done, s) == Ending(sessions, done, s)
        decreases rest.Keys
      {
        var n :| n in rest;
        assert (rest - {n}).Keys == rest.Keys - {n};
        EndingWithout(rest, n, done, ended);
        if rest[n] in done {
          ended := ended + [rest[n]];
        } else {
          kept := kept[n := rest[n]];
        }
        rest := rest - {n};
      }
      assert forall s: nat :: Ending(rest, done, s) == 0;
    }

    /** Drop what has ended. */
    method Cleanup(done: set<nat>)
      requires Valid()
      modifies this`sessions, this`dropped
      ensures Valid() && sessions == Kept(old(sessions), done)
      ensures forall s: nat :: Times(dropped, s) == Times(old(dropped), s) + Ending(old(sessions), done, s)
    {
      var kept, ended := Partition(done);
      KeptHolds(sessions, done);
      forall s: nat ensures Times(dropped + ended, s) == Times(dropped, s) + Ending(sessions, done, s) {
        CountConcat(dropped, ended, Is(s));
      }
      sessions, dropped := kept, dropped + ended;
    }

    method ShutDownSession(s: nat)
      modifies this`shutDown
      ensures shutDown == old(shutDown) + [s]
    {
      shutDown := shutDown + [s];
    }

    method Insert(id: Name)
      requires Valid()
      modifies this`sessions, this`next, this`shutDown
      ensures Valid() && next == old(next) + 1 && sessions == old(sessions)[id := old(next)]
      ensures shutDown == old(shutDown) + if id in old(sessions) then [old(sessions)[id]] else []
    {
      assert !Holds(sessions, next) by {
        assert Times(shutDown, next) >= 0;
      }
      InsertCounts(sessions, id, next);
      if id in sessions {
        forall s: nat ensures Times(shutDown + [sessions[id]], s) == Times(shutDown, s) + Once(s == sessions[id]) {
          TimesAppend(shutDown, sessions[id], s);
        }
        ShutDownSession(sessions[id]);
      }
      sessions, next := sessions[id := next], next + 1;
    }

    /** Launching can fail, when the egress bridge is gone. A session of the same name is replaced and shut down. */
    method Accept(id: Name, launched: bool, done: set<nat>)
      requires Valid()
      modifies this
      ensures Valid() && next == old(next) + Once(launched)
      ensures sessions == Kept(if launched then old(sessions)[id := old(next)] else old(sessions), done)
      ensures shutDown == old(shutDown) + if launched && id in old(sessions) then [old(sessions)[id]] else []
      ensures forall s: nat :: Times(dropped, s) == Times(old(dropped), s)
                + Ending(if launched then old(sessions)[id := old(next)] else old(sessions), done, s)
    {
      if launched {
        Insert(id);
      }
      Cleanup(done);
    }

    /** Drain the map and shut every session down: then each session ever started was shut down or dropped, once. */
    method Shutdown()
      requires Valid()
      modifies this
      ensures Valid() && sessions == map[] && next == old(next) && dropped == old(dropped)
      ensures forall s: nat :: Times(shutDown, s) + Times(dropped, s) == Once(s < next)
      ensures forall s: nat :: Times(shutDown, s) == Times(old(shutDown), s) + Once(Holds(old(sessions), s))
    {
      while sessions != map[]
        invariant Valid() && next == old(next) && dropped == old(dropped)
        invariant forall s: nat :: Times(shutDown, s) + Once(Holds(sessions, s))
                                == Times(old(shutDown), s) + Once(Holds(old(sessions), s))
        decreases sessions.Keys
      {
        var n :| n in sessions;
        DropCounts(sessions, n, shutDown);
        ShutDownSession(sessions[n]);
        assert (sessions - {n}).Keys == sessions.Keys - {n};
        sessions := sessions - {n};
      }
      assert forall s: nat :: !Holds(sessions, s);
    }

    /** The whole life of a server, for any names, launches and ended sessions: a session was dropped if and only if a
        clean-up found it ended, and shut down if and only if one of its name replaced it or it was left at the end. */
    method Run(accepts: seq<Accepted>)
      requires Valid() && next == 0
      modifies this
      ensures next == Started(accepts, |accepts|) && sessions == map[]
      ensures forall s: nat :: Times(shutDown, s) + Times(dropped, s) == Once(s < next)
      ensures forall s: nat :: s in dropped <==> FoundBy(accepts, |accepts|, s)
      ensures forall s: nat :: s in shutDown
                <==> ReplacedBy(accepts, |accepts|, s) || Holds(MapAt(accepts, |accepts|), s)
    {
      NothingYet();
      for k := 0 to |accepts|
        invariant Valid() && next == Started(accepts, k) && sessions == MapAt(accepts, k)
        invariant forall s: nat :: s in dropped <==> FoundBy(accepts, k, s)
        invariant forall s: nat :: s in shutDown <==> ReplacedBy(accepts, k, s)
      {
        ghost var droppedBefore := dropped;
        Accept(accepts[k].id, accepts[k].launched, accepts[k].done);
        forall s: nat ensures s in dropped <==> FoundBy(accepts, k + 1, s) {
          InIffTimes(droppedBefore, s);
          InIffTimes(dropped, s);
          FoundSplits(accepts, k, s);
        }
        forall s: nat ensures s in shutDown <==> ReplacedBy(accepts, k + 1, s) {
          ReplacedSplits(accepts, k, s);
        }
      }
      ghost var shutBefore := shutDown;
      Shutdown();
      forall s: nat ensures s in shutDown
          <==> ReplacedBy(accepts, |accepts|, s) || Holds(MapAt(accepts, |accepts|), s) {
        InIffTimes(shutBefore, s);
        InIffTimes(shutDown, s);
      }
    }

    lemma NothingYet()
      requires Valid() && next == 0
      ensures sessions == map[] && shutDown == [] && dropped == []
    {
      forall s: nat ensures !Holds(sessions, s) && Times(shutDown, s) == Times(dropped, s) == 0 {
        assert Once(Holds(sessions, s)) + Times(shutDown, s) + Times(dropped, s) == Once(s < next);
      }
      NoTimesNoElement(shutDown);
      NoTimesNoElement(dropped);
      assert forall n | n in sessions :: Holds(sessions, sessions[n]);
    }
  }

  // ---- The life of a DNS server ----

  /** A connection: the name it gets, whether its session could be launched, and which have ended by the clean-up. */
  datatype Accepted = Accepted(id: Name, launched: bool, done: set<nat>)

  ghost function Started(accepts: seq<Accepted>, k: nat): nat
    requires k <= |accepts|
  {
    if k == 0 then 0 else Started(accepts, k - 1) + Once(accepts[k - 1].launched)
  }

  /** The sessions held after the first `k` connections, and those of the next one before its clean-up. */
  ghost function MapAt(accepts: seq<Accepted>, k: nat): map<Name, nat>
    requires k <= |accepts|
  {
    if k == 0 then map[] else
      var a, m := accepts[k - 1], MapAt(accepts, k - 1);
      Kept(if a.launched then m[a.id := Started(accepts, k - 1)] else m, a.done)
  }

  ghost function WithNext(accepts: seq<Accepted>, k: nat): map<Name, nat>
    requires k < |accepts|
  {
    if accepts[k].launched then MapAt(accepts, k)[accepts[k].id := Started(accepts, k)] else MapAt(accepts, k)
  }

  ghost predicate FoundAt(accepts: seq<Accepted>, k: nat, s: nat)
    requires k < |accepts|
  {
    Holds(WithNext(accepts, k), s) && s in accepts[k].done
  }

  ghost predicate FoundBy(accepts: seq<Accepted>, k: nat, s: nat)
    requires k <= |accepts|
  {
    exists j: nat {:trigger FoundAt(accepts, j, s)} :: j < k && FoundAt(accepts, j, s)
  }

  ghost predicate ReplacedAt(accepts: seq<Accepted>, k: nat, s: nat)
    requires k < |accepts|
  {
    accepts[k].launched && accepts[k].id in MapAt(accepts, k) && MapAt(accepts, k)[accepts[k].id] == s
  }

  ghost predicate ReplacedBy(accepts: seq<Accepted>, k: nat, s: nat)
    requires k <= |accepts|
  {
    exists j: nat {:trigger ReplacedAt(accepts, j, s)} :: j < k && ReplacedAt(accepts, j, s)
  }

  lemma FoundSplits(accepts: seq<Accepted>, k: nat, s: nat)
    requires k < |accepts|
    ensures FoundBy(accepts, k + 1, s) <==> FoundBy(accepts, k, s) || FoundAt(accepts, k, s)
  {
  }

  lemma ReplacedSplits(accepts: seq<Accepted>, k: nat, s: nat)
    requires k < |accepts|
    ensures ReplacedBy(accepts, k + 1, s) <==> ReplacedBy(accepts, k, s) || ReplacedAt(accepts, k, s)
  {
  }

  lemma {:induction false} NoCountIfAbsent(l: seq<nat>, n: nat, s: nat)
    requires n <= |l| && s !in l
    ensures CountIn(l, n, Is(s)) == 0
  {
    if n > 0 {
      NoCountIfAbsent(l, n - 1, s);
    }
  }

  lemma InIffTimes(l: seq<nat>, s: nat)
    ensures s in l <==> Times(l, s) > 0
  {
    if s in l {
      var i :| 0 <= i < |l| && l[i] == s;
      Occurs(l, |l|, i);
    } else {
      NoCountIfAbsent(l, |l|, s);
    }
  }

  lemma DropCounts(m: map<Name, nat>, n: Name, l: seq<nat>)
    requires n in m && Injective(m)
    ensures Injective(m - {n})
    ensures forall s: nat :: Times(l + [m[n]], s) == Times(l, s) + Once(s == m[n])
    ensures forall s: nat :: Once(Holds(m, s)) == Once(Holds(m - {n}, s)) + Once(s == m[n])
  {
    forall s: nat ensures Times(l + [m[n]], s) == Times(l, s) + Once(s == m[n]) {
      TimesAppend(l, m[n], s);
    }
    forall s: nat ensures Once(Holds(m, s)) == Once(Holds(m - {n}, s)) + Once(s == m[n]) {
      HoldsWithout(m, n, s);
    }
  }

  lemma HoldsWithout(m: map<Name, nat>, n: Name, s: nat)
    requires n in m && Injective(m)
    ensures Holds(m - {n}, s) <==> Holds(m, s) && s != m[n]
  {
    if Holds(m, s) && s != m[n] {
      var k :| k in m && m[k] == s;
      assert k in m - {n} && (m - {n})[k] == s;
    }
    if Holds(m - {n}, s) {
      var k :| k in m - {n} && (m - {n})[k] == s;
      assert k in m && m[k] == s;
    }
  }

  lemma EndingWithout(m: map<Name, nat>, n: Name, done: set<nat>, ended: seq<nat>)
    requires n in m && Injective(m)
    ensures Injective(m - {n})
    ensures forall s: nat ::
      Times(if m[n] in done then ended + [m[n]] else ended, s) + Ending(m - {n}, done, s)
      == Times(ended, s) + Ending(m, done, s)
  {
    forall s: nat ensures Times(if m[n] in done then ended + [m[n]] else ended, s) + Ending(m - {n}, done, s)
                       == Times(ended, s) + Ending(m, done, s)
    {
      HoldsWithout(m, n, s);
      TimesAppend(ended, m[n], s);
      assert Holds(m, m[n]);
    }
  }

  lemma KeptHolds(m: map<Name, nat>, done: set<nat>)
    ensures Injective(m) ==> Injective(Kept(m, done))
    ensures forall s: nat :: Once(Holds(Kept(m, done), s)) + Ending(m, done, s) == Once(Holds(m, s))
  {
    forall s: nat ensures Holds(Kept(m, done), s) <==> Holds(m, s) && s !in done {
      if Holds(m, s) && s !in done {
        var n :| n in m && m[n] == s;
        assert n in Kept(m, done) && Kept(m, done)[n] == s;
      }
      if Holds(Kept(m, done), s) {
        var n :| n in Kept(m, done) && Kept(m, done)[n] == s;
        assert n in m && m[n] == s;
      }
    }
  }

  lemma InsertCounts(m: map<Name, nat>, id: Name, s: nat)
    requires Injective(m) && !Holds(m, s)
    ensures Injective(m[id := s])
    ensures forall x: nat ::
      Once(Holds(m[id := s], x)) + Once(id in m && x == m[id]) == Once(Holds(m, x)) + Once(x == s)
  {
    var more := m[id := s];
    assert id in more && more[id] == s;
    assert forall n | n in m :: Holds(m, m[n]);
    forall x: nat ensures Once(Holds(more, x)) + Once(id in m && x == m[id]) == Once(Holds(m, x)) + Once(x == s) {
      if Holds(m, x) && !(id in m && x == m[id]) {
        var n :| n in m && m[n] == x;
        assert n in more && more[n] == x;
      }
      if Holds(more, x) && x != s {
        var n :| n in more && more[n] == x;
        assert n in m && m[n] == x;
      }
    }
  }
}
