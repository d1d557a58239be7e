/** The service runner: after every reload the running tasks are exactly those the new configuration asks for.
    Every call to the launcher is logged. */
module Reconciler {
  import opened Names
  import opened Seqs
  import opened LaunchLog

  // ---- What a reload should do ----

  /** The calls a reload makes about one name, given what runs and what is asked for. */
  function Needed<C(==)>(running: map<Name, Service<C>>, wanted: map<Name, C>, n: Name): seq<bool> {
    if n in running && n in wanted then
      if running[n].config == wanted[n] then [] else [false, true]
    else if n in wanted then [true]
    else if n in running then [false]
    else []
  }

  function Added<C>(running: map<Name, Service<C>>, wanted: map<Name, C>): set<Name> {
    wanted.Keys - running.Keys
  }

  function Removed<C>(running: map<Name, Service<C>>, wanted: map<Name, C>): set<Name> {
    running.Keys - wanted.Keys
  }

  function Changed<C(==)>(running: map<Name, Service<C>>, wanted: map<Name, C>): set<Name> {
    set n | n in running && n in wanted && running[n].config != wanted[n]
  }

  ghost predicate Matches<C>(running: map<Name, Service<C>>, wanted: map<Name, C>) {
    running.Keys == wanted.Keys && forall n | n in wanted :: running[n].config == wanted[n]
  }

  /** No call at all is needed exactly when the configuration is the one that runs. */
  lemma NothingNeededIffMatches<C>(running: map<Name, Service<C>>, wanted: map<Name, C>)
    ensures |Added(running, wanted)| + |Removed(running, wanted)| + 2 * |Changed(running, wanted)| == 0
       <==> Matches(running, wanted)
  {
    if Matches(running, wanted) {
      assert Added(running, wanted) == {} && Removed(running, wanted) == {} && Changed(running, wanted) == {};
    } else {
      if n :| n in wanted && n !in running {
        assert n in Added(running, wanted);
      } else if n :| n in running && n !in wanted {
        assert n in Removed(running, wanted);
      } else {
        var n :| n in wanted && running[n].config != wanted[n];
        assert n in Changed(running, wanted);
      }
    }
  }

  /** The reload is done with this name: it is as wanted, and exactly the needed calls were made. */
  ghost predicate Handled<C>(was: map<Name, Service<C>>, wanted: map<Name, C>,
                             now: map<Name, Service<C>>, calls: seq<Call<C>>, n: Name) {
    && (n in now <==> n in wanted)
    && (n in wanted ==> now[n].config == wanted[n])
    && (n in wanted && n in was && was[n].config == wanted[n] ==> now[n] == was[n])
    && CallsOf(calls, n) == Needed(was, wanted, n)
  }

  ghost predicate Untouched<C>(was: map<Name, Service<C>>, now: map<Name, Service<C>>, calls: seq<Call<C>>, n: Name) {
    && (n in now <==> n in was)
    && (n in was ==> now[n] == was[n])
    && CallsOf(calls, n) == []
  }

  /** A reload under way: the names in `done` are handled, the others untouched. */
  ghost predicate Progress<C>(was: map<Name, Service<C>>, wanted: map<Name, C>, done: set<Name>,
                              now: map<Name, Service<C>>, calls: seq<Call<C>>) {
    && (forall n {:trigger Handled(was, wanted, now, calls, n)} | n in done :: Handled(was, wanted, now, calls, n))
    && (forall n {:trigger Untouched(was, now, calls, n)} | n !in done :: Untouched(was, now, calls, n))
  }

  lemma {:induction false} CallsOfOthers<C>(calls: seq<Call<C>>, k: nat, n: Name)
    requires k <= |calls| && forall c | c in calls :: c.name != n
    ensures PickIn(calls, k, Of(n), IsLaunch) == []
  {
    if k > 0 {
      CallsOfOthers(calls, k - 1, n);
      assert calls[k - 1] in calls;
    }
  }

  /** Handling one more name, with calls about that name only. */
  lemma ProgressStep<C>(was: map<Name, Service<C>>, wanted: map<Name, C>, done: set<Name>,
                        now: map<Name, Service<C>>, calls: seq<Call<C>>,
                        now': map<Name, Service<C>>, more: seq<Call<C>>, n: Name)
    requires Progress(was, wanted, done, now, calls) && n !in done
    requires now' - {n} == now - {n} && forall c | c in more :: c.name == n
    requires Handled(was, wanted, now', calls + more, n)
    ensures Progress(was, wanted, done + {n}, now', calls + more)
  {
    forall m | m in done + {n} ensures Handled(was, wanted, now', calls + more, m) {
      if m != n {
        assert Handled(was, wanted, now, calls, m);
        SameElsewhere(now, calls, now', more, n, m);
      }
    }
    forall m | m !in done + {n} ensures Untouched(was, now', calls + more, m) {
      assert Untouched(was, now, calls, m);
      SameElsewhere(now, calls, now', more, n, m);
    }
  }

  lemma SameElsewhere<C>(now: map<Name, Service<C>>, calls: seq<Call<C>>,
                         now': map<Name, Service<C>>, more: seq<Call<C>>, n: Name, m: Name)
    requires now' - {n} == now - {n} && (forall c | c in more :: c.name == n) && m != n
    ensures CallsOf(calls + more, m) == CallsOf(calls, m)
    ensures m in now' <==> m in now
    ensures m in now ==> now'[m] == now[m]
  {
    PickConcat(calls, more, Of(m), IsLaunch);
    CallsOfOthers(more, |more|, m);
    assert m in now' - {n} <==> m in now - {n};
    assert m in now ==> (now' - {n})[m] == (now - {n})[m];
  }

  lemma CallsOfTwo<C>(calls: seq<Call<C>>, a: Call<C>, b: Call<C>)
    requires a.name == b.name && CallsOf(calls, a.name) == []
    ensures CallsOf(calls + [a], a.name) == [a.Launch?]
    ensures CallsOf(calls + [a, b], a.name) == [a.Launch?, b.Launch?]
  {
    PickAppend(calls, a, Of(a.name), IsLaunch);
    PickAppend(calls + [a], b, Of(a.name), IsLaunch);
    assert calls + [a, b] == calls + [a] + [b];
  }

  // ---- The runner ----

  class Runner<C(==)> {
    var services: map<Name, Service<C>>
    var log: seq<Call<C>>

    /** The table of services is what the launcher was told. */
    ghost predicate Valid() reads this {
      WellFormed(log) && AliveAt(log, |log|) == services
    }

    constructor ()
      ensures Valid() && services == map[] && log == []
    {
      services, log := map[], [];
    }

    method LaunchService(name: Name, config: C)
      requires Valid() && name !in services
      modifies this
      ensures Valid() && services == old(services)[name := Service(config, |old(log)|)]
      ensures log == old(log) + [Launch(name, config)]
    {
      LogCall(log, Launch(name, config));
      services := services[name := Service(config, |log|)];
      log := log + [Launch(name, config)];
    }

    method StopService(name: Name)
      requires Valid() && name in services
      modifies this
      ensures Valid() && services == old(services) - {name}
      ensures log == old(log) + [Stop(name, old(services)[name].task)]
    {
      var call := Stop(name, services[name].task);
      LogCall(log, call);
      services := services - {name};
      log := log + [call];
    }

    /** One turn of the first loop: start what is new, restart what changed. `was` and `calls` are the services when
        the reload began and the calls made since. */
    method StartOne(ghost was: map<Name, Service<C>>, wanted: map<Name, C>, ghost done: set<Name>,
                    ghost calls: seq<Call<C>>, name: Name) returns (ghost more: seq<Call<C>>)
      requires Valid() && Progress(was, wanted, done, services, calls)
      requires name in wanted && name !in done
      modifies this
      ensures Valid() && log == old(log) + more
      ensures Progress(was, wanted, done + {name}, services, calls + more)
    {
      assert Untouched(was, services, calls, name);
      if name in services {
        if services[name].config != wanted[name] {
          more := Restart(was, wanted, calls, name);
        } else {
          more := [];
          assert calls + more == calls;
        }
      } else {
        more := [Launch(name, wanted[name])];
        CallsOfTwo(calls, more[0], more[0]);
        LaunchService(name, wanted[name]);
      }
      ProgressStep(was, wanted, done, old(services), calls, services, more, name);
    }

    method Restart(ghost was: map<Name, Service<C>>, wanted: map<Name, C>, ghost calls: seq<Call<C>>, name: Name)
      returns (ghost more: seq<Call<C>>)
      requires Valid() && Untouched(was, services, calls, name)
      requires name in services && name in wanted && services[name].config != wanted[name]
      modifies this
      ensures Valid() && log == old(log) + more && services - {name} == old(services) - {name}
      ensures Handled(was, wanted, services, calls + more, name)
      ensures forall c | c in more :: c.name == name
    {
      more := [Stop(name, services[name].task), Launch(name, wanted[name])];
      CallsOfTwo(calls, more[0], more[1]);
      StopService(name);
      LaunchService(name, wanted[name]);
    }

    /** One turn of the second loop. */
    method RemoveOne(ghost was: map<Name, Service<C>>, ghost wanted: map<Name, C>, ghost done: set<Name>,
                     ghost calls: seq<Call<C>>, name: Name) returns (ghost more: seq<Call<C>>)
      requires Valid() && Progress(was, wanted, done, services, calls)
      requires name in services && name !in wanted && name !in done
      modifies this
      ensures Valid() && log == old(log) + more && services == old(services) - {name}
      ensures Progress(was, wanted, done + {name}, services, calls + more)
    {
      assert Untouched(was, services, calls, name);
      more := [Stop(name, services[name].task)];
      CallsOfTwo(calls, more[0], more[0]);
      StopService(name);
      ProgressStep(was, wanted, done, old(services), calls, services, more, name);
    }

    method StartUpdated(wanted: map<Name, C>) returns (ghost calls: seq<Call<C>>)
      requires Valid()
      modifies this
      ensures Valid() && log == old(log) + calls
      ensures Progress(old(services), wanted, wanted.Keys, services, calls)
    {
      ghost var was := services;
      calls := [];
      var rest := wanted;
      assert wanted.Keys - rest.Keys == {};
      while rest != map[]
        invariant rest.Keys <= wanted.Keys
        invariant Valid() && log == old(log) + calls
        invariant Progress(was, wanted, wanted.Keys - rest.Keys, services, calls)
        decreases rest.Keys
      {
        var name :| name in rest;
        ghost var more := StartOne(was, wanted, wanted.Keys - rest.Keys, calls, name);
        OneFewer(wanted.Keys, rest, name);
        calls, rest := calls + more, rest - {name};
      }
      assert wanted.Keys - rest.Keys == wanted.Keys;
    }

    method RemoveMissing(ghost was: map<Name, Service<C>>, wanted: map<Name, C>, ghost begun: seq<Call<C>>)
      returns (ghost calls: seq<Call<C>>)
      requires Valid() && Progress(was, wanted, wanted.Keys, services, begun)
      modifies this
      ensures Valid() && log == old(log) + calls
      ensures Progress(was, wanted, was.Keys + wanted.Keys, services, begun + calls)
    {
      var toRemove := set n | n in services && n !in wanted;
      ghost var done := wanted.Keys;
      ToRemoveIs(was, wanted, services, begun);
      calls := [];
      assert begun + calls == begun;
      while toRemove != {}
        invariant toRemove <= services.Keys && toRemove !! done && wanted.Keys <= done
        invariant done + toRemove == was.Keys + wanted.Keys
        invariant Valid() && log == old(log) + calls
        invariant Progress(was, wanted, done, services, begun + calls)
        decreases toRemove
      {
        var name :| name in toRemove;
        ghost var more := RemoveOne(was, wanted, done, begun + calls, name);
        assert begun + calls + more == begun + (calls + more);
        MoveOver(done, toRemove, name);
        calls, done, toRemove := calls + more, done + {name}, toRemove - {name};
      }
    }

    /** Both loops, in whatever order the names come. */
    method Update(wanted: map<Name, C>) returns (ghost calls: seq<Call<C>>)
      requires Valid()
      modifies this
      ensures Valid() && log == old(log) + calls && Reloaded(old(services), wanted, services, calls)
    {
      ghost var was := services;
      ghost var begun := StartUpdated(wanted);
      ghost var ended := RemoveMissing(was, wanted, begun);
      calls := begun + ended;
      Finished(was, wanted, services, calls);
    }

    /** After a reload what runs is what was asked for. A service whose configuration did not change keeps its task, the
        launcher gets exactly the calls that are needed, and their number is minimal. */
    method Reload(wanted: map<Name, C>) returns (ghost calls: seq<Call<C>>)
      requires Valid()
      modifies this
      ensures Valid() && log == old(log) + calls && Reloaded(old(services), wanted, services, calls)
      ensures Minimal(old(services), wanted, calls)
    {
      calls := Update(wanted);
      ReloadIsMinimal(old(services), wanted, calls);
    }

    /** Shutdown drains the table and stops every task; nothing is launched any more. */
    method Shutdown() returns (ghost stops: seq<Call<C>>)
      requires Valid()
      modifies this
      ensures Valid() && services == map[]
      ensures log == old(log) + stops && forall c | c in stops :: c.Stop?
    {
      stops := [];
      while services != map[]
        invariant Valid() && log == old(log) + stops && forall c | c in stops :: c.Stop?
        decreases services.Keys
      {
        var name :| name in services;
        assert (services - {name}).Keys == services.Keys - {name};
        stops := stops + [Stop(name, services[name].task)];
        StopService(name);
      }
    }

    /** The event loop: any number of reloads, then a shutdown. The log goes through every configuration in turn: at
        `marks[i]` the configurations before the `i`th have been brought about, each by the calls it needs and no
        others. Then come only the stops of what is left. */
    method Run(configs: seq<map<Name, C>>) returns (ghost marks: seq<nat>)
      requires Valid() && log == []
      modifies this
      ensures WellFormed(log) && AliveAt(log, |log|) == map[]
      ensures WentThrough(log, configs, |configs|, marks)
      ensures forall k | marks[|configs|] <= k < |log| :: log[k].Stop?
      ensures forall n :: Alternating(CallsOf(log, n)) && |CallsOf(log, n)| % 2 == 0
      ensures forall t | 0 <= t < |log| && log[t].Launch? :: exists j :: Stops(log, t, j)
    {
      marks := [0];
      for i := 0 to |configs|
        invariant Valid() && WentThrough(log, configs, i, marks) && marks[i] == |log|
      {
        marks := ReloadNext(configs, i, marks);
      }
      ghost var before := log;
      ghost var stops := Shutdown();
      WentThroughExtends(before, stops, configs, |configs|, marks);
      assert forall k | |before| <= k < |log| :: log[k] == stops[k - |before|];
      AllPairedUp(log);
    }

    method ReloadNext(configs: seq<map<Name, C>>, i: nat, ghost marks: seq<nat>) returns (ghost marks': seq<nat>)
      requires Valid() && i < |configs| && WentThrough(log, configs, i, marks) && marks[i] == |log|
      modifies this
      ensures Valid() && WentThrough(log, configs, i + 1, marks') && marks'[i + 1] == |log|
    {
      ghost var before := log;
      ghost var calls := Reload(configs[i]);
      WentThroughExtends(before, calls, configs, i, marks);
      LastReloads(before, calls, configs[i]);
      LastMark(log, configs, marks, i);
      ReloadMarked(log, configs, i, marks);
      marks' := marks + [|log|];
    }
  }

  // ---- The log of a run ----

  lemma AllPairedUp<C>(log: seq<Call<C>>)
    requires WellFormed(log) && AliveAt(log, |log|) == map[]
    ensures forall n :: Alternating(CallsOf(log, n)) && |CallsOf(log, n)| % 2 == 0
    ensures forall t | 0 <= t < |log| && log[t].Launch? :: exists j :: Stops(log, t, j)
  {
    forall n ensures Alternating(CallsOf(log, n)) && |CallsOf(log, n)| % 2 == 0 {
      CallsAlternate(log, |log|, n);
    }
    forall t | 0 <= t < |log| && log[t].Launch? ensures exists j :: Stops(log, t, j) {
      EveryTaskStopped(log, t);
    }
  }

  /** The calls from `a` to `b` reload this configuration. */
  ghost predicate ReloadsBetween<C>(log: seq<Call<C>>, a: nat, b: nat, wanted: map<Name, C>) {
    a <= b <= |log| && Done(AliveAt(log, a), wanted, AliveAt(log, b), log[a..b])
  }

  ghost predicate Done<C>(was: map<Name, Service<C>>, wanted: map<Name, C>,
                          now: map<Name, Service<C>>, calls: seq<Call<C>>) {
    Reloaded(was, wanted, now, calls) && Minimal(was, wanted, calls)
  }

  ghost predicate WentThrough<C>(log: seq<Call<C>>, configs: seq<map<Name, C>>, n: nat, marks: seq<nat>) {
    && n <= |configs| && |marks| == n + 1 && marks[0] == 0 && marks[n] <= |log|
    && forall i: nat {:trigger MarkOk(log, configs, marks, i)} | i < n :: MarkOk(log, configs, marks, i)
  }

  ghost predicate MarkOk<C>(log: seq<Call<C>>, configs: seq<map<Name, C>>, marks: seq<nat>, i: nat)
    requires i < |configs| && i + 1 < |marks|
  {
    ReloadsBetween(log, marks[i], marks[i + 1], configs[i])
  }

  lemma ReloadsBetweenExtends<C>(log: seq<Call<C>>, more: seq<Call<C>>, a: nat, b: nat, wanted: map<Name, C>)
    requires ReloadsBetween(log, a, b, wanted)
    ensures ReloadsBetween(log + more, a, b, wanted)
  {
    AlivePrefix(log, more, a);
    AlivePrefix(log, more, b);
    SameSlice(log, more, a, b);
  }

  lemma SameSlice<T>(s: seq<T>, more: seq<T>, a: nat, b: nat)
    requires a <= b <= |s|
    ensures (s + more)[a..b] == s[a..b]
  {
  }

  lemma LastSlice<T>(s: seq<T>, more: seq<T>)
    ensures (s + more)[|s|..|s + more|] == more
  {
  }

  lemma WentThroughExtends<C>(log: seq<Call<C>>, more: seq<Call<C>>, configs: seq<map<Name, C>>, n: nat,
                              marks: seq<nat>)
    requires WentThrough(log, configs, n, marks)
    ensures WentThrough(log + more, configs, n, marks)
  {
    forall i: nat | i < n ensures MarkOk(log + more, configs, marks, i) {
      assert MarkOk(log, configs, marks, i);
      ReloadsBetweenExtends(log, more, marks[i], marks[i + 1], configs[i]);
    }
  }

  lemma MarkStays<C>(log: seq<Call<C>>, configs: seq<map<Name, C>>, n: nat, marks: seq<nat>, mark: nat, i: nat)
    requires WentThrough(log, configs, n, marks) && i < n
    ensures MarkOk(log, configs, marks + [mark], i)
  {
    assert MarkOk(log, configs, marks, i);
    var marks' := marks + [mark];
    assert marks'[i] == marks[i] && marks'[i + 1] == marks[i + 1];
  }

  /** One more reload, one more mark. */
  lemma ReloadMarked<C>(log: seq<Call<C>>, configs: seq<map<Name, C>>, n: nat, marks: seq<nat>)
    requires WentThrough(log, configs, n, marks) && n < |configs|
    requires MarkOk(log, configs, marks + [|log|], n)
    ensures WentThrough(log, configs, n + 1, marks + [|log|])
  {
    var marks' := marks + [|log|];
    assert |marks'| == n + 2 && marks'[0] == 0 && marks'[n + 1] == |log|;
    forall i: nat | i < n + 1 ensures MarkOk(log, configs, marks', i) {
      if i != n {
        MarkStays(log, configs, n, marks, |log|, i);
      }
    }
  }

  lemma LastMark<C>(log: seq<Call<C>>, configs: seq<map<Name, C>>, marks: seq<nat>, n: nat)
    requires n < |configs| && |marks| == n + 1 && ReloadsBetween(log, marks[n], |log|, configs[n])
    ensures MarkOk(log, configs, marks + [|log|], n)
  {
  }

  lemma LastReloads<C>(log: seq<Call<C>>, calls: seq<Call<C>>, wanted: map<Name, C>)
    requires Done(AliveAt(log, |log|), wanted, AliveAt(log + calls, |log + calls|), calls)
    ensures ReloadsBetween(log + calls, |log|, |log + calls|, wanted)
  {
    AlivePrefix(log, calls, |log|);
    LastSlice(log, calls);
  }

  lemma MoveOver(done: set<Name>, rest: set<Name>, name: Name)
    requires name in rest && rest !! done
    ensures (done + {name}) + (rest - {name}) == done + rest && (rest - {name}) !! (done + {name})
    ensures rest - {name} < rest
  {
  }

  lemma OneFewer<V>(all: set<Name>, rest: map<Name, V>, name: Name)
    requires rest.Keys <= all && name in rest
    ensures all - rest.Keys + {name} == all - (rest - {name}).Keys
    ensures (rest - {name}).Keys == rest.Keys - {name} && (rest - {name}).Keys < rest.Keys
  {
    assert (rest - {name}).Keys == rest.Keys - {name};
  }

  lemma ToRemoveIs<C>(was: map<Name, Service<C>>, wanted: map<Name, C>, now: map<Name, Service<C>>, calls: seq<Call<C>>)
    requires Progress(was, wanted, wanted.Keys, now, calls)
    ensures (set n | n in now && n !in wanted) == was.Keys - wanted.Keys
  {
    forall n | n !in wanted ensures n in now <==> n in was {
      assert Untouched(was, now, calls, n);
    }
  }

  /** What runs is what was asked for, a service whose configuration did not change keeps its task, and the launcher got
      exactly the calls that were needed. */
  ghost predicate Reloaded<C>(was: map<Name, Service<C>>, wanted: map<Name, C>,
                              now: map<Name, Service<C>>, calls: seq<Call<C>>) {
    && Matches(now, wanted)
    && (forall n | n in wanted && n in was && was[n].config == wanted[n] :: now[n] == was[n])
    && forall n :: CallsOf(calls, n) == Needed(was, wanted, n)
  }

  lemma Finished<C>(was: map<Name, Service<C>>, wanted: map<Name, C>, now: map<Name, Service<C>>, calls: seq<Call<C>>)
    requires Progress(was, wanted, was.Keys + wanted.Keys, now, calls)
    ensures Reloaded(was, wanted, now, calls)
  {
    forall n ensures CallsOf(calls, n) == Needed(was, wanted, n) && (n in now <==> n in wanted) {
      if n in was.Keys + wanted.Keys {
        assert Handled(was, wanted, now, calls, n);
      } else {
        assert Untouched(was, now, calls, n);
      }
    }
    assert forall n | n in wanted :: Handled(was, wanted, now, calls, n);
  }

  // ---- How many calls a reload makes ----

  function Among<C>(names: set<Name>): Call<C> -> bool {
    (c: Call<C>) => c.name in names
  }

  lemma {:induction false} AmongOneMore<C>(calls: seq<Call<C>>, k: nat, names: set<Name>, n: Name)
    requires k <= |calls| && n !in names
    ensures CountIn(calls, k, Among(names + {n}))
         == CountIn(calls, k, Among(names)) + |PickIn(calls, k, Of(n), IsLaunch)|
  {
    if k > 0 {
      AmongOneMore(calls, k - 1, names, n);
    }
  }

  lemma SizeOneMore(part: set<Name>, names: set<Name>, n: Name)
    requires n !in names
    ensures |part * (names + {n})| == |part * names| + if n in part then 1 else 0
  {
    if n in part {
      assert part * (names + {n}) == part * names + {n};
    } else {
      assert part * (names + {n}) == part * names;
    }
  }

  /** If each name in `once` has one call, each in `twice` two, and no other any, the calls add up. */
  lemma {:induction false} CallsAddUp<C>(calls: seq<Call<C>>, names: set<Name>, once: set<Name>, twice: set<Name>)
    requires forall n | n in names ::
      |CallsOf(calls, n)| == (if n in once then 1 else 0) + 2 * if n in twice then 1 else 0
    ensures Count(calls, Among(names)) == |once * names| + 2 * |twice * names|
    decreases names
  {
    if names == {} {
      NoneAmong(calls, |calls|);
    } else {
      var n :| n in names;
      var rest := names - {n};
      CallsAddUp(calls, rest, once, twice);
      AmongOneMore(calls, |calls|, rest, n);
      SizeOneMore(once, rest, n);
      SizeOneMore(twice, rest, n);
      assert rest + {n} == names;
    }
  }

  lemma {:induction false} NoneAmong<C>(calls: seq<Call<C>>, k: nat)
    requires k <= |calls|
    ensures CountIn(calls, k, Among({})) == 0
  {
    if k > 0 {
      NoneAmong(calls, k - 1);
    }
  }

  lemma {:induction false} AllAmong<C>(calls: seq<Call<C>>, k: nat, names: set<Name>)
    requires k <= |calls| && forall i | 0 <= i < k :: calls[i].name in names
    ensures CountIn(calls, k, Among(names)) == k
  {
    if k > 0 {
      AllAmong(calls, k - 1, names);
    }
  }

  lemma CallIsAmong<C>(calls: seq<Call<C>>, i: nat, names: set<Name>)
    requires i < |calls| && forall n | n !in names :: CallsOf(calls, n) == []
    ensures calls[i].name in names
  {
    CallIsSeen(calls, |calls|, i);
  }

  lemma {:induction false} CallIsSeen<C>(calls: seq<Call<C>>, k: nat, i: nat)
    requires i < k <= |calls|
    ensures PickIn(calls, k, Of(calls[i].name), IsLaunch) != []
  {
    if i < k - 1 {
      CallIsSeen(calls, k - 1, i);
    }
  }

  lemma CallsTotal<C>(calls: seq<Call<C>>, names: set<Name>, once: set<Name>, twice: set<Name>)
    requires forall n | n in names ::
      |CallsOf(calls, n)| == (if n in once then 1 else 0) + 2 * if n in twice then 1 else 0
    requires forall n | n !in names :: CallsOf(calls, n) == []
    requires once <= names && twice <= names
    ensures |calls| == |once| + 2 * |twice|
  {
    CallsAddUp(calls, names, once, twice);
    forall i | 0 <= i < |calls| ensures calls[i].name in names {
      CallIsAmong(calls, i, names);
    }
    AllAmong(calls, |calls|, names);
    assert once * names == once;
    assert twice * names == twice;
  }

  /** One call for each name added or removed, two for each changed, and none besides; so none at all exactly when the
      configuration already runs. */
  ghost predicate Minimal<C>(was: map<Name, Service<C>>, wanted: map<Name, C>, calls: seq<Call<C>>) {
    && |calls| == |Added(was, wanted)| + |Removed(was, wanted)| + 2 * |Changed(was, wanted)|
    && (Matches(was, wanted) <==> calls == [])
  }

  lemma ReloadIsMinimal<C>(was: map<Name, Service<C>>, wanted: map<Name, C>, calls: seq<Call<C>>)
    requires forall n :: CallsOf(calls, n) == Needed(was, wanted, n)
    ensures Minimal(was, wanted, calls)
  {
    var added, removed := Added(was, wanted), Removed(was, wanted);
    CallsTotal(calls, was.Keys + wanted.Keys, added + removed, Changed(was, wanted));
    UnionSize(added, removed);
    NothingNeededIffMatches(was, wanted);
  }

  lemma UnionSize(a: set<Name>, b: set<Name>)
    requires a !! b
    ensures |a + b| == |a| + |b|
  {
  }
}
