/** The DNS client of a sidecar: a bridge bound to the listen address and a channel client to the agent, started as a
    pair and started again whenever the channel client is found to have ended. */
module ClientRunner {
  import opened Names
  import opened LaunchLog
  import opened Seqs

  const BRIDGE := Name("bridge")
  const CLIENT := Name("client")

  /** `bridge` and `client` are the tasks of the pair. */
  datatype State = Starting | Running(bridge: nat, client: nat) | Invalid

  /** What one iteration finds. A start can fail at the agent's socket or at the listen address, and then leaves
      nothing running; afterwards, and in a running pair, the loop waits for five seconds or a shutdown. */
  datatype Input = StartFails(shutdown: bool) | StartSucceeds | TimerExpires(clientDone: bool) | ShutdownSignal

  predicate Possible(s: State, i: Input) {
    match s
    case Starting => i.StartFails? || i.StartSucceeds?
    case Running(_, _) => i.TimerExpires? || i.ShutdownSignal?
    case Invalid => false
  }

  /** Whether the loop goes on, and if so whether a pair is held. */
  function GoesOn(i: Input): bool {
    i != StartFails(true) && i != ShutdownSignal
  }

  function HoldsPair(i: Input): bool {
    i == StartSucceeds || i == TimerExpires(false)
  }

  /** The starts and stops of one iteration. A channel client that has ended is dropped after its bridge is down. */
  function Does(s: State, i: Input): seq<Call<()>> {
    if i == StartSucceeds then [Launch(BRIDGE, ()), Launch(CLIENT, ())]
    else if s.Running? && i == ShutdownSignal then [Stop(CLIENT, s.client), Stop(BRIDGE, s.bridge)]
    else if s.Running? && i == TimerExpires(true) then [Stop(BRIDGE, s.bridge), Stop(CLIENT, s.client)]
    else []
  }

  class Runner {
    var state: State
    var log: seq<Call<()>>

    /** How long the log was at each attempt to start a pair. */
    ghost var attempts: seq<nat>

    /** The tasks alive are those of the pair the state holds, and there was none alive at any attempt. */
    ghost predicate Valid() reads this {
      && WellFormed(log)
      && AliveAt(log, |log|) == Pair(state)
      && forall a | a in attempts :: a <= |log| && AliveAt(log, a) == map[]
    }

    ghost function Pair(s: State): map<Name, Service<()>> {
      if s.Running? then map[BRIDGE := Service((), s.bridge), CLIENT := Service((), s.client)] else map[]
    }

    constructor ()
      ensures Valid() && state == Starting && log == [] && attempts == []
    {
      state, log, attempts := Starting, [], [];
    }

    method LogOne(c: Call<()>)
      requires WellFormed(log)
      requires forall a | a in attempts :: a <= |log| && AliveAt(log, a) == map[]
      requires if c.Launch? then c.name !in AliveAt(log, |log|)
               else c.name in AliveAt(log, |log|) && AliveAt(log, |log|)[c.name].task == c.task
      modifies this`log
      ensures log == old(log) + [c] && WellFormed(log)
      ensures forall a | a in attempts :: a <= |log| && AliveAt(log, a) == map[]
      ensures AliveAt(log, |log|) == if c.Launch? then AliveAt(old(log), |old(log)|)[c.name := Service((), |old(log)|)]
                                     else AliveAt(old(log), |old(log)|) - {c.name}
    {
      LogCall(log, c);
      forall a | a in attempts ensures AliveAt(log + [c], a) == map[] {
        AlivePrefix(log, [c], a);
      }
      assert c.Launch? ==> c.config == ();
      log := log + [c];
    }

    /** start_client_services: the bridge first, then the channel client, or neither. */
    method StartServices(ok: bool) returns (bridge: nat, client: nat)
      requires Valid() && state == Invalid
      modifies this`log, this`attempts
      ensures WellFormed(log) && attempts == old(attempts) + [|old(log)|]
      ensures forall a | a in attempts :: a <= |log| && AliveAt(log, a) == map[]
      ensures AliveAt(log, |log|) == if ok then Pair(Running(bridge, client)) else map[]
      ensures log == old(log) + if ok then [Launch(BRIDGE, ()), Launch(CLIENT, ())] else []
    {
      attempts := attempts + [|log|];
      bridge, client := |log|, |log| + 1;
      if ok {
        LogOne(Launch(BRIDGE, ()));
        LogOne(Launch(CLIENT, ()));
      }
    }

    /** One iteration: the state is taken out and, if the loop goes on, put back. */
    method Iterate(i: Input) returns (running: bool)
      requires Valid() && Possible(state, i)
      modifies this
      ensures Valid() && running == GoesOn(i)
      ensures running ==> state != Invalid && (state.Running? <==> HoldsPair(i))
      ensures i == TimerExpires(false) ==> state == old(state)
      ensures log == old(log) + Does(old(state), i)
      ensures i == StartSucceeds ==> log == old(log) + [Launch(BRIDGE, ()), Launch(CLIENT, ())]
      ensures old(state).Running? && i == TimerExpires(true) ==>
                log == old(log) + [Stop(BRIDGE, old(state).bridge), Stop(CLIENT, old(state).client)]
      ensures old(state).Running? && i == ShutdownSignal ==>
                log == old(log) + [Stop(CLIENT, old(state).client), Stop(BRIDGE, old(state).bridge)]
      ensures (i.StartFails? || i == TimerExpires(false)) ==> log == old(log)
      ensures attempts == old(attempts) + if old(state) == Starting then [|old(log)|] else []
      ensures !running ==> state == Invalid && AliveAt(log, |log|) == map[]
    {
      var taken := state;
      state, running := Invalid, true;
      match taken
      case Starting =>
        var bridge, client := StartServices(i == StartSucceeds);
        if i == StartSucceeds {
          state := Running(bridge, client);
        } else if i == StartFails(true) {
          running := false;
        } else {
          state := Starting;
        }
      case Running(bridge, client) =>
        if i == ShutdownSignal {
          LogOne(Stop(CLIENT, client));
          LogOne(Stop(BRIDGE, bridge));
          running := false;
        } else if i == TimerExpires(true) {
          LogOne(Stop(BRIDGE, bridge));
          LogOne(Stop(CLIENT, client));
          state := Starting;
        } else {
          state := taken;
        }
    }

    /** The loop, over any inputs that are possible when they come: it goes on, and tries a failed start again, until a
        shutdown; the placeholder state is never found; a start is attempted for each input that says how one went, only
        when nothing of an earlier pair is left, and starts one bridge and one channel client if it succeeds; and after
        the loop every bridge and every channel client ever started has been stopped, exactly once. */
    method Run(inputs: seq<Input>) returns (used: nat)
      requires Valid() && state == Starting && log == [] && attempts == []
      modifies this
      ensures Valid() && used <= |inputs|
      ensures used < |inputs| && state != Invalid ==> !Possible(state, inputs[used])
      ensures forall k | 0 <= k < used - 1 :: !ShutsDown(inputs[k])
      ensures state == Invalid <==> used > 0 && ShutsDown(inputs[used - 1])
      ensures state.Running? <==>
                used > 0 && (inputs[used - 1] == StartSucceeds || inputs[used - 1] == TimerExpires(false))
      ensures |attempts| == CountIn(inputs, used, IsAttempt)
      ensures Count(log, Starts(BRIDGE)) == Count(log, Starts(CLIENT)) == CountIn(inputs, used, Succeeds)
      ensures state == Invalid ==>
          forall t | 0 <= t < |log| && log[t].Launch? ::
            exists j :: Stops(log, t, j) && forall k | Stops(log, t, k) :: k == j
    {
      used := 0;
      var running := true;
      while running && used < |inputs| && Possible(state, inputs[used])
        invariant Valid() && used <= |inputs|
        invariant running <==> state != Invalid
        invariant forall k | 0 <= k < used - 1 :: !ShutsDown(inputs[k])
        invariant state == Invalid <==> used > 0 && ShutsDown(inputs[used - 1])
        invariant state.Running? <==>
                    used > 0 && (inputs[used - 1] == StartSucceeds || inputs[used - 1] == TimerExpires(false))
        invariant |attempts| == CountIn(inputs, used, IsAttempt)
        invariant Count(log, Starts(BRIDGE)) == Count(log, Starts(CLIENT)) == CountIn(inputs, used, Succeeds)
        decreases |inputs| - used
      {
        DoesCounts(log, state, inputs[used]);
        running := Iterate(inputs[used]);
        used := used + 1;
      }
      if state == Invalid {
        AllStoppedOnce(log);
      }
    }
  }

  // ---- What the inputs say ----

  predicate ShutsDown(i: Input) {
    i == StartFails(true) || i == ShutdownSignal
  }

  function IsAttempt(i: Input): bool {
    i.StartFails? || i.StartSucceeds?
  }

  function Succeeds(i: Input): bool {
    i == StartSucceeds
  }

  function Starts(n: Name): Call<()> -> bool {
    (c: Call<()>) => c.Launch? && c.name == n
  }

  lemma DoesCounts(log: seq<Call<()>>, s: State, i: Input)
    requires Possible(s, i)
    ensures Count(log + Does(s, i), Starts(BRIDGE)) == Count(log, Starts(BRIDGE)) + if Succeeds(i) then 1 else 0
    ensures Count(log + Does(s, i), Starts(CLIENT)) == Count(log, Starts(CLIENT)) + if Succeeds(i) then 1 else 0
  {
    CountConcat(log, Does(s, i), Starts(BRIDGE));
    CountConcat(log, Does(s, i), Starts(CLIENT));
    if Does(s, i) != [] {
      var a, b := Does(s, i)[0], Does(s, i)[1];
      assert Does(s, i) == [a] + [b];
      CountConcat([a], [b], Starts(BRIDGE));
      CountConcat([a], [b], Starts(CLIENT));
      CountOne(a, Starts(BRIDGE));
      CountOne(b, Starts(BRIDGE));
      CountOne(a, Starts(CLIENT));
      CountOne(b, Starts(CLIENT));
    }
  }

  lemma AllStoppedOnce(log: seq<Call<()>>)
    requires WellFormed(log) && AliveAt(log, |log|) == map[]
    ensures forall t | 0 <= t < |log| && log[t].Launch? ::
              exists j :: Stops(log, t, j) && forall k | Stops(log, t, k) :: k == j
  {
    forall t | 0 <= t < |log| && log[t].Launch?
      ensures exists j :: Stops(log, t, j) && forall k | Stops(log, t, k) :: k == j
    {
      EveryTaskStopped(log, t);
      var j :| Stops(log, t, j);
      forall k | Stops(log, t, k) ensures k == j {
        StoppedOnce(log, t, j, k);
      }
    }
  }
}
