/** Logs of launches and stops. Whoever starts tasks and owns them writes such a log; a task is named by the position
    of the call that launched it. */
module LaunchLog {
  import opened Names
  import opened Seqs

  datatype Call<C> = Launch(name: Name, config: C) | Stop(name: Name, task: nat)

  datatype Service<C> = Service(config: C, task: nat)

  // ---- What a log means ----

  /** The services alive after the first `k` calls. */
  ghost function AliveAt<C>(log: seq<Call<C>>, k: nat): map<Name, Service<C>>
    requires k <= |log|
  {
    if k == 0 then map[] else
      match log[k - 1]
      case Launch(n, config) => AliveAt(log, k - 1)[n := Service(config, k - 1)]
      case Stop(n, _) => AliveAt(log, k - 1) - {n}
  }

  ghost predicate CallOk<C>(log: seq<Call<C>>, k: nat)
    requires k < |log|
  {
    match log[k]
    case Launch(n, _) => n !in AliveAt(log, k)
    case Stop(n, task) => n in AliveAt(log, k) && AliveAt(log, k)[n].task == task
  }

  /** A name is launched only when it is not alive, and only the task alive under a name is stopped. */
  ghost predicate WellFormed<C>(log: seq<Call<C>>) {
    forall k {:trigger CallOk(log, k)} | 0 <= k < |log| :: CallOk(log, k)
  }

  lemma {:induction false} AlivePrefix<C>(log: seq<Call<C>>, more: seq<Call<C>>, k: nat)
    requires k <= |log|
    ensures AliveAt(log + more, k) == AliveAt(log, k)
  {
    if k > 0 {
      AlivePrefix(log, more, k - 1);
    }
  }

  lemma LogCall<C>(log: seq<Call<C>>, c: Call<C>)
    requires WellFormed(log)
    requires match c
      case Launch(n, _) => n !in AliveAt(log, |log|)
      case Stop(n, task) => n in AliveAt(log, |log|) && AliveAt(log, |log|)[n].task == task
    ensures WellFormed(log + [c])
    ensures AliveAt(log + [c], |log| + 1) == match c
      case Launch(n, config) => AliveAt(log, |log|)[n := Service(config, |log|)]
      case Stop(n, _) => AliveAt(log, |log|) - {n}
  {
    AlivePrefix(log, [c], |log|);
    forall k | 0 <= k < |log + [c]| ensures CallOk(log + [c], k) {
      AlivePrefix(log, [c], k);
      assert k < |log| ==> CallOk(log, k);
    }
  }

  function Of<C>(n: Name): Call<C> -> bool {
    (c: Call<C>) => c.name == n
  }

  function IsLaunch<C>(c: Call<C>): bool {
    c.Launch?
  }

  /** The calls about one name: true for a launch, false for a stop. */
  function CallsOf<C>(log: seq<Call<C>>, n: Name): seq<bool> {
    Pick(log, Of(n), IsLaunch)
  }

  predicate Alternating(b: seq<bool>) {
    forall i | 0 <= i < |b| :: b[i] == (i % 2 == 0)
  }

  /** The calls about each name alternate launch, stop, launch, stop; the name is alive after every launch. */
  lemma {:induction false} CallsAlternate<C>(log: seq<Call<C>>, k: nat, n: Name)
    requires k <= |log| && WellFormed(log)
    ensures var b := PickIn(log, k, Of(n), IsLaunch);
      Alternating(b) && (n in AliveAt(log, k) <==> |b| % 2 == 1)
  {
    if k > 0 {
      CallsAlternate(log, k - 1, n);
      assert CallOk(log, k - 1);
    }
  }

  /** A task alive under a name was launched under it, and no call about the name has come since. */
  lemma {:induction false} AliveSince<C>(log: seq<Call<C>>, k: nat, n: Name)
    requires k <= |log| && n in AliveAt(log, k)
    ensures var s := AliveAt(log, k)[n];
      s.task < k && log[s.task] == Launch(n, s.config) && forall j | s.task < j < k :: log[j].name != n
  {
    if log[k - 1].name != n {
      AliveSince(log, k - 1, n);
    }
  }

  ghost predicate Stops<C>(log: seq<Call<C>>, task: nat, j: nat)
    requires task < |log|
  {
    task < j < |log| && log[j] == Stop(log[task].name, task)
  }

  /** When nothing is left alive, every task ever launched has been stopped. */
  lemma EveryTaskStopped<C>(log: seq<Call<C>>, task: nat)
    requires WellFormed(log) && AliveAt(log, |log|) == map[]
    requires task < |log| && log[task].Launch?
    ensures exists j :: Stops(log, task, j)
  {
    var k := task + 1;
    while !Stops(log, task, k)
      invariant task < k <= |log|
      invariant log[task].name in AliveAt(log, k) && AliveAt(log, k)[log[task].name].task == task
      decreases |log| - k
    {
      assert k < |log| && CallOk(log, k);
      k := k + 1;
    }
  }

  /** No task is stopped twice. */
  lemma StoppedOnce<C>(log: seq<Call<C>>, task: nat, j1: nat, j2: nat)
    requires WellFormed(log) && task < |log| && Stops(log, task, j1) && Stops(log, task, j2)
    ensures j1 == j2
  {
    assert CallOk(log, j1) && CallOk(log, j2);
    AliveSince(log, j1, log[task].name);
    AliveSince(log, j2, log[task].name);
  }

  /** Two tasks of one name are never alive together: the first is stopped before the second is launched. */
  lemma NeverTwoAtOnce<C>(log: seq<Call<C>>, t1: nat, t2: nat)
    requires WellFormed(log) && t1 < t2 < |log| && log[t1].Launch? && log[t2].Launch? && log[t1].name == log[t2].name
    ensures exists j :: t1 < j < t2 && Stops(log, t1, j)
  {
    var n, k := log[t1].name, t1 + 1;
    while !Stops(log, t1, k)
      invariant t1 < k <= t2
      invariant n in AliveAt(log, k) && AliveAt(log, k)[n].task == t1
      decreases t2 - k
    {
      assert CallOk(log, k);
      k := k + 1;
    }
    assert log[t2] != log[k];
  }
}
