/** The wrapper that owns a spawned task: its shutdown signal goes out at most once, its handle is joined at most once,
    and dropping it signals the task. */
module Tasks {

  /** `sender` and `handle` say which halves the wrapper still owns; `signals` and `joins` count what it did with them.
      `done` is the flag the task stores when its shutdown handle is dropped. */
  datatype Wrapper = Wrapper(sender: bool, handle: bool, done: bool, signals: nat, joins: nat)

  /** Waiting can be abandoned, because callers wait inside a select. */
  datatype Op = Shutdown | Wait(finishes: bool) | Drop | TaskEnds

  datatype Answer = Joined | AlreadyShutDown | NothingToWaitFor | Abandoned | NoAnswer

  const STARTED := Wrapper(true, true, false, 0, 0)

  function Next(w: Wrapper, op: Op): (Wrapper, Answer) {
    match op
    case Shutdown =>
      if w.sender then
        var w' := w.(sender := false, signals := w.signals + 1);
        if w.handle then (w'.(handle := false, done := true, joins := w.joins + 1), Joined)
        else (w', AlreadyShutDown)
      else (w, AlreadyShutDown)
    case Wait(finishes) =>
      if !w.handle then (w, NothingToWaitFor)
      else if finishes then (w.(handle := false, done := true, joins := w.joins + 1), Joined)
      else (w, Abandoned)
    case Drop => (w.(sender := false, handle := false, signals := w.signals + if w.sender then 1 else 0), NoAnswer)
    case TaskEnds => (w.(done := true), NoAnswer)
  }

  ghost function Run(ops: seq<Op>, k: nat): Wrapper
    requires k <= |ops|
  {
    if k == 0 then STARTED else Next(Run(ops, k - 1), ops[k - 1]).0
  }

  ghost function AnswerAt(ops: seq<Op>, k: nat): Answer
    requires k < |ops|
  {
    Next(Run(ops, k), ops[k]).1
  }

  ghost predicate Ok(w: Wrapper) {
    && w.signals == (if w.sender then 0 else 1)
    && w.joins <= 1 && (w.handle ==> w.joins == 0)
    && (!w.sender ==> !w.handle)
    && (w.joins == 1 ==> w.done)
  }

  /** Over any use: one signal at most, one join at most, no handle without a sender, and a joined task has ended. */
  lemma {:induction false} RunOk(ops: seq<Op>, k: nat)
    requires k <= |ops|
    ensures Ok(Run(ops, k))
  {
    if k > 0 {
      RunOk(ops, k - 1);
    }
  }

  lemma {:induction false} DoneStays(ops: seq<Op>, j: nat, k: nat)
    requires j <= k <= |ops| && Run(ops, j).done
    ensures Run(ops, k).done
    decreases k
  {
    if j < k {
      DoneStays(ops, j, k - 1);
    }
  }

  /** What takes the handle away. */
  predicate TakesHandle(op: Op) {
    op == Shutdown || op == Drop || op == Wait(true)
  }

  lemma {:induction false} HandleHeld(ops: seq<Op>, k: nat)
    requires k <= |ops|
    ensures Run(ops, k).handle <==> forall j | 0 <= j < k :: !TakesHandle(ops[j])
  {
    if k > 0 {
      HandleHeld(ops, k - 1);
      RunOk(ops, k - 1);
    }
  }

  /** A shutdown returns the task's result exactly when it is the first call to get it: no shutdown, drop, or completed
      wait came before. A first shutdown after a completed wait still signals, but reports that it came too late. */
  lemma ShutdownJoinsIff(ops: seq<Op>, k: nat)
    requires k < |ops| && ops[k] == Shutdown
    ensures AnswerAt(ops, k) == Joined <==> forall j | 0 <= j < k :: !TakesHandle(ops[j])
    ensures Run(ops, k + 1).signals == 1
  {
    RunOk(ops, k);
    RunOk(ops, k + 1);
    HandleHeld(ops, k);
  }

  /** What takes the sender away. */
  predicate TakesSender(op: Op) {
    op == Shutdown || op == Drop
  }

  /** The signal goes out with the first shutdown or drop. */
  lemma {:induction false} SignalledIff(ops: seq<Op>, k: nat)
    requires k <= |ops|
    ensures Run(ops, k).signals == if exists j :: 0 <= j < k && TakesSender(ops[j]) then 1 else 0
    ensures Run(ops, k).sender <==> forall j | 0 <= j < k :: !TakesSender(ops[j])
  {
    if k > 0 {
      SignalledIff(ops, k - 1);
      RunOk(ops, k - 1);
    }
  }

  /** A wait finds nothing once the handle is gone; otherwise it returns the task's result if the task ends while it
      waits, and can be tried again if it does not. */
  lemma WaitAnswers(ops: seq<Op>, k: nat)
    requires k < |ops| && ops[k].Wait?
    ensures AnswerAt(ops, k) == NothingToWaitFor <==> exists j :: 0 <= j < k && TakesHandle(ops[j])
    ensures AnswerAt(ops, k) == Joined <==> ops[k].finishes && forall j | 0 <= j < k :: !TakesHandle(ops[j])
    ensures AnswerAt(ops, k) == Abandoned <==> !ops[k].finishes && forall j | 0 <= j < k :: !TakesHandle(ops[j])
    ensures Run(ops, k + 1).signals == Run(ops, k).signals
  {
    HandleHeld(ops, k);
  }

  /** A shutdown after which there is nothing to join says that it came too late. */
  lemma ShutdownAnswers(ops: seq<Op>, k: nat)
    requires k < |ops| && ops[k] == Shutdown
    ensures AnswerAt(ops, k) == AlreadyShutDown <==> exists j :: 0 <= j < k && TakesHandle(ops[j])
  {
    ShutdownJoinsIff(ops, k);
  }

  /** A task is known to have ended exactly if it ended by itself or was joined. */
  lemma {:induction false} DoneIff(ops: seq<Op>, k: nat)
    requires k <= |ops|
    ensures Run(ops, k).done <==> exists j: nat :: j < k && EndsTask(ops, j)
  {
    if k > 0 {
      DoneIff(ops, k - 1);
      DoneNext(ops, k - 1);
    }
  }

  ghost predicate EndsTask(ops: seq<Op>, j: nat)
    requires j < |ops|
  {
    ops[j] == TaskEnds || AnswerAt(ops, j) == Joined
  }

  lemma DoneNext(ops: seq<Op>, k: nat)
    requires k < |ops|
    ensures Run(ops, k + 1).done <==> Run(ops, k).done || EndsTask(ops, k)
  {
  }

  class TaskWrapper {
    var shutdown: bool
    var task: bool
    var done: bool
    ghost var signals: nat
    ghost var joins: nat

    ghost function View(): Wrapper reads this {
      Wrapper(shutdown, task, done, signals, joins)
    }

    ghost predicate Valid() reads this {
      Ok(View())
    }

    constructor ()
      ensures Valid() && View() == STARTED
    {
      shutdown, task, done, signals, joins := true, true, false, 0, 0;
    }

    /** Awaiting the handle returns when the task has ended, and with it its shutdown handle. */
    method Join()
      requires task && joins == 0
      modifies this`task, this`joins, this`done
      ensures !task && joins == 1 && done
    {
      task, joins, done := false, joins + 1, true;
    }

    method Shutdown() returns (a: Answer)
      requires Valid()
      modifies this
      ensures Valid() && (View(), a) == Next(old(View()), Op.Shutdown)
    {
      a := AlreadyShutDown;
      if shutdown {
        shutdown, signals := false, signals + 1;
        if task {
          Join();
          a := Joined;
        }
      }
    }

    method Wait(finishes: bool) returns (a: Answer)
      requires Valid()
      modifies this
      ensures Valid() && (View(), a) == Next(old(View()), Op.Wait(finishes))
    {
      if task {
        if finishes {
          Join();
          a := Joined;
        } else {
          a := Abandoned;
        }
      } else {
        a := NothingToWaitFor;
      }
    }

    method DropWrapper()
      requires Valid()
      modifies this
      ensures Valid() && View() == Next(old(View()), Op.Drop).0
    {
      if shutdown {
        shutdown, signals := false, signals + 1;
      }
      task := false;
    }

    /** The task's own half: dropping the shutdown handle stores the flag. */
    method DropShutdownHandle()
      requires Valid()
      modifies this
      ensures Valid() && View() == Next(old(View()), TaskEnds).0
    {
      done := true;
    }
  }
}
