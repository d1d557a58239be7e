/** The table of pending requests, said without a table: from the bytes and the times of what happened so far, which
    request a message that comes back now answers. */
module History {
  import opened Codec
  import opened PendingTable

  /** What happened in a turn, as far as requests and replies go. */
  datatype What<O> = Asked(msg: Message, owner: O) | CameBack(msg: Message) | Nothing

  datatype Beat<O> = Beat(what: What<O>, at: nat, now: nat)

  /** The two bytes that make up the id. */
  predicate SameHead(a: Message, b: Message) {
    a[..2] == b[..2]
  }

  /** A request was made in beat `o`, no message with its first two bytes came back between it and beat `k`, and every
      sweep since found it young. */
  ghost predicate Waits<O>(beats: seq<Beat<O>>, timeout: nat, o: nat, k: nat)
    requires k <= |beats|
  {
    && o < k && beats[o].what.Asked?
    && (forall j | o < j < k :: !(beats[j].what.CameBack? && SameHead(beats[j].what.msg, beats[o].what.msg)))
    && forall j | o <= j < k :: beats[o].at <= beats[j].now < beats[o].at + timeout
  }

  /** The request of beat `o` is the one remembered for its first two bytes: no earlier one was still waiting. */
  ghost predicate Remembered<O>(beats: seq<Beat<O>>, timeout: nat, o: nat)
    requires o < |beats|
    decreases o
  {
    beats[o].what.Asked? && forall p: nat | p < o ::
      !(Remembered(beats, timeout, p) && Waits(beats, timeout, p, o) && SameHead(beats[p].what.msg, beats[o].what.msg))
  }

  /** The request that a message coming back after the first `k` beats answers. */
  ghost predicate Answerable<O>(beats: seq<Beat<O>>, timeout: nat, o: nat, k: nat, msg: Message)
    requires k <= |beats|
  {
    o < k && Remembered(beats, timeout, o) && Waits(beats, timeout, o, k) && SameHead(beats[o].what.msg, msg)
  }

  // ---- The table follows the history ----

  function TickOfBeat<O>(b: Beat<O>): Tick<O> {
    Tick(match b.what
         case Asked(m, owner) => Open(Id(m), owner)
         case CameBack(m) => Close(Id(m))
         case Nothing => Skip, b.at, b.now)
  }

  ghost predicate TicksOf<O>(ticks: seq<Tick<O>>, beats: seq<Beat<O>>) {
    |ticks| == |beats| && forall i | 0 <= i < |ticks| :: ticks[i] == TickOfBeat(beats[i])
  }

  lemma WaitsIff<O>(ticks: seq<Tick<O>>, beats: seq<Beat<O>>, timeout: nat, o: nat, k: nat)
    requires TicksOf(ticks, beats) && o < k <= |beats| && beats[o].what.Asked?
    ensures Waits(beats, timeout, o, k) <==> Outlives(ticks, timeout, o, k, Id(beats[o].what.msg))
  {
    forall j: nat | o <= j < k
      ensures ticks[j].op == Close(Id(beats[o].what.msg))
         <==> beats[j].what.CameBack? && SameHead(beats[j].what.msg, beats[o].what.msg)
    {
      if beats[j].what.CameBack? {
        SameIdIff(beats[j].what.msg, beats[o].what.msg);
      }
    }
  }

  lemma {:induction false} RememberedIff<O>(ticks: seq<Tick<O>>, beats: seq<Beat<O>>, timeout: nat, o: nat)
    requires TicksOf(ticks, beats) && o < |beats|
    ensures Remembered(beats, timeout, o) <==> Claims(ticks, timeout, o)
    decreases o
  {
    if beats[o].what.Asked? {
      forall p: nat | p < o
        ensures (Remembered(beats, timeout, p) && Waits(beats, timeout, p, o)
                 && SameHead(beats[p].what.msg, beats[o].what.msg))
           <==> (Claims(ticks, timeout, p) && Outlives(ticks, timeout, p, o, Id(beats[o].what.msg)))
      {
        RememberedIff(ticks, beats, timeout, p);
        if beats[p].what.Asked? {
          SameIdIff(beats[p].what.msg, beats[o].what.msg);
          WaitsIff(ticks, beats, timeout, p, o);
        }
      }
    }
  }

  lemma AnswerableIff<O>(ticks: seq<Tick<O>>, beats: seq<Beat<O>>, timeout: nat, o: nat, k: nat, msg: Message)
    requires TicksOf(ticks, beats) && k <= |beats|
    ensures Answerable(beats, timeout, o, k, msg) <==> Held(ticks, timeout, o, k, Id(msg))
  {
    if o < k {
      RememberedIff(ticks, beats, timeout, o);
      if beats[o].what.Asked? {
        WaitsIff(ticks, beats, timeout, o, k);
        SameIdIff(beats[o].what.msg, msg);
      }
    }
  }

  /** An id is pending exactly when a request with its two bytes can be answered, and belongs to whoever made it. */
  lemma TableByHistory<O>(ticks: seq<Tick<O>>, beats: seq<Beat<O>>, timeout: nat, k: nat, msg: Message)
    requires TicksOf(ticks, beats) && k <= |beats|
    ensures Id(msg) in At(ticks, timeout, k) <==> exists o: nat :: Answerable(beats, timeout, o, k, msg)
    ensures forall o: nat | Answerable(beats, timeout, o, k, msg) ::
              Id(msg) in At(ticks, timeout, k)
              && At(ticks, timeout, k)[Id(msg)] == Entry(beats[o].at, beats[o].what.owner)
  {
    TableIff(ticks, timeout, k, Id(msg));
    forall o: nat
      ensures Answerable(beats, timeout, o, k, msg) <==> Held(ticks, timeout, o, k, Id(msg))
    {
      AnswerableIff(ticks, beats, timeout, o, k, msg);
    }
  }

  /** A request collides exactly when an earlier one with the same first two bytes can still be answered. */
  lemma CollidesByHistory<O>(ticks: seq<Tick<O>>, beats: seq<Beat<O>>, timeout: nat, k: nat, msg: Message, owner: O)
    requires TicksOf(ticks, beats) && k <= |beats|
    ensures FateOf(Open(Id(msg), owner), At(ticks, timeout, k)) == Colliding
       <==> exists o: nat :: Answerable(beats, timeout, o, k, msg)
  {
    TableByHistory(ticks, beats, timeout, k, msg);
  }
}
