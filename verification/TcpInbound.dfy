/** What a TCP forwarder reads from one connection. Every iteration of its loop makes a new reader, so what a reader has
    consumed when another branch of the select comes first is gone. */
module TcpInbound {
  import opened Codec

  /** `intact` says that no iteration was cut after a byte. */
  datatype Inbound = Inbound(received: seq<byte>, unread: seq<byte>, ended: bool, handed: seq<Message>, intact: bool)

  const FRESH := Inbound([], [], false, [], true)

  function Arrives(i: Inbound, data: seq<byte>): Inbound {
    if i.ended then i else i.(received := i.received + data, unread := i.unread + data)
  }

  function Report(i: Inbound): Outcome {
    ReadOne(0, i.unread).outcome
  }

  /** A reader that has not got all its bytes waits, unless there are none to come. */
  predicate CanComplete(i: Inbound) {
    !Report(i).UnexpectedEof? || i.ended
  }

  /** A completed read, its message handed on if the bridge takes it. */
  function ReadNext(i: Inbound, sendOk: bool): Inbound {
    var r := ReadOne(0, i.unread);
    i.(unread := r.rest, handed := i.handed + if r.outcome.Received? && sendOk then [r.outcome.msg] else [])
  }

  /** An iteration is cut after its reader has consumed `c` bytes. */
  function CutAfter(i: Inbound, c: nat): Inbound
    requires CanAbandon(0, i.unread, c)
  {
    i.(unread := i.unread[c..], intact := i.intact && c == 0)
  }

  // ---- What is handed on ----

  /** The messages handed on are the first the peer sent. */
  predicate Follows(i: Inbound) {
    i.handed <= DecodeAll(i.received)
  }

  /** The reader stands right behind the messages handed on. */
  predicate InStep(i: Inbound) {
    AllFit(i.handed) && i.received == EncodeAll(i.handed) + i.unread
  }

  lemma InStepFollows(i: Inbound)
    requires InStep(i)
    ensures Follows(i)
  {
    DecodeAfterEncode(i.handed, i.unread);
  }

  lemma FreshInStep()
    ensures InStep(FRESH)
  {
    assert EncodeAll([]) + [] == [];
  }

  lemma ArrivesInStep(i: Inbound, data: seq<byte>)
    requires InStep(i)
    ensures InStep(Arrives(i, data))
  {
    Regroup(EncodeAll(i.handed), i.unread, data);
  }

  lemma ReadInStep(i: Inbound)
    requires InStep(i) && Report(i).Received?
    ensures InStep(ReadNext(i, true))
  {
    var r := ReadOne(0, i.unread);
    ReadReencoded(i.unread);
    ReceivedFits(i.unread);
    EncodeAllAppend(i.handed, r.outcome.msg);
    Regroup(EncodeAll(i.handed), Encode(r.outcome.msg), r.rest);
  }

  lemma ReceivedFits(s: seq<byte>)
    requires ReadOne(0, s).outcome.Received?
    ensures Fits(ReadOne(0, s).outcome.msg)
  {
  }

  lemma CutInStep(i: Inbound)
    requires InStep(i)
    ensures CutAfter(i, 0) == i
  {
    assert i.unread[0..] == i.unread;
  }

  // ---- What a cut can do ----

  /** A message from which, once the first `c` bytes of its frame are lost, another message is read. */
  function Misread(c: nat): (m: Message)
    requires c == 1 || c == 2
    ensures Fits(m) && |Encode(m)| > c
  {
    if c == 1 then [2] + Zeros(255) else [0, 2, 0, 0]
  }

  lemma MisreadIsRead(c: nat)
    requires c == 1 || c == 2
    ensures var r := ReadOne(0, Encode(Misread(c))[c..]); r.outcome == Received([0, 0]) && Misread(c) != [0, 0]
    ensures DecodeAll(Encode(Misread(c))) == [Misread(c)]
    ensures CanAbandon(0, Encode(Misread(c))[..c], c)
  {
    var m := Misread(c);
    RoundTripExactlyWhenFits(m);
    var rest := Encode(m)[c..];
    assert LengthPrefix(256) == [1, 0] && LengthPrefix(4) == [0, 4];
    assert rest[0] == 0 && rest[1] == 2 && rest[2] == rest[3] == 0;
    assert rest[2..][..2] == [0, 0];
  }
}
