/** DNS messages and their length-prefixed framing on a byte stream
    (RFC 1035, section 4.1.1 for the id and section 4.2.2 for the prefix). */
module Codec {

  type byte = x: int | 0 <= x < 256
  type u16 = x: int | 0 <= x < 0x1_0000

  /** A message only comes into being through TryNew, so it always has room for its id. */
  type Message = m: seq<byte> | 2 <= |m| witness [0, 0]

  /** What one call of the reader reports. */
  datatype Outcome = Received(msg: Message) | NotEnoughData | UnexpectedEof

  /** The report, the latched length and the unread bytes after one call of the reader. */
  datatype ReadStep = ReadStep(outcome: Outcome, len: u16, rest: seq<byte>)

  function FromBe(hi: byte, lo: byte): u16 {
    hi * 256 + lo
  }

  /** The cast to u16 truncates before the bytes are taken. */
  function LengthPrefix(n: nat): seq<byte> {
    [n % 0x1_0000 / 256, n % 256]
  }

  function Id(m: Message): u16 {
    FromBe(m[0], m[1])
  }

  function TryNew(data: seq<byte>): Outcome {
    if |data| >= 2 then Received(data) else NotEnoughData
  }

  lemma HiThenLo(n: u16, hi: byte, lo: byte)
    ensures n == FromBe(hi, lo) <==> hi == n / 256 && lo == n % 256
  {
  }

  /** The id is made of the first two bytes, and of nothing else. */
  lemma SameIdIff(a: Message, b: Message)
    ensures Id(a) == Id(b) <==> a[..2] == b[..2]
  {
    HiThenLo(Id(b), a[0], a[1]);
    HiThenLo(Id(b), b[0], b[1]);
    assert a[..2] == [a[0], a[1]] && b[..2] == [b[0], b[1]];
  }

  /** The first of them counts for more: the order is big-endian. */
  lemma IdOrder(a: Message, b: Message)
    ensures a[0] < b[0] ==> Id(a) < Id(b)
    ensures a[0] == b[0] ==> Id(b) as int - Id(a) as int == b[1] as int - a[1] as int
  {
  }

  /** Every 16-bit number is an id. */
  lemma EveryId(n: u16)
    ensures exists m: Message :: Id(m) == n
  {
    var m: Message := [n / 256, n % 256];
    HiThenLo(n, m[0], m[1]);
    assert Id(m) == n;
  }

  predicate Fits(m: Message) {
    |m| < 0x1_0000
  }

  predicate AllFit(ms: seq<Message>) {
    forall m | m in ms :: Fits(m)
  }

  function Encode(m: Message): seq<byte> {
    LengthPrefix(|m|) + m
  }

  function EncodeAll(ms: seq<Message>): seq<byte> {
    if ms == [] then [] else Encode(ms[0]) + EncodeAll(ms[1..])
  }

  /** One uninterrupted call of the reader: `len` is the length latched by an earlier call, or 0.
      A failed read_exact leaves nothing unread. */
  function ReadOne(len: u16, s: seq<byte>): ReadStep {
    if len == 0 && |s| < 2 then ReadStep(UnexpectedEof, 0, [])
    else
      var n := if len == 0 then FromBe(s[0], s[1]) else len;
      var body := if len == 0 then s[2..] else s;
      if |body| < n then ReadStep(UnexpectedEof, n, [])
      else ReadStep(TryNew(body[..n]), 0, body[n..])
  }

  /** The messages the reader returns before its first error. */
  function DecodeFrom(len: u16, s: seq<byte>): seq<Message>
    decreases |s|
  {
    var r := ReadOne(len, s);
    if r.outcome.Received? then [r.outcome.msg] + DecodeFrom(r.len, r.rest) else []
  }

  function DecodeAll(s: seq<byte>): seq<Message> {
    DecodeFrom(0, s)
  }

  /** A frame is the length in two bytes, the high one first, and then the message. */
  lemma FrameLayout(m: Message)
    requires Fits(m)
    ensures Encode(m)[0] as int * 256 + Encode(m)[1] as int == |m| && Encode(m)[2..] == m
  {
  }

  // ---- Round trips ----

  lemma PrefixOfBe(hi: byte, lo: byte)
    ensures LengthPrefix(FromBe(hi, lo)) == [hi, lo]
  {
    var n := FromBe(hi, lo);
    assert n % 256 == lo;
    assert n % 0x1_0000 == n && n / 256 == hi;
  }

  lemma PrefixOfFrame(m: Message, tail: seq<byte>)
    requires Fits(m)
    ensures var s := Encode(m) + tail;
      |s| >= 2 && FromBe(s[0], s[1]) == |m| && s[2..] == m + tail
  {
    var s := Encode(m) + tail;
    assert s[0] == |m| / 256 && s[1] == |m| % 256;
  }

  lemma ReadEncoded(m: Message, tail: seq<byte>)
    requires Fits(m)
    ensures ReadOne(0, Encode(m) + tail) == ReadStep(Received(m), 0, tail)
  {
    PrefixOfFrame(m, tail);
    assert (m + tail)[..|m|] == m && (m + tail)[|m|..] == tail;
  }

  lemma Regroup<T>(a: seq<T>, b: seq<T>, c: seq<T>)
    ensures (a + b) + c == a + (b + c)
  {
  }

  /** The reader recovers every message written before `tail`, whatever `tail` is. */
  lemma {:induction false} DecodeAfterEncode(ms: seq<Message>, tail: seq<byte>)
    requires AllFit(ms)
    ensures DecodeAll(EncodeAll(ms) + tail) == ms + DecodeAll(tail)
  {
    if ms == [] {
      assert EncodeAll(ms) + tail == tail;
    } else {
      var rest := EncodeAll(ms[1..]) + tail;
      ReadEncoded(ms[0], rest);
      DecodeAfterEncode(ms[1..], tail);
      calc {
        DecodeAll(EncodeAll(ms) + tail);
        { Regroup(Encode(ms[0]), EncodeAll(ms[1..]), tail); }
        DecodeAll(Encode(ms[0]) + rest);
        [ms[0]] + DecodeAll(rest);
        [ms[0]] + (ms[1..] + DecodeAll(tail));
        ms + DecodeAll(tail);
      }
    }
  }

  lemma RoundTrip(ms: seq<Message>)
    requires AllFit(ms)
    ensures DecodeAll(EncodeAll(ms)) == ms
  {
    DecodeAfterEncode(ms, []);
    assert EncodeAll(ms) + [] == EncodeAll(ms);
  }

  /** The cast in the sender loses nothing exactly for the messages that fit. */
  lemma RoundTripExactlyWhenFits(m: Message)
    ensures DecodeAll(Encode(m)) == [m] <==> Fits(m)
  {
    if Fits(m) {
      assert EncodeAll([m]) == Encode(m);
      RoundTrip([m]);
    } else {
      DecodedFit(0, Encode(m));
      assert [m][0] in [m];
    }
  }

  lemma {:induction false} DecodedFit(len: u16, s: seq<byte>)
    ensures AllFit(DecodeFrom(len, s))
    decreases |s|
  {
    var r := ReadOne(len, s);
    if r.outcome.Received? {
      DecodedFit(r.len, r.rest);
    }
  }

  /** A frame too short for an id is reported as such, and the reader goes on behind it. */
  lemma ShortFrame(data: seq<byte>, tail: seq<byte>)
    requires |data| < 2
    ensures ReadOne(0, LengthPrefix(|data|) + (data + tail)) == ReadStep(NotEnoughData, 0, tail)
  {
    var s := LengthPrefix(|data|) + (data + tail);
    assert s[2..] == data + tail && (data + tail)[|data|..] == tail;
  }

  /** What a successful call consumed is the encoding of what it returned. */
  lemma ReadReencoded(s: seq<byte>)
    requires ReadOne(0, s).outcome.Received?
    ensures s == Encode(ReadOne(0, s).outcome.msg) + ReadOne(0, s).rest
  {
    var n := FromBe(s[0], s[1]);
    assert s == s[..2] + (s[2..][..n] + s[2..][n..]);
    PrefixOfBe(s[0], s[1]);
    assert [s[0], s[1]] == s[..2];
  }

  lemma SplitPrefix<T>(a: seq<T>, b: seq<T>, c: seq<T>)
    requires b <= c
    ensures a + b <= a + c && (a + c)[|a + b|..] == c[|b|..]
  {
  }

  /** Re-encoding what was read gives back a prefix of the stream, and the reader gets no further on the remainder. */
  lemma {:induction false} EncodeAfterDecode(s: seq<byte>)
    ensures var ms := DecodeAll(s);
      && EncodeAll(ms) <= s
      && DecodeAll(s[|EncodeAll(ms)|..]) == []
    decreases |s|
  {
    var r := ReadOne(0, s);
    if r.outcome.Received? {
      var m := r.outcome.msg;
      var ms := DecodeAll(s);
      var more := EncodeAll(DecodeAll(r.rest));
      EncodeAfterDecode(r.rest);
      ReadReencoded(s);
      assert ms[1..] == DecodeAll(r.rest) && ms[0] == m;
      assert EncodeAll(ms) == Encode(m) + more;
      SplitPrefix(Encode(m), more, r.rest);
    }
  }

  /** The reader's answer, said without the reader. */
  lemma DecodeCharacterised(s: seq<byte>, ms: seq<Message>)
    ensures DecodeAll(s) == ms
      <==> AllFit(ms) && EncodeAll(ms) <= s && DecodeAll(s[|EncodeAll(ms)|..]) == []
  {
    DecodedFit(0, s);
    EncodeAfterDecode(s);
    if AllFit(ms) && EncodeAll(ms) <= s {
      DecodeAfterEncode(ms, s[|EncodeAll(ms)|..]);
      assert s == EncodeAll(ms) + s[|EncodeAll(ms)|..];
    }
  }

  // ---- A stream with frames in flight ----

  /** The bytes as they were before the reader took the prefix it has latched. */
  function Unlatched(len: u16, s: seq<byte>): seq<byte> {
    if len == 0 then s else LengthPrefix(len) + s
  }

  lemma UnlatchedReads(len: u16, s: seq<byte>)
    ensures ReadOne(0, Unlatched(len, s)) == ReadOne(len, s)
    ensures DecodeAll(Unlatched(len, s)) == DecodeFrom(len, s)
  {
    if len != 0 {
      assert Unlatched(len, s)[2..] == s;
    }
  }

  /** What a write that fails part way leaves on the stream. */
  ghost predicate Beginning(tail: seq<byte>) {
    exists m: Message, room: nat :: Fits(m) && room < |Encode(m)| && tail == Encode(m)[..room]
  }

  lemma NothingBegins()
    ensures Beginning([])
  {
    var m: Message := [0, 0];
    assert [] == Encode(m)[..0];
  }

  /** The reader only finds the end of the stream in it. */
  lemma BeginningEnds(tail: seq<byte>)
    requires Beginning(tail)
    ensures ReadOne(0, tail).outcome == UnexpectedEof && DecodeAll(tail) == []
  {
    var m: Message, room: nat :| Fits(m) && room < |Encode(m)| && tail == Encode(m)[..room];
    assert Encode(m) + [] == Encode(m);
    PrefixOfFrame(m, []);
    if room >= 2 {
      assert tail[0] == Encode(m)[0] && tail[1] == Encode(m)[1];
    }
  }

  /** The frames of `ms` are in flight, the prefix of the first perhaps already read, and after them at most the
      beginning of one more. */
  ghost predicate InFlight(len: u16, s: seq<byte>, ms: seq<Message>, tail: seq<byte>) {
    AllFit(ms) && Beginning(tail) && Unlatched(len, s) == EncodeAll(ms) + tail
  }

  lemma InFlightDecodes(len: u16, s: seq<byte>, ms: seq<Message>, tail: seq<byte>)
    requires InFlight(len, s, ms, tail)
    ensures DecodeFrom(len, s) == ms
  {
    DecodeAfterEncode(ms, tail);
    BeginningEnds(tail);
    UnlatchedReads(len, s);
  }

  lemma {:induction false} EncodeAllAppend(ms: seq<Message>, m: Message)
    ensures EncodeAll(ms + [m]) == EncodeAll(ms) + Encode(m)
  {
    if ms == [] {
      assert EncodeAll([m]) == Encode(m);
    } else {
      assert (ms + [m])[1..] == ms[1..] + [m];
      EncodeAllAppend(ms[1..], m);
    }
  }

  lemma UnlatchedWrite(len: u16, s: seq<byte>, more: seq<byte>)
    ensures Unlatched(len, s + more) == Unlatched(len, s) + more
  {
  }

  lemma InFlightWrite(len: u16, s: seq<byte>, ms: seq<Message>, m: Message)
    requires InFlight(len, s, ms, []) && Fits(m)
    ensures InFlight(len, s + Encode(m), ms + [m], [])
  {
    UnlatchedWrite(len, s, Encode(m));
    EncodeAllAppend(ms, m);
  }

  lemma InFlightCut(len: u16, s: seq<byte>, ms: seq<Message>, m: Message, room: nat)
    requires InFlight(len, s, ms, []) && Fits(m) && room < |Encode(m)|
    ensures InFlight(len, s + Encode(m)[..room], ms, Encode(m)[..room])
  {
    UnlatchedWrite(len, s, Encode(m)[..room]);
  }

  lemma InFlightLatch(s: seq<byte>, ms: seq<Message>, tail: seq<byte>)
    requires InFlight(0, s, ms, tail) && CanAbandon(0, s, 2)
    ensures InFlight(FromBe(s[0], s[1]), s[2..], ms, tail)
  {
    PrefixOfBe(s[0], s[1]);
    assert [s[0], s[1]] + s[2..] == s;
  }

  lemma InFlightRead(len: u16, s: seq<byte>, ms: seq<Message>, tail: seq<byte>)
    requires InFlight(len, s, ms, tail) && ms != []
    ensures ReadOne(len, s) == ReadStep(Received(ms[0]), 0, EncodeAll(ms[1..]) + tail)
    ensures InFlight(0, EncodeAll(ms[1..]) + tail, ms[1..], tail)
  {
    assert ms[0] in ms;
    UnlatchedReads(len, s);
    Regroup(Encode(ms[0]), EncodeAll(ms[1..]), tail);
    ReadEncoded(ms[0], EncodeAll(ms[1..]) + tail);
  }

  /** After the last whole frame the reader finds the end of the stream, never a malformed message. */
  lemma InFlightEnds(len: u16, s: seq<byte>, tail: seq<byte>)
    requires InFlight(len, s, [], tail)
    ensures ReadOne(len, s).outcome == UnexpectedEof
  {
    UnlatchedReads(len, s);
    assert Unlatched(len, s) == tail;
    BeginningEnds(tail);
  }

  // ---- Abandoned reads ----

  /** A call that starts with `len` latched can be abandoned once it has consumed `c` bytes of `s`,
      as long as it still waits for a byte: a body of length 0 is never waited for. */
  predicate CanAbandon(len: u16, s: seq<byte>, c: nat) {
    && c <= |s|
    && if len != 0 then c < len
       else c < 2 || c - 2 < FromBe(s[0], s[1])
  }

  /** What a reader kept across calls is left with: read_exact forgets a partial read. */
  function Kept(len: u16, s: seq<byte>, c: nat): ReadStep
    requires CanAbandon(len, s, c)
  {
    ReadStep(UnexpectedEof, if len == 0 && c >= 2 then FromBe(s[0], s[1]) else len, s[c..])
  }

  /** The two abandonment points the framing survives. */
  predicate SafePoint(len: u16, c: nat) {
    c == 0 || (len == 0 && c == 2)
  }

  predicate KeptSame(len: u16, s: seq<byte>, c: nat)
    requires CanAbandon(len, s, c)
  {
    DecodeFrom(Kept(len, s, c).len, Kept(len, s, c).rest) == DecodeFrom(len, s)
  }

  function Zeros(n: nat): (z: seq<byte>)
    ensures |z| == n
  {
    seq(n, _ => 0)
  }

  /** A reader kept across calls still returns the same messages, on every stream, exactly at the safe points. */
  lemma KeptReaderSameIffSafe(len: u16, c: nat)
    requires exists s :: CanAbandon(len, s, c)
    ensures (forall s | CanAbandon(len, s, c) :: KeptSame(len, s, c)) <==> SafePoint(len, c)
  {
    forall s | CanAbandon(len, s, c) && SafePoint(len, c) ensures KeptSame(len, s, c) {
      if c == 0 { assert s[0..] == s; }
    }
    if !SafePoint(len, c) {
      var w := LossyStream(len, c);
      assert CanAbandon(len, w, c) && !KeptSame(len, w, c);
    }
  }

  /** A stream on which abandoning after `c` bytes loses the message being read. */
  function LossyStream(len: u16, c: nat): (w: seq<byte>)
    requires c > 0
    requires if len != 0 then c < len else c - 2 < 0xFFFF
    ensures CanAbandon(len, w, c)
    ensures DecodeFrom(len, w) != []
    ensures (len == 0 && c == 1) || len != 0 ==> DecodeFrom(len, w[c..]) == []
    ensures len == 0 && c > 2 ==> DecodeFrom(FromBe(w[0], w[1]), w[c..]) == []
    ensures len == 0 ==> DecodeAll(w[c..]) == []
  {
    if len != 0 then Zeros(len)
    else
      var m: Message := Zeros(if c <= 3 then 2 else c - 1);
      ReadEncoded(m, []);
      assert Encode(m) + [] == Encode(m);
      assert Encode(m)[2..] == m;
      Encode(m)
  }

  /** A reader made afresh for every call survives only an abandonment that consumed nothing. */
  lemma FreshReaderSameIffUntouched(c: nat)
    requires exists s :: CanAbandon(0, s, c)
    ensures (forall s | CanAbandon(0, s, c) :: DecodeAll(s[c..]) == DecodeAll(s)) <==> c == 0
  {
    if c > 0 {
      var w := LossyStream(0, c);
      assert CanAbandon(0, w, c) && DecodeAll(w[c..]) != DecodeAll(w);
    } else {
      forall s | CanAbandon(0, s, c) ensures DecodeAll(s[c..]) == DecodeAll(s) {
        assert s[0..] == s;
      }
    }
  }

  /** A schedule for a reader kept across calls: calls that run to their end, and abandoned ones. */
  datatype Call = Complete | Abandon(consumed: nat)

  /** The reports of the completed calls. */
  function Drive(len: u16, s: seq<byte>, calls: seq<Call>): seq<Outcome>
    decreases |calls|
  {
    if calls == [] then []
    else match calls[0]
      case Complete =>
        var r := ReadOne(len, s);
        [r.outcome] + Drive(r.len, r.rest, calls[1..])
      case Abandon(c) =>
        if CanAbandon(len, s, c)
        then Drive(Kept(len, s, c).len, Kept(len, s, c).rest, calls[1..])
        else Drive(len, s, calls[1..])
  }

  predicate SafeSchedule(len: u16, s: seq<byte>, calls: seq<Call>)
    decreases |calls|
  {
    calls == [] || match calls[0]
    case Complete => SafeSchedule(ReadOne(len, s).len, ReadOne(len, s).rest, calls[1..])
    case Abandon(c) =>
      if CanAbandon(len, s, c)
      then SafePoint(len, c) && SafeSchedule(Kept(len, s, c).len, Kept(len, s, c).rest, calls[1..])
      else SafeSchedule(len, s, calls[1..])
  }

  function Completed(calls: seq<Call>): nat {
    if calls == [] then 0 else Completed(calls[1..]) + if calls[0].Complete? then 1 else 0
  }

  /** `n` completed calls and no abandoned one. */
  function Uninterrupted(len: u16, s: seq<byte>, n: nat): seq<Outcome>
    decreases n
  {
    if n == 0 then [] else
      var r := ReadOne(len, s);
      [r.outcome] + Uninterrupted(r.len, r.rest, n - 1)
  }

  /** Any number of abandonments at safe points leaves every completed call's report as it was. */
  lemma {:induction false} ResumableReads(len: u16, s: seq<byte>, calls: seq<Call>)
    requires SafeSchedule(len, s, calls)
    ensures Drive(len, s, calls) == Uninterrupted(len, s, Completed(calls))
    decreases |calls|
  {
    if calls != [] {
      match calls[0]
      case Complete =>
        var r := ReadOne(len, s);
        ResumableReads(r.len, r.rest, calls[1..]);
      case Abandon(c) =>
        if CanAbandon(len, s, c) {
          var k := Kept(len, s, c);
          ResumableReads(k.len, k.rest, calls[1..]);
          assert s[0..] == s;
          LatchedSame(len, s, c, Completed(calls[1..]));
        } else {
          ResumableReads(len, s, calls[1..]);
        }
    }
  }

  lemma LatchedSame(len: u16, s: seq<byte>, c: nat, n: nat)
    requires CanAbandon(len, s, c) && SafePoint(len, c)
    ensures Uninterrupted(Kept(len, s, c).len, Kept(len, s, c).rest, n) == Uninterrupted(len, s, n)
  {
    var k := Kept(len, s, c);
    assert s[0..] == s;
    assert ReadOne(k.len, k.rest) == ReadOne(len, s);
  }

  // ---- The imperative reader and writer ----

  function Flatten(chunks: seq<seq<byte>>): seq<byte> {
    if chunks == [] then [] else chunks[0] + Flatten(chunks[1..])
  }

  lemma {:induction false} FlattenAppend(chunks: seq<seq<byte>>, chunk: seq<byte>)
    ensures Flatten(chunks + [chunk]) == Flatten(chunks) + chunk
  {
    if chunks != [] {
      assert (chunks + [chunk])[1..] == chunks[1..] + [chunk];
      FlattenAppend(chunks[1..], chunk);
    }
  }

  /** One direction of a connection: bytes arrive in chunks of any size. */
  class ByteStream {
    var chunks: seq<seq<byte>>

    ghost predicate Valid() reads this {
      forall c | c in chunks :: c != []
    }

    ghost function Unread(): seq<byte> reads this {
      Flatten(chunks)
    }

    constructor ()
      ensures Valid() && Unread() == []
    {
      chunks := [];
    }

    /** At most `max` bytes of the oldest chunk; nothing only at the end of the stream. */
    method Poll(max: nat) returns (got: seq<byte>)
      requires Valid() && max > 0
      modifies this
      ensures Valid()
      ensures |got| <= max && got + Unread() == old(Unread())
      ensures got == [] ==> old(Unread()) == []
    {
      if chunks == [] {
        got := [];
      } else if |chunks[0]| <= max {
        got := chunks[0];
        assert got in chunks && forall c | c in chunks[1..] :: c in chunks;
        chunks := chunks[1..];
      } else {
        got := chunks[0][..max];
        assert forall c | c in chunks[1..] :: c in chunks;
        chunks := [chunks[0][max..]] + chunks[1..];
        assert chunks[1..] == old(chunks)[1..];
        assert |chunks[0]| > 0;
      }
    }

    method ReadExact(n: nat) returns (ok: bool, data: seq<byte>)
      requires Valid()
      modifies this
      ensures Valid()
      ensures ok <==> n <= |old(Unread())|
      ensures ok ==> data == old(Unread())[..n] && Unread() == old(Unread())[n..]
      ensures !ok ==> Unread() == []
    {
      data := [];
      while |data| < n
        invariant Valid() && |data| <= n
        invariant data + Unread() == old(Unread())
        decreases n - |data|
      {
        var got := Poll(n - |data|);
        if got == [] {
          return false, data;
        }
        data := data + got;
      }
      ok := true;
    }

    /** Take everything that has arrived so far. */
    method Drain() returns (data: seq<byte>)
      requires Valid()
      modifies this
      ensures Valid() && data == old(Unread()) && Unread() == []
    {
      data := [];
      while chunks != []
        invariant Valid() && data + Unread() == old(Unread())
        decreases |Unread()|
      {
        assert chunks[0] in chunks;
        var got := Poll(|chunks[0]|);
        data := data + got;
      }
    }

    /** write_all, when the peer accepts at most `room` more bytes before the connection fails. */
    method WriteAll(data: seq<byte>, room: nat) returns (ok: bool)
      requires Valid()
      modifies this
      ensures Valid() && ok == (|data| <= room)
      ensures Unread() == old(Unread()) + if |data| <= room then data else data[..room]
    {
      ok := |data| <= room;
      var accepted := if ok then data else data[..room];
      if accepted != [] {
        FlattenAppend(chunks, accepted);
        chunks := chunks + [accepted];
      }
    }
  }

  function Accepted(m: Message, room: nat): seq<byte> {
    if |Encode(m)| <= room then Encode(m) else Encode(m)[..room]
  }

  /** The prefix and the payload are two writes; the first failure ends the call. */
  method SendDnsMessage(s: ByteStream, m: Message, room: nat) returns (ok: bool)
    requires s.Valid()
    modifies s
    ensures s.Valid() && ok == (|Encode(m)| <= room)
    ensures s.Unread() == old(s.Unread()) + Accepted(m, room)
  {
    var prefix := LengthPrefix(|m|);
    ok := s.WriteAll(prefix, room);
    if ok {
      ok := s.WriteAll(m, room - |prefix|);
    }
  }

  class DNSMessageReader {
    var currentMsgLen: u16

    constructor ()
      ensures currentMsgLen == 0
    {
      currentMsgLen := 0;
    }

    method Read(s: ByteStream) returns (r: Outcome)
      requires s.Valid()
      modifies this, s
      ensures s.Valid()
      ensures ReadStep(r, currentMsgLen, s.Unread()) == old(ReadOne(currentMsgLen, s.Unread()))
    {
      if currentMsgLen == 0 {
        var ok, prefix := s.ReadExact(2);
        if !ok {
          return UnexpectedEof;
        }
        currentMsgLen := FromBe(prefix[0], prefix[1]);
      }
      var ok, data := s.ReadExact(currentMsgLen);
      if !ok {
        return UnexpectedEof;
      }
      currentMsgLen := 0;
      r := TryNew(data);
    }
  }

  /** Whatever the chunks, a reader returns what the bytes decode to, and stops at the first error. */
  method ReadUntilError(s: ByteStream) returns (ms: seq<Message>)
    requires s.Valid()
    modifies s
    ensures ms == DecodeAll(old(s.Unread()))
  {
    var reader := new DNSMessageReader();
    ms := [];
    while true
      invariant s.Valid() && fresh(reader)
      invariant ms + DecodeFrom(reader.currentMsgLen, s.Unread()) == DecodeAll(old(s.Unread()))
      decreases |s.Unread()|
    {
      ghost var before := ms + DecodeFrom(reader.currentMsgLen, s.Unread());
      var r := reader.Read(s);
      match r
      case Received(m) => ms := ms + [m];
      case _ => return;
    }
  }
}
