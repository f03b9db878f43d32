/** AVDTP signalling messages on the wire (Bluetooth AVDTP 1.3, section 8.4):
    the sender that cuts a message into packets, and the receiver that puts
    the packets together again. */
module AvdtpSignalling {
  import opened Common

  type Label = n: nat | n < 16
  type MsgType = n: nat | n < 4
  type SignalId = n: nat | n < 64
  type Packet = p: seq<byte> | |p| >= 1 witness [0]

  const SINGLE: nat := 0
  const START: nat := 1
  const CONTINUE: nat := 2
  const END: nat := 3

  /** The size of the reassembly buffer. */
  const IN_BUF_SIZE: nat := 1024

  datatype Message = Message(transaction: nat, msgType: nat, signal: nat, payload: seq<byte>)

  // ---------------------------------------------------------------- packets

  /** First octet of every header: transaction, packet type, message type. */
  function HeaderOctet(transaction: Label, packetType: MsgType, msgType: MsgType): byte {
    transaction * 16 + packetType * 4 + msgType
  }

  function LabelOf(p: Packet): nat { p[0] / 16 }
  function TypeOf(p: Packet): nat { p[0] / 4 % 4 }
  function MsgTypeOf(p: Packet): nat { p[0] % 4 }

  function SinglePacket(transaction: Label, msgType: MsgType, signal: SignalId, data: seq<byte>): Packet {
    [HeaderOctet(transaction, SINGLE, msgType), signal] + data
  }

  function StartPacket(transaction: Label, msgType: MsgType, count: byte, signal: SignalId, data: seq<byte>): Packet {
    [HeaderOctet(transaction, START, msgType), count, signal] + data
  }

  function NextPacket(transaction: Label, packetType: MsgType, msgType: MsgType, data: seq<byte>): Packet {
    [HeaderOctet(transaction, packetType, msgType)] + data
  }

  // ----------------------------------------------------------------- sender

  /** How many packets the START packet announces: an 8-bit field. */
  function Announced(len: nat, omtu: nat): byte
    requires omtu >= 3 && len + 2 > omtu
  {
    ((len - (omtu - 3)) / (omtu - 1) + 2) % 256
  }

  /** The packets that follow a START packet when `left` is still to be sent. */
  function Tail(transaction: Label, msgType: MsgType, left: seq<byte>, omtu: nat): seq<Packet>
    requires omtu >= 3
    decreases |left|
  {
    if left == [] then []
    else if |left| + 1 > omtu then
      [NextPacket(transaction, CONTINUE, msgType, left[..omtu - 1])] + Tail(transaction, msgType, left[omtu - 1..], omtu)
    else [NextPacket(transaction, END, msgType, left)]
  }

  /** All packets of one message; none when not even a START header fits. */
  function Packets(transaction: Label, msgType: MsgType, signal: SignalId, data: seq<byte>, omtu: nat): seq<Packet> {
    if 2 + |data| <= omtu then [SinglePacket(transaction, msgType, signal, data)]
    else if omtu < 3 then []
    else [StartPacket(transaction, msgType, Announced(|data|, omtu), signal, data[..omtu - 3])]
         + Tail(transaction, msgType, data[omtu - 3..], omtu)
  }

  lemma TailMore(transaction: Label, msgType: MsgType, data: seq<byte>, done: nat, omtu: nat)
    requires omtu >= 3 && done < |data|
    ensures var n := if |data| - done + 1 > omtu then omtu - 1 else |data| - done;
            var packetType: MsgType := if |data| - done + 1 > omtu then CONTINUE else END;
            Tail(transaction, msgType, data[done..], omtu)
            == [NextPacket(transaction, packetType, msgType, data[done..done + n])]
               + Tail(transaction, msgType, data[done + n..], omtu)
  {
    var left := data[done..];
    if |left| + 1 > omtu {
      assert left[..omtu - 1] == data[done..done + omtu - 1] && left[omtu - 1..] == data[done + omtu - 1..];
    } else {
      assert left == data[done..done + |left|] && data[done + |left|..] == [];
    }
  }

  /** `avdtp_send`: the socket takes the first `accepted` packets handed to it
      and refuses the next one. */
  method Send(transaction: Label, msgType: MsgType, signal: SignalId, data: seq<byte>, omtu: nat, accepted: nat)
    returns (ok: bool, sent: seq<Packet>)
    ensures var all := Packets(transaction, msgType, signal, data, omtu);
            && sent == all[..Min(accepted, |all|)]
            && (ok <==> all != [] && |all| <= accepted)
  {
    sent := [];
    if 2 + |data| <= omtu {
      if accepted == 0 { return false, sent; }
      return true, [SinglePacket(transaction, msgType, signal, data)];
    }
    if omtu < 3 { return false, sent; }
    hide Tail, Announced, NextPacket, StartPacket, SinglePacket;
    var contFragments := (|data| - (omtu - 3)) / (omtu - 1) + 1;
    AnnouncedIs(|data|, omtu);
    var start := StartPacket(transaction, msgType, (contFragments + 1) % 256, signal, data[..omtu - 3]);
    ghost var tail := Tail(transaction, msgType, data[omtu - 3..], omtu);
    FirstOf(start, tail, accepted);
    if accepted == 0 { return false, sent; }
    var more;
    ok, more := SendRest(transaction, msgType, data, omtu - 3, omtu, accepted - 1);
    sent := [start] + more;
  }

  /** The first packets of a sequence. */
  lemma FirstOf(start: Packet, tail: seq<Packet>, n: nat)
    ensures var all := [start] + tail;
            && |all| == 1 + |tail|
            && all[..Min(n, |all|)] == if n == 0 then [] else [start] + tail[..Min(n - 1, |tail|)]
  {
  }

  lemma AnnouncedIs(len: nat, omtu: nat)
    requires omtu >= 3 && len + 2 > omtu
    ensures Announced(len, omtu) == ((len - (omtu - 3)) / (omtu - 1) + 1 + 1) % 256
  {
  }

  /** The packets after the START packet, from octet `from` of the data. */
  method SendRest(transaction: Label, msgType: MsgType, data: seq<byte>, from: nat, omtu: nat, accepted: nat)
    returns (ok: bool, sent: seq<Packet>)
    requires omtu >= 3 && from <= |data|
    ensures var all := Tail(transaction, msgType, data[from..], omtu);
            && sent == all[..Min(accepted, |all|)]
            && (ok <==> |all| <= accepted)
  {
    hide NextPacket, Tail;
    sent := [];
    var done := from;
    ghost var all := Tail(transaction, msgType, data[from..], omtu);
    while done < |data|
      invariant from <= done <= |data| && |sent| <= accepted
      invariant all == sent + Tail(transaction, msgType, data[done..], omtu)
    {
      TailMore(transaction, msgType, data, done, omtu);
      if |sent| == accepted { return false, sent; }
      var left := |data| - done;
      ghost var before := sent;
      ghost var rest := Tail(transaction, msgType, data[done..], omtu);
      var toCopy;
      if left + 1 > omtu {
        toCopy := omtu - 1;
        sent := sent + [NextPacket(transaction, CONTINUE, msgType, data[done..done + toCopy])];
      } else {
        toCopy := left;
        sent := sent + [NextPacket(transaction, END, msgType, data[done..done + toCopy])];
      }
      MoveOne(all, before, rest, sent[|before|], Tail(transaction, msgType, data[done + toCopy..], omtu));
      done := done + toCopy;
    }
    TailNothing(transaction, msgType, data[done..], omtu);
    ok := true;
  }

  lemma TailNothing(transaction: Label, msgType: MsgType, left: seq<byte>, omtu: nat)
    requires omtu >= 3 && left == []
    ensures Tail(transaction, msgType, left, omtu) == []
  {
  }

  // --------------------------------------------------------------- receiver

  datatype InBuf = InBuf(active: bool, noOfPackets: int, transaction: nat, msgType: nat, signal: nat,
                         buf: seq<byte>, dataSize: byte)

  datatype ParseResult = PARSE_ERROR | PARSE_FRAGMENT | PARSE_SUCCESS

  ghost predicate ValidBuf(b: InBuf) { |b.buf| == IN_BUF_SIZE }

  /** The message the session reads from the buffer after PARSE_SUCCESS. */
  function Received(b: InBuf): Message
    requires ValidBuf(b)
  {
    Message(b.transaction, b.msgType, b.signal, b.buf[..b.dataSize])
  }

  /** Octets copied behind the data already there; `data_size` is 8 bits wide. */
  function Copied(b: InBuf, payload: seq<byte>): InBuf
    requires ValidBuf(b) && b.dataSize + |payload| <= IN_BUF_SIZE
  {
    b.(buf := b.buf[..b.dataSize] + payload + b.buf[b.dataSize + |payload|..],
       dataSize := (b.dataSize + |payload|) % 256)
  }

  /** The common end of the parser, once the header has been accepted. */
  function Accumulate(b: InBuf, payload: seq<byte>): (InBuf, ParseResult)
    requires ValidBuf(b)
  {
    if b.dataSize + |payload| > IN_BUF_SIZE then (b, PARSE_ERROR)
    else if b.noOfPackets > 1 then
      (Copied(b, payload).(noOfPackets := b.noOfPackets - 1), PARSE_FRAGMENT)
    else (Copied(b, payload).(active := false), PARSE_SUCCESS)
  }

  function Opened(b: InBuf, p: Packet, count: int, signal: nat): InBuf {
    InBuf(true, count, LabelOf(p), MsgTypeOf(p), signal, b.buf, 0)
  }

  /** What `avdtp_parse_data` does to the buffer and answers for one packet. */
  function ParseStep(b: InBuf, p: Packet): (r: (InBuf, ParseResult))
    requires ValidBuf(b)
    ensures ValidBuf(r.0)
  {
    if TypeOf(p) == SINGLE then
      if |p| < 2 || b.active then (b, PARSE_ERROR)
      else Accumulate(Opened(b, p, 1, p[1] % 64), p[2..])
    else if TypeOf(p) == START then
      if |p| < 3 || b.active then (b, PARSE_ERROR)
      else Accumulate(Opened(b, p, p[1], p[2] % 64), p[3..])
    else if !b.active || b.transaction != LabelOf(p) then (b, PARSE_ERROR)
    else if TypeOf(p) == CONTINUE then
      if b.noOfPackets <= 1 then (b, PARSE_ERROR) else Accumulate(b, p[1..])
    else
      if b.noOfPackets > 1 then (b, PARSE_ERROR) else Accumulate(b, p[1..])
  }

  /** The reassembly buffer of a session, updated in place. */
  class Receiver {
    var active: bool
    var noOfPackets: int
    var transaction: nat
    var msgType: nat
    var signal: nat
    var dataSize: byte
    const buf: array<byte>

    ghost predicate Valid() reads this { buf.Length == IN_BUF_SIZE }

    ghost function Abs(): (b: InBuf)
      reads this, buf
      requires Valid()
      ensures ValidBuf(b)
    {
      InBuf(active, noOfPackets, transaction, msgType, signal, buf[..], dataSize)
    }

    constructor ()
      ensures Valid() && fresh(buf) && !active
    {
      active, noOfPackets, transaction, msgType, signal, dataSize := false, 0, 0, 0, 0, 0;
      buf := new byte[IN_BUF_SIZE](_ => 0);
    }

    /** The `memcpy` of a payload behind the data already there. */
    method CopyIn(payload: seq<byte>)
      requires Valid() && dataSize + |payload| <= IN_BUF_SIZE
      modifies buf
      ensures buf[..] == old(buf[..dataSize] + payload + buf[dataSize + |payload|..])
    {
      forall i | 0 <= i < |payload| { buf[dataSize + i] := payload[i]; }
    }

    method ParseData(p: Packet) returns (r: ParseResult)
      requires Valid()
      modifies this, buf
      ensures Valid()
      ensures (Abs(), r) == ParseStep(old(Abs()), p)
    {
      hide Accumulate;
      var payload := [];
      var packetType := p[0] / 4 % 4;
      if packetType == SINGLE {
        if |p| < 2 { return PARSE_ERROR; }
        if active { return PARSE_ERROR; }
        payload := p[2..];
        active := true;
        dataSize := 0;
        noOfPackets := 1;
        transaction := p[0] / 16;
        msgType := p[0] % 4;
        signal := p[1] % 64;
      } else if packetType == START {
        if |p| < 3 { return PARSE_ERROR; }
        if active { return PARSE_ERROR; }
        active := true;
        dataSize := 0;
        transaction := p[0] / 16;
        msgType := p[0] % 4;
        noOfPackets := p[1];
        signal := p[2] % 64;
        payload := p[3..];
      } else if packetType == CONTINUE {
        if !active { return PARSE_ERROR; }
        if transaction != p[0] / 16 { return PARSE_ERROR; }
        if noOfPackets <= 1 { return PARSE_ERROR; }
        payload := p[1..];
      } else {
        if !active { return PARSE_ERROR; }
        if transaction != p[0] / 16 { return PARSE_ERROR; }
        if noOfPackets > 1 { return PARSE_ERROR; }
        payload := p[1..];
      }
      r := Take(payload);
    }

    /** The rest of `avdtp_parse_data`, the same for all packets. */
    method Take(payload: seq<byte>) returns (r: ParseResult)
      requires Valid()
      modifies this, buf
      ensures Valid()
      ensures (Abs(), r) == Accumulate(old(Abs()), payload)
    {
      if dataSize + |payload| > IN_BUF_SIZE { return PARSE_ERROR; }
      CopyIn(payload);
      dataSize := (dataSize + |payload|) % 256;
      if noOfPackets > 1 {
        noOfPackets := noOfPackets - 1;
        return PARSE_FRAGMENT;
      }
      active := false;
      r := PARSE_SUCCESS;
    }
  }

  // ------------------------------------------------------------------- runs

  datatype Outcome = Failed | Partial | Complete(message: Message)

  function OutcomeOf(r: (InBuf, ParseResult)): Outcome
    requires ValidBuf(r.0)
  {
    match r.1
    case PARSE_ERROR => Failed
    case PARSE_FRAGMENT => Partial
    case PARSE_SUCCESS => Complete(Received(r.0))
  }

  /** The buffer and the outcome of every packet after a sequence of packets. */
  function Feed(b: InBuf, ps: seq<Packet>): (r: (InBuf, seq<Outcome>))
    requires ValidBuf(b)
    ensures ValidBuf(r.0) && |r.1| == |ps|
  {
    if ps == [] then (b, [])
    else
      var (b1, os) := Feed(b, ps[..|ps| - 1]);
      var step := ParseStep(b1, ps[|ps| - 1]);
      (step.0, os + [OutcomeOf(step)])
  }

  lemma {:induction false} FeedCons(b: InBuf, p: Packet, ps: seq<Packet>)
    requires ValidBuf(b)
    ensures var step := ParseStep(b, p);
            var rest := Feed(step.0, ps);
            Feed(b, [p] + ps) == (rest.0, [OutcomeOf(step)] + rest.1)
  {
    var all := [p] + ps;
    if ps == [] {
      assert all == [p] && all[..0] == [];
      var out := OutcomeOf(ParseStep(b, p));
      assert Feed(b, all) == (ParseStep(b, p).0, [] + [out]);
      assert [] + [out] == [out] + [];
    } else {
      var butLast, last := ps[..|ps| - 1], ps[|ps| - 1];
      FeedCons(b, p, butLast);
      assert all[..|all| - 1] == [p] + butLast;
      var (b1, os1) := Feed(ParseStep(b, p).0, butLast);
      var out := OutcomeOf(ParseStep(b1, last));
      var first := OutcomeOf(ParseStep(b, p));
      assert Feed(b, all).1 == ([first] + os1) + [out];
      assert ([first] + os1) + [out] == [first] + (os1 + [out]);
    }
  }

  // -------------------------------------------------- sender meets receiver

  /** The message arrives: only the last packet completes it, unchanged. */
  ghost predicate Delivered(os: seq<Outcome>, m: Message) {
    && os != []
    && (forall i :: 0 <= i < |os| - 1 ==> os[i] == Partial)
    && os[|os| - 1] == Complete(m)
  }

  /** Everything but the last packet is taken, and the last one is refused. */
  ghost predicate RejectedAtEnd(os: seq<Outcome>) {
    && os != []
    && (forall i :: 0 <= i < |os| - 1 ==> os[i] == Partial)
    && os[|os| - 1] == Failed
  }

  /** A caller can test this before sending. */
  predicate Deliverable(len: nat, omtu: nat) {
    && len <= 255
    && (len + 2 <= omtu || (omtu >= 3 && (len - (omtu - 3)) % (omtu - 1) != 0))
  }

  lemma ProductAtLeast(m: int, d: int)
    ensures m >= 1 && d >= 1 ==> m * d >= m
  {
  }

  lemma QuotientUnique(x: int, m: nat, q: int, r: nat)
    requires m >= 1 && x == m * q + r && r < m
    ensures x / m == q && x % m == r
  {
    var d := x / m - q;
    assert m * d == r - x % m;
    ProductAtLeast(m, d);
    ProductAtLeast(m, -d);
  }

  lemma DivStep(x: nat, m: nat)
    requires m >= 1 && x >= m
    ensures (x - m) / m == x / m - 1 && (x - m) % m == x % m && x / m >= 1
  {
    QuotientUnique(x - m, m, x / m - 1, x % m);
    ProductAtLeast(m, 1 - x / m);
  }

  lemma HeaderFields(transaction: Label, packetType: MsgType, msgType: MsgType)
    ensures var h := HeaderOctet(transaction, packetType, msgType);
            h / 16 == transaction && h / 4 % 4 == packetType && h % 4 == msgType
  {
  }

  /** Where the payload goes, as long as the size field does not wrap. */
  lemma CopiedIs(b: InBuf, payload: seq<byte>)
    requires ValidBuf(b) && b.dataSize + |payload| <= 255
    ensures var c := Copied(b, payload);
            && c == b.(buf := c.buf, dataSize := b.dataSize + |payload|) && ValidBuf(c)
            && c.buf[..c.dataSize] == b.buf[..b.dataSize] + payload
  {
  }

  lemma StepContinue(b: InBuf, transaction: Label, msgType: MsgType, data: seq<byte>)
    requires ValidBuf(b) && b.active && b.transaction == transaction && b.noOfPackets > 1
    requires b.dataSize + |data| <= 255
    ensures var (b1, r) := ParseStep(b, NextPacket(transaction, CONTINUE, msgType, data));
            && r == PARSE_FRAGMENT
            && b1 == b.(noOfPackets := b.noOfPackets - 1, buf := b1.buf, dataSize := b.dataSize + |data|)
            && b1.buf[..b1.dataSize] == b.buf[..b.dataSize] + data
  {
    hide HeaderOctet, Copied;
    HeaderFields(transaction, CONTINUE, msgType);
    assert NextPacket(transaction, CONTINUE, msgType, data)[1..] == data;
    CopiedIs(b, data);
  }

  lemma StepEnd(b: InBuf, transaction: Label, msgType: MsgType, data: seq<byte>)
    requires ValidBuf(b) && b.active && b.transaction == transaction
    requires b.dataSize + |data| <= 255
    ensures var p := NextPacket(transaction, END, msgType, data);
            var out := OutcomeOf(ParseStep(b, p));
            && Feed(b, [p]).1 == [out]
            && out == if b.noOfPackets > 1 then Failed
                      else Complete(Message(transaction, b.msgType, b.signal, b.buf[..b.dataSize] + data))
  {
    hide HeaderOctet, Copied, Feed;
    HeaderFields(transaction, END, msgType);
    var p := NextPacket(transaction, END, msgType, data);
    assert p[1..] == data;
    CopiedIs(b, data);
    FedOne(b, p);
  }

  lemma FedOne(b: InBuf, p: Packet)
    requires ValidBuf(b)
    ensures Feed(b, [p]).1 == [OutcomeOf(ParseStep(b, p))]
  {
    hide ParseStep;
    assert [p] == [p] + [];
    FeedCons(b, p, []);
  }

  /** The answers to the packets of `Tail` while `count` packets are expected. */
  lemma {:induction false} FeedTail(b: InBuf, transaction: Label, msgType: MsgType, left: seq<byte>, omtu: nat)
    requires ValidBuf(b) && omtu >= 3 && left != []
    requires b.active && b.transaction == transaction && b.noOfPackets == |left| / (omtu - 1) + 1
    requires b.dataSize + |left| <= 255
    ensures var ps := Tail(transaction, msgType, left, omtu);
            var os := Feed(b, ps).1;
            if |left| % (omtu - 1) != 0
            then |ps| == |left| / (omtu - 1) + 1
                 && Delivered(os, Message(transaction, b.msgType, b.signal, b.buf[..b.dataSize] + left))
            else |ps| == |left| / (omtu - 1) && RejectedAtEnd(os)
    decreases |left|
  {
    hide Feed, ParseStep, NextPacket, Delivered, RejectedAtEnd;
    var m := omtu - 1;
    if |left| > m {
      var now, rest := left[..m], left[m..];
      DivStep(|left|, m);
      StepContinue(b, transaction, msgType, now);
      var p := NextPacket(transaction, CONTINUE, msgType, now);
      var b1 := ParseStep(b, p).0;
      FeedTail(b1, transaction, msgType, rest, omtu);
      FeedCons(b, p, Tail(transaction, msgType, rest, omtu));
      OnePartial(Feed(b1, Tail(transaction, msgType, rest, omtu)).1,
                 Message(transaction, b.msgType, b.signal, b.buf[..b.dataSize] + left));
      assert b1.buf[..b1.dataSize] + rest == b.buf[..b.dataSize] + left;
    } else {
      if |left| == m { QuotientUnique(|left|, m, 1, 0); } else { QuotientUnique(|left|, m, 0, |left|); }
      StepEnd(b, transaction, msgType, left);
      OnlyLast(OutcomeOf(ParseStep(b, NextPacket(transaction, END, msgType, left))),
               Message(transaction, b.msgType, b.signal, b.buf[..b.dataSize] + left));
    }
  }

  lemma OnePartial(os: seq<Outcome>, m: Message)
    ensures Delivered(os, m) ==> Delivered([Partial] + os, m)
    ensures RejectedAtEnd(os) ==> RejectedAtEnd([Partial] + os)
  {
  }

  lemma OnlyLast(o: Outcome, m: Message)
    ensures Delivered([o], m) <==> o == Complete(m)
    ensures RejectedAtEnd([o]) <==> o == Failed
  {
  }

  lemma StepStart(b: InBuf, transaction: Label, msgType: MsgType, count: byte, signal: SignalId, data: seq<byte>)
    requires ValidBuf(b) && !b.active && count > 1 && |data| <= 255
    ensures var (b1, r) := ParseStep(b, StartPacket(transaction, msgType, count, signal, data));
            && r == PARSE_FRAGMENT
            && b1 == InBuf(true, count - 1, transaction, msgType, signal, b1.buf, |data|)
            && b1.buf[..b1.dataSize] == data
  {
    var p := StartPacket(transaction, msgType, count, signal, data);
    HeaderFields(transaction, START, msgType);
    assert p[0] == HeaderOctet(transaction, START, msgType);
    assert p[3..] == data && p[1] == count && p[2] == signal;
  }

  lemma AnnouncedCount(len: nat, omtu: nat)
    requires omtu >= 3 && omtu < len + 2 && len <= 255
    ensures Announced(len, omtu) == (len - (omtu - 3)) / (omtu - 1) + 2
  {
    HalfAtMost(len - (omtu - 3), omtu - 1);
  }

  lemma HalfAtMost(x: nat, m: nat)
    requires m >= 2
    ensures 0 <= 2 * (x / m) <= x
  {
    var q := x / m;
    assert x == m * q + x % m;
    NotNegative(m - 2, q);
    assert m * q == 2 * q + (m - 2) * q;
  }

  lemma NotNegative(a: nat, b: nat)
    ensures a * b >= 0
  {
  }

  /** A fragmented message of at most 255 octets: exactly when the remainder
      after the START packet is a multiple of the fragment size, the announced
      count is one too high and the END packet is refused. */
  lemma FragmentedRun(b: InBuf, transaction: Label, msgType: MsgType, signal: SignalId, data: seq<byte>, omtu: nat)
    requires ValidBuf(b) && !b.active
    requires omtu >= 3 && omtu < |data| + 2 && |data| <= 255
    ensures var ps := Packets(transaction, msgType, signal, data, omtu);
            var os := Feed(b, ps).1;
            if (|data| - (omtu - 3)) % (omtu - 1) != 0
            then Announced(|data|, omtu) == |ps| && Delivered(os, Message(transaction, msgType, signal, data))
            else Announced(|data|, omtu) == |ps| + 1 && RejectedAtEnd(os)
  {
    hide Announced, Tail, Feed, ParseStep, StartPacket, Delivered, RejectedAtEnd;
    var first, left := data[..omtu - 3], data[omtu - 3..];
    AnnouncedCount(|data|, omtu);
    HalfAtMost(|left|, omtu - 1);
    var count := Announced(|data|, omtu);
    StepStart(b, transaction, msgType, count, signal, first);
    var p := StartPacket(transaction, msgType, count, signal, first);
    FeedTail(ParseStep(b, p).0, transaction, msgType, left, omtu);
    FeedCons(b, p, Tail(transaction, msgType, left, omtu));
    OnePartial(Feed(ParseStep(b, p).0, Tail(transaction, msgType, left, omtu)).1,
               Message(transaction, msgType, signal, data));
    assert first + left == data;
  }

  /** Main result of this module: a message sent by `avdtp_send` to an idle
      `avdtp_parse_data` arrives unchanged if and only if it is deliverable,
      for every payload and every outgoing MTU. */
  lemma RoundTrip(b: InBuf, transaction: Label, msgType: MsgType, signal: SignalId, data: seq<byte>, omtu: nat)
    requires ValidBuf(b) && !b.active
    ensures Delivered(Feed(b, Packets(transaction, msgType, signal, data, omtu)).1,
                      Message(transaction, msgType, signal, data))
            <==> Deliverable(|data|, omtu)
  {
    hide Announced, Tail;
    var ps := Packets(transaction, msgType, signal, data, omtu);
    if |data| > 255 {
      CompleteIsShort(b, ps);
    } else if 2 + |data| <= omtu {
      var p := SinglePacket(transaction, msgType, signal, data);
      HeaderFields(transaction, SINGLE, msgType);
      assert p[2..] == data && p[1] == signal;
      var b1 := ParseStep(b, p).0;
      assert b1.buf[..b1.dataSize] == data;
      assert ps == [p] + [];
      FeedCons(b, p, []);
    } else if omtu >= 3 {
      FragmentedRun(b, transaction, msgType, signal, data, omtu);
    }
  }

  /** The shortest message that is lost: two octets over an MTU of three. */
  lemma TwoOctetsLost(b: InBuf, transaction: Label, msgType: MsgType, signal: SignalId, data: seq<byte>)
    requires ValidBuf(b) && !b.active && |data| == 2
    ensures RejectedAtEnd(Feed(b, Packets(transaction, msgType, signal, data, 3)).1) && !Deliverable(|data|, 3)
  {
    FragmentedRun(b, transaction, msgType, signal, data, 3);
  }

  /** The data a packet of a message carries: behind two octets of header in a
      SINGLE, three in a START, one in the others. */
  function DataOf(p: Packet): seq<byte> {
    var header := if p[0] / 4 % 4 == 0 then 2 else if p[0] / 4 % 4 == 1 then 3 else 1;
    if |p| <= header then [] else p[header..]
  }

  function DataIn(ps: seq<Packet>): seq<byte> {
    if ps == [] then [] else DataOf(ps[0]) + DataIn(ps[1..])
  }

  /** CONTINUE packets that fill the MTU, and an END packet that is not empty and
      does not exceed it, all with the message's label and type. */
  lemma {:induction false} TailAre(transaction: Label, msgType: MsgType, left: seq<byte>, omtu: nat)
    requires omtu >= 3
    ensures var ps := Tail(transaction, msgType, left, omtu);
            && (ps == [] <==> left == [])
            && (forall i :: 0 <= i < |ps| ==> ps[i][0] == transaction * 16 + (if i + 1 < |ps| then 2 else 3) * 4 + msgType)
            && (forall i :: 0 <= i < |ps| ==> 2 <= |ps[i]| <= omtu && (i + 1 < |ps| ==> |ps[i]| == omtu))
            && DataIn(ps) == left
    decreases |left|
  {
    if left == [] { return; }
    TailMore(transaction, msgType, left, 0, omtu);
    assert left[0..] == left;
    var n := if |left| + 1 > omtu then omtu - 1 else |left|;
    var packetType: MsgType := if |left| + 1 > omtu then CONTINUE else END;
    var rest := left[n..];
    TailAre(transaction, msgType, rest, omtu);
    hide Tail, NextPacket, DataIn;
    var tail := Tail(transaction, msgType, rest, omtu);
    NextIs(transaction, packetType, msgType, left[0..n], tail);
    var p := NextPacket(transaction, packetType, msgType, left[0..n]);
    assert forall i :: 0 < i < |[p] + tail| ==> ([p] + tail)[i] == tail[i - 1];
    assert left[0..n] + rest == left;
  }

  lemma NextIs(transaction: Label, packetType: MsgType, msgType: MsgType, data: seq<byte>, tail: seq<Packet>)
    requires packetType >= CONTINUE
    ensures var p := NextPacket(transaction, packetType, msgType, data);
            && p[0] == transaction * 16 + packetType * 4 + msgType && |p| == 1 + |data| && DataOf(p) == data
            && DataIn([p] + tail) == data + DataIn(tail)
  {
    HeaderIs(transaction, packetType, msgType);
    var p := NextPacket(transaction, packetType, msgType, data);
    assert ([p] + tail)[1..] == tail;
  }

  /** The first octet of a header: label, packet type and message type. */
  lemma HeaderIs(transaction: Label, packetType: MsgType, msgType: MsgType)
    ensures var h := transaction * 16 + packetType * 4 + msgType;
            h / 16 == transaction && h / 4 % 4 == packetType && h % 4 == msgType
  {
  }

  /** What the packets of any message over any MTU are. Every one carries the
      label and the type of the message and fits the MTU. Without room for the
      data behind a header of two octets and with an MTU below three there are
      none; with room there is one SINGLE; otherwise a START, CONTINUE packets
      and an END, all full but the last. The signal stands in the first, and the
      data together are those of the message. */
  lemma PacketsAre(transaction: Label, msgType: MsgType, signal: SignalId, data: seq<byte>, omtu: nat)
    ensures var ps := Packets(transaction, msgType, signal, data, omtu);
            && (forall i :: 0 <= i < |ps| ==> LabelOf(ps[i]) == transaction && MsgTypeOf(ps[i]) == msgType)
            && (forall i :: 0 <= i < |ps| ==> 2 <= |ps[i]| <= omtu && (i + 1 < |ps| ==> |ps[i]| == omtu))
            && (ps == [] <==> omtu < 3 && |data| + 2 > omtu)
            && (|ps| == 1 <==> |data| + 2 <= omtu)
            && (|ps| == 1 ==> TypeOf(ps[0]) == SINGLE && ps[0][1] == signal)
            && (|ps| > 1 ==>
                  && TypeOf(ps[0]) == START && |ps[0]| >= 3 && ps[0][2] == signal
                  && (forall i :: 1 <= i < |ps| ==> TypeOf(ps[i]) == if i + 1 < |ps| then CONTINUE else END))
            && (ps != [] ==> DataIn(ps) == data)
  {
    hide Tail, Announced, SinglePacket, StartPacket, LabelOf, MsgTypeOf, TypeOf, DataOf;
    if 2 + |data| <= omtu {
      SingleIs(transaction, msgType, signal, data);
    } else if omtu >= 3 {
      var rest := data[omtu - 3..];
      var start := StartPacket(transaction, msgType, Announced(|data|, omtu), signal, data[..omtu - 3]);
      StartIs(transaction, msgType, Announced(|data|, omtu), signal, data[..omtu - 3]);
      TailAre(transaction, msgType, rest, omtu);
      Fragments(transaction, msgType, start, Tail(transaction, msgType, rest, omtu), omtu);
    }
  }

  lemma SingleIs(transaction: Label, msgType: MsgType, signal: SignalId, data: seq<byte>)
    ensures var p := SinglePacket(transaction, msgType, signal, data);
            && LabelOf(p) == transaction && MsgTypeOf(p) == msgType && TypeOf(p) == SINGLE
            && |p| == 2 + |data| && p[1] == signal && DataIn([p]) == data
  {
    HeaderIs(transaction, SINGLE, msgType);
    var p := SinglePacket(transaction, msgType, signal, data);
    assert [p][1..] == [] && DataOf(p) == data && data + [] == data;
  }

  lemma StartIs(transaction: Label, msgType: MsgType, count: byte, signal: SignalId, data: seq<byte>)
    ensures var p := StartPacket(transaction, msgType, count, signal, data);
            && LabelOf(p) == transaction && MsgTypeOf(p) == msgType && TypeOf(p) == START
            && |p| == 3 + |data| && p[2] == signal && DataOf(p) == data
  {
    HeaderIs(transaction, START, msgType);
  }

  /** A first packet, and those behind it. */
  lemma Fragments(transaction: Label, msgType: MsgType, start: Packet, tail: seq<Packet>, omtu: nat)
    requires LabelOf(start) == transaction && MsgTypeOf(start) == msgType && tail != []
    requires forall i :: 0 <= i < |tail| ==> tail[i][0] == transaction * 16 + (if i + 1 < |tail| then 2 else 3) * 4 + msgType
    requires forall i :: 0 <= i < |tail| ==> 2 <= |tail[i]| <= omtu && (i + 1 < |tail| ==> |tail[i]| == omtu)
    ensures var ps := [start] + tail;
            && (forall i :: 0 <= i < |ps| ==> LabelOf(ps[i]) == transaction && MsgTypeOf(ps[i]) == msgType)
            && (forall i :: 1 <= i < |ps| ==>
                  && TypeOf(ps[i]) == (if i + 1 < |ps| then CONTINUE else END)
                  && 2 <= |ps[i]| <= omtu && (i + 1 < |ps| ==> |ps[i]| == omtu))
            && DataIn(ps) == DataOf(start) + DataIn(tail)
  {
    hide DataOf;
    var ps := [start] + tail;
    assert ps[1..] == tail;
    forall i | 1 <= i < |ps|
      ensures LabelOf(ps[i]) == transaction && MsgTypeOf(ps[i]) == msgType
      ensures TypeOf(ps[i]) == if i + 1 < |ps| then CONTINUE else END
    {
      assert ps[i] == tail[i - 1];
      HeaderIs(transaction, if i + 1 < |ps| then CONTINUE else END, msgType);
    }
  }

  /** `data_size` has 8 bits, so no longer message is ever handed up. */
  lemma {:induction false} CompleteIsShort(b: InBuf, ps: seq<Packet>)
    requires ValidBuf(b)
    ensures forall i :: 0 <= i < |ps| && Feed(b, ps).1[i].Complete? ==> |Feed(b, ps).1[i].message.payload| <= 255
  {
    if ps != [] {
      CompleteIsShort(b, ps[..|ps| - 1]);
    }
  }

  // ------------------------------------------------- the receiver's language

  predicate WellSized(p: Packet) {
    |p| >= if TypeOf(p) == SINGLE then 2 else if TypeOf(p) == START then 3 else 1
  }

  ghost predicate AllSized(g: seq<Packet>) { forall i :: 0 <= i < |g| ==> WellSized(g[i]) }

  function PayloadOf(p: Packet): seq<byte>
    requires WellSized(p)
  {
    if TypeOf(p) == SINGLE then p[2..] else if TypeOf(p) == START then p[3..] else p[1..]
  }

  ghost function GroupPayload(g: seq<Packet>): seq<byte>
    requires AllSized(g)
  {
    if g == [] then [] else GroupPayload(g[..|g| - 1]) + PayloadOf(g[|g| - 1])
  }

  /** The buffer has room for the last of these packets of one message, behind
      the octets that are counted there. */
  ghost predicate Room(g: seq<Packet>)
    requires g != [] && AllSized(g)
  {
    |GroupPayload(g[..|g| - 1])| % 256 + |PayloadOf(g[|g| - 1])| <= IN_BUF_SIZE
  }

  /** For packet `i` of a message that begins with packet `from`. */
  ghost predicate RoomAt(ps: seq<Packet>, from: nat, i: nat) {
    from <= i < |ps| && AllSized(ps[from..i + 1]) && Room(ps[from..i + 1])
  }

  /** For all packets, as divided. */
  ghost predicate NoOverflow(ps: seq<Packet>, cuts: seq<nat>) {
    forall j: nat, i: nat :: j < |cuts| && cuts[j] <= i < (if j + 1 < |cuts| then cuts[j + 1] else |ps|) ==>
      RoomAt(ps, cuts[j], i)
  }

  function SignalOf(p: Packet): nat
    requires WellSized(p) && TypeOf(p) <= START
  {
    if TypeOf(p) == SINGLE then p[1] % 64 else p[2] % 64
  }

  /** Packets `from..to` of a group continue the START packet with transaction `transaction`. */
  ghost predicate AllContinue(g: seq<Packet>, to: nat) {
    to <= |g| && forall i :: 1 <= i < to ==> TypeOf(g[i]) == CONTINUE && LabelOf(g[i]) == LabelOf(g[0])
  }

  /** One whole message: a SINGLE; a START announcing at most one packet; or a
      START announcing n >= 2, n - 2 CONTINUE and one END, all with its transaction. */
  ghost predicate IsGroup(g: seq<Packet>) {
    && g != [] && AllSized(g)
    && if TypeOf(g[0]) == SINGLE then |g| == 1
       else
         && TypeOf(g[0]) == START
         && if g[0][1] <= 1 then |g| == 1
            else
              && |g| == g[0][1]
              && AllContinue(g, |g| - 1)
              && TypeOf(g[|g| - 1]) == END && LabelOf(g[|g| - 1]) == LabelOf(g[0])
  }

  /** A message that has begun and still lacks packets. */
  ghost predicate IsOpenGroup(g: seq<Packet>) {
    && g != [] && AllSized(g)
    && TypeOf(g[0]) == START && |g| < g[0][1]
    && AllContinue(g, |g|)
  }

  ghost predicate GroupAt(ps: seq<Packet>, from: nat, to: nat) {
    from < to <= |ps| && IsGroup(ps[from..to])
  }

  /** The message of the group `from..to` was handed up with its last packet. */
  ghost predicate AnsweredAt(ps: seq<Packet>, os: seq<Outcome>, from: nat, to: nat) {
    && GroupAt(ps, from, to) && |os| == |ps|
    && var g := ps[from..to];
       |GroupPayload(g)| <= 255 ==> os[to - 1] == Complete(GroupMessage(g))
  }

  /** `cuts` divides the packets into whole messages and, after the last cut,
      nothing or an open one. */
  ghost predicate IsDivision(ps: seq<Packet>, cuts: seq<nat>) {
    && cuts != [] && cuts[0] == 0
    && (forall j :: 0 <= j < |cuts| ==> cuts[j] <= |ps|)
    && (forall j :: 0 <= j < |cuts| - 1 ==> GroupAt(ps, cuts[j], cuts[j + 1]))
    && var last := cuts[|cuts| - 1];
       last < |ps| ==> IsOpenGroup(ps[last..])
  }

  ghost function GroupMessage(g: seq<Packet>): Message
    requires g != [] && WellSized(g[0]) && TypeOf(g[0]) <= START
    requires AllSized(g)
  {
    Message(LabelOf(g[0]), MsgTypeOf(g[0]), SignalOf(g[0]), GroupPayload(g))
  }

  ghost predicate ErrorFree(os: seq<Outcome>) { forall i :: 0 <= i < |os| ==> os[i] != Failed }

  /** What the receiver has answered and holds, told by the division alone. */
  ghost predicate Explained(ps: seq<Packet>, cuts: seq<nat>, b: InBuf, os: seq<Outcome>)
    requires ValidBuf(b) && |os| == |ps|
  {
    && IsDivision(ps, cuts)
    && (forall i :: 0 <= i < |ps| ==> (os[i].Complete? <==> i + 1 in cuts))
    && (forall j :: 0 <= j < |cuts| - 1 ==> AnsweredAt(ps, os, cuts[j], cuts[j + 1]))
    && var last := cuts[|cuts| - 1];
       && (b.active <==> last < |ps|)
       && (last < |ps| ==> HoldsGroup(b, ps[last..]))
  }

  /** The buffer in the middle of the open group `g`. */
  ghost predicate HoldsGroup(b: InBuf, g: seq<Packet>)
    requires ValidBuf(b)
  {
    && IsOpenGroup(g)
    && b.active && b.noOfPackets == g[0][1] - |g| && b.transaction == LabelOf(g[0])
    && b.msgType == MsgTypeOf(g[0]) && b.signal == SignalOf(g[0])
    && b.dataSize == |GroupPayload(g)| % 256
    && (|GroupPayload(g)| <= 255 ==> b.buf[..b.dataSize] == GroupPayload(g))
  }

  /** One packet for a receiver inside the open group `g`. */
  lemma StepInside(b: InBuf, g: seq<Packet>, p: Packet)
    requires ValidBuf(b) && HoldsGroup(b, g)
    ensures var r := ParseStep(b, p);
            && (r.1 == PARSE_FRAGMENT ==> HoldsGroup(r.0, g + [p]))
            && (r.1 == PARSE_SUCCESS ==> (IsGroup(g + [p]) && !r.0.active
                && (|GroupPayload(g + [p])| <= 255 ==> Received(r.0) == GroupMessage(g + [p]))))
            && (r.1 != PARSE_ERROR ==> AllSized(g + [p]) && Room(g + [p]))
            && ((IsOpenGroup(g + [p]) || IsGroup(g + [p])) && Room(g + [p]) ==> r.1 != PARSE_ERROR)
  {
    hide Copied;
    var h := g + [p];
    assert h[..|h| - 1] == g;
    var r := ParseStep(b, p);
    if r.1 != PARSE_ERROR {
      assert GroupPayload(h) == GroupPayload(g) + p[1..];
      CountedAgain(|GroupPayload(g)|, |p| - 1);
      if |GroupPayload(h)| <= 255 { CopiedIs(b, p[1..]); }
      CopiedKeeps(b, p[1..]);
    }
  }

  /** Copying changes nothing but the octets and their number. */
  lemma CopiedKeeps(b: InBuf, payload: seq<byte>)
    requires ValidBuf(b) && b.dataSize + |payload| <= IN_BUF_SIZE
    ensures var c := Copied(b, payload);
            ValidBuf(c) && c == b.(buf := c.buf, dataSize := (b.dataSize + |payload|) % 256)
  {
  }

  lemma CountedAgain(n: nat, m: nat)
    ensures (n % 256 + m) % 256 == (n + m) % 256
  {
  }

  /** One packet for a receiver between messages. */
  lemma StepOutside(b: InBuf, p: Packet)
    requires ValidBuf(b) && !b.active
    ensures var r := ParseStep(b, p);
            && (r.1 == PARSE_FRAGMENT ==> HoldsGroup(r.0, [p]))
            && (r.1 == PARSE_SUCCESS ==> (IsGroup([p]) && !r.0.active
                && (|GroupPayload([p])| <= 255 ==> Received(r.0) == GroupMessage([p]))))
            && (r.1 != PARSE_ERROR ==> AllSized([p]) && Room([p]))
            && ((IsOpenGroup([p]) || IsGroup([p])) && Room([p]) ==> r.1 != PARSE_ERROR)
  {
    assert [p][..0] == [];
    var r := ParseStep(b, p);
    if r.1 != PARSE_ERROR {
      assert GroupPayload([p]) == PayloadOf(p);
      if |PayloadOf(p)| <= 255 {
        assert r.0.buf[..r.0.dataSize] == PayloadOf(p);
      }
    }
  }

  /** The state between two packets: nothing open, or the open group `g`. */
  ghost predicate Between(b: InBuf, g: seq<Packet>)
    requires ValidBuf(b)
  {
    if g == [] then !b.active else HoldsGroup(b, g)
  }

  lemma StepBetween(b: InBuf, g: seq<Packet>, p: Packet)
    requires ValidBuf(b) && Between(b, g)
    ensures var (b1, r) := ParseStep(b, p);
            && (r == PARSE_FRAGMENT ==> HoldsGroup(b1, g + [p]))
            && (r == PARSE_SUCCESS ==> (IsGroup(g + [p]) && !b1.active
                && (|GroupPayload(g + [p])| <= 255 ==> Received(b1) == GroupMessage(g + [p]))))
            && (r != PARSE_ERROR ==> AllSized(g + [p]) && Room(g + [p]))
            && ((IsOpenGroup(g + [p]) || IsGroup(g + [p])) && Room(g + [p]) ==> r != PARSE_ERROR)
  {
    if g == [] {
      StepOutside(b, p);
      assert g + [p] == [p];
    } else {
      StepInside(b, g, p);
    }
  }

  lemma GroupNotOpen(g: seq<Packet>)
    ensures !(IsGroup(g) && IsOpenGroup(g))
  {
  }

  /** The groups that end before the last packet, seen without it. */
  lemma Prefixed(ps: seq<Packet>, from: nat, to: nat)
    requires ps != [] && to < |ps|
    ensures GroupAt(ps, from, to) <==> GroupAt(ps[..|ps| - 1], from, to)
    ensures from <= to ==> ps[..|ps| - 1][from..to] == ps[from..to]
  {
    if from <= to { assert ps[..|ps| - 1][from..to] == ps[from..to]; }
  }

  lemma PrefixAnswered(ps: seq<Packet>, os: seq<Outcome>, from: nat, to: nat)
    requires ps != [] && |os| == |ps|
    requires AnsweredAt(ps[..|ps| - 1], os[..|os| - 1], from, to)
    ensures AnsweredAt(ps, os, from, to)
  {
    Prefixed(ps, from, to);
  }

  lemma PrefixExplained(ps: seq<Packet>, cuts: seq<nat>, b0: InBuf, os: seq<Outcome>)
    requires ps != [] && ValidBuf(b0) && |os| == |ps|
    requires Explained(ps[..|ps| - 1], cuts, b0, os[..|ps| - 1])
    ensures forall j :: 0 <= j < |cuts| - 1 ==> AnsweredAt(ps, os, cuts[j], cuts[j + 1])
    ensures forall i :: 0 <= i < |ps| - 1 ==> (os[i].Complete? <==> i + 1 in cuts)
  {
    forall j | 0 <= j < |cuts| - 1 ensures AnsweredAt(ps, os, cuts[j], cuts[j + 1]) {
      PrefixAnswered(ps, os, cuts[j], cuts[j + 1]);
    }
    assert forall i :: 0 <= i < |ps| - 1 ==> os[..|ps| - 1][i] == os[i];
  }

  /** One more packet inside a message. */
  lemma ExtendOpen(ps: seq<Packet>, cuts: seq<nat>, b0: InBuf, b1: InBuf, os: seq<Outcome>)
    requires ps != [] && ValidBuf(b0) && ValidBuf(b1) && |os| == |ps| && os[|ps| - 1] == Partial
    requires Explained(ps[..|ps| - 1], cuts, b0, os[..|ps| - 1])
    requires HoldsGroup(b1, ps[cuts[|cuts| - 1]..])
    ensures Explained(ps, cuts, b1, os)
  {
    PrefixExplained(ps, cuts, b0, os);
    assert forall j :: 0 <= j < |cuts| - 1 ==> AnsweredAt(ps, os, cuts[j], cuts[j + 1]) && GroupAt(ps, cuts[j], cuts[j + 1]);
  }

  /** One more packet that completes a message. */
  lemma CloseGroup(ps: seq<Packet>, cuts: seq<nat>, b0: InBuf, b1: InBuf, os: seq<Outcome>)
    requires ps != [] && ValidBuf(b0) && ValidBuf(b1) && |os| == |ps| && os[|ps| - 1].Complete?
    requires Explained(ps[..|ps| - 1], cuts, b0, os[..|ps| - 1])
    requires !b1.active && AnsweredAt(ps, os, cuts[|cuts| - 1], |ps|)
    ensures Explained(ps, cuts + [|ps|], b1, os)
  {
    hide IsGroup, HoldsGroup, IsOpenGroup;
    PrefixExplained(ps, cuts, b0, os);
    var all := cuts + [|ps|];
    forall j | 0 <= j < |all| - 1 ensures AnsweredAt(ps, os, all[j], all[j + 1]) && GroupAt(ps, all[j], all[j + 1]) {
      assert j < |cuts| - 1 ==> AnsweredAt(ps, os, cuts[j], cuts[j + 1]);
    }
  }

  /** What one more packet does to the open group, told of the whole sequence. */
  lemma StepLast(ps: seq<Packet>, last: nat, b0: InBuf, b1: InBuf, os: seq<Outcome>)
    requires ps != [] && last < |ps| && ValidBuf(b0) && |os| == |ps|
    requires Between(b0, ps[last..|ps| - 1])
    requires b1 == ParseStep(b0, ps[|ps| - 1]).0
    requires os[|ps| - 1] == OutcomeOf(ParseStep(b0, ps[|ps| - 1]))
    ensures os[|ps| - 1] == Partial ==> HoldsGroup(b1, ps[last..])
    ensures os[|ps| - 1].Complete? ==> !b1.active && AnsweredAt(ps, os, last, |ps|)
    ensures os[|ps| - 1] != Failed ==> RoomAt(ps, last, |ps| - 1)
    ensures (IsOpenGroup(ps[last..]) || IsGroup(ps[last..])) && RoomAt(ps, last, |ps| - 1)
            ==> os[|ps| - 1] != Failed
  {
    hide ParseStep, HoldsGroup, IsGroup, IsOpenGroup, GroupPayload, GroupMessage, Received, Room;
    var n := |ps| - 1;
    StepBetween(b0, ps[last..n], ps[n]);
    assert ps[last..n] + [ps[n]] == ps[last..] == ps[last..|ps|];
  }

  lemma Extend(ps: seq<Packet>, cuts: seq<nat>, b0: InBuf, b1: InBuf, os: seq<Outcome>)
    requires ps != [] && ValidBuf(b0) && |os| == |ps|
    requires Explained(ps[..|ps| - 1], cuts, b0, os[..|ps| - 1])
    requires b1 == ParseStep(b0, ps[|ps| - 1]).0 && os[|ps| - 1] != Failed
    requires os[|ps| - 1] == OutcomeOf(ParseStep(b0, ps[|ps| - 1]))
    ensures Explained(ps, if os[|ps| - 1] == Partial then cuts else cuts + [|ps|], b1, os)
    ensures RoomAt(ps, cuts[|cuts| - 1], |ps| - 1)
  {
    var n, last := |ps| - 1, cuts[|cuts| - 1];
    assert ps[..n][last..] == ps[last..n];
    StepLast(ps, last, b0, b1, os);
    if os[n] == Partial {
      ExtendOpen(ps, cuts, b0, b1, os);
    } else {
      CloseGroup(ps, cuts, b0, b1, os);
    }
  }

  /** Room for all packets but the last, and for that one. */
  lemma MoreRoom(ps: seq<Packet>, cuts: seq<nat>)
    requires ps != [] && cuts != [] && (forall j :: 0 <= j < |cuts| ==> cuts[j] < |ps|)
    requires NoOverflow(ps[..|ps| - 1], cuts) && RoomAt(ps, cuts[|cuts| - 1], |ps| - 1)
    ensures NoOverflow(ps, cuts) && NoOverflow(ps, cuts + [|ps|])
  {
    hide Room;
    var n, all := |ps| - 1, cuts + [|ps|];
    forall j: nat, i: nat | j < |cuts| && cuts[j] <= i < (if j + 1 < |cuts| then cuts[j + 1] else |ps|)
      ensures RoomAt(ps, cuts[j], i)
    {
      if i < n {
        assert RoomAt(ps[..n], cuts[j], i);
        assert ps[..n][cuts[j]..i + 1] == ps[cuts[j]..i + 1];
      }
    }
    forall j: nat, i: nat | j < |all| && all[j] <= i < (if j + 1 < |all| then all[j + 1] else |ps|)
      ensures RoomAt(ps, all[j], i)
    {
      assert cuts[j] == all[j];
    }
  }

  lemma LessRoom(ps: seq<Packet>, cuts: seq<nat>)
    requires ps != [] && IsDivision(ps, cuts) && NoOverflow(ps, cuts)
    ensures var before := Shorter(|ps|, cuts);
            before != [] && NoOverflow(ps[..|ps| - 1], before) && RoomAt(ps, before[|before| - 1], |ps| - 1)
  {
    hide Room;
    ShorterGroups(ps, cuts);
    var n, before := |ps| - 1, Shorter(|ps|, cuts);
    forall j: nat, i: nat | j < |before| && before[j] <= i < (if j + 1 < |before| then before[j + 1] else n)
      ensures RoomAt(ps[..n], before[j], i)
    {
      assert RoomAt(ps, cuts[j], i);
      assert ps[..n][cuts[j]..i + 1] == ps[cuts[j]..i + 1];
    }
    assert RoomAt(ps, cuts[|before| - 1], n);
  }

  /** Soundness: an error-free run is the run of a division into messages, none
      of which overflows the buffer. */
  lemma {:induction false} LanguageSound(b: InBuf, ps: seq<Packet>) returns (cuts: seq<nat>)
    requires ValidBuf(b) && !b.active && ErrorFree(Feed(b, ps).1)
    ensures Explained(ps, cuts, Feed(b, ps).0, Feed(b, ps).1) && NoOverflow(ps, cuts)
  {
    hide HoldsGroup, AnsweredAt, RoomAt, Shorter, OutcomeOf, GroupAt, IsOpenGroup;
    if ps == [] { return [0]; }
    var n := |ps| - 1;
    var (b0, os0) := Feed(b, ps[..n]);
    var (b1, os) := Feed(b, ps);
    assert os[..n] == os0;
    assert ErrorFree(os0) by { assert forall i :: 0 <= i < n ==> os[i] == os0[i]; }
    assert os[n] != Failed;
    cuts := LanguageSound(b, ps[..n]);
    Extend(ps, cuts, b0, b1, os);
    MoreRoom(ps, cuts);
    if os[n] != Partial { cuts := cuts + [|ps|]; }
  }

  lemma {:induction false} CutsIncrease(ps: seq<Packet>, cuts: seq<nat>, j: nat)
    requires IsDivision(ps, cuts) && j < |cuts|
    ensures cuts[j] <= cuts[|cuts| - 1]
    ensures j < |cuts| - 1 ==> cuts[j] < cuts[|cuts| - 1]
    decreases |cuts| - j
  {
    if j < |cuts| - 1 {
      assert GroupAt(ps, cuts[j], cuts[j + 1]);
      CutsIncrease(ps, cuts, j + 1);
    }
  }

  /** The division of all packets but the last. */
  function Shorter(n: nat, cuts: seq<nat>): seq<nat>
    requires cuts != []
  {
    if cuts[|cuts| - 1] == n then cuts[..|cuts| - 1] else cuts
  }

  lemma ShorterGroups(ps: seq<Packet>, cuts: seq<nat>)
    requires ps != [] && IsDivision(ps, cuts)
    ensures var before := Shorter(|ps|, cuts);
            && before != [] && before[0] == 0
            && (forall j :: 0 <= j < |before| ==> before[j] < |ps|)
            && (forall j :: 0 <= j < |before| - 1 ==> GroupAt(ps[..|ps| - 1], before[j], before[j + 1]))
  {
    var before := Shorter(|ps|, cuts);
    forall j | 0 <= j < |before| ensures before[j] < |ps| {
      CutsIncrease(ps, cuts, j);
    }
    forall j | 0 <= j < |before| - 1 ensures GroupAt(ps[..|ps| - 1], before[j], before[j + 1]) {
      assert GroupAt(ps, cuts[j], cuts[j + 1]);
      Prefixed(ps, before[j], before[j + 1]);
    }
  }

  /** The last message, whole or open, and what it was one packet before. */
  lemma ShorterTail(ps: seq<Packet>, cuts: seq<nat>, from: nat)
    requires ps != [] && IsDivision(ps, cuts)
    requires from == Shorter(|ps|, cuts)[|Shorter(|ps|, cuts)| - 1] && from < |ps|
    ensures if cuts[|cuts| - 1] == |ps| then IsGroup(ps[from..]) else IsOpenGroup(ps[from..])
    ensures from < |ps| - 1 ==> IsOpenGroup(ps[from..|ps| - 1])
  {
    hide IsGroup, IsOpenGroup;
    if cuts[|cuts| - 1] == |ps| {
      assert GroupAt(ps, cuts[|cuts| - 2], cuts[|cuts| - 1]);
      assert ps[from..|ps|] == ps[from..];
    }
    if from < |ps| - 1 {
      assert ps[from..|ps| - 1] == ps[from..][..|ps[from..]| - 1];
      OpenButLast(ps[from..]);
    }
  }

  lemma ShorterDivision(ps: seq<Packet>, cuts: seq<nat>)
    requires ps != [] && IsDivision(ps, cuts)
    ensures Shorter(|ps|, cuts) != [] && IsDivision(ps[..|ps| - 1], Shorter(|ps|, cuts))
  {
    ShorterGroups(ps, cuts);
    var before := Shorter(|ps|, cuts);
    var from := before[|before| - 1];
    ShorterTail(ps, cuts, from);
    assert ps[..|ps| - 1][from..] == ps[from..|ps| - 1];
  }

  lemma OpenButLast(g: seq<Packet>)
    requires |g| > 1 && (IsGroup(g) || IsOpenGroup(g))
    ensures IsOpenGroup(g[..|g| - 1])
  {
  }

  /** Completeness: every sequence of messages, the last one possibly
      unfinished, that does not overflow the buffer is taken without error, and
      answered as the division says. */
  lemma {:induction false} LanguageComplete(b: InBuf, ps: seq<Packet>, cuts: seq<nat>)
    requires ValidBuf(b) && !b.active && IsDivision(ps, cuts) && NoOverflow(ps, cuts)
    ensures ErrorFree(Feed(b, ps).1)
    ensures Explained(ps, cuts, Feed(b, ps).0, Feed(b, ps).1)
    decreases |ps|
  {
    if ps == [] {
      assert |cuts| > 1 ==> GroupAt(ps, cuts[0], cuts[1]);
    } else {
      hide NoOverflow, RoomAt;
      ShorterDivision(ps, cuts);
      LessRoom(ps, cuts);
      LanguageComplete(b, ps[..|ps| - 1], Shorter(|ps|, cuts));
      LanguageCompleteStep(b, ps, cuts);
    }
  }

  /** The answer to the last packet of a division. */
  lemma LastOutcome(ps: seq<Packet>, cuts: seq<nat>, from: nat, b0: InBuf, b1: InBuf, os: seq<Outcome>)
    requires ValidBuf(b0) && ps != [] && |os| == |ps| && IsDivision(ps, cuts)
    requires from == Shorter(|ps|, cuts)[|Shorter(|ps|, cuts)| - 1] && from < |ps|
    requires RoomAt(ps, from, |ps| - 1)
    requires Between(b0, ps[from..|ps| - 1])
    requires b1 == ParseStep(b0, ps[|ps| - 1]).0
    requires os[|ps| - 1] == OutcomeOf(ParseStep(b0, ps[|ps| - 1]))
    ensures os[|ps| - 1] != Failed
    ensures os[|ps| - 1] == Partial <==> cuts[|cuts| - 1] != |ps|
  {
    hide IsGroup, IsOpenGroup, RoomAt, ParseStep, Between;
    ShorterTail(ps, cuts, from);
    GroupNotOpen(ps[from..]);
    StepLast(ps, from, b0, b1, os);
    assert ps[from..|ps|] == ps[from..];
  }

  lemma LanguageCompleteStep(b: InBuf, ps: seq<Packet>, cuts: seq<nat>)
    requires ValidBuf(b) && ps != [] && cuts != [] && IsDivision(ps, cuts) && Shorter(|ps|, cuts) != []
    requires RoomAt(ps, Shorter(|ps|, cuts)[|Shorter(|ps|, cuts)| - 1], |ps| - 1)
    requires var (b0, os0) := Feed(b, ps[..|ps| - 1]);
             ErrorFree(os0) && Explained(ps[..|ps| - 1], Shorter(|ps|, cuts), b0, os0)
    ensures ErrorFree(Feed(b, ps).1)
    ensures Explained(ps, cuts, Feed(b, ps).0, Feed(b, ps).1)
  {
    hide ParseStep, IsDivision, HoldsGroup, AnsweredAt, Explained, RoomAt, Between, OutcomeOf;
    var n, before := |ps| - 1, Shorter(|ps|, cuts);
    var (b0, os0) := Feed(b, ps[..n]);
    var (b1, os) := Feed(b, ps);
    var from := before[|before| - 1];
    assert os[..n] == os0;
    ShorterGroups(ps, cuts);
    BetweenLast(ps[..n], before, b0, os0);
    assert ps[..n][from..] == ps[from..n];
    LastOutcome(ps, cuts, from, b0, b1, os);
    Extend(ps, before, b0, b1, os);
    ShorterIs(cuts, |ps|);
    MoreErrorFree(os);
  }

  lemma ShorterIs(cuts: seq<nat>, n: nat)
    requires cuts != []
    ensures cuts == if cuts[|cuts| - 1] != n then Shorter(n, cuts) else Shorter(n, cuts) + [n]
  {
  }

  lemma MoreErrorFree(os: seq<Outcome>)
    requires os != [] && ErrorFree(os[..|os| - 1]) && os[|os| - 1] != Failed
    ensures ErrorFree(os)
  {
    forall i | 0 <= i < |os| ensures os[i] != Failed {
      assert i < |os| - 1 ==> os[i] == os[..|os| - 1][i];
    }
  }

  /** What the receiver holds after the last cut. */
  lemma BetweenLast(ps: seq<Packet>, cuts: seq<nat>, b: InBuf, os: seq<Outcome>)
    requires ValidBuf(b) && |os| == |ps| && cuts != [] && Explained(ps, cuts, b, os)
    ensures cuts[|cuts| - 1] <= |ps| && Between(b, ps[cuts[|cuts| - 1]..])
  {
  }

  /** The language of the receiver: the sequences it takes without error are
      exactly those that can be divided so that no message overflows the buffer. */
  lemma Language(b: InBuf, ps: seq<Packet>)
    requires ValidBuf(b) && !b.active
    ensures ErrorFree(Feed(b, ps).1) <==> exists cuts :: IsDivision(ps, cuts) && NoOverflow(ps, cuts)
  {
    if ErrorFree(Feed(b, ps).1) {
      var cuts := LanguageSound(b, ps);
      assert IsDivision(ps, cuts);
    } else if cuts :| IsDivision(ps, cuts) && NoOverflow(ps, cuts) {
      LanguageComplete(b, ps, cuts);
    }
  }
}
