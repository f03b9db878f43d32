/** The frames of the serial link: a parser that takes one octet at a time, the
    checksum, and the dispatch of what was received. */
module SerialFrames {
  import opened Common

  const STX: byte := 0x44
  const ETX: byte := 0x43
  const NORMAL: byte := 0
  const DEBUG: byte := 1
  const BUFFER: nat := 30

  /** The states of the parser; the one named for the checksum is not used. */
  datatype State = AtStx | AtSync | AtLength | AtData | AtEtx

  /** The counters are unsigned integers of 32 bits. */
  const WORD: nat := 0x1_0000_0000

  /** `DCComm`: `index` and `left` are its two counters. */
  datatype Link = Link(state: State, buff: seq<byte>, index: nat, left: nat, finish: bool, debug: bool)

  // -------------------------------------------------------------- operations

  /** One octet stored and counted. */
  function Store(c: Link, b: byte): Link
    requires c.index < |c.buff|
  {
    c.(buff := c.buff[c.index := b], index := c.index + 1)
  }

  /** `DCComm_Recv_MSG_Parser`: the new state and the result; None stands for a
      write outside the buffer. */
  function Recv(c: Link, b: byte): Option<(Link, int)> {
    if c.state.AtStx? then (if b == STX then Some((c.(index := 0, state := AtSync), 0)) else Some((c, -1)))
    else if c.state.AtEtx? && b != ETX then Some((c, -1))
    else if c.index >= |c.buff| then None
    else
      match c.state
      case AtSync => Some((Store(c, b).(state := AtLength), 0))
      case AtLength => Some((Store(c, b).(state := AtData, left := b), 0))
      case AtData =>
        if c.left != 1 then Some((Store(c, b).(left := (c.left + WORD - 1) % WORD), 0))
        else Some((Store(c, b).(state := AtEtx), 0))
      case AtEtx => Some((c.(buff := c.buff[c.index := b], finish := true, state := AtStx), 0))
  }

  /** What one octet comes to, in each state. Between frames all but a first octet
      are strays; at the end of one all but a last octet are. The octet behind the
      first is stored, then the length, which is counted, then so many octets less
      one, counting down, then one more; and the last one, which completes the
      frame. A store that is not in the buffer is none. */
  lemma OctetCases(c: Link, b: byte)
    ensures c.state.AtStx? ==> Recv(c, b) == Some(if b == 0x44 then (c.(index := 0, state := AtSync), 0) else (c, -1))
    ensures c.state.AtEtx? && b != 0x43 ==> Recv(c, b) == Some((c, -1))
    ensures !c.state.AtStx? && (c.state.AtEtx? ==> b == 0x43) && c.index >= |c.buff| ==> Recv(c, b) == None
    ensures c.index < |c.buff| ==>
              var stored := c.(buff := c.buff[c.index := b], index := c.index + 1);
              && (c.state.AtSync? ==> Recv(c, b) == Some((stored.(state := AtLength), 0)))
              && (c.state.AtLength? ==> Recv(c, b) == Some((stored.(state := AtData, left := b), 0)))
              && (c.state.AtData? && c.left == 1 ==> Recv(c, b) == Some((stored.(state := AtEtx), 0)))
              && (c.state.AtData? && 1 < c.left <= WORD ==> Recv(c, b) == Some((stored.(left := c.left - 1), 0)))
              && (c.state.AtData? && c.left == 0 ==> Recv(c, b) == Some((stored.(left := WORD - 1), 0)))
              && (c.state.AtEtx? && b == 0x43 ==>
                    Recv(c, b) == Some((stored.(index := c.index, finish := true, state := AtStx), 0)))
  {
  }

  function Sum(s: seq<byte>): nat { if s == [] then 0 else Sum(s[..|s| - 1]) + s[|s| - 1] }

  /** Whether a buffer holds a frame of a length the code is made for. */
  predicate Framed(buff: seq<byte>) { |buff| == BUFFER && 2 <= buff[1] <= 27 }

  /** `DCComm_Chk_CSum`: over the octets between the length and the checksum. */
  predicate CheckSum(c: Link)
    requires Framed(c.buff)
  {
    c.debug || c.buff[c.buff[1] + 1] == Sum(c.buff[2..c.buff[1] + 1]) % 256
  }

  /** `DCComm_Recv_State_Control`. */
  function Control(c: Link): (Link, int)
    requires c.finish ==> Framed(c.buff)
  {
    if !c.finish then (c, -4)
    else
      var c1 := c.(finish := false);
      var operation: int := c.buff[2];
      if !CheckSum(c) then (c1, -3)
      else if c.buff[0] == NORMAL then (c1, if 1 <= operation <= 6 then operation else -2)
      else if c.buff[0] == DEBUG && operation == 1 then (c1.(debug := !c.debug), 11)
      else (c1, -2)
  }

  /** The sum of some octets, one by one. */
  lemma SumIs(s: seq<byte>, b: byte)
    ensures Sum([]) == 0 && Sum(s + [b]) == Sum(s) + b
  {
    assert (s + [b])[..|s|] == s;
  }

  lemma SumNothing(data: seq<byte>)
    ensures Sum(data[..0]) % 256 == 0
  {
  }

  /** One more octet of the checksum, modulo 256. */
  lemma SumMore(data: seq<byte>, i: nat)
    requires i < |data|
    ensures Sum(data[..i + 1]) % 256 == (Sum(data[..i]) % 256 + data[i]) % 256
  {
    assert data[..i + 1][..i] == data[..i];
  }

  // --------------------------------------------------------- the link in place

  class DCComm {
    var state: State
    const buff: array<byte>
    var index: nat
    var left: nat
    var finish: bool
    var debug: bool

    ghost function Value(): Link reads this, buff { Link(state, buff[..], index, left, finish, debug) }

    constructor ()
      ensures fresh(buff) && Value() == Link(AtStx, seq(BUFFER, _ => 0), 0, 0, false, false)
    {
      state, index, left, finish, debug := AtStx, 0, 0, false, false;
      buff := new byte[BUFFER](_ => 0);
    }

    method Put(b: byte)
      requires index < buff.Length
      modifies this`index, buff
      ensures Value() == Store(old(Value()), b)
    {
      buff[index] := b;
      index := index + 1;
    }

    /** `DCComm_Recv_MSG_Parser`. */
    method RecvMsgParser(b: byte) returns (result: int)
      requires Recv(Value(), b).Some?
      modifies this, buff
      ensures Some((Value(), result)) == Recv(old(Value()), b)
    {
      if state == AtStx && b == STX {
        index := 0;
        state := AtSync;
      } else if state == AtSync {
        state := AtLength;
        Put(b);
      } else if state == AtLength {
        state := AtData;
        Put(b);
        left := b;
      } else if state == AtData && left != 1 {
        Put(b);
        left := (left + WORD - 1) % WORD;
      } else if state == AtData && left == 1 {
        state := AtEtx;
        Put(b);
      } else if state == AtEtx && b == ETX {
        buff[index] := b;
        finish := true;
        state := AtStx;
      } else {
        return -1;
      }
      result := 0;
    }

    /** `DCComm_Chk_CSum`: the loop runs once before its condition is tested. */
    method ChkCSum() returns (good: bool)
      requires Framed(buff[..])
      ensures good == CheckSum(Value())
    {
      hide Sum;
      ghost var data := buff[..][2..buff[1] + 1];
      SumNothing(data);
      var sum: byte, u8Data, length := 0, 2, buff[1];
      var more := true;
      while more
        invariant more <==> length != 1
        invariant 1 <= length <= buff[1] && u8Data == buff[1] + 2 - length
        invariant sum == Sum(data[..u8Data - 2]) % 256
        decreases length
      {
        SumMore(data, u8Data - 2);
        sum := (sum + buff[u8Data]) % 256;
        u8Data := u8Data + 1;
        length := length - 1;
        more := length != 1;
      }
      assert data[..u8Data - 2] == data;
      if debug { return true; }
      good := buff[u8Data] == sum;
    }

    /** `DCComm_Recv_State_Control`. */
    method RecvStateControl() returns (result: int)
      requires finish ==> Framed(buff[..])
      modifies this`finish, this`debug
      ensures (Value(), result) == Control(old(Value()))
    {
      if !finish { return -4; }
      finish := false;
      var good := ChkCSum();
      if !good { return -3; }
      if buff[0] == NORMAL {
        if 1 <= buff[2] <= 6 { return buff[2]; }
      } else if buff[0] == DEBUG {
        if buff[2] == 1 {
          debug := !debug;
          return 11;
        }
      }
      result := -2;
    }
  }

  // ------------------------------------------------------------ whole streams

  /** What comes of a stream: the results of the parser, octet by octet, and the
      replies of the dispatch, which runs whenever a frame is complete. */
  datatype Heard = Heard(link: Link, results: seq<int>, replies: seq<int>)

  function Listen(c: Link, s: seq<byte>): Option<Heard>
    decreases |s|
  {
    if s == [] then Some(Heard(c, [], []))
    else
      match Recv(c, s[0])
      case None => None
      case Some((c1, result)) =>
        if c1.finish && !Framed(c1.buff) then None
        else
          var (c2, reply) := if c1.finish then Control(c1) else (c1, 0);
          match Listen(c2, s[1..])
          case None => None
          case Some(h) => Some(Heard(h.link, [result] + h.results, (if c1.finish then [reply] else []) + h.replies))
  }

  /** A frame as it is sent, with stray octets before it and before its end. */
  datatype Frame = Frame(before: seq<byte>, sync: byte, data: seq<byte>, sum: byte, late: seq<byte>)

  /** The lengths the code is made for: 2 to 27, one more than there are data. */
  predicate Proper(f: Frame) { 1 <= |f.data| <= 26 && STX !in f.before && ETX !in f.late }

  /** All but the last octet. */
  function Body(f: Frame): seq<byte>
    requires Proper(f)
  {
    f.before + ([STX, f.sync, |f.data| + 1] + (f.data + ([f.sum] + f.late)))
  }

  function Octets(f: Frame): seq<byte>
    requires Proper(f)
  {
    Body(f) + [ETX]
  }

  /** One more stretch of a stream, in which no frame ends. */
  function Then(results: seq<int>, h: Option<Heard>): Option<Heard> {
    match h case None => None case Some(x) => Some(x.(results := results + x.results))
  }

  function Repeat(n: nat, x: int): seq<int> { seq(n, _ => x) }

  /** An octet that ends no frame. */
  lemma OneOctet(c: Link, b: byte, rest: seq<byte>)
    requires Recv(c, b).Some? && !Recv(c, b).value.0.finish
    ensures Listen(c, [b] + rest) == Then([Recv(c, b).value.1], Listen(Recv(c, b).value.0, rest))
  {
    assert ([b] + rest)[0] == b && ([b] + rest)[1..] == rest;
    var h := Listen(Recv(c, b).value.0, rest);
    if h.Some? { assert [] + h.value.replies == h.value.replies; }
  }

  lemma {:induction false} Strays(c: Link, stray: seq<byte>, rest: seq<byte>)
    requires !c.finish
    requires (c.state.AtStx? && STX !in stray) || (c.state.AtEtx? && ETX !in stray)
    ensures Listen(c, stray + rest) == Then(Repeat(|stray|, -1), Listen(c, rest))
  {
    if stray == [] {
      assert stray + rest == rest;
      ThenNothing(Listen(c, rest));
    } else {
      assert stray + rest == [stray[0]] + (stray[1..] + rest);
      OneOctet(c, stray[0], stray[1..] + rest);
      assert stray[0] in stray && forall b :: b in stray[1..] ==> b in stray;
      Strays(c, stray[1..], rest);
      ThenMore(-1, Repeat(|stray| - 1, -1), Listen(c, rest));
      assert [-1] + Repeat(|stray| - 1, -1) == Repeat(|stray|, -1);
    }
  }

  lemma ThenNothing(h: Option<Heard>)
    ensures Then([], h) == h
  {
    if h.Some? { assert [] + h.value.results == h.value.results; }
  }

  lemma ThenMore(r: int, results: seq<int>, h: Option<Heard>)
    ensures Then([r], Then(results, h)) == Then([r] + results, h)
  {
    if h.Some? { assert [r] + (results + h.value.results) == ([r] + results) + h.value.results; }
  }

  /** The data of a frame, stored one after the other. */
  function Stored(c: Link, data: seq<byte>): Link
    requires |c.buff| == BUFFER && c.index + |data| <= BUFFER
  {
    c.(buff := c.buff[..c.index] + data + c.buff[c.index + |data|..], index := c.index + |data|)
  }

  lemma DataOctet(c: Link, b: byte)
    requires c.state.AtData? && c.left != 1 && 0 < c.left <= WORD && c.index < |c.buff|
    ensures Recv(c, b) == Some((Store(c, b).(left := c.left - 1), 0))
  {
    assert (c.left + WORD - 1) % WORD == c.left - 1;
  }

  lemma StoredNext(c: Link, data: seq<byte>)
    requires data != [] && |c.buff| == BUFFER && c.index + |data| <= BUFFER
    ensures Stored(Store(c, data[0]), data[1..]) == Stored(c, data)
  {
    var c1 := Store(c, data[0]);
    assert c1.buff[..c1.index] == c.buff[..c.index] + [data[0]];
    assert c1.buff[..c1.index] + data[1..] == c.buff[..c.index] + data;
  }

  lemma {:induction false} DataStored(c: Link, data: seq<byte>, rest: seq<byte>)
    requires c.state.AtData? && !c.finish && c.left == |data| + 1 < WORD
    requires |c.buff| == BUFFER && c.index + |data| <= BUFFER
    ensures Listen(c, data + rest) == Then(Repeat(|data|, 0), Listen(Stored(c, data).(left := 1), rest))
    decreases |data|
  {
    hide Listen, Recv, Then;
    if data == [] {
      assert data + rest == rest;
      assert Stored(c, data).(left := 1) == c;
      ThenNothing(Listen(c, rest));
    } else {
      var c1 := Store(c, data[0]).(left := c.left - 1);
      assert data + rest == [data[0]] + (data[1..] + rest);
      DataOctet(c, data[0]);
      OneOctet(c, data[0], data[1..] + rest);
      DataStored(c1, data[1..], rest);
      StoredNext(c, data);
      ThenMore(0, Repeat(|data| - 1, 0), Listen(Stored(c, data).(left := 1), rest));
      assert [0] + Repeat(|data| - 1, 0) == Repeat(|data|, 0);
    }
  }

  /** The results of the parser for a frame, but for the last octet. */
  function BodyResults(f: Frame): seq<int> {
    Repeat(|f.before|, -1) + (Repeat(3, 0) + (Repeat(|f.data|, 0) + ([0] + Repeat(|f.late|, -1))))
  }

  /** The buffer after a frame: all that follows the first octet, without strays. */
  function Kept(c: Link, f: Frame): seq<byte>
    requires |c.buff| == BUFFER && Proper(f)
  {
    [f.sync, |f.data| + 1] + f.data + [f.sum, ETX] + c.buff[|f.data| + 4..]
  }

  /** The link when a frame has just been completed. */
  function Received(c: Link, f: Frame): Link
    requires |c.buff| == BUFFER && Proper(f)
  {
    Link(AtStx, Kept(c, f), |f.data| + 3, 1, true, c.debug)
  }

  lemma AtStart(c: Link, f: Frame, rest: seq<byte>)
    requires c.state.AtStx? && !c.finish && |c.buff| == BUFFER && Proper(f)
    ensures var c3 := c.(state := AtData, buff := [f.sync, |f.data| + 1] + c.buff[2..], index := 2, left := |f.data| + 1);
            Listen(c, [STX, f.sync, |f.data| + 1] + rest) == Then(Repeat(3, 0), Listen(c3, rest))
  {
    var n: byte := |f.data| + 1;
    var c1 := c.(index := 0, state := AtSync);
    var c2 := Store(c1, f.sync).(state := AtLength);
    var c3 := Store(c2, n).(state := AtData, left := n);
    assert [STX, f.sync, n] + rest == [STX] + ([f.sync] + ([n] + rest));
    OneOctet(c, STX, [f.sync] + ([n] + rest));
    OneOctet(c1, f.sync, [n] + rest);
    OneOctet(c2, n, rest);
    ThenMore(0, [0], Listen(c3, rest));
    ThenMore(0, [0, 0], Listen(c3, rest));
    assert [0] + [0] == [0, 0] && [0] + [0, 0] == Repeat(3, 0);
    assert c3.buff == [f.sync, n] + c.buff[2..];
  }

  lemma SumStored(c: Link, sum: byte, rest: seq<byte>)
    requires c.state.AtData? && c.left == 1 && !c.finish && c.index < |c.buff|
    ensures Listen(c, [sum] + rest) == Then([0], Listen(Store(c, sum).(state := AtEtx), rest))
  {
    OneOctet(c, sum, rest);
  }

  /** The link when only the last octet of a frame is missing. */
  function Nearly(c: Link, f: Frame): Link
    requires |c.buff| == BUFFER && Proper(f)
  {
    Link(AtEtx, [f.sync, |f.data| + 1] + f.data + [f.sum] + c.buff[|f.data| + 3..], |f.data| + 3, 1, false, c.debug)
  }

  /** A frame but for its last octet: no frame ends, and nothing is written
      outside the buffer. */
  lemma BodyHeard(c: Link, f: Frame, rest: seq<byte>)
    requires c.state.AtStx? && !c.finish && |c.buff| == BUFFER && Proper(f)
    ensures Listen(c, Body(f) + rest) == Then(BodyResults(f), Listen(Nearly(c, f), rest))
  {
    hide Listen, Recv, Then;
    var n: byte := |f.data| + 1;
    var s3 := f.late + rest;
    var s2 := [f.sum] + s3;
    var s1 := f.data + s2;
    var s0 := [STX, f.sync, n] + s1;
    assert Body(f) + rest == f.before + s0;
    Strays(c, f.before, s0);
    AtStart(c, f, s1);
    var c3 := c.(state := AtData, buff := [f.sync, n] + c.buff[2..], index := 2, left := n);
    DataStored(c3, f.data, s2);
    var c4 := Stored(c3, f.data).(left := 1);
    SumStored(c4, f.sum, s3);
    var c5 := Store(c4, f.sum).(state := AtEtx);
    assert c5.buff == Nearly(c, f).buff;
    Strays(c5, f.late, rest);
    Together(f, Listen(c5, rest));
  }

  lemma Together(f: Frame, h: Option<Heard>)
    ensures Then(Repeat(|f.before|, -1),
              Then(Repeat(3, 0), Then(Repeat(|f.data|, 0), Then([0], Then(Repeat(|f.late|, -1), h)))))
            == Then(BodyResults(f), h)
  {
    if h.Some? {
      var r := h.value.results;
      var a, b, d, e := Repeat(|f.before|, -1), Repeat(3, 0), Repeat(|f.data|, 0), Repeat(|f.late|, -1);
      assert a + (b + (d + ([0] + (e + r)))) == BodyResults(f) + r;
    }
  }

  /** The reply to a frame. */
  function Reply(f: Frame, debug: bool): int
    requires Proper(f)
  {
    if !debug && f.sum != Sum(f.data) % 256 then -3
    else if f.sync == NORMAL then (if 1 <= f.data[0] <= 6 then f.data[0] else -2)
    else if f.sync == DEBUG && f.data[0] == 1 then 11
    else -2
  }

  /** What a completed frame comes to: -3 if and only if the checksum is wrong
      and debugging is off; otherwise the operation it names, if any. */
  lemma FrameReply(c: Link, f: Frame)
    requires |c.buff| == BUFFER && Proper(f)
    ensures Framed(Kept(c, f))
    ensures var (c1, reply) := Control(Received(c, f));
            && reply == Reply(f, c.debug)
            && (reply == -3 <==> !c.debug && f.sum != Sum(f.data) % 256)
            && (reply != -3 && f.sync == 0 ==> reply == if 1 <= f.data[0] <= 6 then f.data[0] else -2)
            && (reply != -3 && f.sync == 1 ==> reply == if f.data[0] == 1 then 11 else -2)
            && (reply != -3 && f.sync > 1 ==> reply == -2)
            && c1 == Received(c, f).(finish := false, debug := (c.debug != (reply == 11)))
  {
    var b := Kept(c, f);
    assert b[2..|f.data| + 2] == f.data && b[|f.data| + 2] == f.sum;
  }

  /** One frame, and what comes after it. */
  function Replied(results: seq<int>, reply: int, h: Option<Heard>): Option<Heard> {
    match h case None => None case Some(x) => Some(Heard(x.link, results + x.results, [reply] + x.replies))
  }

  /** The link after a frame and its reply. */
  function Served(c: Link, f: Frame): Link
    requires |c.buff| == BUFFER && Proper(f)
  {
    Received(c, f).(finish := false, debug := (c.debug != (Reply(f, c.debug) == 11)))
  }

  lemma OneFrame(c: Link, f: Frame, rest: seq<byte>)
    requires c.state.AtStx? && !c.finish && |c.buff| == BUFFER && Proper(f)
    ensures Listen(c, Octets(f) + rest) == Replied(BodyResults(f) + [0], Reply(f, c.debug), Listen(Served(c, f), rest))
  {
    hide Recv, Control, Sum;
    assert Octets(f) + rest == Body(f) + ([ETX] + rest);
    BodyHeard(c, f, [ETX] + rest);
    FrameReply(c, f);
    LastOctet(c, f, rest);
    var h := Listen(Served(c, f), rest);
    if h.Some? { assert BodyResults(f) + ([0] + h.value.results) == (BodyResults(f) + [0]) + h.value.results; }
  }

  /** The end of a frame, and the dispatch. */
  lemma LastOctet(c: Link, f: Frame, rest: seq<byte>)
    requires |c.buff| == BUFFER && Proper(f)
    ensures Listen(Nearly(c, f), [ETX] + rest) == Replied([0], Reply(f, c.debug), Listen(Served(c, f), rest))
  {
    hide Sum;
    assert ([ETX] + rest)[0] == ETX && ([ETX] + rest)[1..] == rest;
    var c1 := Recv(Nearly(c, f), ETX).value.0;
    NearlyKept(c, f);
    assert c1 == Received(c, f);
    FrameReply(c, f);
  }

  lemma NearlyKept(c: Link, f: Frame)
    requires |c.buff| == BUFFER && Proper(f)
    ensures Nearly(c, f).buff[|f.data| + 3 := ETX] == Kept(c, f)
  {
    var n := |f.data| + 3;
    var head, rest := [f.sync, |f.data| + 1] + f.data + [f.sum], c.buff[n..];
    assert |head| == n && rest == [rest[0]] + c.buff[n + 1..];
    assert (head + rest)[n := ETX] == head + [ETX] + c.buff[n + 1..];
    assert head + [ETX] == [f.sync, |f.data| + 1] + f.data + [f.sum, ETX];
  }

  /** One frame from the idle parser: nothing is written outside the buffer; each
      octet of the frame proper is taken with result 0, and each stray one with
      -1; what follows the first octet is stored; the frame's reply is given; and
      the parser is idle again. */
  lemma FrameHeard(c: Link, f: Frame)
    requires c.state.AtStx? && !c.finish && |c.buff| == BUFFER && Proper(f)
    ensures var h := Listen(c, Octets(f));
            && h.Some? && h.value.results == BodyResults(f) + [0] && h.value.replies == [Reply(f, c.debug)]
            && h.value.link.state.AtStx? && !h.value.link.finish
            && h.value.link.buff == [f.sync, |f.data| + 1] + f.data + [f.sum, ETX] + c.buff[|f.data| + 4..]
            && h.value.link.debug == (c.debug != (Reply(f, c.debug) == 11))
  {
    OneFrame(c, f, []);
    assert Octets(f) + [] == Octets(f) && (BodyResults(f) + [0]) + [] == BodyResults(f) + [0];
  }

  /** A stream in two parts. */
  function Joined(h: Option<Heard>, rest: seq<byte>): Option<Heard> {
    match h
    case None => None
    case Some(x) =>
      match Listen(x.link, rest)
      case None => None
      case Some(y) => Some(Heard(y.link, x.results + y.results, x.replies + y.replies))
  }

  lemma {:induction false} Split(c: Link, a: seq<byte>, b: seq<byte>)
    ensures Listen(c, a + b) == Joined(Listen(c, a), b)
    decreases |a|
  {
    if a == [] {
      assert a + b == b;
      var h := Listen(c, b);
      if h.Some? { assert [] + h.value.results == h.value.results && [] + h.value.replies == h.value.replies; }
    } else {
      assert (a + b)[0] == a[0] && (a + b)[1..] == a[1..] + b;
      var r := Recv(c, a[0]);
      if r.Some? && (r.value.0.finish ==> Framed(r.value.0.buff)) {
        var c1 := r.value.0;
        var (c2, reply) := if c1.finish then Control(c1) else (c1, 0);
        Split(c2, a[1..], b);
        var x := Listen(c2, a[1..]);
        if x.Some? && Listen(x.value.link, b).Some? {
          var y := Listen(x.value.link, b).value;
          var first := if c1.finish then [reply] else [];
          assert [r.value.1] + (x.value.results + y.results) == ([r.value.1] + x.value.results) + y.results;
          assert first + (x.value.replies + y.replies) == (first + x.value.replies) + y.replies;
        }
      }
    }
  }

  /** Only the last octet completes the frame: no part of it gets a reply. */
  lemma NotBefore(c: Link, f: Frame, k: nat)
    requires c.state.AtStx? && !c.finish && |c.buff| == BUFFER && Proper(f) && k < |Octets(f)|
    ensures var h := Listen(c, Octets(f)[..k]); h.Some? && h.value.replies == [] && !h.value.link.finish
  {
    hide Recv;
    BodyHeard(c, f, []);
    var s := Body(f);
    assert s + [] == s && Octets(f)[..k] == s[..k] && s[..k] + s[k..] == s;
    Split(c, s[..k], s[k..]);
    NeverLeft(c, s[..k]);
  }

  /** A completed frame never waits for its dispatch. */
  lemma {:induction false} NeverLeft(c: Link, s: seq<byte>)
    requires !c.finish
    ensures Listen(c, s).Some? ==> !Listen(c, s).value.link.finish
    decreases |s|
  {
    if s != [] {
      var r := Recv(c, s[0]);
      if r.Some? && (r.value.0.finish ==> Framed(r.value.0.buff)) {
        NeverLeft(if r.value.0.finish then Control(r.value.0).0 else r.value.0, s[1..]);
      }
    }
  }

  function Stream(fs: seq<Frame>): seq<byte>
    requires forall f :: f in fs ==> Proper(f)
  {
    if fs == [] then [] else Octets(fs[0]) + Stream(fs[1..])
  }

  function Replies(fs: seq<Frame>, debug: bool): seq<int>
    requires forall f :: f in fs ==> Proper(f)
  {
    if fs == [] then []
    else [Reply(fs[0], debug)] + Replies(fs[1..], debug != (Reply(fs[0], debug) == 11))
  }

  /** And so for any number of frames, with any strays between them: each frame
      gets its reply, in order, by the debug mode the frames before it set. */
  lemma {:induction false} StreamHeard(c: Link, fs: seq<Frame>)
    requires c.state.AtStx? && !c.finish && |c.buff| == BUFFER
    requires forall f :: f in fs ==> Proper(f)
    ensures var h := Listen(c, Stream(fs));
            && h.Some? && h.value.replies == Replies(fs, c.debug)
            && h.value.link.state.AtStx? && !h.value.link.finish && |h.value.link.buff| == BUFFER
    decreases |fs|
  {
    hide Recv, Reply, Octets;
    if fs != [] {
      assert fs[0] in fs && forall f :: f in fs[1..] ==> f in fs;
      OneFrame(c, fs[0], Stream(fs[1..]));
      StreamHeard(Served(c, fs[0]), fs[1..]);
    }
  }

  /** With no completed frame the dispatch does nothing. */
  lemma NothingToDispatch(c: Link)
    requires !c.finish
    ensures Control(c) == (c, -4)
  {
  }
}
