/** Lists of service capabilities as category, length, value triples
    (Bluetooth AVDTP 1.3, section 8.21), and the messages that carry them. */
module AvdtpCapabilities {
  import opened Common
  import AvdtpSignalling

  type CapData = d: seq<byte> | |d| <= 255

  datatype Capability = Capability(category: byte, data: CapData)

  const MEDIA_CODEC: byte := 7
  const DELAY_REPORTING: byte := 8
  /** Size of the fixed part of a codec capability. */
  const CODEC_HEADER: nat := 2
  const CONFIG_BUF_SIZE: nat := 1024

  function SerializeOne(c: Capability): seq<byte> { [c.category, |c.data|] + c.data }

  function Serialize(caps: seq<Capability>): seq<byte> {
    if caps == [] then [] else SerializeOne(caps[0]) + Serialize(caps[1..])
  }

  lemma {:induction false} SerializeConcat(a: seq<Capability>, b: seq<Capability>)
    ensures Serialize(a + b) == Serialize(a) + Serialize(b)
  {
    if a == [] {
      assert a + b == b;
    } else {
      assert (a + b)[1..] == a[1..] + b;
      SerializeConcat(a[1..], b);
    }
  }

  /** The capabilities at the front of `data`, up to the first that is cut short. */
  function Parse(data: seq<byte>): seq<Capability> {
    if |data| < 2 || 2 + data[1] > |data| then []
    else [Capability(data[0], data[2..2 + data[1]])] + Parse(data[2 + data[1]..])
  }

  /** The last codec capability long enough to be one, else what was there. */
  function CodecOf(caps: seq<Capability>, before: Option<Capability>): Option<Capability> {
    if caps == [] then before
    else
      var c := caps[|caps| - 1];
      if c.category == MEDIA_CODEC && |c.data| >= CODEC_HEADER then Some(c)
      else CodecOf(caps[..|caps| - 1], before)
  }

  ghost predicate ReportsDelay(caps: seq<Capability>) {
    exists i :: 0 <= i < |caps| && caps[i].category == DELAY_REPORTING
  }

  /** The capability at the front of what is left. */
  lemma ParseFrom(bytes: seq<byte>, at: nat)
    requires at + 2 <= |bytes| && at + 2 + bytes[at + 1] <= |bytes|
    ensures var next := at + 2 + bytes[at + 1];
            Parse(bytes[at..]) == [Capability(bytes[at], bytes[at + 2..next])] + Parse(bytes[next..])
  {
    var data, next := bytes[at..], at + 2 + bytes[at + 1];
    assert data[2..2 + data[1]] == bytes[at + 2..next];
    assert data[2 + data[1]..] == bytes[next..];
  }

  lemma ReportsDelayAppend(caps: seq<Capability>, c: Capability)
    ensures ReportsDelay(caps + [c]) <==> ReportsDelay(caps) || c.category == DELAY_REPORTING
  {
    var all := caps + [c];
    assert all[|caps|] == c;
    assert forall i :: 0 <= i < |caps| ==> all[i] == caps[i];
  }

  lemma CodecAppend(caps: seq<Capability>, c: Capability, before: Option<Capability>)
    ensures CodecOf(caps + [c], before)
            == if c.category == MEDIA_CODEC && |c.data| >= CODEC_HEADER then Some(c) else CodecOf(caps, before)
  {
    var all := caps + [c];
    assert all[|all| - 1] == c && all[..|all| - 1] == caps;
  }

  lemma NothingRead(bytes: seq<byte>, before: Option<Capability>)
    ensures Parse(bytes[0..]) == Parse(bytes) && CodecOf([], before) == before && !ReportsDelay([])
  {
    assert bytes[0..] == bytes;
  }

  lemma NothingLeft(data: seq<byte>)
    ensures |data| < 2 || 2 + data[1] > |data| ==> Parse(data) == []
  {
  }

  /** `caps_to_list`: `codec` is overwritten in place, `delay` always set. */
  method CapsToList(bytes: seq<byte>, oldCodec: Option<Capability>)
    returns (caps: seq<Capability>, codec: Option<Capability>, delay: bool)
    ensures caps == Parse(bytes)
    ensures codec == CodecOf(caps, oldCodec)
    ensures delay <==> ReportsDelay(caps)
  {
    hide Parse, CodecOf, ReportsDelay;
    var processed := 0;
    caps, codec, delay := [], oldCodec, false;
    NothingRead(bytes, oldCodec);
    while processed + 2 <= |bytes|
      invariant processed <= |bytes|
      invariant Parse(bytes) == caps + Parse(bytes[processed..])
      invariant codec == CodecOf(caps, oldCodec)
      invariant delay <==> ReportsDelay(caps)
    {
      var category, length := bytes[processed], bytes[processed + 1];
      if processed + 2 + length > |bytes| { break; }
      ParseFrom(bytes, processed);
      ghost var whole, tail := Parse(bytes), Parse(bytes[processed..]);
      var cap := Capability(category, bytes[processed + 2..processed + 2 + length]);
      processed := processed + 2 + length;
      ReportsDelayAppend(caps, cap);
      CodecAppend(caps, cap, oldCodec);
      MoveOne(whole, caps, tail, cap, Parse(bytes[processed..]));
      caps := caps + [cap];
      if category == MEDIA_CODEC && length >= CODEC_HEADER {
        codec := Some(cap);
      } else if category == DELAY_REPORTING {
        delay := true;
      }
    }
    NothingLeft(bytes[processed..]);
  }

  predicate IsCodec(c: Capability) { c.category == 7 && |c.data| >= 2 }

  /** Which codec is found: the last of the list that is one. */
  lemma {:induction false} CodecIs(caps: seq<Capability>, i: nat, before: Option<Capability>)
    requires i < |caps| && IsCodec(caps[i]) && forall j :: i < j < |caps| ==> !IsCodec(caps[j])
    ensures CodecOf(caps, before) == Some(caps[i])
    decreases |caps|
  {
    if i < |caps| - 1 { CodecIs(caps[..|caps| - 1], i, before); }
  }

  /** If there is none, the one given. */
  lemma {:induction false} NoCodec(caps: seq<Capability>, before: Option<Capability>)
    requires forall i :: 0 <= i < |caps| ==> !IsCodec(caps[i])
    ensures CodecOf(caps, before) == before
    decreases |caps|
  {
    if caps != [] { NoCodec(caps[..|caps| - 1], before); }
  }

  /** Reading back what was written gives the same list. */
  lemma {:induction false} ParseSerialize(caps: seq<Capability>)
    ensures Parse(Serialize(caps)) == caps
  {
    if caps != [] {
      var c := caps[0];
      var s := Serialize(caps);
      assert s[2..2 + |c.data|] == c.data;
      assert s[2 + |c.data|..] == Serialize(caps[1..]);
      ParseSerialize(caps[1..]);
    }
  }

  /** On any octets the result is a well-formed prefix, and it is the longest:
      every list whose octets begin `bytes` is the beginning of the result. */
  lemma {:induction false} ParseLongest(bytes: seq<byte>, caps: seq<Capability>)
    ensures Serialize(Parse(bytes)) <= bytes
    ensures Serialize(caps) <= bytes <==> caps <= Parse(bytes)
    decreases |bytes|
  {
    if |bytes| < 2 || 2 + bytes[1] > |bytes| {
      if caps != [] {
        assert Serialize(caps)[1] == |caps[0].data|;
      }
    } else {
      var first := Capability(bytes[0], bytes[2..2 + bytes[1]]);
      var rest := bytes[2 + bytes[1]..];
      assert bytes == SerializeOne(first) + rest;
      ParseLongest(rest, if caps == [] then [] else caps[1..]);
      assert Serialize(Parse(bytes)) == SerializeOne(first) + Serialize(Parse(rest));
      if caps != [] {
        SameHead(caps, first, rest);
      }
    }
  }

  lemma SameHead(caps: seq<Capability>, first: Capability, rest: seq<byte>)
    requires caps != []
    ensures Serialize(caps) <= SerializeOne(first) + rest
            <==> caps[0] == first && Serialize(caps[1..]) <= rest
  {
    var c := caps[0];
    var all := SerializeOne(first) + rest;
    var s := Serialize(caps);
    if s <= all {
      assert s[0] == all[0] && s[1] == all[1];
      assert c.data == s[2..2 + |c.data|] == all[2..2 + |c.data|] == first.data;
      var tail := Serialize(caps[1..]);
      assert tail == s[2 + |c.data|..];
      forall i | 0 <= i < |tail| ensures i < |rest| && tail[i] == rest[i] {
        assert s[2 + |c.data| + i] == all[2 + |c.data| + i];
      }
    }
  }

  // ------------------------------------------------------ GET_CONFIGURATION

  /** How many capabilities from the front fit into `room` octets. */
  function FittingRun(caps: seq<Capability>, room: nat): (n: nat)
    ensures n <= |caps|
  {
    if caps == [] || 2 + |caps[0].data| > room then 0
    else 1 + FittingRun(caps[1..], room - 2 - |caps[0].data|)
  }

  /** One more stored capability in the body. */
  lemma OneMore(caps: seq<Capability>, i: nat, room: nat)
    requires i < |caps|
    ensures Serialize(caps[..i + 1]) == Serialize(caps[..i]) + SerializeOne(caps[i])
    ensures FittingRun(caps[i..], room)
            == if 2 + |caps[i].data| > room then 0 else 1 + FittingRun(caps[i + 1..], room - 2 - |caps[i].data|)
  {
    SerializeConcat(caps[..i], [caps[i]]);
    assert caps[..i] + [caps[i]] == caps[..i + 1];
    assert Serialize([caps[i]]) == SerializeOne(caps[i]);
    assert caps[i..][1..] == caps[i + 1..];
  }

  /** The loop of `avdtp_getconf_cmd` over the stored capabilities. */
  method ConfigurationBody(caps: seq<Capability>) returns (body: seq<byte>)
    ensures body == Serialize(caps[..FittingRun(caps, CONFIG_BUF_SIZE)])
  {
    hide FittingRun, Serialize;
    body := [];
    var i := 0;
    assert caps[0..] == caps && Serialize(caps[..0]) == [] by { NothingYet(caps); }
    while i < |caps|
      invariant 0 <= i <= |caps|
      invariant body == Serialize(caps[..i]) && |body| <= CONFIG_BUF_SIZE
      invariant FittingRun(caps, CONFIG_BUF_SIZE) == i + FittingRun(caps[i..], CONFIG_BUF_SIZE - |body|)
    {
      OneMore(caps, i, CONFIG_BUF_SIZE - |body|);
      if |body| + |caps[i].data| + 2 > CONFIG_BUF_SIZE { return; }
      body := body + [caps[i].category, |caps[i].data|] + caps[i].data;
      i := i + 1;
    }
    assert caps[i..] == [] && caps[..i] == caps;
    NoneFits(CONFIG_BUF_SIZE - |body|);
  }

  lemma NothingYet(caps: seq<Capability>)
    ensures Serialize(caps[..0]) == []
  {
  }

  lemma NoneFits(room: nat)
    ensures FittingRun([], room) == 0
  {
  }

  lemma {:induction false} FittingRunIs(caps: seq<Capability>, room: nat, n: nat)
    requires n <= |caps|
    ensures |Serialize(caps[..n])| <= room <==> n <= FittingRun(caps, room)
  {
    if n > 0 {
      var c := caps[0];
      assert caps[..n][1..] == caps[1..][..n - 1];
      if 2 + |c.data| <= room {
        FittingRunIs(caps[1..], room - 2 - |c.data|, n - 1);
      }
    }
  }

  /** The peer reads a GET_CONFIGURATION body as the longest leading run of the
      stored capabilities whose octets fit the buffer. */
  lemma ConfigurationRead(caps: seq<Capability>, k: nat)
    requires k <= |caps|
    ensures var run := caps[..FittingRun(caps, CONFIG_BUF_SIZE)];
            && Parse(Serialize(run)) == run
            && (|Serialize(caps[..k])| <= CONFIG_BUF_SIZE <==> k <= |run|)
  {
    ParseSerialize(caps[..FittingRun(caps, CONFIG_BUF_SIZE)]);
    FittingRunIs(caps, CONFIG_BUF_SIZE, k);
  }

  // ------------------------------------------------------ SET_CONFIGURATION

  const SETCONF_HEADER: nat := 2
  const SET_CONFIGURATION: AvdtpSignalling.SignalId := 3
  const COMMAND: AvdtpSignalling.MsgType := 0

  type Seid = n: nat | n < 64

  /** The request built by `avdtp_set_configuration`. */
  method SetConfigurationBody(acpSeid: Seid, intSeid: Seid, caps: seq<Capability>) returns (body: seq<byte>)
    ensures body == SetConfRequest(acpSeid, intSeid, caps)
  {
    body := [acpSeid * 4, intSeid * 4];
    var i := 0;
    while i < |caps|
      invariant 0 <= i <= |caps|
      invariant body == [acpSeid * 4, intSeid * 4] + Serialize(caps[..i])
    {
      SerializeConcat(caps[..i], [caps[i]]);
      assert caps[..i] + [caps[i]] == caps[..i + 1];
      body := body + SerializeOne(caps[i]);
      i := i + 1;
    }
    assert caps[..i] == caps;
  }

  function SetConfRequest(acpSeid: Seid, intSeid: Seid, caps: seq<Capability>): seq<byte> {
    [acpSeid * 4, intSeid * 4] + Serialize(caps)
  }

  /** From one end to the other: the capabilities chosen by the initiator, put
      into a request, cut into packets, put together again and parsed by the
      acceptor, are the same, whenever the request is deliverable. */
  lemma SetConfigurationTransfer(b: AvdtpSignalling.InBuf, transaction: AvdtpSignalling.Label,
                                 acpSeid: Seid, intSeid: Seid, caps: seq<Capability>, omtu: nat)
    requires AvdtpSignalling.ValidBuf(b) && !b.active
    requires AvdtpSignalling.Deliverable(SETCONF_HEADER + |Serialize(caps)|, omtu)
    ensures var request := SetConfRequest(acpSeid, intSeid, caps);
            var packets := AvdtpSignalling.Packets(transaction, COMMAND, SET_CONFIGURATION, request, omtu);
            var os := AvdtpSignalling.Feed(b, packets).1;
            && os != [] && os[|os| - 1].Complete?
            && var m := os[|os| - 1].message;
               && m.signal == SET_CONFIGURATION && m.transaction == transaction && |m.payload| >= SETCONF_HEADER
               && m.payload[0] / 4 == acpSeid && m.payload[1] / 4 == intSeid
               && Parse(m.payload[SETCONF_HEADER..]) == caps
  {
    var request := SetConfRequest(acpSeid, intSeid, caps);
    AvdtpSignalling.RoundTrip(b, transaction, COMMAND, SET_CONFIGURATION, request, omtu);
    assert request[SETCONF_HEADER..] == Serialize(caps);
    ParseSerialize(caps);
  }
}
