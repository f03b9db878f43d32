/** AVRCP continuation: a response too long for one packet is cut, the rest is
    kept, and the peer pulls it piece by piece (section 6.8 of AVRCP 1.5). */
module AvrcpContinuation {
  import opened Common

  const HEADER: nat := 7
  const ABORT_CONTINUING: byte := 0x41

  datatype Kind = Single | Start | Continuing | End

  datatype Packet = Packet(pdu: byte, kind: Kind, body: seq<byte>)

  /** `struct avrcp_continuing`. */
  datatype Rest = Rest(pdu: byte, body: seq<byte>)

  datatype Status = Done | Invalid

  /** What a session keeps of this, and the packets handed to AVCTP so far. */
  datatype Channel = Channel(rest: Option<Rest>, handed: seq<Packet>)

  // ------------------------------------------------------------- operations

  /** One packet of `body`, for a channel with `room` octets in a packet. */
  function Send(c: Channel, room: nat, pdu: byte, kind: Kind, body: seq<byte>): Channel {
    if |body| <= room then
      Channel(None, c.handed + [Packet(pdu, if kind.Single? then Single else End, body)])
    else
      Channel(Some(Rest(pdu, body[room..])),
              c.handed + [Packet(pdu, if kind.Single? then Start else Continuing, body[..room])])
  }

  /** A request for the next piece; `taken` tells whether AVCTP takes it. */
  function Request(c: Channel, room: nat, params: seq<byte>, taken: bool): (Channel, Status) {
    if |params| != 1 || c.rest.None? || c.rest.value.pdu != params[0] then (c, Invalid)
    else (Send(c, room, params[0], Continuing, c.rest.value.body), if taken then Done else Invalid)
  }

  function Abort(c: Channel, room: nat, params: seq<byte>): (Channel, Status) {
    if |params| != 1 || c.rest.None? then (c, Invalid)
    else (Send(c, room, ABORT_CONTINUING, Single, []), Done)
  }

  /** `struct avrcp`, as far as continuation is concerned. */
  class Session {
    const mtu: nat
    var continuing: Option<Rest>
    var handed: seq<Packet>

    ghost predicate Valid() { mtu >= HEADER }

    function State(): Channel reads this { Channel(continuing, handed) }

    constructor (mtu: nat)
      requires mtu >= HEADER
      ensures Valid() && this.mtu == mtu && State() == Channel(None, [])
    {
      this.mtu, continuing, handed := mtu, None, [];
    }

    /** `continuing_new`: everything in the vectors, but for the first `offset`
        octets of the first. */
    method ContinuingNew(pdu: byte, iov: seq<seq<byte>>, offset: nat)
      requires iov != [] && offset <= |iov[0]|
      modifies this`continuing
      ensures continuing == Some(Rest(pdu, Flatten(iov)[offset..]))
    {
      var base: seq<byte> := [];
      var i := 0;
      while i < |iov|
        invariant 0 <= i <= |iov|
        invariant if i == 0 then base == [] else base == Flatten(iov[..i])[offset..]
        invariant i > 0 ==> |Flatten(iov[..i])| >= offset
      {
        assert iov[..i + 1] == iov[..i] + [iov[i]];
        FlattenConcat(iov[..i], [iov[i]]);
        base := base + if i == 0 && offset > 0 then iov[i][offset..] else iov[i];
        i := i + 1;
      }
      assert iov[..i] == iov;
      continuing := Some(Rest(pdu, base));
    }

    /** `avrcp_send_internal`. Only the last vector may be cut, and a piece that
        continues has a vector. */
    method SendInternal(pdu: byte, kind: Kind, iov: seq<seq<byte>>, taken: bool) returns (good: bool)
      requires Valid()
      requires forall j :: 0 <= j < |iov| ==> HEADER + |Flatten(iov[..j])| <= mtu
      requires kind.Single? || (kind.Continuing? && iov != [])
      modifies this
      ensures State() == Send(old(State()), mtu - HEADER, pdu, kind, Flatten(iov)) && good == taken
    {
      continuing := None;
      var packetType, body := kind, [];
      var i := 0;
      while i < |iov|
        invariant 0 <= i <= |iov| && body == Flatten(iov[..i]) && HEADER + |body| <= mtu
        invariant continuing == None && handed == old(handed)
        invariant packetType == if kind.Single? || i == 0 then kind else End
      {
        assert iov[..i + 1] == iov[..i] + [iov[i]];
        FlattenConcat(iov[..i], [iov[i]]);
        assert iov[..i] + iov[i..] == iov;
        FlattenConcat(iov[..i], iov[i..]);
        if HEADER + |body| + |iov[i]| > mtu {
          var fits := mtu - (HEADER + |body|);
          ContinuingNew(pdu, iov[i..], fits);
          assert i + 1 == |iov|;
          assert iov[i..] == [iov[i]] && Flatten(iov[i..]) == iov[i];
          assert Flatten(iov)[mtu - HEADER..] == iov[i][fits..];
          body := body + iov[i][..fits];
          assert body == Flatten(iov)[..mtu - HEADER];
          packetType := if packetType != Single then Continuing else Start;
          break;
        }
        body := body + iov[i];
        if packetType != Single { packetType := End; }
        i := i + 1;
      }
      assert i == |iov| ==> iov[..i] == iov;
      handed := handed + [Packet(pdu, packetType, body)];
      good := taken;
    }

    /** `request_continuing`. */
    method RequestContinuing(params: seq<byte>, taken: bool) returns (status: Status)
      requires Valid()
      modifies this
      ensures (State(), status) == Request(old(State()), mtu - HEADER, params, taken)
    {
      if |params| != 1 || continuing.None? || continuing.value.pdu != params[0] { return Invalid; }
      var iov := [continuing.value.body];
      assert iov[..0] == [];
      assert Flatten(iov) == iov[0];
      var good := SendInternal(params[0], Continuing, iov, taken);
      status := if good then Done else Invalid;
    }

    /** `abort_continuing`. */
    method AbortContinuing(params: seq<byte>, taken: bool) returns (status: Status)
      requires Valid()
      modifies this
      ensures (State(), status) == Abort(old(State()), mtu - HEADER, params)
    {
      if |params| != 1 || continuing.None? { return Invalid; }
      continuing := None;
      var _ := SendInternal(ABORT_CONTINUING, Single, [], taken);
      status := Done;
    }
  }

  // ------------------------------------------------------ a whole transfer

  /** The packets of one response, when nothing comes between. */
  function Pieces(room: nat, pdu: byte, kind: Kind, body: seq<byte>): seq<Packet>
    requires room > 0
    decreases |body|
  {
    if |body| <= room then [Packet(pdu, if kind.Single? then Single else End, body)]
    else [Packet(pdu, if kind.Single? then Start else Continuing, body[..room])]
         + Pieces(room, pdu, Continuing, body[room..])
  }

  function Bodies(packets: seq<Packet>): seq<seq<byte>> {
    if packets == [] then [] else [packets[0].body] + Bodies(packets[1..])
  }

  /** The channel after `n` more requests for the response of `pdu`. */
  function Pulled(c: Channel, room: nat, pdu: byte, n: nat): Channel
    decreases n
  {
    if n == 0 then c else Pulled(Request(c, room, [pdu], true).0, room, pdu, n - 1)
  }

  /** How many packets a response of `len` octets takes. */
  function Count(room: nat, len: nat): nat
    requires room > 0
  {
    if len <= room then 1 else (len + room - 1) / room
  }

  lemma CountStep(room: nat, len: nat)
    requires 0 < room < len
    ensures Count(room, len) == 1 + Count(room, len - room)
  {
    var q, r := (len - 1) / room, (len - 1) % room;
    Quotient(room, q + 1, r);
    assert room * (q + 1) + r == len + room - 1;
    if len - room <= room { Quotient(room, 1, len - 1 - room); }
  }

  lemma Quotient(b: nat, q: nat, r: nat)
    requires r < b
    ensures (b * q + r) / b == q
  {
    var x := (b * q + r) / b;
    assert x >= q + 1 ==> b * x >= b * (q + 1);
    assert x <= q - 1 ==> b * x <= b * (q - 1);
  }

  /** SINGLE, or START CONTINUING* END, or the rest of that. */
  function KindAt(kind: Kind, i: nat, n: nat): Kind {
    if n == 1 && kind.Single? then Single
    else if i + 1 == n then End
    else if i == 0 && kind.Single? then Start
    else Continuing
  }

  /** The pieces are the body, cut; their number is the smallest possible; none
      is too long, and all but the last are full. */
  lemma {:induction false} PiecesAre(room: nat, pdu: byte, kind: Kind, body: seq<byte>)
    requires room > 0 && (kind.Single? || kind.Continuing?)
    ensures var ps := Pieces(room, pdu, kind, body);
            && Flatten(Bodies(ps)) == body
            && |ps| == Count(room, |body|)
            && (forall i :: 0 <= i < |ps| ==> ps[i].pdu == pdu && |ps[i].body| <= room)
            && (forall i :: 0 <= i < |ps| - 1 ==> |ps[i].body| == room)
            && (forall i :: 0 <= i < |ps| ==> ps[i].kind == KindAt(kind, i, |ps|))
    decreases |body|
  {
    var ps := Pieces(room, pdu, kind, body);
    if |body| <= room {
      assert Bodies(ps) == [body];
    } else {
      var rest := Pieces(room, pdu, Continuing, body[room..]);
      PiecesAre(room, pdu, Continuing, body[room..]);
      CountStep(room, |body|);
      assert ps[1..] == rest;
      assert Bodies(ps) == [body[..room]] + Bodies(rest);
      assert Flatten(Bodies(ps)) == body[..room] + Flatten(Bodies(rest));
    }
  }

  /** Pulling as often as needed hands over all the pieces, in order, and
      leaves nothing. */
  lemma {:induction false} TransferIs(c: Channel, room: nat, pdu: byte, kind: Kind, body: seq<byte>)
    requires room > 0 && (kind.Single? || kind.Continuing?)
    ensures Pulled(Send(c, room, pdu, kind, body), room, pdu, Count(room, |body|) - 1)
            == Channel(None, c.handed + Pieces(room, pdu, kind, body))
    decreases |body|
  {
    var c1 := Send(c, room, pdu, kind, body);
    if |body| > room {
      CountStep(room, |body|);
      TransferIs(c1, room, pdu, Continuing, body[room..]);
      assert Request(c1, room, [pdu], true).0 == Send(c1, room, pdu, Continuing, body[room..]);
      assert c1.handed + Pieces(room, pdu, Continuing, body[room..]) == c.handed + Pieces(room, pdu, kind, body);
    }
  }

  /** What is kept after `n` requests: exactly what the first `n + 1` packets had
      no room for. */
  lemma {:induction false} RestAfter(c: Channel, room: nat, pdu: byte, kind: Kind, body: seq<byte>, n: nat)
    ensures Pulled(Send(c, room, pdu, kind, body), room, pdu, n).rest
            == if (n + 1) * room < |body| then Some(Rest(pdu, body[(n + 1) * room..])) else None
    decreases n
  {
    var c1 := Send(c, room, pdu, kind, body);
    assert (n + 1) * room == n * room + room;
    if |body| <= room {
      NothingLeft(c1, room, pdu, n);
    } else if n > 0 {
      assert Request(c1, room, [pdu], true).0 == Send(c1, room, pdu, Continuing, body[room..]);
      RestAfter(c1, room, pdu, Continuing, body[room..], n - 1);
      if (n + 1) * room < |body| { assert body[room..][n * room..] == body[(n + 1) * room..]; }
    }
  }

  lemma {:induction false} NothingLeft(c: Channel, room: nat, pdu: byte, n: nat)
    requires c.rest.None?
    ensures Pulled(c, room, pdu, n) == c
    decreases n
  {
    if n > 0 { NothingLeft(c, room, pdu, n - 1); }
  }

  /** A response completes if and only if a packet has room for more than its
      header, or there was no need to cut. */
  lemma {:induction false} CompletesIff(c: Channel, room: nat, pdu: byte, body: seq<byte>)
    ensures (exists n :: Pulled(Send(c, room, pdu, Single, body), room, pdu, n).rest.None?)
            <==> room > 0 || body == []
  {
    var c1 := Send(c, room, pdu, Single, body);
    if room > 0 {
      TransferIs(c, room, pdu, Single, body);
    } else if body == [] {
      assert Pulled(c1, room, pdu, 0).rest.None?;
    } else {
      forall n ensures Pulled(c1, room, pdu, n).rest.Some? { NoProgress(c1, pdu, body, n); }
    }
  }

  lemma {:induction false} NoProgress(c: Channel, pdu: byte, body: seq<byte>, n: nat)
    requires c.rest == Some(Rest(pdu, body)) && body != []
    ensures Pulled(c, 0, pdu, n).rest == Some(Rest(pdu, body))
    decreases n
  {
    if n > 0 {
      assert body[0..] == body;
      NoProgress(Request(c, 0, [pdu], true).0, pdu, body, n - 1);
    }
  }

  // -------------------------------------------------------------- all runs

  /** `taken` tells whether AVCTP takes the packet. */
  datatype Event =
    | Respond(pdu: byte, body: seq<byte>, taken: bool)
    | Continue(params: seq<byte>, taken: bool)
    | Cancel(params: seq<byte>, taken: bool)

  function Step(c: Channel, room: nat, ev: Event): Channel {
    match ev
    case Respond(pdu, body, _) => Send(c, room, pdu, Single, body)
    case Continue(params, taken) => Request(c, room, params, taken).0
    case Cancel(params, _) => Abort(c, room, params).0
  }

  function Run(room: nat, evs: seq<Event>): Channel {
    if evs == [] then Channel(None, []) else Step(Run(room, evs[..|evs| - 1]), room, evs[|evs| - 1])
  }

  /** A response drops what was kept, and hands over as much of itself as fits a
      packet; the rest is kept. */
  lemma RespondCases(c: Channel, room: nat, pdu: byte, body: seq<byte>, taken: bool)
    ensures Step(c, room, Respond(pdu, body, taken))
            == if |body| <= room then Channel(None, c.handed + [Packet(pdu, Single, body)])
               else Channel(Some(Rest(pdu, body[room..])), c.handed + [Packet(pdu, Start, body[..room])])
  {
  }

  /** A request for more is answered with an error, and nothing changes, unless
      it has one parameter, the PDU of what is kept. Otherwise one packet of what
      is kept is handed over and dropped; the answer is an error if it was not
      taken. */
  lemma ContinueCases(c: Channel, room: nat, params: seq<byte>, taken: bool)
    ensures var (c1, status) := Request(c, room, params, taken);
            && Step(c, room, Continue(params, taken)) == c1
            && if |params| != 1 || c.rest.None? || c.rest.value.pdu != params[0] then c1 == c && status == Invalid
               else
                 var pdu, body := c.rest.value.pdu, c.rest.value.body;
                 && status == (if taken then Done else Invalid)
                 && c1 == if |body| <= room then Channel(None, c.handed + [Packet(pdu, End, body)])
                          else Channel(Some(Rest(pdu, body[room..])), c.handed + [Packet(pdu, Continuing, body[..room])])
  {
  }

  /** A request to abort is answered with an error, and nothing changes, unless
      it has one parameter and something is kept. What is kept is dropped then,
      whatever PDU the parameter names, and an empty response is handed over. */
  lemma CancelCases(c: Channel, room: nat, params: seq<byte>, taken: bool)
    ensures var (c1, status) := Abort(c, room, params);
            && Step(c, room, Cancel(params, taken)) == c1
            && if |params| != 1 || c.rest.None? then c1 == c && status == Invalid
               else status == Done && c1 == Channel(None, c.handed + [Packet(0x41, Single, [])])
  {
  }

  datatype Message = Message(pdu: byte, body: seq<byte>)

  /** The other end: it puts pieces together, and drops what is incomplete when
      a first or only packet comes in. `bad` is set by a piece it cannot place. */
  datatype Peer = Peer(partial: Option<Message>, complete: seq<Message>, bad: bool)

  function Receive(p: Peer, x: Packet): Peer {
    match x.kind
    case Single => Peer(None, p.complete + [Message(x.pdu, x.body)], p.bad)
    case Start => Peer(Some(Message(x.pdu, x.body)), p.complete, p.bad)
    case Continuing =>
      if p.partial.None? || p.partial.value.pdu != x.pdu then p.(bad := true)
      else p.(partial := Some(Message(x.pdu, p.partial.value.body + x.body)))
    case End =>
      if p.partial.None? || p.partial.value.pdu != x.pdu then p.(bad := true)
      else Peer(None, p.complete + [Message(x.pdu, p.partial.value.body + x.body)], p.bad)
  }

  function Assembled(packets: seq<Packet>): Peer {
    if packets == [] then Peer(None, [], false)
    else Receive(Assembled(packets[..|packets| - 1]), packets[|packets| - 1])
  }

  /** The message an event begins, if it does: a response, or the answer to an
      accepted request to abort. */
  function Begins(c: Channel, room: nat, ev: Event): Option<Message> {
    match ev
    case Respond(pdu, body, _) => Some(Message(pdu, body))
    case Cancel(params, _) => if Abort(c, room, params).1.Done? then Some(Message(ABORT_CONTINUING, [])) else None
    case Continue(_, _) => None
  }

  /** Everything that was to be said to the peer. */
  function Submitted(room: nat, evs: seq<Event>): seq<Message> {
    if evs == [] then []
    else More(Submitted(room, evs[..|evs| - 1]), Run(room, evs[..|evs| - 1]), room, evs[|evs| - 1])
  }

  function More(submitted: seq<Message>, c: Channel, room: nat, ev: Event): seq<Message> {
    var m := Begins(c, room, ev);
    if m.Some? then submitted + [m.value] else submitted
  }

  /** `a` is `b` with some members left out. */
  ghost predicate Subsequence<T>(a: seq<T>, b: seq<T>)
    decreases |b|
  {
    if a == [] then true
    else if b == [] then false
    else Subsequence(a, b[..|b| - 1])
         || (a[|a| - 1] == b[|b| - 1] && Subsequence(a[..|a| - 1], b[..|b| - 1]))
  }

  lemma SubsequenceMore<T>(a: seq<T>, b: seq<T>, x: T)
    requires Subsequence(a, b)
    ensures Subsequence(a, b + [x]) && Subsequence(a + [x], b + [x])
  {
    assert (b + [x])[..|b + [x]| - 1] == b;
    assert (a + [x])[..|a + [x]| - 1] == a;
  }

  lemma DropLast<T>(p: seq<T>, b: seq<T>)
    requires b != [] && Subsequence(p, b[..|b| - 1])
    ensures Subsequence(p, b)
  {
  }

  /** The peer, fed with what AVCTP takes. `of` tells which message submitted the
      incomplete one is, `wrong` whether the peer has gone wrong: a piece could
      not be placed, or was put to pieces of another message, or a message was
      completed that is not the one submitted. */
  datatype Ear = Ear(peer: Peer, of: nat, wrong: bool)

  /** A packet of the `n`-th message submitted, which is `m`. */
  function Hear(e: Ear, x: Packet, n: nat, m: Message): Ear {
    var p := Receive(e.peer, x);
    match x.kind
    case Single => Ear(p, n, e.wrong || p.complete[|p.complete| - 1] != m)
    case Start => Ear(p, n, e.wrong)
    case Continuing => Ear(p, e.of, e.wrong || p.bad || e.of != n)
    case End => Ear(p, e.of, e.wrong || p.bad || e.of != n || p.complete == [] || p.complete[|p.complete| - 1] != m)
  }

  /** The packet an event hands to AVCTP, if it does. */
  function Hands(c: Channel, room: nat, ev: Event): Option<Packet> {
    var c1 := Step(c, room, ev);
    if |c1.handed| > |c.handed| then Some(c1.handed[|c.handed|]) else None
  }

  function Heard(room: nat, evs: seq<Event>): Ear {
    if evs == [] then Ear(Peer(None, [], false), 0, false)
    else
      var before, ev := evs[..|evs| - 1], evs[|evs| - 1];
      Listens(Heard(room, before), Run(room, before), room, ev, Submitted(room, evs))
  }

  function Listens(e: Ear, c: Channel, room: nat, ev: Event, submitted: seq<Message>): Ear {
    var x := Hands(c, room, ev);
    if x.None? || !ev.taken || submitted == [] then e
    else Hear(e, x.value, |submitted|, submitted[|submitted| - 1])
  }

  /** What the sender knows of the message it is sending: whether its first
      packet was taken, and whether one of its packets was not. */
  datatype Delivery = Delivery(begun: bool, gap: bool)

  function Delivered(room: nat, evs: seq<Event>): Delivery {
    if evs == [] then Delivery(false, false)
    else Delivers(Delivered(room, evs[..|evs| - 1]), Run(room, evs[..|evs| - 1]), room, evs[|evs| - 1])
  }

  function Delivers(d: Delivery, c: Channel, room: nat, ev: Event): Delivery {
    if Begins(c, room, ev).Some? then Delivery(ev.taken, !ev.taken)
    else if Hands(c, room, ev).Some? then Delivery(d.begun, d.gap || !ev.taken)
    else d
  }

  /** A further piece may be taken only if the first one was, and the last one
      only if all were. */
  predicate Allowed(d: Delivery, c: Channel, room: nat, ev: Event) {
    ev.Continue? && ev.taken && Hands(c, room, ev).Some?
    ==> d.begun && (Hands(c, room, ev).value.kind.End? ==> !d.gap)
  }

  /** While the peer has not gone wrong. */
  ghost predicate Following(c: Channel, room: nat, d: Delivery, e: Ear, submitted: seq<Message>) {
    && !e.peer.bad && e.of <= |submitted|
    && (c.rest.None? ==> Subsequence(e.peer.complete, submitted))
    && (c.rest.Some? ==>
          && submitted != [] && c.rest.value.body != []
          && Subsequence(e.peer.complete, submitted[..|submitted| - 1])
          && InPart(c.rest.value, room, d, e, |submitted|, submitted[|submitted| - 1]))
  }

  /** In the middle of the message `m`, of which `rest` is kept. */
  ghost predicate InPart(rest: Rest, room: nat, d: Delivery, e: Ear, n: nat, m: Message) {
    && rest.pdu == m.pdu
    && (!d.begun ==> e.of < n)
    && (d.begun ==>
          && e.of == n && e.peer.partial.Some? && e.peer.partial.value.pdu == m.pdu
          && (if d.gap && room > 0 then |e.peer.partial.value.body| + |rest.body| < |m.body|
              else e.peer.partial.value.body + rest.body == m.body))
  }

  /** The first packet of a message. */
  lemma BeginsFollowing(c: Channel, room: nat, d: Delivery, e: Ear, submitted: seq<Message>, m: Message, taken: bool)
    requires Following(c, room, d, e, submitted)
    ensures var c1 := Send(c, room, m.pdu, Single, m.body);
            var x := c1.handed[|c.handed|];
            var e1 := if taken then Hear(e, x, |submitted| + 1, m) else e;
            && Following(c1, room, Delivery(taken, !taken), e1, submitted + [m])
            && e1.wrong == e.wrong
  {
    hide Subsequence;
    if c.rest.Some? { DropLast(e.peer.complete, submitted); }
    SubsequenceMore(e.peer.complete, submitted, m);
    assert (submitted + [m])[..|submitted|] == submitted;
    if |m.body| > room { assert m.body[..room] + m.body[room..] == m.body; }
  }

  /** A further piece, with more to come. */
  lemma PieceFollowing(c: Channel, room: nat, d: Delivery, e: Ear, submitted: seq<Message>, taken: bool)
    requires Following(c, room, d, e, submitted) && c.rest.Some? && |c.rest.value.body| > room
    ensures var rest := c.rest.value;
            var x := Packet(rest.pdu, Continuing, rest.body[..room]);
            var e1 := if taken then Hear(e, x, |submitted|, submitted[|submitted| - 1]) else e;
            && (taken && !d.begun ==> e1.wrong)
            && (!taken || d.begun ==>
                  && e1.wrong == e.wrong
                  && Following(Channel(Some(Rest(rest.pdu, rest.body[room..])), c.handed + [x]), room,
                               Delivery(d.begun, d.gap || !taken), e1, submitted))
  {
    hide Subsequence;
    var rest := c.rest.value;
    assert rest.body[..room] + rest.body[room..] == rest.body;
    if d.begun {
      var had := e.peer.partial.value.body;
      assert (had + rest.body[..room]) + rest.body[room..] == had + rest.body;
      if room == 0 { assert rest.body[room..] == rest.body; }
    }
  }

  /** The last piece. */
  lemma LastFollowing(c: Channel, room: nat, d: Delivery, e: Ear, submitted: seq<Message>, taken: bool)
    requires Following(c, room, d, e, submitted) && c.rest.Some? && |c.rest.value.body| <= room
    ensures var rest := c.rest.value;
            var x := Packet(rest.pdu, End, rest.body);
            var e1 := if taken then Hear(e, x, |submitted|, submitted[|submitted| - 1]) else e;
            && (taken && (!d.begun || d.gap) ==> e1.wrong)
            && (!taken || (d.begun && !d.gap) ==>
                  && e1.wrong == e.wrong
                  && Following(Channel(None, c.handed + [x]), room, Delivery(d.begun, d.gap || !taken), e1, submitted))
  {
    hide Subsequence;
    var n := |submitted| - 1;
    DropLast(e.peer.complete, submitted);
    SubsequenceMore(e.peer.complete, submitted[..n], submitted[n]);
    assert submitted[..n] + [submitted[n]] == submitted;
  }

  /** One event. */
  lemma EventFollowing(c: Channel, room: nat, d: Delivery, e: Ear, submitted: seq<Message>, ev: Event)
    requires Following(c, room, d, e, submitted) && !e.wrong
    ensures var all := More(submitted, c, room, ev);
            var e1 := Listens(e, c, room, ev, all);
            && (!e1.wrong <==> Allowed(d, c, room, ev))
            && (!e1.wrong ==> Following(Step(c, room, ev), room, Delivers(d, c, room, ev), e1, all))
  {
    hide Following, Hear;
    var m := Begins(c, room, ev);
    if m.Some? {
      BeginsFollowing(c, room, d, e, submitted, m.value, ev.taken);
    } else if ev.Continue? && Hands(c, room, ev).Some? {
      SomeSubmitted(c, room, d, e, submitted);
      if |c.rest.value.body| > room {
        PieceFollowing(c, room, d, e, submitted, ev.taken);
      } else {
        LastFollowing(c, room, d, e, submitted, ev.taken);
      }
    }
  }

  lemma SomeSubmitted(c: Channel, room: nat, d: Delivery, e: Ear, submitted: seq<Message>)
    requires Following(c, room, d, e, submitted)
    ensures c.rest.Some? ==> submitted != []
  {
  }

  /** Wrong once is wrong ever after. */
  lemma WrongStays(e: Ear, c: Channel, room: nat, ev: Event, submitted: seq<Message>)
    ensures e.wrong ==> Listens(e, c, room, ev, submitted).wrong
  {
  }

  ghost predicate AllAllowed(room: nat, evs: seq<Event>) {
    forall k :: 0 <= k < |evs| ==> Allowed(Delivered(room, evs[..k]), Run(room, evs[..k]), room, evs[k])
  }

  lemma AllButLast(room: nat, evs: seq<Event>)
    requires evs != []
    ensures var before := evs[..|evs| - 1];
            AllAllowed(room, evs)
            <==> AllAllowed(room, before) && Allowed(Delivered(room, before), Run(room, before), room, evs[|evs| - 1])
  {
    hide Allowed, Delivered, Run;
    var before := evs[..|evs| - 1];
    assert forall k :: 0 <= k < |before| ==> before[..k] == evs[..k] && before[k] == evs[k];
  }

  /** What a peer makes of the packets that AVCTP takes, whatever responses,
      requests and aborts are interleaved, with right and wrong parameters: it
      goes right if and only if no further piece of a message is taken whose
      first packet was refused, and no last one after any was. */
  lemma {:induction false} PeerGoesRight(room: nat, evs: seq<Event>)
    ensures !Heard(room, evs).wrong <==> AllAllowed(room, evs)
    ensures !Heard(room, evs).wrong ==>
              Following(Run(room, evs), room, Delivered(room, evs), Heard(room, evs), Submitted(room, evs))
    decreases |evs|
  {
    hide Following, Allowed, Listens, More, Step, Delivers, AllAllowed;
    if evs == [] {
      NothingHeard(room);
    } else {
      var before, ev := evs[..|evs| - 1], evs[|evs| - 1];
      PeerGoesRight(room, before);
      AllButLast(room, evs);
      var c, e := Run(room, before), Heard(room, before);
      WrongStays(e, c, room, ev, Submitted(room, evs));
      if !e.wrong { EventFollowing(c, room, Delivered(room, before), e, Submitted(room, before), ev); }
    }
  }

  lemma NothingHeard(room: nat)
    ensures AllAllowed(room, []) && Following(Channel(None, []), room, Delivery(false, false), Heard(room, []), [])
  {
  }

  /** Then it completes only submitted messages, whole and in order; and while
      nothing of the current one is missing, what it has of it and what is kept
      make that message. */
  lemma PeerAssembles(room: nat, evs: seq<Event>)
    requires AllAllowed(room, evs)
    ensures var c, d, p, all := Run(room, evs), Delivered(room, evs), Heard(room, evs).peer, Submitted(room, evs);
            && !p.bad && Subsequence(p.complete, all)
            && (c.rest.Some? && d.begun && !d.gap ==>
                  && p.partial.Some? && all != []
                  && Message(c.rest.value.pdu, p.partial.value.body + c.rest.value.body) == all[|all| - 1])
  {
    hide Run, Delivered, Heard, Submitted, Subsequence, AllAllowed;
    PeerGoesRight(room, evs);
    if Run(room, evs).rest.Some? { DropLast(Heard(room, evs).peer.complete, Submitted(room, evs)); }
  }

  /** In particular when AVCTP takes everything. */
  lemma {:induction false} AllTakenAllowed(room: nat, evs: seq<Event>)
    requires forall k :: 0 <= k < |evs| ==> evs[k].taken
    ensures AllAllowed(room, evs) && !Delivered(room, evs).gap && (Run(room, evs).rest.Some? ==> Delivered(room, evs).begun)
    decreases |evs|
  {
    if evs != [] {
      hide AllAllowed;
      AllTakenAllowed(room, evs[..|evs| - 1]);
      AllButLast(room, evs);
    } else {
      NothingHeard(room);
    }
  }

  /** Two packets of three are taken, and the peer completes what nobody sent. */
  lemma PieceLost(pdu: byte)
    ensures var evs := [Respond(pdu, [1, 2, 3], true), Continue([pdu], false), Continue([pdu], true)];
            && Heard(1, evs).peer.complete == [Message(pdu, [1, 3])] && Submitted(1, evs) == [Message(pdu, [1, 2, 3])]
            && Request(Run(1, evs[..1]), 1, [pdu], false).1 == Invalid
  {
    var e0, e1, e2 := Respond(pdu, [1, 2, 3], true), Continue([pdu], false), Continue([pdu], true);
    var evs := [e0, e1, e2];
    assert evs[..2] == [e0, e1] && [e0, e1][..1] == [e0] && [e0][..0] == [] && evs[..1] == [e0];
    var body: seq<byte> := [1, 2, 3];
    assert body[1..] == [2, 3] && body[..1] == [1];
    assert Step(Channel(None, []), 1, e0) == Channel(Some(Rest(pdu, [2, 3])), [Packet(pdu, Start, [1])]);
    assert Submitted(1, [e0]) == [Message(pdu, body)] && Submitted(1, [e0, e1]) == [Message(pdu, body)];
    var c1 := Run(1, [e0, e1]);
    assert c1.rest == Some(Rest(pdu, [3]));
    assert Heard(1, [e0]).peer == Peer(Some(Message(pdu, [1])), [], false);
    assert Heard(1, [e0, e1]) == Heard(1, [e0]);
    assert Hands(c1, 1, e2) == Some(Packet(pdu, End, [3]));
    assert [1] + [3] == [1, 3];
  }
}
