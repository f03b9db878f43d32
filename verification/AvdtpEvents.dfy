/** The replies of the peer, and every event an AVDTP session can meet. */
module AvdtpEvents {
  import opened Common
  import opened AvdtpRequests
  import opened AvdtpSession

  datatype ReplyKind = Accept | Reject | GeneralReject | UnknownType

  /** One entry of a DISCOVER response. */
  datatype SeidInfo = SeidInfo(seid: nat, inuse: bool)

  // ------------------------------------------------------- replies, in parts

  /** The reply timer is removed: the reply is being handled. */
  ghost function Disarm(s: Session, refused: bool): (s1: Session)
    requires s.r.req.Some? && (IsDiscovery(s.r.req.value) ==> refused)
    ensures Kept(s, s1) && s1.discover == s.discover && s1.r.tries == s.r.tries && s1.losses == s.losses
  {
    assert Unfold(1);
    DisarmOpen(s.r, true); DisarmOpen(s.r, false); DisarmTargets(s.r, s.objs.Keys);
    var s1 := s.(r := Unarmed(s.r), answering := true, spoiled := s.spoiled || refused);
    assert Linked(s1) && NoStale(s1) && DiscoveryValid(s1) && TimerRuns(s1);
    s1
  }

  ghost function Unarmed(r: Requests): Requests
    requires r.req.Some?
  {
    assert Unfold(0);
    Remark(r, r.req.value.(armed := false))
  }

  lemma DisarmTargets(r: Requests, live: set<StreamId>)
    requires r.req.Some? && Targets(r, live)
    ensures Targets(Unarmed(r), live)
  {
  }

  /** The capability requests `avdtp_discover_resp` makes: one for every end
      point listed, but for unknown ones in use by someone else. `mine` are
      the remote SEIDs of the session's own streams. */
  ghost function AskCaps(r: Requests, remote: set<nat>, mine: set<nat>, infos: seq<SeidInfo>, v13: bool)
    : (a: (Requests, set<nat>))
    requires r.req.Some? && r.req.value.signal.Discover? && !r.req.value.armed && CapsLast(r.prio)
    ensures a.0.req == r.req && remote <= a.1
    ensures a.0.queue == r.queue && a.0.made >= r.made && a.0.tries == r.tries
    decreases |infos|
  {
    if infos == [] then (r, remote)
    else if infos[0].seid !in remote && infos[0].inuse && infos[0].seid !in mine then
      AskCaps(r, remote, mine, infos[1..], v13)
    else
      var r1 := SendCap(r, if v13 then GetAllCapabilities else GetCapabilities, infos[0].seid);
      AskCaps(r1, remote + {infos[0].seid}, mine, infos[1..], v13)
  }

  lemma {:induction false} AskCapsKeeps(r: Requests, remote: set<nat>, mine: set<nat>, infos: seq<SeidInfo>, v13: bool,
                                        live: set<StreamId>)
    requires r.req.Some? && r.req.value.signal.Discover? && !r.req.value.armed && CapsLast(r.prio)
    requires Targets(r, live) && CapsKnown(r, remote)
    ensures var (r1, remote1) := AskCaps(r, remote, mine, infos, v13);
            Targets(r1, live) && CapsKnown(r1, remote1)
    decreases |infos|
  {
    if infos == [] {
    } else if infos[0].seid !in remote && infos[0].inuse && infos[0].seid !in mine {
      AskCapsKeeps(r, remote, mine, infos[1..], v13, live);
    } else {
      var signal := if v13 then GetAllCapabilities else GetCapabilities;
      var r1 := SendCap(r, signal, infos[0].seid);
      var q := NewReq(r, None, signal, infos[0].seid);
      assert forall x :: x in r.prio + [q] ==> x in r.prio || x == q;
      AskCapsKeeps(r1, remote + {infos[0].seid}, mine, infos[1..], v13, live);
    }
  }

  /** What is asked is what becomes unanswered. */
  lemma {:induction false} AskCapsOpen(r: Requests, remote: set<nat>, mine: set<nat>, infos: seq<SeidInfo>, v13: bool)
    requires r.req.Some? && r.req.value.signal.Discover? && !r.req.value.armed && CapsLast(r.prio)
    ensures var r1 := AskCaps(r, remote, mine, infos, v13).0;
            && Unanswered(r1, false) == Unanswered(r, false)
            && Unanswered(r, true) <= Unanswered(r1, true)
            && (Unanswered(r1, true) == {} <==> Unanswered(r, true) == {} && r1.made == r.made)
    decreases |infos|
  {
    if infos == [] {
    } else if infos[0].seid !in remote && infos[0].inuse && infos[0].seid !in mine {
      AskCapsOpen(r, remote, mine, infos[1..], v13);
    } else {
      var signal := if v13 then GetAllCapabilities else GetCapabilities;
      SendCapOpen(r, signal, infos[0].seid, true);
      SendCapOpen(r, signal, infos[0].seid, false);
      AskCapsOpen(SendCap(r, signal, infos[0].seid), remote + {infos[0].seid}, mine, infos[1..], v13);
    }
  }

  /** The remote SEIDs of the session's own streams. */
  ghost function Mine(s: SessionState): set<nat> { set t | t in s.objs :: s.objs[t].rseid }

  /** An accepted DISCOVER: `avdtp_discover_resp`. */
  ghost function DiscoverAnswered(s: Session, infos: seq<SeidInfo>): (s1: Session)
    requires s.r.req.Some? && s.r.req.value.signal.Discover? && s.r.req.value.armed
    ensures Kept(s, s1) && s1.r.tries == s.r.tries && s1.losses == s.losses
  {
    assert Unfold(1);
    NoCapsWaiting(s.r);
    var (r1, remote1) := AskCaps(Unarmed(s.r), s.remote, Mine(s), infos, s.v13);
    DiscoverParts(s, infos);
    Done(s.(r := r1, remote := remote1, answering := true), r1.made == s.r.made)
  }

  /** Nothing but requests and discovery differs. */
  ghost predicate SameStreams(s: SessionState, s1: SessionState) {
    && s1.seps == s.seps && s1.streams == s.streams && s1.objs == s.objs && s1.pendingOpen == s.pendingOpen
    && s1.v13 == s.v13 && s1.watching == s.watching && s1.made == s.made && s1.asked == s.asked
  }

  lemma DiscoverAnsweredIs(s: Session, infos: seq<SeidInfo>)
    requires s.r.req.Some? && s.r.req.value.signal.Discover? && s.r.req.value.armed
    ensures CapsLast(s.r.prio)
    ensures var (r1, remote1) := AskCaps(Unarmed(s.r), s.remote, Mine(s), infos, s.v13);
            var s1 := DiscoverAnswered(s, infos);
            && SameStreams(s, s1) && s1.r == r1 && s1.remote == remote1
            && s1.discover == if r1.made == s.r.made then None else s.discover
  {
    NoCapsWaiting(s.r);
  }

  lemma NoCapsWaiting(r: Requests)
    requires r.req.Some? && r.req.value.signal.Discover? && r.req.value.armed
    ensures NoCaps(r.prio) && CapsLast(r.prio) && NoCaps(r.queue)
  {
    assert Unfold(0);
  }

  /** The callback of a discovery that is complete. */
  ghost function Done(s: SessionState, complete: bool): SessionState {
    if !complete || s.discover.None? then s
    else s.(discover := None, fired := Told(s.discover, s.fired))
  }

  /** The state after a part of a discovery has been answered: sound, if the
      bookkeeping is. */
  lemma DoneValid(s: Session, r: Requests, remote: set<nat>, complete: bool)
    requires Targets(r, s.objs.Keys) && CapsKnown(r, remote)
    requires !s.spoiled ==> InStep(if complete then None else s.discover, Unanswered(r, true), Unanswered(r, false))
    ensures var s1 := Done(s.(r := r, remote := remote, answering := true), complete);
            Linked(s1) && NoStale(s1) && DiscoveryValid(s1) && TimerRuns(s1)
  {
    assert Unfold(1);
  }

  lemma SessionInStep(s: Session)
    ensures Targets(s.r, s.objs.Keys) && CapsKnown(s.r, s.remote)
    ensures !s.spoiled ==> InStep(s.discover, Unanswered(s.r, true), Unanswered(s.r, false))
  {
    assert Unfold(1);
  }

  lemma DiscoverParts(s: Session, infos: seq<SeidInfo>)
    requires s.r.req.Some? && s.r.req.value.signal.Discover? && s.r.req.value.armed
    requires CapsLast(s.r.prio) && NoCaps(s.r.prio) && NoCaps(s.r.queue)
    ensures var (r1, remote1) := AskCaps(Unarmed(s.r), s.remote, Mine(s), infos, s.v13);
            var s1 := Done(s.(r := r1, remote := remote1, answering := true), r1.made == s.r.made);
            Linked(s1) && NoStale(s1) && DiscoveryValid(s1) && TimerRuns(s1)
  {
    SessionInStep(s);
    DisarmTargets(s.r, s.objs.Keys);
    AskCapsKeeps(Unarmed(s.r), s.remote, Mine(s), infos, s.v13, s.objs.Keys);
    var (r1, remote1) := AskCaps(Unarmed(s.r), s.remote, Mine(s), infos, s.v13);
    if !s.spoiled { DiscoverInStep(s.r, s.discover, s.remote, Mine(s), infos, s.v13); }
    DoneValid(s, r1, remote1, r1.made == s.r.made);
  }

  lemma DiscoverInStep(r: Requests, d: Option<Discovery>, remote: set<nat>, mine: set<nat>, infos: seq<SeidInfo>, v13: bool)
    requires r.req.Some? && r.req.value.signal.Discover? && r.req.value.armed
    requires CapsLast(r.prio) && NoCaps(r.prio) && NoCaps(r.queue)
    requires InStep(d, Unanswered(r, true), Unanswered(r, false))
    ensures var r1 := AskCaps(Unarmed(r), remote, mine, infos, v13).0;
            InStep(if r1.made == r.made then None else d, Unanswered(r1, true), Unanswered(r1, false))
  {
    AskCapsOpen(Unarmed(r), remote, mine, infos, v13);
    DisarmOpen(r, true);
    DisarmOpen(r, false);
    assert r.req.value.id in Unanswered(r, false);
    assert KindIds(r.prio, true) == {} && KindIds(r.queue, true) == {};
    assert Unanswered(Unarmed(r), false) == {} && Unanswered(Unarmed(r), true) == {};
  }

  /** The next request to be sent, as `avdtp_parse_resp` sees it. */
  ghost function Next(r: RequestState): Option<Req> {
    if r.prio != [] then Some(r.prio[0]) else if r.queue != [] then Some(r.queue[0]) else None
  }

  /** An accepted, well-formed capability reply. */
  ghost function CapsAnswered(s: Session): (s1: Session)
    requires s.r.req.Some? && IsCap(s.r.req.value) && s.r.req.value.armed
    ensures Kept(s, s1) && s1.r.tries == s.r.tries && s1.losses == s.losses
  {
    CapsParts(s);
    Done(s.(r := Unarmed(s.r), answering := true), !(Next(s.r).Some? && IsCap(Next(s.r).value)))
  }

  lemma CapsParts(s: Session)
    requires s.r.req.Some? && IsCap(s.r.req.value) && s.r.req.value.armed
    ensures var s1 := Done(s.(r := Unarmed(s.r), answering := true), !(Next(s.r).Some? && IsCap(Next(s.r).value)));
            Linked(s1) && NoStale(s1) && DiscoveryValid(s1) && TimerRuns(s1)
  {
    SessionInStep(s);
    DisarmTargets(s.r, s.objs.Keys);
    if !s.spoiled { CapsInStep(s.r, s.discover); }
    DoneValid(s, Unarmed(s.r), s.remote, !(Next(s.r).Some? && IsCap(Next(s.r).value)));
    assert s.(r := Unarmed(s.r), remote := s.remote, answering := true) == s.(r := Unarmed(s.r), answering := true);
  }

  lemma CapsAnsweredIs(s: Session)
    requires s.r.req.Some? && IsCap(s.r.req.value) && s.r.req.value.armed
    ensures var s1 := CapsAnswered(s);
            && SameStreams(s, s1) && s1.r == Unarmed(s.r) && s1.remote == s.remote
            && s1.discover == if Next(s.r).Some? && IsCap(Next(s.r).value) then s.discover else None
  {
  }

  lemma CapsInStep(r: Requests, d: Option<Discovery>)
    requires r.req.Some? && IsCap(r.req.value) && r.req.value.armed
    requires InStep(d, Unanswered(r, true), Unanswered(r, false))
    ensures InStep(if Next(r).Some? && IsCap(Next(r).value) then d else None,
                   Unanswered(Unarmed(r), true), Unanswered(Unarmed(r), false))
  {
    DisarmOpen(r, true);
    DisarmOpen(r, false);
    NextIsCap(r);
    if r.queue != [] { assert r.queue[0] in r.queue; }
    assert r.req.value.id in Unanswered(r, true);
    assert Unanswered(Unarmed(r), true) == KindIds(r.prio, true) + KindIds(r.queue, true);
  }

  // ------------------------------------------------------- replies, complete

  /** An accepted reply to a request about a stream: the rest of
      `avdtp_parse_resp`. */
  ghost function StreamAnswered(s: Session, ok: Socket): (s1: Session)
    requires s.r.req.Some? && (s.r.req.value.stream.Some? ==> s.r.req.value.stream.value in s.objs)
    requires !s.r.req.value.armed
    ensures s1.r.req == s.r.req && Mild(s, s1)
  {
    if s.r.req.value.stream.None? then s
    else
      var t := s.r.req.value.stream.value;
      StreamLinks(s, t);
      var e := s.objs[t].lsep;
      match s.r.req.value.signal
      case SetConfiguration => EnterReq(s, e, Configured, ok); Enter(s, e, Configured, ok)
      case Open => WithPending(s, Some(t))
      case Suspend => EnterReq(s, e, Opened, ok); Enter(s, e, Opened, ok)
      case Start =>
        if s.seps[e].state.Streaming? then s else EnterReq(s, e, Streaming, ok); Enter(s, e, Streaming, ok)
      case Close => CloseAnswered(s, t, ok)
      case Abort => AbortAnswered(s, t, ok)
      case _ => s
  }

  ghost function CloseAnswered(s: Session, t: StreamId, ok: Socket): (s1: Session)
    requires s.r.req.Some? && t in s.objs
    ensures s1.r.req == s.r.req && Steady(s, s1)
  {
    StreamLinks(s, t);
    var e := s.objs[t].lsep;
    EnterReq(s, e, Closing, ok); EnterKeeps(s, e, Closing, ok);
    var s1 := Enter(s, e, Closing, ok);
    WithStream(s1, t, s1.objs[t].(io := false))
  }

  ghost function AbortAnswered(s: Session, t: StreamId, ok: Socket): (s1: Session)
    requires s.r.req.Some? && t in s.objs
    requires !s.r.req.value.armed
    ensures s1.r.req == s.r.req && Mild(s, s1)
  {
    StreamLinks(s, t);
    var e := s.objs[t].lsep;
    EnterReq(s, e, Aborting, ok); EnterKeeps(s, e, Aborting, ok);
    var s1 := Enter(s, e, Aborting, ok);
    ForgetIs(s1.r, t);
    Idled(s1, e)
  }

  /** The marks a reject leaves on the stream: part of `avdtp_parse_rej`. */
  ghost function StreamRejected(s: Session): (s1: Session)
    requires s.r.req.Some? && (s.r.req.value.stream.Some? ==> s.r.req.value.stream.value in s.objs)
    ensures s1.r == s.r && Steady(s, s1)
  {
    if s.r.req.value.stream.None? then s
    else
      var t := s.r.req.value.stream.value;
      StreamLinks(s, t);
      var o, cfm := s.objs[t], s.seps[s.objs[t].lsep].cfm;
      if s.r.req.value.signal.Start? && cfm then WithStream(s, t, o.(starting := false))
      else if s.r.req.value.signal.Close? && cfm then WithStream(s, t, o.(closeInt := false))
      else s
  }

  /** The end of `session_cb`: the request is freed and the next one sent. */
  ghost function Proceed(s: Session, ok: Socket): (s1: Session)
    requires s.r.req.Some?
    ensures !s1.answering && s1.watching == s.watching && s1.losses == s.losses
    ensures s1.asked == s.asked && s1.discover == s.discover && s1.fired == s.fired
    ensures |s1.r.tries| >= |s.r.tries|
  {
    var r1 := Finish(s.r);
    var loses := (r1.prio != [] || r1.queue != []) && IsDiscovery(Head(r1, r1.prio != [])) && !ok(r1.sends);
    ProceedParts(s, ok);
    s.(r := ProcessQueue(r1, ok), answering := false,
       spoiled := s.spoiled || loses || (s.r.req.value.armed && IsDiscovery(s.r.req.value)))
  }

  lemma ProceedIs(s: Session, ok: Socket)
    requires s.r.req.Some?
    ensures var s1 := Proceed(s, ok);
            && SameStreams(s, s1) && s1.r == ProcessQueue(Finish(s.r), ok)
            && s1.remote == s.remote && s1.discover == s.discover
  {
  }

  lemma ProceedOpen(r: Requests, ok: Socket, caps: bool)
    requires r.req.Some?
    ensures (!r.req.value.armed || !OfKind(r.req.value, caps)) && r.req.value.id !in Unanswered(r, caps)
            && (var r1 := Finish(r);
                (r1.prio == [] && r1.queue == []) || ok(r1.sends) || !OfKind(Head(r1, r1.prio != []), caps))
            ==> Unanswered(ProcessQueue(Finish(r), ok), caps) == Unanswered(r, caps)
  {
    FinishOpen(r, caps);
    ProcessOpen(Finish(r), ok, caps);
  }

  lemma NotListed(r: Requests, caps: bool)
    requires r.req.Some? && (!r.req.value.armed || !OfKind(r.req.value, caps))
    ensures r.req.value.id !in Unanswered(r, caps)
  {
    assert Unfold(0);
    var i := r.req.value.id;
    forall x | x in r.prio ensures x.id != i { assert x.id in Ids(r.prio); }
    forall x | x in r.queue ensures x.id != i { assert x.id in Ids(r.queue); }
  }

  lemma ProceedReq(r: Requests, ok: Socket, remote: set<nat>)
    requires r.req.Some? && CapsKnown(r, remote)
    ensures var r2 := ProcessQueue(Finish(r), ok);
            (r2.req.Some? ==> r2.req.value.armed) && CapsKnown(r2, remote)
  {
    if r.prio != [] {
      assert r.prio[0] in r.prio && forall x :: x in r.prio[1..] ==> x in r.prio;
    } else if r.queue != [] {
      QueueHeadNoCap(r);
    }
  }

  lemma QueueHeadNoCap(r: Requests)
    requires r.queue != []
    ensures !IsCap(r.queue[0])
  {
    assert Unfold(0);
    assert r.queue[0] in r.queue;
  }

  lemma ProceedParts(s: Session, ok: Socket)
    requires s.r.req.Some?
    ensures var r1 := Finish(s.r);
            var loses := (r1.prio != [] || r1.queue != []) && IsDiscovery(Head(r1, r1.prio != [])) && !ok(r1.sends);
            var s1 := s.(r := ProcessQueue(r1, ok), answering := false,
                         spoiled := s.spoiled || loses || (s.r.req.value.armed && IsDiscovery(s.r.req.value)));
            Linked(s1) && NoStale(s1) && DiscoveryValid(s1) && TimerRuns(s1)
  {
    assert Unfold(1);
    ProcessTargets(Finish(s.r), ok, s.objs.Keys);
    ProceedReq(s.r, ok, s.remote);
    ProceedOpen(s.r, ok, true);
    ProceedOpen(s.r, ok, false);
    if !s.r.req.value.armed || !IsDiscovery(s.r.req.value) {
      NotListed(s.r, true);
      NotListed(s.r, false);
    }
  }

  /** The failure exit of `session_cb`: nothing is read any more. */
  ghost function Broken(s: Session): (s1: Session)
    ensures !s1.answering && !s1.watching && s1.losses > s.losses && Kept(s, s1)
  {
    var s1 := ConnectionLost(s);
    assert Unfold(1);
    var s2 := s1.(watching := false, answering := false);
    assert Linked(s2) && NoStale(s2) && DiscoveryValid(s2) && TimerRuns(s2);
    s2
  }

  /** An accepted reply to the request in service. */
  ghost function Accepted(s: Session, wellFormed: bool, infos: seq<SeidInfo>, ok: Socket): (s1: Session)
    requires s.r.req.Some? && s.r.req.value.armed
    requires s.r.req.value.stream.Some? ==> s.r.req.value.stream.value in s.objs
    ensures !s1.answering && Kept(s, s1)
  {
    if s.r.req.value.signal.Discover? then Proceed(DiscoverAnswered(s, infos), ok)
    else if IsCap(s.r.req.value) then CapsAccepted(s, wellFormed, ok)
    else StreamAccepted(s, ok)
  }

  ghost function CapsAccepted(s: Session, wellFormed: bool, ok: Socket): (s1: Session)
    requires s.r.req.Some? && IsCap(s.r.req.value) && s.r.req.value.armed
    ensures !s1.answering && Kept(s, s1)
  {
    if wellFormed then Proceed(CapsAnswered(s), ok) else Broken(Disarm(s, true))
  }

  ghost function StreamAccepted(s: Session, ok: Socket): (s1: Session)
    requires s.r.req.Some? && !IsDiscovery(s.r.req.value)
    requires s.r.req.value.stream.Some? ==> s.r.req.value.stream.value in s.objs
    ensures !s1.answering && Kept(s, s1)
  {
    Proceed(StreamAnswered(Disarm(s, false), ok), ok)
  }

  /** A reject of the request in service. */
  ghost function Rejected(s: Session, wellFormed: bool, ok: Socket): (s1: Session)
    requires s.r.req.Some?
    requires s.r.req.value.stream.Some? ==> s.r.req.value.stream.value in s.objs
    ensures !s1.answering && Kept(s, s1)
  {
    var discovery := IsDiscovery(s.r.req.value);
    if !wellFormed || s.r.req.value.signal.Abort? then Broken(Disarm(s, discovery))
    else if discovery then Proceed(Finalize(Disarm(s, true), true), ok)
    else Proceed(StreamRejected(Disarm(s, false)), ok)
  }

  /** A reply read by `session_cb`. */
  ghost function HandleReply(s: Session, transaction: nat, signal: Signal, kind: ReplyKind, wellFormed: bool,
                             infos: seq<SeidInfo>, ok: Socket): (s1: Session)
    requires !s.answering && s.watching
    ensures !s1.answering && Kept(s, s1)
  {
    if s.r.req.None? || transaction != s.r.req.value.transaction || signal != s.r.req.value.signal then s
    else
      AtReply(s);
      match kind
      case Accept => Accepted(s, wellFormed, infos, ok)
      case Reject => Rejected(s, wellFormed, ok)
      case GeneralReject => Proceed(Disarm(s, IsDiscovery(s.r.req.value)), ok)
      case UnknownType => Proceed(Disarm(s, IsDiscovery(s.r.req.value)), ok)
  }

  /** When a reply is read, the request it answers is live. */
  lemma AtReply(s: Session)
    requires !s.answering && s.watching && s.r.req.Some?
    ensures s.r.req.value.armed
    ensures s.r.req.value.stream.Some? ==> s.r.req.value.stream.value in s.objs
  {
    assert Unfold(1);
  }

  // ----------------------------------------------------------------- commands

  /** The commands of the peer. `Plain` stands for those that are only
      answered, with an accept or a reject. */
  datatype Command =
    | Plain(wellFormed: bool, accept: bool)
    | ConfigureIt(short: bool, seid: SepId, intSeid: nat, badTransport: bool, delay: bool, verdict: Verdict)
    | OpenIt(short: bool, seid: SepId, accept: bool)
    | StartThem(targets: seq<(SepId, bool)>)
    | CloseIt(short: bool, seid: SepId, accept: bool)
    | SuspendThem(targets: seq<(SepId, bool)>)
    | AbortIt(short: bool, seid: SepId)

  ghost function Execute(s: Session, c: Command, ok: Socket): (a: (Session, bool))
    ensures Steady(s, a.0)
  {
    match c
    case Plain(wellFormed, accept) => if wellFormed then SendReply(s, accept, ok) else (s, false)
    case ConfigureIt(short, e, rseid, bad, delay, verdict) =>
      if short then (s, false) else ConfigureCommand(s, e, rseid, bad, delay, verdict, ok)
    case OpenIt(short, e, accept) => if short then (s, false) else OpenCommand(s, e, accept, ok)
    case StartThem(targets) =>
      if targets == [] then (s, false) else SendReply(StartEach(s, targets, ok).0, StartEach(s, targets, ok).1, ok)
    case CloseIt(short, e, accept) => if short then (s, false) else CloseCommand(s, e, accept, ok)
    case SuspendThem(targets) =>
      if targets == [] then (s, false) else SendReply(SuspendEach(s, targets, ok).0, SuspendEach(s, targets, ok).1, ok)
    case AbortIt(short, e) => if short then (s, false) else AbortCommand(s, e, ok)
  }

  /** A command read by `session_cb`. */
  ghost function HandleCommand(s: Session, c: Command, ok: Socket): (s1: Session)
    requires !s.answering
    ensures !s1.answering && Kept(s, s1)
  {
    var (s1, good) := Execute(s, c, ok);
    if !good then Broken(s1)
    else if s1.r.req.Some? && s1.r.req.value.collided then Proceed(s1, ok)
    else s1
  }

  // ------------------------------------------------------------------- events

  /** The calls of the application. */
  datatype Call =
    | CallDiscover | CallConfigure(e: SepId, rseid: nat, delay: bool)
    | CallOpen(t: StreamId) | CallStart(t: StreamId) | CallSuspend(t: StreamId) | CallAbort(t: StreamId)
    | CallClose(t: StreamId, immediate: bool) | CallDelayReport(t: StreamId) | CallSetTransport(t: StreamId, settable: bool)
    | CallRegister(free: Option<SepId>, sink: bool, cfm: bool, ind: bool) | CallUnregister(e: SepId)

  datatype Event =
    | CommandRead(c: Command)
    | ReplyRead(transaction: nat, signal: Signal, kind: ReplyKind, wellFormed: bool, infos: seq<SeidInfo>)
    | ReadFailed
    | RequestTimeout | OpenTimeout(t: StreamId) | CloseTimeout(t: StreamId) | StartTimeout(t: StreamId)
    | DiscoverIdle
    | TransportHangup(t: StreamId, invalid: bool)
    | Called(call: Call)

  /** Whether the event can happen: its source is armed, or its caller keeps
      to the interface. An application configures only free end points. */
  ghost predicate Enabled(s: SessionState, ev: Event) {
    match ev
    case CommandRead(_) => s.watching
    case ReplyRead(_, _, _, _, _) => s.watching
    case ReadFailed => s.watching
    case RequestTimeout => s.r.req.Some? && s.r.req.value.armed
    case OpenTimeout(t) => t in s.objs && s.objs[t].timer.OpenTimer?
    case CloseTimeout(t) => t in s.objs && s.objs[t].timer.CloseTimer?
    case StartTimeout(t) => t in s.objs && s.objs[t].startTimer
    case DiscoverIdle => s.discover.Some? && s.discover.value.idle
    case TransportHangup(t, _) => t in s.objs && s.objs[t].watch
    case Called(CallConfigure(e, rseid, _)) => e in s.seps && !s.seps[e].inuse && rseid in s.remote
    case Called(CallRegister(free, _, _, _)) => free.Some? ==> free.value !in s.seps
    case Called(CallUnregister(e)) => e in s.seps
    case Called(_) => true
  }

  /** `stream_open_timeout`. */
  ghost function OpenTimedOut(s: Session, t: StreamId, ok: Socket): (s1: Session)
    requires t in s.objs
    ensures Steady(s, s1)
  {
    AbortStream(WithPending(WithStream(s, t, s.objs[t].(timer := NoTimer)), None), t, ok).0
  }

  /** `start_timeout`. */
  ghost function StartTimedOut(s: Session, t: StreamId, ok: Socket): (s1: Session)
    requires t in s.objs
    ensures Steady(s, s1)
  {
    var s1 := StartStream(WithStream(s, t, s.objs[t].(openAcp := false)), t, ok).0;
    WithStream(s1, t, s1.objs[t].(startTimer := false))
  }

  /** `transport_cb`. */
  ghost function TransportGone(s: Session, t: StreamId, invalid: bool): (s1: Session)
    requires t in s.objs
    ensures Mild(s, s1)
  {
    StreamLinks(s, t);
    var s1 := WithStream(s, t, s.objs[t].(io := s.objs[t].io && invalid, watch := false));
    if s.objs[t].abortInt then s1 else Idled(s1, s.objs[t].lsep)
  }

  ghost function Perform(s: Session, call: Call, ok: Socket): (s1: Session)
    requires Enabled(s, Called(call))
    ensures Still(s, s1) && (!call.CallDiscover? ==> Mild(s, s1))
    ensures !call.CallDiscover? && !call.CallUnregister? ==> Steady(s, s1)
  {
    match call
    case CallDiscover => StartDiscovery(s, ok).0
    case CallConfigure(e, rseid, delay) => Configure(s, e, rseid, delay, ok).0
    case CallOpen(t) => OpenStream(s, t, ok).0
    case CallStart(t) => StartStream(s, t, ok).0
    case CallSuspend(t) => SuspendStream(s, t, ok).0
    case CallAbort(t) => AbortStream(s, t, ok).0
    case CallClose(t, immediate) => CloseStream(s, t, immediate, ok).0
    case CallDelayReport(t) => DelayReportOf(s, t, ok).0
    case CallSetTransport(t, settable) => Connect(s, t, settable, ok).0
    case CallRegister(free, sink, cfm, ind) => RegisterSep(s, free, sink, cfm, ind)
    case CallUnregister(e) => UnregisterSep(s, e)
  }

  ghost function Step(s: Session, ev: Event, ok: Socket): (s1: Session)
    requires !s.answering
    ensures !s1.answering && (ev != Called(CallDiscover) ==> Kept(s, s1))
  {
    if !Enabled(s, ev) then s
    else
      match ev
      case CommandRead(c) => HandleCommand(s, c, ok)
      case ReplyRead(transaction, signal, kind, wellFormed, infos) =>
        HandleReply(s, transaction, signal, kind, wellFormed, infos, ok)
      case ReadFailed => Broken(s)
      case RequestTimeout => CancelRequest(s, ok).0
      case OpenTimeout(t) => OpenTimedOut(s, t, ok)
      case CloseTimeout(t) => WithStream(s, t, s.objs[t].(timer := NoTimer, io := false))
      case StartTimeout(t) => StartTimedOut(s, t, ok)
      case DiscoverIdle => Finalize(s, false)
      case TransportHangup(t, invalid) => TransportGone(s, t, invalid)
      case Called(call) => Perform(s, call, ok)
  }
}
