/** One AVDTP session: local end points, streams, pending requests and
    discovery. Every operation is a function on a session whose links are
    sound; `AvdtpEngine` has the same operations as methods of a class. */
module AvdtpSession {
  import opened Common
  import opened AvdtpRequests

  type SepId = nat

  datatype SepState = Idle | Configured | Opened | Streaming | Closing | Aborting

  /** `struct avdtp_local_sep`, named by its SEID; `cfm` and `ind` tell whether
      its user registered confirmation and indication callbacks. */
  datatype LocalSep = LocalSep(state: SepState, stream: Option<StreamId>, inuse: bool,
                               sink: bool, cfm: bool, ind: bool)

  datatype Timer = NoTimer | OpenTimer | CloseTimer

  datatype Stream = Stream(lsep: SepId, rseid: nat, io: bool, watch: bool, timer: Timer, startTimer: bool,
                           openAcp: bool, closeInt: bool, abortInt: bool, delayReporting: bool, starting: bool)

  /** `struct discover_callback`: `idle` for a scheduled idle source, `wanted`
      for a callback that has been set. */
  datatype Discovery = Discovery(id: nat, idle: bool, wanted: bool)

  /** `objs` are the stream objects in existence, `remote` the SEIDs of the
      remote end points known; `v13` says that the version is at least 1.3,
      `watching` that packets are still read, `answering` that a reply is being
      handled. The rest is history: streams and discoveries made so far,
      callbacks fired, connections given up, and whether a discovery request
      may have been lost or refused since a discovery last began with none
      outstanding (`spoiled`), and the answers handed to the socket, true for an
      accept and false for a reject. */
  datatype SessionState = SessionState(
    seps: map<SepId, LocalSep>, streams: seq<StreamId>, objs: map<StreamId, Stream>,
    pendingOpen: Option<StreamId>, r: Requests, remote: set<nat>, discover: Option<Discovery>,
    v13: bool, watching: bool, answering: bool,
    made: nat, asked: nat, fired: seq<nat>, losses: nat, spoiled: bool, answers: seq<bool>)

  type Session = s: SessionState | Valid(s) witness NewSession(0, false)

  function NewSession(transaction: nat, v13: bool): SessionState
    requires transaction < 16
  {
    SessionState(map[], [], map[], None, NoRequests(transaction), {}, None, v13, true, false, 0, 0, [], 0, false, [])
  }

  // -------------------------------------------------------------- invariant

  /** End points and streams own each other, one to one. */
  ghost predicate Owned(seps: map<SepId, LocalSep>, streams: seq<StreamId>, objs: map<StreamId, Stream>, made: nat) {
    && NoDup(streams)
    && (forall t :: t in streams <==> t in objs)
    && (forall t :: t in objs ==> t < made && objs[t].lsep in seps && seps[objs[t].lsep].stream == Some(t))
    && (forall e :: e in seps ==> SepOwned(e, seps[e], objs))
  }

  ghost predicate SepOwned(e: SepId, sep: LocalSep, objs: map<StreamId, Stream>) {
    && (sep.inuse <==> sep.stream.Some?)
    && (sep.stream.Some? ==> sep.stream.value in objs && objs[sep.stream.value].lsep == e)
    && (sep.state != Idle ==> sep.stream.Some?)
  }

  ghost predicate Linked(s: SessionState) { Owned(s.seps, s.streams, s.objs, s.made) }

  /** No reference to a stream that no longer exists. */
  ghost predicate NoStale(s: SessionState) {
    && Targets(s.r, s.objs.Keys)
    && (s.pendingOpen.Some? ==> s.pendingOpen.value in s.objs)
  }

  /** Capability requests are for known end points; callbacks fire once. */
  ghost predicate DiscoveryValid(s: SessionState) {
    && CapsKnown(s.r, s.remote)
    && NoDup(s.fired) && (forall i :: 0 <= i < |s.fired| ==> s.fired[i] < s.asked)
    && (s.discover.Some? ==> s.discover.value.id < s.asked && s.discover.value.id !in s.fired)
    && (!s.spoiled ==> InStep(s.discover, Unanswered(s.r, true), Unanswered(s.r, false)))
  }

  ghost predicate CapsKnown(r: RequestState, remote: set<nat>) {
    && (forall x :: x in r.prio && IsCap(x) ==> x.seid in remote)
    && (r.req.Some? && IsCap(r.req.value) ==> r.req.value.seid in remote)
  }

  /** A discovery waits for the peer exactly while a request of it is still
      unanswered: one DISCOVER, or some capability requests. */
  ghost predicate InStep(d: Option<Discovery>, caps: set<nat>, discovers: set<nat>) {
    && (d.Some? && !d.value.idle <==> caps + discovers != {})
    && (d.Some? && !d.value.idle ==> d.value.wanted)
    && (caps != {} ==> discovers == {})
    && (forall a, b :: a in discovers && b in discovers ==> a == b)
  }

  /** A request without running timer is one whose reply is being handled, or
      one left behind by a broken connection. */
  ghost predicate TimerRuns(s: SessionState) {
    s.r.req.Some? && !s.r.req.value.armed ==> s.answering || !s.watching
  }

  ghost predicate Valid(s: SessionState) {
    forall k | k == 1 && Unfold(k) :: Linked(s) && NoStale(s) && DiscoveryValid(s) && TimerRuns(s)
  }

  // ------------------------------------------------------ elementary updates

  /** Whether a reply is being handled, and packets are read, is unchanged. */
  ghost predicate Still(s: SessionState, s1: SessionState) {
    && s1.answering == s.answering && s1.watching == s.watching
    && s1.losses >= s.losses && |s1.r.tries| >= |s.r.tries|
  }

  /** The same, and discovery is left alone unless the connection is given up. */
  ghost predicate Mild(s: SessionState, s1: SessionState) {
    && Still(s, s1) && Kept(s, s1)
    && (s1.losses == s.losses ==>
          s1.spoiled == s.spoiled && s1.discover == s.discover && s1.fired == s.fired && Due(s1.r) == Due(s.r))
  }

  /** The capability requests and the DISCOVER requests not yet answered. */
  ghost function Due(r: RequestState): (set<nat>, set<nat>) { (Unanswered(r, true), Unanswered(r, false)) }

  /** And nothing stops the flow of requests. */
  ghost predicate Steady(s: SessionState, s1: SessionState) {
    Mild(s, s1) && (s1.losses == s.losses ==> Paced(s.r, s1.r))
  }

  /** The request in service stays, or gives way to a new one; and while there
      is none, what waits goes on waiting. */
  ghost predicate Paced(r: RequestState, r1: RequestState) {
    && r1.made >= r.made
    && (r.req.Some? ==> r1.req.Some?)
    && (r1.req.Some? ==> (r.req.Some? && r1.req.value.id == r.req.value.id) || r1.req.value.id >= r.made)
    && (r1.req.None? ==> r1.prio == r.prio && r1.queue == r.queue)
  }

  /** The callbacks fired, once that of the discovery has been too. */
  ghost function Told(d: Option<Discovery>, fired: seq<nat>): seq<nat> {
    if d.Some? && d.value.wanted then fired + [d.value.id] else fired
  }

  /** The current discovery is still the current one, or its callback has been
      fired. */
  ghost predicate Kept(s: SessionState, s1: SessionState) {
    && s1.asked == s.asked && s1.losses >= s.losses && (s1.losses > s.losses ==> s1.discover.None?)
    && ((s1.discover == s.discover && s1.fired == s.fired)
        || (s1.discover.None? && s1.fired == Told(s.discover, s.fired)))
  }

  /** Other pending requests, and the same discovery requests among them. */
  ghost function WithRequests(s: Session, r: Requests): (result: Session)
    requires Targets(r, s.objs.Keys) && CapsKnown(r, s.remote)
    requires Due(r) == Due(s.r)
    requires r.req.Some? && !r.req.value.armed ==> s.r.req.Some? && !s.r.req.value.armed
    requires |r.tries| >= |s.r.tries| && Paced(s.r, r)
    ensures Steady(s, result)
  {
    assert Unfold(1);
    var s1 := s.(r := r);
    assert Linked(s1) && NoStale(s1) && DiscoveryValid(s1);
    s1
  }

  /** Another value of a stream object. */
  ghost function WithStream(s: Session, t: StreamId, o: Stream): (result: Session)
    requires t in s.objs && o.lsep == s.objs[t].lsep
    ensures Steady(s, result)
  {
    assert Unfold(1);
    var s1 := s.(objs := s.objs[t := o]);
    UpdateOwned(s.seps, s.streams, s.objs, s.made, t, o);
    assert s1.objs.Keys == s.objs.Keys;
    assert Linked(s1) && NoStale(s1) && DiscoveryValid(s1);
    s1
  }

  ghost function WithState(s: Session, e: SepId, state: SepState): (result: Session)
    requires e in s.seps && s.seps[e].stream.Some?
    ensures Steady(s, result)
  {
    assert Unfold(1);
    var s1 := s.(seps := s.seps[e := s.seps[e].(state := state)]);
    StateOwned(s.seps, s.streams, s.objs, s.made, e, state);
    assert Linked(s1) && NoStale(s1) && DiscoveryValid(s1);
    s1
  }

  ghost function WithPending(s: Session, p: Option<StreamId>): (result: Session)
    requires p.Some? ==> p.value in s.objs
    ensures Steady(s, result)
  {
    assert Unfold(1);
    var s1 := s.(pendingOpen := p);
    assert Linked(s1) && NoStale(s1) && DiscoveryValid(s1);
    s1
  }

  /** A new stream on a free end point. */
  ghost function Attach(s: Session, e: SepId, rseid: nat, delayReporting: bool): (s1: Session)
    requires e in s.seps && !s.seps[e].inuse
    ensures s.made in s1.objs
    ensures Steady(s, s1)
  {
    assert Unfold(1);
    var o := Stream(e, rseid, false, false, NoTimer, false, false, false, false, delayReporting, false);
    var s1 := s.(seps := s.seps[e := s.seps[e].(inuse := true, stream := Some(s.made))],
                 streams := s.streams + [s.made], objs := s.objs[s.made := o], made := s.made + 1);
    AttachOwned(s.seps, s.streams, s.objs, s.made, e, o);
    assert s1.objs.Keys == s.objs.Keys + {s.made};
    assert NoStale(s1) && DiscoveryValid(s1);
    s1
  }

  /** The requests once the stream is idle: the unanswered one is dropped, and
      what waits for the stream is freed. */
  ghost function Forget(r: Requests, t: StreamId): Requests {
    Cleanup(if r.req.Some? && r.req.value.stream == Some(t) then DropUnanswered(r) else r, t)
  }

  ghost function IdleState(s: SessionState, e: SepId): SessionState
    requires e in s.seps && s.seps[e].stream.Some?
  {
    var t := s.seps[e].stream.value;
    s.(seps := s.seps[e := s.seps[e].(state := Idle, inuse := false, stream := None)],
       streams := RemoveFirst(s.streams, t), objs := s.objs - {t},
       pendingOpen := if s.pendingOpen == Some(t) then None else s.pendingOpen,
       r := Forget(s.r, t))
  }

  /** `avdtp_sep_set_state` to IDLE, with the `stream_free` at its end. */
  ghost function Idled(s: Session, e: SepId): (result: Session)
    requires e in s.seps && s.seps[e].stream.Some?
    ensures Mild(s, result)
  {
    assert Unfold(1);
    IdleParts(s, e);
    IdleState(s, e)
  }

  lemma IdleParts(s: Session, e: SepId)
    requires e in s.seps && s.seps[e].stream.Some?
    ensures var s1 := IdleState(s, e);
            && Linked(s1) && NoStale(s1) && DiscoveryValid(s1) && TimerRuns(s1)
            && |s1.r.tries| >= |s.r.tries| && Due(s1.r) == Due(s.r)
  {
    var t := s.seps[e].stream.value;
    assert Unfold(1);
    DetachOwned(s.seps, s.streams, s.objs, s.made, e);
    IdleStale(s, e); IdleDiscovery(s, e); ForgetIs(s.r, t);
    ForgetOpen(s.r, t, true); ForgetOpen(s.r, t, false);
  }

  lemma IdledIs(s: Session, e: SepId)
    requires e in s.seps && s.seps[e].stream.Some?
    ensures Idled(s, e) == IdleState(s, e)
  {
  }

  lemma IdleStale(s: SessionState, e: SepId)
    requires NoStale(s) && e in s.seps && s.seps[e].stream.Some?
    ensures NoStale(IdleState(s, e))
  {
    var t := s.seps[e].stream.value;
    ForgetTargets(s.r, t, s.objs.Keys);
    assert IdleState(s, e).objs.Keys == s.objs.Keys - {t};
  }

  lemma IdleDiscovery(s: SessionState, e: SepId)
    requires DiscoveryValid(s) && e in s.seps && s.seps[e].stream.Some?
    ensures DiscoveryValid(IdleState(s, e))
  {
    var t := s.seps[e].stream.value;
    ForgetCaps(s.r, t, s.remote);
    ForgetOpen(s.r, t, true);
    ForgetOpen(s.r, t, false);
  }

  lemma ForgetIs(r: Requests, t: StreamId)
    ensures var r1 := Forget(r, t);
            && r1.prio == Without(r.prio, t) && r1.queue == Without(r.queue, t)
            && r1.req == if r.req.None? || r.req.value.stream != Some(t) || !r.req.value.armed then r.req
                         else if r.req.value.signal.Abort? then Some(r.req.value.(stream := None)) else None
  {
  }

  lemma ForgetTargets(r: Requests, t: StreamId, live: set<StreamId>)
    requires Targets(r, live)
    ensures Targets(Forget(r, t), live - {t})
  {
    var r1 := if r.req.Some? && r.req.value.stream == Some(t) then DropUnanswered(r) else r;
    CleanupTargets(r1, t, live);
  }

  lemma ForgetCaps(r: Requests, t: StreamId, remote: set<nat>)
    requires CapsKnown(r, remote)
    ensures CapsKnown(Forget(r, t), remote)
  {
    ForgetIs(r, t);
    WithoutIs(r.prio, t);
  }

  /** A stream and its end point part. */
  lemma DetachOwned(seps: map<SepId, LocalSep>, streams: seq<StreamId>, objs: map<StreamId, Stream>, made: nat, e: SepId)
    requires Owned(seps, streams, objs, made) && e in seps && seps[e].stream.Some?
    ensures var t := seps[e].stream.value;
            Owned(seps[e := seps[e].(state := Idle, inuse := false, stream := None)],
                  RemoveFirst(streams, t), objs - {t}, made)
  {
    var t := seps[e].stream.value;
    RemoveFirstNoDup(streams, t);
    var seps1 := seps[e := seps[e].(state := Idle, inuse := false, stream := None)];
    forall f | f in seps1 ensures SepOwned(f, seps1[f], objs - {t}) {
      assert SepOwned(f, seps[f], objs);
    }
  }

  lemma AttachOwned(seps: map<SepId, LocalSep>, streams: seq<StreamId>, objs: map<StreamId, Stream>, made: nat,
                    e: SepId, o: Stream)
    requires Owned(seps, streams, objs, made) && e in seps && !seps[e].inuse && o.lsep == e
    ensures Owned(seps[e := seps[e].(inuse := true, stream := Some(made))], streams + [made], objs[made := o], made + 1)
  {
    var seps1 := seps[e := seps[e].(inuse := true, stream := Some(made))];
    forall f | f in seps1 ensures SepOwned(f, seps1[f], objs[made := o]) {
      assert SepOwned(f, seps[f], objs);
    }
    forall t | t in objs ensures t != made && objs[t].lsep != e {
      assert SepOwned(e, seps[e], objs);
    }
  }

  lemma StateOwned(seps: map<SepId, LocalSep>, streams: seq<StreamId>, objs: map<StreamId, Stream>, made: nat,
                   e: SepId, state: SepState)
    requires Owned(seps, streams, objs, made) && e in seps && seps[e].stream.Some?
    ensures Owned(seps[e := seps[e].(state := state)], streams, objs, made)
  {
    var seps1 := seps[e := seps[e].(state := state)];
    forall f | f in seps1 ensures SepOwned(f, seps1[f], objs) {
      assert SepOwned(f, seps[f], objs);
    }
  }

  lemma UpdateOwned(seps: map<SepId, LocalSep>, streams: seq<StreamId>, objs: map<StreamId, Stream>, made: nat,
                    t: StreamId, o: Stream)
    requires Owned(seps, streams, objs, made) && t in objs && o.lsep == objs[t].lsep
    ensures Owned(seps, streams, objs[t := o], made)
  {
    forall f | f in seps ensures SepOwned(f, seps[f], objs[t := o]) {
      assert SepOwned(f, seps[f], objs);
    }
  }

  lemma ForgetOpen(r: Requests, t: StreamId, caps: bool)
    ensures Unanswered(Forget(r, t), caps) == Unanswered(r, caps)
  {
    if r.req.Some? && r.req.value.stream == Some(t) {
      StreamsAside(r);
      CleanupOpen(DropUnanswered(r), t, caps);
      OutOfKind(r, caps);
    } else {
      CleanupOpen(r, t, caps);
    }
  }

  lemma StreamsAside(r: Requests)
    ensures r.req.Some? && r.req.value.stream.Some? ==> !IsDiscovery(r.req.value)
  {
    assert Unfold(0);
  }

  /** Freeing a request that is no discovery request. */
  lemma OutOfKind(r: Requests, caps: bool)
    requires r.req.Some?
    ensures !OfKind(r.req.value, caps) ==> Unanswered(Finish(r), caps) == Unanswered(r, caps)
  {
    assert Unfold(0);
    FinishOpen(r, caps);
    var i := r.req.value.id;
    assert i !in Ids(r.prio) && i !in Ids(r.queue);
    assert KindIds(r.prio, caps) <= Ids(r.prio) && KindIds(r.queue, caps) <= Ids(r.queue);
  }

  // --------------------------------------------------------- small operations

  /** An accept or a reject to the peer. */
  ghost function SendReply(s: Session, accept: bool, ok: Socket): (a: (Session, bool))
    ensures Steady(s, a.0)
  {
    assert Unfold(1);
    var (r1, good) := Reply(s.r, ok);
    (Said(WithRequests(s, r1), accept), good)
  }

  ghost function Said(s: Session, accept: bool): (result: Session)
    ensures Steady(s, result)
  {
    assert Unfold(1);
    var s1 := s.(answers := s.answers + [accept]);
    assert Linked(s1) && NoStale(s1) && DiscoveryValid(s1);
    s1
  }

  /** `send_request`, for all but the requests of a discovery. */
  ghost function SendRequest(s: Session, priority: bool, stream: Option<StreamId>, signal: Signal, seid: nat, ok: Socket)
    : (a: (Session, bool))
    requires !signal.GetCapabilities? && !signal.GetAllCapabilities? && !signal.Discover?
    requires stream.Some? ==> stream.value in s.objs
    ensures Steady(s, a.0)
  {
    if stream.Some? && s.objs[stream.value].abortInt && !signal.Abort? then (s, false)
    else
      var (r1, good) := SendNew(s.r, priority, stream, signal, seid, ok);
      RequestFits(s, priority, stream, signal, seid, ok);
      (WithRequests(s, r1), good)
  }

  lemma SendNewPaced(r: Requests, priority: bool, stream: Option<StreamId>, signal: Signal, seid: nat, ok: Socket)
    requires !signal.GetCapabilities? && !signal.GetAllCapabilities?
    requires signal.Discover? ==> !priority && stream.None? && NoCaps(r.prio)
    ensures Paced(r, SendNew(r, priority, stream, signal, seid, ok).0)
  {
  }

  lemma RequestFits(s: Session, priority: bool, stream: Option<StreamId>, signal: Signal, seid: nat, ok: Socket)
    requires !signal.GetCapabilities? && !signal.GetAllCapabilities? && !signal.Discover?
    requires stream.Some? ==> stream.value in s.objs
    ensures var r := SendNew(s.r, priority, stream, signal, seid, ok).0;
            && Targets(r, s.objs.Keys) && CapsKnown(r, s.remote)
            && Due(r) == Due(s.r)
            && (r.req.Some? && !r.req.value.armed ==> s.r.req.Some? && !s.r.req.value.armed)
            && |r.tries| >= |s.r.tries| && Paced(s.r, r)
  {
    SendNewPaced(s.r, priority, stream, signal, seid, ok);
    SendNewReq(s.r, priority, stream, signal, seid, ok);
    SessionLinks(s);
    hide Targets, CapsKnown, Unanswered, Paced, SendNew;
    SendNewTargets(s.r, priority, stream, signal, seid, ok, s.objs.Keys);
    SendNewOpen(s.r, priority, stream, signal, seid, ok, true);
    SendNewOpen(s.r, priority, stream, signal, seid, ok, false);
    SendNewCaps(s.r, priority, stream, signal, seid, ok, s.remote);
    var r := SendNew(s.r, priority, stream, signal, seid, ok).0;
    assert Unanswered(r, true) == Unanswered(s.r, true) && Unanswered(r, false) == Unanswered(s.r, false);
  }

  lemma SessionLinks(s: Session)
    ensures Targets(s.r, s.objs.Keys) && CapsKnown(s.r, s.remote)
  {
    assert Unfold(1);
  }

  lemma SendRequestIs(s: Session, priority: bool, stream: Option<StreamId>, signal: Signal, seid: nat, ok: Socket)
    requires !signal.GetCapabilities? && !signal.GetAllCapabilities? && !signal.Discover?
    requires stream.Some? ==> stream.value in s.objs
    ensures var (r1, good) := SendNew(s.r, priority, stream, signal, seid, ok);
            SendRequest(s, priority, stream, signal, seid, ok)
            == if stream.Some? && s.objs[stream.value].abortInt && !signal.Abort? then (s, false) else (s.(r := r1), good)
  {
  }

  lemma SendNewCaps(r: Requests, priority: bool, stream: Option<StreamId>, signal: Signal, seid: nat, ok: Socket,
                    remote: set<nat>)
    requires !signal.GetCapabilities? && !signal.GetAllCapabilities?
    requires signal.Discover? ==> !priority && stream.None? && NoCaps(r.prio)
    requires CapsKnown(r, remote)
    ensures CapsKnown(SendNew(r, priority, stream, signal, seid, ok).0, remote)
  {
    var q := NewReq(r, stream, signal, seid);
    assert forall x :: x in r.prio + [q] ==> x in r.prio || x == q;
  }

  lemma SendNewReq(r: Requests, priority: bool, stream: Option<StreamId>, signal: Signal, seid: nat, ok: Socket)
    requires !signal.GetCapabilities? && !signal.GetAllCapabilities?
    requires signal.Discover? ==> !priority && stream.None? && NoCaps(r.prio)
    ensures var r1 := SendNew(r, priority, stream, signal, seid, ok).0;
            && (if r.req.Some? then r1.req == r.req else r1.req.Some? ==> r1.req.value.armed)
            && |r1.tries| >= |r.tries|
  {
  }

  /** What the links say of one end point and of one stream. */
  lemma SepLinks(s: Session, e: SepId)
    requires e in s.seps
    ensures s.seps[e].inuse <==> s.seps[e].stream.Some?
    ensures s.seps[e].stream.Some? ==> s.seps[e].stream.value in s.objs && s.objs[s.seps[e].stream.value].lsep == e
    ensures !s.seps[e].state.Idle? ==> s.seps[e].stream.Some?
  {
    assert Unfold(1);
    assert SepOwned(e, s.seps[e], s.objs);
  }

  lemma StreamLinks(s: Session, t: StreamId)
    ensures t in s.streams <==> t in s.objs
    ensures t in s.objs ==> s.objs[t].lsep in s.seps && s.seps[s.objs[t].lsep].stream == Some(t)
  {
    assert Unfold(1);
  }

  /** `avdtp_delay_report`; the answer is whether a request was accepted. */
  ghost function DelayReportOf(s: Session, t: StreamId, ok: Socket): (a: (Session, bool))
    ensures Steady(s, a.0)
  {
    if t !in s.objs then (s, false)
    else
      StreamLinks(s, t);
      var sep := s.seps[s.objs[t].lsep];
      if !sep.state.Configured? && !sep.state.Streaming? then (s, false)
      else if !s.objs[t].delayReporting || !s.v13 then (s, false)
      else SendRequest(s, true, Some(t), DelayReport, s.objs[t].rseid, ok)
  }

  /** The marks of a stream whose end point enters a state. */
  ghost function Flags(o: Stream, state: SepState): (o1: Stream)
    ensures o1.lsep == o.lsep
  {
    match state
    case Idle => o.(startTimer := false)
    case Configured => o
    case Opened => o.(starting := false)
    case Streaming => o.(startTimer := false, openAcp := false)
    case Closing => o.(startTimer := false)
    case Aborting => o.(startTimer := false)
  }

  /** State and marks, before the messages that follow. */
  ghost function Moved(s: Session, e: SepId, state: SepState): (result: Session)
    requires e in s.seps && s.seps[e].stream.Some?
    ensures Steady(s, result) && result.r == s.r
  {
    SepLinks(s, e);
    var t := s.seps[e].stream.value;
    WithStream(WithState(s, e, state), t, Flags(s.objs[t], state))
  }

  lemma MovedIs(s: Session, e: SepId, state: SepState)
    requires e in s.seps && s.seps[e].stream.Some?
    ensures var t := s.seps[e].stream.value;
            && t in s.objs
            && Moved(s, e, state) == s.(seps := s.seps[e := s.seps[e].(state := state)],
                                        objs := s.objs[t := Flags(s.objs[t], state)])
  {
    SepLinks(s, e);
  }

  /** `avdtp_sep_set_state` to any state but IDLE. */
  ghost function Enter(s: Session, e: SepId, state: SepState, ok: Socket): (result: Session)
    requires e in s.seps && !state.Idle?
    ensures Steady(s, result)
  {
    if s.seps[e].stream.None? then s
    else if state.Configured? && s.seps[e].sink then DelayReportOf(Moved(s, e, state), s.seps[e].stream.value, ok).0
    else Moved(s, e, state)
  }

  /** What a change of state leaves alone. */
  lemma EnterKeeps(s: Session, e: SepId, state: SepState, ok: Socket)
    requires e in s.seps && !state.Idle?
    ensures var s1 := Enter(s, e, state, ok);
            && s1.objs.Keys == s.objs.Keys && s1.seps.Keys == s.seps.Keys
            && s1.seps[e].stream == s.seps[e].stream
  {
    hide Steady, Linked, NoStale;
    if s.seps[e].stream.Some? {
      SepLinks(s, e);
      DelayReportKeeps(Moved(s, e, state), s.seps[e].stream.value, ok);
      assert Moved(s, e, state).objs.Keys == s.objs.Keys;
    }
  }

  lemma EnterReq(s: Session, e: SepId, state: SepState, ok: Socket)
    requires e in s.seps && !state.Idle?
    ensures s.r.req.Some? ==> Enter(s, e, state, ok).r.req == s.r.req
  {
    if s.seps[e].stream.Some? {
      DelayReportKeeps(Moved(s, e, state), s.seps[e].stream.value, ok);
    }
  }

  lemma DelayReportKeeps(s: Session, t: StreamId, ok: Socket)
    ensures var s1 := DelayReportOf(s, t, ok).0; s1 == s.(r := s1.r) && (s.r.req.Some? ==> s1.r.req == s.r.req)
  {
    if t in s.objs { SendNewReq(s.r, true, Some(t), DelayReport, s.objs[t].rseid, ok); }
  }

  ghost function SetState(s: Session, e: SepId, state: SepState, ok: Socket): (result: Session)
    requires e in s.seps
    ensures Mild(s, result)
  {
    if !state.Idle? then Enter(s, e, state, ok)
    else if s.seps[e].stream.None? then s
    else Idled(s, e)
  }

  /** `finalize_discovery`: the callback is forgotten, then fired. Before the
      last answer of the peer this happens only when discovery has failed. */
  ghost function Finalize(s: Session, failed: bool): (result: Session)
    requires failed || s.discover.None? || s.discover.value.idle || s.spoiled
    ensures Still(s, result) && Kept(s, result) && result.discover.None?
    ensures s.discover.None? ==> result == s
    ensures !failed ==> result.spoiled == s.spoiled
  {
    assert Unfold(1);
    if s.discover.None? then s
    else
      var s1 := s.(discover := None, spoiled := s.spoiled || failed, fired := Told(s.discover, s.fired));
      assert Linked(s1) && NoStale(s1) && DiscoveryValid(s1);
      s1
  }

  /** `release_stream` for every stream of a list. */
  ghost function ReleaseAll(s: Session, list: seq<StreamId>): (result: Session)
    ensures Mild(s, result)
    decreases |list|
  {
    if list == [] then s
    else if list[0] !in s.objs then ReleaseAll(s, list[1..])
    else
      StreamLinks(s, list[0]);
      ReleaseAll(Idled(s, s.objs[list[0]].lsep), list[1..])
  }

  /** `connection_lost`. */
  ghost function ConnectionLost(s: Session): (result: Session)
    ensures Steady(s, result) && result.losses > s.losses
  {
    assert Unfold(1);
    var s1 := Finalize(ReleaseAll(s, s.streams), true);
    var s2 := s1.(losses := s1.losses + 1);
    assert Linked(s2) && NoStale(s2) && DiscoveryValid(s2);
    s2
  }

  /** `find_stream_by_rseid`. */
  ghost function FindByRseid(list: seq<StreamId>, objs: map<StreamId, Stream>, rseid: nat): (f: Option<StreamId>)
    requires forall t :: t in list ==> t in objs
    ensures f.Some? ==> f.value in list && objs[f.value].rseid == rseid
    ensures f.Some? ==> exists k :: 0 <= k < |list| && list[k] == f.value && forall j :: 0 <= j < k ==> objs[list[j]].rseid != rseid
    ensures f.None? ==> forall t :: t in list ==> objs[t].rseid != rseid
  {
    if list == [] then None
    else if objs[list[0]].rseid == rseid then Some(list[0])
    else FindByRseid(list[1..], objs, rseid)
  }

  ghost function StreamOf(s: Session, rseid: nat): (f: Option<StreamId>)
    ensures f.Some? ==> f.value in s.objs
  {
    assert Unfold(1);
    FindByRseid(s.streams, s.objs, rseid)
  }

  /** The request in service is freed; a discovery request is lost with it. */
  ghost function GiveUp(s: Session): (result: Session)
    requires s.r.req.Some?
    ensures Still(s, result) && Kept(s, result) && (!IsDiscovery(s.r.req.value) ==> Mild(s, result))
  {
    assert Unfold(1);
    OutOfKind(s.r, true); OutOfKind(s.r, false);
    var s1 := s.(r := Finish(s.r), spoiled := s.spoiled || IsDiscovery(s.r.req.value));
    assert Linked(s1) && NoStale(s1) && DiscoveryValid(s1);
    s1
  }

  /** The stream a cancelled request is about, with its marks. */
  ghost function Cancelled(o: Stream, sep: LocalSep, signal: Signal): Stream {
    o.(abortInt := true,
       starting := if signal.Start? && sep.cfm then false else o.starting,
       closeInt := if signal.Close? && sep.cfm then false else o.closeInt)
  }

  /** `cancel_request`, once the stream of the request is known. */
  ghost function CancelOnStream(s: Session, t: StreamId, signal: Signal, seid: nat, ok: Socket): (a: (Session, bool))
    requires t in s.objs
    ensures Steady(s, a.0)
  {
    StreamLinks(s, t);
    var s1 := WithStream(s, t, Cancelled(s.objs[t], s.seps[s.objs[t].lsep], signal));
    if signal.SetConfiguration? || signal.GetCapabilities? || signal.Abort? then (ConnectionLost(s1), false)
    else
      var (s2, good) := SendRequest(s1, true, Some(t), Abort, seid, ok);
      if good then (s2, true) else (ConnectionLost(s2), false)
  }

  /** `cancel_request`: gives the request up and aborts its stream, or gives
      the connection up. */
  ghost function CancelRequest(s: Session, ok: Socket): (a: (Session, bool))
    requires s.r.req.Some?
    ensures Still(s, a.0) && Kept(s, a.0) && (!IsDiscovery(s.r.req.value) ==> Steady(s, a.0))
  {
    var q := s.r.req.value;
    var s1 := GiveUp(s);
    var seid := if q.signal.Discover? then 0 else q.seid;
    var stream := if seid != 0 then StreamOf(s1, seid) else None;
    if stream.None? then (ConnectionLost(s1), false)
    else CancelOnStream(s1, stream.value, q.signal, seid, ok)
  }

  // ------------------------------------------------- calls of the application

  ghost function AbortStream(s: Session, t: StreamId, ok: Socket): (a: (Session, bool))
    ensures Steady(s, a.0)
  {
    if t !in s.objs then (s, false)
    else
      StreamLinks(s, t);
      if s.seps[s.objs[t].lsep].state.Aborting? then (s, false)
      else if s.r.req.Some? && s.r.req.value.armed && s.r.req.value.stream == Some(t) then
        StreamsAside(s.r); CancelRequest(s, ok)
      else
        var (s1, good) := SendRequest(s, true, Some(t), Abort, s.objs[t].rseid, ok);
        (if good then WithStream(s1, t, s1.objs[t].(abortInt := true)) else s1, good)
  }

  ghost function OpenStream(s: Session, t: StreamId, ok: Socket): (a: (Session, bool))
    ensures Steady(s, a.0)
  {
    if t !in s.objs then (s, false)
    else
      StreamLinks(s, t);
      var state := s.seps[s.objs[t].lsep].state;
      if !state.Idle? && !state.Configured? then (s, false)
      else SendRequest(s, false, Some(t), Signal.Open, s.objs[t].rseid, ok)
  }

  ghost function StartStream(s: Session, t: StreamId, ok: Socket): (a: (Session, bool))
    ensures Steady(s, a.0)
  {
    if t !in s.objs then (s, false)
    else
      StreamLinks(s, t);
      var o := s.objs[t];
      if !s.seps[o.lsep].state.Opened? then (s, false)
      else if o.openAcp then (if o.startTimer then s else WithStream(s, t, o.(startTimer := true)), true)
      else if o.closeInt || o.starting then (s, false)
      else SendStart(s, t, ok)
  }

  ghost function SendStart(s: Session, t: StreamId, ok: Socket): (a: (Session, bool))
    requires t in s.objs
    ensures Steady(s, a.0)
  {
    var (s1, good) := SendRequest(s, false, Some(t), Start, s.objs[t].rseid, ok);
    (if good then WithStream(s1, t, s1.objs[t].(starting := true)) else s1, good)
  }

  ghost function CloseStream(s: Session, t: StreamId, immediate: bool, ok: Socket): (a: (Session, bool))
    ensures Steady(s, a.0)
  {
    if t !in s.objs then (s, false)
    else
      StreamLinks(s, t);
      var o := s.objs[t];
      var state := s.seps[o.lsep].state;
      if o.closeInt then (s, false)
      else if state.Idle? || state.Configured? then AbortStream(s, t, ok)
      else if immediate && s.r.req.Some? && s.r.req.value.stream == Some(t) then AbortStream(s, t, ok)
      else
        var (s1, good) := SendRequest(s, false, Some(t), Close, o.rseid, ok);
        (if good then WithStream(s1, t, s1.objs[t].(closeInt := true)) else s1, good)
  }

  ghost function SuspendStream(s: Session, t: StreamId, ok: Socket): (a: (Session, bool))
    ensures Steady(s, a.0)
  {
    if t !in s.objs then (s, false)
    else
      StreamLinks(s, t);
      var o := s.objs[t];
      var state := s.seps[o.lsep].state;
      if state.Idle? || state.Configured? || state.Opened? || o.closeInt then (s, false)
      else SendRequest(s, false, Some(t), Suspend, o.rseid, ok)
  }

  /** A discovery request waits for its answer. */
  ghost predicate AnswersDue(r: RequestState) { Unanswered(r, true) != {} || Unanswered(r, false) != {} }

  /** `avdtp_discover`. */
  ghost function StartDiscovery(s: Session, ok: Socket): (a: (Session, bool))
    ensures Still(s, a.0) && (s.discover.Some? ==> a == (s, false))
    ensures s.discover.None? ==> a.0.discover.Some? && a.0.discover.value.id == s.asked && a.0.asked == s.asked + 1
                                 && a.0.fired == s.fired && a.0.discover.value.wanted == a.1 && a.0.losses == s.losses
                                 && (a.1 && (!s.spoiled || !AnswersDue(s.r)) ==> !a.0.spoiled)
  {
    assert Unfold(1);
    if s.discover.Some? then (s, false)
    else if s.remote != {} then
      var s1 := s.(discover := Some(Discovery(s.asked, true, true)), asked := s.asked + 1,
                   spoiled := s.spoiled && AnswersDue(s.r));
      assert Linked(s1) && NoStale(s1) && DiscoveryValid(s1);
      (s1, true)
    else
      assert NoCaps(s.r.prio);
      StartParts(s, ok);
      Begun(s, ok)
  }

  /** The DISCOVER request is made. */
  ghost function Begun(s: SessionState, ok: Socket): (SessionState, bool)
    requires NoCaps(s.r.prio)
  {
    var (r1, good) := SendNew(s.r, false, None, Signal.Discover, 0, ok);
    (s.(discover := Some(Discovery(s.asked, false, good)), asked := s.asked + 1, r := r1,
        spoiled := !good || (s.spoiled && AnswersDue(s.r))), good)
  }

  lemma StartDiscoveryIs(s: Session, ok: Socket)
    requires s.discover.None? && s.remote == {}
    ensures NoCaps(s.r.prio) && StartDiscovery(s, ok) == Begun(s, ok)
  {
    assert Unfold(1);
  }

  lemma StartParts(s: Session, ok: Socket)
    requires s.discover.None? && s.remote == {} && NoCaps(s.r.prio)
    ensures var s1 := Begun(s, ok).0;
            Linked(s1) && NoStale(s1) && DiscoveryValid(s1) && TimerRuns(s1) && |s1.r.tries| >= |s.r.tries|
  {
    assert Unfold(1);
    SendNewTargets(s.r, false, None, Signal.Discover, 0, ok, s.objs.Keys);
    SendNewCaps(s.r, false, None, Signal.Discover, 0, ok, s.remote);
    SendNewReq(s.r, false, None, Signal.Discover, 0, ok);
    SendNewOpen(s.r, false, None, Signal.Discover, 0, ok, true);
    SendNewOpen(s.r, false, None, Signal.Discover, 0, ok, false);
  }

  /** `avdtp_set_configuration` on a free end point. */
  ghost function Configure(s: Session, e: SepId, rseid: nat, delay: bool, ok: Socket): (a: (Session, bool))
    requires e in s.seps && !s.seps[e].inuse
    ensures Steady(s, a.0)
  {
    var (s1, good) := SendRequest(Attach(s, e, rseid, delay), false, Some(s.made), SetConfiguration, rseid, ok);
    if good then (s1, true) else (Refused(s, s1.r), false)
  }

  ghost function AttachState(s: SessionState, e: SepId, rseid: nat, delay: bool): SessionState
    requires e in s.seps
  {
    s.(seps := s.seps[e := s.seps[e].(inuse := true, stream := Some(s.made))],
       streams := s.streams + [s.made],
       objs := s.objs[s.made := Stream(e, rseid, false, false, NoTimer, false, false, false, false, delay, false)],
       made := s.made + 1)
  }

  /** `avdtp_set_configuration` itself makes the request first, then the stream. */
  lemma ConfigureIs(s: Session, e: SepId, rseid: nat, delay: bool, ok: Socket)
    requires e in s.seps && !s.seps[e].inuse
    ensures var (r1, good) := SendNew(s.r, false, Some(s.made), SetConfiguration, rseid, ok);
            && Configure(s, e, rseid, delay, ok).1 == good
            && Configure(s, e, rseid, delay, ok).0
               == if good then AttachState(s, e, rseid, delay).(r := r1) else s.(r := r1)
  {
  }

  /** The stream of a request that could not be sent is freed again. */
  ghost function Refused(s: Session, r: Requests): (result: Session)
    requires r == s.r.(transaction := r.transaction, made := r.made, finished := r.finished, tries := r.tries,
                       sends := r.sends)
    requires |r.tries| >= |s.r.tries| && Paced(s.r, r)
    ensures Steady(s, result)
  {
    assert Unfold(1);
    WithRequests(s, r)
  }

  /** `avdtp_stream_set_transport`; `settable` tells whether the priority of
      the socket could be set. */
  ghost function Connect(s: Session, t: StreamId, settable: bool, ok: Socket): (a: (Session, bool))
    ensures Steady(s, a.0)
  {
    if s.pendingOpen != Some(t) || !settable then (s, false)
    else
      assert Unfold(1);
      (Joined(WithPending(s, None), t, ok), true)
  }

  ghost function Joined(s: Session, t: StreamId, ok: Socket): (result: Session)
    requires t in s.objs
    ensures Steady(s, result)
  {
    StreamLinks(s, t);
    var s1 := WithStream(s, t, s.objs[t].(timer := NoTimer, io := true));
    EnterKeeps(s1, s1.objs[t].lsep, Opened, ok);
    var s2 := Enter(s1, s1.objs[t].lsep, Opened, ok);
    WithStream(s2, t, s2.objs[t].(watch := true))
  }

  /** `avdtp_register_sep`; `free` is the SEID chosen, if there is one. */
  ghost function RegisterSep(s: Session, free: Option<SepId>, sink: bool, cfm: bool, ind: bool): (result: Session)
    requires free.Some? ==> free.value !in s.seps
    ensures Steady(s, result)
  {
    if free.None? then s
    else
      var sep := LocalSep(Idle, None, false, sink, cfm, ind);
      assert Unfold(1);
      AddOwned(s.seps, s.streams, s.objs, s.made, free.value, sep);
      WithSeps(s, s.seps[free.value := sep])
  }

  /** `avdtp_unregister_sep`. */
  ghost function UnregisterSep(s: Session, e: SepId): (result: Session)
    requires e in s.seps
    ensures Mild(s, result)
  {
    var s1 := if s.seps[e].stream.Some? then Idled(s, e) else s;
    assert Unfold(1);
    RemoveOwned(s1.seps, s1.streams, s1.objs, s1.made, e);
    WithSeps(s1, s1.seps - {e})
  }

  ghost function WithSeps(s: Session, seps: map<SepId, LocalSep>): (result: Session)
    requires Owned(seps, s.streams, s.objs, s.made)
    ensures Steady(s, result)
  {
    assert Unfold(1);
    var s1 := s.(seps := seps);
    assert Linked(s1) && NoStale(s1) && DiscoveryValid(s1);
    s1
  }

  lemma AddOwned(seps: map<SepId, LocalSep>, streams: seq<StreamId>, objs: map<StreamId, Stream>, made: nat,
                 e: SepId, sep: LocalSep)
    requires Owned(seps, streams, objs, made) && e !in seps && sep.state.Idle? && !sep.inuse && sep.stream.None?
    ensures Owned(seps[e := sep], streams, objs, made)
  {
    var seps1 := seps[e := sep];
    forall f | f in seps1 ensures SepOwned(f, seps1[f], objs) {
      assert f != e ==> SepOwned(f, seps[f], objs);
    }
  }

  lemma RemoveOwned(seps: map<SepId, LocalSep>, streams: seq<StreamId>, objs: map<StreamId, Stream>, made: nat, e: SepId)
    requires Owned(seps, streams, objs, made) && e in seps && seps[e].stream.None?
    ensures Owned(seps - {e}, streams, objs, made)
  {
    forall f | f in seps - {e} ensures SepOwned(f, (seps - {e})[f], objs) {
      assert SepOwned(f, seps[f], objs);
    }
  }

  // ----------------------------------------------------- commands of the peer

  /** `avdtp_check_collision`. */
  ghost function Collide(s: Session, command: Signal, rseid: nat): (result: Session)
    ensures Steady(s, result)
  {
    if s.r.req.None? || (s.r.req.value.signal != command && !command.Abort?) then s
    else
      var q := s.r.req.value;
      var hit := (q.signal.Open? || q.signal.Close? || q.signal.Start? || q.signal.Suspend?) && q.seid == rseid;
      if hit then Marked(s) else s
  }

  ghost function Marked(s: Session): (result: Session)
    requires s.r.req.Some? && !IsDiscovery(s.r.req.value)
    ensures Steady(s, result)
  {
    assert Unfold(0);
    assert Unfold(1);
    WithRequests(s, Remark(s.r, s.r.req.value.(collided := true)))
  }

  /** `avdtp_open_cmd`. `accept` is the answer of the end point's user. */
  ghost function OpenCommand(s: Session, e: SepId, accept: bool, ok: Socket): (a: (Session, bool))
    ensures Steady(s, a.0)
  {
    if e !in s.seps || !s.seps[e].state.Configured? || (s.seps[e].ind && !accept) then SendReply(s, false, ok)
    else
      SepLinks(s, e);
      var t := s.seps[e].stream.value;
      Opens(Collide(s, Signal.Open, s.objs[t].rseid), t, ok)
  }

  ghost function Opens(s: Session, t: StreamId, ok: Socket): (a: (Session, bool))
    requires t in s.objs
    ensures Steady(s, a.0)
  {
    var (s1, good) := SendReply(s, true, ok);
    if !good then (s1, false) else (Awaits(s1, t), true)
  }

  /** The transport of the stream is to be connected by the peer. */
  ghost function Awaits(s: Session, t: StreamId): (result: Session)
    requires t in s.objs
    ensures Steady(s, result)
  {
    WithPending(WithStream(s, t, s.objs[t].(openAcp := true, timer := OpenTimer)), Some(t))
  }

  /** A command for one end point is carried out. */
  ghost function Obeys(s: Session, e: SepId, command: Signal, rseid: nat, state: SepState, ok: Socket): (result: Session)
    requires e in s.seps && !state.Idle?
    ensures Steady(s, result)
  {
    Enter(Collide(s, command, rseid), e, state, ok)
  }

  /** One round of the loop of `avdtp_start_cmd`; the answer is whether the end
      point was started. */
  ghost function StartOne(s: Session, e: SepId, accept: bool, ok: Socket): (a: (Session, bool))
    ensures Steady(s, a.0)
  {
    if e !in s.seps || s.seps[e].stream.None? || !s.seps[e].state.Opened? then (s, false)
    else
      SepLinks(s, e);
      var t := s.seps[e].stream.value;
      var s1 := WithStream(s, t, s.objs[t].(starting := true));
      if s.seps[e].ind && !accept then (s1, false)
      else (Obeys(s1, e, Start, s.objs[t].rseid, Streaming, ok), true)
  }

  /** The whole loop, which ends at the first end point that is not started. */
  ghost function StartEach(s: Session, targets: seq<(SepId, bool)>, ok: Socket): (a: (Session, bool))
    ensures Steady(s, a.0)
    decreases |targets|
  {
    if targets == [] then (s, true)
    else
      var (s1, good) := StartOne(s, targets[0].0, targets[0].1, ok);
      if good then StartEach(s1, targets[1..], ok) else (s1, false)
  }

  /** The same for `avdtp_suspend_cmd`. */
  ghost function SuspendOne(s: Session, e: SepId, accept: bool, ok: Socket): (a: (Session, bool))
    ensures Steady(s, a.0)
  {
    if e !in s.seps || s.seps[e].stream.None? || !s.seps[e].state.Streaming? then (s, false)
    else if s.seps[e].ind && !accept then (s, false)
    else
      SepLinks(s, e);
      (Obeys(s, e, Suspend, s.objs[s.seps[e].stream.value].rseid, Opened, ok), true)
  }

  ghost function SuspendEach(s: Session, targets: seq<(SepId, bool)>, ok: Socket): (a: (Session, bool))
    ensures Steady(s, a.0)
    decreases |targets|
  {
    if targets == [] then (s, true)
    else
      var (s1, good) := SuspendOne(s, targets[0].0, targets[0].1, ok);
      if good then SuspendEach(s1, targets[1..], ok) else (s1, false)
  }

  /** `avdtp_close_cmd`. */
  ghost function CloseCommand(s: Session, e: SepId, accept: bool, ok: Socket): (a: (Session, bool))
    ensures Steady(s, a.0)
  {
    if e !in s.seps || s.seps[e].stream.None? || (!s.seps[e].state.Opened? && !s.seps[e].state.Streaming?)
       || (s.seps[e].ind && !accept)
    then SendReply(s, false, ok)
    else
      SepLinks(s, e);
      var t := s.seps[e].stream.value;
      Closes(Collide(s, Close, s.objs[t].rseid), e, t, ok)
  }

  ghost function Closes(s: Session, e: SepId, t: StreamId, ok: Socket): (a: (Session, bool))
    requires e in s.seps && t in s.objs
    ensures Steady(s, a.0)
  {
    EnterKeeps(s, e, Closing, ok);
    var (s1, good) := SendReply(Enter(s, e, Closing, ok), true, ok);
    if !good then (s1, false) else (WithStream(s1, t, s1.objs[t].(timer := CloseTimer)), true)
  }

  /** `avdtp_abort_cmd`. */
  ghost function AbortCommand(s: Session, e: SepId, ok: Socket): (a: (Session, bool))
    ensures Steady(s, a.0)
  {
    if e !in s.seps || s.seps[e].stream.None? then (s, true)
    else
      SepLinks(s, e);
      var (s1, good) := SendReply(Collide(s, Abort, s.objs[s.seps[e].stream.value].rseid), true, ok);
      if good then (Enter(s1, e, Aborting, ok), true) else (s1, false)
  }

  /** What the end point's user does with a configuration: refuses it, or
      calls back at once with an error or without. */
  datatype Verdict = Refuse | AnswerError | AnswerAccept

  ghost function Raised(s: Session, delay: bool): (result: Session)
    ensures Steady(s, result)
  {
    assert Unfold(1);
    var s1 := s.(v13 := s.v13 || delay);
    assert Linked(s1) && NoStale(s1) && DiscoveryValid(s1);
    s1
  }

  /** `avdtp_setconf_cmd`. */
  ghost function ConfigureCommand(s: Session, e: SepId, rseid: nat, badTransport: bool, delay: bool, verdict: Verdict,
                                  ok: Socket): (a: (Session, bool))
    ensures Steady(s, a.0)
  {
    if e !in s.seps || s.seps[e].stream.Some? || badTransport then SendReply(s, false, ok)
    else
      Configures(Raised(s, delay), e, rseid, delay, verdict, ok)
  }

  /** The rest of it, when the end point is free. */
  ghost function Configures(s: Session, e: SepId, rseid: nat, delay: bool, verdict: Verdict, ok: Socket): (a: (Session, bool))
    requires e in s.seps && s.seps[e].stream.None?
    ensures Steady(s, a.0)
  {
    var (s1, good) := SendReply(s, !(s.seps[e].ind && (verdict.Refuse? || verdict.AnswerError?)), ok);
    if s.seps[e].ind && verdict.Refuse? then (s1, good)
    else if s.seps[e].ind && verdict.AnswerError? then (s1, true)
    else if !good then (s1, s.seps[e].ind)
    else (NewlyConfigured(s1, e, rseid, delay, ok), true)
  }

  /** The stream of an accepted configuration. */
  ghost function NewlyConfigured(s: Session, e: SepId, rseid: nat, delay: bool, ok: Socket): (result: Session)
    requires e in s.seps && s.seps[e].stream.None?
    ensures Steady(s, result)
  {
    SepLinks(s, e);
    Enter(Attach(s, e, rseid, delay), e, Configured, ok)
  }
}
