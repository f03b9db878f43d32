/** The signalling procedures seen from both ends (chapter 6 of AVDTP 1.3): one
    session asks, the other one answers, and their end points agree. */
module AvdtpProcedures {
  import opened Common
  import opened AvdtpRequests
  import opened AvdtpSession
  import opened AvdtpEvents

  /** Nothing is under way: a request is sent at once. */
  ghost predicate Quiet(s: SessionState) {
    !s.answering && s.watching && s.r.req.None? && s.r.prio == [] && s.r.queue == []
  }

  /** The stream exists, and its end point is in the state. */
  ghost predicate InState(s: SessionState, t: StreamId, state: SepState) {
    t in s.objs && s.objs[t].lsep in s.seps && s.seps[s.objs[t].lsep].state == state
  }

  /** The end point has the state, and a stream unless that is IDLE. */
  ghost predicate SepIn(s: SessionState, e: SepId, state: SepState) {
    e in s.seps && s.seps[e].state == state
  }

  /** The one request in service, waiting for its reply. */
  ghost predicate Waits(s: SessionState, t: StreamId, signal: Signal, seid: nat, transaction: nat) {
    && !s.answering && s.watching && s.r.prio == [] && s.r.queue == []
    && s.r.req.Some? && s.r.req.value.armed && !s.r.req.value.collided
    && s.r.req.value.stream == Some(t) && s.r.req.value.signal == signal && s.r.req.value.seid == seid
    && s.r.req.value.transaction == transaction
  }

  ghost predicate AlwaysTaken(ok: Socket) { forall n :: ok(n) }

  lemma Sent(s: Session, priority: bool, t: StreamId, signal: Signal, seid: nat, ok: Socket)
    requires Quiet(s) && t in s.objs && (s.objs[t].abortInt ==> signal.Abort?) && AlwaysTaken(ok)
    requires !signal.GetCapabilities? && !signal.GetAllCapabilities? && !signal.Discover?
    ensures var (s1, good) := SendRequest(s, priority, Some(t), signal, seid, ok);
            good && s1 == s.(r := s1.r) && Waits(s1, t, signal, seid, s.r.transaction)
  {
    SendRequestIs(s, priority, Some(t), signal, seid, ok);
  }

  /** The reply timer stopped. */
  lemma Stopped(s: Session)
    requires s.r.req.Some? && !IsDiscovery(s.r.req.value)
    ensures var s1 := Disarm(s, false);
            && s1 == s.(r := s1.r, answering := true)
            && s1.r.req == Some(s.r.req.value.(armed := false)) && s1.r.prio == s.r.prio && s1.r.queue == s.r.queue
  {
  }

  /** The end of an exchange. */
  lemma Ended(s: Session, ok: Socket)
    requires s.r.req.Some?
    ensures var s1 := Proceed(s, ok);
            && SameStreams(s, s1) && !s1.answering
            && (s.r.prio == [] && s.r.queue == [] ==> s1.r.req.None? && s1.r.prio == [] && s1.r.queue == [])
  {
    ProceedIs(s, ok);
  }

  /** The request in service is accepted, if there is one. */
  ghost function Answer(s: Session, infos: seq<SeidInfo>, ok: Socket): (s1: Session)
    requires !s.answering
    ensures !s1.answering
  {
    if s.r.req.None? then s
    else Step(s, ReplyRead(s.r.req.value.transaction, s.r.req.value.signal, Accept, true, infos), ok)
  }

  /** An accepted reply to a request about a stream, in three steps. */
  lemma Replied(s: Session, t: StreamId, signal: Signal, seid: nat, transaction: nat, ok: Socket)
    requires Waits(s, t, signal, seid, transaction) && t in s.objs
    requires !signal.GetCapabilities? && !signal.GetAllCapabilities? && !signal.Discover?
    ensures Step(s, ReplyRead(transaction, signal, Accept, true, []), ok)
            == Proceed(StreamAnswered(Disarm(s, false), ok), ok)
  {
    AtReply(s);
  }

  /** A change of state; only the end point and its stream change, and perhaps
      a delay report joins the requests. */
  lemma Entered(s: Session, e: SepId, state: SepState, ok: Socket)
    requires e in s.seps && s.seps[e].stream.Some? && !state.Idle?
    ensures var t, s1 := s.seps[e].stream.value, Enter(s, e, state, ok);
            && t in s.objs && s.objs[t].lsep == e
            && s1 == s.(seps := s.seps[e := s.seps[e].(state := state)],
                        objs := s.objs[t := Flags(s.objs[t], state)], r := s1.r)
            && ((state.Configured? && s.seps[e].sink && s.objs[t].delayReporting && s.v13) || s1.r == s.r)
  {
    SepLinks(s, e);
    MovedIs(s, e, state);
    DelayReportKeeps(Moved(s, e, state), s.seps[e].stream.value, ok);
  }

  lemma NoCollision(s: Session, command: Signal, rseid: nat)
    requires s.r.req.None?
    ensures Collide(s, command, rseid) == s
  {
  }

  lemma AnsweredIs(s: Session, accept: bool, ok: Socket)
    requires AlwaysTaken(ok)
    ensures var (s1, good) := SendReply(s, accept, ok);
            good && s1 == s.(r := s1.r, answers := s.answers + [accept]) && s1.r.req == s.r.req && s1.r.prio == s.r.prio && s1.r.queue == s.r.queue
  {
  }

  /** The state an accepted request puts the initiator's end point in. */
  predicate LeadsTo(signal: Signal, state: SepState) {
    || (signal.SetConfiguration? && state.Configured?)
    || (signal.Start? && state.Streaming?)
    || (signal.Suspend? && state.Opened?)
  }

  /** The initiator, when its request is accepted. */
  lemma Accepted(s: Session, t: StreamId, signal: Signal, state: SepState, seid: nat, transaction: nat, ok: Socket)
    requires Waits(s, t, signal, seid, transaction) && t in s.objs && LeadsTo(signal, state)
    requires signal.Start? ==> InState(s, t, Opened)
    ensures var s1 := Step(s, ReplyRead(transaction, signal, Accept, true, []), ok);
            && InState(s1, t, state) && s1.objs[t].lsep == s.objs[t].lsep && s1.objs[t].rseid == s.objs[t].rseid
            && ((signal.SetConfiguration? && s.objs[t].delayReporting) || Quiet(s1))
  {
    hide Proceed, Disarm, Enter, Step;
    Replied(s, t, signal, seid, transaction, ok);
    Stopped(s);
    var d := Disarm(s, false);
    StreamLinks(d, t);
    Entered(d, d.objs[t].lsep, state, ok);
    Ended(StreamAnswered(d, ok), ok);
  }

  /** What a procedure changes at one end: the state of the end point, and the
      object of its stream. */
  ghost predicate Changed(s: SessionState, s1: SessionState, e: SepId, state: SepState, t: StreamId, o: Stream) {
    && e in s.seps && t in s.objs
    && s1.seps == s.seps[e := s.seps[e].(state := state)] && s1.objs == s.objs[t := o]
    && s1.watching == s.watching
  }

  /** One command of the initiator, carried out by a session that is quiet. */
  lemma Obeyed(a: Session, c: Command, a1: Session, ok: Socket)
    requires Quiet(a) && Execute(a, c, ok) == (a1, true) && (a1.r.req.Some? ==> !a1.r.req.value.collided)
    ensures Step(a, CommandRead(c), ok) == a1
  {
  }

  // ------------------------------------------------------- START and SUSPEND

  /** START: both ends are OPEN before and STREAMING after. */
  lemma StartProcedure(i: Session, t: StreamId, a: Session, e: SepId, ok: Socket)
    requires Quiet(i) && InState(i, t, Opened) && i.objs[t].rseid == e
    requires !i.objs[t].openAcp && !i.objs[t].closeInt && !i.objs[t].starting && !i.objs[t].abortInt
    requires Quiet(a) && SepIn(a, e, Opened) && AlwaysTaken(ok)
    ensures Waits(Step(i, Called(CallStart(t)), ok), t, Start, e, i.r.transaction)
    ensures var seid := Step(i, Called(CallStart(t)), ok).r.req.value.seid;
            var a1 := Step(a, CommandRead(StartThem([(seid, true)])), ok);
            Quiet(a1) && SepIn(a1, e, Streaming)
    ensures var i2 := Step(Step(i, Called(CallStart(t)), ok), ReplyRead(i.r.transaction, Start, Accept, true, []), ok);
            Quiet(i2) && InState(i2, t, Streaming)
  {
    StartAsked(i, t, e, ok);
    hide Step;
    Accepted(Step(i, Called(CallStart(t)), ok), t, Start, Streaming, e, i.r.transaction, ok);
    AcceptStart(a, e, ok);
  }

  lemma StartAsked(i: Session, t: StreamId, e: SepId, ok: Socket)
    requires Quiet(i) && InState(i, t, Opened) && i.objs[t].rseid == e && AlwaysTaken(ok)
    requires !i.objs[t].openAcp && !i.objs[t].closeInt && !i.objs[t].starting && !i.objs[t].abortInt
    ensures var i1 := Step(i, Called(CallStart(t)), ok);
            Waits(i1, t, Start, e, i.r.transaction) && InState(i1, t, Opened)
  {
    hide SendRequest;
    Sent(i, false, t, Start, e, ok);
  }

  lemma AcceptStart(a: Session, e: SepId, ok: Socket)
    requires Quiet(a) && SepIn(a, e, Opened) && AlwaysTaken(ok)
    ensures var a1 := Step(a, CommandRead(StartThem([(e, true)])), ok); Quiet(a1) && SepIn(a1, e, Streaming)
  {
    hide Step;
    SepLinks(a, e);
    StartIs(a, e, a.seps[e].stream.value, ok);
  }

  lemma StartIs(a: Session, e: SepId, t: StreamId, ok: Socket)
    requires Quiet(a) && SepIn(a, e, Opened) && a.seps[e].stream == Some(t) && AlwaysTaken(ok)
    ensures var a1 := Step(a, CommandRead(StartThem([(e, true)])), ok);
            && Quiet(a1) && t in a.objs
            && Changed(a, a1, e, Streaming, t, Flags(a.objs[t].(starting := true), Streaming))
  {
    hide SendReply, Collide, Enter, Steady, Step;
    SepLinks(a, e);
    var a1 := WithStream(a, t, a.objs[t].(starting := true));
    NoCollision(a1, Start, a.objs[t].rseid);
    Entered(a1, e, Streaming, ok);
    var a2 := Enter(a1, e, Streaming, ok);
    assert StartOne(a, e, true, ok) == (a2, true);
    assert [(e, true)][1..] == [];
    assert StartEach(a2, [], ok) == (a2, true);
    AnsweredIs(a2, true, ok);
    Obeyed(a, StartThem([(e, true)]), SendReply(a2, true, ok).0, ok);
  }

  /** SUSPEND: both ends are STREAMING before and OPEN after. */
  lemma SuspendProcedure(i: Session, t: StreamId, a: Session, e: SepId, ok: Socket)
    requires Quiet(i) && InState(i, t, Streaming) && i.objs[t].rseid == e
    requires !i.objs[t].closeInt && !i.objs[t].abortInt
    requires Quiet(a) && SepIn(a, e, Streaming) && AlwaysTaken(ok)
    ensures Waits(Step(i, Called(CallSuspend(t)), ok), t, Suspend, e, i.r.transaction)
    ensures var seid := Step(i, Called(CallSuspend(t)), ok).r.req.value.seid;
            var a1 := Step(a, CommandRead(SuspendThem([(seid, true)])), ok);
            Quiet(a1) && SepIn(a1, e, Opened)
    ensures var i2 := Step(Step(i, Called(CallSuspend(t)), ok), ReplyRead(i.r.transaction, Suspend, Accept, true, []), ok);
            Quiet(i2) && InState(i2, t, Opened)
  {
    SuspendAsked(i, t, e, ok);
    hide Step;
    Accepted(Step(i, Called(CallSuspend(t)), ok), t, Suspend, Opened, e, i.r.transaction, ok);
    AcceptSuspend(a, e, ok);
  }

  lemma SuspendAsked(i: Session, t: StreamId, e: SepId, ok: Socket)
    requires Quiet(i) && InState(i, t, Streaming) && i.objs[t].rseid == e && AlwaysTaken(ok)
    requires !i.objs[t].closeInt && !i.objs[t].abortInt
    ensures var i1 := Step(i, Called(CallSuspend(t)), ok);
            Waits(i1, t, Suspend, e, i.r.transaction) && InState(i1, t, Streaming)
  {
    hide SendRequest;
    Sent(i, false, t, Suspend, e, ok);
  }

  lemma AcceptSuspend(a: Session, e: SepId, ok: Socket)
    requires Quiet(a) && SepIn(a, e, Streaming) && AlwaysTaken(ok)
    ensures var a1 := Step(a, CommandRead(SuspendThem([(e, true)])), ok); Quiet(a1) && SepIn(a1, e, Opened)
  {
    hide Step;
    SepLinks(a, e);
    SuspendIs(a, e, a.seps[e].stream.value, ok);
  }

  lemma SuspendIs(a: Session, e: SepId, t: StreamId, ok: Socket)
    requires Quiet(a) && SepIn(a, e, Streaming) && a.seps[e].stream == Some(t) && AlwaysTaken(ok)
    ensures var a1 := Step(a, CommandRead(SuspendThem([(e, true)])), ok);
            Quiet(a1) && t in a.objs && Changed(a, a1, e, Opened, t, Flags(a.objs[t], Opened))
  {
    hide SendReply, Collide, Enter, Steady, Step;
    SepLinks(a, e);
    NoCollision(a, Suspend, a.objs[t].rseid);
    Entered(a, e, Opened, ok);
    var a1 := Enter(a, e, Opened, ok);
    assert SuspendOne(a, e, true, ok) == (a1, true);
    assert [(e, true)][1..] == [];
    assert SuspendEach(a1, [], ok) == (a1, true);
    AnsweredIs(a1, true, ok);
    Obeyed(a, SuspendThem([(e, true)]), SendReply(a1, true, ok).0, ok);
  }

  // ------------------------------------------------------- SET_CONFIGURATION

  /** SET_CONFIGURATION: two free end points are CONFIGURED after, each with a
      stream that names the other one. */
  lemma ConfigureProcedure(i: Session, f: SepId, a: Session, e: SepId, delay: bool, ok: Socket)
    requires Quiet(i) && f in i.seps && !i.seps[f].inuse && e in i.remote
    requires Quiet(a) && e in a.seps && !a.seps[e].inuse
    requires AlwaysTaken(ok)
    ensures Waits(Step(i, Called(CallConfigure(f, e, delay)), ok), i.made, SetConfiguration, e, i.r.transaction)
    ensures var seid := Step(i, Called(CallConfigure(f, e, delay)), ok).r.req.value.seid;
            Paired(Step(a, CommandRead(ConfigureIt(false, seid, f, false, delay, AnswerAccept)), ok), a.made, e, f)
    ensures var i1 := Step(i, Called(CallConfigure(f, e, delay)), ok);
            Paired(Step(i1, ReplyRead(i.r.transaction, SetConfiguration, Accept, true, []), ok), i.made, f, e)
  {
    ConfigureAsked(i, f, e, delay, ok);
    AcceptConfigure(a, e, f, delay, ok);
    hide Step;
    var i1 := Step(i, Called(CallConfigure(f, e, delay)), ok);
    Accepted(i1, i.made, SetConfiguration, Configured, e, i.r.transaction, ok);
  }

  /** A configured stream of a local end point, for a remote one. */
  ghost predicate Paired(s: SessionState, t: StreamId, mine: SepId, theirs: nat) {
    InState(s, t, Configured) && s.objs[t].lsep == mine && s.objs[t].rseid == theirs
  }

  lemma ConfigureAsked(i: Session, f: SepId, e: SepId, delay: bool, ok: Socket)
    requires Quiet(i) && f in i.seps && !i.seps[f].inuse && e in i.remote && AlwaysTaken(ok)
    ensures var i1 := Step(i, Called(CallConfigure(f, e, delay)), ok);
            && Waits(i1, i.made, SetConfiguration, e, i.r.transaction)
            && i.made in i1.objs && i1.objs[i.made].lsep == f && i1.objs[i.made].rseid == e
  {
    ConfigureIs(i, f, e, delay, ok);
  }

  lemma AcceptConfigure(a: Session, e: SepId, f: SepId, delay: bool, ok: Socket)
    requires Quiet(a) && e in a.seps && !a.seps[e].inuse && AlwaysTaken(ok)
    ensures Paired(Step(a, CommandRead(ConfigureIt(false, e, f, false, delay, AnswerAccept)), ok), a.made, e, f)
  {
    hide SendReply, Enter, Mild;
    SepLinks(a, e);
    var a1 := Raised(a, delay);
    AnsweredIs(a1, true, ok);
    var a2 := SendReply(a1, true, ok).0;
    var a3 := Attach(a2, e, f, delay);
    Entered(a3, e, Configured, ok);
    assert ConfigureCommand(a, e, f, false, delay, AnswerAccept, ok) == (Enter(a3, e, Configured, ok), true);
    EnterQuiet(a3, e, ok);
  }

  /** What a change of state may put in service is not in conflict. */
  lemma EnterQuiet(s: Session, e: SepId, ok: Socket)
    requires e in s.seps && s.r.req.None?
    ensures var r := Enter(s, e, Configured, ok).r; r.req.Some? ==> !r.req.value.collided
  {
  }

  // -------------------------------------------------------------------- OPEN

  /** OPEN, and the transport connected at both ends: both end points are
      CONFIGURED before and OPEN after. */
  lemma OpenProcedure(i: Session, t: StreamId, a: Session, e: SepId, ok: Socket)
    requires Quiet(i) && InState(i, t, Configured) && i.objs[t].rseid == e && !i.objs[t].abortInt
    requires Quiet(a) && SepIn(a, e, Configured) && AlwaysTaken(ok)
    ensures Waits(Step(i, Called(CallOpen(t)), ok), t, Signal.Open, e, i.r.transaction)
    ensures var i1 := Step(i, Called(CallOpen(t)), ok);
            var i2 := Step(i1, ReplyRead(i.r.transaction, Signal.Open, Accept, true, []), ok);
            var i3 := Step(i2, Called(CallSetTransport(t, true)), ok);
            Quiet(i3) && InState(i3, t, Opened) && i3.objs[t].io && i3.objs[t].watch
    ensures a.seps[e].stream.Some?
    ensures var u, seid := a.seps[e].stream.value, Step(i, Called(CallOpen(t)), ok).r.req.value.seid;
            var a1 := Step(a, CommandRead(OpenIt(false, seid, true)), ok);
            var a2 := Step(a1, Called(CallSetTransport(u, true)), ok);
            Quiet(a2) && SepIn(a2, e, Opened) && InState(a2, u, Opened) && a2.objs[u].io && a2.objs[u].watch
  {
    OpenAsked(i, t, e, ok);
    OpenAnswered(Step(i, Called(CallOpen(t)), ok), t, e, i.r.transaction, ok);
    AcceptOpen(a, e, ok);
    hide Step;
    var i1 := Step(i, Called(CallOpen(t)), ok);
    Connected(Step(i1, ReplyRead(i.r.transaction, Signal.Open, Accept, true, []), ok), t, ok);
    Connected(Step(a, CommandRead(OpenIt(false, e, true)), ok), a.seps[e].stream.value, ok);
  }

  lemma OpenAsked(i: Session, t: StreamId, e: SepId, ok: Socket)
    requires Quiet(i) && InState(i, t, Configured) && i.objs[t].rseid == e && !i.objs[t].abortInt && AlwaysTaken(ok)
    ensures var i1 := Step(i, Called(CallOpen(t)), ok);
            Waits(i1, t, Signal.Open, e, i.r.transaction) && InState(i1, t, Configured)
  {
    hide SendRequest;
    Sent(i, false, t, Signal.Open, e, ok);
  }

  lemma OpenAnswered(s: Session, t: StreamId, seid: nat, transaction: nat, ok: Socket)
    requires Waits(s, t, Signal.Open, seid, transaction) && t in s.objs
    ensures var s1 := Step(s, ReplyRead(transaction, Signal.Open, Accept, true, []), ok);
            Quiet(s1) && s1.pendingOpen == Some(t)
  {
    hide Proceed, Disarm, Step;
    Replied(s, t, Signal.Open, seid, transaction, ok);
    Stopped(s);
    StreamLinks(Disarm(s, false), t);
    Ended(StreamAnswered(Disarm(s, false), ok), ok);
  }

  lemma AcceptOpen(a: Session, e: SepId, ok: Socket)
    requires Quiet(a) && SepIn(a, e, Configured) && AlwaysTaken(ok)
    ensures a.seps[e].stream.Some?
    ensures var a1 := Step(a, CommandRead(OpenIt(false, e, true)), ok);
            && Quiet(a1) && a1.pendingOpen == a.seps[e].stream
            && a1.pendingOpen.value in a1.objs && a1.objs[a1.pendingOpen.value].lsep == e
  {
    hide Step;
    SepLinks(a, e);
    OpenIs(a, e, a.seps[e].stream.value, ok);
  }

  lemma OpenIs(a: Session, e: SepId, t: StreamId, ok: Socket)
    requires Quiet(a) && SepIn(a, e, Configured) && a.seps[e].stream == Some(t) && AlwaysTaken(ok)
    ensures var a1 := Step(a, CommandRead(OpenIt(false, e, true)), ok);
            && Quiet(a1) && t in a.objs && a1.pendingOpen == Some(t)
            && Changed(a, a1, e, Configured, t, a.objs[t].(openAcp := true, timer := OpenTimer))
  {
    hide SendReply, Collide, Steady, Step;
    SepLinks(a, e);
    NoCollision(a, Signal.Open, a.objs[t].rseid);
    AnsweredIs(a, true, ok);
    var a1 := Awaits(SendReply(a, true, ok).0, t);
    assert OpenCommand(a, e, true, ok) == (a1, true);
    Obeyed(a, OpenIt(false, e, true), a1, ok);
    assert a.seps[e := a.seps[e].(state := Configured)] == a.seps;
  }

  /** The transport of the stream about to be opened is connected. */
  lemma Connected(s: Session, t: StreamId, ok: Socket)
    requires Quiet(s) && s.pendingOpen == Some(t)
    ensures var s1 := Step(s, Called(CallSetTransport(t, true)), ok);
            && Quiet(s1) && InState(s1, t, Opened) && s1.objs[t].io && s1.objs[t].watch
            && t in s.objs && s1.objs[t].lsep == s.objs[t].lsep
  {
    hide Enter, Steady;
    assert t in s.objs by { assert Unfold(1); }
    StreamLinks(s, t);
    var s2 := WithStream(WithPending(s, None), t, s.objs[t].(timer := NoTimer, io := true));
    EnterKeeps(s2, s2.objs[t].lsep, Opened, ok);
    Entered(s2, s2.objs[t].lsep, Opened, ok);
  }

  lemma JoinedIs(s: Session, t: StreamId, e: SepId, ok: Socket)
    requires t in s.objs && s.objs[t].lsep == e && e in s.seps && s.seps[e].stream == Some(t)
    ensures var o := Flags(s.objs[t].(timer := NoTimer, io := true), Opened).(watch := true);
            var s1 := Joined(s, t, ok);
            s1 == s.(seps := s.seps[e := s.seps[e].(state := Opened)], objs := s.objs[t := o], r := s.r)
  {
    hide Enter, Steady;
    var s1 := WithStream(s, t, s.objs[t].(timer := NoTimer, io := true));
    EnterKeeps(s1, e, Opened, ok);
    Entered(s1, e, Opened, ok);
  }

  // --------------------------------------------------------- CLOSE and ABORT

  /** The stream is gone, and its end point is idle and free again. */
  ghost predicate Released(s: SessionState, t: StreamId, e: SepId) {
    && t !in s.objs && t !in s.streams && s.pendingOpen != Some(t)
    && e in s.seps && s.seps[e].state.Idle? && !s.seps[e].inuse && s.seps[e].stream.None?
  }

  lemma IdledReleases(s: Session, e: SepId)
    requires e in s.seps && s.seps[e].stream.Some?
    ensures Released(Idled(s, e), s.seps[e].stream.value, e)
    ensures SameRest(s, Idled(s, e))
  {
    IdledIs(s, e);
    assert Unfold(1);
    RemoveFirstNoDup(s.streams, s.seps[e].stream.value);
  }

  ghost predicate SameRest(s: SessionState, s1: SessionState) {
    s1.answering == s.answering && s1.watching == s.watching
  }

  /** The transport of a stream is gone: unless the stream is being aborted by
      this side, it is released. */
  lemma HungUp(s: Session, t: StreamId, invalid: bool, ok: Socket)
    requires !s.answering && t in s.objs && s.objs[t].watch && !s.objs[t].abortInt
    ensures Released(Step(s, TransportHangup(t, invalid), ok), t, s.objs[t].lsep)
  {
    hide Idled;
    StreamLinks(s, t);
    IdledReleases(WithStream(s, t, s.objs[t].(io := s.objs[t].io && invalid, watch := false)), s.objs[t].lsep);
  }

  /** CLOSE: both ends are CLOSING, and released when the transport is gone. */
  lemma CloseProcedure(i: Session, t: StreamId, a: Session, e: SepId, gone: bool, ok: Socket)
    requires Quiet(i) && (InState(i, t, Opened) || InState(i, t, Streaming)) && i.objs[t].rseid == e
    requires !i.objs[t].closeInt && Watched(i, t, i.objs[t].lsep)
    requires Quiet(a) && (SepIn(a, e, Opened) || SepIn(a, e, Streaming)) && AlwaysTaken(ok)
    requires forall u :: u in a.objs && a.objs[u].lsep == e ==> Watched(a, u, e)
    ensures Waits(Step(i, Called(CallClose(t, false)), ok), t, Close, e, i.r.transaction)
    ensures var i1 := Step(i, Called(CallClose(t, false)), ok);
            var i2 := Step(i1, ReplyRead(i.r.transaction, Close, Accept, true, []), ok);
            InState(i2, t, Closing) && Released(Step(i2, TransportHangup(t, gone), ok), t, i.objs[t].lsep)
    ensures a.seps[e].stream.Some?
    ensures var u, seid := a.seps[e].stream.value, Step(i, Called(CallClose(t, false)), ok).r.req.value.seid;
            var a1 := Step(a, CommandRead(CloseIt(false, seid, true)), ok);
            SepIn(a1, e, Closing) && Released(Step(a1, TransportHangup(u, gone), ok), u, e)
  {
    CloseAsked(i, t, e, ok);
    CloseAccepted(Step(i, Called(CallClose(t, false)), ok), t, e, i.r.transaction, ok);
    AcceptClose(a, e, ok);
    hide Step;
    var i1 := Step(i, Called(CallClose(t, false)), ok);
    HungUp(Step(i1, ReplyRead(i.r.transaction, Close, Accept, true, []), ok), t, gone, ok);
    HungUp(Step(a, CommandRead(CloseIt(false, e, true)), ok), a.seps[e].stream.value, gone, ok);
  }

  /** A stream watched on its transport, and not being aborted. */
  ghost predicate Watched(s: SessionState, t: StreamId, e: SepId) {
    t in s.objs && s.objs[t].lsep == e && s.objs[t].watch && !s.objs[t].abortInt
  }

  lemma CloseAsked(i: Session, t: StreamId, e: SepId, ok: Socket)
    requires Quiet(i) && (InState(i, t, Opened) || InState(i, t, Streaming)) && i.objs[t].rseid == e && AlwaysTaken(ok)
    requires !i.objs[t].closeInt && Watched(i, t, i.objs[t].lsep)
    ensures var i1 := Step(i, Called(CallClose(t, false)), ok);
            Waits(i1, t, Close, e, i.r.transaction) && Watched(i1, t, i.objs[t].lsep)
  {
    hide SendRequest;
    Sent(i, false, t, Close, e, ok);
  }

  lemma CloseAccepted(s: Session, t: StreamId, seid: nat, transaction: nat, ok: Socket)
    requires Waits(s, t, Close, seid, transaction) && t in s.objs && Watched(s, t, s.objs[t].lsep)
    ensures var s1 := Step(s, ReplyRead(transaction, Close, Accept, true, []), ok);
            InState(s1, t, Closing) && Watched(s1, t, s.objs[t].lsep) && !s1.answering
  {
    hide Proceed, Disarm, Enter, Step;
    Replied(s, t, Close, seid, transaction, ok);
    Stopped(s);
    var d := Disarm(s, false);
    StreamLinks(d, t);
    Entered(d, d.objs[t].lsep, Closing, ok);
    Ended(StreamAnswered(d, ok), ok);
  }

  lemma AcceptClose(a: Session, e: SepId, ok: Socket)
    requires Quiet(a) && (SepIn(a, e, Opened) || SepIn(a, e, Streaming)) && AlwaysTaken(ok)
    requires forall u :: u in a.objs && a.objs[u].lsep == e ==> Watched(a, u, e)
    ensures a.seps[e].stream.Some?
    ensures var a1 := Step(a, CommandRead(CloseIt(false, e, true)), ok);
            SepIn(a1, e, Closing) && Watched(a1, a.seps[e].stream.value, e) && !a1.answering
  {
    hide Step;
    SepLinks(a, e);
    var t := a.seps[e].stream.value;
    CloseIs(a, e, t, ok);
    assert Watched(a, t, e);
  }

  lemma CloseIs(a: Session, e: SepId, t: StreamId, ok: Socket)
    requires Quiet(a) && (SepIn(a, e, Opened) || SepIn(a, e, Streaming)) && a.seps[e].stream == Some(t) && AlwaysTaken(ok)
    ensures var a1 := Step(a, CommandRead(CloseIt(false, e, true)), ok);
            && Quiet(a1) && t in a.objs
            && Changed(a, a1, e, Closing, t, Flags(a.objs[t], Closing).(timer := CloseTimer))
  {
    hide Closes, Collide, Steady, Step;
    SepLinks(a, e);
    NoCollision(a, Close, a.objs[t].rseid);
    ClosesIs(a, e, t, ok);
    Obeyed(a, CloseIt(false, e, true), Closes(a, e, t, ok).0, ok);
  }

  /** A CLOSE command that is carried out. */
  lemma ClosesIs(a: Session, e: SepId, t: StreamId, ok: Socket)
    requires e in a.seps && a.seps[e].stream == Some(t) && t in a.objs && AlwaysTaken(ok)
    ensures var (a1, good) := Closes(a, e, t, ok);
            && good && a1.r.req == a.r.req && a1.r.prio == a.r.prio && a1.r.queue == a.r.queue
            && a1 == a.(seps := a.seps[e := a.seps[e].(state := Closing)],
                        objs := a.objs[t := Flags(a.objs[t], Closing).(timer := CloseTimer)], r := a1.r,
                        answers := a.answers + [true])
  {
    hide SendReply, Enter;
    Entered(a, e, Closing, ok);
    AnsweredIs(Enter(a, e, Closing, ok), true, ok);
  }

  /** ABORT: the initiator's end is released by the reply, and the other end by
      the end of the transport. */
  lemma AbortProcedure(i: Session, t: StreamId, a: Session, e: SepId, gone: bool, ok: Socket)
    requires Quiet(i) && t in i.objs && !InState(i, t, Aborting) && i.objs[t].rseid == e
    requires Quiet(a) && e in a.seps && a.seps[e].stream.Some? && AlwaysTaken(ok)
    requires forall u :: u in a.objs && a.objs[u].lsep == e ==> Watched(a, u, e)
    ensures Waits(Step(i, Called(CallAbort(t)), ok), t, Abort, e, i.r.transaction)
    ensures var i1 := Step(i, Called(CallAbort(t)), ok);
            Released(Step(i1, ReplyRead(i.r.transaction, Abort, Accept, true, []), ok), t, i.objs[t].lsep)
    ensures var u, seid := a.seps[e].stream.value, Step(i, Called(CallAbort(t)), ok).r.req.value.seid;
            var a1 := Step(a, CommandRead(AbortIt(false, seid)), ok);
            SepIn(a1, e, Aborting) && Released(Step(a1, TransportHangup(u, gone), ok), u, e)
  {
    AbortAsked(i, t, e, ok);
    AbortAccepted(Step(i, Called(CallAbort(t)), ok), t, e, i.r.transaction, ok);
    AcceptAbort(a, e, ok);
    hide Step;
    HungUp(Step(a, CommandRead(AbortIt(false, e)), ok), a.seps[e].stream.value, gone, ok);
  }

  lemma AbortAsked(i: Session, t: StreamId, e: SepId, ok: Socket)
    requires Quiet(i) && t in i.objs && !InState(i, t, Aborting) && i.objs[t].rseid == e && AlwaysTaken(ok)
    ensures var i1 := Step(i, Called(CallAbort(t)), ok);
            Waits(i1, t, Abort, e, i.r.transaction) && t in i1.objs && i1.objs[t].lsep == i.objs[t].lsep
  {
    hide SendRequest;
    StreamLinks(i, t);
    Sent(i, true, t, Signal.Abort, e, ok);
  }

  lemma AbortAccepted(s: Session, t: StreamId, seid: nat, transaction: nat, ok: Socket)
    requires Waits(s, t, Abort, seid, transaction) && t in s.objs
    ensures Released(Step(s, ReplyRead(transaction, Abort, Accept, true, []), ok), t, s.objs[t].lsep)
  {
    hide Proceed, Disarm, Enter, Step, Idled;
    Replied(s, t, Abort, seid, transaction, ok);
    Stopped(s);
    var d := Disarm(s, false);
    StreamLinks(d, t);
    var e := d.objs[t].lsep;
    Entered(d, e, Aborting, ok);
    EnterKeeps(d, e, Aborting, ok);
    IdledReleases(Enter(d, e, Aborting, ok), e);
    Ended(StreamAnswered(d, ok), ok);
  }

  lemma AcceptAbort(a: Session, e: SepId, ok: Socket)
    requires Quiet(a) && e in a.seps && a.seps[e].stream.Some? && AlwaysTaken(ok)
    requires forall u :: u in a.objs && a.objs[u].lsep == e ==> Watched(a, u, e)
    ensures var a1 := Step(a, CommandRead(AbortIt(false, e)), ok);
            SepIn(a1, e, Aborting) && Watched(a1, a.seps[e].stream.value, e) && !a1.answering
  {
    hide SendReply, Enter, Collide, Steady;
    SepLinks(a, e);
    var t := a.seps[e].stream.value;
    NoCollision(a, Abort, a.objs[t].rseid);
    AnsweredIs(a, true, ok);
    var a1 := SendReply(a, true, ok).0;
    Entered(a1, e, Aborting, ok);
    assert Watched(a, t, e);
  }
}
