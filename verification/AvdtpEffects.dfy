/** What each event comes to, in terms of the fields of the session alone: when
    a call or a command is refused, the one request or reply it makes, and the
    marks and states it changes. */
module AvdtpEffects {
  import opened Common
  import opened AvdtpRequests
  import opened AvdtpSession
  import opened AvdtpEvents
  import opened AvdtpProcedures

  // ---------------------------------------------------------------- requests

  /** A request to be made. */
  datatype Ask = Ask(priority: bool, signal: Signal, seid: nat, stream: Option<StreamId>)

  /** It is accepted if one is in service, behind which it waits, or if the
      socket takes it. */
  predicate Taken(r: RequestState, ok: Socket) { r.req.Some? || ok(r.sends) }

  /** The requests after it was made: with one in service it waits at the end of
      its queue; otherwise it has been handed to the socket with the label of the
      counter, and is in service with its timer running, or freed. */
  ghost predicate Asks(r: RequestState, r1: RequestState, a: Ask, ok: Socket) {
    var good := ok(r.sends);
    && r1.made == r.made + 1
    && (r.req.Some? ==>
          var q := Req(r.made, a.signal, a.seid, a.stream, 0, false, false);
          && r1.req == r.req && r1.transaction == r.transaction && r1.sends == r.sends
          && r1.tries == r.tries && r1.finished == r.finished
          && r1.prio == (if a.priority then r.prio + [q] else r.prio)
          && r1.queue == (if a.priority then r.queue else r.queue + [q]))
    && (r.req.None? ==>
          && r1.prio == r.prio && r1.queue == r.queue
          && r1.sends == r.sends + 1 && r1.transaction == (r.transaction + 1) % 16
          && r1.tries == r.tries + [Try(r.made, a.signal, r.transaction, Direct, good)]
          && r1.req == (if good then Some(Req(r.made, a.signal, a.seid, a.stream, r.transaction, true, false)) else None)
          && r1.finished == (if good then r.finished else r.finished + {r.made}))
  }

  lemma SendNewAsks(r: Requests, priority: bool, stream: Option<StreamId>, signal: Signal, seid: nat, ok: Socket)
    requires !signal.GetCapabilities? && !signal.GetAllCapabilities?
    requires signal.Discover? ==> !priority && stream.None? && NoCaps(r.prio)
    ensures var (r1, good) := SendNew(r, priority, stream, signal, seid, ok);
            Asks(r, r1, Ask(priority, signal, seid, stream), ok) && good == Taken(r, ok)
  {
  }

  /** A request about a stream that is not being aborted, or to abort it. */
  lemma RequestAsks(s: Session, priority: bool, t: StreamId, signal: Signal, ok: Socket)
    requires !signal.GetCapabilities? && !signal.GetAllCapabilities? && !signal.Discover? && t in s.objs
    ensures var (s1, good) := SendRequest(s, priority, Some(t), signal, s.objs[t].rseid, ok);
            if s.objs[t].abortInt && !signal.Abort? then s1 == s && !good
            else
              && s1 == s.(r := s1.r) && good == Taken(s.r, ok)
              && Asks(s.r, s1.r, Ask(priority, signal, s.objs[t].rseid, Some(t)), ok)
  {
    SendRequestIs(s, priority, Some(t), signal, s.objs[t].rseid, ok);
    SendNewAsks(s.r, priority, Some(t), signal, s.objs[t].rseid, ok);
  }

  // ------------------------------------------------- calls of the application

  // The calls about a stream, as events.

  lemma OpenCalled(s: Session, t: StreamId, ok: Socket)
    requires !s.answering
    ensures Step(s, Called(CallOpen(t)), ok) == OpenStream(s, t, ok).0
  {
    hide HandleCommand, HandleReply, Broken, CancelRequest, OpenTimedOut, StartTimedOut, TransportGone, Finalize,
         WithStream, StartDiscovery, Configure, OpenStream, StartStream, SuspendStream, AbortStream, CloseStream,
         DelayReportOf, Connect, RegisterSep, UnregisterSep, Steady, Mild, Still, Kept;
  }

  lemma StartCalled(s: Session, t: StreamId, ok: Socket)
    requires !s.answering
    ensures Step(s, Called(CallStart(t)), ok) == StartStream(s, t, ok).0
  {
    hide HandleCommand, HandleReply, Broken, CancelRequest, OpenTimedOut, StartTimedOut, TransportGone, Finalize,
         WithStream, StartDiscovery, Configure, OpenStream, StartStream, SuspendStream, AbortStream, CloseStream,
         DelayReportOf, Connect, RegisterSep, UnregisterSep, Steady, Mild, Still, Kept;
  }

  lemma SuspendCalled(s: Session, t: StreamId, ok: Socket)
    requires !s.answering
    ensures Step(s, Called(CallSuspend(t)), ok) == SuspendStream(s, t, ok).0
  {
    hide HandleCommand, HandleReply, Broken, CancelRequest, OpenTimedOut, StartTimedOut, TransportGone, Finalize,
         WithStream, StartDiscovery, Configure, OpenStream, StartStream, SuspendStream, AbortStream, CloseStream,
         DelayReportOf, Connect, RegisterSep, UnregisterSep, Steady, Mild, Still, Kept;
  }

  lemma DelayReportCalled(s: Session, t: StreamId, ok: Socket)
    requires !s.answering
    ensures Step(s, Called(CallDelayReport(t)), ok) == DelayReportOf(s, t, ok).0
  {
    hide HandleCommand, HandleReply, Broken, CancelRequest, OpenTimedOut, StartTimedOut, TransportGone, Finalize,
         WithStream, StartDiscovery, Configure, OpenStream, StartStream, SuspendStream, AbortStream, CloseStream,
         DelayReportOf, Connect, RegisterSep, UnregisterSep, Steady, Mild, Still, Kept;
  }

  lemma AbortCalled(s: Session, t: StreamId, ok: Socket)
    requires !s.answering
    ensures Step(s, Called(CallAbort(t)), ok) == AbortStream(s, t, ok).0
  {
    hide HandleCommand, HandleReply, Broken, CancelRequest, OpenTimedOut, StartTimedOut, TransportGone, Finalize,
         WithStream, StartDiscovery, Configure, OpenStream, StartStream, SuspendStream, AbortStream, CloseStream,
         DelayReportOf, Connect, RegisterSep, UnregisterSep, Steady, Mild, Still, Kept;
  }

  lemma CloseCalled(s: Session, t: StreamId, immediate: bool, ok: Socket)
    requires !s.answering
    ensures Step(s, Called(CallClose(t, immediate)), ok) == CloseStream(s, t, immediate, ok).0
  {
    hide HandleCommand, HandleReply, Broken, CancelRequest, OpenTimedOut, StartTimedOut, TransportGone, Finalize,
         WithStream, StartDiscovery, Configure, OpenStream, StartStream, SuspendStream, AbortStream, CloseStream,
         DelayReportOf, Connect, RegisterSep, UnregisterSep, Steady, Mild, Still, Kept;
  }

  /** The state of the end point of a stream. */
  ghost function StateOf(s: SessionState, t: StreamId): SepState
    requires t in s.objs && s.objs[t].lsep in s.seps
  {
    s.seps[s.objs[t].lsep].state
  }

  /** The session after one more request, and another value of the stream. */
  ghost predicate AsksWith(s: SessionState, s1: SessionState, a: Ask, t: StreamId, o: Stream, ok: Socket)
    requires t in s.objs
  {
    && Asks(s.r, s1.r, a, ok)
    && s1 == s.(r := s1.r, objs := s.objs[t := if Taken(s.r, ok) then o else s.objs[t]])
  }

  /** Nothing, and a refusal, for a stream that does not exist. */
  lemma GoneCases(s: Session, t: StreamId, immediate: bool, settable: bool, ok: Socket)
    requires t !in s.objs && !s.answering
    ensures OpenStream(s, t, ok) == StartStream(s, t, ok) == SuspendStream(s, t, ok) == AbortStream(s, t, ok)
            == CloseStream(s, t, immediate, ok) == DelayReportOf(s, t, ok) == Connect(s, t, settable, ok) == (s, false)
  {
    assert s.pendingOpen != Some(t) by { assert Unfold(1); }
  }

  /** OPEN is requested in the states IDLE and CONFIGURED. */
  lemma OpenCases(s: Session, t: StreamId, ok: Socket)
    requires t in s.objs
    ensures s.objs[t].lsep in s.seps
    ensures var (s1, good), o := OpenStream(s, t, ok), s.objs[t];
            if (StateOf(s, t).Idle? || StateOf(s, t).Configured?) && !o.abortInt
               then AsksWith(s, s1, Ask(false, Signal.Open, o.rseid, Some(t)), t, o, ok) && good == Taken(s.r, ok)
               else s1 == s && !good
  {
    hide SendRequest;
    StreamLinks(s, t);
    RequestAsks(s, false, t, Signal.Open, ok);
  }

  /** START is requested in the state OPEN, unless it has been already, or a
      CLOSE has; the stream is starting then. An acceptor of the OPEN does not
      ask, but waits for the peer to: its timer is set, once. */
  lemma StartCases(s: Session, t: StreamId, ok: Socket)
    requires t in s.objs
    ensures s.objs[t].lsep in s.seps
    ensures var (s1, good), o := StartStream(s, t, ok), s.objs[t];
            if !StateOf(s, t).Opened? then s1 == s && !good
               else if o.openAcp then s1 == s.(objs := s.objs[t := o.(startTimer := true)]) && good
               else if o.closeInt || o.starting || o.abortInt then s1 == s && !good
               else
                 && AsksWith(s, s1, Ask(false, Start, o.rseid, Some(t)), t, o.(starting := true), ok)
                 && good == Taken(s.r, ok)
  {
    hide SendRequest;
    StreamLinks(s, t);
    RequestAsks(s, false, t, Start, ok);
    assert s.objs[t := s.objs[t]] == s.objs;
  }

  /** SUSPEND is requested in the states after OPEN, unless a CLOSE was. */
  lemma SuspendCases(s: Session, t: StreamId, ok: Socket)
    requires t in s.objs
    ensures s.objs[t].lsep in s.seps
    ensures var (s1, good), o := SuspendStream(s, t, ok), s.objs[t];
            if (StateOf(s, t).Streaming? || StateOf(s, t).Closing? || StateOf(s, t).Aborting?)
                  && !o.closeInt && !o.abortInt
               then AsksWith(s, s1, Ask(false, Suspend, o.rseid, Some(t)), t, o, ok) && good == Taken(s.r, ok)
               else s1 == s && !good
  {
    hide SendRequest;
    StreamLinks(s, t);
    RequestAsks(s, false, t, Suspend, ok);
  }

  /** DELAY_REPORT is requested in the states CONFIGURED and STREAMING, if the
      stream reports delays and the version is 1.3 at least; with priority. */
  lemma DelayReportCases(s: Session, t: StreamId, ok: Socket)
    requires t in s.objs
    ensures s.objs[t].lsep in s.seps
    ensures var (s1, good), o := DelayReportOf(s, t, ok), s.objs[t];
            if (StateOf(s, t).Configured? || StateOf(s, t).Streaming?) && o.delayReporting && s.v13 && !o.abortInt
               then AsksWith(s, s1, Ask(true, DelayReport, o.rseid, Some(t)), t, o, ok) && good == Taken(s.r, ok)
               else s1 == s && !good
  {
    hide SendRequest;
    StreamLinks(s, t);
    RequestAsks(s, true, t, DelayReport, ok);
  }

  lemma TimeoutIs(s: Session, ok: Socket)
    requires !s.answering
    ensures s.r.req.Some? && s.r.req.value.armed ==> Step(s, RequestTimeout, ok) == CancelRequest(s, ok).0
  {
    hide HandleCommand, HandleReply, Broken, CancelRequest, OpenTimedOut, StartTimedOut, TransportGone, Finalize,
         WithStream, StartDiscovery, Configure, OpenStream, StartStream, SuspendStream, AbortStream, CloseStream,
         DelayReportOf, Connect, RegisterSep, UnregisterSep, Steady, Mild, Still, Kept;
  }

  /** ABORT is requested in every state but ABORTING, with priority, and marks
      the stream; but if the request in service is about the stream, that one is
      given up, as if it had timed out. */
  lemma AbortCases(s: Session, t: StreamId, ok: Socket)
    requires t in s.objs
    ensures s.objs[t].lsep in s.seps
    ensures var (s1, good), o := AbortStream(s, t, ok), s.objs[t];
            if StateOf(s, t).Aborting? then s1 == s && !good
               else if s.r.req.Some? && s.r.req.value.armed && s.r.req.value.stream == Some(t)
               then (s1, good) == CancelRequest(s, ok)
               else
                 && AsksWith(s, s1, Ask(true, Abort, o.rseid, Some(t)), t, o.(abortInt := true), ok)
                 && good == Taken(s.r, ok)
  {
    hide SendRequest, CancelRequest;
    StreamLinks(s, t);
    RequestAsks(s, true, t, Abort, ok);
    assert s.objs[t := s.objs[t]] == s.objs;
  }

  /** CLOSE is requested from OPEN on, once, and marks the stream; before that,
      and at once if the request in service is about the stream, the stream is
      aborted. */
  lemma CloseCases(s: Session, t: StreamId, immediate: bool, ok: Socket)
    requires t in s.objs
    ensures s.objs[t].lsep in s.seps
    ensures var (s1, good), o := CloseStream(s, t, immediate, ok), s.objs[t];
            if o.closeInt then s1 == s && !good
               else if StateOf(s, t).Idle? || StateOf(s, t).Configured?
                       || (immediate && s.r.req.Some? && s.r.req.value.stream == Some(t))
               then (s1, good) == AbortStream(s, t, ok)
               else if o.abortInt then s1 == s && !good
               else
                 && AsksWith(s, s1, Ask(false, Close, o.rseid, Some(t)), t, o.(closeInt := true), ok)
                 && good == Taken(s.r, ok)
  {
    hide SendRequest, AbortStream;
    StreamLinks(s, t);
    RequestAsks(s, false, t, Close, ok);
    assert s.objs[t := s.objs[t]] == s.objs;
  }

  /** A configuration makes a new stream on a free end point, for which it asks;
      a request that is not taken leaves no stream. */
  lemma ConfigureCases(s: Session, e: SepId, rseid: nat, delay: bool, ok: Socket)
    requires !s.answering && e in s.seps && !s.seps[e].inuse && rseid in s.remote
    ensures var (s1, good) := Configure(s, e, rseid, delay, ok);
            && Step(s, Called(CallConfigure(e, rseid, delay)), ok) == s1 && good == Taken(s.r, ok)
            && Asks(s.r, s1.r, Ask(false, SetConfiguration, rseid, Some(s.made)), ok)
            && s1 == if !good then s.(r := s1.r)
                     else
                       s.(r := s1.r, made := s.made + 1, streams := s.streams + [s.made],
                          seps := s.seps[e := s.seps[e].(inuse := true, stream := Some(s.made))],
                          objs := s.objs[s.made := Stream(e, rseid, false, false, NoTimer, false, false, false, false,
                                                          delay, false)])
  {
    hide Configure;
    ConfigureIs(s, e, rseid, delay, ok);
    SendNewAsks(s.r, false, Some(s.made), SetConfiguration, rseid, ok);
  }

  /** The transport is taken only for the stream that waits for it, and if its
      socket can be set up: the stream is OPEN, connected and watched, waits no
      longer, has no timer, and is not starting. */
  lemma TransportCases(s: Session, t: StreamId, settable: bool, ok: Socket)
    requires !s.answering
    ensures var (s1, good) := Connect(s, t, settable, ok);
            && Step(s, Called(CallSetTransport(t, settable)), ok) == s1 && good == (s.pendingOpen == Some(t) && settable)
            && (!good ==> s1 == s)
            && (good ==>
                  && t in s.objs && s.objs[t].lsep in s.seps
                  && var e, o := s.objs[t].lsep, s.objs[t];
                     s1 == s.(pendingOpen := None, seps := s.seps[e := s.seps[e].(state := Opened)],
                              objs := s.objs[t := o.(timer := NoTimer, io := true, watch := true, starting := false)]))
  {
    hide Joined;
    if s.pendingOpen == Some(t) && settable {
      assert t in s.objs by { assert Unfold(1); }
      StreamLinks(s, t);
      JoinedIs(WithPending(s, None), t, s.objs[t].lsep, ok);
    }
  }

  /** A discovery is refused while one is under way. When end points are known
      already it only waits for the idle source; otherwise it asks the peer, and
      its callback is set if that was taken. */
  lemma DiscoverCases(s: Session, ok: Socket)
    requires !s.answering
    ensures var (s1, good) := StartDiscovery(s, ok);
            && Step(s, Called(CallDiscover), ok) == s1
            && (s.discover.Some? ==> s1 == s && !good)
            && (s.discover.None? && s.remote != {} ==>
                  good && s1 == s.(discover := Some(Discovery(s.asked, true, true)), asked := s.asked + 1,
                                   spoiled := s1.spoiled))
            && (s.discover.None? && s.remote == {} ==>
                  && good == Taken(s.r, ok) && Asks(s.r, s1.r, Ask(false, Signal.Discover, 0, None), ok)
                  && s1 == s.(discover := Some(Discovery(s.asked, false, good)), asked := s.asked + 1, r := s1.r,
                              spoiled := s1.spoiled))
  {
    if s.discover.None? && s.remote == {} {
      StartDiscoveryIs(s, ok);
      SendNewAsks(s.r, false, None, Signal.Discover, 0, ok);
    }
  }

  /** A new end point is idle and free. */
  lemma RegisterCases(s: Session, free: Option<SepId>, sink: bool, cfm: bool, ind: bool, ok: Socket)
    requires !s.answering && (free.Some? ==> free.value !in s.seps)
    ensures Step(s, Called(CallRegister(free, sink, cfm, ind)), ok)
            == if free.None? then s
               else s.(seps := s.seps[free.value := LocalSep(Idle, None, false, sink, cfm, ind)])
  {
  }

  // ------------------------------------------------------- streams that go

  /** The requests that are not about any of the streams, in their order. */
  function Left(w: seq<Req>, gone: set<StreamId>): seq<Req> {
    if w == [] then []
    else if w[0].stream.Some? && w[0].stream.value in gone then Left(w[1..], gone)
    else [w[0]] + Left(w[1..], gone)
  }

  /** The request in service: if it is about one of the streams and its reply has
      not come, it is freed, but for an ABORT, which only forgets the stream. */
  function StillServed(req: Option<Req>, gone: set<StreamId>): Option<Req> {
    if req.None? || !req.value.armed || req.value.stream.None? || req.value.stream.value !in gone then req
    else if req.value.signal.Abort? then Some(req.value.(stream := None))
    else None
  }

  /** Some streams have gone: their end points are idle and free, they are in
      neither list, no transport is awaited for them, and no request is about
      them but one whose reply is being handled. Nothing else has changed. */
  ghost predicate Gone(s: SessionState, s1: SessionState, gone: set<StreamId>) {
    && s1.objs == s.objs - gone && (forall t :: t in s1.streams <==> t in s.streams && t !in gone)
    && s1.seps.Keys == s.seps.Keys
    && (forall e :: e in s.seps ==>
          s1.seps[e] == if s.seps[e].stream.Some? && s.seps[e].stream.value in gone
                        then s.seps[e].(state := Idle, inuse := false, stream := None) else s.seps[e])
    && s1.pendingOpen == (if s.pendingOpen.Some? && s.pendingOpen.value in gone then None else s.pendingOpen)
    && RequestsLeft(s.r, s1.r, gone)
    && s1 == s.(objs := s1.objs, streams := s1.streams, seps := s1.seps, pendingOpen := s1.pendingOpen, r := s1.r)
  }

  ghost predicate RequestsLeft(r: RequestState, r1: RequestState, gone: set<StreamId>) {
    && r1.prio == Left(r.prio, gone) && r1.queue == Left(r.queue, gone) && r1.req == StillServed(r.req, gone)
    && r1.transaction == r.transaction && r1.made == r.made && r1.tries == r.tries && r1.sends == r.sends
  }

  lemma {:induction false} WithoutLeft(w: seq<Req>, t: StreamId)
    ensures Without(w, t) == Left(w, {t})
  {
    if w != [] { WithoutLeft(w[1..], t); }
  }

  lemma {:induction false} LeftTwice(w: seq<Req>, a: set<StreamId>, b: set<StreamId>)
    ensures Left(Left(w, a), b) == Left(w, a + b)
  {
    if w != [] {
      LeftTwice(w[1..], a, b);
      if !(w[0].stream.Some? && w[0].stream.value in a) { assert Left(w, a)[1..] == Left(w[1..], a); }
    }
  }

  lemma {:induction false} LeftNone(w: seq<Req>)
    ensures Left(w, {}) == w
  {
    if w != [] { LeftNone(w[1..]); }
  }

  lemma ForgetLeft(r: Requests, t: StreamId)
    ensures RequestsLeft(r, Forget(r, t), {t})
  {
    ForgetIs(r, t);
    WithoutLeft(r.prio, t);
    WithoutLeft(r.queue, t);
  }

  /** An end point becomes idle. */
  lemma IdledGone(s: Session, e: SepId)
    requires e in s.seps && s.seps[e].stream.Some?
    ensures s.seps[e].stream.value in s.objs && Gone(s, Idled(s, e), {s.seps[e].stream.value})
  {
    hide Forget, RequestsLeft;
    var t := s.seps[e].stream.value;
    IdledIs(s, e);
    SepLinks(s, e);
    ForgetLeft(s.r, t);
    Unshared(s, e);
  }

  /** No other end point has the stream. */
  lemma Unshared(s: Session, e: SepId)
    requires e in s.seps && s.seps[e].stream.Some?
    ensures forall f :: f in s.seps && f != e ==> s.seps[f].stream != s.seps[e].stream
    ensures forall t :: t in RemoveFirst(s.streams, s.seps[e].stream.value) <==> t in s.streams && Some(t) != s.seps[e].stream
  {
    assert Unfold(1);
    forall f | f in s.seps && f != e ensures s.seps[f].stream != s.seps[e].stream {
      assert SepOwned(f, s.seps[f], s.objs) && SepOwned(e, s.seps[e], s.objs);
    }
    RemoveFirstNoDup(s.streams, s.seps[e].stream.value);
  }

  lemma GoneTwice(s: SessionState, a: SessionState, b: SessionState, first: set<StreamId>, second: set<StreamId>)
    requires Gone(s, a, first) && Gone(a, b, second)
    ensures Gone(s, b, first + second)
  {
    hide Left;
    LeftTwice(s.r.prio, first, second);
    LeftTwice(s.r.queue, first, second);
    assert b.objs == s.objs - (first + second);
  }

  lemma GoneNone(s: SessionState)
    ensures Gone(s, s, {})
  {
    LeftNone(s.r.prio);
    LeftNone(s.r.queue);
  }

  function Among(list: seq<StreamId>, objs: map<StreamId, Stream>): set<StreamId> { set t | t in list && t in objs }

  lemma AmongMore(t: StreamId, rest: seq<StreamId>, objs: map<StreamId, Stream>)
    ensures Among([], objs) == {}
    ensures t !in objs ==> Among([t] + rest, objs) == Among(rest, objs)
    ensures t in objs ==> Among([t] + rest, objs) == {t} + Among(rest, objs - {t})
  {
  }

  lemma {:induction false} ReleasedGone(s: Session, list: seq<StreamId>)
    ensures Gone(s, ReleaseAll(s, list), Among(list, s.objs))
    decreases |list|
  {
    hide Gone, Among;
    if list == [] {
      GoneNone(s);
      AmongMore(0, [], s.objs);
    } else {
      var rest := list[1..];
      assert list == [list[0]] + rest;
      AmongMore(list[0], rest, s.objs);
      if list[0] !in s.objs {
        ReleasedGone(s, rest);
      } else {
        StreamLinks(s, list[0]);
        var a := Idled(s, s.objs[list[0]].lsep);
        IdledGone(s, s.objs[list[0]].lsep);
        ReleasedGone(a, rest);
        GoneObjs(s, a, {list[0]});
        GoneTwice(s, a, ReleaseAll(a, rest), {list[0]}, Among(rest, a.objs));
      }
    }
  }

  lemma GoneObjs(s: SessionState, s1: SessionState, gone: set<StreamId>)
    requires Gone(s, s1, gone)
    ensures s1.objs == s.objs - gone
  {
  }

  /** The connection was given up: all streams have gone, and the discovery is
      over, its callback called if there is one. */
  ghost predicate Lost(s: SessionState, s1: SessionState) {
    && Gone(s, s1.(discover := s.discover, fired := s.fired, spoiled := s.spoiled, losses := s.losses,
                   watching := s.watching, answering := s.answering), s.objs.Keys)
    && s1.losses == s.losses + 1 && s1.discover.None?
    && s1.fired == if s.discover.Some? && s.discover.value.wanted then s.fired + [s.discover.value.id] else s.fired
  }

  lemma LossIs(s: Session)
    ensures Lost(s, ConnectionLost(s)) && ConnectionLost(s).watching == s.watching
  {
    hide Gone, ReleaseAll;
    ReleasedGone(s, s.streams);
    AllAmong(s);
    var a := ReleaseAll(s, s.streams);
    var b := ConnectionLost(s);
    FinalizedIs(a);
    SameSession(s, a, s.objs.Keys);
    assert b.(discover := s.discover, fired := s.fired, spoiled := s.spoiled, losses := s.losses,
              watching := s.watching, answering := s.answering) == a;
  }

  lemma AllAmong(s: Session)
    ensures Among(s.streams, s.objs) == s.objs.Keys
  {
    forall t | t in s.objs ensures t in s.streams { StreamLinks(s, t); }
  }

  lemma SameSession(s: SessionState, s1: SessionState, gone: set<StreamId>)
    requires Gone(s, s1, gone)
    ensures s1 == s.(objs := s1.objs, streams := s1.streams, seps := s1.seps, pendingOpen := s1.pendingOpen, r := s1.r)
  {
  }

  lemma FinalizedIs(s: Session)
    ensures var s1 := Finalize(s, true);
            && s1 == s.(discover := None, fired := s1.fired, spoiled := s1.spoiled)
            && s1.fired == if s.discover.Some? && s.discover.value.wanted then s.fired + [s.discover.value.id] else s.fired
  {
  }

  /** And nothing is read any more. */
  lemma BrokenIs(s: Session)
    ensures Lost(s, Broken(s)) && !Broken(s).watching
  {
    hide Gone;
    LossIs(s);
    var a, b := ConnectionLost(s), Broken(s);
    assert b.(discover := s.discover, fired := s.fired, spoiled := s.spoiled, losses := s.losses,
              watching := s.watching, answering := s.answering)
           == a.(discover := s.discover, fired := s.fired, spoiled := s.spoiled, losses := s.losses,
                 watching := s.watching, answering := s.answering);
  }

  lemma ReadFailedCases(s: Session, ok: Socket)
    requires !s.answering
    ensures var s1 := Step(s, ReadFailed, ok); if s.watching then Lost(s, s1) && !s1.watching else s1 == s
  {
    hide Lost, Broken;
    BrokenIs(s);
  }

  // ------------------------------------------------------- timers and hang-ups

  /** The first stream of the list for a remote end point. */
  ghost predicate FirstFor(s: SessionState, rseid: nat, t: StreamId) {
    exists k :: 0 <= k < |s.streams| && s.streams[k] == t && t in s.objs && s.objs[t].rseid == rseid
                && forall j :: 0 <= j < k ==> s.streams[j] in s.objs && s.objs[s.streams[j]].rseid != rseid
  }

  ghost predicate NoneFor(s: SessionState, rseid: nat) {
    forall t :: t in s.streams ==> t in s.objs && s.objs[t].rseid != rseid
  }

  lemma StreamOfIs(s: Session, rseid: nat)
    ensures var f := StreamOf(s, rseid); if f.Some? then FirstFor(s, rseid, f.value) else NoneFor(s, rseid)
  {
    assert Unfold(1);
  }

  /** The request in service is freed. */
  ghost predicate Freed(s: SessionState, s1: SessionState) {
    && s.r.req.Some? && s1 == s.(spoiled := s1.spoiled, r := s1.r)
    && s1.r == s.r.(req := None, finished := s.r.finished + {s.r.req.value.id})
  }

  /** The reply to a request does not come in time: the request is freed. If it
      names no stream, or if the request was a SET_CONFIGURATION, a
      GET_CAPABILITIES or an ABORT, the connection is given up. Otherwise the
      stream is marked as being aborted, and as not being started or closed if
      that was asked for and its user hears of it, and an ABORT is sent; if the
      socket does not take it, the connection is given up too. */
  lemma TimeoutCases(s: Session, ok: Socket) returns (a: Session, t: StreamId, m: Session, b: Session)
    requires s.r.req.Some?
    ensures Freed(s, a)
    ensures var q, s1 := s.r.req.value, CancelRequest(s, ok).0;
            if q.signal.Discover? || q.seid == 0 || NoneFor(s, q.seid) then Lost(a, s1)
            else FirstFor(s, q.seid, t) && Cancels(a, s1, t, q, m, b, ok)
  {
    hide Lost, ConnectionLost, CancelOnStream, Cancels, FirstFor, NoneFor, StreamOf;
    var q := s.r.req.value;
    a := GiveUp(s);
    m, b, t := a, a, 0;
    StreamOfIs(s, q.seid);
    SameFirst(s, a, q.seid);
    if q.signal.Discover? || q.seid == 0 || StreamOf(a, q.seid).None? {
      LossIs(a);
    } else {
      t := StreamOf(a, q.seid).value;
      NotBothFor(s, q.seid, t);
      m, b := CancelledIs(a, t, q, ok);
    }
  }

  lemma SameFirst(s: Session, a: Session, rseid: nat)
    requires a.streams == s.streams && a.objs == s.objs
    ensures StreamOf(a, rseid) == StreamOf(s, rseid)
  {
  }

  lemma NotBothFor(s: SessionState, rseid: nat, t: StreamId)
    ensures FirstFor(s, rseid, t) ==> !NoneFor(s, rseid)
  {
  }

  /** The request `q` about the stream `t` is cancelled: `m` has the marks, and
      `b` the ABORT too. */
  ghost predicate Cancels(a: SessionState, s1: SessionState, t: StreamId, q: Req, m: SessionState, b: SessionState,
                          ok: Socket) {
    && t in a.objs && a.objs[t].lsep in a.seps
    && var o, cfm := a.objs[t], a.seps[a.objs[t].lsep].cfm;
       && m == a.(objs := a.objs[t := o.(abortInt := true,
                                         starting := o.starting && !(q.signal.Start? && cfm),
                                         closeInt := o.closeInt && !(q.signal.Close? && cfm))])
       && if q.signal.SetConfiguration? || q.signal.GetCapabilities? || q.signal.Abort? then Lost(m, s1)
          else
            && b == m.(r := b.r) && Asks(m.r, b.r, Ask(true, Abort, q.seid, Some(t)), ok)
            && if ok(m.r.sends) then s1 == b else Lost(b, s1)
  }

  lemma CancelledIs(a: Session, t: StreamId, q: Req, ok: Socket) returns (m: Session, b: Session)
    requires t in a.objs && a.r.req.None?
    ensures Cancels(a, CancelOnStream(a, t, q.signal, q.seid, ok).0, t, q, m, b, ok)
  {
    hide Lost, ConnectionLost, SendRequest, Asks, Mild;
    StreamLinks(a, t);
    m := WithStream(a, t, Cancelled(a.objs[t], a.seps[a.objs[t].lsep], q.signal));
    b := m;
    if q.signal.SetConfiguration? || q.signal.GetCapabilities? || q.signal.Abort? {
      LossIs(m);
    } else {
      b := SendRequest(m, true, Some(t), Abort, q.seid, ok).0;
      SendRequestIs(m, true, Some(t), Abort, q.seid, ok);
      SendNewAsks(m.r, true, Some(t), Abort, q.seid, ok);
      LossIs(b);
    }
  }

  /** The peer did not connect in time: the stream does not wait any longer, and
      is aborted. */
  lemma OpenTimeoutCases(s: Session, t: StreamId, ok: Socket) returns (a: Session)
    requires !s.answering && t in s.objs && s.objs[t].timer.OpenTimer?
    ensures a == s.(pendingOpen := None, objs := s.objs[t := s.objs[t].(timer := NoTimer)])
    ensures Step(s, OpenTimeout(t), ok) == AbortStream(a, t, ok).0
  {
    a := WithPending(WithStream(s, t, s.objs[t].(timer := NoTimer)), None);
  }

  /** The peer did not disconnect in time: this side does. */
  lemma CloseTimeoutCases(s: Session, t: StreamId, ok: Socket)
    requires !s.answering && t in s.objs && s.objs[t].timer.CloseTimer?
    ensures Step(s, CloseTimeout(t), ok) == s.(objs := s.objs[t := s.objs[t].(timer := NoTimer, io := false)])
  {
  }

  /** The peer did not start in time: this side asks. */
  lemma StartTimeoutCases(s: Session, t: StreamId, ok: Socket) returns (a: Session)
    requires !s.answering && t in s.objs && s.objs[t].startTimer
    ensures a == s.(objs := s.objs[t := s.objs[t].(openAcp := false)])
    ensures var b := StartStream(a, t, ok).0;
            t in b.objs && Step(s, StartTimeout(t), ok) == b.(objs := b.objs[t := b.objs[t].(startTimer := false)])
  {
    a := WithStream(s, t, s.objs[t].(openAcp := false));
  }

  /** The transport is gone: it is watched no longer, and closed unless it was
      invalid; the stream goes with it, unless this side aborts it. */
  lemma HangupCases(s: Session, t: StreamId, invalid: bool, ok: Socket)
    requires !s.answering && t in s.objs && s.objs[t].watch
    ensures var o, s1 := s.objs[t], Step(s, TransportHangup(t, invalid), ok);
            var a := s.(objs := s.objs[t := o.(watch := false, io := if invalid then o.io else false)]);
            if o.abortInt then s1 == a else Gone(a, s1, {t})
  {
    hide Gone, Idled;
    StreamLinks(s, t);
    var o := s.objs[t];
    var a := WithStream(s, t, o.(io := o.io && invalid, watch := false));
    if !o.abortInt { IdledGone(a, o.lsep); }
  }

  /** An end point that is unregistered goes, and its stream before it. */
  lemma UnregisterCases(s: Session, e: SepId, ok: Socket) returns (a: Session)
    requires !s.answering && e in s.seps
    ensures if s.seps[e].stream.Some? then Gone(s, a, {s.seps[e].stream.value}) else a == s
    ensures Step(s, Called(CallUnregister(e)), ok) == a.(seps := a.seps - {e})
  {
    hide Gone, Idled;
    a := s;
    if s.seps[e].stream.Some? {
      a := Idled(s, e);
      IdledGone(s, e);
    }
  }

  /** The idle source of a discovery: its callback is called. */
  lemma DiscoverIdleCases(s: Session, ok: Socket)
    requires !s.answering && s.discover.Some? && s.discover.value.idle
    ensures Step(s, DiscoverIdle, ok)
            == s.(discover := None,
                  fired := if s.discover.value.wanted then s.fired + [s.discover.value.id] else s.fired)
  {
  }
}
