/** The whole life of a stream between two sessions: it is configured and
    opened, started and suspended any number of times, and closed. */
module AvdtpLife {
  import opened Common
  import opened AvdtpRequests
  import opened AvdtpSession
  import opened AvdtpEvents
  import opened AvdtpProcedures

  /** The initiator and the acceptor. */
  datatype Ends = Ends(i: Session, a: Session)

  /** The command the peer reads, of the request that was sent; `f` and `delay`
      are the rest of a SET_CONFIGURATION. All are accepted. */
  function CommandFor(q: Req, f: SepId, delay: bool): Command {
    match q.signal
    case SetConfiguration => ConfigureIt(false, q.seid, f, false, delay, AnswerAccept)
    case Open => OpenIt(false, q.seid, true)
    case Start => StartThem([(q.seid, true)])
    case Suspend => SuspendThem([(q.seid, true)])
    case Close => CloseIt(false, q.seid, true)
    case Abort => AbortIt(false, q.seid)
    case _ => Plain(true, true)
  }

  /** One procedure: the initiator's call, the command it makes for the acceptor,
      and the reply. The second reply at the initiator, and the one at the
      acceptor, are for the delay report that may follow a configuration. */
  ghost function Exchange(p: Ends, call: Call, f: SepId, delay: bool, ok: Socket): (p1: Ends)
    requires !p.i.answering && !p.a.answering
    ensures !p1.i.answering && !p1.a.answering
  {
    var i1 := Step(p.i, Called(call), ok);
    if i1.r.req.None? then Ends(i1, p.a)
    else Ends(Answer(Answer(i1, [], ok), [], ok),
              Answer(Step(p.a, CommandRead(CommandFor(i1.r.req.value, f, delay)), ok), [], ok))
  }

  /** Both transports are set. */
  ghost function TransportsSet(p: Ends, t: StreamId, u: StreamId, ok: Socket): (p1: Ends)
    requires !p.i.answering && !p.a.answering
    ensures !p1.i.answering && !p1.a.answering
  {
    Ends(Step(p.i, Called(CallSetTransport(t, true)), ok), Step(p.a, Called(CallSetTransport(u, true)), ok))
  }

  /** Both transports are gone. */
  ghost function Parted(p: Ends, t: StreamId, u: StreamId, gone: bool, ok: Socket): (p1: Ends)
    requires !p.i.answering && !p.a.answering
    ensures !p1.i.answering && !p1.a.answering
  {
    Ends(Step(p.i, TransportHangup(t, gone), ok), Step(p.a, TransportHangup(u, gone), ok))
  }

  /** Started and suspended `n` times. */
  ghost function Cycles(p: Ends, t: StreamId, n: nat, f: SepId, delay: bool, ok: Socket): (p1: Ends)
    requires !p.i.answering && !p.a.answering
    ensures !p1.i.answering && !p1.a.answering
    decreases n
  {
    if n == 0 then p
    else Cycles(Exchange(Exchange(p, CallStart(t), f, delay, ok), CallSuspend(t), f, delay, ok), t, n - 1, f, delay, ok)
  }

  /** One end holds the stream `t` of its end point `e`, for the end point `peer`
      of the other side, in the given state, with nothing under way. */
  ghost predicate Holding(s: SessionState, t: StreamId, e: SepId, peer: nat, state: SepState) {
    && Quiet(s) && t in s.objs && s.objs[t].lsep == e && s.objs[t].rseid == peer
    && e in s.seps && s.seps[e].state == state && s.seps[e].stream == Some(t)
    && !s.objs[t].closeInt && !s.objs[t].abortInt
    && (state.Opened? || state.Streaming? ==> s.objs[t].io && s.objs[t].watch)
  }

  /** The two ends agree. */
  ghost predicate Agree(p: Ends, t: StreamId, f: SepId, u: StreamId, e: SepId, state: SepState) {
    && Holding(p.i, t, f, e, state) && Holding(p.a, u, e, f, state)
    && !p.i.objs[t].openAcp && (p.i.objs[t].starting ==> state.Streaming?)
  }

  // ------------------------------------------------------------ the initiator

  /** The initiator, when its request is accepted. */
  lemma AcceptedIs(s: Session, t: StreamId, signal: Signal, state: SepState, ok: Socket)
    requires s.r.req.Some? && Waits(s, t, signal, s.r.req.value.seid, s.r.req.value.transaction) && t in s.objs
    requires LeadsTo(signal, state) && (signal.Start? ==> InState(s, t, Opened))
    ensures var s1 := Answer(s, [], ok);
            && Changed(s, s1, s.objs[t].lsep, state, t, Flags(s.objs[t], state))
            && !s1.answering && (!signal.SetConfiguration? ==> Quiet(s1))
  {
    hide Proceed, Disarm, Enter, Step, Steady;
    Replied(s, t, signal, s.r.req.value.seid, s.r.req.value.transaction, ok);
    Stopped(s);
    var d := Disarm(s, false);
    StreamLinks(d, t);
    Entered(d, d.objs[t].lsep, state, ok);
    Ended(StreamAnswered(d, ok), ok);
  }

  lemma ClosedIs(s: Session, t: StreamId, ok: Socket)
    requires s.r.req.Some? && Waits(s, t, Close, s.r.req.value.seid, s.r.req.value.transaction) && t in s.objs
    ensures var s1 := Answer(s, [], ok);
            && Changed(s, s1, s.objs[t].lsep, Closing, t, Flags(s.objs[t], Closing).(io := false))
            && Quiet(s1)
  {
    hide Proceed, Disarm, Enter, Step, Steady;
    Replied(s, t, Close, s.r.req.value.seid, s.r.req.value.transaction, ok);
    Stopped(s);
    var d := Disarm(s, false);
    StreamLinks(d, t);
    Entered(d, d.objs[t].lsep, Closing, ok);
    Ended(StreamAnswered(d, ok), ok);
  }

  /** No request, or one delay report, is in service, and none waits. */
  ghost predicate ReportsOnly(s: SessionState, t: StreamId) {
    && !s.answering && s.watching && s.r.prio == [] && s.r.queue == []
    && (s.r.req.Some? ==> s.r.req.value.armed && s.r.req.value.signal.DelayReport? && s.r.req.value.stream == Some(t)
                          && !s.r.req.value.collided)
  }

  lemma ReportAnswered(s: Session, t: StreamId, ok: Socket)
    requires ReportsOnly(s, t) && t in s.objs
    ensures var s1 := Answer(s, [], ok); Quiet(s1) && s1.seps == s.seps && s1.objs == s.objs
  {
    if s.r.req.Some? {
      hide Proceed, Disarm, Step;
      Replied(s, t, DelayReport, s.r.req.value.seid, s.r.req.value.transaction, ok);
      Stopped(s);
      StreamLinks(Disarm(s, false), t);
      Ended(StreamAnswered(Disarm(s, false), ok), ok);
    }
  }

  lemma QuietStays(s: Session, ok: Socket)
    requires Quiet(s)
    ensures Answer(s, [], ok) == s
  {
  }

  /** The request that follows the SET_CONFIGURATION, if one does. */
  lemma ReportFollows(s: Session, t: StreamId, ok: Socket)
    requires s.r.req.Some? && Waits(s, t, SetConfiguration, s.r.req.value.seid, s.r.req.value.transaction) && t in s.objs
    requires AlwaysTaken(ok)
    ensures ReportsOnly(Answer(s, [], ok), t)
  {
    hide Disarm, Step, Proceed;
    Replied(s, t, SetConfiguration, s.r.req.value.seid, s.r.req.value.transaction, ok);
    Stopped(s);
    var d := Disarm(s, false);
    StreamLinks(d, t);
    var e := d.objs[t].lsep;
    ReportQueued(d, e, t, ok);
    var m := Enter(d, e, Configured, ok);
    hide Enter;
    ReportSent(m, t, ok);
  }

  lemma ReportQueued(s: Session, e: SepId, t: StreamId, ok: Socket)
    requires e in s.seps && s.seps[e].stream == Some(t) && t in s.objs && s.r.req.Some?
    requires s.r.prio == [] && s.r.queue == []
    ensures var s1 := Enter(s, e, Configured, ok);
            && s1.r.req == s.r.req && s1.r.queue == [] && s1.watching == s.watching
            && (s1.r.prio == [] || (|s1.r.prio| == 1 && IsReport(s1.r.prio[0], t)))
  {
    MovedIs(s, e, Configured);
    var m := Moved(s, e, Configured);
    hide Moved;
    DelayQueued(m, t, ok);
  }

  ghost predicate IsReport(q: Req, t: StreamId) { q.signal.DelayReport? && q.stream == Some(t) && !q.collided }

  lemma DelayQueued(s: Session, t: StreamId, ok: Socket)
    requires t in s.objs && s.r.req.Some? && s.r.prio == []
    ensures var s1 := DelayReportOf(s, t, ok).0;
            && s1.r.req == s.r.req && s1.r.queue == s.r.queue && s1.watching == s.watching
            && (s1.r.prio == [] || (|s1.r.prio| == 1 && IsReport(s1.r.prio[0], t)))
  {
    hide SendRequest;
    StreamLinks(s, t);
    SendRequestIs(s, true, Some(t), DelayReport, s.objs[t].rseid, ok);
  }

  lemma ReportSent(s: Session, t: StreamId, ok: Socket)
    requires s.r.req.Some? && s.r.queue == [] && s.watching && AlwaysTaken(ok)
    requires s.r.prio == [] || (|s.r.prio| == 1 && IsReport(s.r.prio[0], t))
    ensures ReportsOnly(Proceed(s, ok), t)
  {
    hide Proceed;
    ProceedIs(s, ok);
  }

  // ------------------------------------------------------------- the acceptor

  lemma ConfigureCommandIs(a: Session, e: SepId, f: SepId, delay: bool, ok: Socket)
    requires Quiet(a) && e in a.seps && !a.seps[e].inuse && AlwaysTaken(ok)
    ensures var a1 := Step(a, CommandRead(ConfigureIt(false, e, f, false, delay, AnswerAccept)), ok);
            ReportsOnly(a1, a.made) && Newly(a1, a.made, e, f)
  {
    hide SendReply, NewlyConfigured, Steady, Step;
    SepLinks(a, e);
    var a1 := Raised(a, delay);
    AnsweredIs(a1, true, ok);
    var a2 := SendReply(a1, true, ok).0;
    NewlyIs(a2, e, f, delay, ok);
    var a3 := NewlyConfigured(a2, e, f, delay, ok);
    assert ConfigureCommand(a, e, f, false, delay, AnswerAccept, ok) == (a3, true);
    Obeyed(a, ConfigureIt(false, e, f, false, delay, AnswerAccept), a3, ok);
  }

  /** A stream just configured. */
  ghost predicate Newly(s: SessionState, t: StreamId, e: SepId, peer: nat) {
    && t in s.objs && s.objs[t].lsep == e && s.objs[t].rseid == peer
    && e in s.seps && s.seps[e].state == Configured && s.seps[e].stream == Some(t)
    && !s.objs[t].closeInt && !s.objs[t].abortInt && !s.objs[t].openAcp && !s.objs[t].starting
  }

  lemma NewlyIs(s: Session, e: SepId, f: SepId, delay: bool, ok: Socket)
    requires e in s.seps && s.seps[e].stream.None? && Quiet(s) && AlwaysTaken(ok)
    ensures var s1 := NewlyConfigured(s, e, f, delay, ok); ReportsOnly(s1, s.made) && Newly(s1, s.made, e, f)
  {
    hide Enter;
    SepLinks(s, e);
    var a := Attach(s, e, f, delay);
    Entered(a, e, Configured, ok);
    ReportDirect(a, e, s.made, ok);
  }

  lemma ReportDirect(s: Session, e: SepId, t: StreamId, ok: Socket)
    requires e in s.seps && s.seps[e].stream == Some(t) && t in s.objs && Quiet(s) && AlwaysTaken(ok)
    ensures ReportsOnly(Enter(s, e, Configured, ok), t)
  {
    MovedIs(s, e, Configured);
    var m := Moved(s, e, Configured);
    hide Moved;
    DelayDirect(m, t, ok);
  }

  lemma DelayDirect(s: Session, t: StreamId, ok: Socket)
    requires t in s.objs && Quiet(s) && AlwaysTaken(ok)
    ensures ReportsOnly(DelayReportOf(s, t, ok).0, t)
  {
    hide SendRequest;
    StreamLinks(s, t);
    SendRequestIs(s, true, Some(t), DelayReport, s.objs[t].rseid, ok);
  }

  // ------------------------------------------------------------ the procedures

  lemma ConfigureAgrees(p: Ends, f: SepId, e: SepId, delay: bool, ok: Socket)
    requires Quiet(p.i) && f in p.i.seps && !p.i.seps[f].inuse && e in p.i.remote
    requires Quiet(p.a) && e in p.a.seps && !p.a.seps[e].inuse && AlwaysTaken(ok)
    ensures Agree(Exchange(p, CallConfigure(f, e, delay), f, delay, ok), p.i.made, f, p.a.made, e, Configured)
  {
    hide Step, Answer;
    var t := p.i.made;
    ConfigureSent(p.i, f, e, delay, ok);
    var i1 := Step(p.i, Called(CallConfigure(f, e, delay)), ok);
    AcceptedIs(i1, t, SetConfiguration, Configured, ok);
    ReportFollows(i1, t, ok);
    ReportAnswered(Answer(i1, [], ok), t, ok);
    ConfigureCommandIs(p.a, e, f, delay, ok);
    ReportAnswered(Step(p.a, CommandRead(ConfigureIt(false, e, f, false, delay, AnswerAccept)), ok), p.a.made, ok);
  }

  lemma ConfigureSent(i: Session, f: SepId, e: SepId, delay: bool, ok: Socket)
    requires Quiet(i) && f in i.seps && !i.seps[f].inuse && e in i.remote && AlwaysTaken(ok)
    ensures var i1 := Step(i, Called(CallConfigure(f, e, delay)), ok);
            && Waits(i1, i.made, SetConfiguration, e, i.r.transaction) && i.made in i1.objs
            && i1.objs[i.made] == Stream(f, e, false, false, NoTimer, false, false, false, false, delay, false)
            && f in i1.seps && i1.seps[f].stream == Some(i.made)
  {
    hide Configure;
    ConfigureIs(i, f, e, delay, ok);
  }

  /** A request about a stream that is held, when nothing is under way. */
  lemma Asked(s: Session, t: StreamId, e: SepId, peer: nat, state: SepState, signal: Signal, ok: Socket)
    requires Holding(s, t, e, peer, state) && AlwaysTaken(ok)
    requires signal.Open? || signal.Start? || signal.Suspend? || signal.Close?
    ensures var (s1, good) := SendRequest(s, false, Some(t), signal, peer, ok);
            good && s1 == s.(r := s1.r) && Waits(s1, t, signal, peer, s.r.transaction)
  {
    Sent(s, false, t, signal, peer, ok);
  }

  lemma OpenAgrees(p: Ends, t: StreamId, f: SepId, u: StreamId, e: SepId, delay: bool, ok: Socket)
    requires Agree(p, t, f, u, e, Configured) && AlwaysTaken(ok)
    ensures Agree(TransportsSet(Exchange(p, CallOpen(t), f, delay, ok), t, u, ok), t, f, u, e, Opened)
  {
    hide Step, Exchange;
    OpenExchange(p, t, f, u, e, delay, ok);
    var q := Exchange(p, CallOpen(t), f, delay, ok);
    SetIs(q.i, t, f, ok);
    SetIs(q.a, u, e, ok);
  }

  lemma OpenExchange(p: Ends, t: StreamId, f: SepId, u: StreamId, e: SepId, delay: bool, ok: Socket)
    requires Agree(p, t, f, u, e, Configured) && AlwaysTaken(ok)
    ensures var q := Exchange(p, CallOpen(t), f, delay, ok);
            && Quiet(q.i) && q.i.seps == p.i.seps && q.i.objs == p.i.objs && q.i.pendingOpen == Some(t)
            && Quiet(q.a) && q.a.pendingOpen == Some(u)
            && Changed(p.a, q.a, e, Configured, u, p.a.objs[u].(openAcp := true, timer := OpenTimer))
  {
    hide Step, Answer;
    OpenSent(p.i, t, f, e, ok);
    var i1 := Step(p.i, Called(CallOpen(t)), ok);
    OpenReplied(i1, t, ok);
    QuietStays(Answer(i1, [], ok), ok);
    OpenIs(p.a, e, u, ok);
    QuietStays(Step(p.a, CommandRead(OpenIt(false, e, true)), ok), ok);
  }

  lemma OpenSent(s: Session, t: StreamId, e: SepId, peer: nat, ok: Socket)
    requires Holding(s, t, e, peer, Configured) && AlwaysTaken(ok)
    ensures var s1 := Step(s, Called(CallOpen(t)), ok); s1 == s.(r := s1.r) && Waits(s1, t, Signal.Open, peer, s.r.transaction)
  {
    hide SendRequest;
    Asked(s, t, e, peer, Configured, Signal.Open, ok);
  }

  lemma OpenReplied(s: Session, t: StreamId, ok: Socket)
    requires s.r.req.Some? && Waits(s, t, Signal.Open, s.r.req.value.seid, s.r.req.value.transaction) && t in s.objs
    ensures var s1 := Answer(s, [], ok); Quiet(s1) && s1.seps == s.seps && s1.objs == s.objs && s1.pendingOpen == Some(t)
  {
    hide Proceed, Disarm, Step;
    Replied(s, t, Signal.Open, s.r.req.value.seid, s.r.req.value.transaction, ok);
    Stopped(s);
    StreamLinks(Disarm(s, false), t);
    Ended(StreamAnswered(Disarm(s, false), ok), ok);
  }

  lemma SetIs(s: Session, t: StreamId, e: SepId, ok: Socket)
    requires Quiet(s) && s.pendingOpen == Some(t) && t in s.objs && s.objs[t].lsep == e
    ensures var s1 := Step(s, Called(CallSetTransport(t, true)), ok);
            && Quiet(s1)
            && Changed(s, s1, e, Opened, t, Flags(s.objs[t].(timer := NoTimer, io := true), Opened).(watch := true))
            && s1.seps[e].stream == Some(t)
  {
    hide Joined;
    StreamLinks(s, t);
    JoinedIs(WithPending(s, None), t, e, ok);
  }

  lemma StartAgrees(p: Ends, t: StreamId, f: SepId, u: StreamId, e: SepId, delay: bool, ok: Socket)
    requires Agree(p, t, f, u, e, Opened) && AlwaysTaken(ok)
    ensures Agree(Exchange(p, CallStart(t), f, delay, ok), t, f, u, e, Streaming)
  {
    hide Step, Answer;
    StartSent(p.i, t, f, e, ok);
    var i1 := Step(p.i, Called(CallStart(t)), ok);
    AcceptedIs(i1, t, Start, Streaming, ok);
    QuietStays(Answer(i1, [], ok), ok);
    StartIs(p.a, e, u, ok);
    QuietStays(Step(p.a, CommandRead(StartThem([(e, true)])), ok), ok);
  }

  lemma StartSent(s: Session, t: StreamId, e: SepId, peer: nat, ok: Socket)
    requires Holding(s, t, e, peer, Opened) && !s.objs[t].openAcp && !s.objs[t].starting && AlwaysTaken(ok)
    ensures var s1 := Step(s, Called(CallStart(t)), ok);
            && s1 == s.(objs := s.objs[t := s.objs[t].(starting := true)], r := s1.r)
            && Waits(s1, t, Start, peer, s.r.transaction)
  {
    hide SendRequest;
    Asked(s, t, e, peer, Opened, Start, ok);
  }

  lemma SuspendAgrees(p: Ends, t: StreamId, f: SepId, u: StreamId, e: SepId, delay: bool, ok: Socket)
    requires Agree(p, t, f, u, e, Streaming) && AlwaysTaken(ok)
    ensures Agree(Exchange(p, CallSuspend(t), f, delay, ok), t, f, u, e, Opened)
  {
    hide Step, Answer;
    SuspendSent(p.i, t, f, e, ok);
    var i1 := Step(p.i, Called(CallSuspend(t)), ok);
    AcceptedIs(i1, t, Suspend, Opened, ok);
    QuietStays(Answer(i1, [], ok), ok);
    SuspendIs(p.a, e, u, ok);
    QuietStays(Step(p.a, CommandRead(SuspendThem([(e, true)])), ok), ok);
  }

  lemma SuspendSent(s: Session, t: StreamId, e: SepId, peer: nat, ok: Socket)
    requires Holding(s, t, e, peer, Streaming) && AlwaysTaken(ok)
    ensures var s1 := Step(s, Called(CallSuspend(t)), ok); s1 == s.(r := s1.r) && Waits(s1, t, Suspend, peer, s.r.transaction)
  {
    hide SendRequest;
    Asked(s, t, e, peer, Streaming, Suspend, ok);
  }

  /** Both ends are closing, watched on their transports. */
  ghost predicate BothClosing(p: Ends, t: StreamId, f: SepId, u: StreamId, e: SepId) {
    && Quiet(p.i) && SepIn(p.i, f, Closing) && Watched(p.i, t, f)
    && Quiet(p.a) && SepIn(p.a, e, Closing) && Watched(p.a, u, e)
  }

  lemma CloseAgrees(p: Ends, t: StreamId, f: SepId, u: StreamId, e: SepId, state: SepState, delay: bool, ok: Socket)
    requires (state.Opened? || state.Streaming?) && Agree(p, t, f, u, e, state) && AlwaysTaken(ok)
    ensures BothClosing(Exchange(p, CallClose(t, false), f, delay, ok), t, f, u, e)
  {
    hide Step, Answer, Holding, Watched, SepIn;
    CloseAsks(p.i, t, f, e, state, ok);
    CloseObeyed(p.a, u, e, f, state, ok);
    QuietStays(Step(p.a, CommandRead(CloseIt(false, e, true)), ok), ok);
  }

  lemma CloseAsks(s: Session, t: StreamId, e: SepId, peer: nat, state: SepState, ok: Socket)
    requires (state.Opened? || state.Streaming?) && Holding(s, t, e, peer, state) && AlwaysTaken(ok)
    ensures !s.answering
    ensures var s1 := Step(s, Called(CallClose(t, false)), ok);
            var s2 := Answer(Answer(s1, [], ok), [], ok);
            && s1.r.req.Some? && s1.r.req.value.signal == Close && s1.r.req.value.seid == peer
            && Quiet(s2) && SepIn(s2, e, Closing) && Watched(s2, t, e)
  {
    hide Step, Answer;
    CloseSent(s, t, e, peer, state, ok);
    CloseReplied(Step(s, Called(CallClose(t, false)), ok), t, e, ok);
  }

  lemma CloseReplied(s: Session, t: StreamId, e: SepId, ok: Socket)
    requires s.r.req.Some? && Waits(s, t, Close, s.r.req.value.seid, s.r.req.value.transaction) && Watched(s, t, e)
    ensures var s1 := Answer(Answer(s, [], ok), [], ok); Quiet(s1) && SepIn(s1, e, Closing) && Watched(s1, t, e)
  {
    hide Answer;
    ClosedIs(s, t, ok);
    QuietStays(Answer(s, [], ok), ok);
  }

  lemma CloseObeyed(s: Session, t: StreamId, e: SepId, peer: nat, state: SepState, ok: Socket)
    requires (state.Opened? || state.Streaming?) && Holding(s, t, e, peer, state) && AlwaysTaken(ok)
    ensures !s.answering
    ensures var s1 := Step(s, CommandRead(CloseIt(false, e, true)), ok);
            Quiet(s1) && SepIn(s1, e, Closing) && Watched(s1, t, e)
  {
    hide Step;
    CloseIs(s, e, t, ok);
  }

  lemma CloseSent(s: Session, t: StreamId, e: SepId, peer: nat, state: SepState, ok: Socket)
    requires (state.Opened? || state.Streaming?) && Holding(s, t, e, peer, state) && AlwaysTaken(ok)
    ensures var s1 := Step(s, Called(CallClose(t, false)), ok);
            && s1 == s.(objs := s.objs[t := s.objs[t].(closeInt := true)], r := s1.r)
            && Waits(s1, t, Close, peer, s.r.transaction)
  {
    hide SendRequest, AbortStream;
    Asked(s, t, e, peer, state, Close, ok);
  }

  lemma {:induction false} CyclesAgree(p: Ends, t: StreamId, f: SepId, u: StreamId, e: SepId, n: nat, delay: bool,
                                       ok: Socket)
    requires Agree(p, t, f, u, e, Opened) && AlwaysTaken(ok)
    ensures Agree(Cycles(p, t, n, f, delay, ok), t, f, u, e, Opened)
    decreases n
  {
    hide Agree, Exchange;
    if n > 0 {
      AgreeQuiet(p, t, f, u, e, Opened);
      StartAgrees(p, t, f, u, e, delay, ok);
      var p1 := Exchange(p, CallStart(t), f, delay, ok);
      SuspendAgrees(p1, t, f, u, e, delay, ok);
      CyclesAgree(Exchange(p1, CallSuspend(t), f, delay, ok), t, f, u, e, n - 1, delay, ok);
    }
  }

  lemma AgreeQuiet(p: Ends, t: StreamId, f: SepId, u: StreamId, e: SepId, state: SepState)
    requires Agree(p, t, f, u, e, state)
    ensures !p.i.answering && !p.a.answering
  {
  }

  /** From two free end points to two free end points: what the initiator asks
      for is what the acceptor reads, the two ends agree after every procedure,
      for any number of starts and suspends, and both streams are gone when the
      transports are. */
  lemma WholeLife(p: Ends, f: SepId, e: SepId, delay: bool, n: nat, gone: bool, ok: Socket)
    requires Quiet(p.i) && f in p.i.seps && !p.i.seps[f].inuse && e in p.i.remote
    requires Quiet(p.a) && e in p.a.seps && !p.a.seps[e].inuse && AlwaysTaken(ok)
    ensures var t, u := p.i.made, p.a.made;
            var configured := Exchange(p, CallConfigure(f, e, delay), f, delay, ok);
            var joined := TransportsSet(Exchange(configured, CallOpen(t), f, delay, ok), t, u, ok);
            var cycled := Cycles(joined, t, n, f, delay, ok);
            var started := Exchange(cycled, CallStart(t), f, delay, ok);
            var closing := Exchange(started, CallClose(t, false), f, delay, ok);
            var over := Parted(closing, t, u, gone, ok);
            && Agree(configured, t, f, u, e, Configured) && Agree(joined, t, f, u, e, Opened)
            && Agree(cycled, t, f, u, e, Opened) && Agree(started, t, f, u, e, Streaming)
            && BothClosing(closing, t, f, u, e)
            && Released(over.i, t, f) && Released(over.a, u, e)
  {
    hide Agree, BothClosing, Exchange, Joined, Cycles, Released, Step;
    var t, u := p.i.made, p.a.made;
    ConfigureAgrees(p, f, e, delay, ok);
    var configured := Exchange(p, CallConfigure(f, e, delay), f, delay, ok);
    OpenAgrees(configured, t, f, u, e, delay, ok);
    var joined := TransportsSet(Exchange(configured, CallOpen(t), f, delay, ok), t, u, ok);
    CyclesAgree(joined, t, f, u, e, n, delay, ok);
    var cycled := Cycles(joined, t, n, f, delay, ok);
    StartAgrees(cycled, t, f, u, e, delay, ok);
    var started := Exchange(cycled, CallStart(t), f, delay, ok);
    CloseAgrees(started, t, f, u, e, Streaming, delay, ok);
    PartedReleased(Exchange(started, CallClose(t, false), f, delay, ok), t, f, u, e, gone, ok);
  }

  lemma PartedReleased(p: Ends, t: StreamId, f: SepId, u: StreamId, e: SepId, gone: bool, ok: Socket)
    requires BothClosing(p, t, f, u, e)
    ensures !p.i.answering && !p.a.answering
    ensures var over := Parted(p, t, u, gone, ok); Released(over.i, t, f) && Released(over.a, u, e)
  {
    hide Step, Released;
    HungUp(p.i, t, gone, ok);
    HungUp(p.a, u, gone, ok);
  }
}
