/** What the commands and the replies of the peer come to, in terms of the fields
    of the session alone, and which request is sent next. */
module AvdtpAnswers {
  import opened Common
  import opened AvdtpRequests
  import opened AvdtpSession
  import opened AvdtpEvents
  import opened AvdtpProcedures
  import opened AvdtpEffects

  // --------------------------------------------------------- changes of state

  /** An end point with a stream has entered a state: the timer of an acceptor
      that waits for START goes when it starts, closes or aborts; STREAMING ends
      its part as an acceptor, OPEN ends starting. A sink that is configured
      reports its delay, if its stream does so and the version is 1.3 at least.
      Nothing else changes. */
  ghost predicate Enters(s: SessionState, s1: SessionState, e: SepId, t: StreamId, state: SepState, ok: Socket) {
    EntersWith(s, s.r, s1, e, t, state, ok)
  }

  /** The same, with other requests. */
  ghost predicate EntersWith(s: SessionState, r: RequestState, s1: SessionState, e: SepId, t: StreamId, state: SepState,
                             ok: Socket) {
    && e in s.seps && t in s.objs
    && var o := s.objs[t];
       && s1 == s.(r := s1.r, seps := s.seps[e := s.seps[e].(state := state)],
                   objs := s.objs[t := o.(startTimer := o.startTimer && (state.Configured? || state.Opened?),
                                          openAcp := o.openAcp && !state.Streaming?,
                                          starting := o.starting && !state.Opened?)])
       && if state.Configured? && s.seps[e].sink && o.delayReporting && s.v13 && !o.abortInt
          then Asks(r, s1.r, Ask(true, DelayReport, o.rseid, Some(t)), ok) else s1.r == r
  }

  lemma EnterIs(s: Session, e: SepId, state: SepState, ok: Socket)
    requires e in s.seps && s.seps[e].stream.Some? && !state.Idle?
    ensures Enters(s, Enter(s, e, state, ok), e, s.seps[e].stream.value, state, ok)
  {
    hide DelayReportOf, Asks, Steady;
    var t := s.seps[e].stream.value;
    SepLinks(s, e);
    MovedIs(s, e, state);
    if state.Configured? && s.seps[e].sink { DelayReportCases(Moved(s, e, state), t, ok); }
  }

  lemma EntersFrom(s: SessionState, b: SessionState, s1: SessionState, e: SepId, t: StreamId, state: SepState, ok: Socket)
    requires b == s.(r := b.r) && Enters(b, s1, e, t, state, ok)
    ensures EntersWith(s, b.r, s1, e, t, state, ok)
  {
  }

  // ----------------------------------------------------- commands of the peer

  /** One answer is handed to the socket. */
  ghost predicate Answers(r: RequestState, r1: RequestState) { r1 == r.(sends := r.sends + 1) }

  /** An accept or a reject, and nothing else. */
  ghost predicate Says(s: SessionState, s1: SessionState, accept: bool) {
    s1 == s.(r := s1.r, answers := s.answers + [accept]) && Answers(s.r, s1.r)
  }

  lemma AnswerIs(s: Session, accept: bool, ok: Socket)
    ensures var (s1, good) := SendReply(s, accept, ok); Says(s, s1, accept) && good == ok(s.r.sends)
  {
  }

  /** The request in service conflicts with a command about the same stream: it
      is the same request, or the command is an ABORT and it an OPEN, START,
      SUSPEND or CLOSE. It is marked. */
  function Marks(r: RequestState, command: Signal, rseid: nat): RequestState {
    if r.req.Some? && r.req.value.seid == rseid
       && (r.req.value.signal.Open? || r.req.value.signal.Start? || r.req.value.signal.Suspend? || r.req.value.signal.Close?)
       && (command == r.req.value.signal || command == Abort)
    then r.(req := Some(r.req.value.(collided := true))) else r
  }

  lemma CollideIs(s: Session, command: Signal, rseid: nat)
    ensures var s1 := Collide(s, command, rseid); s1 == s.(r := s1.r) && s1.r == Marks(s.r, command, rseid)
  {
  }

  /** A command that fails, or whose answer could not be sent, breaks the
      connection; one that collided with the request in service frees it, and the
      next one is sent; otherwise that is all. */
  lemma CommandCases(s: Session, c: Command, ok: Socket)
    requires !s.answering && s.watching
    ensures var (a, good) := Execute(s, c, ok);
            var s1 := Step(s, CommandRead(c), ok);
            if !good then Lost(a, s1) && !s1.watching
            else if a.r.req.Some? && a.r.req.value.collided then s1 == a.(r := s1.r, spoiled := s1.spoiled) && Serves(a.r, s1.r, ok)
            else s1 == a
  {
    hide Execute, Lost, Broken;
    var (a, good) := Execute(s, c, ok);
    BrokenIs(a);
    if a.r.req.Some? { ProceedServes(a, ok); }
  }

  /** A command too short for its SEID fails without an answer. A command about
      an end point that is not there, has no stream, is in the wrong state or
      whose user refuses is answered, and nothing else happens. */
  lemma RefusedCases(s: Session, c: Command, ok: Socket)
    requires match c
             case Plain(wellFormed, _) => true
             case ConfigureIt(short, e, _, bad, _, _) => short || e !in s.seps || s.seps[e].stream.Some? || bad
             case OpenIt(short, e, accept) => short || e !in s.seps || !s.seps[e].state.Configured? || (s.seps[e].ind && !accept)
             case StartThem(targets) => targets == []
             case SuspendThem(targets) => targets == []
             case CloseIt(short, e, accept) =>
               || short || e !in s.seps || s.seps[e].stream.None? || (s.seps[e].ind && !accept)
               || (!s.seps[e].state.Opened? && !s.seps[e].state.Streaming?)
             case AbortIt(short, e) => short || e !in s.seps || s.seps[e].stream.None?
    ensures var (s1, good) := Execute(s, c, ok);
            var bad := match c
                       case Plain(wellFormed, _) => !wellFormed
                       case ConfigureIt(short, _, _, _, _, _) => short
                       case OpenIt(short, _, _) => short
                       case StartThem(_) => true
                       case SuspendThem(_) => true
                       case CloseIt(short, _, _) => short
                       case AbortIt(short, _) => short;
            if bad then s1 == s && !good
            else if c.AbortIt? then s1 == s && good
            else Says(s, s1, c.Plain? && c.accept) && good == ok(s.r.sends)
  {
    hide SendReply;
    AnswerIs(s, c.Plain? && c.accept, ok);
  }

  /** OPEN: the end point waits for the transport of its stream. */
  lemma OpenItCases(s: Session, e: SepId, accept: bool, ok: Socket)
    requires e in s.seps && s.seps[e].state.Configured? && (s.seps[e].ind ==> accept)
    ensures s.seps[e].stream.Some? && s.seps[e].stream.value in s.objs
    ensures var t := s.seps[e].stream.value;
            var o, (s1, good) := s.objs[t], Execute(s, OpenIt(false, e, accept), ok);
            && good == ok(s.r.sends) && Answers(Marks(s.r, Signal.Open, o.rseid), s1.r)
            && s1.answers == s.answers + [true]
            && s1 == if !good then s.(r := s1.r, answers := s1.answers)
                     else s.(r := s1.r, answers := s1.answers, pendingOpen := Some(t),
                             objs := s.objs[t := o.(openAcp := true, timer := OpenTimer)])
  {
    hide SendReply, Collide;
    SepLinks(s, e);
    var o := s.objs[s.seps[e].stream.value];
    CollideIs(s, Signal.Open, o.rseid);
    AnswerIs(Collide(s, Signal.Open, o.rseid), true, ok);
  }

  /** CLOSE: the end point is closing, and if the answer was sent the peer has
      some time to disconnect. */
  lemma CloseItCases(s: Session, e: SepId, accept: bool, ok: Socket) returns (a: Session)
    requires e in s.seps && s.seps[e].stream.Some? && (s.seps[e].state.Opened? || s.seps[e].state.Streaming?)
    requires s.seps[e].ind ==> accept
    ensures s.seps[e].stream.value in s.objs
    ensures var t := s.seps[e].stream.value;
            var o, (s1, good) := s.objs[t], Execute(s, CloseIt(false, e, accept), ok);
            && good == ok(s.r.sends) && Answers(Marks(s.r, Close, o.rseid), s1.r)
            && Enters(s, a, e, t, Closing, ok)
            && s1 == a.(r := s1.r, answers := s.answers + [true],
                        objs := a.objs[t := a.objs[t].(timer := if good then CloseTimer else o.timer)])
  {
    hide SendReply, Collide, Enter, Steady;
    SepLinks(s, e);
    var t := s.seps[e].stream.value;
    var b := Collide(s, Close, s.objs[t].rseid);
    CollideIs(s, Close, s.objs[t].rseid);
    EnterIs(b, e, Closing, ok);
    AnswerIs(Enter(b, e, Closing, ok), true, ok);
    EnterIs(s, e, Closing, ok);
    a := Enter(s, e, Closing, ok);
    assert a.objs[t := a.objs[t]] == a.objs;
  }

  /** ABORT: the end point is aborting, if the answer was sent. */
  lemma AbortItCases(s: Session, e: SepId, ok: Socket)
    requires e in s.seps && s.seps[e].stream.Some?
    ensures s.seps[e].stream.value in s.objs
    ensures var t := s.seps[e].stream.value;
            var o, (s1, good) := s.objs[t], Execute(s, AbortIt(false, e), ok);
            && good == ok(s.r.sends) && Answers(Marks(s.r, Abort, o.rseid), s1.r)
            && var said := s.(answers := s.answers + [true]);
               if good then EntersWith(said, s1.r, s1, e, t, Aborting, ok) else s1 == said.(r := s1.r)
  {
    hide SendReply, Collide, Enter, Steady;
    SepLinks(s, e);
    var t := s.seps[e].stream.value;
    var b := Collide(s, Abort, s.objs[t].rseid);
    CollideIs(s, Abort, s.objs[t].rseid);
    AnswerIs(b, true, ok);
    EnterIs(SendReply(b, true, ok).0, e, Aborting, ok);
  }

  /** SET_CONFIGURATION of a free end point: one answer is sent, and the version
      may be raised. Unless the user of the end point refuses or answers with an
      error, a sent acceptance makes a new stream, which is CONFIGURED; without a
      user an answer that was not sent is a failure. */
  lemma ConfigureItCases(s: Session, e: SepId, rseid: nat, delay: bool, verdict: Verdict, ok: Socket)
    returns (a: Session, b: SessionState)
    requires e in s.seps && s.seps[e].stream.None?
    ensures Says(s.(v13 := s.v13 || delay), a, !(s.seps[e].ind && (verdict.Refuse? || verdict.AnswerError?)))
    ensures var (s1, good) := Execute(s, ConfigureIt(false, e, rseid, false, delay, verdict), ok);
            if s.seps[e].ind && verdict.Refuse? then s1 == a && good == ok(s.r.sends)
            else if s.seps[e].ind && verdict.AnswerError? then s1 == a && good
            else if !ok(s.r.sends) then s1 == a && good == s.seps[e].ind
            else good && Attached(a, b, e, rseid, delay) && Enters(b, s1, e, s.made, Configured, ok)
  {
    hide Configures, Enters, Steady, Says, Attached;
    a, b := ConfiguresIs(Raised(s, delay), e, rseid, delay, verdict, ok);
  }

  lemma ConfiguresIs(s: Session, e: SepId, rseid: nat, delay: bool, verdict: Verdict, ok: Socket)
    returns (a: Session, b: SessionState)
    requires e in s.seps && s.seps[e].stream.None?
    ensures Says(s, a, !(s.seps[e].ind && (verdict.Refuse? || verdict.AnswerError?)))
    ensures var (s1, good) := Configures(s, e, rseid, delay, verdict, ok);
            if s.seps[e].ind && verdict.Refuse? then s1 == a && good == ok(s.r.sends)
            else if s.seps[e].ind && verdict.AnswerError? then s1 == a && good
            else if !ok(s.r.sends) then s1 == a && good == s.seps[e].ind
            else good && Attached(a, b, e, rseid, delay) && Enters(b, s1, e, s.made, Configured, ok)
  {
    hide SendReply, Enters, NewlyConfigured, Steady, Says, Attached;
    var accept := !(s.seps[e].ind && (verdict.Refuse? || verdict.AnswerError?));
    AnswerIs(s, accept, ok);
    a := SendReply(s, accept, ok).0;
    SaysSame(s, a, accept);
    b := a;
    if ok(s.r.sends) { b := NewlyIs(a, e, rseid, delay, ok); }
  }

  lemma SaysSame(s: SessionState, s1: SessionState, accept: bool)
    requires Says(s, s1, accept)
    ensures s1.seps == s.seps && s1.made == s.made && s1.v13 == s.v13
  {
  }

  lemma NewlyIs(a: Session, e: SepId, rseid: nat, delay: bool, ok: Socket) returns (b: SessionState)
    requires e in a.seps && a.seps[e].stream.None?
    ensures Attached(a, b, e, rseid, delay) && Enters(b, NewlyConfigured(a, e, rseid, delay, ok), e, a.made, Configured, ok)
  {
    hide Enter, Enters;
    SepLinks(a, e);
    b := Attach(a, e, rseid, delay);
    EnterIs(b, e, Configured, ok);
  }

  /** A new stream on an end point. */
  ghost predicate Attached(s: SessionState, s1: SessionState, e: SepId, rseid: nat, delay: bool) {
    && e in s.seps
    && s1 == s.(seps := s.seps[e := s.seps[e].(inuse := true, stream := Some(s.made))], streams := s.streams + [s.made],
                made := s.made + 1,
                objs := s.objs[s.made := Stream(e, rseid, false, false, NoTimer, false, false, false, false, delay, false)])
  }

  /** One round of START: an end point that is there, has a stream and is OPEN is
      starting; if its user accepts, it is STREAMING. */
  ghost predicate StartRound(s: SessionState, s1: SessionState, e: SepId, accept: bool, good: bool, ok: Socket) {
    if e !in s.seps || s.seps[e].stream.None? || s.seps[e].stream.value !in s.objs || !s.seps[e].state.Opened?
    then s1 == s && !good
    else
      var t := s.seps[e].stream.value;
      var o := s.objs[t];
      var a := s.(objs := s.objs[t := o.(starting := true)]);
      if s.seps[e].ind && !accept then s1 == a && !good
      else good && EntersWith(a, Marks(s.r, Start, o.rseid), s1, e, t, Streaming, ok)
  }

  /** And of SUSPEND: one that is STREAMING is OPEN, if its user accepts. */
  ghost predicate SuspendRound(s: SessionState, s1: SessionState, e: SepId, accept: bool, good: bool, ok: Socket) {
    if e !in s.seps || s.seps[e].stream.None? || s.seps[e].stream.value !in s.objs || !s.seps[e].state.Streaming?
       || (s.seps[e].ind && !accept)
    then s1 == s && !good
    else
      var t := s.seps[e].stream.value;
      good && EntersWith(s, Marks(s.r, Suspend, s.objs[t].rseid), s1, e, t, Opened, ok)
  }

  lemma StartRoundIs(s: Session, e: SepId, accept: bool, ok: Socket)
    ensures var (s1, good) := StartOne(s, e, accept, ok); StartRound(s, s1, e, accept, good, ok)
  {
    hide Enter, Enters, EntersWith, Collide;
    if e in s.seps && s.seps[e].stream.Some? && s.seps[e].state.Opened? {
      SepLinks(s, e);
      var t := s.seps[e].stream.value;
      var a := WithStream(s, t, s.objs[t].(starting := true));
      CollideIs(a, Start, s.objs[t].rseid);
      var b := Collide(a, Start, s.objs[t].rseid);
      EnterIs(b, e, Streaming, ok);
      EntersFrom(a, b, Enter(b, e, Streaming, ok), e, t, Streaming, ok);
    }
  }

  lemma SuspendRoundIs(s: Session, e: SepId, accept: bool, ok: Socket)
    ensures var (s1, good) := SuspendOne(s, e, accept, ok); SuspendRound(s, s1, e, accept, good, ok)
  {
    hide Enter, Enters, EntersWith, Collide;
    if e in s.seps && s.seps[e].stream.Some? && s.seps[e].state.Streaming? {
      SepLinks(s, e);
      var t := s.seps[e].stream.value;
      CollideIs(s, Suspend, s.objs[t].rseid);
      var b := Collide(s, Suspend, s.objs[t].rseid);
      EnterIs(b, e, Opened, ok);
      EntersFrom(s, b, Enter(b, e, Opened, ok), e, t, Opened, ok);
    }
  }

  /** The rounds of a START or SUSPEND, each from where the one before ended: `n`
      are good, and the next one is not, if there is one. */
  ghost predicate Rounds(trace: seq<SessionState>, targets: seq<(SepId, bool)>, n: nat, suspend: bool, ok: Socket) {
    && n <= |targets| && |trace| == (if n == |targets| then n + 1 else n + 2)
    && (forall i :: 0 <= i < n ==> Round(trace[i], trace[i + 1], targets[i], suspend, true, ok))
    && (n < |targets| ==> Round(trace[n], trace[n + 1], targets[n], suspend, false, ok))
  }

  ghost predicate Round(s: SessionState, s1: SessionState, target: (SepId, bool), suspend: bool, good: bool, ok: Socket) {
    if suspend then SuspendRound(s, s1, target.0, target.1, good, ok) else StartRound(s, s1, target.0, target.1, good, ok)
  }

  /** One more round before the others. */
  lemma RoundBefore(s: SessionState, trace: seq<SessionState>, target: (SepId, bool), targets: seq<(SepId, bool)>, n: nat,
                    suspend: bool, ok: Socket)
    requires Rounds(trace, targets, n, suspend, ok) && Round(s, trace[0], target, suspend, true, ok)
    ensures Rounds([s] + trace, [target] + targets, n + 1, suspend, ok)
  {
    hide Round;
    var all, more := [s] + trace, [target] + targets;
    forall i | 0 <= i < n + 1 ensures Round(all[i], all[i + 1], more[i], suspend, true, ok) {
      if i > 0 { assert Round(trace[i - 1], trace[i], targets[i - 1], suspend, true, ok); }
    }
  }

  lemma {:induction false} StartTrace(s: Session, targets: seq<(SepId, bool)>, ok: Socket)
    returns (trace: seq<SessionState>, n: nat)
    ensures Rounds(trace, targets, n, false, ok) && trace[0] == s
    ensures trace[|trace| - 1] == StartEach(s, targets, ok).0 && (n == |targets| <==> StartEach(s, targets, ok).1)
    decreases |targets|
  {
    hide StartOne, StartRound;
    trace, n := [s], 0;
    if targets != [] {
      var (a, good) := StartOne(s, targets[0].0, targets[0].1, ok);
      StartRoundIs(s, targets[0].0, targets[0].1, ok);
      if good {
        var rest, m := StartTrace(a, targets[1..], ok);
        RoundBefore(s, rest, targets[0], targets[1..], m, false, ok);
        assert [targets[0]] + targets[1..] == targets;
        trace, n := [s] + rest, m + 1;
      } else {
        trace := [s, a];
      }
    }
  }

  lemma {:induction false} SuspendTrace(s: Session, targets: seq<(SepId, bool)>, ok: Socket)
    returns (trace: seq<SessionState>, n: nat)
    ensures Rounds(trace, targets, n, true, ok) && trace[0] == s
    ensures trace[|trace| - 1] == SuspendEach(s, targets, ok).0 && (n == |targets| <==> SuspendEach(s, targets, ok).1)
    decreases |targets|
  {
    hide SuspendOne, SuspendRound;
    trace, n := [s], 0;
    if targets != [] {
      var (a, good) := SuspendOne(s, targets[0].0, targets[0].1, ok);
      SuspendRoundIs(s, targets[0].0, targets[0].1, ok);
      if good {
        var rest, m := SuspendTrace(a, targets[1..], ok);
        RoundBefore(s, rest, targets[0], targets[1..], m, true, ok);
        assert [targets[0]] + targets[1..] == targets;
        trace, n := [s] + rest, m + 1;
      } else {
        trace := [s, a];
      }
    }
  }

  /** START and SUSPEND: the rounds, and one answer, an accept exactly if all
      rounds were good. */
  lemma EachCases(s: Session, targets: seq<(SepId, bool)>, suspend: bool, ok: Socket)
    returns (trace: seq<SessionState>, n: nat)
    requires targets != []
    ensures Rounds(trace, targets, n, suspend, ok) && trace[0] == s
    ensures var (s1, good) := Execute(s, if suspend then SuspendThem(targets) else StartThem(targets), ok);
            var a := trace[|trace| - 1];
            Says(a, s1, n == |targets|) && good == ok(a.r.sends)
  {
    hide StartEach, SuspendEach, SendReply, Rounds;
    if suspend {
      trace, n := SuspendTrace(s, targets, ok);
      AnswerIs(SuspendEach(s, targets, ok).0, SuspendEach(s, targets, ok).1, ok);
    } else {
      trace, n := StartTrace(s, targets, ok);
      AnswerIs(StartEach(s, targets, ok).0, StartEach(s, targets, ok).1, ok);
    }
  }

  // -------------------------------------------------------- the next request

  /** The request in service is freed, and the next one is handed to the socket:
      the head of the priority queue if there is one, else that of the other
      queue, with the label of the counter; if it is taken it is in service with
      its timer running, and freed otherwise. */
  ghost predicate Serves(r: RequestState, r1: RequestState, ok: Socket)
  {
    && r.req.Some?
    && var done := r.finished + {r.req.value.id};
       if r.prio == [] && r.queue == [] then r1 == r.(req := None, finished := done)
       else
         var first := r.prio != [];
         var q, good := if first then r.prio[0] else r.queue[0], ok(r.sends);
         r1 == r.(prio := if first then r.prio[1..] else [], queue := if first then r.queue else r.queue[1..],
                  sends := r.sends + 1, transaction := (r.transaction + 1) % 16,
                  tries := r.tries + [Try(q.id, q.signal, r.transaction, if first then FromPrio else FromQueue, good)],
                  req := if good then Some(q.(transaction := r.transaction, armed := true)) else None,
                  finished := if good then done else done + {q.id})
  }

  lemma ProceedServes(s: Session, ok: Socket)
    requires s.r.req.Some?
    ensures var s1 := Proceed(s, ok);
            s1 == s.(r := s1.r, answering := false, spoiled := s1.spoiled) && Serves(s.r, s1.r, ok)
  {
  }

  // ---------------------------------------------------- replies of the peer

  /** The reply is not for the request in service: its label or its signal is
      another one. Nothing happens. */
  lemma OtherReplyCases(s: Session, transaction: nat, signal: Signal, kind: ReplyKind, wellFormed: bool,
                        infos: seq<SeidInfo>, ok: Socket)
    requires !s.answering
    requires s.r.req.None? || s.r.req.value.transaction != transaction || s.r.req.value.signal != signal
    ensures Step(s, ReplyRead(transaction, signal, kind, wellFormed, infos), ok) == s
  {
  }

  /** The reply to the request in service, of the kind given. */
  function ReplyTo(q: Req, kind: ReplyKind, wellFormed: bool, infos: seq<SeidInfo>): Event {
    ReplyRead(q.transaction, q.signal, kind, wellFormed, infos)
  }

  /** Its timer is stopped. */
  ghost predicate Hears(s: SessionState, h: SessionState) {
    && s.r.req.Some? && h == s.(answering := true, spoiled := h.spoiled, r := h.r)
    && h.r == s.r.(req := Some(s.r.req.value.(armed := false)))
  }

  /** And when the reply has been handled, the next request is sent. */
  ghost predicate Then(a: SessionState, s1: SessionState, ok: Socket) {
    s1 == a.(r := s1.r, answering := false, spoiled := s1.spoiled) && Serves(a.r, s1.r, ok)
  }

  /** An accept of a request about a stream. */
  ghost predicate Accepts(h: SessionState, a: SessionState, b: SessionState, q: Req, t: StreamId, ok: Socket)
    requires t in h.objs && h.objs[t].lsep in h.seps
  {
    var e := h.objs[t].lsep;
    match q.signal
    case SetConfiguration => Enters(h, a, e, t, Configured, ok)
    case Open => a == h.(pendingOpen := Some(t))
    case Start => if h.seps[e].state.Streaming? then a == h else Enters(h, a, e, t, Streaming, ok)
    case Suspend => Enters(h, a, e, t, Opened, ok)
    case Close => Enters(h, b, e, t, Closing, ok) && a == b.(objs := b.objs[t := b.objs[t].(io := false)])
    case Abort => Enters(h, b, e, t, Aborting, ok) && Gone(b, a, {t})
    case _ => a == h
  }

  lemma AcceptsIs(h: Session, t: StreamId, ok: Socket) returns (b: Session)
    requires h.r.req.Some? && !h.r.req.value.armed && h.r.req.value.stream == Some(t) && t in h.objs
    ensures h.objs[t].lsep in h.seps
    ensures Accepts(h, StreamAnswered(h, ok), b, h.r.req.value, t, ok)
  {
    hide Enter, Enters, Idled, Gone;
    StreamLinks(h, t);
    var e := h.objs[t].lsep;
    b := h;
    match h.r.req.value.signal
    case SetConfiguration => EnterIs(h, e, Configured, ok);
    case Suspend => EnterIs(h, e, Opened, ok);
    case Start => EnterIs(h, e, Streaming, ok);
    case Close =>
      b := Enter(h, e, Closing, ok);
      EnterIs(h, e, Closing, ok);
    case Abort =>
      b := Enter(h, e, Aborting, ok);
      EnterIs(h, e, Aborting, ok);
      EnterKeeps(h, e, Aborting, ok);
      EnterReq(h, e, Aborting, ok);
      IdledGone(b, e);
    case _ =>
  }

  /** The peer accepts a request about a stream: SET_CONFIGURATION, START and
      SUSPEND put the end point in their state; OPEN makes the stream wait for
      its transport; CLOSE closes the transport; ABORT ends the stream. The next
      request is sent. */
  lemma AcceptCases(s: Session, t: StreamId, wellFormed: bool, infos: seq<SeidInfo>, ok: Socket)
    returns (h: Session, a: Session, b: Session)
    requires !s.answering && s.watching && s.r.req.Some? && s.r.req.value.stream == Some(t)
    ensures Hears(s, h) && t in h.objs && h.objs[t].lsep in h.seps
    ensures Accepts(h, a, b, s.r.req.value, t, ok)
    ensures Then(a, Step(s, ReplyTo(s.r.req.value, Accept, wellFormed, infos), ok), ok)
  {
    hide Proceed, Disarm, StreamAnswered, Accepts;
    AtReply(s);
    StreamsAside(s.r);
    h := Disarm(s, false);
    DisarmIs(s, false);
    a := StreamAnswered(h, ok);
    b := AcceptsIs(h, t, ok);
    SameAccepts(h, a, b, h.r.req.value, s.r.req.value, t, ok);
    ProceedServes(a, ok);
  }

  lemma SameAccepts(h: SessionState, a: SessionState, b: SessionState, q: Req, p: Req, t: StreamId, ok: Socket)
    requires t in h.objs && h.objs[t].lsep in h.seps && Accepts(h, a, b, q, t, ok) && p.signal == q.signal
    ensures Accepts(h, a, b, p, t, ok)
  {
  }

  /** A general reject, a reply of unknown type, or an accept of a request that
      has lost its stream: only the next request is sent. */
  lemma EmptyReplyCases(s: Session, kind: ReplyKind, wellFormed: bool, infos: seq<SeidInfo>, ok: Socket)
    returns (h: Session)
    requires !s.answering && s.watching && s.r.req.Some?
    requires kind.GeneralReject? || kind.UnknownType?
             || (kind.Accept? && s.r.req.value.stream.None? && !IsDiscovery(s.r.req.value))
    ensures Hears(s, h) && Then(h, Step(s, ReplyTo(s.r.req.value, kind, wellFormed, infos), ok), ok)
  {
    hide Proceed;
    AtReply(s);
    h := Disarm(s, IsDiscovery(s.r.req.value));
    ProceedServes(h, ok);
  }

  /** A stream whose START or CLOSE was rejected, if its user hears of it. */
  function Unmarked(o: Stream, signal: Signal, cfm: bool): Stream {
    o.(starting := o.starting && !(signal.Start? && cfm), closeInt := o.closeInt && !(signal.Close? && cfm))
  }

  /** A reject that cannot be read, or of an ABORT, breaks the connection, and so
      does a capability reply that cannot be read. Any other reject of a request
      about a stream takes back its mark of starting or closing, if its user
      hears of it; one of a discovery request ends the discovery. The next
      request is sent. */
  lemma RejectCases(s: Session, wellFormed: bool, infos: seq<SeidInfo>, ok: Socket) returns (h: Session, a: Session)
    requires !s.answering && s.watching && s.r.req.Some?
    ensures Hears(s, h)
    ensures var q, s1 := s.r.req.value, Step(s, ReplyTo(s.r.req.value, Reject, wellFormed, infos), ok);
            if !wellFormed || q.signal.Abort? then Lost(h, s1) && !s1.watching
            else
              && Then(a, s1, ok)
              && if q.signal.Discover? || q.signal.GetCapabilities? || q.signal.GetAllCapabilities? then
                   a == h.(discover := None, spoiled := a.spoiled,
                           fired := if s.discover.Some? && s.discover.value.wanted then s.fired + [s.discover.value.id]
                                    else s.fired)
                 else if q.stream.None? then a == h
                 else
                   && q.stream.value in s.objs && s.objs[q.stream.value].lsep in s.seps
                   && var t := q.stream.value;
                      a == h.(objs := h.objs[t := Unmarked(s.objs[t], q.signal, s.seps[s.objs[t].lsep].cfm)])
  {
    hide Proceed, Lost, Broken, Disarm, Finalize, StreamRejected;
    AtReply(s);
    var q := s.r.req.value;
    h := Disarm(s, IsDiscovery(q));
    DisarmIs(s, IsDiscovery(q));
    a := h;
    if !wellFormed || q.signal.Abort? {
      BrokenIs(h);
    } else if IsDiscovery(q) {
      a := Finalize(h, true);
      FinalizedIs(h);
      ProceedServes(a, ok);
    } else {
      a := StreamRejected(h);
      RejectedIs(h);
      ProceedServes(a, ok);
    }
  }

  lemma DisarmIs(s: Session, refused: bool)
    requires s.r.req.Some? && (IsDiscovery(s.r.req.value) ==> refused)
    ensures Hears(s, Disarm(s, refused))
  {
  }

  lemma RejectedIs(h: Session)
    requires h.r.req.Some? && (h.r.req.value.stream.Some? ==> h.r.req.value.stream.value in h.objs)
    ensures var q, a := h.r.req.value, StreamRejected(h);
            if q.stream.None? then a == h
            else
              && h.objs[q.stream.value].lsep in h.seps
              && var t := q.stream.value;
                 a == h.(objs := h.objs[t := Unmarked(h.objs[t], q.signal, h.seps[h.objs[t].lsep].cfm)])
  {
    hide Steady;
    if h.r.req.value.stream.Some? {
      var t := h.r.req.value.stream.value;
      StreamLinks(h, t);
      SameObject(h.objs, t);
      var cfm := h.seps[h.objs[t].lsep].cfm;
      var o := Unmarked(h.objs[t], h.r.req.value.signal, cfm);
      hide Unmarked;
      UnmarkedIs(h.objs[t], h.r.req.value.signal, cfm);
    }
  }

  lemma UnmarkedIs(o: Stream, signal: Signal, cfm: bool)
    ensures Unmarked(o, signal, cfm) == if signal.Start? && cfm then o.(starting := false)
                                        else if signal.Close? && cfm then o.(closeInt := false) else o
  {
  }

  lemma SameObject(objs: map<StreamId, Stream>, t: StreamId)
    requires t in objs
    ensures objs[t := objs[t]] == objs
  {
  }

  /** An accepted capability reply: the discovery is over, unless the request to
      be sent next asks for capabilities too. */
  lemma CapsCases(s: Session, wellFormed: bool, infos: seq<SeidInfo>, ok: Socket) returns (h: Session, a: Session)
    requires !s.answering && s.watching && s.r.req.Some?
    requires s.r.req.value.signal.GetCapabilities? || s.r.req.value.signal.GetAllCapabilities?
    ensures Hears(s, h)
    ensures var s1 := Step(s, ReplyTo(s.r.req.value, Accept, wellFormed, infos), ok);
            if !wellFormed then Lost(h, s1) && !s1.watching
            else
              var next := if s.r.prio != [] then Some(s.r.prio[0]) else if s.r.queue != [] then Some(s.r.queue[0]) else None;
              var more := next.Some? && (next.value.signal.GetCapabilities? || next.value.signal.GetAllCapabilities?);
              && Then(a, s1, ok)
              && a == if more || s.discover.None? then h.(spoiled := a.spoiled)
                      else h.(spoiled := a.spoiled, discover := None,
                              fired := if s.discover.value.wanted then s.fired + [s.discover.value.id] else s.fired)
  {
    hide Proceed, Lost, Broken, Disarm, CapsAnswered;
    AtReply(s);
    h := Disarm(s, true);
    DisarmIs(s, true);
    a := CapsAnswered(s);
    CapsAre(s);
    BrokenIs(h);
    ProceedServes(a, ok);
  }

  lemma CapsAre(s: Session)
    requires s.r.req.Some? && IsCap(s.r.req.value) && s.r.req.value.armed
    ensures var a := CapsAnswered(s);
            var next := if s.r.prio != [] then Some(s.r.prio[0]) else if s.r.queue != [] then Some(s.r.queue[0]) else None;
            var more := next.Some? && (next.value.signal.GetCapabilities? || next.value.signal.GetAllCapabilities?);
            && a.r == s.r.(req := Some(s.r.req.value.(armed := false)))
            && a == if more || s.discover.None? then s.(r := a.r, answering := true)
                    else s.(r := a.r, answering := true, discover := None,
                            fired := if s.discover.value.wanted then s.fired + [s.discover.value.id] else s.fired)
  {
  }

  // ---------------------------------------------------- an accepted DISCOVER

  /** Entry `i` of a DISCOVER response is asked for its capabilities: it is known,
      or free, or was listed before as free. What is known are the end points
      discovered before, and those of the session's own streams. */
  ghost predicate Chosen(infos: seq<SeidInfo>, i: nat, known: set<nat>) {
    i < |infos|
    && (infos[i].seid in known || exists j :: 0 <= j <= i && infos[j].seid == infos[i].seid && !infos[j].inuse)
  }

  /** The entries chosen, in order. */
  ghost predicate Picks(infos: seq<SeidInfo>, known: set<nat>, picks: seq<nat>) {
    && (forall k :: 0 <= k < |picks| ==> Chosen(infos, picks[k], known))
    && (forall k, l :: 0 <= k < l < |picks| ==> picks[k] < picks[l])
    && (forall i: nat :: Chosen(infos, i, known) ==> i in picks)
  }

  /** One capability request for each, in the same order. */
  ghost predicate AsksFor(infos: seq<SeidInfo>, picks: seq<nat>, added: seq<Req>, made: nat, v13: bool) {
    && |added| == |picks|
    && (forall k :: 0 <= k < |picks| ==>
          && picks[k] < |infos|
          && added[k] == Req(made + k, if v13 then GetAllCapabilities else GetCapabilities, infos[picks[k]].seid, None,
                             0, false, false))
  }

  /** The end points known after it. */
  ghost predicate Learns(infos: seq<SeidInfo>, known: set<nat>, before: set<nat>, after: set<nat>) {
    forall x :: x in after <==> x in before || exists i: nat :: Chosen(infos, i, known) && infos[i].seid == x
  }

  lemma ChosenLater(infos: seq<SeidInfo>, i: nat, known: set<nat>)
    requires infos != []
    ensures var more := if Chosen(infos, 0, known) then known + {infos[0].seid} else known;
            Chosen(infos, i + 1, known) <==> Chosen(infos[1..], i, more)
  {
    var more := if Chosen(infos, 0, known) then known + {infos[0].seid} else known;
    var rest := infos[1..];
    if Chosen(infos, i + 1, known) && infos[i + 1].seid !in known {
      var j :| 0 <= j <= i + 1 && infos[j].seid == infos[i + 1].seid && !infos[j].inuse;
      if j > 0 { assert rest[j - 1] == infos[j]; }
    }
    if Chosen(rest, i, more) && rest[i].seid !in more {
      var j :| 0 <= j <= i && rest[j].seid == rest[i].seid && !rest[j].inuse;
      assert infos[j + 1] == rest[j];
    }
  }

  function Later(picks: seq<nat>): (later: seq<nat>)
    ensures |later| == |picks| && forall k :: 0 <= k < |picks| ==> later[k] == picks[k] + 1
  {
    seq(|picks|, k requires 0 <= k < |picks| => picks[k] + 1)
  }

  lemma PicksMore(infos: seq<SeidInfo>, known: set<nat>, picks: seq<nat>)
    requires infos != []
    requires Picks(infos[1..], if Chosen(infos, 0, known) then known + {infos[0].seid} else known, picks)
    ensures Picks(infos, known, if Chosen(infos, 0, known) then [0] + Later(picks) else Later(picks))
  {
    hide Chosen, Later;
    var more := if Chosen(infos, 0, known) then known + {infos[0].seid} else known;
    var later := Later(picks);
    var all := if Chosen(infos, 0, known) then [0] + later else later;
    forall k | 0 <= k < |all| ensures Chosen(infos, all[k], known) {
      var n := if Chosen(infos, 0, known) then k - 1 else k;
      if n >= 0 {
        assert all[k] == later[n] && Chosen(infos[1..], picks[n], more);
        ChosenLater(infos, picks[n], known);
      }
    }
    forall i: nat | Chosen(infos, i, known) ensures i in all {
      if i > 0 {
        ChosenLater(infos, i - 1, known);
        LaterHas(picks, i - 1);
      }
    }
  }

  lemma LaterHas(picks: seq<nat>, i: nat)
    requires i in picks
    ensures i + 1 in Later(picks)
  {
    var k :| 0 <= k < |picks| && picks[k] == i;
    assert Later(picks)[k] == i + 1;
  }

  lemma {:induction false} AskedIs(r: Requests, remote: set<nat>, mine: set<nat>, infos: seq<SeidInfo>, v13: bool)
    returns (picks: seq<nat>, added: seq<Req>)
    requires r.req.Some? && r.req.value.signal.Discover? && !r.req.value.armed && CapsLast(r.prio)
    ensures var (r1, remote1) := AskCaps(r, remote, mine, infos, v13);
            && Picks(infos, remote + mine, picks) && AsksFor(infos, picks, added, r.made, v13)
            && r1 == r.(prio := r.prio + added, made := r.made + |added|)
            && Learns(infos, remote + mine, remote, remote1)
    decreases |infos|
  {
    hide Picks, AsksFor, Learns;
    if infos == [] {
      picks, added := [], [];
      NoneAsked(remote + mine, remote, r.made, v13);
      assert r.prio + [] == r.prio;
    } else {
      FirstChosen(infos, remote, mine);
      var rest := infos[1..];
      var more := if Chosen(infos, 0, remote + mine) then remote + mine + {infos[0].seid} else remote + mine;
      if Chosen(infos, 0, remote + mine) {
        var signal := if v13 then GetAllCapabilities else GetCapabilities;
        var q := NewReq(r, None, signal, infos[0].seid);
        var r1 := SendCap(r, signal, infos[0].seid);
        var p, a := AskedIs(r1, remote + {infos[0].seid}, mine, rest, v13);
        assert remote + {infos[0].seid} + mine == more;
        PicksMore(infos, remote + mine, p);
        picks, added := [0] + Later(p), [q] + a;
        MoreAsked(infos, p, a, r.made, v13);
        LearnsFirst(infos, remote + mine, remote, AskCaps(r1, remote + {infos[0].seid}, mine, rest, v13).1);
        assert (r.prio + [q]) + a == r.prio + ([q] + a);
      } else {
        var p, a := AskedIs(r, remote, mine, rest, v13);
        PicksMore(infos, remote + mine, p);
        picks, added := Later(p), a;
        SameAsked(infos, p, a, r.made, v13);
        LearnsLater(infos, remote + mine, remote, AskCaps(r, remote, mine, rest, v13).1);
      }
    }
  }

  lemma FirstChosen(infos: seq<SeidInfo>, remote: set<nat>, mine: set<nat>)
    requires infos != []
    ensures Chosen(infos, 0, remote + mine) <==> infos[0].seid in remote || !infos[0].inuse || infos[0].seid in mine
  {
  }

  lemma NoneAsked(known: set<nat>, remote: set<nat>, made: nat, v13: bool)
    ensures Picks([], known, []) && AsksFor([], [], [], made, v13) && Learns([], known, remote, remote)
  {
  }

  lemma MoreAsked(infos: seq<SeidInfo>, picks: seq<nat>, added: seq<Req>, made: nat, v13: bool)
    requires infos != [] && AsksFor(infos[1..], picks, added, made + 1, v13)
    ensures AsksFor(infos, [0] + Later(picks),
                    [Req(made, if v13 then GetAllCapabilities else GetCapabilities, infos[0].seid, None, 0, false, false)]
                    + added, made, v13)
  {
  }

  lemma SameAsked(infos: seq<SeidInfo>, picks: seq<nat>, added: seq<Req>, made: nat, v13: bool)
    requires infos != [] && AsksFor(infos[1..], picks, added, made, v13)
    ensures AsksFor(infos, Later(picks), added, made, v13)
  {
  }

  lemma LearnsFirst(infos: seq<SeidInfo>, known: set<nat>, before: set<nat>, after: set<nat>)
    requires infos != [] && Chosen(infos, 0, known)
    requires Learns(infos[1..], known + {infos[0].seid}, before + {infos[0].seid}, after)
    ensures Learns(infos, known, before, after)
  {
    forall x ensures x in after <==> x in before || exists i: nat :: Chosen(infos, i, known) && infos[i].seid == x {
      LearnsOne(infos, known, known + {infos[0].seid}, x);
    }
  }

  lemma LearnsLater(infos: seq<SeidInfo>, known: set<nat>, before: set<nat>, after: set<nat>)
    requires infos != [] && !Chosen(infos, 0, known) && Learns(infos[1..], known, before, after)
    ensures Learns(infos, known, before, after)
  {
    forall x ensures x in after <==> x in before || exists i: nat :: Chosen(infos, i, known) && infos[i].seid == x {
      LearnsOne(infos, known, known, x);
    }
  }

  /** A chosen entry is the first, or one of the rest. */
  lemma LearnsOne(infos: seq<SeidInfo>, known: set<nat>, more: set<nat>, x: nat)
    requires infos != [] && more == if Chosen(infos, 0, known) then known + {infos[0].seid} else known
    ensures (exists i: nat :: Chosen(infos, i, known) && infos[i].seid == x)
            <==> (Chosen(infos, 0, known) && infos[0].seid == x)
                 || exists i: nat :: Chosen(infos[1..], i, more) && infos[1..][i].seid == x
  {
    hide Chosen;
    forall i: nat ensures Chosen(infos, i + 1, known) <==> Chosen(infos[1..], i, more) { ChosenLater(infos, i, known); }
    ChosenIn(infos, known);
    ChosenIn(infos[1..], more);
    if i: nat :| Chosen(infos, i, known) && infos[i].seid == x && i > 0 {
      assert Chosen(infos[1..], i - 1, more) && infos[1..][i - 1] == infos[i];
    }
    if i: nat :| Chosen(infos[1..], i, more) && infos[1..][i].seid == x {
      assert Chosen(infos, i + 1, known) && infos[i + 1] == infos[1..][i];
    }
  }

  lemma ChosenIn(infos: seq<SeidInfo>, known: set<nat>)
    ensures forall i: nat :: Chosen(infos, i, known) ==> i < |infos|
  {
  }

  /** The peer accepts a DISCOVER: the priority queue grows by one capability
      request for each entry chosen, in order, and by nothing else; the end points
      chosen are known then; and if none was chosen the discovery is over. The
      next request is sent. */
  lemma DiscoverReplyCases(s: Session, wellFormed: bool, infos: seq<SeidInfo>, ok: Socket)
    returns (h: Session, a: Session, picks: seq<nat>, added: seq<Req>)
    requires !s.answering && s.watching && s.r.req.Some? && s.r.req.value.signal.Discover?
    ensures Hears(s, h) && Then(a, Step(s, ReplyTo(s.r.req.value, Accept, wellFormed, infos), ok), ok)
    ensures var known := s.remote + set t | t in s.objs :: s.objs[t].rseid;
            && Picks(infos, known, picks) && AsksFor(infos, picks, added, s.r.made, s.v13)
            && Learns(infos, known, s.remote, a.remote)
            && a.r == h.r.(prio := s.r.prio + added, made := s.r.made + |added|)
            && a == if added != [] || s.discover.None? then h.(r := a.r, remote := a.remote, spoiled := a.spoiled)
                    else h.(r := a.r, remote := a.remote, spoiled := a.spoiled, discover := None,
                            fired := if s.discover.value.wanted then s.fired + [s.discover.value.id] else s.fired)
  {
    hide Proceed, Disarm, DiscoverAnswered, Picks, AsksFor, Learns, AskCaps;
    AtReply(s);
    h := Disarm(s, true);
    DisarmIs(s, true);
    NoCapsWaiting(s.r);
    UnarmedIs(s.r);
    picks, added := AskedIs(Unarmed(s.r), s.remote, Mine(s), infos, s.v13);
    assert Mine(s) == set t | t in s.objs :: s.objs[t].rseid;
    a := DiscoverAnswered(s, infos);
    AnsweredDiscover(s, infos);
    CountAdded(infos, picks, added, s.r.made, s.v13);
    ProceedServes(a, ok);
  }

  lemma CountAdded(infos: seq<SeidInfo>, picks: seq<nat>, added: seq<Req>, made: nat, v13: bool)
    ensures added == [] <==> made + |added| == made
  {
  }

  lemma UnarmedIs(r: Requests)
    requires r.req.Some?
    ensures Unarmed(r) == r.(req := Some(r.req.value.(armed := false)))
  {
  }

  lemma AnsweredDiscover(s: Session, infos: seq<SeidInfo>)
    requires s.r.req.Some? && s.r.req.value.signal.Discover? && s.r.req.value.armed && CapsLast(s.r.prio)
    ensures var a := DiscoverAnswered(s, infos);
            var (r1, remote1) := AskCaps(Unarmed(s.r), s.remote, Mine(s), infos, s.v13);
            && a.r == r1 && a.remote == remote1
            && a == if r1.made != s.r.made || s.discover.None?
                    then s.(r := a.r, remote := a.remote, answering := true)
                    else s.(r := a.r, remote := a.remote, answering := true, discover := None,
                            fired := if s.discover.value.wanted then s.fired + [s.discover.value.id] else s.fired)
  {
    hide AskCaps;
  }
}
