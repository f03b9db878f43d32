/** Which request is sent next, on every event: the queues are served by nothing
    but the end of the request in service, the priority queue first. */
module AvdtpServing {
  import opened Common
  import opened AvdtpRequests
  import opened AvdtpSession
  import opened AvdtpEvents
  import opened AvdtpProcedures
  import opened AvdtpEffects
  import opened AvdtpAnswers

  /** Nothing was sent, or one request that waited in no queue. */
  ghost predicate DirectOnly(r: RequestState, r1: RequestState) {
    || r1.tries == r.tries
    || (|r1.tries| == |r.tries| + 1 && r1.tries[..|r.tries|] == r.tries && r1.tries[|r.tries|].via.Direct?)
  }

  /** The queues have changed only by requests made since, which wait at their
      ends, and by those of streams that have gone. */
  ghost predicate Queues(s: SessionState, a: SessionState, added: seq<Req>, later: seq<Req>) {
    var gone := s.objs.Keys - a.objs.Keys;
    && a.r.prio == Left(s.r.prio, gone) + added && a.r.queue == Left(s.r.queue, gone) + later
    && (forall x :: x in added || x in later ==> x.id >= s.r.made)
    && DirectOnly(s.r, a.r)
  }

  lemma AsksDirect(r: RequestState, r1: RequestState, a: Ask, ok: Socket)
    requires Asks(r, r1, a, ok)
    ensures DirectOnly(r, r1)
  {
  }

  // --------------------------------------- what a reply or a command leaves

  /** No stream has gone, and nothing has been asked for. */
  lemma SameQueues(s: SessionState, a: SessionState)
    requires a.r.prio == s.r.prio && a.r.queue == s.r.queue && a.r.tries == s.r.tries && s.objs.Keys <= a.objs.Keys
    ensures Queues(s, a, [], [])
  {
    assert s.objs.Keys - a.objs.Keys == {};
    LeftNone(s.r.prio);
    LeftNone(s.r.queue);
    assert s.r.prio + [] == s.r.prio && s.r.queue + [] == s.r.queue;
  }

  /** One request has been made with priority. */
  lemma MoreQueues(s: SessionState, a: SessionState, q: Ask, ok: Socket) returns (added: seq<Req>)
    requires Asks(s.r, a.r, q, ok) && q.priority && s.objs.Keys <= a.objs.Keys
    ensures Queues(s, a, added, [])
  {
    assert s.objs.Keys - a.objs.Keys == {};
    LeftNone(s.r.prio);
    LeftNone(s.r.queue);
    AsksDirect(s.r, a.r, q, ok);
    added := if s.r.req.Some? then [Req(s.r.made, q.signal, q.seid, q.stream, 0, false, false)] else [];
    assert s.r.prio + [] == s.r.prio && s.r.queue + [] == s.r.queue;
  }

  lemma EntersQueues(s: SessionState, a: SessionState, e: SepId, t: StreamId, state: SepState, ok: Socket)
    returns (added: seq<Req>)
    requires Enters(s, a, e, t, state, ok)
    ensures Queues(s, a, added, [])
  {
    hide Asks, Queues;
    assert a.objs.Keys == s.objs.Keys;
    added := [];
    if a.r == s.r {
      SameQueues(s, a);
    } else {
      added := MoreQueues(s, a, Ask(true, DelayReport, s.objs[t].rseid, Some(t)), ok);
    }
  }

  lemma EntersObjs(s: SessionState, a: SessionState, e: SepId, t: StreamId, state: SepState, ok: Socket)
    requires Enters(s, a, e, t, state, ok)
    ensures a.objs.Keys == s.objs.Keys
  {
  }

  /** After what has only other requests. */
  lemma QueuesFrom(s: SessionState, h: SessionState, a: SessionState, added: seq<Req>, later: seq<Req>)
    requires Queues(h, a, added, later) && h.objs == s.objs
    requires h.r.prio == s.r.prio && h.r.queue == s.r.queue && h.r.tries == s.r.tries && h.r.made == s.r.made
    ensures Queues(s, a, added, later)
  {
  }

  /** After an accepted reply about a stream. */
  lemma AcceptQueues(h: SessionState, a: SessionState, b: SessionState, q: Req, t: StreamId, ok: Socket)
    returns (added: seq<Req>)
    requires t in h.objs && h.objs[t].lsep in h.seps && Accepts(h, a, b, q, t, ok)
    ensures Queues(h, a, added, [])
  {
    hide Enters, EntersWith, Queues, Gone, Left;
    var e := h.objs[t].lsep;
    added := [];
    match q.signal
    case SetConfiguration => added := EntersQueues(h, a, e, t, Configured, ok);
    case Start =>
      if h.seps[e].state.Streaming? { UntouchedQueues(h, a); } else { added := EntersQueues(h, a, e, t, Streaming, ok); }
    case Suspend => added := EntersQueues(h, a, e, t, Opened, ok);
    case Close => CloseQueues(h, b, a, e, t, ok);
    case Abort =>
      ClosingSame(h, b, e, t, Aborting, ok);
      GoneQueues(h, b, a, t);
    case _ => UntouchedQueues(h, a);
  }

  lemma UntouchedQueues(h: SessionState, a: SessionState)
    requires a.r == h.r && a.objs == h.objs
    ensures Queues(h, a, [], [])
  {
    hide Queues;
    SameQueues(h, a);
  }

  lemma CloseQueues(h: SessionState, b: SessionState, a: SessionState, e: SepId, t: StreamId, ok: Socket)
    requires Enters(h, b, e, t, Closing, ok)
    requires t in b.objs ==> a == b.(objs := b.objs[t := b.objs[t].(io := false)])
    ensures Queues(h, a, [], [])
  {
    hide Queues, Enters;
    ClosingSame(h, b, e, t, Closing, ok);
    SameQueues(h, b);
    ObjsQueues(h, b, a);
  }

  lemma ClosingSame(h: SessionState, b: SessionState, e: SepId, t: StreamId, state: SepState, ok: Socket)
    requires Enters(h, b, e, t, state, ok) && !state.Configured?
    ensures b.r == h.r && b.objs.Keys == h.objs.Keys && t in b.objs
  {
  }

  lemma ObjsQueues(h: SessionState, b: SessionState, a: SessionState)
    requires Queues(h, b, [], []) && a.r == b.r && a.objs.Keys == b.objs.Keys
    ensures Queues(h, a, [], [])
  {
  }

  lemma GoneQueues(h: SessionState, b: SessionState, a: SessionState, t: StreamId)
    requires b.r == h.r && b.objs.Keys == h.objs.Keys && t in b.objs && Gone(b, a, {t})
    ensures Queues(h, a, [], [])
  {
    assert h.objs.Keys - a.objs.Keys == {t};
    assert a.r.prio + [] == a.r.prio && a.r.queue + [] == a.r.queue;
  }

  // ------------------------------------------------------------- what is next

  /** What was sent last was taken from a queue: the head of the priority queue,
      if any request that waited there is left, or one asked for since; or, if
      none waited there at all, the head of the other one. */
  ghost predicate InTurn(s: SessionState, s1: SessionState) {
    var gone := s.objs.Keys - s1.objs.Keys;
    var prio, queue := Left(s.r.prio, gone), Left(s.r.queue, gone);
    && s1.r.tries != []
    && var x := s1.r.tries[|s1.r.tries| - 1];
       || (x.via.FromPrio? && (if prio != [] then x.id == prio[0].id else x.id >= s.r.made))
       || (x.via.FromQueue? && prio == [] && s1.r.prio == []
           && (if queue != [] then x.id == queue[0].id else x.id >= s.r.made))
  }

  /** All but the last of the new tries are of requests that waited nowhere. */
  ghost predicate OneAtMost(r: RequestState, r1: RequestState) {
    forall i :: |r.tries| <= i < |r1.tries| - 1 ==> r1.tries[i].via.Direct?
  }

  lemma ServesInTurn(s: SessionState, a: SessionState, s1: SessionState, added: seq<Req>, later: seq<Req>, ok: Socket)
    requires Queues(s, a, added, later) && Serves(a.r, s1.r, ok) && s1.objs == a.objs
    ensures OneAtMost(s.r, s1.r)
    ensures if a.r.prio == [] && a.r.queue == [] then DirectOnly(s.r, s1.r)
            else InTurn(s, s1) && |s1.r.tries| == |a.r.tries| + 1
  {
    hide Left;
    if a.r.prio != [] {
      assert a.r.prio[0] in a.r.prio;
    } else if a.r.queue != [] {
      assert a.r.queue[0] in a.r.queue;
    }
  }

  /** What holds of every event. */
  ghost predicate Fair(s: SessionState, s1: SessionState) {
    OneAtMost(s.r, s1.r) && (DirectOnly(s.r, s1.r) || InTurn(s, s1))
  }

  lemma DirectFair(s: SessionState, s1: SessionState)
    requires DirectOnly(s.r, s1.r)
    ensures Fair(s, s1)
  {
  }

  lemma LostFair(s: SessionState, a: SessionState, s1: SessionState)
    requires DirectOnly(s.r, a.r) && Lost(a, s1)
    ensures Fair(s, s1)
  {
  }

  // ------------------------------------------------------------------ replies

  /** The request that waits longest is sent next. When a reply to the request in
      service has been handled, and the connection lasts, that request is freed;
      what waits with priority is what waited, but for the requests of a stream
      that has gone, and behind it what the reply itself has led to; and the head
      of that is handed to the socket, or if there is none the head of the other
      queue, or nothing if there is none there either. */
  lemma NextServed(s: Session, kind: ReplyKind, wellFormed: bool, infos: seq<SeidInfo>, ok: Socket)
    returns (added: seq<Req>)
    requires !s.answering && s.watching && s.r.req.Some?
    ensures var s1 := Step(s, ReplyTo(s.r.req.value, kind, wellFormed, infos), ok);
            s1.losses == s.losses ==>
              var gone := s.objs.Keys - s1.objs.Keys;
              var prio, queue := Left(s.r.prio, gone) + added, Left(s.r.queue, gone);
              && (forall x :: x in added ==> x.id >= s.r.made)
              && s.r.req.value.id in s1.r.finished
              && if prio == [] && queue == [] then s1.r.tries == s.r.tries && s1.r.req.None?
                 else
                   var q := if prio != [] then prio[0] else queue[0];
                   && s1.r.tries == s.r.tries + [Try(q.id, q.signal, s.r.transaction,
                                                     if prio != [] then FromPrio else FromQueue, ok(s.r.sends))]
                   && s1.r.prio == (if prio != [] then prio[1..] else []) && s1.r.queue == (if prio != [] then queue else queue[1..])
                   && s1.r.req == if ok(s.r.sends) then Some(q.(transaction := s.r.transaction, armed := true)) else None
  {
    var a;
    a, added := ReplyMiddle(s, kind, wellFormed, infos, ok);
    hide Step, Left, Hears;
    var s1 := Step(s, ReplyTo(s.r.req.value, kind, wellFormed, infos), ok);
    if s1.losses == s.losses { MiddleServed(s, a, s1, added, ok); }
  }

  lemma MiddleServed(s: SessionState, a: SessionState, s1: SessionState, added: seq<Req>, ok: Socket)
    requires s.r.req.Some? && Middle(s, a, added) && Then(a, s1, ok)
    ensures var gone := s.objs.Keys - s1.objs.Keys;
            var prio, queue := Left(s.r.prio, gone) + added, Left(s.r.queue, gone);
            && (forall x :: x in added ==> x.id >= s.r.made)
            && s.r.req.value.id in s1.r.finished
            && if prio == [] && queue == [] then s1.r.tries == s.r.tries && s1.r.req.None?
               else
                 var q := if prio != [] then prio[0] else queue[0];
                 && s1.r.tries == s.r.tries + [Try(q.id, q.signal, s.r.transaction,
                                                   if prio != [] then FromPrio else FromQueue, ok(s.r.sends))]
                 && s1.r.prio == (if prio != [] then prio[1..] else []) && s1.r.queue == (if prio != [] then queue else queue[1..])
                 && s1.r.req == if ok(s.r.sends) then Some(q.(transaction := s.r.transaction, armed := true)) else None
  {
    hide Left;
    assert a.r.queue + [] == a.r.queue;
  }

  /** The session when a reply has been handled, before the next request. */
  ghost predicate Middle(s: SessionState, a: SessionState, added: seq<Req>) {
    && s.r.req.Some? && a.r.req.Some? && a.r.req.value.id == s.r.req.value.id
    && a.r.tries == s.r.tries && a.r.sends == s.r.sends && a.r.transaction == s.r.transaction
    && Queues(s, a, added, [])
  }

  lemma MiddleFrom(s: SessionState, h: SessionState, a: SessionState, added: seq<Req>)
    requires Hears(s, h) && Queues(h, a, added, []) && a.r.req == h.r.req
    requires a.r.tries == h.r.tries && a.r.sends == h.r.sends && a.r.transaction == h.r.transaction
    ensures Middle(s, a, added)
  {
    hide Left;
    QueuesFrom(s, h, a, added, []);
  }

  lemma ReplyMiddle(s: Session, kind: ReplyKind, wellFormed: bool, infos: seq<SeidInfo>, ok: Socket)
    returns (a: SessionState, added: seq<Req>)
    requires !s.answering && s.watching && s.r.req.Some?
    ensures var s1 := Step(s, ReplyTo(s.r.req.value, kind, wellFormed, infos), ok);
            (s1.losses == s.losses && Middle(s, a, added) && Then(a, s1, ok))
            || exists h :: Hears(s, h) && Lost(h, s1)
  {
    hide Step, Hears, Then, Middle, Lost, Accepts;
    added := [];
    a := s;
    var q := s.r.req.value;
    if kind.Reject? {
      a := RejectMiddle(s, wellFormed, infos, ok);
    } else if kind.Accept? && (q.signal.GetCapabilities? || q.signal.GetAllCapabilities?) {
      a := CapsMiddle(s, wellFormed, infos, ok);
    } else if kind.Accept? && q.signal.Discover? {
      a, added := DiscoverMiddle(s, wellFormed, infos, ok);
    } else if kind.Accept? && q.stream.Some? {
      a, added := AcceptMiddle(s, q.stream.value, wellFormed, infos, ok);
    } else {
      a := EmptyMiddle(s, kind, wellFormed, infos, ok);
    }
  }

  lemma EmptyMiddle(s: Session, kind: ReplyKind, wellFormed: bool, infos: seq<SeidInfo>, ok: Socket) returns (a: SessionState)
    requires !s.answering && s.watching && s.r.req.Some?
    requires kind.GeneralReject? || kind.UnknownType?
             || (kind.Accept? && s.r.req.value.stream.None? && !IsDiscovery(s.r.req.value))
    ensures var s1 := Step(s, ReplyTo(s.r.req.value, kind, wellFormed, infos), ok);
            s1.losses == s.losses && Middle(s, a, []) && Then(a, s1, ok)
  {
    hide Step, Queues;
    a := EmptyReplyCases(s, kind, wellFormed, infos, ok);
    SameQueues(s, a);
  }

  lemma RejectMiddle(s: Session, wellFormed: bool, infos: seq<SeidInfo>, ok: Socket) returns (a: SessionState)
    requires !s.answering && s.watching && s.r.req.Some?
    ensures var s1 := Step(s, ReplyTo(s.r.req.value, Reject, wellFormed, infos), ok);
            (s1.losses == s.losses && Middle(s, a, []) && Then(a, s1, ok)) || exists h :: Hears(s, h) && Lost(h, s1)
  {
    hide Step, Queues, Lost, Serves, Unmarked;
    var h;
    h, a := RejectCases(s, wellFormed, infos, ok);
    if wellFormed && !s.r.req.value.signal.Abort? {
      assert s.objs.Keys <= a.objs.Keys;
      SameQueues(s, a);
    }
  }

  lemma CapsMiddle(s: Session, wellFormed: bool, infos: seq<SeidInfo>, ok: Socket) returns (a: SessionState)
    requires !s.answering && s.watching && s.r.req.Some?
    requires s.r.req.value.signal.GetCapabilities? || s.r.req.value.signal.GetAllCapabilities?
    ensures var s1 := Step(s, ReplyTo(s.r.req.value, Accept, wellFormed, infos), ok);
            (s1.losses == s.losses && Middle(s, a, []) && Then(a, s1, ok)) || exists h :: Hears(s, h) && Lost(h, s1)
  {
    hide Step, Queues, Lost, Serves;
    var h;
    h, a := CapsCases(s, wellFormed, infos, ok);
    if wellFormed { SameQueues(s, a); }
  }

  lemma DiscoverMiddle(s: Session, wellFormed: bool, infos: seq<SeidInfo>, ok: Socket)
    returns (a: SessionState, added: seq<Req>)
    requires !s.answering && s.watching && s.r.req.Some? && s.r.req.value.signal.Discover?
    ensures var s1 := Step(s, ReplyTo(s.r.req.value, Accept, wellFormed, infos), ok);
            s1.losses == s.losses && Middle(s, a, added) && Then(a, s1, ok)
  {
    hide Step, Picks, Learns, Serves, Chosen;
    var h, picks;
    h, a, picks, added := DiscoverReplyCases(s, wellFormed, infos, ok);
    assert s.objs.Keys - a.objs.Keys == {};
    LeftNone(s.r.prio);
    LeftNone(s.r.queue);
    assert s.r.queue + [] == s.r.queue;
  }

  lemma AcceptMiddle(s: Session, t: StreamId, wellFormed: bool, infos: seq<SeidInfo>, ok: Socket)
    returns (a: SessionState, added: seq<Req>)
    requires !s.answering && s.watching && s.r.req.Some? && s.r.req.value.stream == Some(t)
    ensures var s1 := Step(s, ReplyTo(s.r.req.value, Accept, wellFormed, infos), ok);
            s1.losses == s.losses && Middle(s, a, added) && Then(a, s1, ok)
  {
    hide Step, Queues, Accepts, Serves;
    var h, b;
    h, a, b := AcceptCases(s, t, wellFormed, infos, ok);
    added := AcceptQueues(h, a, b, s.r.req.value, t, ok);
    AcceptRest(h, a, b, s.r.req.value, t, ok);
    MiddleFrom(s, h, a, added);
  }

  lemma AcceptRest(h: SessionState, a: SessionState, b: SessionState, q: Req, t: StreamId, ok: Socket)
    requires t in h.objs && h.objs[t].lsep in h.seps && Accepts(h, a, b, q, t, ok) && h.r.req.Some? && !h.r.req.value.armed
    ensures a.r.req == h.r.req && a.r.tries == h.r.tries && a.r.sends == h.r.sends && a.r.transaction == h.r.transaction
    ensures a.losses == h.losses
  {
    hide Enters, Gone;
    var e := h.objs[t].lsep;
    match q.signal
    case SetConfiguration => EntersRest(h, a, e, t, Configured, ok);
    case Start => if !h.seps[e].state.Streaming? { EntersRest(h, a, e, t, Streaming, ok); }
    case Suspend => EntersRest(h, a, e, t, Opened, ok);
    case Close => EntersRest(h, b, e, t, Closing, ok);
    case Abort =>
      EntersRest(h, b, e, t, Aborting, ok);
      GoneRest(b, a, {t});
    case _ =>
  }

  lemma EntersRest(h: SessionState, b: SessionState, e: SepId, t: StreamId, state: SepState, ok: Socket)
    requires Enters(h, b, e, t, state, ok) && h.r.req.Some?
    ensures b.r.req == h.r.req && b.r.tries == h.r.tries && b.r.sends == h.r.sends && b.r.transaction == h.r.transaction
    ensures b.losses == h.losses
  {
  }

  lemma GoneRest(b: SessionState, a: SessionState, gone: set<StreamId>)
    requires Gone(b, a, gone) && b.r.req.Some? && !b.r.req.value.armed
    ensures a.r.req == b.r.req && a.r.tries == b.r.tries && a.r.sends == b.r.sends && a.r.transaction == b.r.transaction
    ensures a.losses == b.losses
  {
    hide Left;
  }

  lemma ReplyFair(s: Session, transaction: nat, signal: Signal, kind: ReplyKind, wellFormed: bool, infos: seq<SeidInfo>,
                  ok: Socket)
    requires !s.answering && s.watching
    ensures Fair(s, Step(s, ReplyRead(transaction, signal, kind, wellFormed, infos), ok))
  {
    hide Step, Fair, Queues, Lost, Hears, Serves;
    if s.r.req.None? || s.r.req.value.transaction != transaction || s.r.req.value.signal != signal {
      OtherReplyCases(s, transaction, signal, kind, wellFormed, infos, ok);
      DirectFair(s, s);
    } else {
      var s1 := Step(s, ReplyTo(s.r.req.value, kind, wellFormed, infos), ok);
      var a, added := ReplyMiddle(s, kind, wellFormed, infos, ok);
      if s1.losses == s.losses && Middle(s, a, added) && Then(a, s1, ok) {
        ServesFair(s, a, s1, added, ok);
      } else {
        var h :| Hears(s, h) && Lost(h, s1);
        HearsDirect(s, h);
        LostFair(s, h, s1);
      }
    }
  }

  lemma HearsDirect(s: SessionState, h: SessionState)
    requires Hears(s, h)
    ensures DirectOnly(s.r, h.r)
  {
  }

  lemma ServesFair(s: SessionState, a: SessionState, s1: SessionState, added: seq<Req>, ok: Socket)
    requires Queues(s, a, added, []) && Serves(a.r, s1.r, ok) && s1.objs == a.objs
    ensures Fair(s, s1)
  {
    hide Queues, Serves, InTurn;
    ServesInTurn(s, a, s1, added, [], ok);
  }

  // ----------------------------------------------------------------- commands

  lemma RoundQueues(s: Session, e: SepId, accept: bool, ok: Socket)
    ensures var a := StartOne(s, e, accept, ok).0; a.r.prio == s.r.prio && a.r.queue == s.r.queue && a.r.tries == s.r.tries
    ensures var a := SuspendOne(s, e, accept, ok).0; a.r.prio == s.r.prio && a.r.queue == s.r.queue && a.r.tries == s.r.tries
    ensures StartOne(s, e, accept, ok).0.objs.Keys == s.objs.Keys == SuspendOne(s, e, accept, ok).0.objs.Keys
  {
    hide StartOne, SuspendOne;
    StartRoundIs(s, e, accept, ok);
    SuspendRoundIs(s, e, accept, ok);
  }

  lemma {:induction false} EachQueues(s: Session, targets: seq<(SepId, bool)>, ok: Socket)
    ensures var a := StartEach(s, targets, ok).0;
            a.r.prio == s.r.prio && a.r.queue == s.r.queue && a.r.tries == s.r.tries && a.objs.Keys == s.objs.Keys
    ensures var a := SuspendEach(s, targets, ok).0;
            a.r.prio == s.r.prio && a.r.queue == s.r.queue && a.r.tries == s.r.tries && a.objs.Keys == s.objs.Keys
    decreases |targets|
  {
    hide StartOne, SuspendOne;
    if targets != [] {
      RoundQueues(s, targets[0].0, targets[0].1, ok);
      EachQueues(StartOne(s, targets[0].0, targets[0].1, ok).0, targets[1..], ok);
      EachQueues(SuspendOne(s, targets[0].0, targets[0].1, ok).0, targets[1..], ok);
    }
  }

  lemma AnswersSame(r: RequestState, r1: RequestState, command: Signal, rseid: nat)
    ensures Answers(r, r1) || Answers(Marks(r, command, rseid), r1)
            ==> r1.prio == r.prio && r1.queue == r.queue && r1.tries == r.tries
  {
  }

  /** What a command leaves. */
  lemma CommandQueues(s: Session, c: Command, ok: Socket) returns (added: seq<Req>)
    ensures Queues(s, Execute(s, c, ok).0, added, [])
  {
    hide Execute, Queues, Answers, Enters, EntersWith;
    added := [];
    var a := Execute(s, c, ok).0;
    match c
    case Plain(_, _) => RefusedQueues(s, c, ok);
    case StartThem(targets) => if targets == [] { RefusedQueues(s, c, ok); } else { EachLeaves(s, targets, false, ok); }
    case SuspendThem(targets) => if targets == [] { RefusedQueues(s, c, ok); } else { EachLeaves(s, targets, true, ok); }
    case OpenIt(short, e, accept) =>
      if short || e !in s.seps || !s.seps[e].state.Configured? || (s.seps[e].ind && !accept) { RefusedQueues(s, c, ok); }
      else { OpenItQueues(s, e, accept, ok); }
    case CloseIt(short, e, accept) =>
      if short || e !in s.seps || s.seps[e].stream.None? || (s.seps[e].ind && !accept)
         || (!s.seps[e].state.Opened? && !s.seps[e].state.Streaming?)
      { RefusedQueues(s, c, ok); } else { CloseItQueues(s, e, accept, ok); }
    case AbortIt(short, e) =>
      if short || e !in s.seps || s.seps[e].stream.None? { RefusedQueues(s, c, ok); } else { AbortItQueues(s, e, ok); }
    case ConfigureIt(short, e, rseid, bad, delay, verdict) =>
      if short || e !in s.seps || s.seps[e].stream.Some? || bad { RefusedQueues(s, c, ok); }
      else { added := ConfigureItQueues(s, e, rseid, delay, verdict, ok); }
  }

  lemma RefusedQueues(s: Session, c: Command, ok: Socket)
    requires match c
             case Plain(_, _) => true
             case ConfigureIt(short, e, _, bad, _, _) => short || e !in s.seps || s.seps[e].stream.Some? || bad
             case OpenIt(short, e, accept) => short || e !in s.seps || !s.seps[e].state.Configured? || (s.seps[e].ind && !accept)
             case StartThem(targets) => targets == []
             case SuspendThem(targets) => targets == []
             case CloseIt(short, e, accept) =>
               || short || e !in s.seps || s.seps[e].stream.None? || (s.seps[e].ind && !accept)
               || (!s.seps[e].state.Opened? && !s.seps[e].state.Streaming?)
             case AbortIt(short, e) => short || e !in s.seps || s.seps[e].stream.None?
    ensures Queues(s, Execute(s, c, ok).0, [], [])
  {
    hide Execute, Queues;
    RefusedCases(s, c, ok);
    SameQueues(s, Execute(s, c, ok).0);
  }

  lemma EachLeaves(s: Session, targets: seq<(SepId, bool)>, suspend: bool, ok: Socket)
    requires targets != []
    ensures Queues(s, Execute(s, if suspend then SuspendThem(targets) else StartThem(targets), ok).0, [], [])
  {
    hide StartEach, SuspendEach, SendReply, Queues;
    EachQueues(s, targets, ok);
    var m := if suspend then SuspendEach(s, targets, ok).0 else StartEach(s, targets, ok).0;
    var accept := if suspend then SuspendEach(s, targets, ok).1 else StartEach(s, targets, ok).1;
    AnswerIs(m, accept, ok);
    SameQueues(s, SendReply(m, accept, ok).0);
  }

  lemma OpenItQueues(s: Session, e: SepId, accept: bool, ok: Socket)
    requires e in s.seps && s.seps[e].state.Configured? && (s.seps[e].ind ==> accept)
    ensures Queues(s, Execute(s, OpenIt(false, e, accept), ok).0, [], [])
  {
    hide Execute, Queues, Answers, Marks;
    OpenItCases(s, e, accept, ok);
    var a := Execute(s, OpenIt(false, e, accept), ok).0;
    AnswersSame(s.r, a.r, Signal.Open, s.objs[s.seps[e].stream.value].rseid);
    SameQueues(s, a);
  }

  lemma CloseItQueues(s: Session, e: SepId, accept: bool, ok: Socket)
    requires e in s.seps && s.seps[e].stream.Some? && (s.seps[e].state.Opened? || s.seps[e].state.Streaming?)
    requires s.seps[e].ind ==> accept
    ensures Queues(s, Execute(s, CloseIt(false, e, accept), ok).0, [], [])
  {
    hide Execute, Queues, Answers, Marks, Enters;
    var b := CloseItCases(s, e, accept, ok);
    var a := Execute(s, CloseIt(false, e, accept), ok).0;
    ClosingSame(s, b, e, s.seps[e].stream.value, Closing, ok);
    AnswersSame(s.r, a.r, Close, s.objs[s.seps[e].stream.value].rseid);
    assert s.objs.Keys <= a.objs.Keys;
    SameQueues(s, a);
  }

  lemma AbortItQueues(s: Session, e: SepId, ok: Socket)
    requires e in s.seps && s.seps[e].stream.Some?
    ensures Queues(s, Execute(s, AbortIt(false, e), ok).0, [], [])
  {
    hide Execute, Queues, Answers, Marks;
    AbortItCases(s, e, ok);
    var a := Execute(s, AbortIt(false, e), ok).0;
    AnswersSame(s.r, a.r, Abort, s.objs[s.seps[e].stream.value].rseid);
    assert s.objs.Keys <= a.objs.Keys;
    SameQueues(s, a);
  }

  lemma ConfigureItQueues(s: Session, e: SepId, rseid: nat, delay: bool, verdict: Verdict, ok: Socket)
    returns (added: seq<Req>)
    requires e in s.seps && s.seps[e].stream.None?
    ensures Queues(s, Execute(s, ConfigureIt(false, e, rseid, false, delay, verdict), ok).0, added, [])
  {
    hide Execute, Queues, Enters;
    var a, b := ConfigureItCases(s, e, rseid, delay, verdict, ok);
    var s1 := Execute(s, ConfigureIt(false, e, rseid, false, delay, verdict), ok).0;
    added := [];
    if s1 == a {
      SameQueues(s, a);
    } else {
      added := EntersQueues(b, s1, e, s.made, Configured, ok);
      EntersObjs(b, s1, e, s.made, Configured, ok);
      AttachedQueues(s, a, b, s1, e, rseid, delay, added);
    }
  }

  lemma AttachedQueues(s: Session, a: SessionState, b: SessionState, s1: SessionState, e: SepId, rseid: nat, delay: bool,
                       added: seq<Req>)
    requires Answers(s.r, a.r) && a.objs == s.objs && a.made == s.made
    requires Attached(a, b, e, rseid, delay) && Queues(b, s1, added, []) && b.objs.Keys <= s1.objs.Keys
    ensures Queues(s, s1, added, [])
  {
    hide Left;
    assert s.objs.Keys - s1.objs.Keys == {} && b.objs.Keys - s1.objs.Keys == {};
  }

  lemma CommandFair(s: Session, c: Command, ok: Socket)
    requires !s.answering && s.watching
    ensures Fair(s, Step(s, CommandRead(c), ok))
  {
    hide Step, Execute, Fair, Queues, Lost, Serves;
    var added := CommandQueues(s, c, ok);
    CommandCases(s, c, ok);
    var (a, good) := Execute(s, c, ok);
    var s1 := Step(s, CommandRead(c), ok);
    QueuesDirect(s, a, added);
    if !good {
      LostFair(s, a, s1);
    } else if a.r.req.Some? && a.r.req.value.collided {
      ServesFair(s, a, s1, added, ok);
    } else {
      DirectFair(s, s1);
    }
  }

  lemma QueuesDirect(s: SessionState, a: SessionState, added: seq<Req>)
    requires Queues(s, a, added, [])
    ensures DirectOnly(s.r, a.r)
  {
  }

  // --------------------------------------------------------- all other events

  lemma TimeoutFair(s: Session, ok: Socket)
    requires s.r.req.Some?
    ensures Fair(s, CancelRequest(s, ok).0)
  {
    hide CancelRequest, Lost, Fair, FirstFor, NoneFor, Asks;
    var a, t, m, b := TimeoutCases(s, ok);
    var s1 := CancelRequest(s, ok).0;
    var q := s.r.req.value;
    FreedDirect(s, a);
    if q.signal.Discover? || q.seid == 0 || NoneFor(s, q.seid) {
      LostFair(s, a, s1);
    } else if q.signal.SetConfiguration? || q.signal.GetCapabilities? || q.signal.Abort? {
      LostFair(s, m, s1);
    } else {
      AsksAfter(s.r, m.r, b.r, Ask(true, Abort, q.seid, Some(t)), ok);
      if ok(m.r.sends) { DirectFair(s, s1); } else { LostFair(s, b, s1); }
    }
  }

  lemma FreedDirect(s: SessionState, a: SessionState)
    requires Freed(s, a)
    ensures DirectOnly(s.r, a.r) && a.r.tries == s.r.tries
  {
  }

  lemma AsksAfter(r: RequestState, m: RequestState, r1: RequestState, a: Ask, ok: Socket)
    requires m.tries == r.tries && Asks(m, r1, a, ok)
    ensures DirectOnly(r, r1)
  {
  }

  /** A call about a stream. */
  lemma AbortFair(s: Session, t: StreamId, ok: Socket)
    ensures Fair(s, AbortStream(s, t, ok).0)
  {
    hide AbortStream, CancelRequest, Fair, Asks;
    var s1 := AbortStream(s, t, ok).0;
    if t !in s.objs {
      AbsentCalls(s, t, ok);
      DirectFair(s, s);
    } else {
      AbortCases(s, t, ok);
      if s1 == s {
        DirectFair(s, s);
      } else if s.r.req.Some? && (s1, AbortStream(s, t, ok).1) == CancelRequest(s, ok) {
        TimeoutFair(s, ok);
      } else {
        AsksDirect(s.r, s1.r, Ask(true, Abort, s.objs[t].rseid, Some(t)), ok);
        DirectFair(s, s1);
      }
    }
  }

  lemma AbsentCalls(s: Session, t: StreamId, ok: Socket)
    requires t !in s.objs
    ensures AbortStream(s, t, ok).0 == s && StartStream(s, t, ok).0 == s
  {
  }

  lemma StartDirect(s: Session, t: StreamId, ok: Socket)
    ensures DirectOnly(s.r, StartStream(s, t, ok).0.r)
  {
    hide StartStream, Asks;
    if t !in s.objs {
      AbsentCalls(s, t, ok);
    } else {
      StartCases(s, t, ok);
      var s1 := StartStream(s, t, ok).0;
      if s1.r != s.r { AsksDirect(s.r, s1.r, Ask(false, Start, s.objs[t].rseid, Some(t)), ok); }
    }
  }

  lemma CloseFair(s: Session, t: StreamId, immediate: bool, ok: Socket)
    requires t in s.objs
    ensures Fair(s, CloseStream(s, t, immediate, ok).0)
  {
    hide CloseStream, AbortStream, Fair, Asks;
    var s1 := CloseStream(s, t, immediate, ok).0;
    CloseCases(s, t, immediate, ok);
    if s1 == s {
      DirectFair(s, s);
    } else if s1 == AbortStream(s, t, ok).0 {
      AbortFair(s, t, ok);
    } else {
      AsksDirect(s.r, s1.r, Ask(false, Close, s.objs[t].rseid, Some(t)), ok);
      DirectFair(s, s1);
    }
  }

  lemma OtherCallDirect(s: Session, call: Call, ok: Socket)
    requires !s.answering && Enabled(s, Called(call)) && !call.CallAbort? && !call.CallClose?
    ensures DirectOnly(s.r, Step(s, Called(call), ok).r)
  {
    hide Step, Asks, StartStream, OpenStream, SuspendStream, DelayReportOf, Connect, Configure, StartDiscovery, Gone;
    var s1 := Step(s, Called(call), ok);
    match call
    case CallDiscover =>
      DiscoverCases(s, ok);
      if s1.r != s.r { AsksDirect(s.r, s1.r, Ask(false, Signal.Discover, 0, None), ok); }
    case CallConfigure(e, rseid, delay) =>
      ConfigureCases(s, e, rseid, delay, ok);
      AsksDirect(s.r, s1.r, Ask(false, SetConfiguration, rseid, Some(s.made)), ok);
    case CallSetTransport(t, settable) => TransportCases(s, t, settable, ok);
    case CallRegister(free, sink, cfm, ind) => RegisterCases(s, free, sink, cfm, ind, ok);
    case CallUnregister(e) =>
      var a := UnregisterCases(s, e, ok);
      if s.seps[e].stream.Some? { GoneDirect(s, a, {s.seps[e].stream.value}); }
    case CallOpen(t) => StreamCallDirect(s, call, t, ok);
    case CallStart(t) => StreamCallDirect(s, call, t, ok);
    case CallSuspend(t) => StreamCallDirect(s, call, t, ok);
    case CallDelayReport(t) => StreamCallDirect(s, call, t, ok);
  }

  lemma StreamCallDirect(s: Session, call: Call, t: StreamId, ok: Socket)
    requires !s.answering
    requires call == CallOpen(t) || call == CallStart(t) || call == CallSuspend(t) || call == CallDelayReport(t)
    ensures DirectOnly(s.r, Step(s, Called(call), ok).r)
  {
    hide Step, Asks, OpenStream, StartStream, SuspendStream, DelayReportOf;
    OpenCalled(s, t, ok); StartCalled(s, t, ok); SuspendCalled(s, t, ok); DelayReportCalled(s, t, ok);
    var s1 := Step(s, Called(call), ok);
    if t !in s.objs {
      GoneCases(s, t, false, false, ok);
    } else {
      OpenCases(s, t, ok); StartCases(s, t, ok); SuspendCases(s, t, ok); DelayReportCases(s, t, ok);
      if s1.r != s.r {
        var a := if call.CallOpen? then Ask(false, Signal.Open, s.objs[t].rseid, Some(t))
                 else if call.CallStart? then Ask(false, Start, s.objs[t].rseid, Some(t))
                 else if call.CallSuspend? then Ask(false, Suspend, s.objs[t].rseid, Some(t))
                 else Ask(true, DelayReport, s.objs[t].rseid, Some(t));
        AsksDirect(s.r, s1.r, a, ok);
      }
    }
  }

  lemma GoneDirect(s: SessionState, s1: SessionState, gone: set<StreamId>)
    requires Gone(s, s1, gone)
    ensures s1.r.tries == s.r.tries
  {
  }

  lemma HangupDirect(s: Session, t: StreamId, invalid: bool, ok: Socket)
    requires !s.answering && t in s.objs && s.objs[t].watch
    ensures DirectOnly(s.r, Step(s, TransportHangup(t, invalid), ok).r)
  {
    hide Step, Gone;
    HangupCases(s, t, invalid, ok);
    var s1 := Step(s, TransportHangup(t, invalid), ok);
    var a := s.(objs := s.objs[t := s.objs[t].(watch := false, io := if invalid then s.objs[t].io else false)]);
    if s1 != a { GoneDirect(a, s1, {t}); }
  }

  /** On every event of every session, what is taken from the queues is taken in
      turn: at most one request, and the last that is sent; the head of the
      priority queue, if one that waited there is left; and only if none waits
      there at all, the head of the other queue. */
  lemma PriorityFirst(s: Session, ev: Event, ok: Socket)
    requires !s.answering
    ensures Fair(s, Step(s, ev, ok))
  {
    hide Step, Fair, Lost, AbortStream, StartStream, CancelRequest, CloseStream, HandleReply, HandleCommand;
    var s1 := Step(s, ev, ok);
    if !Enabled(s, ev) {
      NotEnabled(s, ev, ok);
      DirectFair(s, s);
    } else {
      match ev
      case CommandRead(c) => CommandFair(s, c, ok);
      case ReplyRead(transaction, signal, kind, wellFormed, infos) =>
        ReplyFair(s, transaction, signal, kind, wellFormed, infos, ok);
      case ReadFailed =>
        ReadFailedCases(s, ok);
        LostFair(s, s, s1);
      case RequestTimeout =>
        TimeoutIs(s, ok);
        TimeoutFair(s, ok);
      case OpenTimeout(t) =>
        var a := OpenTimeoutCases(s, t, ok);
        AbortFair(a, t, ok);
        FairFrom(s, a, s1);
      case CloseTimeout(t) =>
        CloseTimeoutCases(s, t, ok);
        DirectFair(s, s1);
      case StartTimeout(t) =>
        var a := StartTimeoutCases(s, t, ok);
        StartDirect(a, t, ok);
        DirectFair(s, s1);
      case DiscoverIdle =>
        DiscoverIdleCases(s, ok);
        DirectFair(s, s1);
      case TransportHangup(t, invalid) =>
        HangupDirect(s, t, invalid, ok);
        DirectFair(s, s1);
      case Called(call) => CallFair(s, call, ok);
    }
  }

  lemma CallFair(s: Session, call: Call, ok: Socket)
    requires !s.answering && Enabled(s, Called(call))
    ensures Fair(s, Step(s, Called(call), ok))
  {
    hide Step, Fair, AbortStream, CloseStream;
    match call
    case CallAbort(t) =>
      AbortCalled(s, t, ok);
      AbortFair(s, t, ok);
    case CallClose(t, immediate) =>
      CloseCalled(s, t, immediate, ok);
      if t in s.objs {
        CloseFair(s, t, immediate, ok);
      } else {
        GoneCases(s, t, immediate, false, ok);
        DirectFair(s, s);
      }
    case _ =>
      OtherCallDirect(s, call, ok);
      DirectFair(s, Step(s, Called(call), ok));
  }

  lemma NotEnabled(s: Session, ev: Event, ok: Socket)
    requires !s.answering && !Enabled(s, ev)
    ensures Step(s, ev, ok) == s
  {
  }

  lemma FairFrom(s: SessionState, a: SessionState, s1: SessionState)
    requires a.r == s.r && a.objs.Keys == s.objs.Keys && Fair(a, s1)
    ensures Fair(s, s1)
  {
  }
}
