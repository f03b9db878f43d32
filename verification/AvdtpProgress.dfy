/** What becomes of waiting requests while the peer answers, and of a discovery
    whose request could not be sent. */
module AvdtpProgress {
  import opened Common
  import opened AvdtpRequests
  import opened AvdtpSession
  import opened AvdtpEvents
  import opened AvdtpProcedures
  import opened AvdtpRuns

  // ------------------------------------------------------- answers drain it all

  /** How many replies a request can take in all: one of its own, one for every
      end point that a DISCOVER response lists, at most `n`, and one for the
      delay report that can follow a configuration. */
  function WeightOf(q: Req, n: nat): nat {
    if q.signal.Discover? then 1 + n else if q.signal.SetConfiguration? then 2 else 1
  }

  ghost function Total(w: seq<Req>, n: nat): nat {
    if w == [] then 0 else WeightOf(w[0], n) + Total(w[1..], n)
  }

  ghost function Waiting(r: RequestState, n: nat): nat { Total(r.prio, n) + Total(r.queue, n) }

  ghost function Weight(r: RequestState, n: nat): nat {
    (if r.req.Some? then WeightOf(r.req.value, n) else 0) + Waiting(r, n)
  }

  /** `n` answers, one after the other. */
  ghost function Answers(s: Session, infos: nat -> seq<SeidInfo>, n: nat, ok: Socket): (s1: Session)
    requires !s.answering
    ensures !s1.answering
  {
    if n == 0 then s else Answer(Answers(s, infos, n - 1, ok), infos(n - 1), ok)
  }

  lemma {:induction false} TotalAppend(w: seq<Req>, q: Req, n: nat)
    ensures Total(w + [q], n) == Total(w, n) + WeightOf(q, n)
  {
    if w == [] {
      assert w + [q] == [q];
    } else {
      assert (w + [q])[1..] == w[1..] + [q];
      TotalAppend(w[1..], q, n);
    }
  }

  lemma {:induction false} TotalWithout(w: seq<Req>, t: StreamId, n: nat)
    ensures Total(Without(w, t), n) <= Total(w, n)
  {
    if w != [] {
      TotalWithout(w[1..], t, n);
      if w[0].stream != Some(t) { assert Without(w, t)[1..] == Without(w[1..], t); }
    }
  }

  /** The next request is sent; nothing is lost. */
  lemma ProceedWeight(s: Session, n: nat, ok: Socket)
    requires s.r.req.Some? && AlwaysTaken(ok)
    ensures var s1 := Proceed(s, ok);
            && Weight(s1.r, n) == Waiting(s.r, n) && !Stalled(s1.r)
            && s.r.req.value.id in s1.r.finished
  {
  }

  /** What an accepted reply about a stream adds. */
  lemma StreamWeight(s: Session, n: nat, ok: Socket)
    requires s.r.req.Some? && (s.r.req.value.stream.Some? ==> s.r.req.value.stream.value in s.objs)
    requires !s.r.req.value.armed
    ensures var s1 := StreamAnswered(s, ok);
            && s1.losses == s.losses
            && Waiting(s1.r, n) <= Waiting(s.r, n) + if s.r.req.value.signal.SetConfiguration? then 1 else 0
  {
    hide Enter, Idled, Waiting;
    if s.r.req.value.stream.Some? {
      var t := s.r.req.value.stream.value;
      StreamLinks(s, t);
      var e := s.objs[t].lsep;
      match s.r.req.value.signal
      case SetConfiguration => EnterWeight(s, e, Configured, n, ok);
      case Suspend => EnterWeight(s, e, Opened, n, ok);
      case Start => EnterWeight(s, e, Streaming, n, ok);
      case Close => EnterWeight(s, e, Closing, n, ok);
      case Abort => AbortWeight(s, t, n, ok);
      case _ =>
    }
  }

  lemma EnterWeight(s: Session, e: SepId, state: SepState, n: nat, ok: Socket)
    requires e in s.seps && s.seps[e].stream.Some? && !state.Idle? && s.r.req.Some?
    ensures var s1 := Enter(s, e, state, ok);
            && s1.losses == s.losses && s1.r.req == s.r.req
            && Waiting(s1.r, n) <= Waiting(s.r, n) + (if state.Configured? then 1 else 0)
  {
    hide DelayReportOf, Waiting;
    Entered(s, e, state, ok);
    if state.Configured? {
      MovedIs(s, e, state);
      DelayWeight(Moved(s, e, state), s.seps[e].stream.value, n, ok);
    }
  }

  lemma DelayWeight(s: Session, t: StreamId, n: nat, ok: Socket)
    requires t in s.objs && s.r.req.Some?
    ensures var s1 := DelayReportOf(s, t, ok).0;
            s1.r.req == s.r.req && Waiting(s1.r, n) <= Waiting(s.r, n) + 1
  {
    hide SendRequest;
    StreamLinks(s, t);
    SendRequestIs(s, true, Some(t), DelayReport, s.objs[t].rseid, ok);
    TotalAppend(s.r.prio, NewReq(s.r, Some(t), DelayReport, s.objs[t].rseid), n);
  }

  lemma AbortWeight(s: Session, t: StreamId, n: nat, ok: Socket)
    requires s.r.req.Some? && !s.r.req.value.armed && t in s.objs
    ensures var s1 := AbortAnswered(s, t, ok); s1.losses == s.losses && Waiting(s1.r, n) <= Waiting(s.r, n)
  {
    hide Enter, Idled, Total;
    StreamLinks(s, t);
    var e := s.objs[t].lsep;
    Entered(s, e, Aborting, ok);
    EnterKeeps(s, e, Aborting, ok);
    var m := Enter(s, e, Aborting, ok);
    IdledIs(m, e);
    ForgetIs(m.r, t);
    TotalWithout(m.r.prio, t, n);
    TotalWithout(m.r.queue, t, n);
  }

  /** What an accepted DISCOVER adds. */
  lemma {:induction false} AskCapsWeight(r: Requests, remote: set<nat>, mine: set<nat>, infos: seq<SeidInfo>, v13: bool, n: nat)
    requires r.req.Some? && r.req.value.signal.Discover? && !r.req.value.armed && CapsLast(r.prio)
    ensures Waiting(AskCaps(r, remote, mine, infos, v13).0, n) <= Waiting(r, n) + |infos|
    decreases |infos|
  {
    if infos == [] {
    } else if infos[0].seid !in remote && infos[0].inuse && infos[0].seid !in mine {
      AskCapsWeight(r, remote, mine, infos[1..], v13, n);
    } else {
      var signal := if v13 then GetAllCapabilities else GetCapabilities;
      TotalAppend(r.prio, NewReq(r, None, signal, infos[0].seid), n);
      AskCapsWeight(SendCap(r, signal, infos[0].seid), remote + {infos[0].seid}, mine, infos[1..], v13, n);
    }
  }

  lemma DiscoverWeight(s: Session, infos: seq<SeidInfo>, n: nat)
    requires s.r.req.Some? && s.r.req.value.signal.Discover? && s.r.req.value.armed
    ensures var s1 := DiscoverAnswered(s, infos);
            && s1.r.req.Some? && s1.r.req.value.id == s.r.req.value.id
            && Waiting(s1.r, n) <= Waiting(s.r, n) + |infos|
  {
    hide DiscoverAnswered, AskCaps;
    DiscoverAnsweredIs(s, infos);
    AskCapsWeight(Unarmed(s.r), s.remote, Mine(s), infos, s.v13, n);
  }

  /** One accepted reply: the request is freed, the next one is in service, and
      less is left to answer. */
  lemma AnswerShrinks(s: Session, infos: seq<SeidInfo>, n: nat, ok: Socket)
    requires !s.answering && s.watching && s.r.req.Some? && |infos| <= n && AlwaysTaken(ok)
    ensures var s1 := Answer(s, infos, ok);
            && s1.watching && s1.losses == s.losses && !Stalled(s1.r)
            && s.r.req.value.id in s1.r.finished && Weight(s1.r, n) < Weight(s.r, n)
  {
    AtReply(s);
    AcceptedShrinks(s, infos, n, ok);
  }

  lemma AcceptedShrinks(s: Session, infos: seq<SeidInfo>, n: nat, ok: Socket)
    requires s.r.req.Some? && s.r.req.value.armed && s.watching && |infos| <= n && AlwaysTaken(ok)
    requires s.r.req.value.stream.Some? ==> s.r.req.value.stream.value in s.objs
    ensures var s1 := AvdtpEvents.Accepted(s, true, infos, ok);
            && s1.watching && s1.losses == s.losses && !Stalled(s1.r)
            && s.r.req.value.id in s1.r.finished && Weight(s1.r, n) < Weight(s.r, n)
  {
    hide Proceed, Waiting;
    if s.r.req.value.signal.Discover? {
      DiscoverWeight(s, infos, n);
      ProceedWeight(DiscoverAnswered(s, infos), n, ok);
    } else if IsCap(s.r.req.value) {
      CapsAnsweredIs(s);
      UnarmedWeight(s.r, n);
      ProceedWeight(CapsAnswered(s), n, ok);
    } else {
      Stopped(s);
      UnarmedWeight(s.r, n);
      StreamWeight(Disarm(s, false), n, ok);
      hide StreamAnswered;
      ProceedWeight(StreamAnswered(Disarm(s, false), ok), n, ok);
    }
  }

  lemma UnarmedWeight(r: Requests, n: nat)
    requires r.req.Some?
    ensures Waiting(Unarmed(r), n) == Waiting(r, n) && Unarmed(r).req.Some? && Unarmed(r).req.value.id == r.req.value.id
  {
  }

  /** Progress: while every reply is an accept, every message is taken and no
      DISCOVER response lists more than `n` end points, as many answers as the
      requests can take leave none waiting and none in service, and with it
      every request made has been freed. */
  lemma {:induction false} Drains(s: Session, infos: nat -> seq<SeidInfo>, k: nat, n: nat, ok: Socket)
    requires !s.answering && s.watching && !Stalled(s.r) && AlwaysTaken(ok)
    requires (forall j :: |infos(j)| <= n) && k >= Weight(s.r, n)
    ensures var s1 := Answers(s, infos, k, ok);
            && s1.r.req.None? && s1.r.prio == [] && s1.r.queue == [] && s1.losses == s.losses
            && forall id :: 0 <= id < s1.r.made ==> id in s1.r.finished
  {
    hide Answers;
    AnswersShrink(s, infos, k, n, ok);
    NothingLeft(Answers(s, infos, k, ok).r, n);
  }

  lemma {:induction false} AnswersShrink(s: Session, infos: nat -> seq<SeidInfo>, k: nat, n: nat, ok: Socket)
    requires !s.answering && s.watching && !Stalled(s.r) && AlwaysTaken(ok) && (forall j :: |infos(j)| <= n)
    ensures var s1 := Answers(s, infos, k, ok);
            && s1.watching && s1.losses == s.losses && !Stalled(s1.r)
            && (s1.r.req.None? || Weight(s1.r, n) + k <= Weight(s.r, n))
  {
    hide Answer, Weight;
    if k > 0 {
      AnswersShrink(s, infos, k - 1, n, ok);
      var a := Answers(s, infos, k - 1, ok);
      if a.r.req.Some? { AnswerShrinks(a, infos(k - 1), n, ok); } else { NoAnswer(a, infos(k - 1), ok); }
    }
  }

  lemma NoAnswer(s: Session, infos: seq<SeidInfo>, ok: Socket)
    requires !s.answering && s.r.req.None?
    ensures Answer(s, infos, ok) == s
  {
  }

  lemma NothingLeft(r: Requests, n: nat)
    requires !Stalled(r) && (r.req.None? || Weight(r, n) == 0)
    ensures r.req.None? && r.prio == [] && r.queue == []
    ensures forall id :: 0 <= id < r.made ==> id in r.finished
  {
    assert Unfold(0);
  }

  // ---------------------------------------------- a discovery that was refused

  /** The current discovery has no callback, and no request to wait for. */
  ghost predicate Blocked(s: SessionState) {
    s.discover.Some? && !s.discover.value.idle && !s.discover.value.wanted && !AnswersDue(s.r)
  }

  lemma BlockedDue(r: RequestState)
    ensures AnswersDue(r) <==> Due(r) != ({}, {})
  {
  }

  /** The request in service leaves, and the next one comes. */
  lemma ProceedDue(s: Session, ok: Socket)
    requires s.r.req.Some? && !AnswersDue(s.r)
    ensures !AnswersDue(Proceed(s, ok).r)
  {
    hide Proceed;
    ProceedIs(s, ok);
    ProceedDueOf(s.r, ok, true);
    ProceedDueOf(s.r, ok, false);
  }

  lemma ProceedDueOf(r: Requests, ok: Socket, caps: bool)
    requires r.req.Some? && Unanswered(r, caps) == {}
    ensures Unanswered(ProcessQueue(Finish(r), ok), caps) == {}
  {
    hide ProcessQueue;
    ProceedOpen(r, ok, caps);
    var r1 := Finish(r);
    if r1.prio != [] { HeadListed(r.prio, caps); } else if r1.queue != [] { HeadListed(r.queue, caps); }
    var q := r.req.value;
    assert q.armed && OfKind(q, caps) ==> q.id in InService(r, caps);
  }

  lemma HeadListed(w: seq<Req>, caps: bool)
    requires w != [] && KindIds(w, caps) == {}
    ensures !OfKind(w[0], caps)
  {
    var q := w[0];
    assert q in w;
    assert OfKind(q, caps) ==> q.id in KindIds(w, caps);
  }

  /** No event ends it but the loss of the connection, and that does. */
  lemma BlockedStep(s: Session, ev: Event, ok: Socket)
    requires !s.answering && Blocked(s)
    ensures var s1 := Step(s, ev, ok);
            && s1.fired == s.fired
            && (if s1.losses == s.losses then s1.discover == s.discover && !AnswersDue(s1.r) else s1.discover.None?)
  {
    hide AnswersDue, HandleCommand, HandleReply, Due;
    BlockedDue(s.r);
    BlockedDue(Step(s, ev, ok).r);
    if Enabled(s, ev) {
      match ev
      case CommandRead(c) => CommandBlocked(s, c, ok);
      case ReplyRead(transaction, signal, kind, wellFormed, infos) =>
        ReplyBlocked(s, transaction, signal, kind, wellFormed, infos, ok);
      case RequestTimeout => InServiceBlocked(s);
      case _ =>
    }
  }

  lemma InServiceBlocked(s: Session)
    requires !AnswersDue(s.r) && s.r.req.Some? && s.r.req.value.armed
    ensures !IsDiscovery(s.r.req.value)
  {
    var q := s.r.req.value;
    assert IsDiscovery(q) ==> q.id in InService(s.r, IsCap(q));
  }

  lemma CommandBlocked(s: Session, c: Command, ok: Socket)
    requires !s.answering && Blocked(s)
    ensures var s1 := HandleCommand(s, c, ok);
            && s1.fired == s.fired
            && (if s1.losses == s.losses then s1.discover == s.discover && !AnswersDue(s1.r) else s1.discover.None?)
  {
    hide Execute, AnswersDue, Due;
    var (s1, good) := Execute(s, c, ok);
    BlockedDue(s.r);
    BlockedDue(s1.r);
    if good && s1.r.req.Some? && s1.r.req.value.collided && s1.losses == s.losses { ProceedDue(s1, ok); }
  }

  lemma DisarmDue(s: Session)
    requires s.r.req.Some? && !IsDiscovery(s.r.req.value) && !AnswersDue(s.r)
    ensures !AnswersDue(Disarm(s, false).r)
  {
    DisarmOpen(s.r, true);
    DisarmOpen(s.r, false);
  }

  lemma ReplyBlocked(s: Session, transaction: nat, signal: Signal, kind: ReplyKind, wellFormed: bool,
                     infos: seq<SeidInfo>, ok: Socket)
    requires !s.answering && s.watching && Blocked(s)
    ensures var s1 := HandleReply(s, transaction, signal, kind, wellFormed, infos, ok);
            && s1.fired == s.fired
            && (if s1.losses == s.losses then s1.discover == s.discover && !AnswersDue(s1.r) else s1.discover.None?)
  {
    hide AnswersDue, Disarm, Proceed, StreamAccepted, Rejected;
    if s.r.req.Some? && transaction == s.r.req.value.transaction && signal == s.r.req.value.signal {
      AtReply(s);
      InServiceBlocked(s);
      match kind
      case Accept => AcceptBlocked(s, ok);
      case Reject => RejectBlocked(s, wellFormed, ok);
      case _ =>
        DisarmDue(s);
        Stopped(s);
        ProceedDue(Disarm(s, false), ok);
    }
  }

  lemma AcceptBlocked(s: Session, ok: Socket)
    requires Blocked(s) && s.r.req.Some? && !IsDiscovery(s.r.req.value)
    requires s.r.req.value.stream.Some? ==> s.r.req.value.stream.value in s.objs
    ensures var s1 := StreamAccepted(s, ok);
            && s1.fired == s.fired
            && (if s1.losses == s.losses then s1.discover == s.discover && !AnswersDue(s1.r) else s1.discover.None?)
  {
    hide AnswersDue, Due, Disarm, StreamAnswered, Proceed;
    DisarmDue(s);
    Stopped(s);
    var d := Disarm(s, false);
    var a := StreamAnswered(d, ok);
    BlockedDue(d.r);
    BlockedDue(a.r);
    if a.losses == d.losses { ProceedDue(a, ok); }
  }

  lemma RejectBlocked(s: Session, wellFormed: bool, ok: Socket)
    requires Blocked(s) && s.r.req.Some? && !IsDiscovery(s.r.req.value)
    requires s.r.req.value.stream.Some? ==> s.r.req.value.stream.value in s.objs
    ensures var s1 := Rejected(s, wellFormed, ok);
            && s1.fired == s.fired
            && (if s1.losses == s.losses then s1.discover == s.discover && !AnswersDue(s1.r) else s1.discover.None?)
  {
    hide AnswersDue, Due, Disarm, StreamRejected, Proceed;
    DisarmDue(s);
    Stopped(s);
    if wellFormed && !s.r.req.value.signal.Abort? { ProceedDue(StreamRejected(Disarm(s, false)), ok); }
  }

  /** A call whose DISCOVER the socket refuses, with no discovery request
      outstanding: whatever happens then, until the connection is given up every
      further call is refused, no reply concerns a discovery, so that the missing
      callback is never called, and no callback is fired; and it is the loss of
      the connection, and nothing else, that ends this. */
  lemma {:induction false} RefusedDiscovery(s: Session, evs: seq<Event>, ev: Event, ok: Socket)
    requires !s.answering && s.discover.None? && !StartDiscovery(s, ok).1 && !AnswersDue(s.r)
    ensures var a := Step(s, Called(CallDiscover), ok);
            var b := Steps(a, evs, ok);
            var b1 := Step(b, ev, ok);
            b.losses == s.losses ==>
              && b.fired == s.fired && StartDiscovery(b, ok) == (b, false) && !AnswersDiscovery(b, ev)
              && (b1.discover.None? <==> b1.losses > b.losses)
    decreases |evs|
  {
    hide Step, StartDiscovery, Steps;
    RefusedBlocked(s, evs, ok);
    var b := Steps(Step(s, Called(CallDiscover), ok), evs, ok);
    if b.losses == s.losses {
      BlockedRefuses(b, ev, ok);
      BlockedStep(b, ev, ok);
    }
  }

  lemma BlockedRefuses(s: Session, ev: Event, ok: Socket)
    requires !s.answering && Blocked(s)
    ensures StartDiscovery(s, ok) == (s, false) && !AnswersDiscovery(s, ev)
    ensures Step(s, ev, ok).losses >= s.losses
  {
    LossesGrow(s, ev, ok);
    if AnswersDiscovery(s, ev) { InServiceDue(s); }
  }

  lemma LossesGrow(s: Session, ev: Event, ok: Socket)
    requires !s.answering
    ensures Step(s, ev, ok).losses >= s.losses
  {
    hide Step;
    if ev == Called(CallDiscover) { CallsDiscover(s, ok); }
  }

  lemma {:induction false} RefusedBlocked(s: Session, evs: seq<Event>, ok: Socket)
    requires !s.answering && s.discover.None? && !StartDiscovery(s, ok).1 && !AnswersDue(s.r)
    ensures var b := Steps(Step(s, Called(CallDiscover), ok), evs, ok);
            b.losses >= s.losses && (b.losses == s.losses ==> Blocked(b) && b.fired == s.fired)
    decreases |evs|
  {
    hide Step, StartDiscovery, Blocked;
    if evs == [] {
      BeginsBlocked(s, ok);
    } else {
      RefusedBlocked(s, evs[..|evs| - 1], ok);
      var b, ev := Steps(Step(s, Called(CallDiscover), ok), evs[..|evs| - 1], ok), evs[|evs| - 1];
      LossesGrow(b, ev, ok);
      if Blocked(b) { StaysBlocked(b, ev, ok); }
    }
  }

  lemma StaysBlocked(s: Session, ev: Event, ok: Socket)
    requires !s.answering && Blocked(s)
    ensures var s1 := Step(s, ev, ok); s1.losses == s.losses ==> Blocked(s1) && s1.fired == s.fired
  {
    hide Step;
    BlockedStep(s, ev, ok);
  }

  lemma BeginsBlocked(s: Session, ok: Socket)
    requires !s.answering && s.discover.None? && !StartDiscovery(s, ok).1 && !AnswersDue(s.r)
    ensures var a := Step(s, Called(CallDiscover), ok); Blocked(a) && a.fired == s.fired && a.losses == s.losses
  {
    CallsDiscover(s, ok);
    if s.remote == {} {
      StartDiscoveryIs(s, ok);
      SendNewOpen(s.r, false, None, Signal.Discover, 0, ok, true);
      SendNewOpen(s.r, false, None, Signal.Discover, 0, ok, false);
    }
  }

  /** It can come to that: a new session, and a socket that refuses the first
      message. */
  lemma FreshRefused(transaction: nat, v13: bool, ok: Socket)
    requires transaction < 16 && !ok(0)
    ensures var s := Fresh(transaction, v13);
            s.discover.None? && !AnswersDue(s.r) && !StartDiscovery(s, ok).1 && Blocked(Step(s, Called(CallDiscover), ok))
  {
    var s := Fresh(transaction, v13);
    StartDiscoveryIs(s, ok);
    BeginsBlocked(s, ok);
  }
}
