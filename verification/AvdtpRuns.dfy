/** What holds of an AVDTP session after any sequence of events, whatever the
    socket does and however events of all kinds interleave. */
module AvdtpRuns {
  import opened Common
  import opened AvdtpRequests
  import opened AvdtpSession
  import opened AvdtpEvents

  /** The session after the events. */
  ghost function Steps(s: Session, evs: seq<Event>, ok: Socket): (s1: Session)
    requires !s.answering
    ensures !s1.answering
  {
    if evs == [] then s else Step(Steps(s, evs[..|evs| - 1], ok), evs[|evs| - 1], ok)
  }

  /** From a new one. */
  ghost function Run(transaction: nat, v13: bool, evs: seq<Event>, ok: Socket): (s: Session)
    requires transaction < 16
    ensures !s.answering
  {
    Steps(Fresh(transaction, v13), evs, ok)
  }

  ghost function Fresh(transaction: nat, v13: bool): (s: Session)
    requires transaction < 16
    ensures !s.answering
  {
    EmptyOrderly(transaction);
    NewSession(transaction, v13)
  }

  /** A new session: packets are read, and there is nothing else. */
  lemma FreshIs(transaction: nat, v13: bool)
    requires transaction < 16
    ensures var s := Fresh(transaction, v13);
            && s.watching && !s.answering && s.v13 == v13 && s.r.transaction == transaction
            && s.seps == map[] && s.streams == [] && s.objs == map[] && s.remote == {}
            && s.pendingOpen.None? && s.discover.None? && s.fired == [] && s.answers == []
            && s.r.req.None? && s.r.prio == [] && s.r.queue == [] && s.r.tries == [] && s.r.sends == 0 && s.r.made == 0
  {
  }

  // ---------------------------------------------------------------- ownership

  /** How many members of the stream list point to the end point. */
  ghost function Pointing(streams: seq<StreamId>, objs: map<StreamId, Stream>, e: SepId): nat {
    if streams == [] then 0
    else (if streams[0] in objs && objs[streams[0]].lsep == e then 1 else 0) + Pointing(streams[1..], objs, e)
  }

  lemma {:induction false} PointingZero(streams: seq<StreamId>, objs: map<StreamId, Stream>, e: SepId)
    requires forall t :: t in streams && t in objs ==> objs[t].lsep != e
    ensures Pointing(streams, objs, e) == 0
  {
    if streams != [] {
      assert streams[0] in streams;
      assert forall t :: t in streams[1..] ==> t in streams;
      PointingZero(streams[1..], objs, e);
    }
  }

  lemma {:induction false} PointingOne(streams: seq<StreamId>, objs: map<StreamId, Stream>, e: SepId, t: StreamId)
    requires NoDup(streams) && t in streams && t in objs && objs[t].lsep == e
    requires forall u :: u in streams && u in objs && objs[u].lsep == e ==> u == t
    ensures Pointing(streams, objs, e) == 1
  {
    var rest := streams[1..];
    assert streams == [streams[0]] + rest;
    assert forall u :: u in rest ==> u in streams;
    if streams[0] == t {
      assert t !in rest;
      PointingZero(rest, objs, e);
    } else {
      assert NoDup(rest);
      assert !(streams[0] in objs && objs[streams[0]].lsep == e) by { assert streams[0] in streams; }
      PointingOne(rest, objs, e, t);
    }
  }

  lemma OneOwner(s: Session, e: SepId)
    requires e in s.seps
    ensures Pointing(s.streams, s.objs, e) == (if s.seps[e].inuse then 1 else 0)
  {
    SepLinks(s, e);
    assert Unfold(1);
    if s.seps[e].inuse {
      PointingOne(s.streams, s.objs, e, s.seps[e].stream.value);
    } else {
      PointingZero(s.streams, s.objs, e);
    }
  }

  /** Stream ownership: an end point has a stream if and only if it is in use,
      and then exactly one member of the stream list points to it; otherwise
      none does, and the end point is idle. */
  lemma StreamOwnership(transaction: nat, v13: bool, evs: seq<Event>, ok: Socket, e: SepId)
    requires transaction < 16
    requires e in Run(transaction, v13, evs, ok).seps
    ensures var s := Run(transaction, v13, evs, ok);
            && (s.seps[e].stream.Some? <==> s.seps[e].inuse)
            && Pointing(s.streams, s.objs, e) == (if s.seps[e].inuse then 1 else 0)
            && (s.seps[e].inuse ==> s.seps[e].stream.value in s.objs && s.objs[s.seps[e].stream.value].lsep == e)
            && (!s.seps[e].inuse ==> s.seps[e].state.Idle?)
  {
    var s := Run(transaction, v13, evs, ok);
    OneOwner(s, e);
    SepLinks(s, e);
    if s.seps[e].inuse { StreamLinks(s, s.seps[e].stream.value); }
  }

  // ------------------------------------------------------------ no stale links

  /** A stream that has left the list is referred to from nowhere: no request
      that waits or is in service, and not as the one about to be opened. Only
      the request left in service by a broken connection may still name it. */
  lemma NoStaleReference(transaction: nat, v13: bool, evs: seq<Event>, ok: Socket, t: StreamId)
    requires transaction < 16
    ensures var s := Run(transaction, v13, evs, ok);
            t !in s.streams ==>
              && (forall x :: x in s.r.prio ==> x.stream != Some(t))
              && (forall x :: x in s.r.queue ==> x.stream != Some(t))
              && s.pendingOpen != Some(t)
              && (s.r.req.Some? && s.r.req.value.stream == Some(t) ==> !s.r.req.value.armed && !s.watching)
              && (forall e :: e in s.seps ==> s.seps[e].stream != Some(t))
  {
    var s := Run(transaction, v13, evs, ok);
    assert Unfold(1);
    forall e | e in s.seps && t !in s.streams ensures s.seps[e].stream != Some(t) {
      assert SepOwned(e, s.seps[e], s.objs);
    }
  }

  // ------------------------------------------------------ requests conserved

  ghost function CountId(q: seq<Req>, id: nat): nat {
    if q == [] then 0 else (if q[0].id == id then 1 else 0) + CountId(q[1..], id)
  }

  /** In how many places the request is. */
  ghost function Places(r: RequestState, id: nat): nat {
    (if id in r.finished then 1 else 0) + (if r.req.Some? && r.req.value.id == id then 1 else 0)
    + CountId(r.prio, id) + CountId(r.queue, id)
  }

  lemma {:induction false} CountIs(q: seq<Req>, id: nat)
    requires Increasing(q)
    ensures CountId(q, id) == if id in Ids(q) then 1 else 0
  {
    if q != [] {
      HeadIds(q);
      CountIs(q[1..], id);
    }
  }

  /** Every request made is at all times in exactly one place: in service,
      waiting in one of the queues, or freed. */
  lemma RequestConservation(transaction: nat, v13: bool, evs: seq<Event>, ok: Socket, id: nat)
    requires transaction < 16
    ensures var r := Run(transaction, v13, evs, ok).r;
            Places(r, id) == if id < r.made then 1 else 0
  {
    hide Run;
    OnePlace(Run(transaction, v13, evs, ok).r, id);
  }

  lemma OnePlace(r: Requests, id: nat)
    ensures Places(r, id) == if id < r.made then 1 else 0
  {
    assert Unfold(0);
    CountIs(r.prio, id);
    CountIs(r.queue, id);
    hide Traced, Served, CapsTogether, CountId;
    if id in Ids(r.prio) { var x :| x in r.prio && x.id == id; }
    if id in Ids(r.queue) { var x :| x in r.queue && x.id == id; }
  }

  /** What was handed to the socket: no request twice, and none that waits; at
      most one of them is not yet freed, the one in service. */
  lemma TransmittedOnce(transaction: nat, v13: bool, evs: seq<Event>, ok: Socket, i: nat, j: nat)
    requires transaction < 16
    requires i < j < |Run(transaction, v13, evs, ok).r.tries|
    ensures var r := Run(transaction, v13, evs, ok).r;
            && r.tries[i].id != r.tries[j].id
            && CountId(r.prio, r.tries[i].id) == 0 && CountId(r.queue, r.tries[i].id) == 0
            && (r.tries[i].id in r.finished || r.tries[j].id in r.finished)
  {
    hide Run;
    TriesOnce(Run(transaction, v13, evs, ok).r, i, j);
  }

  /** What was taken from one queue kept its order of arrival, and came before
      what is still in it; the labels are consecutive modulo 16. */
  lemma TransmittedInOrder(transaction: nat, v13: bool, evs: seq<Event>, ok: Socket, i: nat, j: nat)
    requires transaction < 16
    requires i < j < |Run(transaction, v13, evs, ok).r.tries|
    ensures var r := Run(transaction, v13, evs, ok).r;
            && (r.tries[i].via == r.tries[j].via && r.tries[i].via != Direct ==> r.tries[i].id < r.tries[j].id)
            && (r.tries[i].via == FromPrio ==> forall x :: x in r.prio ==> r.tries[i].id < x.id)
            && (r.tries[i].via == FromQueue ==> forall x :: x in r.queue ==> r.tries[i].id < x.id)
            && r.tries[j].transaction == (r.tries[i].transaction + (j - i)) % 16
  {
    hide Run;
    TriesOrdered(Run(transaction, v13, evs, ok).r, i, j);
  }

  lemma TriesOnce(r: Requests, i: nat, j: nat)
    requires i < j < |r.tries|
    ensures r.tries[i].id != r.tries[j].id
    ensures CountId(r.prio, r.tries[i].id) == 0 && CountId(r.queue, r.tries[i].id) == 0
    ensures r.tries[i].id in r.finished || r.tries[j].id in r.finished
  {
    assert Unfold(0);
    CountIs(r.prio, r.tries[i].id);
    CountIs(r.queue, r.tries[i].id);
  }

  lemma TriesOrdered(r: Requests, i: nat, j: nat)
    requires i < j < |r.tries|
    ensures r.tries[i].via == r.tries[j].via && r.tries[i].via != Direct ==> r.tries[i].id < r.tries[j].id
    ensures r.tries[i].via == FromPrio ==> forall x :: x in r.prio ==> r.tries[i].id < x.id
    ensures r.tries[i].via == FromQueue ==> forall x :: x in r.queue ==> r.tries[i].id < x.id
    ensures r.tries[j].transaction == (r.tries[i].transaction + (j - i)) % 16
  {
    assert Unfold(0);
    ConsecutiveLabels(r.tries, i, j);
  }

  lemma {:induction false} ConsecutiveLabels(tries: seq<Try>, i: nat, j: nat)
    requires i < j < |tries|
    requires forall k :: 0 <= k < |tries| - 1 ==> tries[k + 1].transaction == (tries[k].transaction + 1) % 16
    ensures tries[j].transaction == (tries[i].transaction + (j - i)) % 16
    decreases j
  {
    if j > i + 1 {
      ConsecutiveLabels(tries, i, j - 1);
      assert tries[(j - 1) + 1].transaction == (tries[j - 1].transaction + 1) % 16;
    } else {
      assert tries[i + 1].transaction == (tries[i].transaction + 1) % 16;
    }
  }

  // ---------------------------------------------------------------- discovery

  /** No callback of a discovery is fired twice, on any run. */
  lemma CallbackOnce(transaction: nat, v13: bool, evs: seq<Event>, ok: Socket)
    requires transaction < 16
    ensures var s := Run(transaction, v13, evs, ok);
            && (forall i, j :: 0 <= i < j < |s.fired| ==> s.fired[i] != s.fired[j])
            && (s.discover.Some? ==> s.discover.value.id !in s.fired)
  {
    assert Unfold(1);
  }

  /** The discovery is the current one, with a callback to fire. */
  ghost predicate Pending(s: SessionState, d: nat) {
    s.discover.Some? && s.discover.value.id == d && s.discover.value.wanted
  }

  /** An accepted call begins a discovery; whatever happens then, it stays the
      current one until its callback is fired, which happens at most once. */
  lemma {:induction false} FiredOrPending(s: Session, evs: seq<Event>, ok: Socket)
    requires !s.answering && StartDiscovery(s, ok).1
    ensures var s1 := Steps(Step(s, Called(CallDiscover), ok), evs, ok);
            (Pending(s1, s.asked) <==> s.asked !in s1.fired) && NoDup(s1.fired) && s.asked < s1.asked
    decreases |evs|
  {
    hide Step, Pending, StartDiscovery;
    if evs == [] {
      BeginsDiscovery(s, ok);
    } else {
      FiredOrPending(s, evs[..|evs| - 1], ok);
      var a := Steps(Step(s, Called(CallDiscover), ok), evs[..|evs| - 1], ok);
      StepPending(a, evs[|evs| - 1], s.asked, ok);
    }
  }

  lemma BeginsDiscovery(s: Session, ok: Socket)
    requires !s.answering && StartDiscovery(s, ok).1
    ensures var s1 := Step(s, Called(CallDiscover), ok);
            && s1 == StartDiscovery(s, ok).0
            && Pending(s1, s.asked) && s.asked !in s1.fired && NoDup(s1.fired) && s.asked < s1.asked
            && s1.discover.Some? && s.discover.None?
            && (!s.spoiled || !AnswersDue(s.r) ==> !s1.spoiled)
  {
    assert Unfold(1);
  }

  /** Which discoveries are known to the session. */
  lemma FiredKnown(s: Session)
    ensures NoDup(s.fired) && (forall i :: 0 <= i < |s.fired| ==> s.fired[i] < s.asked)
    ensures s.discover.Some? ==> s.discover.value.id < s.asked && s.discover.value.id !in s.fired
  {
    assert Unfold(1);
  }

  lemma StepPending(s: Session, ev: Event, d: nat, ok: Socket)
    requires !s.answering && (Pending(s, d) <==> d !in s.fired) && d < s.asked
    ensures var s1 := Step(s, ev, ok);
            (Pending(s1, d) <==> d !in s1.fired) && NoDup(s1.fired) && s1.asked >= s.asked
  {
    hide Step;
    var s1 := Step(s, ev, ok);
    FiredKnown(s);
    FiredKnown(s1);
    if ev == Called(CallDiscover) { CallsDiscover(s, ok); }
  }

  lemma CallsDiscover(s: Session, ok: Socket)
    requires !s.answering
    ensures Step(s, Called(CallDiscover), ok) == StartDiscovery(s, ok).0
  {
  }

  // -------------------------------------------------- discovery runs its course

  /** A discovery request was handed to the socket in between, and refused. */
  ghost predicate RequestRefused(r: RequestState, r1: RequestState) {
    exists i :: |r.tries| <= i < |r1.tries| && !r1.tries[i].ok && DiscoverySignal(r1.tries[i].signal)
  }

  /** The reply is to the discovery request in service. */
  ghost predicate AnswersDiscovery(s: SessionState, ev: Event) {
    && ev.ReplyRead? && s.watching && s.r.req.Some? && IsDiscovery(s.r.req.value)
    && ev.transaction == s.r.req.value.transaction && ev.signal == s.r.req.value.signal
  }

  /** An event that does discovery no harm: no request of it is refused by the
      socket, times out or is answered by anything but an accept, and the
      connection is not given up. */
  ghost predicate Benign(s: Session, ev: Event, ok: Socket)
    requires !s.answering
  {
    var s1 := Step(s, ev, ok);
    && !RequestRefused(s.r, s1.r) && s1.losses == s.losses
    && !(ev.RequestTimeout? && s.r.req.Some? && s.r.req.value.armed && IsDiscovery(s.r.req.value))
    && (AnswersDiscovery(s, ev) ==> ev.kind.Accept?)
  }

  /** Discovery completes. A discovery that is begun while no discovery request
      is outstanding is, after any events that do it no harm, still the current
      one exactly if its idle source is scheduled or one of its requests is
      unanswered; otherwise its callback has been fired. Requests of other
      kinds, of any priority, do not matter. */
  lemma DiscoveryCompletes(s: Session, evs: seq<Event>, ok: Socket)
    requires !s.answering && StartDiscovery(s, ok).1 && !AnswersDue(s.r)
    requires var a := Step(s, Called(CallDiscover), ok);
             forall k :: 0 <= k < |evs| ==> Benign(Steps(a, evs[..k], ok), evs[k], ok)
    ensures var s1 := Steps(Step(s, Called(CallDiscover), ok), evs, ok);
            && (s.asked !in s1.fired <==> Pending(s1, s.asked) && (s1.discover.value.idle || AnswersDue(s1.r)))
            && NoDup(s1.fired)
  {
    hide Step, Benign, StartDiscovery, Steps;
    BeginsDiscovery(s, ok);
    var a := Step(s, Called(CallDiscover), ok);
    NoneSpoils(a, evs, ok);
    FiredOrPending(s, evs, ok);
    SessionDue(Steps(a, evs, ok));
  }

  lemma {:induction false} NoneSpoils(s: Session, evs: seq<Event>, ok: Socket)
    requires !s.answering && !s.spoiled
    requires forall k :: 0 <= k < |evs| ==> Benign(Steps(s, evs[..k], ok), evs[k], ok)
    ensures !Steps(s, evs, ok).spoiled
    decreases |evs|
  {
    hide Step, Benign;
    if evs != [] {
      var before := evs[..|evs| - 1];
      assert forall k :: 0 <= k < |before| ==> before[..k] == evs[..k] && before[k] == evs[k];
      NoneSpoils(s, before, ok);
      SpoiledOnlyBy(Steps(s, before, ok), evs[|evs| - 1], ok);
    }
  }

  lemma SessionDue(s: Session)
    ensures !s.spoiled ==> (s.discover.Some? && !s.discover.value.idle <==> AnswersDue(s.r))
  {
    assert Unfold(1);
  }

  /** And it is fired by the last answer. After events that do such a discovery
      no harm, while it is the current one, an event that does none either fires
      its callback if and only if it is the idle source that was scheduled, or
      the accepted reply to a discovery request after which none is unanswered. */
  lemma LastReplyFires(s: Session, evs: seq<Event>, ev: Event, ok: Socket)
    requires !s.answering && StartDiscovery(s, ok).1 && !AnswersDue(s.r)
    requires var a := Step(s, Called(CallDiscover), ok);
             && (forall k :: 0 <= k < |evs| ==> Benign(Steps(a, evs[..k], ok), evs[k], ok))
             && Pending(Steps(a, evs, ok), s.asked) && Benign(Steps(a, evs, ok), ev, ok)
    ensures var b := Steps(Step(s, Called(CallDiscover), ok), evs, ok);
            var b1 := Step(b, ev, ok);
            && (s.asked in b1.fired
                <==> (ev.DiscoverIdle? && b.discover.value.idle) || (AnswersDiscovery(b, ev) && !AnswersDue(b1.r)))
            && (b1.fired == b.fired || b1.fired == b.fired + [s.asked])
  {
    hide Step, Benign, StartDiscovery, Steps, AnswersDiscovery;
    BeginsDiscovery(s, ok);
    var a := Step(s, Called(CallDiscover), ok);
    NoneSpoils(a, evs, ok);
    AnswerFires(Steps(a, evs, ok), ev, ok);
  }

  lemma AnswerFires(s: Session, ev: Event, ok: Socket)
    requires !s.answering && !s.spoiled && s.discover.Some? && s.discover.value.wanted && Benign(s, ev, ok)
    ensures var s1 := Step(s, ev, ok);
            && (s.discover.value.id in s1.fired
                <==> (ev.DiscoverIdle? && s.discover.value.idle) || (AnswersDiscovery(s, ev) && !AnswersDue(s1.r)))
            && (s1.fired == s.fired || s1.fired == s.fired + [s.discover.value.id])
  {
    hide Step;
    var s1 := Step(s, ev, ok);
    FiredKnown(s);
    SpoiledOnlyBy(s, ev, ok);
    SessionDue(s);
    SessionDue(s1);
    if ev.DiscoverIdle? && s.discover.value.idle {
      IdleFires(s, ok);
    } else if AnswersDiscovery(s, ev) {
      InServiceDue(s);
      StaysCurrent(s, ev, ok);
    } else {
      OthersKeep(s, ev, ok);
    }
  }

  lemma IdleFires(s: Session, ok: Socket)
    requires !s.answering && s.discover.Some? && s.discover.value.wanted && s.discover.value.idle
    ensures Step(s, DiscoverIdle, ok).fired == s.fired + [s.discover.value.id]
  {
  }

  /** The discovery request that is being answered was due. */
  lemma InServiceDue(s: Session)
    requires !s.answering && s.watching && s.r.req.Some? && IsDiscovery(s.r.req.value)
    ensures AnswersDue(s.r)
  {
    AtReply(s);
    var caps := IsCap(s.r.req.value);
    assert s.r.req.value.id in InService(s.r, caps);
  }

  lemma StaysCurrent(s: Session, ev: Event, ok: Socket)
    requires !s.answering && ev.ReplyRead?
    ensures Kept(s, Step(s, ev, ok))
  {
  }

  /** Events that concern no discovery request leave discovery alone. */
  lemma OthersKeep(s: Session, ev: Event, ok: Socket)
    requires !s.answering && s.discover.Some? && !AnswersDiscovery(s, ev)
    requires !(ev.DiscoverIdle? && s.discover.value.idle)
    requires !(ev.RequestTimeout? && s.r.req.Some? && s.r.req.value.armed && IsDiscovery(s.r.req.value))
    requires Step(s, ev, ok).losses == s.losses
    ensures var s1 := Step(s, ev, ok); s1.discover == s.discover && s1.fired == s.fired
  {
    if ev.ReplyRead? && Enabled(s, ev) {
      ReplyKeeps(s, ev.transaction, ev.signal, ev.kind, ev.wellFormed, ev.infos, ok);
    }
  }

  lemma ReplyKeeps(s: Session, transaction: nat, signal: Signal, kind: ReplyKind, wellFormed: bool,
                   infos: seq<SeidInfo>, ok: Socket)
    requires !s.answering && s.watching
    requires s.r.req.Some? && transaction == s.r.req.value.transaction && signal == s.r.req.value.signal
             ==> !IsDiscovery(s.r.req.value)
    requires HandleReply(s, transaction, signal, kind, wellFormed, infos, ok).losses == s.losses
    ensures var s1 := HandleReply(s, transaction, signal, kind, wellFormed, infos, ok);
            s1.discover == s.discover && s1.fired == s.fired
  {
    if s.r.req.Some? && transaction == s.r.req.value.transaction && signal == s.r.req.value.signal {
      AtReply(s);
    }
  }

  /** What can keep a discovery from its course, while it is on it: a discovery
      request that the socket refuses in this very step, that times out, or
      that is answered by anything but an accept, or the loss of the
      connection. */
  lemma SpoiledOnlyBy(s: Session, ev: Event, ok: Socket)
    requires !s.answering && !s.spoiled
    ensures Step(s, ev, ok).spoiled ==> !Benign(s, ev, ok)
  {
    if ev.ReplyRead? && Enabled(s, ev) {
      ReplySpoils(s, ev.transaction, ev.signal, ev.kind, ev.wellFormed, ev.infos, ok);
    } else if ev.CommandRead? && Enabled(s, ev) {
      CommandSpoils(s, ev.c, ok);
    } else if ev == Called(CallDiscover) {
      CallSpoils(s, ok);
    }
  }

  lemma CallSpoils(s: Session, ok: Socket)
    requires !s.spoiled
    ensures StartDiscovery(s, ok).0.spoiled ==> RequestRefused(s.r, StartDiscovery(s, ok).0.r)
  {
    if s.discover.None? && s.remote == {} {
      StartDiscoveryIs(s, ok);
      var r1 := Begun(s, ok).0.r;
      if !Begun(s, ok).1 { assert !r1.tries[|s.r.tries|].ok; }
    }
  }

  lemma ProceedSpoils(s: Session, ok: Socket)
    requires s.r.req.Some? && !s.spoiled && (!s.r.req.value.armed || !IsDiscovery(s.r.req.value))
    ensures Proceed(s, ok).spoiled ==> RequestRefused(s.r, Proceed(s, ok).r)
  {
    var s1 := Proceed(s, ok);
    if s1.spoiled { assert !s1.r.tries[|s.r.tries|].ok; }
  }

  lemma CommandSpoils(s: Session, c: Command, ok: Socket)
    requires !s.answering && !s.spoiled
    ensures var s1 := HandleCommand(s, c, ok); s1.spoiled ==> RequestRefused(s.r, s1.r) || s1.losses > s.losses
  {
    var (s1, good) := Execute(s, c, ok);
    if good && s1.losses == s.losses && s1.r.req.Some? && s1.r.req.value.collided {
      CollidedAside(s1);
      ProceedSpoils(s1, ok);
    }
  }

  lemma CollidedAside(s: Session)
    ensures s.r.req.Some? && s.r.req.value.collided ==> !IsDiscovery(s.r.req.value)
  {
    assert Unfold(0);
  }

  lemma AcceptedSpoils(s: Session, wellFormed: bool, infos: seq<SeidInfo>, ok: Socket)
    requires !s.spoiled && s.r.req.Some? && s.r.req.value.armed
    requires s.r.req.value.stream.Some? ==> s.r.req.value.stream.value in s.objs
    ensures var s1 := Accepted(s, wellFormed, infos, ok);
            s1.spoiled ==> RequestRefused(s.r, s1.r) || s1.losses > s.losses
  {
    if s.r.req.value.signal.Discover? {
      ProceedSpoils(DiscoverAnswered(s, infos), ok);
    } else if IsCap(s.r.req.value) {
      if wellFormed { ProceedSpoils(CapsAnswered(s), ok); }
    } else {
      var s1 := StreamAnswered(Disarm(s, false), ok);
      if s1.losses == s.losses { ProceedSpoils(s1, ok); }
    }
  }

  lemma RejectedSpoils(s: Session, wellFormed: bool, ok: Socket)
    requires !s.spoiled && s.r.req.Some? && s.r.req.value.armed && !IsDiscovery(s.r.req.value)
    requires s.r.req.value.stream.Some? ==> s.r.req.value.stream.value in s.objs
    ensures var s1 := Rejected(s, wellFormed, ok);
            s1.spoiled ==> RequestRefused(s.r, s1.r) || s1.losses > s.losses
  {
    if wellFormed && !s.r.req.value.signal.Abort? {
      ProceedSpoils(StreamRejected(Disarm(s, false)), ok);
    }
  }

  lemma ReplySpoils(s: Session, transaction: nat, signal: Signal, kind: ReplyKind, wellFormed: bool,
                    infos: seq<SeidInfo>, ok: Socket)
    requires !s.answering && s.watching && !s.spoiled
    ensures var s1 := HandleReply(s, transaction, signal, kind, wellFormed, infos, ok);
            s1.spoiled ==> RequestRefused(s.r, s1.r) || s1.losses > s.losses
                           || (s.r.req.Some? && IsDiscovery(s.r.req.value) && !kind.Accept?
                               && transaction == s.r.req.value.transaction && signal == s.r.req.value.signal)
  {
    if s.r.req.Some? && transaction == s.r.req.value.transaction && signal == s.r.req.value.signal {
      AtReply(s);
      if kind.Accept? {
        AcceptedSpoils(s, wellFormed, infos, ok);
      } else if !IsDiscovery(s.r.req.value) {
        if kind.Reject? { RejectedSpoils(s, wellFormed, ok); } else { ProceedSpoils(Disarm(s, false), ok); }
      }
    }
  }

  // ------------------------------------------------------- requests that wait

  /** Requests wait, and none is in service: nothing in the session itself will
      send them. */
  ghost predicate Stalled(r: RequestState) { r.req.None? && (r.prio != [] || r.queue != []) }

  /** A request taken from a queue was refused by the socket in between. */
  ghost predicate QueuedRefused(r: RequestState, r1: RequestState) {
    exists i :: |r.tries| <= i < |r1.tries| && !r1.tries[i].ok && r1.tries[i].via != Direct
  }

  /** The stream of the request in service has gone. */
  ghost predicate TargetGone(s: SessionState, s1: SessionState) {
    s.r.req.Some? && s.r.req.value.stream.Some?
    && s.r.req.value.stream.value in s.objs && s.r.req.value.stream.value !in s1.objs
  }

  /** How a session comes to that: a waiting request is refused by the socket
      when its turn comes, or the stream of the request in service goes, or the
      connection is given up. */
  lemma StallsOnlyBy(s: Session, ev: Event, ok: Socket)
    requires !s.answering && !Stalled(s.r)
    ensures var s1 := Step(s, ev, ok);
            Stalled(s1.r) ==> QueuedRefused(s.r, s1.r) || TargetGone(s, s1) || s1.losses > s.losses
  {
    if Enabled(s, ev) {
      match ev
      case CommandRead(c) => CommandStalls(s, c, ok);
      case ReplyRead(transaction, signal, kind, wellFormed, infos) =>
        ReplyStalls(s, transaction, signal, kind, wellFormed, infos, ok);
      case RequestTimeout => CancelStalls(s, ok);
      case Called(CallDiscover) => DiscoverStalls(s, ok);
      case Called(CallUnregister(e)) => UnregisterStalls(s, e);
      case TransportHangup(t, invalid) => HangupStalls(s, t, invalid);
      case _ =>
    }
  }

  lemma ProceedStalls(s: Session, ok: Socket)
    requires s.r.req.Some?
    ensures Stalled(Proceed(s, ok).r) ==> QueuedRefused(s.r, Proceed(s, ok).r)
  {
    var s1 := Proceed(s, ok);
    if Stalled(s1.r) { assert !s1.r.tries[|s.r.tries|].ok && s1.r.tries[|s.r.tries|].via != Direct; }
  }

  lemma CommandStalls(s: Session, c: Command, ok: Socket)
    requires !s.answering && !Stalled(s.r)
    ensures var s1 := HandleCommand(s, c, ok); Stalled(s1.r) ==> QueuedRefused(s.r, s1.r) || s1.losses > s.losses
  {
    hide Execute;
    var (s1, good) := Execute(s, c, ok);
    if good && s1.r.req.Some? && s1.r.req.value.collided { ProceedStalls(s1, ok); }
  }

  lemma AcceptedStalls(s: Session, wellFormed: bool, infos: seq<SeidInfo>, ok: Socket)
    requires s.r.req.Some? && s.r.req.value.armed
    requires s.r.req.value.stream.Some? ==> s.r.req.value.stream.value in s.objs
    ensures var s1 := Accepted(s, wellFormed, infos, ok);
            Stalled(s1.r) ==> QueuedRefused(s.r, s1.r) || s1.losses > s.losses
  {
    hide CapsAccepted, StreamAccepted;
    if s.r.req.value.signal.Discover? {
      ProceedStalls(DiscoverAnswered(s, infos), ok);
    } else if IsCap(s.r.req.value) {
      CapsStalls(s, wellFormed, ok);
    } else {
      StreamStalls(s, ok);
    }
  }

  lemma CapsStalls(s: Session, wellFormed: bool, ok: Socket)
    requires s.r.req.Some? && IsCap(s.r.req.value) && s.r.req.value.armed
    ensures var s1 := CapsAccepted(s, wellFormed, ok);
            Stalled(s1.r) ==> QueuedRefused(s.r, s1.r) || s1.losses > s.losses
  {
    if wellFormed { ProceedStalls(CapsAnswered(s), ok); }
  }

  lemma StreamStalls(s: Session, ok: Socket)
    requires s.r.req.Some? && !IsDiscovery(s.r.req.value)
    requires s.r.req.value.stream.Some? ==> s.r.req.value.stream.value in s.objs
    ensures var s1 := StreamAccepted(s, ok);
            Stalled(s1.r) ==> QueuedRefused(s.r, s1.r) || s1.losses > s.losses
  {
    var a := StreamAnswered(Disarm(s, false), ok);
    hide StreamAnswered;
    ProceedStalls(a, ok);
  }

  lemma RejectedStalls(s: Session, wellFormed: bool, ok: Socket)
    requires s.r.req.Some? && s.r.req.value.armed
    requires s.r.req.value.stream.Some? ==> s.r.req.value.stream.value in s.objs
    ensures var s1 := Rejected(s, wellFormed, ok);
            Stalled(s1.r) ==> QueuedRefused(s.r, s1.r) || s1.losses > s.losses
  {
    if wellFormed && !s.r.req.value.signal.Abort? {
      if IsDiscovery(s.r.req.value) {
        ProceedStalls(Finalize(Disarm(s, true), true), ok);
      } else {
        ProceedStalls(StreamRejected(Disarm(s, false)), ok);
      }
    }
  }

  lemma ReplyStalls(s: Session, transaction: nat, signal: Signal, kind: ReplyKind, wellFormed: bool,
                    infos: seq<SeidInfo>, ok: Socket)
    requires !s.answering && s.watching && !Stalled(s.r)
    ensures var s1 := HandleReply(s, transaction, signal, kind, wellFormed, infos, ok);
            Stalled(s1.r) ==> QueuedRefused(s.r, s1.r) || s1.losses > s.losses
  {
    hide Accepted, Rejected;
    if s.r.req.Some? && transaction == s.r.req.value.transaction && signal == s.r.req.value.signal {
      AtReply(s);
      match kind
      case Accept => AcceptedStalls(s, wellFormed, infos, ok);
      case Reject => RejectedStalls(s, wellFormed, ok);
      case _ => ProceedStalls(Disarm(s, IsDiscovery(s.r.req.value)), ok);
    }
  }

  /** A request given up is replaced by an ABORT, or the connection is given up. */
  lemma CancelStalls(s: Session, ok: Socket)
    requires s.r.req.Some?
    ensures var s1 := CancelRequest(s, ok).0; s1.losses == s.losses ==> s1.r.req.Some?
  {
    hide CancelOnStream, ConnectionLost;
    var q, s1 := s.r.req.value, GiveUp(s);
    var seid := if q.signal.Discover? then 0 else q.seid;
    if seid != 0 && StreamOf(s1, seid).Some? { AbortFollows(s1, StreamOf(s1, seid).value, q.signal, seid, ok); }
  }

  lemma AbortFollows(s: Session, t: StreamId, signal: Signal, seid: nat, ok: Socket)
    requires t in s.objs && s.r.req.None?
    ensures var s1 := CancelOnStream(s, t, signal, seid, ok).0; s1.losses == s.losses ==> s1.r.req.Some?
  {
    hide ConnectionLost, SendRequest, Mild;
    StreamLinks(s, t);
    var s1 := WithStream(s, t, Cancelled(s.objs[t], s.seps[s.objs[t].lsep], signal));
    SendRequestIs(s1, true, Some(t), Abort, seid, ok);
  }

  lemma DiscoverStalls(s: Session, ok: Socket)
    requires !Stalled(s.r)
    ensures !Stalled(StartDiscovery(s, ok).0.r)
  {
    if s.discover.None? && s.remote == {} {
      StartDiscoveryIs(s, ok);
      SendNewPaced(s.r, false, None, Signal.Discover, 0, ok);
    }
  }

  lemma UnregisterStalls(s: Session, e: SepId)
    requires e in s.seps && !Stalled(s.r)
    ensures var s1 := UnregisterSep(s, e); Stalled(s1.r) ==> TargetGone(s, s1)
  {
    if s.seps[e].stream.Some? {
      IdledIs(s, e);
      SepLinks(s, e);
      IdleStalls(s.r, s.seps[e].stream.value);
    }
  }

  lemma HangupStalls(s: Session, t: StreamId, invalid: bool)
    requires t in s.objs && !Stalled(s.r)
    ensures var s1 := TransportGone(s, t, invalid); Stalled(s1.r) ==> TargetGone(s, s1)
  {
    StreamLinks(s, t);
    var a := WithStream(s, t, s.objs[t].(io := s.objs[t].io && invalid, watch := false));
    if !s.objs[t].abortInt {
      IdledIs(a, s.objs[t].lsep);
      IdleStalls(s.r, t);
    }
  }

  lemma IdleStalls(r: Requests, t: StreamId)
    requires !Stalled(r)
    ensures Stalled(Forget(r, t)) ==> r.req.Some? && r.req.value.stream == Some(t)
  {
    ForgetIs(r, t);
  }

  /** What waits is what waited, but for the requests of a stream that went. */
  ghost predicate SameWaiting(s: SessionState, s1: SessionState) {
    || (s1.r.prio == s.r.prio && s1.r.queue == s.r.queue)
    || (exists t :: t in s.objs && t !in s1.objs && s1.r.prio == Without(s.r.prio, t) && s1.r.queue == Without(s.r.queue, t))
  }

  /** What ends it: only a request made afresh comes into service, and until one
      does, what waits goes on waiting. */
  lemma StallEndsBy(s: Session, ev: Event, ok: Socket)
    requires !s.answering && Stalled(s.r)
    ensures var s1 := Step(s, ev, ok);
            s1.losses == s.losses ==>
              if s1.r.req.Some? then s1.r.req.value.id >= s.r.made else SameWaiting(s, s1)
  {
    if Enabled(s, ev) {
      match ev
      case CommandRead(c) => CommandWaits(s, c, ok);
      case Called(CallDiscover) => DiscoverWaits(s, ok);
      case Called(CallUnregister(e)) => UnregisterWaits(s, e);
      case TransportHangup(t, invalid) => HangupWaits(s, t, invalid);
      case _ =>
    }
  }

  lemma DiscoverWaits(s: Session, ok: Socket)
    ensures Paced(s.r, StartDiscovery(s, ok).0.r)
  {
    if s.discover.None? && s.remote == {} {
      StartDiscoveryIs(s, ok);
      SendNewPaced(s.r, false, None, Signal.Discover, 0, ok);
    }
  }

  lemma UnregisterWaits(s: Session, e: SepId)
    requires e in s.seps && s.r.req.None?
    ensures var s1 := UnregisterSep(s, e); s1.r.req.None? && SameWaiting(s, s1)
  {
    if s.seps[e].stream.Some? {
      IdledIs(s, e);
      SepLinks(s, e);
      ForgetIs(s.r, s.seps[e].stream.value);
    }
  }

  lemma HangupWaits(s: Session, t: StreamId, invalid: bool)
    requires t in s.objs && s.r.req.None?
    ensures var s1 := TransportGone(s, t, invalid); s1.r.req.None? && SameWaiting(s, s1)
  {
    StreamLinks(s, t);
    var a := WithStream(s, t, s.objs[t].(io := s.objs[t].io && invalid, watch := false));
    if !s.objs[t].abortInt {
      IdledIs(a, s.objs[t].lsep);
      ForgetIs(s.r, t);
    }
  }

  /** A command collides with nothing when no request is in service. */
  lemma CommandWaits(s: Session, c: Command, ok: Socket)
    requires !s.answering && s.r.req.None?
    ensures var s1 := HandleCommand(s, c, ok); s1.losses == s.losses ==> Paced(s.r, s1.r)
  {
    CollidesNot(s, c, ok);
    hide Execute;
  }

  lemma CollidesNot(s: Session, c: Command, ok: Socket)
    requires s.r.req.None?
    ensures var s1 := Execute(s, c, ok).0; s1.r.req.Some? ==> !s1.r.req.value.collided
  {
    hide ConfigureCommand, OpenCommand, StartEach, CloseCommand, SuspendEach, AbortCommand;
    match c
    case Plain(_, _) =>
    case ConfigureIt(short, e, rseid, bad, delay, verdict) => ConfiguresNone(s, e, rseid, bad, delay, verdict, ok);
    case OpenIt(short, e, accept) => OpensNone(s, e, accept, ok);
    case StartThem(targets) => StartsNone(s, targets, ok);
    case CloseIt(short, e, accept) => ClosesNone(s, e, accept, ok);
    case SuspendThem(targets) => SuspendsNone(s, targets, ok);
    case AbortIt(short, e) => AbortsNone(s, e, ok);
  }

  lemma ConfiguresNone(s: Session, e: SepId, rseid: nat, bad: bool, delay: bool, verdict: Verdict, ok: Socket)
    requires s.r.req.None?
    ensures var s1 := ConfigureCommand(s, e, rseid, bad, delay, verdict, ok).0;
            s1.r.req.Some? ==> !s1.r.req.value.collided
  {
    hide Configures;
    if e in s.seps && s.seps[e].stream.None? { RestNone(Raised(s, delay), e, rseid, delay, verdict, ok); }
  }

  lemma RestNone(s: Session, e: SepId, rseid: nat, delay: bool, verdict: Verdict, ok: Socket)
    requires s.r.req.None? && e in s.seps && s.seps[e].stream.None?
    ensures var s1 := Configures(s, e, rseid, delay, verdict, ok).0; s1.r.req.Some? ==> !s1.r.req.value.collided
  {
    hide NewlyConfigured, Steady;
    NewNone(SendReply(s, true, ok).0, e, rseid, delay, ok);
  }

  lemma NewNone(s: Session, e: SepId, rseid: nat, delay: bool, ok: Socket)
    requires s.r.req.None? && e in s.seps && s.seps[e].stream.None?
    ensures var s1 := NewlyConfigured(s, e, rseid, delay, ok);
            s1.r.req.Some? ==> !s1.r.req.value.collided
  {
    hide DelayReportOf;
    SepLinks(s, e);
    var a := Attach(s, e, rseid, delay);
    DelayNone(Moved(a, e, Configured), s.made, ok);
  }

  lemma DelayNone(s: Session, t: StreamId, ok: Socket)
    requires s.r.req.None?
    ensures var s1 := DelayReportOf(s, t, ok).0; s1.r.req.Some? ==> !s1.r.req.value.collided
  {
  }

  lemma OpensNone(s: Session, e: SepId, accept: bool, ok: Socket)
    requires s.r.req.None?
    ensures OpenCommand(s, e, accept, ok).0.r.req.None?
  {
  }

  lemma ClosesNone(s: Session, e: SepId, accept: bool, ok: Socket)
    requires s.r.req.None?
    ensures CloseCommand(s, e, accept, ok).0.r.req.None?
  {
    hide Steady;
  }

  lemma AbortsNone(s: Session, e: SepId, ok: Socket)
    requires s.r.req.None?
    ensures AbortCommand(s, e, ok).0.r.req.None?
  {
  }

  lemma {:induction false} StartsNone(s: Session, targets: seq<(SepId, bool)>, ok: Socket)
    requires s.r.req.None?
    ensures StartEach(s, targets, ok).0.r.req.None?
    decreases |targets|
  {
    if targets != [] { StartsNone(StartOne(s, targets[0].0, targets[0].1, ok).0, targets[1..], ok); }
  }

  lemma {:induction false} SuspendsNone(s: Session, targets: seq<(SepId, bool)>, ok: Socket)
    requires s.r.req.None?
    ensures SuspendEach(s, targets, ok).0.r.req.None?
    decreases |targets|
  {
    if targets != [] { SuspendsNone(SuspendOne(s, targets[0].0, targets[0].1, ok).0, targets[1..], ok); }
  }
}
