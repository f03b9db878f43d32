/** The session as the program keeps it: one object whose methods update its
    fields. Every method is proved to do what the function of the same purpose
    in `AvdtpSession` or `AvdtpEvents` says. */
module AvdtpEngine {
  import opened Common
  import opened AvdtpRequests
  import opened AvdtpSession
  import opened AvdtpEvents
  import opened AvdtpRuns

  lemma EmptyList(list: seq<StreamId>)
    ensures (forall t :: t !in list) ==> list == []
  {
    if list != [] { assert list[0] in list; }
  }

  lemma RemovedFirst(s: Session, t: StreamId)
    ensures t in s.streams ==>
              && t in s.objs && s.objs[t].lsep in s.seps && s.seps[s.objs[t].lsep].stream == Some(t)
              && forall u :: u in Idled(s, s.objs[t].lsep).streams ==> u in s.streams && u != t
  {
    StreamLinks(s, t);
    assert Unfold(1);
    RemoveFirstNoDup(s.streams, t);
  }

  lemma Listed(s: Session)
    ensures forall t :: t in s.streams ==> t in s.objs
  {
    assert Unfold(1);
  }

  lemma MineIs(s: Session, rseid: nat)
    ensures StreamOf(s, rseid).Some? <==> rseid in Mine(s)
  {
    assert Unfold(1);
  }

  class Avdtp {
    // struct avdtp, its end points and its streams
    var seps: map<SepId, LocalSep>
    var streams: seq<StreamId>
    var objs: map<StreamId, Stream>
    var pendingOpen: Option<StreamId>
    var req: Option<Req>
    var prioQueue: seq<Req>
    var reqQueue: seq<Req>
    var remote: set<nat>
    var discover: Option<Discovery>
    var v13: bool
    var watching: bool
    // the label counter, and the identities handed out so far
    var transaction: nat
    var nextReq: nat
    var nextStream: nat
    var nextDiscovery: nat
    // which messages the socket takes, and how many it was given
    const ok: Socket
    var sends: nat
    // the session the fields stand for, with its history
    ghost var model: Session

    /** A new session: `avdtp_new`. */
    constructor (transaction: nat, v13: bool, ok: Socket)
      requires transaction < 16
      ensures Valid() && model == Fresh(transaction, v13) && this.ok == ok
    {
      seps, streams, objs, pendingOpen := map[], [], map[], None;
      req, prioQueue, reqQueue := None, [], [];
      remote, discover, watching := {}, None, true;
      this.v13, this.transaction, this.ok := v13, transaction, ok;
      nextReq, nextStream, nextDiscovery, sends := 0, 0, 0, 0;
      model := Fresh(transaction, v13);
    }

    ghost predicate Valid() reads this { StandFor(model) }

    /** The fields stand for the session `s`. */
    ghost predicate StandFor(s: SessionState) reads this {
      forall k | k == 2 && Unfold(k) :: Fits(s) && Holds(s.r)
    }

    ghost predicate Fits(s: SessionState)
      reads this`seps, this`streams, this`objs, this`pendingOpen, this`remote, this`discover, this`v13, this`watching,
            this`nextStream, this`nextDiscovery
    {
      FitsStreams(s) && remote == s.remote && discover == s.discover
    }

    ghost predicate FitsStreams(s: SessionState)
      reads this`seps, this`streams, this`objs, this`pendingOpen, this`v13, this`watching, this`nextStream,
            this`nextDiscovery
    {
      && seps == s.seps && streams == s.streams && objs == s.objs && pendingOpen == s.pendingOpen
      && v13 == s.v13 && watching == s.watching && nextStream == s.made && nextDiscovery == s.asked
    }

    /** The same, looked into only where it is needed. */
    ghost predicate Fitted(s: SessionState)
      reads this`seps, this`streams, this`objs, this`pendingOpen, this`remote, this`discover, this`v13, this`watching,
            this`nextStream, this`nextDiscovery
    {
      forall k | k == 2 && Unfold(k) :: Fits(s)
    }

    lemma Standing(s: SessionState)
      requires StandFor(s)
      ensures Fitted(s) && Holds(s.r)
    {
      assert Unfold(2);
    }

    lemma SameFit(s: Session, s1: Session)
      requires FitsStreams(s) && SameStreams(s, s1)
      ensures FitsStreams(s1)
    {
    }

    ghost predicate Holds(r: RequestState)
      reads this`req, this`prioQueue, this`reqQueue, this`transaction, this`nextReq, this`sends
    {
      && req == r.req && prioQueue == r.prio && reqQueue == r.queue
      && transaction == r.transaction && nextReq == r.made && sends == r.sends
    }

    /** The fields as they are now stand for the session `s`. */
    ghost method Adopt(s: Session)
      requires Fits(s) && Holds(s.r)
      modifies this`model
      ensures Valid() && model == s
    {
      model := s;
    }

    ghost method AdoptWhole(s: Session)
      requires Fitted(s) && Holds(s.r)
      modifies this`model
      ensures Valid() && model == s
    {
      model := s;
    }

    // ------------------------------------------------------------- requests

    /** `avdtp_send`, seen from outside. */
    method Send() returns (good: bool)
      modifies this`sends
      ensures good == ok(old(sends)) && sends == old(sends) + 1
    {
      good := ok(sends);
      sends := sends + 1;
    }

    /** A response or reject. */
    method AnswerPeer(accept: bool) returns (good: bool)
      requires Valid()
      modifies this`sends, this`model
      ensures Valid() && (model, good) == SendReply(old(model), accept, ok)
    {
      assert Unfold(2);
      good := Send();
      Adopt(SendReply(model, accept, ok).0);
    }

    /** `send_req`, for a request that was made and is in no queue. */
    method SendReq(priority: bool, q: Req, ghost r: RequestState, ghost via: Via) returns (good: bool)
      requires Holds(r)
      modifies this`req, this`prioQueue, this`reqQueue, this`transaction, this`sends
      ensures if r.req.Some? then good && Holds(Enqueue(r, priority, q).(made := r.made))
              else Holds(Transmit(r, q, via, ok).0) && good == Transmit(r, q, via, ok).1
    {
      if req.Some? {
        if priority { prioQueue := prioQueue + [q]; } else { reqQueue := reqQueue + [q]; }
        return true;
      }
      var current := transaction;
      transaction := (transaction + 1) % 16;
      good := Send();
      if good { req := Some(q.(transaction := current, armed := true)); }
    }

    /** The part of `send_request` that makes the request. */
    method MakeRequest(priority: bool, stream: Option<StreamId>, signal: Signal, seid: nat, ghost r: Requests)
      returns (good: bool)
      requires Holds(r)
      requires !signal.GetCapabilities? && !signal.GetAllCapabilities?
      requires signal.Discover? ==> !priority && stream.None? && NoCaps(r.prio)
      modifies this`req, this`prioQueue, this`reqQueue, this`transaction, this`nextReq, this`sends
      ensures Holds(SendNew(r, priority, stream, signal, seid, ok).0)
      ensures good == SendNew(r, priority, stream, signal, seid, ok).1
    {
      var q := Req(nextReq, signal, seid, stream, 0, false, false);
      nextReq := nextReq + 1;
      good := SendReq(priority, q, r.(made := r.made + 1), Direct);
    }

    /** `send_request`. */
    method Request(priority: bool, stream: Option<StreamId>, signal: Signal, seid: nat) returns (good: bool)
      requires Valid()
      requires !signal.GetCapabilities? && !signal.GetAllCapabilities? && !signal.Discover?
      requires stream.Some? ==> stream.value in model.objs
      modifies this
      ensures Valid() && (model, good) == SendRequest(old(model), priority, stream, signal, seid, ok)
    {
      hide SendRequest, SendNew, Holds, Fitted, StandFor;
      Standing(model);
      SendRequestIs(model, priority, stream, signal, seid, ok);
      ghost var (after, sent) := SendRequest(model, priority, stream, signal, seid, ok);
      var refused := Refusing(stream, signal, model);
      if refused { return false; }
      OtherRequests(model, after);
      good := MakeRequest(priority, stream, signal, seid, model.r);
      AdoptWhole(after);
    }

    /** A stream that is being aborted takes no other request. */
    method Refusing(stream: Option<StreamId>, signal: Signal, ghost s: Session) returns (yes: bool)
      requires Fitted(s) && (stream.Some? ==> stream.value in s.objs)
      ensures yes <==> stream.Some? && s.objs[stream.value].abortInt && !signal.Abort?
    {
      assert Unfold(2);
      yes := stream.Some? && objs[stream.value].abortInt && !signal.Abort?;
    }

    lemma OtherRequests(s: SessionState, s1: Session)
      requires Fitted(s) && s1 == s.(r := s1.r)
      ensures Fitted(s1)
    {
      assert Unfold(2);
    }

    /** `process_queue`. */
    method Process(ghost r: Requests)
      requires Holds(r)
      modifies this`req, this`prioQueue, this`reqQueue, this`transaction, this`sends
      ensures Holds(ProcessQueue(r, ok))
    {
      if req.Some? { return; }
      if prioQueue != [] {
        var q := prioQueue[0];
        prioQueue := prioQueue[1..];
        var _ := SendReq(false, q, Rest(r, true), FromPrio);
      } else if reqQueue != [] {
        var q := reqQueue[0];
        reqQueue := reqQueue[1..];
        var _ := SendReq(false, q, Rest(r, false), FromQueue);
      }
    }

    /** One of the loops of `cleanup_queue`: finds, frees and unlinks the first
        request of the stream, as long as there is one. */
    static method Unlink(q: seq<Req>, t: StreamId) returns (left: seq<Req>)
      ensures left == Without(q, t)
    {
      left := q;
      var i := 0;
      while i < |left|
        invariant i <= |left| <= |q|
        invariant Without(q, t) == left[..i] + Without(left[i..], t)
        decreases |left| - i
      {
        if left[i].stream == Some(t) {
          assert left[i..][1..] == left[i + 1..];
          assert (left[..i] + left[i + 1..])[i..] == left[i + 1..];
          left := left[..i] + left[i + 1..];
        } else {
          assert left[i..][1..] == left[i + 1..];
          assert left[..i + 1] == left[..i] + [left[i]];
          i := i + 1;
        }
      }
      assert left[i..] == [];
    }

    /** `cleanup_queue`. */
    method CleanupQueue(t: StreamId, ghost r: Requests)
      requires Holds(r)
      modifies this`prioQueue, this`reqQueue
      ensures Holds(Cleanup(r, t))
    {
      prioQueue := Unlink(prioQueue, t);
      reqQueue := Unlink(reqQueue, t);
    }

    /** `handle_unanswered_req`. */
    method HandleUnanswered(ghost r: Requests)
      requires Holds(r) && req.Some?
      modifies this`req
      ensures Holds(DropUnanswered(r))
    {
      if !req.value.armed { return; }
      if req.value.signal.Abort? {
        req := Some(req.value.(stream := None));
        return;
      }
      req := None;
    }

    // -------------------------------------------------------------- streams

    /** Writes the fields of a stream object. */
    method Put(t: StreamId, o: Stream)
      requires Valid() && t in model.objs && o.lsep == model.objs[t].lsep
      modifies this`objs, this`model
      ensures Valid() && model == WithStream(old(model), t, o)
      ensures model.objs == old(model).objs[t := o]
    {
      assert Unfold(2);
      objs := objs[t := o];
      Adopt(WithStream(model, t, o));
    }

    method SetPending(p: Option<StreamId>)
      requires Valid() && (p.Some? ==> p.value in model.objs)
      modifies this`pendingOpen, this`model
      ensures Valid() && model == WithPending(old(model), p)
    {
      assert Unfold(2);
      pendingOpen := p;
      Adopt(WithPending(model, p));
    }

    /** `avdtp_delay_report`. */
    method DelayReport(t: StreamId) returns (good: bool)
      requires Valid()
      modifies this
      ensures Valid() && (model, good) == DelayReportOf(old(model), t, ok)
    {
      assert Unfold(2);
      StreamLinks(model, t);
      if t !in streams { return false; }
      var state := seps[objs[t].lsep].state;
      if !state.Configured? && !state.Streaming? { return false; }
      if !objs[t].delayReporting || !v13 { return false; }
      good := Request(true, Some(t), Signal.DelayReport, objs[t].rseid);
    }

    /** The part of `avdtp_sep_set_state` before the messages and the callbacks. */
    method Move(e: SepId, state: SepState)
      requires Valid() && e in model.seps && model.seps[e].stream.Some?
      modifies this`seps, this`objs, this`model
      ensures Valid() && model == Moved(old(model), e, state)
    {
      hide Moved;
      assert Unfold(2);
      MovedIs(model, e, state);
      Mark(e, seps[e].stream.value, state);
      Adopt(Moved(model, e, state));
    }

    /** The state of an end point and the marks of its stream `t`. */
    method Mark(e: SepId, t: StreamId, state: SepState)
      requires e in seps && t in objs
      modifies this`seps, this`objs
      ensures seps == old(seps)[e := old(seps)[e].(state := state)]
      ensures objs == old(objs)[t := Flags(old(objs)[t], state)]
    {
      seps := seps[e := seps[e].(state := state)];
      match state {
        case Idle => objs := objs[t := objs[t].(startTimer := false)];
        case Configured =>
        case Opened => objs := objs[t := objs[t].(starting := false)];
        case Streaming => objs := objs[t := objs[t].(startTimer := false, openAcp := false)];
        case Closing => objs := objs[t := objs[t].(startTimer := false)];
        case Aborting => objs := objs[t := objs[t].(startTimer := false)];
      }
    }

    /** The requests of a stream that becomes idle. */
    method DropRequests(t: StreamId, ghost r: Requests)
      requires Holds(r)
      modifies this`req, this`prioQueue, this`reqQueue
      ensures Holds(Forget(r, t))
    {
      ghost var r1 := if r.req.Some? && r.req.value.stream == Some(t) then DropUnanswered(r) else r;
      if req.Some? && req.value.stream == Some(t) { HandleUnanswered(r); }
      CleanupQueue(t, r1);
    }

    /** The timers of a stream that becomes idle. */
    method StopTimers(t: StreamId)
      requires t in objs
      modifies this`objs, this`pendingOpen
      ensures objs - {t} == old(objs) - {t} && t in objs && objs[t].lsep == old(objs[t].lsep)
      ensures pendingOpen == if old(pendingOpen) == Some(t) then None else old(pendingOpen)
    {
      objs := objs[t := objs[t].(startTimer := false)];
      if pendingOpen == Some(t) {
        pendingOpen := None;
        objs := objs[t := objs[t].(timer := NoTimer)];
      }
    }

    /** `stream_free`. */
    method FreeStream(t: StreamId)
      requires t in objs && objs[t].lsep in seps
      modifies this`objs, this`seps
      ensures objs == old(objs) - {t}
      ensures var e := old(objs[t].lsep); seps == old(seps)[e := old(seps[e]).(inuse := false, stream := None)]
    {
      var e := objs[t].lsep;
      seps := seps[e := seps[e].(inuse := false, stream := None)];
      objs := objs - {t};
    }

    /** The IDLE part of `avdtp_sep_set_state`. */
    method MakeIdle(e: SepId)
      requires Valid() && e in model.seps && model.seps[e].stream.Some?
      modifies this
      ensures Valid() && model == Idled(old(model), e)
    {
      hide Idled, Forget, Mild;
      assert Unfold(2);
      SepLinks(model, e);
      StreamLinks(model, seps[e].stream.value);
      IdledIs(model, e);
      ghost var after := Idled(model, e);
      Disband(e, seps[e].stream.value, model.r);
      Adopt(after);
    }

    /** The links, for the stream `t` of the end point. */
    method Disband(e: SepId, t: StreamId, ghost r: Requests)
      requires Holds(r)
      requires e in seps && t in streams && t in objs && objs[t].lsep == e
      modifies this`seps, this`streams, this`objs, this`pendingOpen, this`req, this`prioQueue, this`reqQueue
      ensures Holds(Forget(r, t))
      ensures objs == old(objs) - {t} && streams == RemoveFirst(old(streams), t)
      ensures seps == old(seps)[e := old(seps)[e].(state := Idle, inuse := false, stream := None)]
      ensures pendingOpen == if old(pendingOpen) == Some(t) then None else old(pendingOpen)
    {
      hide Forget;
      ghost var was := seps;
      seps := seps[e := seps[e].(state := Idle)];
      StopTimers(t);
      DropRequests(t, r);
      if t in streams {
        streams := RemoveFirst(streams, t);
        FreeStream(t);
      }
      WrittenTwice(was, e, was[e].(state := Idle), was[e].(state := Idle, inuse := false, stream := None));
    }

    /** `avdtp_sep_set_state`. */
    method SepSetState(e: SepId, state: SepState)
      requires Valid() && e in model.seps
      modifies this
      ensures Valid() && model == SetState(old(model), e, state, ok)
    {
      assert Unfold(2);
      if seps[e].stream.None? { return; }
      if state.Idle? {
        MakeIdle(e);
        return;
      }
      var t := seps[e].stream.value;
      Move(e, state);
      if state.Configured? && seps[e].sink {
        var _ := DelayReport(t);
      }
    }

    /** `finalize_discovery`. */
    method FinalizeDiscovery(ghost failed: bool)
      requires Valid()
      requires failed || model.discover.None? || model.discover.value.idle || model.spoiled
      modifies this`discover, this`model
      ensures Valid() && model == Finalize(old(model), failed)
    {
      assert Unfold(2);
      if discover.Some? { discover := None; }
      Adopt(Finalize(model, failed));
    }

    /** `release_stream` for every stream of the list. */
    method ReleaseStreams()
      requires Valid()
      modifies this
      ensures Valid() && model == ReleaseAll(old(model), old(streams))
      ensures streams == []
    {
      assert Unfold(2);
      ghost var s := model;
      var list := streams;
      var i := 0;
      while i < |list|
        invariant 0 <= i <= |list| && Valid()
        invariant ReleaseAll(s, list) == ReleaseAll(model, list[i..])
        invariant forall t :: t in streams ==> t in list[i..]
      {
        assert list[i..][0] == list[i] && list[i..][1..] == list[i + 1..];
        StreamLinks(model, list[i]);
        RemovedFirst(model, list[i]);
        if list[i] in streams {
          ghost var before := streams;
          MakeIdle(objs[list[i]].lsep);
          assert forall t :: t in streams ==> t in before && t != list[i];
        }
        i := i + 1;
      }
      assert list[i..] == [];
      EmptyList(streams);
    }

    /** `connection_lost`. */
    method LoseConnection()
      requires Valid()
      modifies this
      ensures Valid() && model == ConnectionLost(old(model))
    {
      assert Unfold(2);
      ghost var s := model;
      ReleaseStreams();
      streams := [];
      FinalizeDiscovery(true);
      Adopt(ConnectionLost(s));
    }

    /** `find_stream_by_rseid`. */
    method FindStream(rseid: nat) returns (found: Option<StreamId>)
      requires forall t :: t in streams ==> t in objs
      ensures found == FindByRseid(streams, objs, rseid)
    {
      var i := 0;
      while i < |streams|
        invariant 0 <= i <= |streams|
        invariant FindByRseid(streams, objs, rseid) == FindByRseid(streams[i..], objs, rseid)
      {
        if objs[streams[i]].rseid == rseid { return Some(streams[i]); }
        assert streams[i..][1..] == streams[i + 1..];
        i := i + 1;
      }
      assert streams[i..] == [];
      found := None;
    }

    /** `pending_req_free` of the request in service, when it is given up. */
    method DropRequest()
      requires Valid() && model.r.req.Some?
      modifies this`req, this`model
      ensures Valid() && model == GiveUp(old(model))
    {
      assert Unfold(2);
      req := None;
      Adopt(GiveUp(model));
    }

    /** `cancel_request`. */
    method Cancel() returns (good: bool)
      requires Valid() && model.r.req.Some?
      modifies this
      ensures Valid() && (model, good) == CancelRequest(old(model), ok)
    {
      assert Unfold(2);
      var q := req.value;
      DropRequest();
      var seid := if q.signal.Discover? then 0 else q.seid;
      var stream := None;
      if seid != 0 {
        Listed(model);
        stream := FindStream(seid);
      }
      if stream.None? {
        LoseConnection();
        return false;
      }
      good := CancelFor(stream.value, q.signal, seid);
    }

    /** The rest of `cancel_request`, for a request about the stream `t`. */
    method CancelFor(t: StreamId, signal: Signal, seid: nat) returns (good: bool)
      requires Valid() && t in model.objs
      modifies this
      ensures Valid() && (model, good) == CancelOnStream(old(model), t, signal, seid, ok)
    {
      hide WithStream, SendRequest, ConnectionLost;
      MarkCancelled(t, signal);
      if signal.SetConfiguration? || signal.GetCapabilities? || signal.Abort? {
        LoseConnection();
        return false;
      }
      good := Request(true, Some(t), Signal.Abort, seid);
      if !good { LoseConnection(); }
    }

    /** The marks of a stream whose request is given up. */
    method MarkCancelled(t: StreamId, signal: Signal)
      requires Valid() && t in model.objs
      modifies this`objs, this`model
      ensures Valid() && t in model.objs
      ensures var s := old(model);
              && s.objs[t].lsep in s.seps
              && model == WithStream(s, t, Cancelled(s.objs[t], s.seps[s.objs[t].lsep], signal))
    {
      hide WithStream;
      assert Unfold(2);
      StreamLinks(model, t);
      var o, cfm := objs[t], seps[objs[t].lsep].cfm;
      o := o.(abortInt := true);
      if signal.Start? && cfm { o := o.(starting := false); }
      if signal.Close? && cfm { o := o.(closeInt := false); }
      Put(t, o);
    }

    // -------------------------------------------- calls of the application

    /** `avdtp_abort`. */
    method AbortCall(t: StreamId) returns (good: bool)
      requires Valid()
      modifies this
      ensures Valid() && (model, good) == AbortStream(old(model), t, ok)
    {
      assert Unfold(2);
      StreamLinks(model, t);
      if t !in streams { return false; }
      if seps[objs[t].lsep].state.Aborting? { return false; }
      if req.Some? && req.value.armed && req.value.stream == Some(t) {
        good := Cancel();
        return;
      }
      good := Request(true, Some(t), Signal.Abort, objs[t].rseid);
      if good { Put(t, objs[t].(abortInt := true)); }
    }

    /** `avdtp_open`. */
    method OpenCall(t: StreamId) returns (good: bool)
      requires Valid()
      modifies this
      ensures Valid() && (model, good) == OpenStream(old(model), t, ok)
    {
      assert Unfold(2);
      StreamLinks(model, t);
      if t !in streams { return false; }
      var state := seps[objs[t].lsep].state;
      if !state.Idle? && !state.Configured? { return false; }
      good := Request(false, Some(t), Signal.Open, objs[t].rseid);
    }

    /** `avdtp_start`. */
    method StartCall(t: StreamId) returns (good: bool)
      requires Valid()
      modifies this
      ensures Valid() && (model, good) == StartStream(old(model), t, ok)
    {
      assert Unfold(2);
      StreamLinks(model, t);
      if t !in streams { return false; }
      if !seps[objs[t].lsep].state.Opened? { return false; }
      if objs[t].openAcp {
        if !objs[t].startTimer { Put(t, objs[t].(startTimer := true)); }
        return true;
      }
      if objs[t].closeInt { return false; }
      if objs[t].starting { return false; }
      good := Request(false, Some(t), Signal.Start, objs[t].rseid);
      if good { Put(t, objs[t].(starting := true)); }
    }

    /** `avdtp_close`. */
    method CloseCall(t: StreamId, immediate: bool) returns (good: bool)
      requires Valid()
      modifies this
      ensures Valid() && (model, good) == CloseStream(old(model), t, immediate, ok)
    {
      assert Unfold(2);
      StreamLinks(model, t);
      if t !in streams { return false; }
      if objs[t].closeInt { return false; }
      var state := seps[objs[t].lsep].state;
      if state.Idle? || state.Configured? {
        good := AbortCall(t);
        return;
      }
      if immediate && req.Some? && req.value.stream == Some(t) {
        good := AbortCall(t);
        return;
      }
      good := Request(false, Some(t), Signal.Close, objs[t].rseid);
      if good { Put(t, objs[t].(closeInt := true)); }
    }

    /** `avdtp_suspend`. */
    method SuspendCall(t: StreamId) returns (good: bool)
      requires Valid()
      modifies this
      ensures Valid() && (model, good) == SuspendStream(old(model), t, ok)
    {
      assert Unfold(2);
      StreamLinks(model, t);
      if t !in streams { return false; }
      var state := seps[objs[t].lsep].state;
      if state.Idle? || state.Configured? || state.Opened? || objs[t].closeInt { return false; }
      good := Request(false, Some(t), Signal.Suspend, objs[t].rseid);
    }

    /** `avdtp_discover`. */
    method DiscoverCall() returns (good: bool)
      requires Valid()
      modifies this
      ensures Valid() && (model, good) == StartDiscovery(old(model), ok)
    {
      assert Unfold(2);
      if discover.Some? { return false; }
      if remote != {} {
        Begin(true, true);
        Adopt(StartDiscovery(model, ok).0);
        return true;
      }
      good := DiscoverPeer();
    }

    /** The part of `avdtp_discover` that asks the peer. */
    method DiscoverPeer() returns (good: bool)
      requires Valid() && model.discover.None? && model.remote == {}
      modifies this
      ensures Valid() && (model, good) == StartDiscovery(old(model), ok)
    {
      hide StartDiscovery, SendNew, Unanswered;
      assert Unfold(2);
      StartDiscoveryIs(model, ok);
      ghost var after := StartDiscovery(model, ok).0;
      good := MakeRequest(false, None, Signal.Discover, 0, model.r);
      Begin(false, good);
      Adopt(after);
    }

    method Begin(idle: bool, wanted: bool)
      modifies this`discover, this`nextDiscovery
      ensures discover == Some(Discovery(old(nextDiscovery), idle, wanted)) && nextDiscovery == old(nextDiscovery) + 1
    {
      discover := Some(Discovery(nextDiscovery, idle, wanted));
      nextDiscovery := nextDiscovery + 1;
    }

    /** `avdtp_set_configuration`. */
    method ConfigureCall(e: SepId, rseid: nat, delay: bool) returns (good: bool)
      requires Valid() && e in model.seps && !model.seps[e].inuse
      modifies this
      ensures Valid() && (model, good) == Configure(old(model), e, rseid, delay, ok)
    {
      hide Configure, SendNew, AttachState, Holds, Fitted, StandFor;
      Standing(model);
      ConfigureIs(model, e, rseid, delay, ok);
      ghost var (after, sent) := Configure(model, e, rseid, delay, ok);
      var t := NextStream(model);
      good := MakeRequest(false, Some(t), SetConfiguration, rseid, model.r);
      Settle(good, e, rseid, delay, model, after);
      AdoptWhole(after);
    }

    /** The stream object the request is made for. */
    method NextStream(ghost s: SessionState) returns (t: StreamId)
      requires Fitted(s)
      ensures t == s.made
    {
      assert Unfold(2);
      t := nextStream;
    }

    /** The rest of it: the stream enters the lists, or is freed again. */
    method Settle(good: bool, e: SepId, rseid: nat, delay: bool, ghost s: Session, ghost after: Session)
      requires Fitted(s) && e in s.seps && !s.seps[e].inuse
      requires after == if good then AttachState(s, e, rseid, delay).(r := after.r) else s.(r := after.r)
      modifies this`seps, this`streams, this`objs, this`nextStream
      ensures Fitted(after)
    {
      hide AttachState;
      assert Unfold(2);
      if good {
        Install(e, rseid, delay, s);
        OtherRequests(AttachState(s, e, rseid, delay), after);
      } else {
        Detached(e, s);
        OtherRequests(s, after);
      }
    }

    /** The `stream_free` of a stream that never entered the lists. */
    method Detached(e: SepId, ghost s: Session)
      requires Fits(s) && e in seps && !seps[e].inuse
      modifies this`seps
      ensures Fits(s)
    {
      SepLinks(s, e);
      seps := seps[e := seps[e].(inuse := false, stream := None)];
      assert seps == s.seps;
    }

    /** A new stream object enters the lists. */
    method Install(e: SepId, rseid: nat, delay: bool, ghost s: SessionState)
      requires Fits(s) && e in seps
      modifies this`seps, this`streams, this`objs, this`nextStream
      ensures Fits(AttachState(s, e, rseid, delay))
    {
      var t := nextStream;
      nextStream := nextStream + 1;
      objs := objs[t := Stream(e, rseid, false, false, NoTimer, false, false, false, false, delay, false)];
      seps := seps[e := seps[e].(inuse := true, stream := Some(t))];
      streams := streams + [t];
    }

    /** `avdtp_stream_set_transport` and `handle_transport_connect`. */
    method SetTransport(t: StreamId, settable: bool) returns (good: bool)
      requires Valid()
      modifies this
      ensures Valid() && (model, good) == Connect(old(model), t, settable, ok)
    {
      assert Unfold(2);
      if pendingOpen != Some(t) || !settable { return false; }
      assert t in objs by { assert Unfold(1); }
      StreamLinks(model, t);
      SetPending(None);
      Put(t, objs[t].(timer := NoTimer, io := true));
      EnterKeeps(model, objs[t].lsep, Opened, ok);
      SepSetState(objs[t].lsep, Opened);
      Put(t, objs[t].(watch := true));
      good := true;
    }

    /** `avdtp_register_sep`, with the SEID chosen, if there is one. */
    method Register(free: Option<SepId>, sink: bool, cfm: bool, ind: bool)
      requires Valid() && (free.Some? ==> free.value !in model.seps)
      modifies this`seps, this`model
      ensures Valid() && model == RegisterSep(old(model), free, sink, cfm, ind)
    {
      assert Unfold(2);
      if free.None? { return; }
      seps := seps[free.value := LocalSep(Idle, None, false, sink, cfm, ind)];
      Adopt(RegisterSep(model, free, sink, cfm, ind));
    }

    /** `avdtp_unregister_sep`. */
    method Unregister(e: SepId)
      requires Valid() && e in model.seps
      modifies this
      ensures Valid() && model == UnregisterSep(old(model), e)
    {
      assert Unfold(2);
      ghost var a := UnregisterSep(model, e);
      if seps[e].stream.Some? { MakeIdle(e); }
      seps := seps - {e};
      Adopt(a);
    }

    // ------------------------------------------------ commands of the peer

    /** `avdtp_check_collision`. */
    method CheckCollision(command: Signal, rseid: nat)
      requires Valid()
      modifies this`req, this`model
      ensures Valid() && model == Collide(old(model), command, rseid)
    {
      assert Unfold(2);
      if req.None? { return; }
      var q := req.value;
      if q.signal != command && !command.Abort? { return; }
      if (q.signal.Open? || q.signal.Close? || q.signal.Start? || q.signal.Suspend?) && q.seid == rseid {
        req := Some(q.(collided := true));
        Adopt(Marked(model));
      }
    }

    /** `avdtp_open_cmd`. */
    method OpenCmd(e: SepId, accept: bool) returns (good: bool)
      requires Valid()
      modifies this
      ensures Valid() && (model, good) == OpenCommand(old(model), e, accept, ok)
    {
      assert Unfold(2);
      if e !in seps || !seps[e].state.Configured? || (seps[e].ind && !accept) {
        good := AnswerPeer(false);
        return;
      }
      SepLinks(model, e);
      var t := seps[e].stream.value;
      CheckCollision(Signal.Open, objs[t].rseid);
      good := AnswerPeer(true);
      if good {
        Put(t, objs[t].(openAcp := true, timer := OpenTimer));
        SetPending(Some(t));
      }
    }

    /** One round of the loop of `avdtp_start_cmd`. */
    method StartSep(e: SepId, accept: bool) returns (good: bool)
      requires Valid()
      modifies this
      ensures Valid() && (model, good) == StartOne(old(model), e, accept, ok)
    {
      assert Unfold(2);
      if e !in seps || seps[e].stream.None? || !seps[e].state.Opened? { return false; }
      SepLinks(model, e);
      var t := seps[e].stream.value;
      var rseid := objs[t].rseid;
      Put(t, objs[t].(starting := true));
      if seps[e].ind && !accept { return false; }
      CheckCollision(Start, rseid);
      SepSetState(e, Streaming);
      good := true;
    }

    /** `avdtp_start_cmd`. */
    method StartCmd(targets: seq<(SepId, bool)>) returns (good: bool)
      requires Valid()
      modifies this
      ensures Valid() && (model, good) == Execute(old(model), StartThem(targets), ok)
    {
      hide StartOne, SendReply;
      if targets == [] { return false; }
      ghost var s := model;
      var i := 0;
      good := true;
      while i < |targets| && good
        invariant 0 <= i <= |targets| && Valid()
        invariant StartEach(s, targets, ok) == if good then StartEach(model, targets[i..], ok) else (model, false)
        decreases |targets| - i
      {
        assert targets[i..][0] == targets[i] && targets[i..][1..] == targets[i + 1..];
        good := StartSep(targets[i].0, targets[i].1);
        i := i + 1;
      }
      assert good ==> targets[i..] == [];
      good := AnswerPeer(good);
    }

    /** One round of the loop of `avdtp_suspend_cmd`. */
    method SuspendSep(e: SepId, accept: bool) returns (good: bool)
      requires Valid()
      modifies this
      ensures Valid() && (model, good) == SuspendOne(old(model), e, accept, ok)
    {
      assert Unfold(2);
      if e !in seps || seps[e].stream.None? || !seps[e].state.Streaming? { return false; }
      if seps[e].ind && !accept { return false; }
      SepLinks(model, e);
      CheckCollision(Suspend, objs[seps[e].stream.value].rseid);
      SepSetState(e, Opened);
      good := true;
    }

    /** `avdtp_suspend_cmd`. */
    method SuspendCmd(targets: seq<(SepId, bool)>) returns (good: bool)
      requires Valid()
      modifies this
      ensures Valid() && (model, good) == Execute(old(model), SuspendThem(targets), ok)
    {
      hide SuspendOne, SendReply;
      if targets == [] { return false; }
      ghost var s := model;
      var i := 0;
      good := true;
      while i < |targets| && good
        invariant 0 <= i <= |targets| && Valid()
        invariant SuspendEach(s, targets, ok) == if good then SuspendEach(model, targets[i..], ok) else (model, false)
        decreases |targets| - i
      {
        assert targets[i..][0] == targets[i] && targets[i..][1..] == targets[i + 1..];
        good := SuspendSep(targets[i].0, targets[i].1);
        i := i + 1;
      }
      assert good ==> targets[i..] == [];
      good := AnswerPeer(good);
    }

    /** `avdtp_close_cmd`. */
    method CloseCmd(e: SepId, accept: bool) returns (good: bool)
      requires Valid()
      modifies this
      ensures Valid() && (model, good) == CloseCommand(old(model), e, accept, ok)
    {
      assert Unfold(2);
      if e !in seps || seps[e].stream.None? || (!seps[e].state.Opened? && !seps[e].state.Streaming?)
         || (seps[e].ind && !accept)
      {
        good := AnswerPeer(false);
        return;
      }
      SepLinks(model, e);
      var t := seps[e].stream.value;
      CheckCollision(Close, objs[t].rseid);
      EnterKeeps(model, e, Closing, ok);
      SepSetState(e, Closing);
      good := AnswerPeer(true);
      if good { Put(t, objs[t].(timer := CloseTimer)); }
    }

    /** `avdtp_abort_cmd`. */
    method AbortCmd(e: SepId) returns (good: bool)
      requires Valid()
      modifies this
      ensures Valid() && (model, good) == AbortCommand(old(model), e, ok)
    {
      assert Unfold(2);
      if e !in seps || seps[e].stream.None? { return true; }
      SepLinks(model, e);
      CheckCollision(Signal.Abort, objs[seps[e].stream.value].rseid);
      good := AnswerPeer(true);
      if good { SepSetState(e, Aborting); }
    }

    /** `avdtp_setconf_cmd`. */
    method SetconfCmd(e: SepId, rseid: nat, badTransport: bool, delay: bool, verdict: Verdict) returns (good: bool)
      requires Valid()
      modifies this
      ensures Valid() && (model, good) == ConfigureCommand(old(model), e, rseid, badTransport, delay, verdict, ok)
    {
      hide NewlyConfigured;
      assert Unfold(2);
      if e !in seps || seps[e].stream.Some? || badTransport {
        good := AnswerPeer(false);
        return;
      }
      RaiseVersion(delay);
      good := AnswerPeer(!(seps[e].ind && (verdict.Refuse? || verdict.AnswerError?)));
      if seps[e].ind && verdict.Refuse? { return; }
      if seps[e].ind && verdict.AnswerError? { return true; }
      if !good { return seps[e].ind; }
      NewStream(e, rseid, delay);
    }

    /** An accepted configuration. */
    method NewStream(e: SepId, rseid: nat, delay: bool)
      requires Valid() && e in model.seps && model.seps[e].stream.None?
      modifies this
      ensures Valid() && model == NewlyConfigured(old(model), e, rseid, delay, ok)
    {
      SepLinks(model, e);
      AcceptStream(e, rseid, delay);
      SepSetState(e, Configured);
    }

    /** A delay reporting capability shows that the peer knows version 1.3. */
    method RaiseVersion(delay: bool)
      requires Valid()
      modifies this`v13, this`model
      ensures Valid() && model == Raised(old(model), delay)
    {
      assert Unfold(2);
      if delay { v13 := true; }
      Adopt(Raised(model, delay));
    }

    /** The stream of an accepted configuration. */
    method AcceptStream(e: SepId, rseid: nat, delay: bool)
      requires Valid() && e in model.seps && !model.seps[e].inuse
      modifies this`seps, this`streams, this`objs, this`nextStream, this`model
      ensures Valid() && model == Attach(old(model), e, rseid, delay)
    {
      assert Unfold(2);
      ghost var after := Attach(model, e, rseid, delay);
      Install(e, rseid, delay, model);
      Adopt(after);
    }

    // ---------------------------------------------------------- replies

    /** The reply timer of the request in service is removed. */
    method StopTimer(ghost refused: bool)
      requires Valid() && model.r.req.Some? && (IsDiscovery(model.r.req.value) ==> refused)
      modifies this`req, this`model
      ensures Valid() && model == Disarm(old(model), refused)
      ensures model.r.req == Some(old(model).r.req.value.(armed := false)) && model.objs == old(model).objs
    {
      assert Unfold(2);
      req := Some(req.value.(armed := false));
      Adopt(Disarm(model, refused));
    }

    /** The end of `session_cb`: `pending_req_free` and `process_queue`. */
    method ProceedNext()
      requires Valid() && model.r.req.Some?
      modifies this
      ensures Valid() && model == Proceed(old(model), ok)
    {
      hide Proceed, ProcessQueue;
      assert Unfold(2);
      ProceedIs(model, ok);
      ghost var after := Proceed(model, ok);
      req := None;
      Process(Finish(model.r));
      AdoptWhole(after);
    }

    /** The failure exit of `session_cb`. */
    method Break()
      requires Valid()
      modifies this
      ensures Valid() && model == Broken(old(model))
    {
      ghost var after := Broken(model);
      LoseConnection();
      assert Unfold(2);
      watching := false;
      Adopt(after);
    }

    /** The loop of `avdtp_discover_resp`. */
    method AskEach(infos: seq<SeidInfo>, ghost r: Requests, ghost s: Session)
      requires Holds(r) && r.req.Some? && r.req.value.signal.Discover? && !r.req.value.armed && CapsLast(r.prio)
      requires streams == s.streams && objs == s.objs
      modifies this`prioQueue, this`nextReq, this`remote
      ensures var (r1, remote1) := AskCaps(r, old(remote), Mine(s), infos, v13); Holds(r1) && remote == remote1
    {
      ghost var r1 := r;
      var i := 0;
      while i < |infos|
        invariant 0 <= i <= |infos|
        invariant Holds(r1) && r1.req == r.req && CapsLast(r1.prio)
        invariant AskCaps(r, old(remote), Mine(s), infos, v13) == AskCaps(r1, remote, Mine(s), infos[i..], v13)
      {
        assert infos[i..][0] == infos[i] && infos[i..][1..] == infos[i + 1..];
        var seid := infos[i].seid;
        var skip := false;
        if seid !in remote && infos[i].inuse {
          Listed(s);
          var own := FindStream(seid);
          MineIs(s, seid);
          skip := own.None?;
        }
        if !skip {
          remote := remote + {seid};
          r1 := AskOne(if v13 then GetAllCapabilities else GetCapabilities, seid, r1);
        }
        i := i + 1;
      }
      assert infos[i..] == [];
    }

    /** `send_request` for a capability request: one is in service, so it waits. */
    method AskOne(signal: Signal, seid: nat, ghost r: Requests) returns (ghost r1: Requests)
      requires Holds(r) && r.req.Some? && r.req.value.signal.Discover? && !r.req.value.armed && CapsLast(r.prio)
      requires signal.GetCapabilities? || signal.GetAllCapabilities?
      modifies this`prioQueue, this`nextReq
      ensures r1 == SendCap(r, signal, seid) && Holds(r1)
    {
      r1 := SendCap(r, signal, seid);
      prioQueue := prioQueue + [Req(nextReq, signal, seid, None, 0, false, false)];
      nextReq := nextReq + 1;
    }

    /** `avdtp_discover_resp`. */
    method DiscoverResp(infos: seq<SeidInfo>)
      requires Valid() && model.r.req.Some? && model.r.req.value.signal.Discover? && model.r.req.value.armed
      modifies this`req, this`prioQueue, this`nextReq, this`remote, this`discover, this`model
      ensures Valid() && model == DiscoverAnswered(old(model), infos) && model.r.req.Some?
    {
      hide DiscoverAnswered, AskCaps, Unarmed, Mine, FitsStreams, SameStreams;
      assert Unfold(2);
      DiscoverAnsweredIs(model, infos);
      ghost var after := DiscoverAnswered(model, infos);
      SameFit(model, after);
      var before := nextReq;
      ClearTimer(model.r);
      AskEach(infos, Unarmed(model.r), model);
      Conclude(nextReq == before);
      AdoptWhole(after);
    }

    method ClearTimer(ghost r: Requests)
      requires Holds(r) && r.req.Some?
      modifies this`req
      ensures Holds(Unarmed(r))
      ensures Unarmed(r) == r.(req := Some(r.req.value.(armed := false)))
    {
      req := Some(req.value.(armed := false));
    }

    /** `finalize_discovery`, when there is nothing left to ask for. */
    method Conclude(complete: bool)
      modifies this`discover
      ensures discover == if complete then None else old(discover)
    {
      if complete && discover.Some? { discover := None; }
    }

    /** An accepted capability reply: `finalize_discovery` unless the next
        request is another capability request. */
    method CapsResp()
      requires Valid() && model.r.req.Some? && IsCap(model.r.req.value) && model.r.req.value.armed
      modifies this`req, this`discover, this`model
      ensures Valid() && model == CapsAnswered(old(model)) && model.r.req.Some?
    {
      hide CapsAnswered, Unarmed;
      assert Unfold(2);
      CapsAnsweredIs(model);
      ghost var after := CapsAnswered(model);
      ClearTimer(model.r);
      var more := if prioQueue != [] then IsCap(prioQueue[0]) else reqQueue != [] && IsCap(reqQueue[0]);
      Conclude(!more);
      Adopt(after);
    }

    /** The rest of `avdtp_parse_resp`, for requests about a stream. */
    method StreamResp()
      requires Valid() && model.r.req.Some? && !model.r.req.value.armed
      requires model.r.req.value.stream.Some? ==> model.r.req.value.stream.value in model.objs
      modifies this
      ensures Valid() && model == StreamAnswered(old(model), ok)
    {
      assert Unfold(2);
      if req.value.stream.None? { return; }
      var t := req.value.stream.value;
      StreamLinks(model, t);
      var e := objs[t].lsep;
      match req.value.signal {
        case SetConfiguration => SepSetState(e, Configured);
        case Open => SetPending(Some(t));
        case Suspend => SepSetState(e, Opened);
        case Start => if !seps[e].state.Streaming? { SepSetState(e, Streaming); }
        case Close => CloseResp(t);
        case Abort => AbortResp(t);
        case _ =>
      }
    }

    /** `avdtp_close_resp`. */
    method CloseResp(t: StreamId)
      requires Valid() && model.r.req.Some? && t in model.objs
      modifies this
      ensures Valid() && model == CloseAnswered(old(model), t, ok)
    {
      assert Unfold(2);
      StreamLinks(model, t);
      EnterKeeps(model, objs[t].lsep, Closing, ok);
      SepSetState(objs[t].lsep, Closing);
      Put(t, objs[t].(io := false));
    }

    /** `avdtp_abort_resp`. */
    method AbortResp(t: StreamId)
      requires Valid() && model.r.req.Some? && t in model.objs && !model.r.req.value.armed
      modifies this
      ensures Valid() && model == AbortAnswered(old(model), t, ok)
    {
      assert Unfold(2);
      StreamLinks(model, t);
      var e := objs[t].lsep;
      EnterKeeps(model, e, Aborting, ok);
      SepSetState(e, Aborting);
      SepSetState(e, Idle);
    }

    /** The part of `avdtp_parse_rej` about streams. */
    method StreamRej()
      requires Valid() && model.r.req.Some?
      requires model.r.req.value.stream.Some? ==> model.r.req.value.stream.value in model.objs
      modifies this
      ensures Valid() && model == StreamRejected(old(model))
    {
      assert Unfold(2);
      if req.value.stream.None? { return; }
      var t := req.value.stream.value;
      StreamLinks(model, t);
      var cfm := seps[objs[t].lsep].cfm;
      if req.value.signal.Start? && cfm {
        Put(t, objs[t].(starting := false));
      } else if req.value.signal.Close? && cfm {
        Put(t, objs[t].(closeInt := false));
      }
    }

    // ----------------------------------------------------- the sources

    /** The request in service. */
    method InService() returns (q: Option<Req>)
      requires Valid()
      ensures q == model.r.req
    {
      assert Unfold(2);
      q := req;
    }

    /** `avdtp_parse_resp`, and what `session_cb` does after it. */
    method ParseResp(wellFormed: bool, infos: seq<SeidInfo>)
      requires Valid() && model.r.req.Some? && model.r.req.value.armed
      requires model.r.req.value.stream.Some? ==> model.r.req.value.stream.value in model.objs
      modifies this
      ensures Valid() && model == Accepted(old(model), wellFormed, infos, ok)
    {
      hide Proceed, Broken, DiscoverAnswered, CapsAnswered, StreamAnswered, Disarm, StandFor;
      var q := InService();
      if q.value.signal.Discover? {
        DiscoverResp(infos);
      } else if IsCap(q.value) {
        if !wellFormed {
          StopTimer(true);
          Break();
          return;
        }
        CapsResp();
      } else {
        StopTimer(false);
        StreamResp();
      }
      ProceedNext();
    }

    /** `avdtp_parse_rej`, and what `session_cb` does after it. */
    method ParseRej(wellFormed: bool)
      requires Valid() && model.r.req.Some?
      requires model.r.req.value.stream.Some? ==> model.r.req.value.stream.value in model.objs
      modifies this
      ensures Valid() && model == Rejected(old(model), wellFormed, ok)
    {
      hide Proceed, Broken, StreamRejected, Disarm, StandFor;
      var q := InService();
      StopTimer(IsDiscovery(q.value));
      if !wellFormed || q.value.signal.Abort? {
        Break();
        return;
      }
      if IsDiscovery(q.value) { FinalizeDiscovery(true); } else { StreamRej(); }
      ProceedNext();
    }

    /** The reply half of `session_cb`. */
    method ReadReply(transactionId: nat, signal: Signal, kind: ReplyKind, wellFormed: bool, infos: seq<SeidInfo>)
      requires Valid() && !model.answering && model.watching
      modifies this
      ensures Valid() && model == HandleReply(old(model), transactionId, signal, kind, wellFormed, infos, ok)
    {
      hide Proceed, Accepted, Rejected, Disarm, StandFor;
      var q := InService();
      if q.None? || transactionId != q.value.transaction || signal != q.value.signal { return; }
      AtReply(model);
      match kind {
        case Accept => ParseResp(wellFormed, infos);
        case Reject => ParseRej(wellFormed);
        case GeneralReject =>
          StopTimer(IsDiscovery(q.value));
          ProceedNext();
        case UnknownType =>
          StopTimer(IsDiscovery(q.value));
          ProceedNext();
      }
    }

    /** `avdtp_parse_cmd`. */
    method ParseCmd(c: Command) returns (good: bool)
      requires Valid()
      modifies this
      ensures Valid() && (model, good) == Execute(old(model), c, ok)
    {
      good := false;
      match c {
        case Plain(wellFormed, accept) => if wellFormed { good := AnswerPeer(accept); }
        case ConfigureIt(short, e, rseid, bad, delay, verdict) =>
          if !short { good := SetconfCmd(e, rseid, bad, delay, verdict); }
        case OpenIt(short, e, accept) => if !short { good := OpenCmd(e, accept); }
        case StartThem(targets) => good := StartCmd(targets);
        case CloseIt(short, e, accept) => if !short { good := CloseCmd(e, accept); }
        case SuspendThem(targets) => good := SuspendCmd(targets);
        case AbortIt(short, e) => if !short { good := AbortCmd(e); }
      }
    }

    /** The command half of `session_cb`. */
    method ReadCommand(c: Command)
      requires Valid() && !model.answering
      modifies this
      ensures Valid() && model == HandleCommand(old(model), c, ok)
    {
      var good := ParseCmd(c);
      assert Unfold(2);
      if !good {
        Break();
      } else if req.Some? && req.value.collided {
        ProceedNext();
      }
    }

    /** `stream_open_timeout`. */
    method OpenTimedOutCb(t: StreamId)
      requires Valid() && t in model.objs
      modifies this
      ensures Valid() && model == OpenTimedOut(old(model), t, ok)
    {
      assert Unfold(2);
      Put(t, objs[t].(timer := NoTimer));
      SetPending(None);
      var _ := AbortCall(t);
    }

    /** `stream_close_timeout`. */
    method CloseTimedOutCb(t: StreamId)
      requires Valid() && t in model.objs
      modifies this
      ensures Valid() && model == WithStream(old(model), t, old(model).objs[t].(timer := NoTimer, io := false))
    {
      assert Unfold(2);
      Put(t, objs[t].(timer := NoTimer, io := false));
    }

    /** `start_timeout`. */
    method StartTimedOutCb(t: StreamId)
      requires Valid() && t in model.objs
      modifies this
      ensures Valid() && model == StartTimedOut(old(model), t, ok)
    {
      assert Unfold(2);
      Put(t, objs[t].(openAcp := false));
      var _ := StartCall(t);
      Put(t, objs[t].(startTimer := false));
    }

    /** `transport_cb`. */
    method TransportCb(t: StreamId, invalid: bool)
      requires Valid() && t in model.objs
      modifies this
      ensures Valid() && model == TransportGone(old(model), t, invalid)
    {
      assert Unfold(2);
      StreamLinks(model, t);
      var o := objs[t];
      Put(t, o.(io := o.io && invalid, watch := false));
      if !o.abortInt { MakeIdle(o.lsep); }
    }

    /** A call of the application, whose conditions it has checked. */
    method Serve(call: Call)
      requires Valid() && Enabled(model, Called(call))
      modifies this
      ensures Valid() && model == Perform(old(model), call, ok)
    {
      hide StartDiscovery, Configure, OpenStream, StartStream, SuspendStream, AbortStream, CloseStream,
           DelayReportOf, Connect, RegisterSep, UnregisterSep, StandFor;
      match call {
        case CallDiscover => var _ := DiscoverCall();
        case CallConfigure(e, rseid, delay) => var _ := ConfigureCall(e, rseid, delay);
        case CallOpen(t) => var _ := OpenCall(t);
        case CallStart(t) => var _ := StartCall(t);
        case CallSuspend(t) => var _ := SuspendCall(t);
        case CallAbort(t) => var _ := AbortCall(t);
        case CallClose(t, immediate) => var _ := CloseCall(t, immediate);
        case CallDelayReport(t) => var _ := DelayReport(t);
        case CallSetTransport(t, settable) => var _ := SetTransport(t, settable);
        case CallRegister(free, sink, cfm, ind) => Register(free, sink, cfm, ind);
        case CallUnregister(e) => Unregister(e);
      }
    }

    /** Whether the event can happen. */
    method CanHappen(ev: Event) returns (yes: bool)
      requires Valid()
      ensures yes == Enabled(model, ev)
    {
      assert Unfold(2);
      match ev {
        case CommandRead(_) => yes := watching;
        case ReplyRead(_, _, _, _, _) => yes := watching;
        case ReadFailed => yes := watching;
        case RequestTimeout => yes := req.Some? && req.value.armed;
        case OpenTimeout(t) => yes := t in objs && objs[t].timer.OpenTimer?;
        case CloseTimeout(t) => yes := t in objs && objs[t].timer.CloseTimer?;
        case StartTimeout(t) => yes := t in objs && objs[t].startTimer;
        case DiscoverIdle => yes := discover.Some? && discover.value.idle;
        case TransportHangup(t, _) => yes := t in objs && objs[t].watch;
        case Called(CallConfigure(e, rseid, _)) => yes := e in seps && !seps[e].inuse && rseid in remote;
        case Called(CallRegister(free, _, _, _)) => yes := free.None? || free.value !in seps;
        case Called(CallUnregister(e)) => yes := e in seps;
        case Called(_) => yes := true;
      }
    }

    /** Whatever happens next: the object follows the model, step for step. */
    method Handle(ev: Event)
      requires Valid() && !model.answering
      modifies this
      ensures Valid() && model == Step(old(model), ev, ok) && !model.answering
    {
      hide HandleCommand, HandleReply, Broken, CancelRequest, OpenTimedOut, WithStream, StartTimedOut, Finalize,
           TransportGone, Perform, StandFor;
      var yes := CanHappen(ev);
      if !yes { return; }
      match ev {
        case CommandRead(c) => ReadCommand(c);
        case ReplyRead(n, signal, kind, wellFormed, infos) => ReadReply(n, signal, kind, wellFormed, infos);
        case ReadFailed => Break();
        case RequestTimeout => var _ := Cancel();
        case OpenTimeout(t) => OpenTimedOutCb(t);
        case CloseTimeout(t) => CloseTimedOutCb(t);
        case StartTimeout(t) => StartTimedOutCb(t);
        case DiscoverIdle => FinalizeDiscovery(false);
        case TransportHangup(t, invalid) => TransportCb(t, invalid);
        case Called(call) => Serve(call);
      }
    }
  }

  /** A whole life of a session: what is proved of every run of the model holds
      of the object. */
  method Live(transaction: nat, v13: bool, evs: seq<Event>, ok: Socket) returns (a: Avdtp)
    requires transaction < 16
    ensures fresh(a) && a.Valid() && a.model == Run(transaction, v13, evs, ok)
  {
    hide Step;
    a := new Avdtp(transaction, v13, ok);
    var i := 0;
    while i < |evs|
      invariant 0 <= i <= |evs| && fresh(a) && a.Valid() && a.ok == ok
      invariant a.model == Run(transaction, v13, evs[..i], ok)
    {
      assert evs[..i + 1][..i] == evs[..i];
      a.Handle(evs[i]);
      i := i + 1;
    }
    assert evs[..i] == evs;
  }
}
