/** The pending requests of an AVDTP session: the request in service, the two
    queues behind it, and the history of what was handed to the socket. */
module AvdtpRequests {
  import opened Common

  type StreamId = nat

  datatype Signal =
    | Discover | GetCapabilities | GetAllCapabilities | SetConfiguration
    | Open | Start | Close | Suspend | Abort | DelayReport

  /** `struct pending_req`; `id` stands for the identity of the object, `seid`
      for the first SEID of its data (0 when it has none), `armed` for a
      running reply timer. */
  datatype Req = Req(id: nat, signal: Signal, seid: nat, stream: Option<StreamId>,
                     transaction: nat, armed: bool, collided: bool)

  /** How a request came to be handed to the socket. */
  datatype Via = Direct | FromPrio | FromQueue

  datatype Try = Try(id: nat, signal: Signal, transaction: nat, via: Via, ok: bool)

  /** `req`, `prio` and `queue` are the fields of the session; `transaction` is
      the label counter of `send_req`. The rest is history: requests made so
      far, requests freed, requests handed to the socket, and the number of
      messages handed to the socket. */
  datatype RequestState = RequestState(
    req: Option<Req>, prio: seq<Req>, queue: seq<Req>, transaction: nat,
    made: nat, finished: set<nat>, tries: seq<Try>, sends: nat)

  type Requests = r: RequestState | Orderly(r) witness NoRequests(0)

  /** Whether the n-th message handed to the socket is taken. */
  type Socket = nat -> bool

  function NoRequests(transaction: nat): RequestState {
    RequestState(None, [], [], transaction, 0, {}, [], 0)
  }

  predicate IsCap(q: Req) { q.signal.GetCapabilities? || q.signal.GetAllCapabilities? }

  predicate IsDiscovery(q: Req) { DiscoverySignal(q.signal) }

  predicate DiscoverySignal(g: Signal) { g.Discover? || g.GetCapabilities? || g.GetAllCapabilities? }

  /** Of no stream, and in conflict with no command. */
  predicate Aloof(q: Req) { q.stream.None? && !q.collided }

  // ------------------------------------------------------------- operations

  /** The second half of `send_req`: label, send, arm the timer. */
  function Transmit(r: RequestState, q: Req, via: Via, ok: Socket): (RequestState, bool) {
    var good := ok(r.sends);
    var r1 := r.(sends := r.sends + 1, transaction := (r.transaction + 1) % 16,
                 tries := r.tries + [Try(q.id, q.signal, r.transaction, via, good)]);
    if good then (r1.(req := Some(q.(transaction := r.transaction, armed := true))), true)
    else (r1.(finished := r1.finished + {q.id}), false)
  }

  function NewReq(r: RequestState, stream: Option<StreamId>, signal: Signal, seid: nat): Req {
    Req(r.made, signal, seid, stream, 0, false, false)
  }

  /** The request joins a queue. */
  function Enqueue(r: RequestState, priority: bool, q: Req): RequestState {
    var r1 := r.(made := r.made + 1);
    if priority then r1.(prio := r1.prio + [q]) else r1.(queue := r1.queue + [q])
  }

  function Without(q: seq<Req>, t: StreamId): seq<Req> {
    if q == [] then []
    else if q[0].stream == Some(t) then Without(q[1..], t)
    else [q[0]] + Without(q[1..], t)
  }

  ghost function Ids(q: seq<Req>): set<nat> { set x | x in q :: x.id }

  ghost function Targeting(q: seq<Req>, t: StreamId): set<nat> {
    set x | x in q && x.stream == Some(t) :: x.id
  }

  /** A response or reject handed to the socket. */
  function Reply(r: Requests, ok: Socket): (Requests, bool) {
    assert Unfold(0);
    (r.(sends := r.sends + 1), ok(r.sends))
  }

  function Queued(r: Requests, priority: bool, q: Req): Requests
    requires r.req.Some? && q.id == r.made && !q.armed
    requires CapsTogether(Enqueue(r, priority, q))
  {
    assert Unfold(0);
    EnqueueConserved(r, priority, q); EnqueueTraced(r, priority, q); EnqueueServed(r, priority, q);
    Enqueue(r, priority, q)
  }

  function SentAtOnce(r: Requests, q: Req, ok: Socket): (Requests, bool)
    requires r.req.None? && q.id == r.made && !q.armed && !IsCap(q)
    requires q.signal.Discover? ==> Aloof(q) && NoCaps(r.prio)
  {
    assert Unfold(0);
    var r1 := r.(made := r.made + 1);
    SentConserved(r, q, ok); SentTraced(r, q, ok); SentServed(r, q, ok);
    Transmit(r1, q, Direct, ok)
  }

  /** `send_request`, and `send_req` for the request it makes. A DISCOVER is
      made only while no capability request waits, and never with priority. */
  function SendNew(r: Requests, priority: bool, stream: Option<StreamId>, signal: Signal, seid: nat, ok: Socket)
    : (Requests, bool)
    requires !signal.GetCapabilities? && !signal.GetAllCapabilities?
    requires signal.Discover? ==> !priority && stream.None? && NoCaps(r.prio)
  {
    assert Unfold(0);
    var q := NewReq(r, stream, signal, seid);
    if r.req.Some? then
      EnqueueCaps(r, priority, q);
      (Queued(r, priority, q), true)
    else SentAtOnce(r, q, ok)
  }

  /** `send_request` for a capability request, which is made only while a
      DISCOVER is being answered, and so always queued. */
  function SendCap(r: Requests, signal: Signal, seid: nat): (r1: Requests)
    requires CapsLast(r.prio)
    requires r.req.Some? && r.req.value.signal.Discover? && !r.req.value.armed
    requires signal.GetCapabilities? || signal.GetAllCapabilities?
    ensures CapsLast(r1.prio) && r1.req == r.req
  {
    assert Unfold(0);
    var q := NewReq(r, None, signal, seid);
    CapTogether(r, q);
    Queued(r, true, q)
  }

  function Head(r: RequestState, priority: bool): Req
    requires (if priority then r.prio else r.queue) != []
  {
    if priority then r.prio[0] else r.queue[0]
  }

  function Rest(r: RequestState, priority: bool): RequestState
    requires (if priority then r.prio else r.queue) != []
  {
    if priority then r.(prio := r.prio[1..]) else r.(queue := r.queue[1..])
  }

  /** The head of a queue handed to the socket. */
  function Popped(r: RequestState, priority: bool, ok: Socket): RequestState
    requires (if priority then r.prio else r.queue) != []
  {
    Transmit(Rest(r, priority), Head(r, priority), if priority then FromPrio else FromQueue, ok).0
  }

  function ProcessQueue(r: Requests, ok: Socket): Requests {
    assert Unfold(0);
    if r.req.Some? || (r.prio == [] && r.queue == []) then r
    else
      var priority := r.prio != [];
      PopConserved(r, priority, ok); PopTraced(r, priority, ok); PopServed(r, priority, ok); PopCaps(r, priority, ok);
      Popped(r, priority, ok)
  }

  /** Frees the request in service. */
  function Finish(r: Requests): Requests
    requires r.req.Some?
  {
    assert Unfold(0);
    FinishKeeps(r);
    r.(req := None, finished := r.finished + {r.req.value.id})
  }

  /** `cleanup_queue`. */
  ghost function Cleanup(r: Requests, t: StreamId): Requests {
    assert Unfold(0);
    CleanupConserved(r, t); CleanupTraced(r, t); CleanupServed(r, t); CleanupCaps(r, t);
    Cleaned(r, t)
  }

  ghost function Cleaned(r: RequestState, t: StreamId): RequestState {
    r.(prio := Without(r.prio, t), queue := Without(r.queue, t),
       finished := r.finished + Targeting(r.prio, t) + Targeting(r.queue, t))
  }

  /** The request in service with other marks. */
  function Remark(r: Requests, q: Req): Requests
    requires r.req.Some?
    requires q.id == r.req.value.id && q.transaction == r.req.value.transaction && q.signal == r.req.value.signal
    requires q.armed ==> r.req.value.armed
    requires IsDiscovery(q) ==> Aloof(q)
  {
    assert Unfold(0);
    RemarkKeeps(r, q);
    r.(req := Some(q))
  }

  /** `handle_unanswered_req`, called for the stream the request targets. */
  function DropUnanswered(r: Requests): Requests
    requires r.req.Some?
  {
    assert Unfold(0);
    if !r.req.value.armed then r
    else if r.req.value.signal.Abort? then Remark(r, r.req.value.(stream := None))
    else Finish(r)
  }

  // -------------------------------------------------------------- invariant

  ghost predicate Increasing(q: seq<Req>) {
    forall i, j :: 0 <= i < j < |q| ==> q[i].id < q[j].id
  }

  /** Requests that wait: not sent, not freed, in the order they were made. */
  ghost predicate Waiting(r: RequestState, q: seq<Req>) {
    && Increasing(q)
    && (forall x :: x in q ==> x.id < r.made && !x.armed && x.id !in r.finished)
    && (forall i :: 0 <= i < |r.tries| ==> r.tries[i].id !in Ids(q))
  }

  /** Every request made is in exactly one place. */
  ghost predicate Conserved(r: RequestState) {
    && Waiting(r, r.prio) && Waiting(r, r.queue) && Ids(r.prio) !! Ids(r.queue)
    && (r.req.Some? ==> r.req.value.id < r.made && r.req.value.id !in r.finished + Ids(r.prio) + Ids(r.queue))
    && (forall i :: i in r.finished ==> i < r.made)
    && (forall i :: 0 <= i < r.made ==>
          i in r.finished || i in Ids(r.prio) || i in Ids(r.queue) || (r.req.Some? && r.req.value.id == i))
  }

  /** What was handed to the socket: nothing twice; only the request in service
      is still unfinished; the labels follow one another. */
  ghost predicate Traced(r: RequestState) {
    && (forall i, j :: 0 <= i < j < |r.tries| ==> r.tries[i].id != r.tries[j].id)
    && (forall i :: 0 <= i < |r.tries| ==>
          r.tries[i].id < r.made
          && (r.tries[i].id in r.finished || (r.tries[i].ok && r.req.Some? && r.req.value.id == r.tries[i].id
                                              && r.req.value.transaction == r.tries[i].transaction)))
    && (forall i :: 0 <= i < |r.tries| - 1 ==> r.tries[i + 1].transaction == (r.tries[i].transaction + 1) % 16)
    && (r.tries != [] ==> r.transaction == (r.tries[|r.tries| - 1].transaction + 1) % 16)
    && r.transaction < 16
    && (r.req.Some? ==> exists i :: 0 <= i < |r.tries| && r.tries[i].id == r.req.value.id)
  }

  /** A queue is served in the order of arrival: what was sent from it was sent
      in order and came before everything that is still in it. */
  ghost predicate Served(tries: seq<Try>, via: Via, q: seq<Req>) {
    && (forall i, j :: 0 <= i < j < |tries| && tries[i].via == via && tries[j].via == via ==> tries[i].id < tries[j].id)
    && (forall i, x :: 0 <= i < |tries| && tries[i].via == via && x in q ==> tries[i].id < x.id)
  }

  /** The capability requests of a discovery stand together in the priority
      queue, and first in it while one of them is in service; there are none
      while a DISCOVER waits for its reply. */
  ghost predicate CapsTogether(r: RequestState) {
    && CapsBlock(r.prio)
    && (r.req.Some? && IsCap(r.req.value) ==> CapsFirst(r.prio))
    && (r.req.Some? && r.req.value.signal.Discover? && r.req.value.armed ==> NoCaps(r.prio))
    && NoCaps(r.queue)
    && (forall x :: x in r.prio ==> !x.signal.Discover?)
    && (forall x :: x in r.prio && IsDiscovery(x) ==> Aloof(x))
    && (forall x :: x in r.queue && IsDiscovery(x) ==> Aloof(x))
    && (r.req.Some? && IsDiscovery(r.req.value) ==> Aloof(r.req.value))
  }

  ghost predicate CapsBlock(q: seq<Req>) {
    forall i, j, k :: 0 <= i < j < k < |q| && IsCap(q[i]) && IsCap(q[k]) ==> IsCap(q[j])
  }

  ghost predicate CapsFirst(q: seq<Req>) { forall i, j :: 0 <= i < j < |q| && IsCap(q[j]) ==> IsCap(q[i]) }

  ghost predicate CapsLast(q: seq<Req>) { forall i, j :: 0 <= i < j < |q| && IsCap(q[i]) ==> IsCap(q[j]) }

  ghost predicate NoCaps(q: seq<Req>) { forall x :: x in q ==> !IsCap(x) }

  ghost predicate Orderly(r: RequestState) {
    forall k | k == 0 && Unfold(k) ::
      && Conserved(r) && Traced(r)
      && Served(r.tries, FromPrio, r.prio) && Served(r.tries, FromQueue, r.queue)
      && CapsTogether(r)
  }

  /** Only the streams in `live` are targeted, except by a request whose reply
      is being handled. */
  ghost predicate Targets(r: RequestState, live: set<StreamId>) {
    && (forall x :: x in r.prio && x.stream.Some? ==> x.stream.value in live)
    && (forall x :: x in r.queue && x.stream.Some? ==> x.stream.value in live)
    && (r.req.Some? && r.req.value.armed && r.req.value.stream.Some? ==> r.req.value.stream.value in live)
  }

  // ------------------------------------------- what the operations preserve

  lemma EmptyOrderly(transaction: nat)
    requires transaction < 16
    ensures Orderly(NoRequests(transaction))
  {
  }

  lemma AppendIds(q: seq<Req>, x: Req)
    ensures Ids(q + [x]) == Ids(q) + {x.id}
  {
    forall i | i in Ids(q) + {x.id} ensures i in Ids(q + [x]) {
      if i == x.id { assert x in q + [x]; } else { var y :| y in q && y.id == i; assert y in q + [x]; }
    }
  }

  lemma HeadIds(q: seq<Req>)
    requires q != [] && Increasing(q)
    ensures Ids(q) == {q[0].id} + Ids(q[1..]) && q[0].id !in Ids(q[1..])
    ensures Increasing(q[1..])
    ensures forall x :: x in q[1..] ==> q[0].id < x.id
  {
    forall i | i in {q[0].id} + Ids(q[1..]) ensures i in Ids(q) {
      if i == q[0].id { assert q[0] in q; } else { var y :| y in q[1..] && y.id == i; assert y in q; }
    }
    forall i | i in Ids(q) ensures i in {q[0].id} + Ids(q[1..]) {
      var y :| y in q && y.id == i;
      if y != q[0] { assert y in q[1..]; }
    }
  }

  /** A request that has left its queue and is about to be handed over. */
  ghost predicate InHand(r: RequestState, q: Req) {
    && r.req.None? && !q.armed
    && q.id < r.made && q.id !in r.finished && q.id !in Ids(r.prio) && q.id !in Ids(r.queue)
    && (forall i :: 0 <= i < |r.tries| ==> r.tries[i].id != q.id)
    && Waiting(r, r.prio) && Waiting(r, r.queue) && Ids(r.prio) !! Ids(r.queue)
    && (forall i :: i in r.finished ==> i < r.made)
    && (forall i :: 0 <= i < r.made ==> i in r.finished || i in Ids(r.prio) || i in Ids(r.queue) || i == q.id)
  }

  lemma TransmitWaiting(r: RequestState, q: Req, via: Via, ok: Socket, w: seq<Req>)
    requires Waiting(r, w) && q.id !in Ids(w)
    ensures Waiting(Transmit(r, q, via, ok).0, w)
  {
    var r1 := Transmit(r, q, via, ok).0;
    forall x | x in w ensures x.id < r1.made && !x.armed && x.id !in r1.finished {
      assert x.id in Ids(w);
    }
    forall i | 0 <= i < |r1.tries| ensures r1.tries[i].id !in Ids(w) {
      if i < |r.tries| { assert r1.tries[i] == r.tries[i]; }
    }
  }

  lemma TransmitConserved(r: RequestState, q: Req, via: Via, ok: Socket)
    requires InHand(r, q)
    ensures Conserved(Transmit(r, q, via, ok).0)
  {
    TransmitWaiting(r, q, via, ok, r.prio);
    TransmitWaiting(r, q, via, ok, r.queue);
  }

  lemma TransmitTraced(r: RequestState, q: Req, via: Via, ok: Socket)
    requires r.req.None? && q.id < r.made && Traced(r)
    requires forall i :: 0 <= i < |r.tries| ==> r.tries[i].id != q.id
    ensures Traced(Transmit(r, q, via, ok).0)
  {
    var r1 := Transmit(r, q, via, ok).0;
    var n := |r.tries|;
    assert r1.tries[n] == Try(q.id, q.signal, r.transaction, via, ok(r.sends));
    forall i | 0 <= i < |r1.tries|
      ensures i < n ==> r1.tries[i] == r.tries[i]
    {
    }
  }

  lemma AppendServed(tries: seq<Try>, t: Try, via: Via, q: seq<Req>)
    requires Served(tries, via, q)
    requires t.via == via ==> forall i :: 0 <= i < |tries| && tries[i].via == via ==> tries[i].id < t.id
    requires t.via == via ==> forall x :: x in q ==> t.id < x.id
    ensures Served(tries + [t], via, q)
  {
    var all := tries + [t];
    assert forall i :: 0 <= i < |tries| ==> all[i] == tries[i];
    assert all[|tries|] == t;
  }

  lemma SubServed(tries: seq<Try>, via: Via, q: seq<Req>, less: seq<Req>)
    requires Served(tries, via, q) && forall x :: x in less ==> x in q
    ensures Served(tries, via, less)
  {
  }

  lemma AppendWaiting(r: RequestState, w: seq<Req>, q: Req)
    requires Waiting(r, w) && q.id == r.made && !q.armed && q.id !in r.finished
    requires forall i :: 0 <= i < |r.tries| ==> r.tries[i].id < r.made
    ensures Waiting(r.(made := r.made + 1), w + [q])
    ensures q.id !in Ids(w)
  {
    AppendIds(w, q);
    assert forall x :: x in w + [q] ==> x in w || x == q;
  }

  lemma EnqueueConserved(r: RequestState, priority: bool, q: Req)
    requires Conserved(r) && Traced(r) && q.id == r.made && !q.armed
    ensures Conserved(Enqueue(r, priority, q))
  {
    var r1 := Enqueue(r, priority, q);
    AppendWaiting(r, r.prio, q);
    AppendWaiting(r, r.queue, q);
    AppendIds(r.prio, q);
    AppendIds(r.queue, q);
    assert Waiting(r1, r1.prio) && Waiting(r1, r1.queue);
  }

  lemma EnqueueTraced(r: RequestState, priority: bool, q: Req)
    requires Traced(r)
    ensures Traced(Enqueue(r, priority, q))
  {
  }

  lemma EnqueueServed(r: RequestState, priority: bool, q: Req)
    requires Served(r.tries, FromPrio, r.prio) && Served(r.tries, FromQueue, r.queue)
    requires Traced(r) && q.id == r.made
    ensures var r1 := Enqueue(r, priority, q);
            Served(r1.tries, FromPrio, r1.prio) && Served(r1.tries, FromQueue, r1.queue)
  {
    assert forall i :: 0 <= i < |r.tries| ==> r.tries[i].id < r.made;
    hide Traced, Served;
    if priority {
      JoinServed(r.tries, FromPrio, r.prio, q);
    } else {
      JoinServed(r.tries, FromQueue, r.queue, q);
    }
  }

  lemma JoinServed(tries: seq<Try>, via: Via, w: seq<Req>, q: Req)
    requires Served(tries, via, w) && forall i :: 0 <= i < |tries| ==> tries[i].id < q.id
    ensures Served(tries, via, w + [q])
  {
  }

  lemma EnqueueCaps(r: RequestState, priority: bool, q: Req)
    requires CapsTogether(r) && !IsCap(q) && (q.signal.Discover? ==> !priority && Aloof(q))
    ensures CapsTogether(Enqueue(r, priority, q))
  {
    assert forall x :: x in r.prio + [q] ==> x in r.prio || x == q;
    assert forall x :: x in r.queue + [q] ==> x in r.queue || x == q;
  }

  lemma NewInHand(r: RequestState, q: Req)
    requires Conserved(r) && Traced(r) && r.req.None? && q.id == r.made && !q.armed
    ensures InHand(r.(made := r.made + 1), q)
  {
    AppendWaiting(r, r.prio, q);
    AppendWaiting(r, r.queue, q);
  }

  lemma SentConserved(r: RequestState, q: Req, ok: Socket)
    requires Conserved(r) && Traced(r) && r.req.None? && q.id == r.made && !q.armed
    ensures Conserved(Transmit(r.(made := r.made + 1), q, Direct, ok).0)
  {
    NewInHand(r, q);
    TransmitConserved(r.(made := r.made + 1), q, Direct, ok);
  }

  lemma SentTraced(r: RequestState, q: Req, ok: Socket)
    requires Conserved(r) && Traced(r) && r.req.None? && q.id == r.made && !q.armed
    ensures Traced(Transmit(r.(made := r.made + 1), q, Direct, ok).0)
  {
    NewInHand(r, q);
    TransmitTraced(r.(made := r.made + 1), q, Direct, ok);
  }

  lemma TransmitServed(r: RequestState, q: Req, via: Via, ok: Socket)
    requires Served(r.tries, FromPrio, r.prio) && Served(r.tries, FromQueue, r.queue)
    requires via != Direct ==> forall i :: 0 <= i < |r.tries| && r.tries[i].via == via ==> r.tries[i].id < q.id
    requires via == FromPrio ==> forall x :: x in r.prio ==> q.id < x.id
    requires via == FromQueue ==> forall x :: x in r.queue ==> q.id < x.id
    ensures var r1 := Transmit(r, q, via, ok).0; Served(r1.tries, FromPrio, r.prio) && Served(r1.tries, FromQueue, r.queue)
  {
    var t := Try(q.id, q.signal, r.transaction, via, ok(r.sends));
    AppendServed(r.tries, t, FromPrio, r.prio);
    AppendServed(r.tries, t, FromQueue, r.queue);
  }

  lemma SentServed(r: RequestState, q: Req, ok: Socket)
    requires Served(r.tries, FromPrio, r.prio) && Served(r.tries, FromQueue, r.queue) && CapsTogether(r)
    requires !IsCap(q) && (q.signal.Discover? ==> Aloof(q) && NoCaps(r.prio))
    ensures var r2 := Transmit(r.(made := r.made + 1), q, Direct, ok).0;
            Served(r2.tries, FromPrio, r2.prio) && Served(r2.tries, FromQueue, r2.queue) && CapsTogether(r2)
  {
    var r1 := r.(made := r.made + 1);
    TransmitServed(r1, q, Direct, ok);
    TransmitCaps(r1, q, Direct, ok);
  }

  lemma TransmitCaps(r: RequestState, q: Req, via: Via, ok: Socket)
    requires CapsTogether(r) && (IsCap(q) ==> CapsFirst(r.prio)) && (q.signal.Discover? ==> NoCaps(r.prio))
    requires IsDiscovery(q) ==> Aloof(q)
    ensures CapsTogether(Transmit(r, q, via, ok).0)
  {
  }

  lemma CapTogether(r: RequestState, q: Req)
    requires CapsTogether(r) && CapsLast(r.prio) && IsCap(q) && Aloof(q)
    requires r.req.Some? && r.req.value.signal.Discover? && !r.req.value.armed
    ensures CapsTogether(Enqueue(r, true, q)) && CapsLast(Enqueue(r, true, q).prio)
  {
    assert forall x :: x in r.prio + [q] ==> x in r.prio || x == q;
  }

  /** The head of a queue leaves it. */
  lemma PopInHand(r: RequestState, priority: bool)
    requires Conserved(r) && r.req.None? && (if priority then r.prio else r.queue) != []
    ensures InHand(Rest(r, priority), Head(r, priority))
  {
    var w := if priority then r.prio else r.queue;
    HeadIds(w);
    assert w[0] in w && w[0].id in Ids(w);
    assert forall x :: x in w[1..] ==> x in w;
    assert Waiting(r, w[1..]);
  }

  lemma PopServed(r: RequestState, priority: bool, ok: Socket)
    requires Conserved(r) && (if priority then r.prio else r.queue) != []
    requires Served(r.tries, FromPrio, r.prio) && Served(r.tries, FromQueue, r.queue)
    ensures var r1 := Popped(r, priority, ok);
            Served(r1.tries, FromPrio, r1.prio) && Served(r1.tries, FromQueue, r1.queue)
  {
    if priority {
      HeadIds(r.prio);
      SubServed(r.tries, FromPrio, r.prio, r.prio[1..]);
      TransmitServed(r.(prio := r.prio[1..]), r.prio[0], FromPrio, ok);
    } else {
      HeadIds(r.queue);
      SubServed(r.tries, FromQueue, r.queue, r.queue[1..]);
      TransmitServed(r.(queue := r.queue[1..]), r.queue[0], FromQueue, ok);
    }
  }

  lemma PopCaps(r: RequestState, priority: bool, ok: Socket)
    requires CapsTogether(r) && (if priority then r.prio else r.queue) != []
    requires r.req.None? && (!priority ==> r.prio == [])
    ensures CapsTogether(Popped(r, priority, ok))
  {
    if priority {
      assert r.prio[0] in r.prio && forall x :: x in r.prio[1..] ==> x in r.prio;
      TransmitCaps(r.(prio := r.prio[1..]), r.prio[0], FromPrio, ok);
    } else {
      assert r.queue[0] in r.queue && forall x :: x in r.queue[1..] ==> x in r.queue;
      TransmitCaps(r.(queue := r.queue[1..]), r.queue[0], FromQueue, ok);
    }
  }

  lemma PopConserved(r: RequestState, priority: bool, ok: Socket)
    requires Conserved(r) && Traced(r) && r.req.None? && (if priority then r.prio else r.queue) != []
    ensures Conserved(Popped(r, priority, ok))
  {
    var rest, q := Rest(r, priority), Head(r, priority);
    PopInHand(r, priority);
    TransmitConserved(rest, q, if priority then FromPrio else FromQueue, ok);
  }

  lemma PopTraced(r: RequestState, priority: bool, ok: Socket)
    requires Conserved(r) && Traced(r) && r.req.None? && (if priority then r.prio else r.queue) != []
    ensures Traced(Popped(r, priority, ok))
  {
    var q := Head(r, priority);
    HeadNotTried(r, if priority then r.prio else r.queue);
    assert Traced(Rest(r, priority));
    TransmitTraced(Rest(r, priority), q, if priority then FromPrio else FromQueue, ok);
  }

  lemma HeadNotTried(r: RequestState, w: seq<Req>)
    requires Waiting(r, w) && w != []
    ensures w[0].id < r.made && forall i :: 0 <= i < |r.tries| ==> r.tries[i].id != w[0].id
  {
    assert w[0] in w && w[0].id in Ids(w);
  }

  lemma FinishKeeps(r: RequestState)
    requires Conserved(r) && Traced(r) && r.req.Some?
    ensures var r1 := r.(req := None, finished := r.finished + {r.req.value.id}); Conserved(r1) && Traced(r1)
  {
  }

  lemma RemarkKeeps(r: RequestState, q: Req)
    requires Conserved(r) && Traced(r) && r.req.Some?
    requires q.id == r.req.value.id && q.transaction == r.req.value.transaction
    ensures Conserved(r.(req := Some(q))) && Traced(r.(req := Some(q)))
  {
  }

  lemma {:induction false} WithoutIs(q: seq<Req>, t: StreamId)
    ensures forall x :: x in Without(q, t) <==> x in q && x.stream != Some(t)
  {
    if q != [] { WithoutIs(q[1..], t); }
  }

  lemma {:induction false} WithoutIncreasing(q: seq<Req>, t: StreamId)
    requires Increasing(q)
    ensures Increasing(Without(q, t))
  {
    if q != [] {
      WithoutIncreasing(q[1..], t);
      WithoutIs(q[1..], t);
      assert forall i :: 0 <= i < |Without(q[1..], t)| ==> Without(q[1..], t)[i] in q[1..];
    }
  }

  lemma {:induction false} WithoutFirst(q: seq<Req>, t: StreamId)
    requires CapsFirst(q)
    ensures CapsFirst(Without(q, t))
  {
    if q != [] {
      WithoutFirst(q[1..], t);
      WithoutIs(q[1..], t);
      assert forall i :: 0 <= i < |Without(q[1..], t)| ==> Without(q[1..], t)[i] in q[1..];
    }
  }

  lemma {:induction false} WithoutBlock(q: seq<Req>, t: StreamId)
    requires CapsBlock(q)
    ensures CapsBlock(Without(q, t))
  {
    if q != [] {
      WithoutBlock(q[1..], t);
      if IsCap(q[0]) { WithoutFirst(q[1..], t); }
    }
  }

  lemma WithoutIds(q: seq<Req>, t: StreamId)
    requires Increasing(q)
    ensures Ids(q) == Ids(Without(q, t)) + Targeting(q, t)
    ensures Ids(Without(q, t)) !! Targeting(q, t)
  {
    WithoutIs(q, t);
    forall x, y | x in q && y in q && x.id == y.id ensures x == y {
      var a :| 0 <= a < |q| && q[a] == x;
      var b :| 0 <= b < |q| && q[b] == y;
    }
  }

  lemma CleanupConserved(r: RequestState, t: StreamId)
    requires Conserved(r)
    ensures Conserved(Cleaned(r, t))
  {
    WithoutIds(r.prio, t);
    WithoutIds(r.queue, t);
    CleanupWaiting(r, t, r.prio);
    CleanupWaiting(r, t, r.queue);
    forall i | i in Targeting(r.prio, t) + Targeting(r.queue, t) ensures i < r.made {
      if x :| x in r.prio && x.id == i {} else { var x :| x in r.queue && x.id == i; }
    }
  }

  lemma CleanupCaps(r: RequestState, t: StreamId)
    requires CapsTogether(r)
    ensures CapsTogether(Cleaned(r, t))
  {
    WithoutIs(r.prio, t);
    WithoutIs(r.queue, t);
    WithoutBlock(r.prio, t);
    if CapsFirst(r.prio) { WithoutFirst(r.prio, t); }
  }

  lemma CleanupServed(r: RequestState, t: StreamId)
    requires Served(r.tries, FromPrio, r.prio) && Served(r.tries, FromQueue, r.queue)
    ensures var r1 := Cleaned(r, t); Served(r1.tries, FromPrio, r1.prio) && Served(r1.tries, FromQueue, r1.queue)
  {
    WithoutIs(r.prio, t);
    WithoutIs(r.queue, t);
  }

  lemma CleanupTraced(r: RequestState, t: StreamId)
    requires Traced(r)
    ensures Traced(Cleaned(r, t))
  {
  }

  lemma CleanupWaiting(r: RequestState, t: StreamId, q: seq<Req>)
    requires Conserved(r) && (q == r.prio || q == r.queue)
    ensures Waiting(Cleaned(r, t), Without(q, t))
  {
    WithoutIs(q, t);
    WithoutIncreasing(q, t);
    WithoutIds(r.prio, t);
    WithoutIds(r.queue, t);
    forall x | x in Without(q, t) ensures x.id !in Cleaned(r, t).finished {
      assert x in q && x.id in Ids(Without(q, t));
    }
  }

  // ------------------------------------------------- the streams they target

  lemma SendNewTargets(r: Requests, priority: bool, stream: Option<StreamId>, signal: Signal, seid: nat, ok: Socket,
                       live: set<StreamId>)
    requires !signal.GetCapabilities? && !signal.GetAllCapabilities?
    requires signal.Discover? ==> !priority && stream.None? && NoCaps(r.prio)
    requires Targets(r, live) && (stream.Some? ==> stream.value in live)
    ensures Targets(SendNew(r, priority, stream, signal, seid, ok).0, live)
  {
    var q := NewReq(r, stream, signal, seid);
    if r.req.Some? {
      EnqueueTargets(r, priority, q, live);
    }
  }

  lemma EnqueueTargets(r: RequestState, priority: bool, q: Req, live: set<StreamId>)
    requires Targets(r, live) && (q.stream.Some? ==> q.stream.value in live)
    ensures Targets(Enqueue(r, priority, q), live)
  {
    assert forall x :: x in r.prio + [q] ==> x in r.prio || x == q;
    assert forall x :: x in r.queue + [q] ==> x in r.queue || x == q;
  }

  lemma ProcessTargets(r: Requests, ok: Socket, live: set<StreamId>)
    requires Targets(r, live)
    ensures Targets(ProcessQueue(r, ok), live)
  {
    if r.req.None? && r.prio != [] {
      assert r.prio[0] in r.prio && forall x :: x in r.prio[1..] ==> x in r.prio;
    } else if r.req.None? && r.queue != [] {
      assert r.queue[0] in r.queue && forall x :: x in r.queue[1..] ==> x in r.queue;
    }
  }

  /** After the cleanup nothing that waits targets the stream. */
  lemma CleanupTargets(r: Requests, t: StreamId, live: set<StreamId>)
    requires Targets(r, live)
    requires r.req.Some? && r.req.value.armed ==> r.req.value.stream != Some(t)
    ensures Targets(Cleanup(r, t), live - {t})
  {
    WithoutIs(r.prio, t);
    WithoutIs(r.queue, t);
  }

  // ---------------------------------------------------- discovery under way

  /** The two kinds of discovery requests. */
  predicate OfKind(q: Req, caps: bool) { if caps then IsCap(q) else q.signal.Discover? }

  ghost function KindIds(q: seq<Req>, caps: bool): set<nat> { set x | x in q && OfKind(x, caps) :: x.id }

  ghost function InService(r: RequestState, caps: bool): set<nat> {
    if r.req.Some? && r.req.value.armed && OfKind(r.req.value, caps) then {r.req.value.id} else {}
  }

  /** The DISCOVER requests, or the capability requests, not yet answered. */
  ghost function Unanswered(r: RequestState, caps: bool): set<nat> {
    KindIds(r.prio, caps) + KindIds(r.queue, caps) + InService(r, caps)
  }

  lemma KindAppend(q: seq<Req>, x: Req, caps: bool)
    ensures KindIds(q + [x], caps) == KindIds(q, caps) + (if OfKind(x, caps) then {x.id} else {})
  {
    forall i | i in KindIds(q, caps) ensures i in KindIds(q + [x], caps) {
      var y :| y in q && OfKind(y, caps) && y.id == i;
      assert y in q + [x];
    }
    if OfKind(x, caps) { assert x in q + [x]; }
  }

  lemma KindHead(q: seq<Req>, caps: bool)
    requires q != []
    ensures KindIds(q, caps) == KindIds(q[1..], caps) + (if OfKind(q[0], caps) then {q[0].id} else {})
  {
    assert q == [q[0]] + q[1..];
    forall i | i in KindIds(q[1..], caps) ensures i in KindIds(q, caps) {
      var y :| y in q[1..] && OfKind(y, caps) && y.id == i;
      assert y in q;
    }
    forall i | i in KindIds(q, caps) ensures i in KindIds(q[1..], caps) || (OfKind(q[0], caps) && i == q[0].id) {
      var y :| y in q && OfKind(y, caps) && y.id == i;
      assert y == q[0] || y in q[1..];
    }
    if OfKind(q[0], caps) { assert q[0] in q; }
  }

  lemma KindWithout(q: seq<Req>, t: StreamId, caps: bool)
    requires forall x :: x in q && IsDiscovery(x) ==> Aloof(x)
    ensures KindIds(Without(q, t), caps) == KindIds(q, caps)
  {
    WithoutIs(q, t);
    forall i | i in KindIds(q, caps) ensures i in KindIds(Without(q, t), caps) {
      var y :| y in q && OfKind(y, caps) && y.id == i;
      assert y in Without(q, t);
    }
  }

  lemma EnqueueOpen(r: RequestState, priority: bool, q: Req, caps: bool)
    ensures Unanswered(Enqueue(r, priority, q), caps) == Unanswered(r, caps) + (if OfKind(q, caps) then {q.id} else {})
  {
    KindAppend(r.prio, q, caps);
    KindAppend(r.queue, q, caps);
  }

  lemma TransmitOpen(r: RequestState, q: Req, via: Via, ok: Socket, caps: bool)
    requires r.req.None?
    ensures Unanswered(Transmit(r, q, via, ok).0, caps)
            == Unanswered(r, caps) + (if OfKind(q, caps) && ok(r.sends) then {q.id} else {})
  {
  }

  /** Other requests leave the discovery alone. */
  lemma SendNewOpen(r: Requests, priority: bool, stream: Option<StreamId>, signal: Signal, seid: nat, ok: Socket,
                    caps: bool)
    requires !signal.GetCapabilities? && !signal.GetAllCapabilities?
    requires signal.Discover? ==> !priority && stream.None? && NoCaps(r.prio)
    ensures var (r1, good) := SendNew(r, priority, stream, signal, seid, ok);
            Unanswered(r1, caps) == Unanswered(r, caps) + (if signal.Discover? && good && !caps then {r.made} else {})
  {
    assert Unfold(0);
    var q := NewReq(r, stream, signal, seid);
    if r.req.Some? {
      EnqueueOpen(r, priority, q, caps);
    } else {
      TransmitOpen(r.(made := r.made + 1), q, Direct, ok, caps);
    }
  }

  lemma SendCapOpen(r: Requests, signal: Signal, seid: nat, caps: bool)
    requires CapsLast(r.prio)
    requires r.req.Some? && r.req.value.signal.Discover? && !r.req.value.armed
    requires signal.GetCapabilities? || signal.GetAllCapabilities?
    ensures Unanswered(SendCap(r, signal, seid), caps) == Unanswered(r, caps) + (if caps then {r.made} else {})
  {
    assert Unfold(0);
    EnqueueOpen(r, true, NewReq(r, None, signal, seid), caps);
  }

  lemma ProcessOpen(r: Requests, ok: Socket, caps: bool)
    requires r.req.None?
    ensures (r.prio == [] && r.queue == []) || ok(r.sends) || !OfKind(Head(r, r.prio != []), caps)
            ==> Unanswered(ProcessQueue(r, ok), caps) == Unanswered(r, caps)
  {
    assert Unfold(0);
    if r.prio != [] || r.queue != [] {
      var priority := r.prio != [];
      KindHead(if priority then r.prio else r.queue, caps);
      TransmitOpen(Rest(r, priority), Head(r, priority), if priority then FromPrio else FromQueue, ok, caps);
    }
  }

  lemma CleanupOpen(r: Requests, t: StreamId, caps: bool)
    ensures Unanswered(Cleanup(r, t), caps) == Unanswered(r, caps)
  {
    assert Unfold(0);
    KindWithout(r.prio, t, caps);
    KindWithout(r.queue, t, caps);
  }

  /** The request in service is the only one of its identity. */
  lemma FinishOpen(r: Requests, caps: bool)
    requires r.req.Some?
    ensures Unanswered(Finish(r), caps) == Unanswered(r, caps) - {r.req.value.id}
  {
    assert Unfold(0);
    var i := r.req.value.id;
    forall x | x in r.prio ensures x.id != i { assert x.id in Ids(r.prio); }
    forall x | x in r.queue ensures x.id != i { assert x.id in Ids(r.queue); }
  }

  /** Clearing the timer of the request in service takes it off the list. */
  lemma DisarmOpen(r: Requests, caps: bool)
    requires r.req.Some?
    ensures Unanswered(r.(req := Some(r.req.value.(armed := false))), caps) == Unanswered(r, caps) - {r.req.value.id}
    ensures !OfKind(r.req.value, caps) ==> r.req.value.id !in Unanswered(r, caps)
  {
    assert Unfold(0);
    var i := r.req.value.id;
    forall x | x in r.prio ensures x.id != i { assert x.id in Ids(r.prio); }
    forall x | x in r.queue ensures x.id != i { assert x.id in Ids(r.queue); }
  }

  /** With a capability request in service, another one waits if and only if
      the head of the priority queue is one. */
  lemma NextIsCap(r: Requests)
    requires r.req.Some? && IsCap(r.req.value)
    ensures KindIds(r.prio, true) + KindIds(r.queue, true) != {} <==> r.prio != [] && IsCap(r.prio[0])
    ensures NoCaps(r.queue)
  {
    assert Unfold(0);
    assert KindIds(r.queue, true) == {};
    if i :| i in KindIds(r.prio, true) {
      var x :| x in r.prio && IsCap(x) && x.id == i;
      var k :| 0 <= k < |r.prio| && r.prio[k] == x;
    }
    if r.prio != [] && IsCap(r.prio[0]) {
      assert r.prio[0] in r.prio;
      assert r.prio[0].id in KindIds(r.prio, true);
    }
  }
}
