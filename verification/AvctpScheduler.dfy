/** The requests of one AVCTP channel: a queue, one request in flight with its
    timer, an idle source that feeds it, and the requests that were answered
    but may be answered again. */
module AvctpScheduler {
  import opened Common

  /** `struct avctp_pending_req` and the request behind it; `id` stands for its
      identity, `func` for a callback, `timer` for a running timer. */
  datatype Pending = Pending(id: nat, transaction: nat, func: bool, timer: bool)

  /** A callback made: the answer with a label, or none in time. */
  datatype Told = Answer(id: nat, transaction: nat) | TimedOut(id: nat)

  /** The fields of `struct avctp_channel`; `armed` is a scheduled idle source.
      The rest is history: requests made so far, freed, handed to the socket,
      and callbacks. */
  datatype Channel = Channel(
    p: Option<Pending>, queue: seq<Pending>, processed: seq<Pending>, armed: bool, transaction: nat,
    made: nat, destroyed: multiset<nat>, tries: seq<nat>, told: seq<Told>)

  /** Whether the n-th request handed to the socket is taken. */
  type Socket = nat -> bool

  function NewChannel(transaction: nat): Channel {
    Channel(None, [], [], false, transaction, 0, multiset{}, [], [])
  }

  // -------------------------------------------------------------- operations

  /** The search for a label in `pending_create`, from link `i` of a list: at a
      hit it takes the next label, drops the link, and goes on behind the head
      of the list. */
  function Label(list: seq<Pending>, i: nat, transaction: nat): nat
    decreases |list|, |list| - Min(i, |list|)
  {
    if i >= |list| then transaction
    else if list[i].transaction == transaction then Label(list[..i] + list[i + 1..], 1, (transaction + 1) % 16)
    else Label(list, i + 1, transaction)
  }

  /** `avctp_send_req`. */
  function Submit(c: Channel, func: bool): Channel {
    var t := Label(c.processed, 0, c.transaction);
    c.(queue := c.queue + [Pending(c.made, t, func, false)], transaction := (t + 1) % 16, made := c.made + 1, armed := true)
  }

  /** What a callback submits. */
  function SubmitAll(c: Channel, funcs: seq<bool>): Channel
    decreases |funcs|
  {
    if funcs == [] then c else SubmitAll(Submit(c, funcs[0]), funcs[1..])
  }

  /** The loop of `process_queue`. */
  function Pop(c: Channel, ok: Socket): Channel
    decreases |c.queue|
  {
    if c.queue == [] then c
    else
      var q := c.queue[0];
      var c1 := c.(queue := c.queue[1..], tries := c.tries + [q.id]);
      if ok(|c.tries|) then c1.(p := Some(q.(timer := true)))
      else Pop(c1.(destroyed := c1.destroyed + multiset{q.id}), ok)
  }

  /** `process_queue`. */
  function Idle(c: Channel, ok: Socket): Channel {
    if c.p.Some? then c.(armed := false) else Pop(c.(armed := false), ok)
  }

  /** `req_timeout`; `funcs` is what the callback submits. */
  function Timeout(c: Channel, funcs: seq<bool>): Channel
    requires c.p.Some?
  {
    var q := c.p.value;
    var c1 := if q.func then SubmitAll(c.(told := c.told + [TimedOut(q.id)]), funcs) else c;
    c1.(p := None, armed := true, destroyed := c1.destroyed + multiset{q.id})
  }

  /** The first part of `control_response`: the request in flight is answered. */
  function Answered(c: Channel, transaction: nat): Channel {
    if c.p.None? || c.p.value.transaction != transaction then c
    else c.(p := None, processed := [c.p.value.(timer := false)] + c.processed, armed := true)
  }

  function FirstWith(list: seq<Pending>, transaction: nat): (q: Option<Pending>)
    ensures q.Some? ==> q.value in list && q.value.transaction == transaction
  {
    if list == [] then None
    else if list[0].transaction == transaction then Some(list[0])
    else FirstWith(list[1..], transaction)
  }

  /** The second part: the callback of one answered request; `keep` is what it
      returns, `funcs` what it submits. */
  function Notify(c: Channel, q: Pending, keep: bool, funcs: seq<bool>): Channel {
    var c1 := if q.func then SubmitAll(c.(told := c.told + [Answer(q.id, q.transaction)]), funcs) else c;
    if q.func && keep then c1
    else c1.(processed := RemoveFirst(c1.processed, q), destroyed := c1.destroyed + multiset{q.id})
  }

  /** `control_response`. */
  function Response(c: Channel, transaction: nat, keep: bool, funcs: seq<bool>): Channel {
    var c1 := Answered(c, transaction);
    match FirstWith(c1.processed, transaction)
    case None => c1
    case Some(q) => Notify(c1, q, keep, funcs)
  }

  // ---------------------------------------------------- the channel in place

  class AvctpChannel {
    var p: Option<Pending>
    var queue: seq<Pending>
    var processed: seq<Pending>
    var processId: bool
    var transaction: nat
    var made: nat
    const ok: Socket
    var tries: seq<nat>
    ghost var destroyed: multiset<nat>
    ghost var told: seq<Told>

    ghost function State(): Channel reads this {
      Channel(p, queue, processed, processId, transaction, made, destroyed, tries, told)
    }

    constructor (transaction: nat, ok: Socket)
      ensures State() == NewChannel(transaction) && this.ok == ok
    {
      p, queue, processed, processId, this.transaction := None, [], [], false, transaction;
      made, destroyed, tries, told, this.ok := 0, multiset{}, [], [], ok;
    }

    /** `pending_create`. */
    method PendingCreate(func: bool) returns (q: Pending)
      modifies this`transaction, this`made
      ensures var t := Label(processed, 0, old(transaction));
              && q == Pending(old(made), t, func, false)
              && transaction == (t + 1) % 16 && made == old(made) + 1
    {
      var tmp, l := processed, 0;
      while l < |tmp|
        invariant Label(processed, 0, old(transaction)) == Label(tmp, l, transaction)
        invariant made == old(made)
        decreases |tmp|, |tmp| - Min(l, |tmp|)
      {
        if tmp[l].transaction == transaction {
          transaction := (transaction + 1) % 16;
          tmp := tmp[..l] + tmp[l + 1..];
          l := 1;
        } else {
          l := l + 1;
        }
      }
      q := Pending(made, transaction, func, false);
      transaction := (transaction + 1) % 16;
      made := made + 1;
    }

    /** `avctp_send_req`. */
    method SendReq(func: bool)
      modifies this
      ensures State() == Submit(old(State()), func)
    {
      var q := PendingCreate(func);
      queue := queue + [q];
      if !processId { processId := true; }
    }

    /** A callback, as far as it matters here: it submits requests. */
    method Callback(ghost t: Told, funcs: seq<bool>)
      modifies this
      ensures State() == SubmitAll(old(State()).(told := old(told) + [t]), funcs)
    {
      told := told + [t];
      ghost var c := State();
      var i := 0;
      while i < |funcs|
        invariant 0 <= i <= |funcs| && SubmitAll(c, funcs) == SubmitAll(State(), funcs[i..])
      {
        assert funcs[i..][0] == funcs[i] && funcs[i..][1..] == funcs[i + 1..];
        SendReq(funcs[i]);
        i := i + 1;
      }
      assert funcs[i..] == [];
    }

    /** `process_queue`. */
    method ProcessQueue()
      modifies this
      ensures State() == Idle(old(State()), ok)
    {
      processId := false;
      if p.Some? { return; }
      ghost var c := State();
      while queue != []
        invariant Pop(c, ok) == Pop(State(), ok) && p.None?
        decreases |queue|
      {
        var q := queue[0];
        queue := queue[1..];
        tries := tries + [q.id];
        if ok(|tries| - 1) {
          p := Some(q.(timer := true));
          return;
        }
        destroyed := destroyed + multiset{q.id};
      }
    }

    /** `req_timeout`. */
    method ReqTimeout(funcs: seq<bool>)
      requires p.Some?
      modifies this
      ensures State() == Timeout(old(State()), funcs)
    {
      var q := p.value;
      if q.func { Callback(TimedOut(q.id), funcs); }
      destroyed := destroyed + multiset{q.id};
      p := None;
      if !processId { processId := true; }
    }

    /** `control_response`. */
    method ControlResponse(replyLabel: nat, keep: bool, funcs: seq<bool>)
      modifies this
      ensures State() == Response(old(State()), replyLabel, keep, funcs)
    {
      if p.Some? && p.value.transaction == replyLabel {
        processed := [p.value.(timer := false)] + processed;
        p := None;
        if !processId { processId := true; }
      }
      var l := processed;
      while l != []
        invariant FirstWith(l, replyLabel) == FirstWith(processed, replyLabel)
        invariant State() == Answered(old(State()), replyLabel)
        decreases |l|
      {
        if l[0].transaction == replyLabel {
          Hand(l[0], keep, funcs);
          return;
        }
        l := l[1..];
      }
    }

    /** The answer goes to the callback of the request `q`. */
    method Hand(q: Pending, keep: bool, funcs: seq<bool>)
      modifies this
      ensures State() == Notify(old(State()), q, keep, funcs)
    {
      if q.func {
        Callback(Answer(q.id, q.transaction), funcs);
        if keep { return; }
      }
      processed := RemoveFirst(processed, q);
      destroyed := destroyed + multiset{q.id};
    }
  }

  // --------------------------------------------------------------- all runs

  datatype Event =
    | Submitted(func: bool)
    | IdleFires
    | TimerFires(funcs: seq<bool>)
    | ResponseRead(transaction: nat, keep: bool, funcs: seq<bool>)

  /** A source fires only while it is there. */
  function Step(c: Channel, ev: Event, ok: Socket): Channel {
    match ev
    case Submitted(func) => Submit(c, func)
    case IdleFires => if c.armed then Idle(c, ok) else c
    case TimerFires(funcs) => if c.p.Some? && c.p.value.timer then Timeout(c, funcs) else c
    case ResponseRead(transaction, keep, funcs) => Response(c, transaction, keep, funcs)
  }

  function Run(transaction: nat, evs: seq<Event>, ok: Socket): Channel {
    if evs == [] then NewChannel(transaction)
    else Step(Run(transaction, evs[..|evs| - 1], ok), evs[|evs| - 1], ok)
  }

  // -------------------------------------------------------------- invariant

  ghost function Count(list: seq<Pending>, id: nat): nat {
    if list == [] then 0 else (if list[0].id == id then 1 else 0) + Count(list[1..], id)
  }

  /** In how many places the request is. */
  ghost function Places(c: Channel, id: nat): nat {
    Count(c.queue, id) + Count(c.processed, id) + (if c.p.Some? && c.p.value.id == id then 1 else 0) + c.destroyed[id]
  }

  ghost predicate Conserved(c: Channel) {
    forall id: nat :: Places(c, id) == if id < c.made then 1 else 0
  }

  /** The sources that keep the channel going. */
  ghost predicate Alive(c: Channel) {
    && (c.p.None? && c.queue != [] ==> c.armed)
    && (c.p.Some? ==> c.p.value.timer)
    && (forall q :: q in c.queue ==> !q.timer)
    && (forall q :: q in c.processed ==> !q.timer)
  }

  /** What was handed to the socket came in the order of submission, before
      everything that waits. */
  ghost predicate Ordered(tries: seq<nat>, queue: seq<Pending>, made: nat) {
    && (forall i, j :: 0 <= i < j < |tries| ==> tries[i] < tries[j])
    && (forall i, j :: 0 <= i < j < |queue| ==> queue[i].id < queue[j].id)
    && (forall i, j :: 0 <= i < |tries| && 0 <= j < |queue| ==> tries[i] < queue[j].id)
    && (forall i :: 0 <= i < |tries| ==> tries[i] < made)
    && (forall i :: 0 <= i < |queue| ==> queue[i].id < made)
  }

  /** The request in flight is the one handed over last. */
  ghost predicate Latest(c: Channel) {
    c.p.Some? ==> c.tries != [] && c.tries[|c.tries| - 1] == c.p.value.id
  }

  ghost predicate Sound(c: Channel) {
    Conserved(c) && Alive(c) && Ordered(c.tries, c.queue, c.made) && Latest(c)
  }

  lemma {:induction false} CountConcat(a: seq<Pending>, b: seq<Pending>, id: nat)
    ensures Count(a + b, id) == Count(a, id) + Count(b, id)
  {
    if a == [] {
      assert a + b == b;
    } else {
      assert (a + b)[1..] == a[1..] + b;
      CountConcat(a[1..], b, id);
    }
  }

  lemma {:induction false} CountRemove(list: seq<Pending>, q: Pending, id: nat)
    requires q in list
    ensures Count(RemoveFirst(list, q), id) == Count(list, id) - (if q.id == id then 1 else 0)
    ensures Count(list, id) >= (if q.id == id then 1 else 0)
  {
    if list[0] != q {
      CountRemove(list[1..], q, id);
      assert RemoveFirst(list, q) == [list[0]] + RemoveFirst(list[1..], q);
      assert RemoveFirst(list, q)[1..] == RemoveFirst(list[1..], q);
    }
  }

  lemma {:induction false} RemoveSubset(list: seq<Pending>, q: Pending)
    ensures forall x :: x in RemoveFirst(list, q) ==> x in list
  {
    if list != [] { RemoveSubset(list[1..], q); }
  }

  lemma SubmitSound(c: Channel, func: bool)
    requires Sound(c)
    ensures Sound(Submit(c, func))
  {
    hide Label;
    var c1 := Submit(c, func);
    var q := c1.queue[|c.queue|];
    assert c1.queue == c.queue + [q] && q.id == c.made;
    forall id: nat ensures Places(c1, id) == if id < c1.made then 1 else 0 {
      CountConcat(c.queue, [q], id);
      assert Places(c, id) == if id < c.made then 1 else 0;
    }
  }

  lemma {:induction false} SubmitAllSound(c: Channel, funcs: seq<bool>)
    requires Sound(c)
    ensures Sound(SubmitAll(c, funcs))
    decreases |funcs|
  {
    hide Sound, Submit;
    if funcs != [] {
      SubmitSound(c, funcs[0]);
      SubmitAllSound(Submit(c, funcs[0]), funcs[1..]);
    }
  }

  /** The head of the queue is freed. */
  lemma DropSound(c: Channel)
    requires Conserved(c) && c.queue != []
    ensures var q := c.queue[0];
            Conserved(c.(queue := c.queue[1..], tries := c.tries + [q.id], destroyed := c.destroyed + multiset{q.id}))
  {
    var q := c.queue[0];
    var c1 := c.(queue := c.queue[1..], tries := c.tries + [q.id], destroyed := c.destroyed + multiset{q.id});
    forall id: nat ensures Places(c1, id) == Places(c, id) { }
  }

  /** The head of the queue takes off. */
  lemma TakeOffSound(c: Channel)
    requires Conserved(c) && c.queue != [] && c.p.None?
    ensures var q := c.queue[0];
            Conserved(c.(queue := c.queue[1..], tries := c.tries + [q.id], p := Some(q.(timer := true))))
  {
    var q := c.queue[0];
    var c1 := c.(queue := c.queue[1..], tries := c.tries + [q.id], p := Some(q.(timer := true)));
    forall id: nat ensures Places(c1, id) == Places(c, id) { }
  }

  lemma {:induction false} PopSound(c: Channel, ok: Socket)
    requires Conserved(c) && Ordered(c.tries, c.queue, c.made) && c.p.None?
    requires (forall q :: q in c.queue ==> !q.timer) && (forall q :: q in c.processed ==> !q.timer)
    ensures Sound(Pop(c, ok))
    decreases |c.queue|
  {
    hide Conserved, Places;
    if c.queue != [] {
      var q := c.queue[0];
      assert q in c.queue && forall x :: x in c.queue[1..] ==> x in c.queue;
      assert Ordered(c.tries + [q.id], c.queue[1..], c.made);
      if ok(|c.tries|) {
        TakeOffSound(c);
      } else {
        DropSound(c);
        PopSound(c.(queue := c.queue[1..], tries := c.tries + [q.id], destroyed := c.destroyed + multiset{q.id}), ok);
      }
    }
  }

  /** Whether the idle source is armed, and what was told, is nothing to the
      places. */
  lemma Aside(c: Channel, armed: bool, told: seq<Told>)
    requires Conserved(c)
    ensures Conserved(c.(armed := armed, told := told))
  {
    var c1 := c.(armed := armed, told := told);
    forall id: nat ensures Places(c1, id) == Places(c, id) { }
  }

  lemma IdleSound(c: Channel, ok: Socket)
    requires Sound(c)
    ensures Sound(Idle(c, ok))
  {
    hide Conserved, Places;
    Aside(c, false, c.told);
    assert c.(armed := false, told := c.told) == c.(armed := false);
    if c.p.None? { PopSound(c.(armed := false), ok); }
  }

  lemma LandSound(c: Channel)
    requires Sound(c) && c.p.Some?
    ensures Sound(c.(p := None, armed := true, destroyed := c.destroyed + multiset{c.p.value.id}))
  {
    var c1 := c.(p := None, armed := true, destroyed := c.destroyed + multiset{c.p.value.id});
    forall id: nat ensures Places(c1, id) == Places(c, id) { }
  }

  lemma TellSound(c: Channel, t: Told, funcs: seq<bool>)
    requires Sound(c)
    ensures Sound(SubmitAll(c.(told := c.told + [t]), funcs))
  {
    hide Conserved, Places, SubmitAll;
    Aside(c, c.armed, c.told + [t]);
    assert c.(armed := c.armed, told := c.told + [t]) == c.(told := c.told + [t]);
    SubmitAllSound(c.(told := c.told + [t]), funcs);
  }

  lemma TimeoutSound(c: Channel, funcs: seq<bool>)
    requires Sound(c) && c.p.Some?
    ensures Sound(Timeout(c, funcs))
  {
    hide Sound, SubmitAll;
    var q := c.p.value;
    if q.func {
      TellSound(c, TimedOut(q.id), funcs);
      SubmitAllKeeps(c.(told := c.told + [TimedOut(q.id)]), funcs);
      LandSound(SubmitAll(c.(told := c.told + [TimedOut(q.id)]), funcs));
    } else {
      LandSound(c);
    }
  }

  lemma AnsweredSound(c: Channel, transaction: nat)
    requires Sound(c)
    ensures Sound(Answered(c, transaction))
  {
    var c1 := Answered(c, transaction);
    if c1 != c {
      var q := c.p.value.(timer := false);
      assert c1.processed == [q] + c.processed && c1.processed[1..] == c.processed;
      forall id: nat ensures Places(c1, id) == Places(c, id) { }
    }
  }

  lemma RemoveSound(c: Channel, q: Pending)
    requires Sound(c) && q in c.processed
    ensures Sound(c.(processed := RemoveFirst(c.processed, q), destroyed := c.destroyed + multiset{q.id}))
  {
    var c1 := c.(processed := RemoveFirst(c.processed, q), destroyed := c.destroyed + multiset{q.id});
    RemoveSubset(c.processed, q);
    forall id: nat ensures Places(c1, id) == Places(c, id) { CountRemove(c.processed, q, id); }
  }

  lemma NotifySound(c: Channel, q: Pending, keep: bool, funcs: seq<bool>)
    requires Sound(c) && q in c.processed
    ensures Sound(Notify(c, q, keep, funcs))
  {
    hide Sound, SubmitAll;
    if q.func {
      TellSound(c, Answer(q.id, q.transaction), funcs);
      SubmitAllKeeps(c.(told := c.told + [Answer(q.id, q.transaction)]), funcs);
      if !keep { RemoveSound(SubmitAll(c.(told := c.told + [Answer(q.id, q.transaction)]), funcs), q); }
    } else {
      RemoveSound(c, q);
    }
  }

  lemma ResponseSound(c: Channel, transaction: nat, keep: bool, funcs: seq<bool>)
    requires Sound(c)
    ensures Sound(Response(c, transaction, keep, funcs))
  {
    hide Sound, Notify, Answered;
    AnsweredSound(c, transaction);
    var c1 := Answered(c, transaction);
    var q := FirstWith(c1.processed, transaction);
    if q.Some? { NotifySound(c1, q.value, keep, funcs); }
  }

  lemma {:induction false} RunSound(transaction: nat, evs: seq<Event>, ok: Socket)
    ensures Sound(Run(transaction, evs, ok))
    decreases |evs|
  {
    hide Response, Idle, Timeout, Submit;
    if evs != [] {
      var before := evs[..|evs| - 1];
      RunSound(transaction, before, ok);
      var c := Run(transaction, before, ok);
      match evs[|evs| - 1]
      case Submitted(func) => SubmitSound(c, func);
      case IdleFires => IdleSound(c, ok);
      case TimerFires(funcs) => if c.p.Some? { TimeoutSound(c, funcs); }
      case ResponseRead(t, keep, funcs) => ResponseSound(c, t, keep, funcs);
    }
  }

  // -------------------------------------------------------------- properties

  /** In every reachable state: something that waits for an empty slot has the
      idle source armed, and something in flight has its timer running. */
  lemma NeverStalls(transaction: nat, evs: seq<Event>, ok: Socket)
    ensures var c := Run(transaction, evs, ok);
            && (c.p.None? && c.queue != [] ==> c.armed)
            && (c.p.Some? ==> c.p.value.timer)
  {
    RunSound(transaction, evs, ok);
  }

  /** Every request submitted is in exactly one place: it waits, is in flight,
      was answered and kept, or was freed, once. */
  lemma OnePlace(transaction: nat, evs: seq<Event>, ok: Socket, id: nat)
    ensures var c := Run(transaction, evs, ok); Places(c, id) == if id < c.made then 1 else 0
  {
    hide Run;
    RunSound(transaction, evs, ok);
  }

  /** Requests are handed to the socket in the order they were submitted, each
      at most once, and none that was submitted later than one that waits. */
  lemma SentInOrder(transaction: nat, evs: seq<Event>, ok: Socket, i: nat, j: nat)
    ensures var c := Run(transaction, evs, ok);
            && (i < j < |c.tries| ==> c.tries[i] < c.tries[j])
            && (i < |c.tries| && j < |c.queue| ==> c.tries[i] < c.queue[j].id)
  {
    RunSound(transaction, evs, ok);
  }

  /** An answer with the label of the request in flight goes to that request,
      and to no other, even if a request answered before has the same label. */
  lemma AnswerGoesToFlight(c: Channel, transaction: nat, keep: bool, funcs: seq<bool>)
    requires c.p.Some? && c.p.value.transaction == transaction
    ensures var q, c1 := c.p.value, Response(c, transaction, keep, funcs);
            && c1.p == None && c1.armed
            && c1.told == c.told + (if q.func then [Answer(q.id, transaction)] else [])
            && c1.processed == (if q.func && keep then [q.(timer := false)] else []) + c.processed
            && c1.destroyed == (if q.func && keep then c.destroyed else c.destroyed + multiset{q.id})
  {
    var q := c.p.value.(timer := false);
    var c1 := Answered(c, transaction);
    assert c1.processed == [q] + c.processed && FirstWith(c1.processed, transaction) == Some(q);
    SubmitAllKeeps(c1.(told := c1.told + [Answer(q.id, transaction)]), funcs);
    assert RemoveFirst([q] + c.processed, q) == c.processed;
  }

  lemma {:induction false} SubmitAllKeeps(c: Channel, funcs: seq<bool>)
    ensures var c1 := SubmitAll(c, funcs);
            && c1.p == c.p && c1.processed == c.processed && c1.destroyed == c.destroyed && c1.told == c.told
            && (c.armed ==> c1.armed)
    decreases |funcs|
  {
    if funcs != [] { SubmitAllKeeps(Submit(c, funcs[0]), funcs[1..]); }
  }

  /** Any other answer concerns the latest request that was answered with the
      same label and kept, if there is one: it is told, and kept again or freed;
      all else stays. */
  lemma OtherAnswer(c: Channel, transaction: nat, keep: bool, funcs: seq<bool>)
    requires c.p.None? || c.p.value.transaction != transaction
    ensures var f, c1 := FirstWith(c.processed, transaction), Response(c, transaction, keep, funcs);
            && c1.p == c.p
            && (f.None? ==> c1 == c && forall x :: x in c.processed ==> x.transaction != transaction)
            && (f.Some? ==>
                  && c1.told == c.told + (if f.value.func then [Answer(f.value.id, transaction)] else [])
                  && c1.processed == (if f.value.func && keep then c.processed else RemoveFirst(c.processed, f.value))
                  && c1.destroyed == (if f.value.func && keep then c.destroyed else c.destroyed + multiset{f.value.id}))
  {
    FirstWithNone(c.processed, transaction);
    var f := FirstWith(c.processed, transaction);
    if f.Some? && f.value.func {
      SubmitAllKeeps(c.(told := c.told + [Answer(f.value.id, transaction)]), funcs);
    }
  }

  lemma {:induction false} FirstWithNone(list: seq<Pending>, transaction: nat)
    ensures FirstWith(list, transaction).None? ==> forall x :: x in list ==> x.transaction != transaction
  {
    if list != [] { FirstWithNone(list[1..], transaction); }
  }

  /** One turn of the channel when the peer is silent and nothing is submitted. */
  function Turn(c: Channel, ok: Socket): Channel {
    Step(Step(c, IdleFires, ok), TimerFires([]), ok)
  }

  function Turns(c: Channel, n: nat, ok: Socket): Channel
    decreases n
  {
    if n == 0 then c else Turns(Turn(c, ok), n - 1, ok)
  }

  function Left(c: Channel): nat { |c.queue| + if c.p.Some? then 1 else 0 }

  lemma {:induction false} PopShrinks(c: Channel, ok: Socket)
    requires c.p.None?
    ensures var c1 := Pop(c, ok);
            && (c.queue == [] ==> c1 == c)
            && (c.queue != [] ==> |c1.queue| < |c.queue|)
            && |c1.queue| <= |c.queue|
            && (c1.p.Some? ==> c1.p.value.timer)
            && (c1.p.None? ==> c1.queue == [])
            && c1.made == c.made
    decreases |c.queue|
  {
    if c.queue != [] {
      var q := c.queue[0];
      var c1 := c.(queue := c.queue[1..], tries := c.tries + [q.id]);
      if !ok(|c.tries|) { PopShrinks(c1.(destroyed := c1.destroyed + multiset{q.id}), ok); }
    }
  }

  lemma TimeoutFrees(c: Channel)
    requires c.p.Some?
    ensures var c1 := Timeout(c, []); c1.p.None? && c1.queue == c.queue && c1.made == c.made
  {
  }

  lemma TurnShrinks(c: Channel, ok: Socket)
    requires Sound(c)
    ensures Sound(Turn(c, ok)) && Turn(c, ok).made == c.made
    ensures Left(c) > 0 ==> Left(Turn(c, ok)) < Left(c)
    ensures Left(c) == 0 ==> Left(Turn(c, ok)) == 0
  {
    hide Timeout, Pop, Conserved;
    IdleSound(c, ok);
    if c.p.None? { PopShrinks(c.(armed := false), ok); }
    var c1 := Step(c, IdleFires, ok);
    assert Sound(c1);
    if c1.p.Some? {
      TimeoutSound(c1, []);
      TimeoutFrees(c1);
    }
  }

  /** Progress: from every reachable state, even if the peer never answers and
      sends fail, each waiting request is served and freed within as many turns
      as there are requests left; the sources alone see to that. */
  lemma {:induction false} Drains(c: Channel, n: nat, ok: Socket)
    requires Sound(c) && n >= Left(c)
    ensures var c1 := Turns(c, n, ok); c1.queue == [] && c1.p.None? && c1.made == c.made && Sound(c1)
    decreases n
  {
    if n > 0 {
      TurnShrinks(c, ok);
      Drains(Turn(c, ok), n - 1, ok);
    }
  }

  // ----------------------------------------------------- labels used twice

  /** Some request of the list has the label. */
  ghost predicate Carries(list: seq<Pending>, t: nat) { exists q :: q in list && q.transaction == t }

  ghost predicate Labelled(list: seq<Pending>) { forall q :: q in list ==> q.transaction < 16 }

  /** How many labels on from `u` the label `r` is, modulo 16. */
  function Ahead(u: nat, r: nat): nat
    requires u < 16 && r < 16
  {
    (r + 16 - u) % 16
  }

  /** The first label from `u` on that the list does not carry. */
  ghost predicate FirstFree(list: seq<Pending>, u: nat, r: nat)
    requires u < 16 && r < 16
  {
    !Carries(list, r) && forall x: nat :: x < 16 && Ahead(u, x) < Ahead(u, r) ==> Carries(list, x)
  }

  ghost predicate AllTaken(list: seq<Pending>) { forall t: nat :: t < 16 ==> Carries(list, t) }

  /** The list without its first request of the label. */
  function Dropped(list: seq<Pending>, t: nat): (r: seq<Pending>)
    ensures Labelled(list) ==> Labelled(r)
  {
    if list == [] then []
    else if list[0].transaction == t then list[1..]
    else [list[0]] + Dropped(list[1..], t)
  }

  /** A link with the label `t` less. */
  lemma CarriesLess(list: seq<Pending>, i: nat, x: nat)
    requires i < |list|
    ensures Carries(list, x) <==> Carries(list[..i] + list[i + 1..], x) || list[i].transaction == x
  {
    var less := list[..i] + list[i + 1..];
    if Carries(list, x) {
      var q :| q in list && q.transaction == x;
      var k :| 0 <= k < |list| && list[k] == q;
      if k != i { assert less[if k < i then k else k - 1] == q; }
    }
    if Carries(less, x) {
      var q :| q in less && q.transaction == x;
      assert q in list;
    }
    assert list[i] in list;
  }

  lemma AheadNext(u: nat, r: nat)
    requires u < 16 && r < 16 && r != u
    ensures Ahead(u, r) == 1 + Ahead((u + 1) % 16, r) && Ahead((u + 1) % 16, r) < 15
  {
  }

  /** Taking the label `u` out, and going on from the next one. */
  lemma NextFree(tail: seq<Pending>, i: nat, u: nat, f: nat, r: nat)
    requires i < |tail| && tail[i].transaction == u && u < 16 && f < 16 && r < 16 && !Carries(tail, f)
    requires FirstFree(tail[..i] + tail[i + 1..], (u + 1) % 16, r)
    ensures FirstFree(tail, u, r)
  {
    var less, v := tail[..i] + tail[i + 1..], (u + 1) % 16;
    CarriesLess(tail, i, u);
    CarriesLess(tail, i, f);
    CarriesLess(tail, i, r);
    assert tail[i] in tail;
    AheadNext(u, f);
    assert Ahead(v, f) < Ahead(v, r) ==> Carries(less, f);
    assert Ahead(v, u) == 15;
    AheadNext(u, r);
    forall x: nat | x < 16 && Ahead(u, x) < Ahead(u, r) ensures Carries(tail, x) {
      if x != u {
        AheadNext(u, x);
        CarriesLess(tail, i, x);
      }
    }
  }

  lemma AtOnce(tail: seq<Pending>, u: nat)
    requires u < 16 && forall j :: 0 <= j < |tail| ==> tail[j].transaction != u
    ensures FirstFree(tail, u, u)
  {
  }

  /** Behind the head, the search finds the first label that is free there. */
  lemma {:induction false} SearchBehindHead(list: seq<Pending>, i: nat, u: nat, f: nat)
    requires Labelled(list) && 1 <= i <= |list| && u < 16 && f < 16 && !Carries(list[1..], f)
    requires forall j :: 1 <= j < i ==> list[j].transaction != u
    ensures Label(list, i, u) < 16 && FirstFree(list[1..], u, Label(list, i, u))
    decreases |list|, |list| - i
  {
    hide Carries, FirstFree, Label, Labelled;
    LabelIs(list, i, u);
    if i == |list| {
      AtOnce(list[1..], u);
    } else if list[i].transaction == u {
      var less := LinkLess(list, i, f);
      SearchBehindHead(less, 1, (u + 1) % 16, f);
      NextFree(list[1..], i - 1, u, f, Label(less, 1, (u + 1) % 16));
    } else {
      SearchBehindHead(list, i + 1, u, f);
    }
  }

  lemma LabelIs(list: seq<Pending>, i: nat, u: nat)
    ensures Label(list, i, u) ==
            if i >= |list| then u
            else if list[i].transaction == u then Label(list[..i] + list[i + 1..], 1, (u + 1) % 16)
            else Label(list, i + 1, u)
  {
  }

  lemma LinkLess(list: seq<Pending>, i: nat, f: nat) returns (less: seq<Pending>)
    requires Labelled(list) && 1 <= i < |list| && !Carries(list[1..], f)
    ensures less == list[..i] + list[i + 1..] && Labelled(less) && |less| == |list| - 1
    ensures less[1..] == list[1..][..i - 1] + list[1..][i..] && !Carries(less[1..], f)
  {
    hide Carries;
    less := list[..i] + list[i + 1..];
    assert less[1..] == list[1..][..i - 1] + list[1..][i..];
    CarriesLess(list[1..], i - 1, f);
  }

  lemma {:induction false} DroppedAt(list: seq<Pending>, i: nat, t: nat)
    requires i < |list| && list[i].transaction == t && forall j :: 0 <= j < i ==> list[j].transaction != t
    ensures Dropped(list, t) == list[..i] + list[i + 1..]
  {
    if i > 0 {
      DroppedAt(list[1..], i - 1, t);
      assert list[..i] == [list[0]] + list[1..][..i - 1];
    }
  }

  /** The search until its first hit. */
  lemma {:induction false} SearchFirst(list: seq<Pending>, i: nat, t: nat)
    requires i <= |list| && forall j :: 0 <= j < i ==> list[j].transaction != t
    ensures Label(list, i, t) == if Carries(list, t) then Label(Dropped(list, t), 1, (t + 1) % 16) else t
    ensures Carries(list, t) ==> |Dropped(list, t)| == |list| - 1
    ensures forall x :: Carries(list, x) <==> Carries(Dropped(list, t), x) || (x == t && Carries(list, t))
    decreases |list| - i
  {
    if i == |list| {
      assert !Carries(list, t);
      assert forall x :: Carries(list, x) <==> Carries(Dropped(list, t), x) by { NothingDropped(list, t); }
    } else if list[i].transaction == t {
      assert list[i] in list;
      DroppedAt(list, i, t);
      forall x ensures Carries(list, x) <==> Carries(Dropped(list, t), x) || (x == t && Carries(list, t)) {
        CarriesLess(list, i, x);
      }
    } else {
      SearchFirst(list, i + 1, t);
    }
  }

  lemma {:induction false} NothingDropped(list: seq<Pending>, t: nat)
    requires !Carries(list, t)
    ensures Dropped(list, t) == list
  {
    if list != [] {
      assert list[0] in list;
      assert forall q :: q in list[1..] ==> q in list;
      NothingDropped(list[1..], t);
    }
  }

  lemma {:induction false} LabelBelow(list: seq<Pending>, i: nat, t: nat)
    requires t < 16
    ensures Label(list, i, t) < 16
    decreases |list|, |list| - Min(i, |list|)
  {
    if i < |list| {
      if list[i].transaction == t { LabelBelow(list[..i] + list[i + 1..], 1, (t + 1) % 16); }
      else { LabelBelow(list, i + 1, t); }
    }
  }

  /** What the search comes to behind its first hit, in the list left. */
  ghost predicate HeadIsNext(rest: seq<Pending>, t: nat)
    requires t < 16 && Labelled(rest)
  {
    rest != [] && rest[0] in rest && rest[0].transaction != t && FirstFree(rest[1..], (t + 1) % 16, rest[0].transaction)
  }

  lemma OneFirstFree(list: seq<Pending>, u: nat, r: nat, x: nat)
    requires u < 16 && r < 16 && x < 16 && FirstFree(list, u, r) && FirstFree(list, u, x)
    ensures r == x
  {
    assert Ahead(u, r) == Ahead(u, x) ==> r == x;
  }

  /** A new request gets the label of one that is kept if and only if the next
      label is taken and either all 16 are, or, once the first request that has
      it is left out, every label after it up to that of the head is taken
      behind the head, and the head's is not. */
  lemma LabelTaken(processed: seq<Pending>, t: nat)
    requires t < 16 && Labelled(processed)
    ensures Carries(processed, Label(processed, 0, t))
            <==> Carries(processed, t) && (AllTaken(processed) || HeadIsNext(Dropped(processed, t), t))
  {
    SearchFirst(processed, 0, t);
    LabelBelow(processed, 0, t);
    if Carries(processed, t) && !AllTaken(processed) {
      var rest, r := Dropped(processed, t), Label(processed, 0, t);
      var f: nat :| f < 16 && !Carries(processed, f);
      if rest == [] {
        assert r == (t + 1) % 16;
        assert !Carries(rest, r);
      } else {
        CarriesLess(rest, 0, f);
        assert rest[..0] + rest[0 + 1..] == rest[1..];
        SearchBehindHead(rest, 1, (t + 1) % 16, f);
        CarriesLess(rest, 0, r);
        NotAround(processed, rest, t, r, f);
        if HeadIsNext(rest, t) { OneFirstFree(rest[1..], (t + 1) % 16, r, rest[0].transaction); }
      }
    }
  }

  /** The search does not come round to the label it began with. */
  lemma NotAround(processed: seq<Pending>, rest: seq<Pending>, t: nat, r: nat, f: nat)
    requires t < 16 && r < 16 && f < 16 && f != t && rest != [] && FirstFree(rest[1..], (t + 1) % 16, r)
    requires !Carries(rest[1..], f)
    ensures r != t
  {
    AheadNext(t, f);
    assert Ahead((t + 1) % 16, t) == 15;
    assert Ahead((t + 1) % 16, f) < 15;
  }

  /** All labels are those of four bits. */
  ghost predicate InRange(c: Channel) {
    && c.transaction < 16 && Labelled(c.queue) && Labelled(c.processed)
    && (c.p.Some? ==> c.p.value.transaction < 16)
  }

  lemma {:induction false} SubmitAllInRange(c: Channel, funcs: seq<bool>)
    requires InRange(c)
    ensures InRange(SubmitAll(c, funcs))
    decreases |funcs|
  {
    if funcs != [] {
      LabelBelow(c.processed, 0, c.transaction);
      SubmitAllInRange(Submit(c, funcs[0]), funcs[1..]);
    }
  }

  lemma {:induction false} PopInRange(c: Channel, ok: Socket)
    requires InRange(c)
    ensures InRange(Pop(c, ok))
    decreases |c.queue|
  {
    if c.queue != [] {
      var q := c.queue[0];
      assert q in c.queue && forall x :: x in c.queue[1..] ==> x in c.queue;
      PopInRange(c.(queue := c.queue[1..], tries := c.tries + [q.id], destroyed := c.destroyed + multiset{q.id}), ok);
    }
  }

  lemma NotifyInRange(c: Channel, q: Pending, keep: bool, funcs: seq<bool>)
    requires InRange(c)
    ensures InRange(Notify(c, q, keep, funcs))
  {
    SubmitAllInRange(c.(told := c.told + [Answer(q.id, q.transaction)]), funcs);
    RemoveSubset(SubmitAll(c.(told := c.told + [Answer(q.id, q.transaction)]), funcs).processed, q);
    RemoveSubset(c.processed, q);
  }

  lemma StepInRange(c: Channel, ev: Event, ok: Socket)
    requires InRange(c)
    ensures InRange(Step(c, ev, ok))
  {
    hide Label, Notify, SubmitAll, Pop;
    match ev
    case Submitted(func) => LabelBelow(c.processed, 0, c.transaction);
    case IdleFires => PopInRange(c.(armed := false), ok);
    case TimerFires(funcs) =>
      if c.p.Some? { SubmitAllInRange(c.(told := c.told + [TimedOut(c.p.value.id)]), funcs); }
    case ResponseRead(t, keep, funcs) =>
      var c1 := Answered(c, t);
      if FirstWith(c1.processed, t).Some? { NotifyInRange(c1, FirstWith(c1.processed, t).value, keep, funcs); }
  }

  lemma {:induction false} RunInRange(transaction: nat, evs: seq<Event>, ok: Socket)
    requires transaction < 16
    ensures InRange(Run(transaction, evs, ok))
    decreases |evs|
  {
    hide Step, InRange;
    if evs != [] {
      RunInRange(transaction, evs[..|evs| - 1], ok);
      StepInRange(Run(transaction, evs[..|evs| - 1], ok), evs[|evs| - 1], ok);
    } else {
      assert InRange(NewChannel(transaction)) by { NewInRange(transaction); }
    }
  }

  lemma NewInRange(transaction: nat)
    requires transaction < 16
    ensures InRange(NewChannel(transaction))
  {
  }

  /** After any run the label of the next request is that of a kept one if and
      only if the labels kept are as `LabelTaken` says. */
  lemma NextLabelTaken(transaction: nat, evs: seq<Event>, func: bool, ok: Socket)
    requires transaction < 16
    ensures var c := Run(transaction, evs, ok);
            && c.transaction < 16 && Labelled(c.processed)
            && (Carries(c.processed, Submit(c, func).queue[|c.queue|].transaction)
                <==> Carries(c.processed, c.transaction)
                     && (AllTaken(c.processed) || HeadIsNext(Dropped(c.processed, c.transaction), c.transaction)))
  {
    hide Run, Carries, AllTaken, HeadIsNext, Dropped;
    RunInRange(transaction, evs, ok);
    var c := Run(transaction, evs, ok);
    LabelTaken(c.processed, c.transaction);
  }

  // --------------------------------------------------------- a run to there

  /** A request is submitted, sent and answered. */
  function Round(answer: nat, keep: bool): seq<Event> {
    [Submitted(true), IdleFires, ResponseRead(answer, keep, [])]
  }

  /** The channel between two requests. */
  ghost predicate Rests(c: Channel, transaction: nat, processed: seq<Pending>) {
    c.p.None? && c.queue == [] && c.transaction == transaction && c.processed == processed
  }

  lemma RunMore(transaction: nat, evs: seq<Event>, ev: Event, ok: Socket)
    ensures Run(transaction, evs + [ev], ok) == Step(Run(transaction, evs, ok), ev, ok)
  {
    assert (evs + [ev])[..|evs + [ev]| - 1] == evs;
  }

  /** One round, from rest to rest. */
  lemma RoundRests(transaction: nat, evs: seq<Event>, t: nat, processed: seq<Pending>, answer: nat, keep: bool, ok: Socket)
    requires Rests(Run(transaction, evs, ok), t, processed) && (forall n :: ok(n)) && answer == Label(processed, 0, t)
    ensures var made := Run(transaction, evs, ok).made;
            Rests(Run(transaction, evs + Round(answer, keep), ok), (answer + 1) % 16,
                  (if keep then [Pending(made, answer, true, false)] else []) + processed)
  {
    hide Label, Run;
    var c := Run(transaction, evs, ok);
    var e1, e2 := evs + [Submitted(true)], evs + [Submitted(true)] + [IdleFires];
    RunMore(transaction, evs, Submitted(true), ok);
    RunMore(transaction, e1, IdleFires, ok);
    RunMore(transaction, e2, ResponseRead(answer, keep, []), ok);
    assert evs + Round(answer, keep) == e2 + [ResponseRead(answer, keep, [])];
    var c2 := Run(transaction, e2, ok);
    assert c2.p == Some(Pending(c.made, answer, true, true)) && c2.queue == [];
    AnswerGoesToFlight(c2, answer, keep, []);
  }

  /** Rounds for the labels from `first` up to `last`, all freed. */
  function Freed(first: nat, last: nat): seq<Event> {
    if last <= first then [] else Freed(first, last - 1) + Round(last - 1, false)
  }

  lemma {:induction false} FreedRests(transaction: nat, evs: seq<Event>, first: nat, last: nat, processed: seq<Pending>,
                                      ok: Socket)
    requires Rests(Run(transaction, evs, ok), first, processed) && (forall n :: ok(n)) && first < last <= 16
    requires forall t :: first <= t < last ==> !Carries(processed, t)
    ensures Rests(Run(transaction, evs + Freed(first, last), ok), last % 16, processed)
    decreases last
  {
    hide Run;
    var t: nat := last - 1;
    var before := evs + Freed(first, t);
    if first < t {
      FreedRests(transaction, evs, first, t, processed, ok);
    } else {
      assert before == evs;
    }
    SearchFirst(processed, 0, t);
    RoundRests(transaction, before, t, processed, t, false, ok);
    assert [] + processed == processed;
    assert evs + Freed(first, last) == before + Round(t, false);
  }

  /** All labels once, of which 1 is kept; 0 again, kept too; the others again. */
  function Around(): seq<Event> {
    Round(0, false) + Round(1, true) + Freed(2, 16) + Round(0, true) + Round(2, false) + Freed(3, 16)
  }

  /** A run that ends with two requests of one label: one that is kept since
      long, and the one submitted last. */
  lemma LabelUsedTwice(ok: Socket)
    requires forall n :: ok(n)
    ensures var c := Run(0, Around() + [Submitted(true)], ok);
            && |c.processed| == 2 && |c.queue| == 1 && c.processed[1].id != c.queue[0].id
            && c.queue[0].transaction == c.processed[1].transaction == 1
  {
    hide Run, Freed, Label;
    NewRun(ok);
    var e0 := [] + Round(0, false);
    RoundRests(0, [], 0, [], 0, false, ok);
    var none: seq<Pending> := [];
    assert none + none == none;
    var e1 := e0 + Round(1, true);
    RoundRests(0, e0, 1, [], 1, true, ok);
    var one := Pending(Run(0, e0, ok).made, 1, true, false);
    assert [one] + [] == [one];
    var e2 := e1 + Freed(2, 16);
    assert forall t :: 2 <= t < 16 ==> !Carries([one], t);
    FreedRests(0, e1, 2, 16, [one], ok);
    var e3 := e2 + Round(0, true);
    assert !Carries([one], 0);
    SearchFirst([one], 0, 0);
    RoundRests(0, e2, 0, [one], 0, true, ok);
    var zero := Pending(Run(0, e2, ok).made, 0, true, false);
    assert [zero] + [one] == [zero, one];
    var e4 := e3 + Round(2, false);
    SecondPass(zero, one);
    RoundRests(0, e3, 1, [zero, one], 2, false, ok);
    assert [] + [zero, one] == [zero, one];
    var e5 := e4 + Freed(3, 16);
    assert forall t :: 3 <= t < 16 ==> !Carries([zero, one], t);
    FreedRests(0, e4, 3, 16, [zero, one], ok);
    assert e5 == Around();
    RunMore(0, e5, Submitted(true), ok);
    RunSound(0, e5, ok);
    assert Run(0, e5, ok).processed[1] == one;
    OlderId(Run(0, e5, ok), one);
  }

  lemma NewRun(ok: Socket)
    ensures Run(0, [], ok) == NewChannel(0) && Label([], 0, 0) == 0 && Label([], 0, 1) == 1
  {
  }

  /** The searches that meet the two kept requests. */
  lemma SecondPass(zero: Pending, one: Pending)
    requires zero.transaction == 0 && one.transaction == 1
    ensures Label([zero, one], 0, 1) == 2 && Label([zero, one], 0, 0) == 1
  {
    assert [zero, one][..1] + [zero, one][2..] == [zero] && [zero, one][..0] + [zero, one][1..] == [one];
    assert Label([zero], 1, 2) == 2 && Label([one], 1, 1) == 1;
    assert Label([zero, one], 1, 1) == Label([zero], 1, 2);
  }

  lemma OlderId(c: Channel, q: Pending)
    requires Sound(c) && q in c.processed
    ensures q.id < c.made
  {
    assert Count(c.processed, q.id) > 0 by { CountRemove(c.processed, q, q.id); }
    assert Places(c, q.id) > 0;
  }

  // ------------------------------------------------- what each event comes to

  /** The label of the next request: that of the counter, if no kept request has
      it; otherwise, once the first that has it is left out, the first label on
      from the next one that no kept request behind the head has. */
  lemma LabelFound(processed: seq<Pending>, t: nat)
    requires t < 16 && Labelled(processed)
    ensures !Carries(processed, t) ==> Label(processed, 0, t) == t
    ensures Carries(processed, t) ==>
              var rest := Dropped(processed, t);
              && Label(processed, 0, t) < 16
              && (rest == [] ==> Label(processed, 0, t) == (t + 1) % 16)
              && (rest != [] && !AllTaken(rest[1..]) ==> FirstFree(rest[1..], (t + 1) % 16, Label(processed, 0, t)))
  {
    hide Carries, FirstFree;
    SearchFirst(processed, 0, t);
    LabelBelow(processed, 0, t);
    var rest := Dropped(processed, t);
    if Carries(processed, t) && rest != [] && !AllTaken(rest[1..]) {
      var f: nat :| f < 16 && !Carries(rest[1..], f);
      SearchBehindHead(rest, 1, (t + 1) % 16, f);
    }
  }

  /** A request that is submitted waits behind all others, with the label found
      and no timer; the counter goes on behind it, and the idle source is armed. */
  lemma SubmittedCases(c: Channel, func: bool, ok: Socket)
    ensures var t := Label(c.processed, 0, c.transaction);
            Step(c, Submitted(func), ok)
            == c.(queue := c.queue + [Pending(c.made, t, func, false)], transaction := (t + 1) % 16, made := c.made + 1,
                  armed := true)
  {
  }

  function IdsOf(list: seq<Pending>): seq<nat> { if list == [] then [] else [list[0].id] + IdsOf(list[1..]) }

  /** Of the requests that waited `k` were refused, and the next one, if there is
      one, was taken. */
  ghost predicate Handed(c: Channel, c1: Channel, k: nat, ok: Socket) {
    var n := |c.tries|;
    && k <= |c.queue| && (forall i :: n <= i < n + k ==> !ok(i)) && (k < |c.queue| ==> ok(n + k))
    && c1.p == (if k < |c.queue| then Some(c.queue[k].(timer := true)) else None)
    && c1.queue == (if k < |c.queue| then c.queue[k + 1..] else [])
    && c1.tries == c.tries + IdsOf(if k < |c.queue| then c.queue[..k + 1] else c.queue)
    && c1.destroyed == c.destroyed + multiset(IdsOf(c.queue[..k]))
    && c1.processed == c.processed && c1.transaction == c.transaction && c1.made == c.made && c1.told == c.told
    && c1.armed == c.armed
  }

  /** The idle source: with a request in flight nothing is sent. Otherwise the
      requests that wait are handed to the socket one after the other, up to the
      first it takes, which is in flight then with its timer running; those
      refused are freed. */
  lemma IdleCases(c: Channel, ok: Socket) returns (k: nat)
    requires c.armed
    ensures c.p.Some? ==> Step(c, IdleFires, ok) == c.(armed := false)
    ensures c.p.None? ==> Handed(c.(armed := false), Step(c, IdleFires, ok), k, ok)
  {
    k := 0;
    if c.p.None? { k := PopCases(c.(armed := false), ok); }
  }

  lemma {:induction false} PopCases(c: Channel, ok: Socket) returns (k: nat)
    requires c.p.None?
    ensures Handed(c, Pop(c, ok), k, ok)
    decreases |c.queue|
  {
    k := 0;
    if c.queue == [] {
      assert c.tries + [] == c.tries;
    } else if ok(|c.tries|) {
      assert c.queue[..1] == [c.queue[0]] && IdsOf([c.queue[0]]) == [c.queue[0].id] && c.queue[..0] == [];
    } else {
      var q := c.queue[0];
      var c1 := c.(queue := c.queue[1..], tries := c.tries + [q.id], destroyed := c.destroyed + multiset{q.id});
      var n := PopCases(c1, ok);
      k := n + 1;
      OneRefused(c, c1, Pop(c1, ok), n, ok);
    }
  }

  lemma OneRefused(c: Channel, c1: Channel, c2: Channel, k: nat, ok: Socket)
    requires c.queue != [] && !ok(|c.tries|) && Handed(c1, c2, k, ok)
    requires c1 == c.(queue := c.queue[1..], tries := c.tries + [c.queue[0].id],
                      destroyed := c.destroyed + multiset{c.queue[0].id})
    ensures Handed(c, c2, k + 1, ok)
  {
    hide IdsOf;
    FirstId(c.queue, k);
    if k < |c1.queue| { FirstId(c.queue, k + 1); } else { assert c1.queue[..k] == c1.queue && c.queue[..k + 1] == c.queue; }
  }

  lemma FirstId(list: seq<Pending>, n: nat)
    requires n < |list|
    ensures IdsOf(list[..n + 1]) == [list[0].id] + IdsOf(list[1..][..n])
  {
    assert list[..n + 1][1..] == list[1..][..n] && list[..n + 1][0] == list[0];
  }

  /** What waits after a callback, if there was one: what it submitted waits
      behind all others, in order. */
  ghost predicate Joins(c: Channel, c1: Channel, told: bool, funcs: seq<bool>) {
    var n := if told then |funcs| else 0;
    && c1.made == c.made + n && |c1.queue| == |c.queue| + n && c1.tries == c.tries
    && (forall i :: 0 <= i < |c.queue| ==> c1.queue[i] == c.queue[i])
    && (forall i :: |c.queue| <= i < |c1.queue| ==>
          c1.queue[i].id == c.made + (i - |c.queue|) && c1.queue[i].func == funcs[i - |c.queue|])
  }

  lemma {:induction false} SubmitAllAdds(c: Channel, funcs: seq<bool>)
    ensures Joins(c, SubmitAll(c, funcs), true, funcs)
    decreases |funcs|
  {
    if funcs != [] {
      hide Submit;
      SubmitOne(c, funcs[0]);
      SubmitAllAdds(Submit(c, funcs[0]), funcs[1..]);
    }
  }

  lemma SubmitOne(c: Channel, func: bool)
    ensures var b := Submit(c, func);
            && b.made == c.made + 1 && |b.queue| == |c.queue| + 1 && b.tries == c.tries
            && (forall i :: 0 <= i < |c.queue| ==> b.queue[i] == c.queue[i])
            && b.queue[|c.queue|].id == c.made && b.queue[|c.queue|].func == func
  {
  }

  /** The timer: the request in flight is told if it has a callback, and freed;
      the slot is empty and the idle source armed. */
  lemma TimerCases(c: Channel, funcs: seq<bool>, ok: Socket)
    requires c.p.Some? && c.p.value.timer
    ensures var q, c1 := c.p.value, Step(c, TimerFires(funcs), ok);
            && c1.p == None && c1.armed && c1.processed == c.processed
            && c1.told == c.told + (if q.func then [TimedOut(q.id)] else [])
            && c1.destroyed == c.destroyed + multiset{q.id}
            && Joins(c, c1, q.func, funcs)
  {
    SubmitAllKeeps(c.(told := c.told + [TimedOut(c.p.value.id)]), funcs);
    SubmitAllAdds(c.(told := c.told + [TimedOut(c.p.value.id)]), funcs);
  }

  /** An answer makes room in the flight only for its own request, and what the
      callback that was told submits waits behind all others. */
  lemma AnswerJoins(c: Channel, transaction: nat, keep: bool, funcs: seq<bool>, ok: Socket)
    ensures var c1 := Step(c, ResponseRead(transaction, keep, funcs), ok);
            && c1 == Response(c, transaction, keep, funcs)
            && Joins(c, c1, |c1.told| > |c.told|, funcs)
            && (c1.p == c.p || (c1.p == None && c.p.value.transaction == transaction && c1.armed))
  {
    hide SubmitAll, Joins;
    var a := Answered(c, transaction);
    var f := FirstWith(a.processed, transaction);
    JoinsNone(c, a, funcs);
    if f.Some? {
      var b := a.(told := a.told + [Answer(f.value.id, f.value.transaction)]);
      SubmitAllKeeps(b, funcs);
      SubmitAllAdds(b, funcs);
      JoinsAlike(b, SubmitAll(b, funcs), c, Response(c, transaction, keep, funcs), true, funcs);
      JoinsNone(c, a.(processed := RemoveFirst(a.processed, f.value), destroyed := a.destroyed + multiset{f.value.id}), funcs);
    }
  }

  lemma JoinsNone(c: Channel, c1: Channel, funcs: seq<bool>)
    requires c1.queue == c.queue && c1.made == c.made && c1.tries == c.tries
    ensures Joins(c, c1, false, funcs)
  {
  }

  /** Only the queue, the count and the tries matter to it. */
  lemma JoinsAlike(b: Channel, b1: Channel, c: Channel, c1: Channel, told: bool, funcs: seq<bool>)
    requires Joins(b, b1, told, funcs)
    ensures (b.queue == c.queue && b.made == c.made && b.tries == c.tries
             && b1.queue == c1.queue && b1.made == c1.made && b1.tries == c1.tries) ==> Joins(c, c1, told, funcs)
  {
  }
}
