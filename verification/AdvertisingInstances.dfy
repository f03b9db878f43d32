/** The advertising instances of GATT clients: a word of 32 bits says which
    instance numbers are taken, and must agree with the instances there are. */
module AdvertisingInstances {
  import opened Bits
  import opened Common

  type Client = nat
  type AdvId = nat

  /** `apps` are the registered clients, each with its instance or none; `advs`
      are the instance objects in existence, each with its number (0 for none);
      `removing` those whose removal the kernel has not yet confirmed. `made`
      counts the objects. */
  datatype Advertising = Advertising(
    bits: bv32, apps: map<Client, Option<AdvId>>, advs: map<AdvId, bv8>, removing: set<AdvId>, made: nat)

  const NONE: Advertising := Advertising(0, map[], map[], {}, 0)

  /** The instance number of a bit. */
  function Number(i: Index): (n: bv8)
    ensures 1 <= n <= 32
  {
    i + 1
  }

  /** The bit of an instance number. */
  function IndexOf(n: bv8): (i: Index)
    requires 1 <= n <= 32
    ensures Number(i) == n
  {
    n - 1
  }

  // -------------------------------------------------------------- operations

  /** The first clear bit from `i` on. */
  function Lowest(bits: bv32, i: bv8): (r: Option<bv8>)
    requires i <= 32
    ensures r.Some? ==> i <= r.value < 32 && !Bit(bits, r.value) && forall j: Index :: i <= j < r.value ==> Bit(bits, j)
    ensures r.None? ==> forall j: Index :: i <= j ==> Bit(bits, j)
    decreases 32 - i
  {
    if i == 32 then None else if !Bit(bits, i) then Some(i) else Lowest(bits, i + 1)
  }

  /** `find_adv_instance`. */
  function Find(s: Advertising, c: Client): (Advertising, Option<AdvId>) {
    if c !in s.apps then (s, None)
    else if s.apps[c].Some? then (s, s.apps[c])
    else
      match Lowest(s.bits, 0)
      case None => (s, None)
      case Some(i) =>
        (s.(bits := Set(s.bits, i), apps := s.apps[c := Some(s.made)], advs := s.advs[s.made := Number(i)],
            made := s.made + 1), Some(s.made))
  }

  /** `free_adv_instance`. */
  function Free(s: Advertising, a: AdvId): Advertising
    requires a in s.advs && 0 <= s.advs[a] <= 32
  {
    s.(bits := if s.advs[a] != 0 then Clear(s.bits, IndexOf(s.advs[a])) else s.bits, advs := s.advs - {a})
  }

  /** `handle_client_disable_multi_adv_inst`; `taken` tells whether the request
      to the kernel could be sent. */
  function Disable(s: Advertising, c: Client, taken: bool): Advertising {
    var (s1, a) := Find(s, c);
    if a.None? || !taken then s1
    else s1.(removing := s1.removing + {a.value}, apps := s1.apps[c := None])
  }

  /** `remove_advertising_cb`. */
  function Removed(s: Advertising, a: AdvId): Advertising
    requires a in s.advs && 0 <= s.advs[a] <= 32
  {
    var s1 := Free(s, a);
    s1.(removing := s1.removing - {a})
  }

  /** `destroy_gatt_app`. */
  function Destroy(s: Advertising, c: Client): Advertising
    requires c in s.apps && (s.apps[c].Some? ==> s.apps[c].value in s.advs && s.advs[s.apps[c].value] <= 32)
  {
    var s1 := if s.apps[c].Some? then Free(s, s.apps[c].value) else s;
    s1.(apps := s1.apps - {c})
  }

  // ------------------------------------------------- the instances in place

  class Gatt {
    var advInstBits: bv32
    var apps: map<Client, Option<AdvId>>
    var advs: map<AdvId, bv8>
    var removing: set<AdvId>
    var made: nat

    ghost function State(): Advertising reads this { Advertising(advInstBits, apps, advs, removing, made) }

    constructor ()
      ensures State() == NONE
    {
      advInstBits, apps, advs, removing, made := 0, map[], map[], {}, 0;
    }

    /** `find_adv_instance`. */
    method FindAdvInstance(c: Client) returns (adv: Option<AdvId>)
      modifies this
      ensures (State(), adv) == Find(old(State()), c)
    {
      hide Set, Bit;
      if c !in apps { return None; }
      if apps[c].Some? { return apps[c]; }
      var inst: bv8, i: bv8 := 0, 0;
      while i < 32
        invariant i <= 32 && inst == 0
        invariant State() == old(State()) && Lowest(advInstBits, 0) == Lowest(advInstBits, i)
        decreases 32 - i
      {
        if !Bit(advInstBits, i) {
          inst := Number(i);
          advInstBits := Set(advInstBits, i);
          break;
        }
        i := i + 1;
      }
      if inst == 0 { return None; }
      adv := Some(made);
      advs := advs[made := inst];
      apps := apps[c := adv];
      made := made + 1;
    }

    /** `free_adv_instance`. */
    method FreeAdvInstance(a: AdvId)
      requires a in advs && advs[a] <= 32
      modifies this`advInstBits, this`advs
      ensures State() == Free(old(State()), a)
    {
      hide Clear, IndexOf;
      if advs[a] != 0 { advInstBits := Clear(advInstBits, IndexOf(advs[a])); }
      advs := advs - {a};
    }

    /** `handle_client_disable_multi_adv_inst`. */
    method DisableAdv(c: Client, taken: bool)
      modifies this
      ensures State() == Disable(old(State()), c, taken)
    {
      var adv := FindAdvInstance(c);
      if adv.None? || !taken { return; }
      removing := removing + {adv.value};
      if c in apps { apps := apps[c := None]; }
    }

    /** `remove_advertising_cb`. */
    method RemoveAdvertisingCb(a: AdvId)
      requires a in advs && advs[a] <= 32
      modifies this
      ensures State() == Removed(old(State()), a)
    {
      hide Clear, IndexOf;
      removing := removing - {a};
      FreeAdvInstance(a);
    }

    /** `destroy_gatt_app`. */
    method DestroyGattApp(c: Client)
      requires c in apps && (apps[c].Some? ==> apps[c].value in advs && advs[apps[c].value] <= 32)
      modifies this
      ensures State() == Destroy(old(State()), c)
    {
      hide Clear, IndexOf;
      if apps[c].Some? { FreeAdvInstance(apps[c].value); }
      apps := apps - {c};
    }
  }

  // --------------------------------------------------------------- all runs

  /** Setting up an instance, and setting its data, both find one first. */
  datatype Event =
    | Register(c: Client)
    | Setup(c: Client)
    | DisableIt(c: Client, taken: bool)
    | RemovalDone(a: AdvId)
    | Unregister(c: Client)

  function Step(s: Advertising, ev: Event): Advertising
    requires Numbered(s)
  {
    match ev
    case Register(c) => if c in s.apps then s else s.(apps := s.apps[c := None])
    case Setup(c) => Find(s, c).0
    case DisableIt(c, taken) => Disable(s, c, taken)
    case RemovalDone(a) => if a in s.removing then Removed(s, a) else s
    case Unregister(c) => if c in s.apps then Destroy(s, c) else s
  }

  function Run(evs: seq<Event>): (s: Advertising)
    ensures Sound(s)
  {
    if evs == [] then NONE
    else
      var s := Run(evs[..|evs| - 1]);
      StepSound(s, evs[|evs| - 1]);
      Step(s, evs[|evs| - 1])
  }

  // -------------------------------------------------------------- invariant

  /** Some instance has the number. */
  ghost predicate Live(advs: map<AdvId, bv8>, number: bv8) { exists a :: a in advs && advs[a] == number }

  /** The numbers are from 1 to 32, and what is referred to exists. */
  ghost predicate Numbered(s: Advertising) {
    && (forall a :: a in s.advs ==> 1 <= s.advs[a] <= 32 && a < s.made)
    && (forall c :: c in s.apps && s.apps[c].Some? ==> s.apps[c].value in s.advs)
    && (forall a :: a in s.removing ==> a in s.advs)
  }

  /** Every instance belongs to one client, or awaits its removal. */
  ghost predicate Owned(s: Advertising) {
    && (forall c :: c in s.apps && s.apps[c].Some? ==> s.apps[c].value !in s.removing)
    && (forall c, d :: c in s.apps && d in s.apps && c != d && s.apps[c].Some? ==> s.apps[c] != s.apps[d])
    && (forall a :: a in s.advs ==> a in s.removing || exists c :: c in s.apps && s.apps[c] == Some(a))
  }

  /** The numbers differ, and the bits say which are taken. */
  ghost predicate Agreed(bits: bv32, advs: map<AdvId, bv8>) {
    && (forall a, b :: a in advs && b in advs && a != b ==> advs[a] != advs[b])
    && (forall i: Index :: Bit(bits, i) <==> Live(advs, Number(i)))
  }

  ghost predicate Sound(s: Advertising) { Numbered(s) && Owned(s) && Agreed(s.bits, s.advs) }

  lemma AddAgreed(bits: bv32, advs: map<AdvId, bv8>, a: AdvId, i: Index)
    requires Agreed(bits, advs) && a !in advs && !Bit(bits, i)
    ensures Agreed(Set(bits, i), advs[a := Number(i)])
  {
    hide Set, Clear, Bit;
    var advs1 := advs[a := Number(i)];
    assert !Live(advs, Number(i));
    forall j: Index ensures Bit(Set(bits, i), j) <==> Live(advs1, Number(j)) {
      SetBit(bits, i, j);
      AddLive(advs, a, i, j);
    }
  }

  lemma AddLive(advs: map<AdvId, bv8>, a: AdvId, i: Index, j: Index)
    requires a !in advs
    ensures Live(advs[a := Number(i)], Number(j)) <==> i == j || Live(advs, Number(j))
  {
    var advs1 := advs[a := Number(i)];
    if Live(advs, Number(j)) {
      var b :| b in advs && advs[b] == Number(j);
      assert b in advs1 && advs1[b] == Number(j);
    }
    if i == j { assert a in advs1 && advs1[a] == Number(j); }
    if Live(advs1, Number(j)) {
      var b :| b in advs1 && advs1[b] == Number(j);
      assert b == a || (b in advs && advs[b] == Number(j));
    }
  }

  lemma FreeAgreed(bits: bv32, advs: map<AdvId, bv8>, a: AdvId)
    requires Agreed(bits, advs) && a in advs && 1 <= advs[a] <= 32
    ensures Agreed(Clear(bits, IndexOf(advs[a])), advs - {a})
  {
    hide Set, Clear, Bit, IndexOf, Number;
    var i := IndexOf(advs[a]);
    forall j: Index ensures Bit(Clear(bits, i), j) <==> Live(advs - {a}, Number(j)) {
      ClearBit(bits, i, j);
      FreeLive(advs, a, i, j);
    }
  }

  lemma FreeLive(advs: map<AdvId, bv8>, a: AdvId, i: Index, j: Index)
    requires a in advs && advs[a] == Number(i)
    requires forall b :: b in advs && b != a ==> advs[b] != advs[a]
    ensures Live(advs - {a}, Number(j)) <==> i != j && Live(advs, Number(j))
  {
    var advs1 := advs - {a};
    if Live(advs, Number(j)) && i != j {
      var b :| b in advs && advs[b] == Number(j);
      assert b in advs1 && advs1[b] == Number(j);
    }
    if Live(advs1, Number(j)) {
      var b :| b in advs1 && advs1[b] == Number(j);
      assert b in advs && b != a && advs[b] == Number(j);
    }
  }

  lemma FindSound(s: Advertising, c: Client)
    requires Sound(s)
    ensures var (s1, a) := Find(s, c);
            && Sound(s1)
            && (a.Some? ==> c in s1.apps && s1.apps[c] == a && a.value in s1.advs)
            && (a.None? ==> s1 == s)
  {
    hide Set, Clear, Bit, Agreed, Number;
    if c in s.apps && s.apps[c].None? {
      var i := Lowest(s.bits, 0);
      if i.Some? {
        AddAgreed(s.bits, s.advs, s.made, i.value);
        var s1 := Find(s, c).0;
        forall a | a in s1.advs ensures a in s1.removing || exists d :: d in s1.apps && s1.apps[d] == Some(a) {
          if a == s.made {
            assert c in s1.apps && s1.apps[c] == Some(a);
          } else if a !in s.removing {
            var d :| d in s.apps && s.apps[d] == Some(a);
            assert d in s1.apps && s1.apps[d] == Some(a);
          }
        }
      }
    }
  }

  /** The instance of a client goes to those that await removal. */
  lemma RetireSound(s: Advertising, c: Client, a: AdvId)
    requires Sound(s) && c in s.apps && s.apps[c] == Some(a)
    ensures Sound(s.(removing := s.removing + {a}, apps := s.apps[c := None]))
  {
    var s1 := s.(removing := s.removing + {a}, apps := s.apps[c := None]);
    forall b | b in s1.advs ensures b in s1.removing || exists d :: d in s1.apps && s1.apps[d] == Some(b) {
      if b !in s1.removing {
        var d :| d in s.apps && s.apps[d] == Some(b);
        assert d in s1.apps && s1.apps[d] == Some(b);
      }
    }
  }

  lemma DisableSound(s: Advertising, c: Client, taken: bool)
    requires Sound(s)
    ensures Sound(Disable(s, c, taken))
  {
    hide Find, Sound;
    FindSound(s, c);
    var (s1, a) := Find(s, c);
    if a.Some? && taken { RetireSound(s1, c, a.value); }
  }

  lemma RemovedSound(s: Advertising, a: AdvId)
    requires Sound(s) && a in s.removing
    ensures Sound(Removed(s, a))
  {
    hide Set, Clear, Bit, Agreed, IndexOf, Number;
    FreeAgreed(s.bits, s.advs, a);
  }

  lemma DestroySound(s: Advertising, c: Client)
    requires Sound(s) && c in s.apps
    ensures Sound(Destroy(s, c))
  {
    hide Set, Clear, Bit, Agreed, IndexOf, Number;
    if s.apps[c].Some? { FreeAgreed(s.bits, s.advs, s.apps[c].value); }
    var s1 := Destroy(s, c);
    forall b | b in s1.advs ensures b in s1.removing || exists d :: d in s1.apps && s1.apps[d] == Some(b) {
      if b !in s.removing {
        var d :| d in s.apps && s.apps[d] == Some(b);
        assert d in s1.apps && s1.apps[d] == Some(b);
      }
    }
  }

  lemma StepSound(s: Advertising, ev: Event)
    requires Sound(s)
    ensures Sound(Step(s, ev))
  {
    hide Find, Disable, Removed, Destroy;
    match ev
    case Register(c) => RegisterSound(s, c);
    case Setup(c) => FindSound(s, c);
    case DisableIt(c, taken) => DisableSound(s, c, taken);
    case RemovalDone(a) => if a in s.removing { RemovedSound(s, a); }
    case Unregister(c) => if c in s.apps { DestroySound(s, c); }
  }

  lemma RegisterSound(s: Advertising, c: Client)
    requires Sound(s)
    ensures c !in s.apps ==> Sound(s.(apps := s.apps[c := None]))
  {
    if c !in s.apps {
      var s1 := s.(apps := s.apps[c := None]);
      forall b | b in s1.advs ensures b in s1.removing || exists d :: d in s1.apps && s1.apps[d] == Some(b) {
        if b !in s.removing {
          var d :| d in s.apps && s.apps[d] == Some(b);
          assert d in s1.apps && s1.apps[d] == Some(b);
        }
      }
    }
  }

  // -------------------------------------------------------------- properties

  /** After any run: an instance is attached to exactly one client, or awaits
      the confirmation of its removal, not both; the numbers are from 1 to 32
      and differ; and bit `i` is set if and only if number `i + 1` is in use. */
  lemma BitmapAgrees(evs: seq<Event>, a: AdvId, b: AdvId, i: Index)
    ensures var s := Run(evs);
            && (a in s.advs ==> 1 <= s.advs[a] <= 32)
            && (a in s.advs <==> a in s.removing || exists c :: c in s.apps && s.apps[c] == Some(a))
            && (a in s.removing ==> forall c :: c in s.apps ==> s.apps[c] != Some(a))
            && (forall c, d :: c in s.apps && d in s.apps && s.apps[c] == s.apps[d] == Some(a) ==> c == d)
            && (a in s.advs && b in s.advs && s.advs[a] == s.advs[b] ==> a == b)
            && (Bit(s.bits, i) <==> Live(s.advs, Number(i)))
  {
    var s := Run(evs);
    assert Sound(s);
  }

  /** A client without instance gets the lowest number not in use; it gets none
      if and only if all 32 are. */
  lemma LowestFree(evs: seq<Event>, c: Client)
    requires var s := Run(evs); c in s.apps && s.apps[c].None?
    ensures var s := Run(evs);
            var (s1, a) := Find(s, c);
            && (a.None? <==> forall n: bv8 :: 1 <= n <= 32 ==> Live(s.advs, n))
            && (a.Some? ==>
                  && a.value !in s.advs && a.value in s1.advs
                  && s1.advs - {a.value} == s.advs
                  && !Live(s.advs, s1.advs[a.value])
                  && forall n: bv8 :: 1 <= n < s1.advs[a.value] ==> Live(s.advs, n))
  {
    hide Set, Clear, Bit, Run;
    var s := Run(evs);
    var i := Lowest(s.bits, 0);
    forall n: bv8 | 1 <= n <= 32 ensures Bit(s.bits, IndexOf(n)) <==> Live(s.advs, n) { }
    if i.Some? {
      assert !Live(s.advs, Number(i.value));
      forall n: bv8 | 1 <= n < Number(i.value) ensures Live(s.advs, n) { assert Bit(s.bits, IndexOf(n)); }
    }
  }

  /** Every number can be used again: once the kernel has confirmed the removal,
      its bit is clear and the number is free; no other bit changes. */
  lemma NumberReturns(evs: seq<Event>, a: AdvId)
    requires a in Run(evs).removing
    ensures var s := Run(evs);
            var s1 := Step(s, RemovalDone(a));
            && !Live(s1.advs, s.advs[a]) && !Bit(s1.bits, IndexOf(s.advs[a]))
            && forall i: Index :: i != IndexOf(s.advs[a]) ==> (Bit(s1.bits, i) <==> Bit(s.bits, i))
  {
    hide Set, Clear, Bit, Run;
    var s := Run(evs);
    var k := IndexOf(s.advs[a]);
    FreeLive(s.advs, a, k, k);
    forall i: Index ensures Bit(Clear(s.bits, k), i) <==> i != k && Bit(s.bits, i) { ClearBit(s.bits, k, i); }
  }

  // ------------------------------------------------- what each event comes to

  /** Registering a client that is known changes nothing; a new one has no
      instance. */
  lemma RegisterCases(s: Advertising, c: Client)
    requires Sound(s)
    ensures Step(s, Register(c)) == if c in s.apps then s else s.(apps := s.apps[c := None])
  {
  }

  /** Setting up an instance changes nothing for a client that has one, for one
      that is not known, and when no number is free; otherwise the client gets a
      new object, and nothing else changes but the word of bits. */
  lemma SetupCases(evs: seq<Event>, c: Client)
    ensures var s := Run(evs);
            var s1 := Step(s, Setup(c));
            && (c !in s.apps || s.apps[c].Some? ==> s1 == s)
            && (c in s.apps && s.apps[c].None? && (forall n: bv8 :: 1 <= n <= 32 ==> Live(s.advs, n)) ==> s1 == s)
            && (c in s.apps && s.apps[c].None? && !(forall n: bv8 :: 1 <= n <= 32 ==> Live(s.advs, n)) ==>
                  && s1.apps == s.apps[c := Some(s.made)] && s1.made == s.made + 1 && s1.removing == s.removing
                  && s1.advs.Keys == s.advs.Keys + {s.made}
                  && (forall a :: a in s.advs ==> s1.advs[a] == s.advs[a]))
  {
    hide Run, Lowest;
    if c in Run(evs).apps && Run(evs).apps[c].None? { LowestFree(evs, c); }
  }

  /** Disabling the instance of a client sets one up first, if there is none; if
      the kernel can be asked, the instance awaits its removal and is the
      client's no longer, but its number stays taken; if not, it stays. */
  lemma DisableCases(s: Advertising, c: Client, taken: bool)
    requires Sound(s)
    ensures var b := Step(s, Setup(c));
            Step(s, DisableIt(c, taken))
            == if taken && c in b.apps && b.apps[c].Some?
               then b.(removing := b.removing + {b.apps[c].value}, apps := b.apps[c := None]) else b
  {
    hide Lowest;
  }

  /** A removal that is not awaited changes nothing; one that is frees the
      instance, and no client changes. The bits follow by `BitmapAgrees`. */
  lemma RemovalCases(s: Advertising, a: AdvId)
    requires Sound(s)
    ensures var s1 := Step(s, RemovalDone(a));
            && (a !in s.removing ==> s1 == s)
            && (a in s.removing ==>
                  && a in s.advs && s1.advs == s.advs - {a} && s1.removing == s.removing - {a}
                  && s1.apps == s.apps && s1.made == s.made)
  {
    hide Clear, IndexOf;
  }

  /** A client that is destroyed goes, with its instance and the number of that,
      and with nothing else. */
  lemma UnregisterCases(s: Advertising, c: Client)
    requires Sound(s)
    ensures var s1 := Step(s, Unregister(c));
            && (c !in s.apps ==> s1 == s)
            && (c in s.apps ==>
                  s1.apps == s.apps - {c} && s1.removing == s.removing && s1.made == s.made)
            && (c in s.apps && s.apps[c].None? ==> s1.advs == s.advs && s1.bits == s.bits)
            && (c in s.apps && s.apps[c].Some? ==>
                  var a := s.apps[c].value;
                  a in s.advs && s1.advs == s.advs - {a})
  {
    hide Clear, IndexOf;
  }
}
