/** The remote devices the Bluetooth service knows: bonded ones, and a cache of
    others, the latest seen first. */
module DeviceDatabase {
  import opened Common

  type DevId = nat
  type Addr = nat

  const ANY: Addr := 0
  const CACHE_MAX: nat := 300

  /** The bond states of the HAL. */
  datatype Bond = Unbonded | Bonding | Bonded

  /** `struct device`, as far as the lists and the bond state depend on it. */
  datatype Device = Device(bdaddr: Addr, rpa: Addr, pairing: bool, bredrPaired: bool, bredrBonded: bool,
                           lePaired: bool, leBonded: bool)

  datatype Report = Report(d: DevId, bond: Bond)

  /** `objs` are the devices in existence; `made` counts them, `trace` is what
      was reported to the framework. */
  datatype Database = Database(objs: map<DevId, Device>, bonded: seq<DevId>, cached: seq<DevId>, made: nat,
                               trace: seq<Report>)

  const EMPTY: Database := Database(map[], [], [], 0, [])

  // -------------------------------------------------------------- operations

  /** `device_match`: by either address. */
  predicate Matches(dev: Device, addr: Addr) { dev.rpa == addr || dev.bdaddr == addr }

  function FindIn(list: seq<DevId>, objs: map<DevId, Device>, addr: Addr): (f: Option<DevId>)
    requires forall d :: d in list ==> d in objs
    ensures f.Some? ==> f.value in list && Matches(objs[f.value], addr)
    ensures f.None? ==> forall d :: d in list ==> !Matches(objs[d], addr)
  {
    if list == [] then None
    else if Matches(objs[list[0]], addr) then Some(list[0])
    else FindIn(list[1..], objs, addr)
  }

  ghost predicate Listed(db: Database) { forall d :: d in db.bonded || d in db.cached ==> d in db.objs }

  ghost function Find(db: Database, addr: Addr): (f: Option<DevId>)
    requires Listed(db)
    ensures f.Some? ==> f.value in db.objs
  {
    var f := FindIn(db.bonded, db.objs, addr);
    if f.Some? then f else FindIn(db.cached, db.objs, addr)
  }

  /** `cache_device`. */
  function Cache(db: Database, d: DevId): Database {
    if d in db.cached then db.(cached := [d] + RemoveFirst(db.cached, d))
    else if |db.cached| < CACHE_MAX then db.(cached := [d] + db.cached)
    else
      var last := db.cached[|db.cached| - 1];
      db.(cached := [d] + RemoveFirst(db.cached, last), objs := db.objs - {last})
  }

  /** `get_device`. */
  ghost function Get(db: Database, addr: Addr): (Database, DevId)
    requires Listed(db)
  {
    var f := Find(db, addr);
    if f.Some? then (db, f.value)
    else
      var dev := Device(addr, ANY, false, false, false, false, false);
      (Cache(db.(objs := db.objs[db.made := dev], made := db.made + 1), db.made), db.made)
  }

  /** The part of `update_found_device` about the lists. */
  ghost function Found(db: Database, addr: Addr): Database
    requires Listed(db)
  {
    var (db1, d) := Get(db, addr);
    if d in db1.objs && Paired(db1.objs[d]) then db1 else Cache(db1, d)
  }

  predicate Paired(dev: Device) { dev.bredrPaired || dev.lePaired }

  /** Paired over the transport in question, and over the other one. */
  predicate PairedOver(dev: Device, le: bool) { if le then dev.lePaired else dev.bredrPaired }

  predicate BondedOver(dev: Device, le: bool) { if le then dev.leBonded else dev.bredrBonded }

  function PairOver(dev: Device, le: bool, paired: bool, bonded: bool): Device {
    if le then dev.(lePaired := paired, leBonded := paired && (dev.leBonded || bonded))
    else dev.(bredrPaired := paired, bredrBonded := paired && (dev.bredrBonded || bonded))
  }

  /** The list a device belongs to, once it is paired or not. */
  function Move(db: Database, d: DevId, le: bool, paired: bool): Database
    requires d in db.objs
  {
    var dev := db.objs[d];
    if paired && !PairedOver(dev, !le) && !PairedOver(dev, le) then
      db.(cached := RemoveFirst(db.cached, d), bonded := [d] + db.bonded)
    else if !paired && !PairedOver(dev, !le) then Cache(db.(bonded := RemoveFirst(db.bonded, d)), d)
    else db
  }

  /** Pairing that only begins or fails does not unpair. */
  predicate Shielded(dev: Device, le: bool, pairing: bool, paired: bool) {
    PairedOver(dev, le) && (pairing || (!paired && dev.pairing))
  }

  /** `update_bredr_state` and `update_le_state`. */
  function SetState(db: Database, d: DevId, le: bool, pairing: bool, paired: bool, bonded: bool): Database
    requires d in db.objs
  {
    var dev := db.objs[d];
    if pairing == dev.pairing && paired == PairedOver(dev, le) && bonded == BondedOver(dev, le) then db
    else if Shielded(dev, le, pairing, paired) then db.(objs := db.objs[d := dev.(pairing := pairing)])
    else
      var db1 := Move(db, d, le, paired);
      db1.(objs := db1.objs[d := PairOver(dev, le, paired, bonded).(pairing := pairing)])
  }

  /** `device_bond_state`. */
  function BondState(dev: Device): Bond {
    if dev.pairing then Bonding else if Paired(dev) then Bonded else Unbonded
  }

  /** `update_bond_state`: BONDING goes between BONDED and NONE. */
  function Reports(d: DevId, was: Bond, now: Bond): seq<Report> {
    if was == now then []
    else if (was.Unbonded? && now.Bonded?) || (was.Bonded? && now.Unbonded?) then [Report(d, Bonding), Report(d, now)]
    else [Report(d, now)]
  }

  /** `update_device_state`. */
  function Update(db: Database, d: DevId, le: bool, pairing: bool, paired: bool, bonded: bool): Database
    requires d in db.objs
  {
    var db1 := SetState(db, d, le, pairing, paired, bonded);
    if d in db1.objs
    then db1.(trace := db1.trace + Reports(d, BondState(db.objs[d]), BondState(db1.objs[d])))
    else db1
  }

  // ------------------------------------------------------ the lists in place

  class Devices {
    var objs: map<DevId, Device>
    var bonded: seq<DevId>
    var cached: seq<DevId>
    var made: nat
    ghost var trace: seq<Report>

    ghost function State(): Database reads this { Database(objs, bonded, cached, made, trace) }

    constructor ()
      ensures State() == EMPTY
    {
      objs, bonded, cached, made, trace := map[], [], [], 0, [];
    }

    /** `g_slist_find_custom` with `device_match`. */
    method FindCustom(list: seq<DevId>, addr: Addr) returns (f: Option<DevId>)
      requires forall d :: d in list ==> d in objs
      ensures f == FindIn(list, objs, addr)
    {
      var i := 0;
      while i < |list|
        invariant 0 <= i <= |list| && FindIn(list, objs, addr) == FindIn(list[i..], objs, addr)
      {
        assert list[i..][0] == list[i] && list[i..][1..] == list[i + 1..];
        if objs[list[i]].rpa == addr { return Some(list[i]); }
        if objs[list[i]].bdaddr == addr { return Some(list[i]); }
        i := i + 1;
      }
      assert list[i..] == [];
      f := None;
    }

    /** `find_device`. */
    method FindDevice(addr: Addr) returns (f: Option<DevId>)
      requires Listed(State())
      ensures f == Find(State(), addr)
    {
      f := FindCustom(bonded, addr);
      if f.None? { f := FindCustom(cached, addr); }
    }

    /** `cache_device`. */
    method CacheDevice(d: DevId)
      modifies this`cached, this`objs
      ensures State() == Cache(old(State()), d)
    {
      if d in cached {
        cached := RemoveFirst(cached, d);
      } else if |cached| >= CACHE_MAX {
        var last := cached[|cached| - 1];
        cached := RemoveFirst(cached, last);
        objs := objs - {last};
      }
      cached := [d] + cached;
    }

    /** `get_device`. */
    method GetDevice(addr: Addr) returns (d: DevId)
      requires Listed(State())
      modifies this
      ensures (State(), d) == Get(old(State()), addr)
    {
      var f := FindDevice(addr);
      if f.Some? { return f.value; }
      d := made;
      objs, made := objs[d := Device(addr, ANY, false, false, false, false, false)], made + 1;
      CacheDevice(d);
    }

    /** `update_found_device`. */
    method UpdateFound(addr: Addr)
      requires Listed(State())
      modifies this
      ensures State() == Found(old(State()), addr)
    {
      var d := GetDevice(addr);
      if d in objs && (objs[d].bredrPaired || objs[d].lePaired) { return; }
      CacheDevice(d);
    }

    /** `update_bredr_state`. */
    method UpdateBredrState(d: DevId, pairing: bool, paired: bool, bond: bool)
      requires d in objs
      modifies this`objs, this`bonded, this`cached
      ensures State() == SetState(old(State()), d, false, pairing, paired, bond)
    {
      var dev := objs[d];
      if pairing == dev.pairing && paired == dev.bredrPaired && bond == dev.bredrBonded { return; }
      if pairing && dev.bredrPaired {
        objs := objs[d := dev.(pairing := pairing)];
        return;
      }
      if !pairing && !paired && dev.pairing && dev.bredrPaired {
        objs := objs[d := dev.(pairing := pairing)];
        return;
      }
      if paired && !dev.lePaired && !dev.bredrPaired {
        cached := RemoveFirst(cached, d);
        bonded := [d] + bonded;
      } else if !paired && !dev.lePaired {
        bonded := RemoveFirst(bonded, d);
        CacheDevice(d);
      }
      objs := objs[d := dev.(bredrPaired := paired, bredrBonded := if paired then dev.bredrBonded || bond else false,
                             pairing := pairing)];
    }

    /** `update_le_state`. */
    method UpdateLeState(d: DevId, pairing: bool, paired: bool, bond: bool)
      requires d in objs
      modifies this`objs, this`bonded, this`cached
      ensures State() == SetState(old(State()), d, true, pairing, paired, bond)
    {
      var dev := objs[d];
      if pairing == dev.pairing && paired == dev.lePaired && bond == dev.leBonded { return; }
      if pairing && dev.lePaired {
        objs := objs[d := dev.(pairing := pairing)];
        return;
      }
      if !pairing && !paired && dev.pairing && dev.lePaired {
        objs := objs[d := dev.(pairing := pairing)];
        return;
      }
      if paired && !dev.bredrPaired && !dev.lePaired {
        cached := RemoveFirst(cached, d);
        bonded := [d] + bonded;
      } else if !paired && !dev.bredrPaired {
        bonded := RemoveFirst(bonded, d);
        CacheDevice(d);
      }
      objs := objs[d := dev.(lePaired := paired, leBonded := if paired then dev.leBonded || bond else false,
                             pairing := pairing)];
    }

    /** `update_device_state`, with `update_bond_state`. */
    method UpdateDeviceState(d: DevId, le: bool, pairing: bool, paired: bool, bond: bool)
      requires d in objs
      modifies this
      ensures State() == Update(old(State()), d, le, pairing, paired, bond)
    {
      var was := BondState(objs[d]);
      if le { UpdateLeState(d, pairing, paired, bond); } else { UpdateBredrState(d, pairing, paired, bond); }
      SetStateKeeps(old(State()), d, le, pairing, paired, bond);
      var now := BondState(objs[d]);
      if was == now {
        assert trace + [] == trace;
        return;
      }
      if (was.Unbonded? && now.Bonded?) || (was.Bonded? && now.Unbonded?) { trace := trace + [Report(d, Bonding)]; }
      trace := trace + [Report(d, now)];
    }
  }

  lemma SetStateKeeps(db: Database, d: DevId, le: bool, pairing: bool, paired: bool, bonded: bool)
    requires d in db.objs
    ensures var db1 := SetState(db, d, le, pairing, paired, bonded);
            d in db1.objs && db1.made == db.made && db1.trace == db.trace
  {
  }

  // --------------------------------------------------------------- all runs

  /** What happens to the database. Whoever changes the state of a device found
      it or got it first; a new identity key may rewrite its addresses. */
  datatype Event =
    | Seen(addr: Addr)
    | Wanted(addr: Addr)
    | Changed(d: DevId, le: bool, pairing: bool, paired: bool, bonded: bool)
    | Readdressed(d: DevId, bdaddr: Addr, rpa: Addr)

  ghost function Step(db: Database, ev: Event): Database
    requires Listed(db)
  {
    match ev
    case Seen(addr) => Found(db, addr)
    case Wanted(addr) => Get(db, addr).0
    case Changed(d, le, pairing, paired, bonded) =>
      if d in db.objs then Update(db, d, le, pairing, paired, bonded) else db
    case Readdressed(d, bdaddr, rpa) =>
      if d in db.objs then db.(objs := db.objs[d := db.objs[d].(bdaddr := bdaddr, rpa := rpa)]) else db
  }

  /** A run from any database the service may have loaded. */
  ghost function Run(db: Database, evs: seq<Event>): (r: Database)
    requires Sound(db)
    ensures Sound(r) && r.made >= db.made
  {
    if evs == [] then db
    else
      var r := Run(db, evs[..|evs| - 1]);
      StepSound(r, evs[|evs| - 1]);
      Step(r, evs[|evs| - 1])
  }

  // ------------------------------------------------ the lists, an invariant

  /** Every device is in exactly one of the lists, exactly once. */
  ghost predicate Separate(db: Database) {
    && NoDup(db.bonded) && NoDup(db.cached)
    && (forall d :: d in db.bonded ==> d !in db.cached)
    && (forall d :: d in db.objs <==> d in db.bonded || d in db.cached)
    && (forall d :: d in db.objs ==> d < db.made)
  }

  /** And it is among the bonded ones exactly when it is paired. */
  ghost predicate Sound(db: Database) {
    Separate(db) && forall d :: d in db.objs ==> (d in db.bonded <==> Paired(db.objs[d]))
  }

  lemma {:induction false} RemoveLast(list: seq<DevId>)
    requires list != [] && NoDup(list)
    ensures RemoveFirst(list, list[|list| - 1]) == list[..|list| - 1]
  {
    if |list| > 1 {
      assert list[0] != list[|list| - 1];
      RemoveLast(list[1..]);
      assert list[..|list| - 1] == [list[0]] + list[1..][..|list| - 2];
    }
  }

  /** How far a cache of that length can grow. */
  function Bound(length: nat): nat { if length >= CACHE_MAX then length else CACHE_MAX }

  /** The device to be cached is in no list, or in the cache. */
  lemma CacheKeeps(db: Database, d: DevId)
    requires NoDup(db.bonded) && NoDup(db.cached) && d in db.objs && d !in db.bonded
    requires forall x :: x in db.bonded ==> x !in db.cached
    requires forall x :: x in db.objs <==> x in db.bonded || x in db.cached || x == d
    requires forall x :: x in db.objs ==> x < db.made
    ensures var db1 := Cache(db, d);
            && Separate(db1) && d in db1.cached && db1.bonded == db.bonded
            && db1.made == db.made && db1.trace == db.trace
            && (forall x :: x in db1.objs ==> x in db.objs && db1.objs[x] == db.objs[x])
            && (forall x :: x in db1.cached ==> x in db.cached || x == d)
            && |db1.cached| <= Bound(|db.cached|)
  {
    if d in db.cached {
      RemoveFirstNoDup(db.cached, d);
    } else if |db.cached| >= CACHE_MAX {
      RemoveFirstNoDup(db.cached, db.cached[|db.cached| - 1]);
    }
  }

  lemma FindSound(db: Database, addr: Addr)
    requires Sound(db)
    ensures Listed(db)
  {
  }

  lemma GetSound(db: Database, addr: Addr)
    requires Sound(db)
    ensures Listed(db)
    ensures var (db1, d) := Get(db, addr);
            && Sound(db1) && d in db1.objs && db1.made >= db.made && db1.trace == db.trace
            && |db1.cached| <= Bound(|db.cached|)
            && (forall x :: x in db1.objs && x < db.made ==> x in db.objs && db1.objs[x] == db.objs[x])
            && (forall x :: x in db1.objs && x >= db.made ==> BondState(db1.objs[x]) == Unbonded)
  {
    if Find(db, addr).None? {
      var dev := Device(addr, ANY, false, false, false, false, false);
      CacheKeeps(db.(objs := db.objs[db.made := dev], made := db.made + 1), db.made);
    }
  }

  lemma FoundSound(db: Database, addr: Addr)
    requires Sound(db)
    ensures Listed(db)
    ensures var db1 := Found(db, addr);
            && Sound(db1) && db1.made >= db.made && db1.trace == db.trace
            && |db1.cached| <= Bound(|db.cached|)
            && (forall x :: x in db1.objs && x < db.made ==> x in db.objs && db1.objs[x] == db.objs[x])
            && (forall x :: x in db1.objs && x >= db.made ==> BondState(db1.objs[x]) == Unbonded)
  {
    hide Get;
    GetSound(db, addr);
    var (db1, d) := Get(db, addr);
    if !Paired(db1.objs[d]) { CacheKeeps(db1, d); }
  }

  /** A device becomes paired. */
  lemma BondSound(db: Database, d: DevId, dev: Device)
    requires Sound(db) && d in db.objs && !Paired(db.objs[d]) && Paired(dev)
    ensures Sound(db.(cached := RemoveFirst(db.cached, d), bonded := [d] + db.bonded, objs := db.objs[d := dev]))
    ensures |RemoveFirst(db.cached, d)| <= |db.cached|
  {
    RemoveFirstNoDup(db.cached, d);
  }

  /** A device is paired no longer, or still not. */
  lemma UnbondSound(db: Database, d: DevId, dev: Device)
    requires Sound(db) && d in db.objs && !Paired(dev)
    ensures var m := Cache(db.(bonded := RemoveFirst(db.bonded, d)), d);
            var db1 := m.(objs := m.objs[d := dev]);
            && Sound(db1) && db1.made == db.made && |db1.cached| <= Bound(|db.cached|)
            && (forall x :: x in db1.objs && x != d ==> x in db.objs && db1.objs[x] == db.objs[x])
  {
    hide Cache, Bound;
    LeavesBonded(db, d);
    CacheKeeps(db.(bonded := RemoveFirst(db.bonded, d)), d);
    hide Separate;
    Rewritten(db, Cache(db.(bonded := RemoveFirst(db.bonded, d)), d), d, dev);
  }

  lemma LeavesBonded(db: Database, d: DevId)
    requires Sound(db) && d in db.objs
    ensures var rest := RemoveFirst(db.bonded, d);
            && NoDup(rest) && NoDup(db.cached) && (forall x :: x in rest <==> x in db.bonded && x != d)
            && (forall x :: x in rest ==> x !in db.cached)
            && (forall x :: x in db.objs <==> x in rest || x in db.cached || x == d)
            && (forall x :: x in db.objs ==> x < db.made)
  {
    RemoveFirstNoDup(db.bonded, d);
  }

  lemma Rewritten(db: Database, m: Database, d: DevId, dev: Device)
    requires Sound(db) && Separate(m) && d in m.cached && !Paired(dev)
    requires forall x :: x in m.bonded ==> x in db.bonded && x != d
    requires forall x :: x in db.bonded && x != d ==> x in m.bonded
    requires forall x :: x in m.objs ==> x in db.objs && m.objs[x] == db.objs[x]
    ensures Sound(m.(objs := m.objs[d := dev]))
  {
    assert d in m.objs;
  }

  lemma MoveSound(db: Database, d: DevId, le: bool, paired: bool, dev1: Device)
    requires Sound(db) && d in db.objs
    requires PairedOver(dev1, le) == paired && PairedOver(dev1, !le) == PairedOver(db.objs[d], !le)
    ensures var m := Move(db, d, le, paired);
            var db1 := m.(objs := m.objs[d := dev1]);
            && Sound(db1) && db1.made == db.made && |db1.cached| <= Bound(|db.cached|)
            && (forall x :: x in db1.objs && x != d ==> x in db.objs && db1.objs[x] == db.objs[x])
  {
    hide Cache;
    var dev := db.objs[d];
    if paired && !PairedOver(dev, !le) && !PairedOver(dev, le) {
      BondSound(db, d, dev1);
    } else if !paired && !PairedOver(dev, !le) {
      UnbondSound(db, d, dev1);
    }
  }

  lemma UpdateSound(db: Database, d: DevId, le: bool, pairing: bool, paired: bool, bonded: bool)
    requires Sound(db) && d in db.objs
    ensures var db1 := Update(db, d, le, pairing, paired, bonded);
            && Sound(db1) && db1.made == db.made && d in db1.objs
            && |db1.cached| <= Bound(|db.cached|)
            && (forall x :: x in db1.objs && x != d ==> x in db.objs && db1.objs[x] == db.objs[x])
            && db1.trace == db.trace + Reports(d, BondState(db.objs[d]), BondState(db1.objs[d]))
  {
    hide Cache, Move, Reports;
    var dev := db.objs[d];
    SetStateKeeps(db, d, le, pairing, paired, bonded);
    MoveSound(db, d, le, paired, PairOver(dev, le, paired, bonded).(pairing := pairing));
  }

  lemma StepSound(db: Database, ev: Event)
    requires Sound(db)
    ensures Listed(db) && Sound(Step(db, ev)) && Step(db, ev).made >= db.made
    ensures |Step(db, ev).cached| <= Bound(|db.cached|)
  {
    hide Found, Get, Update;
    match ev
    case Seen(addr) => FoundSound(db, addr);
    case Wanted(addr) => GetSound(db, addr);
    case Changed(d, le, pairing, paired, bonded) =>
      if d in db.objs { UpdateSound(db, d, le, pairing, paired, bonded); }
    case Readdressed(d, bdaddr, rpa) =>
  }

  // ------------------------------------------------ what each event comes to

  /** What is kept of a list at the front of which a device is put. */
  function Behind(list: seq<DevId>, d: DevId): seq<DevId> {
    if d in list then RemoveFirst(list, d) else if |list| >= 300 then list[..|list| - 1] else list
  }

  /** A device is put at the front of the cache: from where it was, or in place
      of the last one of 300. */
  lemma CacheIs(db: Database, d: DevId)
    requires NoDup(db.cached)
    ensures var db1 := Cache(db, d);
            && db1.cached == [d] + Behind(db.cached, d)
            && db1.bonded == db.bonded && db1.made == db.made && db1.trace == db.trace
            && (forall x :: x in db1.objs ==> x in db.objs && db1.objs[x] == db.objs[x])
            && (forall x :: x in db.objs ==>
                  x in db1.objs || (d !in db.cached && |db.cached| >= 300 && x == db.cached[|db.cached| - 1]))
  {
    if d !in db.cached && |db.cached| >= 300 { RemoveLast(db.cached); }
  }

  /** A change of state takes effect: the device is pairing or not as told; and
      over the transport in question it is paired as told, and bonded if it is
      paired and was or now is bonded. Two cases are excepted: nothing is new;
      or the device was paired over it, and pairing begins, or has failed. Then
      it stays paired and bonded as it was. The rest of the device, and all
      others, stay as they were. */
  lemma ChangedFlags(db: Database, d: DevId, le: bool, pairing: bool, paired: bool, bonded: bool)
    requires Sound(db) && d in db.objs
    ensures Listed(db)
    ensures var r, was := Step(db, Changed(d, le, pairing, paired, bonded)), db.objs[d];
            var wasPaired := if le then was.lePaired else was.bredrPaired;
            var wasBonded := if le then was.leBonded else was.bredrBonded;
            var same := pairing == was.pairing && paired == wasPaired && bonded == wasBonded;
            var kept := wasPaired && (pairing || (!paired && was.pairing));
            && (forall x :: x in r.objs && x != d ==> x in db.objs && r.objs[x] == db.objs[x])
            && d in r.objs
            && var now := r.objs[d];
               var nowPaired := if le then now.lePaired else now.bredrPaired;
               var nowBonded := if le then now.leBonded else now.bredrBonded;
               && now.pairing == pairing && now.bdaddr == was.bdaddr && now.rpa == was.rpa
               && (if le then now.bredrPaired == was.bredrPaired && now.bredrBonded == was.bredrBonded
                   else now.lePaired == was.lePaired && now.leBonded == was.leBonded)
               && (same || kept ==> nowPaired == wasPaired && nowBonded == wasBonded)
               && (!same && !kept ==> nowPaired == paired && nowBonded == (paired && (wasBonded || bonded)))
  {
    hide Cache;
    UpdateSound(db, d, le, pairing, paired, bonded);
  }

  /** With it go the lists: a device paired over no transport before and over
      this one now is the first of the bonded ones; one now paired over neither
      is at the front of the cache; otherwise the lists stay. */
  lemma ChangedLists(db: Database, d: DevId, le: bool, pairing: bool, paired: bool, bonded: bool)
    requires Sound(db) && d in db.objs
    ensures Listed(db)
    ensures var r, was := Step(db, Changed(d, le, pairing, paired, bonded)), db.objs[d];
            var wasPaired := if le then was.lePaired else was.bredrPaired;
            var wasBonded := if le then was.leBonded else was.bredrBonded;
            var other := if le then was.bredrPaired else was.lePaired;
            var same := pairing == was.pairing && paired == wasPaired && bonded == wasBonded;
            var kept := wasPaired && (pairing || (!paired && was.pairing));
            if !same && !kept && paired && !wasPaired && !other then
              r.bonded == [d] + db.bonded && r.cached == RemoveFirst(db.cached, d)
            else if !same && !kept && !paired && !other then
              r.bonded == RemoveFirst(db.bonded, d) && r.cached == [d] + Behind(db.cached, d)
            else r.bonded == db.bonded && r.cached == db.cached
  {
    hide Cache, Behind, Reports;
    CacheIs(db.(bonded := RemoveFirst(db.bonded, d)), d);
  }

  /** And what is told of it: nothing if the bond state is what it was, the new
      one otherwise, with BONDING before it on the way between NONE and BONDED. */
  lemma ChangedReports(db: Database, d: DevId, le: bool, pairing: bool, paired: bool, bonded: bool)
    requires Sound(db) && d in db.objs
    ensures Listed(db)
    ensures var r := Step(db, Changed(d, le, pairing, paired, bonded));
            && d in r.objs
            && var was, now := db.objs[d], r.objs[d];
               var before := if was.pairing then Bonding else if was.bredrPaired || was.lePaired then Bonded else Unbonded;
               var after := if now.pairing then Bonding else if now.bredrPaired || now.lePaired then Bonded else Unbonded;
               r.trace == db.trace
                          + (if before == after then []
                             else if before.Bonding? || after.Bonding? then [Report(d, after)]
                             else [Report(d, Bonding), Report(d, after)])
  {
    hide Cache;
    UpdateSound(db, d, le, pairing, paired, bonded);
  }

  /** So a device that is paired over one transport only, and not pairing, is
      no longer paired when the kernel says so: it goes to the front of the
      cache, and the framework is told BONDING and NONE. */
  lemma Unpaired(db: Database, d: DevId, le: bool)
    requires Sound(db) && d in db.objs && !db.objs[d].pairing
    requires db.objs[d].lePaired == le && db.objs[d].bredrPaired == !le
    ensures Listed(db)
    ensures var r := Step(db, Changed(d, le, false, false, false));
            && d in r.objs && !r.objs[d].lePaired && !r.objs[d].bredrPaired && !r.objs[d].pairing
            && d !in r.bonded && r.cached != [] && r.cached[0] == d
            && r.trace == db.trace + [Report(d, Bonding), Report(d, Unbonded)]
  {
    hide Step;
    ChangedFlags(db, d, le, false, false, false);
    ChangedLists(db, d, le, false, false, false);
    ChangedReports(db, d, le, false, false, false);
    RemoveFirstNoDup(db.bonded, d);
  }

  /** The first device of a list that has the address as one of its two. */
  ghost predicate FirstWith(list: seq<DevId>, objs: map<DevId, Device>, addr: Addr, d: DevId) {
    exists k :: 0 <= k < |list| && list[k] == d && d in objs && (objs[d].rpa == addr || objs[d].bdaddr == addr)
                && forall j :: 0 <= j < k ==> list[j] in objs && objs[list[j]].rpa != addr && objs[list[j]].bdaddr != addr
  }

  ghost predicate NoneWith(list: seq<DevId>, objs: map<DevId, Device>, addr: Addr) {
    forall j :: 0 <= j < |list| ==> list[j] in objs && objs[list[j]].rpa != addr && objs[list[j]].bdaddr != addr
  }

  lemma {:induction false} FindInIs(list: seq<DevId>, objs: map<DevId, Device>, addr: Addr)
    requires forall d :: d in list ==> d in objs
    ensures var f := FindIn(list, objs, addr);
            if f.Some? then FirstWith(list, objs, addr, f.value) else NoneWith(list, objs, addr)
  {
    if list != [] && !Matches(objs[list[0]], addr) {
      FindInIs(list[1..], objs, addr);
      var f := FindIn(list[1..], objs, addr);
      if f.Some? {
        var k :| 0 <= k < |list[1..]| && list[1..][k] == f.value
                 && forall j :: 0 <= j < k ==> list[1..][j] in objs && objs[list[1..][j]].rpa != addr
                                               && objs[list[1..][j]].bdaddr != addr;
        assert list[k + 1] == f.value;
        assert forall j :: 0 <= j < k + 1 ==> j == 0 || list[j] == list[1..][j - 1];
      }
    } else if list != [] {
      assert list[0] == FindIn(list, objs, addr).value;
    }
  }

  /** A device asked for by address is the first bonded one that has it, else the
      first cached one, and nothing changes; else it is a new one, neither
      pairing nor paired, at the front of the cache. */
  lemma GetCases(db: Database, addr: Addr)
    requires Sound(db)
    ensures Listed(db)
    ensures var (db1, d) := Get(db, addr);
            && Step(db, Wanted(addr)) == db1
            && if NoneWith(db.bonded, db.objs, addr) && NoneWith(db.cached, db.objs, addr) then
                 && d == db.made && db1.made == db.made + 1 && d in db1.objs
                 && db1.objs[d] == Device(addr, 0, false, false, false, false, false)
                 && db1.bonded == db.bonded && db1.cached == [d] + Behind(db.cached, d) && db1.trace == db.trace
               else
                 && db1 == db
                 && (FirstWith(db.bonded, db.objs, addr, d)
                     || (NoneWith(db.bonded, db.objs, addr) && FirstWith(db.cached, db.objs, addr, d)))
  {
    hide FindIn, FirstWith, NoneWith, Cache, Behind;
    FindInIs(db.bonded, db.objs, addr);
    FindInIs(db.cached, db.objs, addr);
    NotBoth(db.bonded, db.objs, addr);
    NotBoth(db.cached, db.objs, addr);
    var dev := Device(addr, ANY, false, false, false, false, false);
    CacheIs(db.(objs := db.objs[db.made := dev], made := db.made + 1), db.made);
  }

  lemma NotBoth(list: seq<DevId>, objs: map<DevId, Device>, addr: Addr)
    ensures forall d :: FirstWith(list, objs, addr, d) ==> !NoneWith(list, objs, addr)
  {
  }

  /** New addresses change nothing but the addresses. */
  lemma ReaddressedCases(db: Database, d: DevId, bdaddr: Addr, rpa: Addr)
    requires Sound(db)
    ensures Listed(db)
    ensures Step(db, Readdressed(d, bdaddr, rpa))
            == if d !in db.objs then db else db.(objs := db.objs[d := db.objs[d].(bdaddr := bdaddr, rpa := rpa)])
  {
  }

  /** A device that was seen is fetched so, and put at the front of the cache
      unless it is paired. */
  lemma SeenCases(db: Database, addr: Addr)
    requires Sound(db)
    ensures Listed(db)
    ensures var (db1, d) := Get(db, addr);
            var r := Step(db, Seen(addr));
            && d in db1.objs
            && if db1.objs[d].bredrPaired || db1.objs[d].lePaired then r == db1
               else r.bonded == db1.bonded && r.cached == [d] + Behind(db1.cached, d) && r.trace == db1.trace
  {
    hide Get, Cache, Behind;
    GetSound(db, addr);
    CacheIs(Get(db, addr).0, Get(db, addr).1);
  }

  ghost function CountOf(list: seq<DevId>, d: DevId): nat {
    if list == [] then 0 else (if list[0] == d then 1 else 0) + CountOf(list[1..], d)
  }

  lemma {:induction false} CountOnce(list: seq<DevId>, d: DevId)
    requires NoDup(list)
    ensures CountOf(list, d) == if d in list then 1 else 0
  {
    if list != [] {
      CountOnce(list[1..], d);
      assert list == [list[0]] + list[1..];
      if list[0] == d { assert d !in list[1..]; }
    }
  }

  /** After any run, every device in existence is in exactly one of the two
      lists, exactly once: the bonded one if and only if it is paired over one
      of the transports; no other device is in a list; and the cache never
      grows beyond 300, or beyond what it was. */
  lemma Partitioned(db: Database, evs: seq<Event>, d: DevId)
    requires Sound(db)
    ensures var r := Run(db, evs);
            && CountOf(r.bonded, d) == (if d in r.objs && Paired(r.objs[d]) then 1 else 0)
            && CountOf(r.cached, d) == (if d in r.objs && !Paired(r.objs[d]) then 1 else 0)
  {
    var r := Run(db, evs);
    CountOnce(r.bonded, d);
    CountOnce(r.cached, d);
  }

  lemma {:induction false} CacheBounded(db: Database, evs: seq<Event>)
    requires Sound(db)
    ensures |Run(db, evs).cached| <= Bound(|db.cached|)
    decreases |evs|
  {
    if evs != [] {
      CacheBounded(db, evs[..|evs| - 1]);
      StepSound(Run(db, evs[..|evs| - 1]), evs[|evs| - 1]);
    }
  }

  // -------------------------------------------------------------- bond trace

  /** What was reported of one device. */
  ghost function Of(trace: seq<Report>, d: DevId): seq<Bond> {
    if trace == [] then []
    else Of(trace[..|trace| - 1], d) + if trace[|trace| - 1].d == d then [trace[|trace| - 1].bond] else []
  }

  /** From one state on, every report differs from the one before, and NONE and
      BONDED do not follow each other. */
  ghost predicate Smooth(from: Bond, bonds: seq<Bond>) {
    forall i :: 0 <= i < |bonds| ==> Follows(Before(from, bonds, i), bonds[i])
  }

  predicate Follows(a: Bond, b: Bond) { a != b && (a.Bonding? || b.Bonding?) }

  function Before(from: Bond, bonds: seq<Bond>, i: nat): Bond
    requires i <= |bonds|
  {
    if i == 0 then from else bonds[i - 1]
  }

  lemma {:induction false} OfConcat(a: seq<Report>, b: seq<Report>, d: DevId)
    ensures Of(a + b, d) == Of(a, d) + Of(b, d)
    decreases |b|
  {
    if b == [] {
      assert a + b == a;
    } else {
      assert (a + b)[..|a + b| - 1] == a + b[..|b| - 1];
      OfConcat(a, b[..|b| - 1], d);
    }
  }

  lemma OfReports(x: DevId, was: Bond, now: Bond, d: DevId)
    ensures var bonds := Of(Reports(x, was, now), d);
            if x != d then bonds == [] else Smooth(was, bonds) && Before(was, bonds, |bonds|) == now
  {
    OfOne(Report(x, Bonding), d);
    OfOne(Report(x, now), d);
    OfConcat([Report(x, Bonding)], [Report(x, now)], d);
    assert [Report(x, Bonding)] + [Report(x, now)] == [Report(x, Bonding), Report(x, now)];
  }

  lemma OfOne(r: Report, d: DevId)
    ensures Of([r], d) == if r.d == d then [r.bond] else []
  {
    assert [r][..0] == [];
  }

  lemma SmoothConcat(from: Bond, a: seq<Bond>, b: seq<Bond>)
    requires Smooth(from, a) && Smooth(Before(from, a, |a|), b)
    ensures Smooth(from, a + b)
    ensures Before(from, a + b, |a + b|) == Before(Before(from, a, |a|), b, |b|)
  {
    forall i | 0 <= i < |a + b| ensures Follows(Before(from, a + b, i), (a + b)[i]) {
      if i < |a| {
        assert Follows(Before(from, a, i), a[i]);
      } else {
        assert Follows(Before(Before(from, a, |a|), b, i - |a|), b[i - |a|]);
      }
    }
  }

  /** The state of a device when the run begins, or when it comes into being. */
  ghost function FirstBond(db: Database, d: DevId): Bond {
    if d in db.objs then BondState(db.objs[d]) else Unbonded
  }

  /** The reports of a device that began in state `from`, against its state. */
  ghost predicate Traced(from: Bond, r: Database, d: DevId) {
    var bonds := Of(r.trace, d);
    && Smooth(from, bonds)
    && (d in r.objs ==> Before(from, bonds, |bonds|) == BondState(r.objs[d]))
    && (d >= r.made ==> bonds == [] && from.Unbonded?)
  }

  /** The bond states reported of a device never repeat, never step between
      NONE and BONDED directly, and the last one is the state of the device. */
  lemma {:induction false} BondTrace(db: Database, evs: seq<Event>, d: DevId)
    requires Sound(db) && db.trace == []
    ensures Traced(FirstBond(db, d), Run(db, evs), d)
    decreases |evs|
  {
    if evs != [] {
      hide Step, Traced;
      BondTrace(db, evs[..|evs| - 1], d);
      StepTraced(FirstBond(db, d), Run(db, evs[..|evs| - 1]), evs[|evs| - 1], d);
    }
  }

  lemma StepTraced(from: Bond, r: Database, ev: Event, d: DevId)
    requires Sound(r) && Listed(r) && Traced(from, r, d)
    ensures Traced(from, Step(r, ev), d)
  {
    hide Found, Get, Update, Smooth;
    match ev
    case Seen(addr) => FoundSound(r, addr);
    case Wanted(addr) => GetSound(r, addr);
    case Readdressed(x, bdaddr, rpa) =>
    case Changed(x, le, pairing, paired, bonded) =>
      if x in r.objs { ChangeTraced(r, x, le, pairing, paired, bonded, from, d); }
  }

  lemma ChangeTraced(r: Database, x: DevId, le: bool, pairing: bool, paired: bool, bonded: bool, from: Bond, d: DevId)
    requires Sound(r) && x in r.objs && Traced(from, r, d)
    ensures Traced(from, Update(r, x, le, pairing, paired, bonded), d)
  {
    hide Update, Smooth, Reports;
    UpdateSound(r, x, le, pairing, paired, bonded);
    var r1 := Update(r, x, le, pairing, paired, bonded);
    var reports := Reports(x, BondState(r.objs[x]), BondState(r1.objs[x]));
    OfConcat(r.trace, reports, d);
    OfReports(x, BondState(r.objs[x]), BondState(r1.objs[x]), d);
    if x == d {
      SmoothConcat(from, Of(r.trace, d), Of(reports, d));
    } else {
      assert Of(r.trace, d) + [] == Of(r.trace, d);
    }
  }

  // ---------------------------------------------------------------- the cache

  /** The addresses seen, latest first. */
  function Reversed(s: seq<Addr>): seq<Addr> { if s == [] then [] else [s[|s| - 1]] + Reversed(s[..|s| - 1]) }

  function Except(s: seq<Addr>, a: Addr): seq<Addr> {
    if s == [] then [] else if s[0] == a then Except(s[1..], a) else [s[0]] + Except(s[1..], a)
  }

  /** Each address once, where it comes first. */
  function Distinct(s: seq<Addr>): (r: seq<Addr>)
    decreases |s|
  {
    if s == [] then [] else [s[0]] + Except(Distinct(s[1..]), s[0])
  }

  function Prefix(s: seq<Addr>, n: nat): seq<Addr> { if |s| <= n then s else s[..n] }

  /** Whether an address belongs to a bonded device. */
  ghost predicate Known(db: Database, addr: Addr) {
    exists d :: d in db.bonded && d in db.objs && Matches(db.objs[d], addr)
  }

  /** The addresses seen that do not. The empty address stands for the missing
      second address of every cached device: it is new only while there is none. */
  ghost function Strangers(db: Database, addrs: seq<Addr>): seq<Addr> {
    if addrs == [] then []
    else
      var before, a := Strangers(db, addrs[..|addrs| - 1]), addrs[|addrs| - 1];
      if Known(db, a) || (a == ANY && before != []) then before else before + [a]
  }

  function Sightings(addrs: seq<Addr>): seq<Event> {
    if addrs == [] then [] else Sightings(addrs[..|addrs| - 1]) + [Seen(addrs[|addrs| - 1])]
  }

  /** A cache of devices that were only ever seen, with the addresses `addrs`. */
  ghost predicate Holds(db: Database, addrs: seq<Addr>) { Strange(db.cached, db.objs, addrs) }

  ghost predicate Strange(list: seq<DevId>, objs: map<DevId, Device>, addrs: seq<Addr>) {
    |list| == |addrs| && forall i :: 0 <= i < |addrs| ==> StrangeAt(list[i], objs, addrs[i])
  }

  ghost predicate StrangeAt(d: DevId, objs: map<DevId, Device>, addr: Addr) {
    d in objs && objs[d].bdaddr == addr && objs[d].rpa == ANY
  }

  lemma {:induction false} ExceptIs(s: seq<Addr>, a: Addr)
    ensures a !in Except(s, a) && (forall x :: x in Except(s, a) <==> x in s && x != a)
    ensures |Except(s, a)| <= |s| && (a !in s ==> Except(s, a) == s)
    ensures NoDup(s) ==> NoDup(Except(s, a))
  {
    if s != [] {
      ExceptIs(s[1..], a);
      assert s == [s[0]] + s[1..];
      if NoDup(s) { assert NoDup(s[1..]) && s[0] !in s[1..]; }
    }
  }

  lemma {:induction false} DistinctNoDup(s: seq<Addr>)
    ensures NoDup(Distinct(s))
    decreases |s|
  {
    if s != [] {
      DistinctNoDup(s[1..]);
      ExceptIs(Distinct(s[1..]), s[0]);
    }
  }

  /** Moving an address to the front, on the whole list and on its prefix. */
  lemma PrefixFront(s: seq<Addr>, a: Addr, n: nat)
    requires NoDup(s) && n > 0
    ensures Prefix([a] + Except(s, a), n)
            == if a in Prefix(s, n) then [a] + Except(Prefix(s, n), a) else [a] + Prefix(s, n - 1)
  {
    hide Except;
    if a in s {
      var k :| 0 <= k < |s| && s[k] == a;
      ExceptAt(s, a, k);
      if k >= n {
        assert a !in s[..n];
        assert ([a] + (s[..k] + s[k + 1..]))[..n] == [a] + s[..n - 1];
      } else {
        FrontWithin(s, a, k, n);
      }
    } else {
      ExceptIs(s, a);
      assert |s| >= n ==> ([a] + s)[..n] == [a] + s[..n - 1];
    }
  }

  lemma FrontWithin(s: seq<Addr>, a: Addr, k: nat, n: nat)
    requires NoDup(s) && k < |s| && s[k] == a && k < n
    ensures a in Prefix(s, n)
    ensures Prefix([a] + (s[..k] + s[k + 1..]), n) == [a] + Except(Prefix(s, n), a)
  {
    hide Except;
    assert Prefix(s, n)[k] == a;
    ExceptAt(Prefix(s, n), a, k);
    if |s| > n {
      assert ([a] + (s[..k] + s[k + 1..]))[..n] == [a] + (s[..n][..k] + s[..n][k + 1..]);
    }
  }

  lemma {:induction false} ExceptAt(s: seq<Addr>, a: Addr, k: nat)
    requires NoDup(s) && k < |s| && s[k] == a
    ensures Except(s, a) == s[..k] + s[k + 1..]
  {
    if k == 0 {
      assert a !in s[1..];
      ExceptIs(s[1..], a);
    } else {
      ExceptAt(s[1..], a, k - 1);
      assert s[..k] == [s[0]] + s[1..][..k - 1];
    }
  }

  /** In the cache, a device moves to the front as its address does. */
  lemma {:induction false} RemoveAt(list: seq<DevId>, d: DevId, k: nat)
    requires NoDup(list) && k < |list| && list[k] == d
    ensures RemoveFirst(list, d) == list[..k] + list[k + 1..]
  {
    if k > 0 {
      assert list[0] != d;
      RemoveAt(list[1..], d, k - 1);
      assert list[..k] == [list[0]] + list[1..][..k - 1];
    }
  }

  /** One sighting of an unknown or cached device. */
  lemma SeenHolds(db: Database, addrs: seq<Addr>, a: Addr)
    requires Sound(db) && Holds(db, addrs) && NoDup(addrs) && |addrs| <= CACHE_MAX
    requires (a == ANY ==> addrs == []) && !Known(db, a)
    ensures Listed(db)
    ensures Holds(Found(db, a), if a in addrs then [a] + Except(addrs, a) else [a] + Prefix(addrs, CACHE_MAX - 1))
    ensures Same(db, Found(db, a))
  {
    assert FindIn(db.bonded, db.objs, a).None?;
    var f := FindIn(db.cached, db.objs, a);
    if f.Some? { OldHolds(db, addrs, a, f.value); } else { NewHolds(db, addrs, a); }
  }

  lemma OldHolds(db: Database, addrs: seq<Addr>, a: Addr, d: DevId)
    requires Sound(db) && Holds(db, addrs) && NoDup(addrs) && a != ANY
    requires Listed(db) && Find(db, a) == Some(d) && d in db.cached && Matches(db.objs[d], a)
    ensures a in addrs && Holds(Found(db, a), [a] + Except(addrs, a)) && Same(db, Found(db, a))
  {
    hide Except, FindIn, Find, RemoveFirst;
    var k :| 0 <= k < |db.cached| && db.cached[k] == d;
    assert StrangeAt(db.cached[k], db.objs, addrs[k]);
    RemoveAt(db.cached, d, k);
    ExceptAt(addrs, a, k);
    assert Found(db, a) == db.(cached := [d] + (db.cached[..k] + db.cached[k + 1..]));
    StrangeFront(db.cached, db.objs, addrs, k);
  }

  lemma StrangeFront(list: seq<DevId>, objs: map<DevId, Device>, addrs: seq<Addr>, k: nat)
    requires Strange(list, objs, addrs) && k < |list|
    ensures Strange([list[k]] + (list[..k] + list[k + 1..]), objs, [addrs[k]] + (addrs[..k] + addrs[k + 1..]))
  {
    hide StrangeAt;
    var list1, addrs1 := list[..k] + list[k + 1..], addrs[..k] + addrs[k + 1..];
    forall i | 0 <= i < |addrs1| ensures StrangeAt(list1[i], objs, addrs1[i]) {
      assert StrangeAt(list[if i < k then i else i + 1], objs, addrs[if i < k then i else i + 1]);
    }
  }

  /** The bonded devices are as they were. */
  ghost predicate Same(db: Database, db1: Database) {
    db1.bonded == db.bonded && forall d :: d in db.bonded ==> d in db.objs && d in db1.objs && db1.objs[d] == db.objs[d]
  }

  /** A device at the front of the cache stays there. */
  lemma Recached(db: Database)
    requires db.cached != []
    ensures Cache(db, db.cached[0]) == db
  {
    assert [db.cached[0]] + db.cached[1..] == db.cached;
  }

  /** A new device, and what the cache keeps besides. */
  lemma NewFound(db: Database, a: Addr)
    requires Sound(db) && Listed(db) && Find(db, a).None? && |db.cached| <= CACHE_MAX
    ensures var db1 := Found(db, a);
            var kept := if |db.cached| == CACHE_MAX then db.cached[..CACHE_MAX - 1] else db.cached;
            && db1.bonded == db.bonded && db1.cached == [db.made] + kept
            && StrangeAt(db.made, db1.objs, a)
            && (forall d :: d in kept || d in db.bonded ==> d in db.objs && d in db1.objs && db1.objs[d] == db.objs[d])
  {
    var d, dev := db.made, Device(a, ANY, false, false, false, false, false);
    NewCached(db, dev);
    hide Find, Cache, Sound;
    var db1 := Get(db, a).0;
    assert db1 == Cache(db.(objs := db.objs[d := dev], made := d + 1), d);
    Recached(db1);
  }

  /** A new device enters a cache that is not over-full. */
  lemma NewCached(db: Database, dev: Device)
    requires Sound(db) && |db.cached| <= CACHE_MAX
    ensures var db1 := Cache(db.(objs := db.objs[db.made := dev], made := db.made + 1), db.made);
            var kept := if |db.cached| == CACHE_MAX then db.cached[..CACHE_MAX - 1] else db.cached;
            && db1.bonded == db.bonded && db1.cached == [db.made] + kept
            && db.made in db1.objs && db1.objs[db.made] == dev
            && (forall d :: d in kept || d in db.bonded ==> d in db.objs && d in db1.objs && db1.objs[d] == db.objs[d])
  {
    assert db.made !in db.cached && db.made !in db.objs;
    if |db.cached| == CACHE_MAX {
      RemoveLast(db.cached);
      assert forall x :: x in db.cached[..CACHE_MAX - 1] ==> x in db.cached && x != db.cached[CACHE_MAX - 1];
    }
  }

  lemma StrangeMore(kept: seq<DevId>, addrs: seq<Addr>, objs: map<DevId, Device>, d: DevId, objs1: map<DevId, Device>,
                    a: Addr)
    requires Strange(kept, objs, addrs) && StrangeAt(d, objs1, a)
    requires forall x :: x in kept ==> x in objs && x in objs1 && objs1[x] == objs[x]
    ensures Strange([d] + kept, objs1, [a] + addrs)
  {
    forall i | 0 <= i < |[a] + addrs| ensures StrangeAt(([d] + kept)[i], objs1, ([a] + addrs)[i]) {
      if i > 0 { assert StrangeAt(kept[i - 1], objs, addrs[i - 1]); }
    }
  }

  /** An address that is not found is none of those in the cache. */
  lemma NewAddress(db: Database, addrs: seq<Addr>, a: Addr)
    requires Holds(db, addrs) && Listed(db) && Find(db, a).None?
    ensures a !in addrs
  {
    forall i | 0 <= i < |addrs| ensures addrs[i] != a {
      assert db.cached[i] in db.cached && StrangeAt(db.cached[i], db.objs, addrs[i]);
    }
  }

  lemma KeptStrange(list: seq<DevId>, objs: map<DevId, Device>, addrs: seq<Addr>)
    requires Strange(list, objs, addrs) && |addrs| <= CACHE_MAX
    ensures Strange(if |list| == CACHE_MAX then list[..CACHE_MAX - 1] else list, objs, Prefix(addrs, CACHE_MAX - 1))
  {
    hide StrangeAt;
  }

  lemma NewHolds(db: Database, addrs: seq<Addr>, a: Addr)
    requires Sound(db) && Holds(db, addrs) && NoDup(addrs) && |addrs| <= CACHE_MAX
    requires Listed(db) && Find(db, a).None?
    ensures a !in addrs
    ensures Holds(Found(db, a), [a] + Prefix(addrs, CACHE_MAX - 1)) && Same(db, Found(db, a))
  {
    hide Found, StrangeAt;
    NewAddress(db, addrs, a);
    NewFound(db, a);
    hide Sound, Find;
    var kept := if |db.cached| == CACHE_MAX then db.cached[..CACHE_MAX - 1] else db.cached;
    KeptStrange(db.cached, db.objs, addrs);
    hide Strange, Prefix;
    StrangeMore(kept, Prefix(addrs, CACHE_MAX - 1), db.objs, db.made, Found(db, a).objs, a);
  }

  /** The empty address is found in the first device of the cache. */
  lemma EmptyStays(db: Database, addrs: seq<Addr>)
    requires Sound(db) && Holds(db, addrs) && addrs != [] && Listed(db) && !Known(db, ANY)
    ensures Found(db, ANY) == db
  {
    assert FindIn(db.bonded, db.objs, ANY).None?;
    assert StrangeAt(db.cached[0], db.objs, addrs[0]);
    Recached(db);
  }

  /** The cache is what it is meant to be: after any sightings of devices, its
      addresses are the first 300 different ones of those seen, latest first,
      leaving out the bonded devices. */
  lemma {:induction false} LatestSeen(db: Database, addrs: seq<Addr>)
    requires Sound(db) && db.cached == []
    ensures var r := Run(db, Sightings(addrs));
            && Holds(r, Prefix(Distinct(Reversed(Strangers(db, addrs))), CACHE_MAX))
            && Same(db, r)
    decreases |addrs|
  {
    hide Found, Except, Distinct, Reversed, Prefix, Holds, Same, Known;
    if addrs != [] {
      var before, a := addrs[..|addrs| - 1], addrs[|addrs| - 1];
      LatestSeen(db, before);
      var evs := Sightings(addrs);
      assert evs[..|evs| - 1] == Sightings(before) && evs[|evs| - 1] == Seen(a);
      var r := Run(db, Sightings(before));
      StepSound(r, Seen(a));
      SightStep(db, r, Strangers(db, before), a);
      ReversedMore(Strangers(db, before), a);
    } else {
      NoneSeen(db);
    }
  }

  lemma NoneSeen(db: Database)
    requires Sound(db) && db.cached == []
    ensures Holds(db, Prefix(Distinct(Reversed([])), CACHE_MAX)) && Same(db, db)
  {
  }

  lemma ReversedMore(s: seq<Addr>, a: Addr)
    ensures Reversed(s + [a]) == [a] + Reversed(s)
    ensures Distinct(Reversed(s + [a])) == [a] + Except(Distinct(Reversed(s)), a)
  {
    assert (s + [a])[..|s + [a]| - 1] == s;
    assert ([a] + Reversed(s))[1..] == Reversed(s);
  }

  lemma SomeDistinct(seen: seq<Addr>)
    ensures Distinct(Reversed(seen)) == [] <==> seen == []
  {
  }

  lemma SightStep(db: Database, r: Database, seen: seq<Addr>, a: Addr)
    requires Sound(r) && Same(db, r) && Listed(r)
    requires Holds(r, Prefix(Distinct(Reversed(seen)), CACHE_MAX))
    ensures Same(db, Found(r, a))
    ensures if Known(db, a) || (a == ANY && seen != []) then Holds(Found(r, a), Prefix(Distinct(Reversed(seen)), CACHE_MAX))
            else Holds(Found(r, a), Prefix([a] + Except(Distinct(Reversed(seen)), a), CACHE_MAX))
  {
    hide Distinct, Reversed, Except, Found, Holds;
    var l := Distinct(Reversed(seen));
    DistinctNoDup(Reversed(seen));
    assert Known(db, a) <==> Known(r, a);
    hide Known, Same;
    SomeDistinct(seen);
    if Known(db, a) {
      KnownStays(r, a);
    } else if a == ANY && seen != [] {
      EmptyStays(r, Prefix(l, CACHE_MAX));
    } else {
      PrefixFront(l, a, CACHE_MAX);
      SeenHolds(r, Prefix(l, CACHE_MAX), a);
      if a !in Prefix(l, CACHE_MAX) { assert Prefix(Prefix(l, CACHE_MAX), CACHE_MAX - 1) == Prefix(l, CACHE_MAX - 1); }
    }
  }

  lemma KnownStays(db: Database, a: Addr)
    requires Sound(db) && Known(db, a) && Listed(db)
    ensures Found(db, a) == db
  {
    var f := FindIn(db.bonded, db.objs, a);
    assert f.Some? && Paired(db.objs[f.value]);
  }
}
