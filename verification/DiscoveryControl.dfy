/** Device discovery: the framework's start and cancel commands, the LE scans of
    GATT, and the kernel's events share one scan, with a type that is running
    and a type that is expected next. */
module DiscoveryControl {
  import opened Common

  /** The scan types, as sets of address types. */
  datatype Scan = NoScan | Bredr | Le | Dual

  function And(a: Scan, b: Scan): Scan {
    if a == b || b.Dual? then a else if a.Dual? then b else NoScan
  }

  predicate HasLe(a: Scan) { a.Le? || a.Dual? }

  /** A call of `start_discovery` or `stop_discovery`. */
  datatype Call = StartCall(scan: Scan) | StopCall(scan: Scan)

  datatype Note = Started | Stopped

  datatype Status = Success | NotReady | Busy | Failed

  /** What a callback of GATT does: nothing more, or it starts or stops the LE
      scan and goes on. A stop may have a callback (`cb`) that is called at once
      and does `inner`. */
  datatype Acts = Nothing | StartLe(rest: Acts) | StopLe(cb: bool, inner: Acts, rest: Acts)

  /** The fields of `adapter`, and `gatt_discovery_stopped_cb` as the identity
      of a stop that was accepted. The rest is history: calls made, messages
      sent to the kernel, notifications, callbacks asked for and fired. */
  datatype Adapter = Adapter(
    powered: bool, supported: Scan, leScanning: bool, cur: Scan, exp: Scan, stoppedCb: Option<nat>,
    calls: seq<Call>, sends: nat, notes: seq<Note>, asked: nat, fired: seq<nat>)

  /** Whether the kernel interface takes the n-th message. */
  type Kernel = nat -> bool

  function NewAdapter(powered: bool, supported: Scan): Adapter {
    Adapter(powered, supported, false, NoScan, NoScan, None, [], 0, [], 0, [])
  }

  // -------------------------------------------------------------- operations

  /** `start_discovery` and `stop_discovery`. */
  function Ask(a: Adapter, call: Call, ok: Kernel): (Adapter, bool) {
    var a1 := a.(calls := a.calls + [call]);
    if And(a.supported, call.scan).NoScan? then (a1, false) else (a1.(sends := a.sends + 1), ok(a.sends))
  }

  /** `bt_le_discovery_start`. */
  function LeStart(a: Adapter, ok: Kernel): (Adapter, bool) {
    if !a.powered then (a, false)
    else if !a.cur.NoScan? then (a.(leScanning := true, exp := Le), true)
    else Ask(a.(leScanning := true), StartCall(Le), ok)
  }

  /** `bt_le_discovery_stop`, with a callback (`cb`) or without; `acts` is what
      the callback does if it is called at once. */
  function LeStop(a: Adapter, cb: bool, acts: Acts, ok: Kernel): (Adapter, bool)
    decreases acts, 1
  {
    if !a.powered then (a, false)
    else if !a.cur.Le? then (if cb then Perform(Fire(a.(leScanning := false)), acts, ok) else a.(leScanning := false), true)
    else
      var (a1, good) := Ask(a.(leScanning := false), StopCall(Le), ok);
      if !good then (a1, false)
      else (a1.(stoppedCb := if cb then Some(a1.asked) else None, asked := if cb then a1.asked + 1 else a1.asked,
                exp := NoScan), true)
  }

  /** A callback called at once. */
  function Fire(a: Adapter): Adapter { a.(fired := a.fired + [a.asked], asked := a.asked + 1) }

  /** What a callback does. */
  function Perform(a: Adapter, acts: Acts, ok: Kernel): Adapter
    decreases acts, 0
  {
    match acts
    case Nothing => a
    case StartLe(rest) => Perform(LeStart(a, ok).0, rest, ok)
    case StopLe(cb, inner, rest) => Perform(LeStop(a, cb, inner, ok).0, rest, ok)
  }

  /** `check_discovery_state`. */
  function Noted(a: Adapter, now: Scan): Adapter {
    if now == a.supported then a.(notes := a.notes + [Started])
    else if a.cur != a.supported then a
    else a.(notes := a.notes + [Stopped])
  }

  function Next(leScanning: bool): Scan { if leScanning then Le else NoScan }

  /** The end of a scan has been noted; the callback, which does `acts`, is
      called if there is one. */
  function Stopping(a: Adapter, acts: Acts, ok: Kernel): Adapter {
    if a.stoppedCb.None? then a
    else Perform(a.(fired := a.fired + [a.stoppedCb.value]), acts, ok).(stoppedCb := None)
  }

  /** The rest of `mgmt_discovering_event` at the end of a scan: the expected
      scan is started. */
  function Ended(a: Adapter, acts: Acts, ok: Kernel): Adapter {
    var a1 := Stopping(a, acts, ok);
    var a2 := a1.(exp := Next(a1.leScanning));
    if a1.exp.NoScan? then a2 else Ask(a2, StartCall(a1.exp), ok).0
  }

  /** `mgmt_discovering_event`. */
  function Discovering(a: Adapter, scan: Scan, discovering: bool, acts: Acts, ok: Kernel): Adapter {
    if (!a.cur.NoScan?) == discovering then a
    else if discovering then Noted(a, scan).(cur := scan, exp := Next(a.leScanning))
    else Ended(Noted(a, NoScan).(cur := NoScan), acts, ok)
  }

  /** `handle_start_discovery_cmd`. */
  function StartCommand(a: Adapter, ok: Kernel): (Adapter, Status) {
    if !a.powered then (a, NotReady)
    else
      match a.cur
      case Dual => (a, Success)
      case Bredr => (a, Success)
      case NoScan => (var (a1, good) := Ask(a, StartCall(Dual), ok); (a1, if good then Success else Failed))
      case Le =>
        if a.supported.Le? then (a, Success)
        else
          var (a1, good) := Ask(a, StopCall(Le), ok);
          if good then (a1.(exp := Dual), Success) else (a1, Failed)
  }

  /** `handle_cancel_discovery_cmd`. */
  function CancelCommand(a: Adapter, ok: Kernel): (Adapter, Status) {
    if !a.powered then (a, NotReady)
    else
      match a.cur
      case NoScan => (a, Success)
      case Le =>
        if !a.supported.Le? then (a, Success)
        else if a.exp.Le? then (a, Busy)
        else (var (a1, good) := Ask(a, StopCall(Le), ok); (a1, if good then Success else Failed))
      case _ =>
        var (a1, good) := Ask(a, StopCall(Dual), ok);
        if !good then (a1, Failed) else (if a1.exp.Le? then a1 else a1.(exp := NoScan), Success)
  }

  // -------------------------------------------------- the adapter in place

  class Controller {
    var powered: bool
    var supported: Scan
    var leScanning: bool
    var curType: Scan
    var expType: Scan
    var stoppedCb: Option<nat>
    var sends: nat
    var asked: nat
    const ok: Kernel
    ghost var calls: seq<Call>
    ghost var notes: seq<Note>
    ghost var fired: seq<nat>

    ghost function State(): Adapter reads this {
      Adapter(powered, supported, leScanning, curType, expType, stoppedCb, calls, sends, notes, asked, fired)
    }

    constructor (powered: bool, supported: Scan, ok: Kernel)
      ensures State() == NewAdapter(powered, supported) && this.ok == ok
    {
      this.powered, this.supported, leScanning, curType, expType := powered, supported, false, NoScan, NoScan;
      stoppedCb, sends, asked, calls, notes, fired, this.ok := None, 0, 0, [], [], [], ok;
    }

    /** `start_discovery`, `stop_discovery`. */
    method Request(call: Call) returns (good: bool)
      modifies this`calls, this`sends
      ensures (State(), good) == Ask(old(State()), call, ok)
    {
      calls := calls + [call];
      if And(supported, call.scan) == NoScan { return false; }
      good := ok(sends);
      sends := sends + 1;
    }

    /** `bt_le_discovery_start`. */
    method LeDiscoveryStart() returns (good: bool)
      modifies this
      ensures (State(), good) == LeStart(old(State()), ok)
    {
      if !powered { return false; }
      leScanning := true;
      if curType != NoScan {
        expType := Le;
        return true;
      }
      good := Request(StartCall(Le));
    }

    /** `bt_le_discovery_stop`. */
    method LeDiscoveryStop(cb: bool, acts: Acts) returns (good: bool)
      modifies this
      ensures (State(), good) == LeStop(old(State()), cb, acts, ok)
      decreases acts, 1
    {
      if !powered { return false; }
      leScanning := false;
      if curType != Le {
        if cb {
          fired := fired + [asked];
          asked := asked + 1;
          Callback(acts);
        }
        return true;
      }
      good := Request(StopCall(Le));
      if !good { return false; }
      stoppedCb := if cb then Some(asked) else None;
      asked := if cb then asked + 1 else asked;
      expType := NoScan;
    }

    /** A callback of GATT. */
    method Callback(acts: Acts)
      modifies this
      ensures State() == Perform(old(State()), acts, ok)
      decreases acts, 0
    {
      match acts {
        case Nothing =>
        case StartLe(rest) =>
          var _ := LeDiscoveryStart();
          Callback(rest);
        case StopLe(cb, inner, rest) =>
          var _ := LeDiscoveryStop(cb, inner);
          Callback(rest);
      }
    }

    /** `check_discovery_state`. */
    method CheckDiscoveryState(newType: Scan, oldType: Scan)
      requires oldType == curType
      modifies this`notes
      ensures State() == Noted(old(State()), newType)
    {
      if newType == supported {
        notes := notes + [Started];
        return;
      }
      if oldType != supported { return; }
      notes := notes + [Stopped];
    }

    /** `mgmt_discovering_event`. */
    method DiscoveringEvent(scan: Scan, discovering: bool, acts: Acts)
      modifies this
      ensures State() == Discovering(old(State()), scan, discovering, acts, ok)
    {
      hide Noted, Ended;
      if (curType != NoScan) == discovering { return; }
      var scanType := if discovering then scan else NoScan;
      CheckDiscoveryState(scanType, curType);
      curType := scanType;
      if discovering {
        expType := if leScanning then Le else NoScan;
        return;
      }
      ScanEnded(acts);
    }

    /** The rest of it, for the end of a scan. */
    method ScanEnded(acts: Acts)
      modifies this
      ensures State() == Ended(old(State()), acts, ok)
    {
      hide Stopping, Ask;
      OneShot(acts);
      var scanType := expType;
      expType := if leScanning then Le else NoScan;
      if scanType != NoScan { var _ := Request(StartCall(scanType)); }
    }

    /** The one-shot notification of GATT. */
    method OneShot(acts: Acts)
      modifies this
      ensures State() == Stopping(old(State()), acts, ok)
    {
      if stoppedCb.Some? {
        fired := fired + [stoppedCb.value];
        Callback(acts);
        stoppedCb := None;
      }
    }

    /** `handle_start_discovery_cmd`. */
    method HandleStart() returns (status: Status)
      modifies this
      ensures (State(), status) == StartCommand(old(State()), ok)
    {
      if !powered { return NotReady; }
      match curType {
        case Dual =>
        case Bredr =>
        case NoScan =>
          var good := Request(StartCall(Dual));
          if !good { return Failed; }
        case Le =>
          if supported == Le { return Success; }
          var good := Request(StopCall(Le));
          if !good { return Failed; }
          expType := Dual;
      }
      status := Success;
    }

    /** `handle_cancel_discovery_cmd`. */
    method HandleCancel() returns (status: Status)
      modifies this
      ensures (State(), status) == CancelCommand(old(State()), ok)
    {
      if !powered { return NotReady; }
      match curType {
        case NoScan =>
        case Le =>
          if supported != Le { return Success; }
          if expType == Le { return Busy; }
          var good := Request(StopCall(Le));
          if !good { return Failed; }
        case _ =>
          var good := Request(StopCall(Dual));
          if !good { return Failed; }
          if expType != Le { expType := NoScan; }
      }
      status := Success;
    }
  }

  // --------------------------------------------------------------- all runs

  datatype Event =
    | StartCmd | CancelCmd
    | StartLeScan | StopLeScan(cb: bool, inner: Acts)
    | KernelEvent(scan: Scan, discovering: bool, acts: Acts)
    | Settings(powered: bool, supported: Scan)

  function Step(a: Adapter, ev: Event, ok: Kernel): Adapter {
    match ev
    case StartCmd => StartCommand(a, ok).0
    case CancelCmd => CancelCommand(a, ok).0
    case StartLeScan => LeStart(a, ok).0
    case StopLeScan(cb, inner) => LeStop(a, cb, inner, ok).0
    case KernelEvent(scan, discovering, acts) => Discovering(a, scan, discovering, acts, ok)
    case Settings(powered, supported) => a.(powered := powered, supported := supported)
  }

  function Steps(a: Adapter, evs: seq<Event>, ok: Kernel): Adapter {
    if evs == [] then a else Step(Steps(a, evs[..|evs| - 1], ok), evs[|evs| - 1], ok)
  }

  function Run(powered: bool, supported: Scan, evs: seq<Event>, ok: Kernel): Adapter {
    Steps(NewAdapter(powered, supported), evs, ok)
  }

  // ------------------------------------------------- what each event comes to

  /** The adapter after one call of the kernel interface; a message is sent only
      if one of the types asked for is supported. */
  function Called(a: Adapter, call: Call, sent: bool): Adapter {
    a.(calls := a.calls + [call], sends := a.sends + if sent then 1 else 0)
  }

  /** The scan that was to follow is asked for, with the types of it that are
      supported; then the LE scan is to follow, if it is wanted. */
  function Followed(a: Adapter, next: Scan): Adapter {
    var able := a.supported != NoScan && (next.Dual? || a.supported.Dual? || a.supported == next);
    (if next.NoScan? then a else Called(a, StartCall(next), able)).(exp := if a.leScanning then Le else NoScan)
  }

  /** A start command. Unpowered, it is refused. With no scan running the kernel
      is asked once, to scan for all types, and the answer is whether some type
      is supported and the kernel takes the message. A running scan is left
      alone, but for an LE scan that is not all the adapter can do: the kernel is
      asked once to stop it, and if it takes that, the scan of all types is to
      follow. Nothing else changes. */
  lemma StartCases(a: Adapter, ok: Kernel)
    ensures var (a1, status) := StartCommand(a, ok);
            && Step(a, StartCmd, ok) == a1
            && (!a.powered ==> status == NotReady && a1 == a)
            && (a.powered && a.cur.NoScan? ==>
                  && a1 == Called(a, StartCall(Dual), a.supported != NoScan)
                  && status == if a.supported != NoScan && ok(a.sends) then Success else Failed)
            && (a.powered && (a.cur.Dual? || a.cur.Bredr? || (a.cur.Le? && a.supported.Le?)) ==>
                  status == Success && a1 == a)
            && (a.powered && a.cur.Le? && !a.supported.Le? ==>
                  var taken := a.supported.Dual? && ok(a.sends);
                  && status == (if taken then Success else Failed)
                  && a1 == Called(a, StopCall(Le), a.supported.Dual?).(exp := if taken then Dual else a.exp))
  {
  }

  /** A cancel command. Unpowered, it is refused; with no scan running there is
      nothing to do. An LE scan is stopped only if it is all the adapter can do,
      and not if another one is to follow. Any other scan is stopped; what is to
      follow is then forgotten, unless it is an LE scan. */
  lemma CancelCases(a: Adapter, ok: Kernel)
    ensures var (a1, status) := CancelCommand(a, ok);
            && Step(a, CancelCmd, ok) == a1
            && (!a.powered ==> status == NotReady && a1 == a)
            && (a.powered && (a.cur.NoScan? || (a.cur.Le? && !a.supported.Le?)) ==> status == Success && a1 == a)
            && (a.powered && a.cur.Le? && a.supported.Le? && a.exp.Le? ==> status == Busy && a1 == a)
            && (a.powered && a.cur.Le? && a.supported.Le? && !a.exp.Le? ==>
                  a1 == Called(a, StopCall(Le), true) && status == if ok(a.sends) then Success else Failed)
            && (a.powered && (a.cur.Bredr? || a.cur.Dual?) ==>
                  var taken := a.supported != NoScan && ok(a.sends);
                  && status == (if taken then Success else Failed)
                  && a1 == Called(a, StopCall(Dual), a.supported != NoScan)
                             .(exp := if taken && !a.exp.Le? then NoScan else a.exp))
  {
  }

  /** The start of the LE scan: wanted from now on if the adapter is powered;
      asked for at once if no scan runs, and otherwise to follow. */
  lemma StartLeCases(a: Adapter, ok: Kernel)
    ensures var (a1, good) := LeStart(a, ok);
            && Step(a, StartLeScan, ok) == a1
            && (!a.powered ==> !good && a1 == a)
            && (a.powered && a.cur != NoScan ==> good && a1 == a.(leScanning := true, exp := Le))
            && (a.powered && a.cur.NoScan? ==>
                  var able := a.supported.Le? || a.supported.Dual?;
                  && good == (able && ok(a.sends)) && a1 == Called(a, StartCall(Le), able).(leScanning := true))
  {
  }

  /** The stop of it: wanted no longer if the adapter is powered. While it runs
      the kernel is asked to stop it, and if it takes that the callback is kept
      for the end, and nothing is to follow; otherwise the callback is called at
      once. */
  lemma StopLeCases(a: Adapter, cb: bool, inner: Acts, ok: Kernel)
    ensures var (a1, good) := LeStop(a, cb, inner, ok);
            && Step(a, StopLeScan(cb, inner), ok) == a1
            && (!a.powered ==> !good && a1 == a)
            && (a.powered && a.cur.Le? ==>
                  var able := a.supported.Le? || a.supported.Dual?;
                  var asked := Called(a, StopCall(Le), able).(leScanning := false);
                  && good == (able && ok(a.sends))
                  && (!good ==> a1 == asked)
                  && (good && cb ==> a1 == asked.(stoppedCb := Some(a.asked), asked := a.asked + 1, exp := NoScan))
                  && (good && !cb ==> a1 == asked.(stoppedCb := None, exp := NoScan)))
            && (a.powered && !a.cur.Le? ==>
                  && good
                  && (!cb ==> a1 == a.(leScanning := false))
                  && (cb && inner.Nothing? ==>
                        a1 == a.(leScanning := false, fired := a.fired + [a.asked], asked := a.asked + 1)))
  {
  }

  /** A report of the kernel that is no news changes nothing. The start of a scan
      sets the type that runs, and the LE scan to follow if it is wanted. At the
      end, with a callback that does nothing, the callback is called if one was
      kept, the scan that was to follow is asked for, and then the LE scan is to
      follow if it is wanted. The framework is told STARTED when the type becomes
      that of all supported types, and STOPPED when it ceases to be. */
  lemma KernelCases(a: Adapter, scan: Scan, discovering: bool, ok: Kernel)
    ensures var a1 := Step(a, KernelEvent(scan, discovering, Nothing), ok);
            var now := if discovering then scan else NoScan;
            var told := if now == a.supported then [Started] else if a.cur == a.supported then [Stopped] else [];
            var follow := if a.leScanning then Le else NoScan;
            && (discovering && a.cur != NoScan ==> a1 == a)
            && (!discovering && a.cur.NoScan? ==> a1 == a)
            && (discovering && a.cur.NoScan? ==> a1 == a.(cur := scan, exp := follow, notes := a.notes + told))
            && (!discovering && a.cur != NoScan ==>
                  var fired := if a.stoppedCb.Some? then a.fired + [a.stoppedCb.value] else a.fired;
                  a1 == Followed(a.(cur := NoScan, notes := a.notes + told, stoppedCb := None, fired := fired), a.exp))
  {
    assert a.notes + [] == a.notes;
  }

  /** New settings are only taken down. */
  lemma SettingsCases(a: Adapter, powered: bool, supported: Scan, ok: Kernel)
    ensures Step(a, Settings(powered, supported), ok) == a.(powered := powered, supported := supported)
  {
  }

  /** Whatever the callback does, it does it when the end has been noted, and
      before the next scan is asked for. */
  lemma EndCases(a: Adapter, scan: Scan, acts: Acts, ok: Kernel)
    requires a.cur != NoScan && a.stoppedCb.Some?
    ensures var told := if a.supported.NoScan? then [Started] else if a.cur == a.supported then [Stopped] else [];
            var seen := a.(cur := NoScan, notes := a.notes + told, fired := a.fired + [a.stoppedCb.value]);
            var b := Perform(seen, acts, ok).(stoppedCb := None);
            Step(a, KernelEvent(scan, false, acts), ok) == Followed(b, a.exp)
  {
    hide Ended, Perform, Followed;
    assert a.notes + [] == a.notes;
    EndedIs(Noted(a, NoScan).(cur := NoScan), acts, ok);
  }

  lemma EndedIs(a: Adapter, acts: Acts, ok: Kernel)
    requires a.cur.NoScan? && a.stoppedCb.Some?
    ensures var b := Perform(a.(fired := a.fired + [a.stoppedCb.value]), acts, ok).(stoppedCb := None);
            Ended(a, acts, ok) == Followed(b, a.exp)
  {
    hide Perform;
    PerformIdle(a.(fired := a.fired + [a.stoppedCb.value]), acts, ok);
  }

  // ---------------------------------------------------- the LE scan survives

  /** While LE scanning is wanted and some scan runs, one that includes LE is
      expected next: LE itself, if the one that runs is not the LE scan. */
  ghost predicate Remembered(a: Adapter) {
    && !a.exp.Bredr?
    && (a.leScanning && !a.cur.NoScan? ==> HasLe(a.exp))
    && (a.leScanning && (a.cur.Bredr? || a.cur.Dual?) ==> a.exp.Le?)
  }

  /** What acts of a callback leave alone, when no scan runs. */
  ghost predicate Idle(a: Adapter, a1: Adapter) {
    && a1.cur == a.cur && a1.exp == a.exp && a1.powered == a.powered && a1.supported == a.supported
    && a1.stoppedCb == a.stoppedCb && a1.notes == a.notes
    && |a1.calls| >= |a.calls| && a1.calls[..|a.calls|] == a.calls
    && (a1.leScanning && !a.leScanning ==> StartCall(Le) in a1.calls[|a.calls|..])
    && StartCall(Dual) !in a1.calls[|a.calls|..]
  }

  lemma LaterCalls(a: Adapter, b: Adapter, c: Adapter)
    requires Idle(a, b) && Idle(b, c)
    ensures Idle(a, c)
  {
    assert c.calls[..|b.calls|][..|a.calls|] == c.calls[..|a.calls|];
    assert c.calls[|a.calls|..] == b.calls[|a.calls|..] + c.calls[|b.calls|..];
    if c.leScanning && !a.leScanning {
      if b.leScanning {
        var i :| 0 <= i < |b.calls| - |a.calls| && b.calls[|a.calls|..][i] == StartCall(Le);
        assert c.calls[..|b.calls|][i + |a.calls|] == StartCall(Le);
        assert c.calls[|a.calls|..][i] == StartCall(Le);
      } else {
        var i :| 0 <= i < |c.calls| - |b.calls| && c.calls[|b.calls|..][i] == StartCall(Le);
        assert c.calls[|a.calls|..][i + |b.calls| - |a.calls|] == StartCall(Le);
      }
    }
  }

  lemma {:induction false} PerformIdle(a: Adapter, acts: Acts, ok: Kernel)
    requires a.cur.NoScan?
    ensures Idle(a, Perform(a, acts, ok))
    decreases acts, 0
  {
    match acts
    case Nothing =>
    case StartLe(rest) =>
      var a1 := LeStart(a, ok).0;
      PerformIdle(a1, rest, ok);
      LaterCalls(a, a1, Perform(a1, rest, ok));
    case StopLe(cb, inner, rest) =>
      var a1 := LeStop(a, cb, inner, ok).0;
      StopIdle(a, cb, inner, ok);
      PerformIdle(a1, rest, ok);
      LaterCalls(a, a1, Perform(a1, rest, ok));
  }

  lemma {:induction false} StopIdle(a: Adapter, cb: bool, acts: Acts, ok: Kernel)
    requires a.cur.NoScan?
    ensures Idle(a, LeStop(a, cb, acts, ok).0)
    decreases acts, 1
  {
    PerformIdle(Fire(a.(leScanning := false)), acts, ok);
  }

  /** Acts while any scan runs. */
  lemma {:induction false} PerformRemembered(a: Adapter, acts: Acts, ok: Kernel)
    requires Remembered(a)
    ensures Remembered(Perform(a, acts, ok))
    decreases acts, 0
  {
    match acts
    case Nothing =>
    case StartLe(rest) => PerformRemembered(LeStart(a, ok).0, rest, ok);
    case StopLe(cb, inner, rest) =>
      StopRemembered(a, cb, inner, ok);
      PerformRemembered(LeStop(a, cb, inner, ok).0, rest, ok);
  }

  lemma {:induction false} StopRemembered(a: Adapter, cb: bool, acts: Acts, ok: Kernel)
    requires Remembered(a)
    ensures Remembered(LeStop(a, cb, acts, ok).0)
    decreases acts, 1
  {
    PerformRemembered(Fire(a.(leScanning := false)), acts, ok);
  }

  lemma StoppingIdle(a: Adapter, acts: Acts, ok: Kernel)
    requires a.cur.NoScan?
    ensures Idle(a.(stoppedCb := None), Stopping(a, acts, ok))
  {
    if a.stoppedCb.Some? { PerformIdle(a.(fired := a.fired + [a.stoppedCb.value]), acts, ok); }
  }

  lemma KernelRemembered(a: Adapter, scan: Scan, discovering: bool, acts: Acts, ok: Kernel)
    requires Remembered(a)
    ensures Remembered(Discovering(a, scan, discovering, acts, ok))
  {
    hide Stopping;
    if !a.cur.NoScan? && !discovering { StoppingIdle(Noted(a, NoScan).(cur := NoScan), acts, ok); }
  }

  lemma StepRemembered(a: Adapter, ev: Event, ok: Kernel)
    requires Remembered(a)
    ensures Remembered(Step(a, ev, ok))
  {
    hide LeStop, Discovering;
    match ev
    case StopLeScan(cb, inner) => StopRemembered(a, cb, inner, ok);
    case KernelEvent(scan, discovering, acts) => KernelRemembered(a, scan, discovering, acts, ok);
    case _ =>
  }

  /** The LE scan is not forgotten: in every reachable state, if LE scanning is
      wanted and a scan runs, a scan including LE is expected next. */
  lemma {:induction false} NotForgotten(powered: bool, supported: Scan, evs: seq<Event>, ok: Kernel)
    ensures Remembered(Run(powered, supported, evs, ok))
    decreases |evs|
  {
    hide Step, Remembered;
    if evs != [] {
      NotForgotten(powered, supported, evs[..|evs| - 1], ok);
      StepRemembered(Run(powered, supported, evs[..|evs| - 1], ok), evs[|evs| - 1], ok);
    } else {
      FreshRemembered(powered, supported);
    }
  }

  lemma FreshRemembered(powered: bool, supported: Scan)
    ensures Remembered(NewAdapter(powered, supported))
  {
  }

  ghost predicate StartsLe(calls: seq<Call>) { exists c :: c in calls && c.StartCall? && HasLe(c.scan) }

  /** And so it survives every inquiry: whenever a scan ends while LE scanning
      is wanted, then or after the callback, a scan including LE is started. */
  lemma LeScanSurvives(powered: bool, supported: Scan, evs: seq<Event>, scan: Scan, acts: Acts, ok: Kernel)
    requires !Run(powered, supported, evs, ok).cur.NoScan?
    ensures var a := Run(powered, supported, evs, ok);
            var a1 := Discovering(a, scan, false, acts, ok);
            && a1.cur.NoScan? && |a1.calls| >= |a.calls|
            && (a.leScanning || a1.leScanning ==> StartsLe(a1.calls[|a.calls|..]))
  {
    hide Run, Remembered, Discovering, StartsLe;
    NotForgotten(powered, supported, evs, ok);
    Survives(Run(powered, supported, evs, ok), scan, acts, ok);
  }

  lemma Survives(a: Adapter, scan: Scan, acts: Acts, ok: Kernel)
    requires Remembered(a) && !a.cur.NoScan?
    ensures var a1 := Discovering(a, scan, false, acts, ok);
            && a1.cur.NoScan? && |a1.calls| >= |a.calls|
            && (a.leScanning || a1.leScanning ==> StartsLe(a1.calls[|a.calls|..]))
  {
    hide Ended;
    EndedStarts(Noted(a, NoScan).(cur := NoScan), acts, ok);
  }

  lemma EndedStarts(a: Adapter, acts: Acts, ok: Kernel)
    requires a.cur.NoScan? && (a.leScanning ==> HasLe(a.exp)) && !a.exp.Bredr?
    ensures var a1 := Ended(a, acts, ok);
            && a1.cur.NoScan? && |a1.calls| >= |a.calls|
            && (a.leScanning || a1.leScanning ==> StartsLe(a1.calls[|a.calls|..]))
  {
    hide Stopping;
    StoppingIdle(a, acts, ok);
    var c := Stopping(a, acts, ok);
    var a1 := Ended(a, acts, ok);
    if !a.exp.NoScan? {
      assert a1.calls == c.calls + [StartCall(a.exp)];
      assert a1.calls[|a.calls|..][|c.calls| - |a.calls|] == StartCall(a.exp);
    } else {
      assert a1.calls == c.calls;
    }
  }

  // ----------------------------------------------------- callbacks fire once

  ghost predicate FiredOnce(a: Adapter) {
    && NoDup(a.fired) && (forall i :: 0 <= i < |a.fired| ==> a.fired[i] < a.asked)
    && (a.stoppedCb.Some? ==> a.stoppedCb.value < a.asked && a.stoppedCb.value !in a.fired)
  }

  lemma {:induction false} PerformOnce(a: Adapter, acts: Acts, ok: Kernel)
    requires FiredOnce(a)
    ensures FiredOnce(Perform(a, acts, ok))
    decreases acts, 0
  {
    match acts
    case Nothing =>
    case StartLe(rest) => PerformOnce(LeStart(a, ok).0, rest, ok);
    case StopLe(cb, inner, rest) =>
      StopOnce(a, cb, inner, ok);
      PerformOnce(LeStop(a, cb, inner, ok).0, rest, ok);
  }

  lemma {:induction false} StopOnce(a: Adapter, cb: bool, acts: Acts, ok: Kernel)
    requires FiredOnce(a)
    ensures FiredOnce(LeStop(a, cb, acts, ok).0)
    decreases acts, 1
  {
    FireOnce(a.(leScanning := false));
    PerformOnce(Fire(a.(leScanning := false)), acts, ok);
  }

  lemma FireOnce(a: Adapter)
    requires FiredOnce(a)
    ensures FiredOnce(Fire(a))
  {
  }

  /** The callback in progress makes no difference to what acts do, when no
      scan runs. */
  lemma {:induction false} PerformAside(a: Adapter, acts: Acts, ok: Kernel)
    requires a.cur.NoScan?
    ensures Perform(a.(stoppedCb := None), acts, ok) == Perform(a, acts, ok).(stoppedCb := None)
    decreases acts, 0
  {
    match acts
    case Nothing =>
    case StartLe(rest) => PerformAside(LeStart(a, ok).0, rest, ok);
    case StopLe(cb, inner, rest) =>
      StopIdle(a, cb, inner, ok);
      StopAside(a, cb, inner, ok);
      PerformAside(LeStop(a, cb, inner, ok).0, rest, ok);
  }

  lemma {:induction false} StopAside(a: Adapter, cb: bool, acts: Acts, ok: Kernel)
    requires a.cur.NoScan?
    ensures LeStop(a.(stoppedCb := None), cb, acts, ok).0 == LeStop(a, cb, acts, ok).0.(stoppedCb := None)
    decreases acts, 1
  {
    PerformAside(Fire(a.(leScanning := false)), acts, ok);
  }

  lemma StoppingOnce(a: Adapter, acts: Acts, ok: Kernel)
    requires FiredOnce(a) && a.cur.NoScan?
    ensures FiredOnce(Stopping(a, acts, ok))
  {
    if a.stoppedCb.Some? {
      var b := a.(fired := a.fired + [a.stoppedCb.value]);
      assert FiredOnce(b.(stoppedCb := None));
      PerformOnce(b.(stoppedCb := None), acts, ok);
      PerformAside(b, acts, ok);
    }
  }

  lemma KernelOnce(a: Adapter, scan: Scan, discovering: bool, acts: Acts, ok: Kernel)
    requires FiredOnce(a)
    ensures FiredOnce(Discovering(a, scan, discovering, acts, ok))
  {
    hide Stopping;
    if !a.cur.NoScan? && !discovering { StoppingOnce(Noted(a, NoScan).(cur := NoScan), acts, ok); }
  }

  /** A callback given to a stop of the LE scan is called at most once. */
  lemma {:induction false} CallbackOnce(powered: bool, supported: Scan, evs: seq<Event>, ok: Kernel)
    ensures FiredOnce(Run(powered, supported, evs, ok))
    decreases |evs|
  {
    if evs != [] {
      hide LeStop, Discovering;
      CallbackOnce(powered, supported, evs[..|evs| - 1], ok);
      var a := Run(powered, supported, evs[..|evs| - 1], ok);
      match evs[|evs| - 1]
      case StopLeScan(cb, inner) => StopOnce(a, cb, inner, ok);
      case KernelEvent(scan, discovering, acts) => KernelOnce(a, scan, discovering, acts, ok);
      case _ =>
    }
  }

  // ------------------------------------------------------------ notifications

  /** STARTED and STOPPED in turn, STARTED last exactly while the scan of all
      supported types runs. */
  ghost predicate InTurn(a: Adapter) {
    && (forall i :: 0 <= i < |a.notes| ==> (a.notes[i].Started? <==> i % 2 == 0))
    && (|a.notes| % 2 == 1 <==> a.cur == a.supported)
  }

  /** An event that leaves the framework rightly told: new settings must not
      change whether the running scan is the one of all supported types, and an
      adapter that supports none must not report the start of no scan. */
  predicate Harmless(a: Adapter, ev: Event) {
    match ev
    case Settings(_, supported) => (a.cur == supported) == (a.cur == a.supported)
    case KernelEvent(scan, discovering, _) => !(discovering && scan == a.cur == a.supported == NoScan)
    case _ => true
  }

  ghost predicate Silent(a: Adapter, a1: Adapter) {
    a1.notes == a.notes && a1.cur == a.cur && a1.supported == a.supported
  }

  lemma {:induction false} PerformNotes(a: Adapter, acts: Acts, ok: Kernel)
    ensures Silent(a, Perform(a, acts, ok))
    decreases acts, 0
  {
    match acts
    case Nothing =>
    case StartLe(rest) => PerformNotes(LeStart(a, ok).0, rest, ok);
    case StopLe(cb, inner, rest) =>
      StopNotes(a, cb, inner, ok);
      PerformNotes(LeStop(a, cb, inner, ok).0, rest, ok);
  }

  lemma {:induction false} StopNotes(a: Adapter, cb: bool, acts: Acts, ok: Kernel)
    ensures Silent(a, LeStop(a, cb, acts, ok).0)
    decreases acts, 1
  {
    PerformNotes(Fire(a.(leScanning := false)), acts, ok);
  }

  lemma EndedNotes(a: Adapter, acts: Acts, ok: Kernel)
    ensures Silent(a, Ended(a, acts, ok))
  {
    if a.stoppedCb.Some? { PerformNotes(a.(fired := a.fired + [a.stoppedCb.value]), acts, ok); }
  }

  lemma NotedInTurn(a: Adapter, now: Scan)
    requires InTurn(a)
    ensures InTurn(Noted(a, now).(cur := now)) <==> !(now == a.cur == a.supported)
  {
    if now == a.cur == a.supported { assert Noted(a, now).notes[|a.notes|] == Started; }
  }

  lemma SilentInTurn(a: Adapter, a1: Adapter)
    requires Silent(a, a1)
    ensures InTurn(a) <==> InTurn(a1)
  {
  }

  lemma KernelNotes(a: Adapter, scan: Scan, discovering: bool, acts: Acts, ok: Kernel)
    requires InTurn(a)
    ensures InTurn(Discovering(a, scan, discovering, acts, ok))
            <==> !(discovering && scan == a.cur == a.supported == NoScan)
  {
    hide Ended, InTurn;
    if (!a.cur.NoScan?) != discovering {
      var now := if discovering then scan else NoScan;
      var b := Noted(a, now).(cur := now);
      NotedInTurn(a, now);
      if discovering {
        SilentInTurn(b, b.(exp := Next(a.leScanning)));
      } else {
        EndedNotes(b, acts, ok);
        SilentInTurn(b, Ended(b, acts, ok));
      }
    }
  }

  /** One event keeps the notes in turn exactly if it is harmless. */
  lemma StepInTurn(a: Adapter, ev: Event, ok: Kernel)
    requires InTurn(a)
    ensures InTurn(Step(a, ev, ok)) <==> Harmless(a, ev)
  {
    hide LeStop, Discovering;
    match ev
    case StopLeScan(cb, inner) => StopNotes(a, cb, inner, ok);
    case KernelEvent(scan, discovering, acts) => KernelNotes(a, scan, discovering, acts, ok);
    case _ =>
  }

  /** Throughout a run the framework is told in turn that discovery has started
      and stopped, and was told last what is the case, if and only if some type
      was supported at first and every event is harmless where it comes. */
  lemma {:induction false} InTurnIff(powered: bool, supported: Scan, evs: seq<Event>, ok: Kernel)
    ensures (forall k :: 0 <= k <= |evs| ==> InTurn(Run(powered, supported, evs[..k], ok)))
            <==> !supported.NoScan?
                 && (forall k :: 0 <= k < |evs| ==> Harmless(Run(powered, supported, evs[..k], ok), evs[k]))
    decreases |evs|
  {
    hide Step, Harmless, Run;
    assert evs[..|evs|] == evs;
    if evs == [] {
      FreshInTurn(powered, supported, ok);
    } else {
      var before := evs[..|evs| - 1];
      assert forall k :: 0 <= k <= |before| ==> before[..k] == evs[..k];
      InTurnIff(powered, supported, before, ok);
      RunStep(powered, supported, evs, ok);
      var a := Run(powered, supported, before, ok);
      assert before[..|before|] == before;
      if InTurn(a) { StepInTurn(a, evs[|evs| - 1], ok); }
    }
  }

  lemma FreshInTurn(powered: bool, supported: Scan, ok: Kernel)
    ensures InTurn(Run(powered, supported, [], ok)) <==> !supported.NoScan?
  {
  }

  lemma RunStep(powered: bool, supported: Scan, evs: seq<Event>, ok: Kernel)
    requires evs != []
    ensures Run(powered, supported, evs, ok) ==
            Step(Run(powered, supported, evs[..|evs| - 1], ok), evs[|evs| - 1], ok)
  {
  }

  lemma StepSupported(a: Adapter, ev: Event, ok: Kernel)
    requires !ev.Settings?
    ensures Step(a, ev, ok).supported == a.supported
  {
    hide LeStop, Ended;
    match ev
    case StopLeScan(cb, inner) => StopNotes(a, cb, inner, ok);
    case KernelEvent(scan, discovering, acts) => EndedNotes(Noted(a, NoScan).(cur := NoScan), acts, ok);
    case _ =>
  }

  /** So they are in turn while the supported types stay the same. */
  lemma {:induction false} NotesInTurn(powered: bool, supported: Scan, evs: seq<Event>, ok: Kernel)
    requires !supported.NoScan?
    requires forall i :: 0 <= i < |evs| && evs[i].Settings? ==> evs[i].supported == supported
    ensures var a := Run(powered, supported, evs, ok); a.supported == supported && InTurn(a)
    decreases |evs|
  {
    hide Step, InTurn;
    if evs != [] {
      var before, ev := evs[..|evs| - 1], evs[|evs| - 1];
      assert forall i :: 0 <= i < |before| ==> before[i] == evs[i];
      NotesInTurn(powered, supported, before, ok);
      RunStep(powered, supported, evs, ok);
      var a := Run(powered, supported, before, ok);
      StepInTurn(a, ev, ok);
      SettingsKeep(a, ev, ok);
    } else {
      FreshInTurn(powered, supported, ok);
    }
  }

  lemma SettingsKeep(a: Adapter, ev: Event, ok: Kernel)
    requires ev.Settings? ==> ev.supported == a.supported
    ensures Step(a, ev, ok).supported == a.supported
  {
    if !ev.Settings? { StepSupported(a, ev, ok); }
  }

  /** When the running scan ceases to be the one of all types, its end is never
      told. */
  lemma StopCanBeMissed(ok: Kernel)
    ensures var evs := [KernelEvent(Dual, true, Nothing), Settings(true, Bredr), KernelEvent(Dual, false, Nothing)];
            var a := Run(true, Dual, evs, ok);
            a.cur.NoScan? && a.notes == [Started]
  {
    var e0, e1, e2 := KernelEvent(Dual, true, Nothing), Settings(true, Bredr), KernelEvent(Dual, false, Nothing);
    assert [e0, e1, e2][..2] == [e0, e1] && [e0, e1][..1] == [e0] && [e0][..0] == [];
    var a0 := NewAdapter(true, Dual);
    assert Steps(a0, [e0], ok) == a0.(notes := [Started], cur := Dual);
    assert Steps(a0, [e0, e1], ok) == a0.(notes := [Started], cur := Dual, supported := Bredr);
  }

  // ------------------------------------------- a start command while LE scans

  /** A start command is accepted during an LE scan: the kernel is asked to stop
      that scan, and the scan of all types is to follow. */
  predicate StartTaken(a: Adapter, ev: Event, ok: Kernel) {
    ev.StartCmd? && a.powered && a.supported.Dual? && ok(a.sends)
  }

  /** GATT decides anew what is to follow. */
  predicate Overrides(a: Adapter, ev: Event, ok: Kernel) {
    || (ev.StartLeScan? && a.powered)
    || (ev.StopLeScan? && a.powered && HasLe(a.supported) && ok(a.sends))
  }

  /** Of such events the latest was an accepted start command; none but a
      command before them counts as event 0. */
  ghost predicate Waits(a: Adapter, evs: seq<Event>, ok: Kernel) {
    exists j :: Latest(a, evs, j, ok)
  }

  ghost predicate Latest(a: Adapter, evs: seq<Event>, j: nat, ok: Kernel) {
    && j <= |evs|
    && (if j == 0 then a.exp.Dual? else StartTaken(Steps(a, evs[..j - 1], ok), evs[j - 1], ok))
    && (forall k :: j <= k < |evs| ==> !Overrides(Steps(a, evs[..k], ok), evs[k], ok))
  }

  predicate EndsScan(ev: Event) { ev.KernelEvent? && !ev.discovering }

  lemma WaitsStep(a: Adapter, evs: seq<Event>, ok: Kernel)
    requires evs != []
    ensures var before, ev := evs[..|evs| - 1], evs[|evs| - 1];
            var b := Steps(a, before, ok);
            Waits(a, evs, ok) <==> StartTaken(b, ev, ok) || (Waits(a, before, ok) && !Overrides(b, ev, ok))
  {
    hide StartTaken, Overrides, Steps;
    var n := |evs| - 1;
    var before, ev := evs[..n], evs[n];
    var b := Steps(a, before, ok);
    assert forall k :: 0 <= k <= n ==> before[..k] == evs[..k];
    if StartTaken(b, ev, ok) { assert Latest(a, evs, n + 1, ok); }
    if Waits(a, before, ok) && !Overrides(b, ev, ok) {
      var j :| Latest(a, before, j, ok);
      assert Latest(a, evs, j, ok);
    }
    if Waits(a, evs, ok) && !StartTaken(b, ev, ok) {
      var j :| Latest(a, evs, j, ok);
      assert Latest(a, before, j, ok);
    }
  }

  /** While a scan runs, the scan of all types is expected only behind an LE
      scan. */
  predicate BehindLe(a: Adapter) { a.exp.Dual? ==> a.cur.Le? }

  lemma WaitingStep(a: Adapter, ev: Event, ok: Kernel)
    requires a.cur.Le? && !EndsScan(ev)
    ensures var a1 := Step(a, ev, ok);
            && a1.cur == a.cur && |a1.calls| >= |a.calls| && a1.calls[..|a.calls|] == a.calls
            && StartCall(Dual) !in a1.calls[|a.calls|..]
            && (a1.exp.Dual? <==> StartTaken(a, ev, ok) || (a.exp.Dual? && !Overrides(a, ev, ok)))
            && (StartTaken(a, ev, ok) <==> ev.StartCmd? && !a.supported.Le? && StartCommand(a, ok).1.Success?)
  {
  }

  lemma {:induction false} WaitingSteps(a: Adapter, evs: seq<Event>, ok: Kernel)
    requires a.cur.Le? && (forall k :: 0 <= k < |evs| ==> !EndsScan(evs[k]))
    ensures var b := Steps(a, evs, ok);
            && b.cur == a.cur && |b.calls| >= |a.calls| && StartCall(Dual) !in b.calls[|a.calls|..]
            && (b.exp.Dual? <==> Waits(a, evs, ok))
    decreases |evs|
  {
    hide Step, Overrides, StartTaken, Waits;
    if evs == [] {
      NothingYet(a, ok);
    } else {
      var before, ev := evs[..|evs| - 1], evs[|evs| - 1];
      WaitingSteps(a, before, ok);
      var b := Steps(a, before, ok);
      WaitingStep(b, ev, ok);
      var c := Step(b, ev, ok);
      WaitsStep(a, evs, ok);
      assert c.calls[|a.calls|..] == b.calls[|a.calls|..] + c.calls[|b.calls|..];
    }
  }

  /** While another scan runs, whatever a callback does. */
  ghost predicate Deaf(a: Adapter, a1: Adapter) {
    && a1.cur == a.cur && (a1.exp.Dual? ==> a.exp.Dual?)
    && |a1.calls| >= |a.calls| && a1.calls[..|a.calls|] == a.calls
    && StartCall(Dual) !in a1.calls[|a.calls|..]
  }

  lemma DeafTwice(a: Adapter, b: Adapter, c: Adapter)
    requires Deaf(a, b) && Deaf(b, c)
    ensures Deaf(a, c)
  {
    assert c.calls[..|b.calls|][..|a.calls|] == c.calls[..|a.calls|];
    assert c.calls[|a.calls|..] == b.calls[|a.calls|..] + c.calls[|b.calls|..];
  }

  lemma {:induction false} PerformDeaf(a: Adapter, acts: Acts, ok: Kernel)
    requires a.cur.Bredr? || a.cur.Dual?
    ensures Deaf(a, Perform(a, acts, ok))
    decreases acts, 0
  {
    match acts
    case Nothing =>
    case StartLe(rest) =>
      var a1 := LeStart(a, ok).0;
      PerformDeaf(a1, rest, ok);
      DeafTwice(a, a1, Perform(a1, rest, ok));
    case StopLe(cb, inner, rest) =>
      var a1 := LeStop(a, cb, inner, ok).0;
      StopDeaf(a, cb, inner, ok);
      PerformDeaf(a1, rest, ok);
      DeafTwice(a, a1, Perform(a1, rest, ok));
  }

  lemma {:induction false} StopDeaf(a: Adapter, cb: bool, acts: Acts, ok: Kernel)
    requires a.cur.Bredr? || a.cur.Dual?
    ensures Deaf(a, LeStop(a, cb, acts, ok).0)
    decreases acts, 1
  {
    PerformDeaf(Fire(a.(leScanning := false)), acts, ok);
  }

  lemma DeafStep(a: Adapter, ev: Event, ok: Kernel)
    requires (a.cur.Bredr? || a.cur.Dual?) && !EndsScan(ev)
    ensures Deaf(a, Step(a, ev, ok))
  {
    hide LeStop;
    if ev.StopLeScan? { StopDeaf(a, ev.cb, ev.inner, ok); }
  }

  lemma {:induction false} DeafSteps(a: Adapter, evs: seq<Event>, ok: Kernel)
    requires (a.cur.Bredr? || a.cur.Dual?) && (forall k :: 0 <= k < |evs| ==> !EndsScan(evs[k]))
    ensures Deaf(a, Steps(a, evs, ok))
    decreases |evs|
  {
    if evs != [] {
      hide Step;
      var before := evs[..|evs| - 1];
      DeafSteps(a, before, ok);
      DeafStep(Steps(a, before, ok), evs[|evs| - 1], ok);
      DeafTwice(a, Steps(a, before, ok), Steps(a, evs, ok));
    }
  }

  lemma StepBehindLe(a: Adapter, ev: Event, ok: Kernel)
    requires BehindLe(a)
    ensures BehindLe(Step(a, ev, ok))
  {
    hide LeStop, Ended, Idle, Deaf;
    if ev.StopLeScan? {
      StopBehindLe(a, ev.cb, ev.inner, ok);
    } else if EndsScan(ev) {
      EndBehindLe(Noted(a, NoScan).(cur := NoScan), ev.acts, ok);
    }
  }

  lemma StopBehindLe(a: Adapter, cb: bool, acts: Acts, ok: Kernel)
    requires BehindLe(a)
    ensures BehindLe(LeStop(a, cb, acts, ok).0)
  {
    if a.cur.NoScan? { StopIdle(a, cb, acts, ok); } else if !a.cur.Le? { StopDeaf(a, cb, acts, ok); }
  }

  lemma EndBehindLe(a: Adapter, acts: Acts, ok: Kernel)
    ensures BehindLe(Ended(a, acts, ok))
  {
    hide Stopping;
  }

  lemma {:induction false} AlwaysBehindLe(powered: bool, supported: Scan, evs: seq<Event>, ok: Kernel)
    ensures BehindLe(Run(powered, supported, evs, ok))
    decreases |evs|
  {
    hide Step;
    if evs != [] {
      AlwaysBehindLe(powered, supported, evs[..|evs| - 1], ok);
      StepBehindLe(Run(powered, supported, evs[..|evs| - 1], ok), evs[|evs| - 1], ok);
    }
  }

  lemma NothingYet(a: Adapter, ok: Kernel)
    ensures Waits(a, [], ok) <==> a.exp.Dual?
  {
    assert Latest(a, [], 0, ok) <==> a.exp.Dual?;
  }

  /** What an accepted start command during a scan comes to: whatever happens
      from any moment of any scan until the kernel reports its end, the scan of
      all types is started by then if and only if it is an LE scan, and GATT has
      neither started its scan once more nor had a stop accepted since the latest
      start command that asked the kernel to stop it. */
  lemma WaitingStart(powered: bool, supported: Scan, before: seq<Event>, evs: seq<Event>, scan: Scan, acts: Acts,
                     ok: Kernel)
    requires !Run(powered, supported, before, ok).cur.NoScan? && (forall k :: 0 <= k < |evs| ==> !EndsScan(evs[k]))
    ensures var a := Run(powered, supported, before, ok);
            var b := Steps(a, evs + [KernelEvent(scan, false, acts)], ok);
            && b.cur.NoScan? && |b.calls| >= |a.calls|
            && (StartCall(Dual) in b.calls[|a.calls|..] <==> a.cur.Le? && Waits(a, evs, ok))
  {
    hide Waits, EndsScan, Run, Steps, Discovering;
    AlwaysBehindLe(powered, supported, before, ok);
    WaitingFor(Run(powered, supported, before, ok), evs, scan, acts, ok);
  }

  lemma WaitingFor(a: Adapter, evs: seq<Event>, scan: Scan, acts: Acts, ok: Kernel)
    requires !a.cur.NoScan? && BehindLe(a) && (forall k :: 0 <= k < |evs| ==> !EndsScan(evs[k]))
    ensures var b := Steps(a, evs + [KernelEvent(scan, false, acts)], ok);
            && b.cur.NoScan? && |b.calls| >= |a.calls|
            && (StartCall(Dual) in b.calls[|a.calls|..] <==> a.cur.Le? && Waits(a, evs, ok))
  {
    hide Waits, EndsScan, Discovering, Steps;
    var b, d := Steps(a, evs, ok), Steps(a, evs + [KernelEvent(scan, false, acts)], ok);
    if a.cur.Le? { WaitingSteps(a, evs, ok); } else { DeafSteps(a, evs, ok); }
    StepsEnd(a, evs, scan, acts, ok);
    WaitingOver(b, scan, acts, ok);
    assert d.calls[|a.calls|..] == b.calls[|a.calls|..] + d.calls[|b.calls|..];
  }

  /** A cancel command makes no difference to that. */
  lemma CancelChangesNothing(a: Adapter, evs: seq<Event>, ok: Kernel)
    ensures Waits(a, evs + [CancelCmd], ok) <==> Waits(a, evs, ok)
  {
    hide Waits;
    assert (evs + [CancelCmd])[..|evs|] == evs;
    WaitsStep(a, evs + [CancelCmd], ok);
  }

  lemma StepsEnd(a: Adapter, evs: seq<Event>, scan: Scan, acts: Acts, ok: Kernel)
    ensures Steps(a, evs + [KernelEvent(scan, false, acts)], ok) ==
            Discovering(Steps(a, evs, ok), scan, false, acts, ok)
  {
    hide Discovering;
    assert (evs + [KernelEvent(scan, false, acts)])[..|evs|] == evs;
  }

  lemma WaitingOver(a: Adapter, scan: Scan, acts: Acts, ok: Kernel)
    requires !a.cur.NoScan?
    ensures var a1 := Discovering(a, scan, false, acts, ok);
            && a1.cur.NoScan? && |a1.calls| >= |a.calls| && a1.calls[..|a.calls|] == a.calls
            && (StartCall(Dual) in a1.calls[|a.calls|..] <==> a.exp.Dual?)
  {
    hide Ended;
    WaitingEnd(Noted(a, NoScan).(cur := NoScan), acts, ok);
  }

  lemma WaitingEnd(a: Adapter, acts: Acts, ok: Kernel)
    requires a.cur.NoScan?
    ensures var a1 := Ended(a, acts, ok);
            && a1.cur.NoScan? && |a1.calls| >= |a.calls| && a1.calls[..|a.calls|] == a.calls
            && (StartCall(Dual) in a1.calls[|a.calls|..] <==> a.exp.Dual?)
  {
    hide Stopping;
    StoppingIdle(a, acts, ok);
    var c, a1 := Stopping(a, acts, ok), Ended(a, acts, ok);
    if !a.exp.NoScan? {
      assert a1.calls[|a.calls|..] == c.calls[|a.calls|..] + [StartCall(a.exp)];
      assert a1.calls[..|a.calls|] == c.calls[..|a.calls|];
    }
  }

  /** So a start command can be answered with success and lost: GATT scans, the
      command comes, GATT starts its scan once more, and at the end no call
      starts the scan of all types. */
  lemma StartCanBeLost(ok: Kernel)
    requires ok(0) && ok(1)
    ensures var scanning := [StartLeScan, KernelEvent(Le, true, Nothing)];
            var a := Run(true, Dual, scanning, ok);
            var b := Run(true, Dual, scanning + [StartCmd, StartLeScan, KernelEvent(Le, false, Nothing)], ok);
            StartCommand(a, ok).1.Success? && b.cur.NoScan? && StartCall(Dual) !in b.calls
  {
    hide Waits;
    var scanning := [StartLeScan, KernelEvent(Le, true, Nothing)];
    var a := Run(true, Dual, scanning, ok);
    assert scanning[..1] == [StartLeScan] && [StartLeScan][..0] == [];
    var a0 := NewAdapter(true, Dual);
    assert Steps(a0, [StartLeScan], ok) == a0.(leScanning := true, calls := [StartCall(Le)], sends := 1);
    assert a == a0.(leScanning := true, calls := [StartCall(Le)], sends := 1, cur := Le, exp := Le);
    var e, f, g := StartCmd, StartLeScan, KernelEvent(Le, false, Nothing);
    assert scanning + [e, f, g] == scanning + [e] + [f] + [g];
    assert (scanning + [e])[..2] == scanning && (scanning + [e] + [f])[..3] == scanning + [e]
      && (scanning + [e] + [f] + [g])[..4] == scanning + [e] + [f];
    assert Steps(a0, scanning + [e], ok) == a.(exp := Dual, calls := [StartCall(Le), StopCall(Le)], sends := 2);
    assert Steps(a0, scanning + [e] + [f], ok) == a.(calls := [StartCall(Le), StopCall(Le)], sends := 2);
  }

  /** Or the scan of all types runs, a cancel command is accepted, then a start
      command, and when the scan ends no other one is started. */
  lemma StartAfterCancelLost(ok: Kernel)
    requires ok(0)
    ensures var scanning := [KernelEvent(Dual, true, Nothing)];
            var a := Run(true, Dual, scanning, ok);
            var a1 := Run(true, Dual, scanning + [CancelCmd], ok);
            var b := Run(true, Dual, scanning + [CancelCmd, StartCmd, KernelEvent(Dual, false, Nothing)], ok);
            && CancelCommand(a, ok).1.Success? && StartCommand(a1, ok).1.Success?
            && b.cur.NoScan? && b.calls == [StopCall(Dual)] && b.notes == [Started, Stopped]
  {
    var scanning := [KernelEvent(Dual, true, Nothing)];
    var a0 := NewAdapter(true, Dual);
    var e, f, g := CancelCmd, StartCmd, KernelEvent(Dual, false, Nothing);
    assert scanning[..0] == [];
    assert Steps(a0, scanning, ok) == a0.(notes := [Started], cur := Dual);
    assert scanning + [e, f, g] == scanning + [e] + [f] + [g];
    assert (scanning + [e])[..1] == scanning && (scanning + [e] + [f])[..2] == scanning + [e]
      && (scanning + [e] + [f] + [g])[..3] == scanning + [e] + [f];
    var c := a0.(notes := [Started], cur := Dual, calls := [StopCall(Dual)], sends := 1);
    assert Steps(a0, scanning + [e], ok) == c;
    assert Steps(a0, scanning + [e] + [f], ok) == c;
  }

  /** And a start command can be carried out after it was cancelled: LE scans,
      start and cancel are both accepted, and at the end the scan of all types
      is started. */
  lemma CancelCanBeLost(ok: Kernel)
    requires ok(0) && ok(1)
    ensures var scanning := [StartLeScan, KernelEvent(Le, true, Nothing)];
            var a := Run(true, Dual, scanning, ok);
            var a1 := Run(true, Dual, scanning + [StartCmd], ok);
            var b := Run(true, Dual, scanning + [StartCmd, CancelCmd, KernelEvent(Le, false, Nothing)], ok);
            && StartCommand(a, ok).1.Success? && CancelCommand(a1, ok).1.Success?
            && b.cur.NoScan? && b.calls == [StartCall(Le), StopCall(Le), StartCall(Dual)]
  {
    var scanning := [StartLeScan, KernelEvent(Le, true, Nothing)];
    var a0 := NewAdapter(true, Dual);
    assert scanning[..1] == [StartLeScan] && [StartLeScan][..0] == [];
    assert Steps(a0, [StartLeScan], ok) == a0.(leScanning := true, calls := [StartCall(Le)], sends := 1);
    var a := a0.(leScanning := true, calls := [StartCall(Le)], sends := 1, cur := Le, exp := Le);
    assert Steps(a0, scanning, ok) == a;
    var e, f, g := StartCmd, CancelCmd, KernelEvent(Le, false, Nothing);
    assert scanning + [e, f, g] == scanning + [e] + [f] + [g];
    assert (scanning + [e])[..2] == scanning && (scanning + [e] + [f])[..3] == scanning + [e]
      && (scanning + [e] + [f] + [g])[..4] == scanning + [e] + [f];
    var c := a.(exp := Dual, calls := [StartCall(Le), StopCall(Le)], sends := 2);
    assert Steps(a0, scanning + [e], ok) == c;
    assert Steps(a0, scanning + [e] + [f], ok) == c;
  }
}
