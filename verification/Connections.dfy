/** Connection accounting in my_platform.c: which devices are ready, and which of them the shared pointers
    name, after every callback of core 0 and every rumble that the input task or a timer asks for. */
module Connections {
  import opened Options

  /** What the platform asks of a device: a virtual child, a balance board, and whether it gets the
      periodic keep-alive report. */
  datatype Device = Device(id: nat, child: bool, board: bool, keepAlive: bool)

  /** The ready flags of the device instances and the statics. */
  datatype State = State(ready: set<Device>, readyCount: int, connected: bool,
                         bbDevice: Option<Device>, bbReady: bool, gpDevice: Option<Device>, gpReady: bool,
                         effectDevice: Option<Device>, keepaliveDevice: Option<Device>,
                         laserDevice: Option<Device>, rumbleDevice: Option<Device>)

  const NONE := State({}, 0, false, None, false, None, false, None, None, None, None)

  function Connected(s: State, d: Device): State {
    if d.child then s else s.(ready := s.ready - {d})
  }

  /** forget_ready_device. */
  function Forget(s: State, d: Device): State {
    var s1 := if s.bbDevice == Some(d) then s.(bbDevice := None, bbReady := false) else s;
    if s1.gpDevice == Some(d) then s1.(gpDevice := None, gpReady := false) else s1
  }

  /** One ready device less. */
  function Uncount(s: State, d: Device): State {
    if d !in s.ready then s
    else s.(ready := s.ready - {d}, readyCount := if s.readyCount > 0 then s.readyCount - 1 else s.readyCount)
  }

  function Unpoint(s: State, d: Device): State {
    var s1 := Forget(s, d);
    var s2 := if s1.effectDevice == Some(d) then s1.(effectDevice := None) else s1;
    if s2.keepaliveDevice == Some(d) then s2.(keepaliveDevice := None) else s2
  }

  function Disconnected(s: State, d: Device): State {
    if d.child then s
    else
      var s1 := Unpoint(Uncount(s, d), d);
      if s1.readyCount > 0 then s1.(connected := true) else s1.(connected := false, laserDevice := None)
  }

  function Ready(s: State, d: Device): State {
    if d.child then s
    else
      var first := s.readyCount == 0;
      var s1 := if d.board then s.(bbDevice := Some(d), bbReady := true) else s.(gpDevice := Some(d), gpReady := true);
      var s2 := s1.(ready := s1.ready + {d}, readyCount := s1.readyCount + 1, connected := true);
      var s3 := if !d.board || first then s2.(effectDevice := Some(d)) else s2;
      if !d.board && d.keepAlive then s3.(keepaliveDevice := Some(d)) else s3
  }

  /** laser_rumble_cb: the timer of the last shot. */
  function LaserDue(s: State): State {
    if s.laserDevice.None? then s else s.(laserDevice := None, rumbleDevice := s.laserDevice)
  }

  /** Fire and Rumble come from the input task, for the device of the report that it acts on. */
  datatype Event =
    | ConnectedEvent(d: Device) | ReadyEvent(d: Device) | DisconnectedEvent(d: Device)
    | Fire(d: Device) | Rumble(d: Device) | LaserTimer

  predicate OfDevice(ev: Event) { ev.ConnectedEvent? || ev.ReadyEvent? || ev.DisconnectedEvent? }

  function Step(s: State, ev: Event): State {
    match ev
    case Fire(d) => s.(laserDevice := Some(d))
    case Rumble(d) => s.(rumbleDevice := Some(d))
    case LaserTimer => LaserDue(s)
    case ConnectedEvent(d) => Connected(s, d)
    case ReadyEvent(d) => Ready(s, d)
    case DisconnectedEvent(d) => Disconnected(s, d)
  }

  function Run(events: seq<Event>): State
    decreases |events|
  {
    if events == [] then NONE else Step(Run(events[..|events| - 1]), events[|events| - 1])
  }

  // The life of a device: connected, at most once ready, disconnected. Shots and rumbles may come for any
  // device and at any moment: a report may still be queued, or be acted on, when its device is gone.

  /** Devices connected and not disconnected since, and those among them that became ready since. */
  function Linked(events: seq<Event>): set<Device>
    decreases |events|
  {
    if events == [] then {}
    else
      var before := Linked(events[..|events| - 1]);
      match events[|events| - 1]
      case ConnectedEvent(d) => if d.child then before else before + {d}
      case DisconnectedEvent(d) => before - {d}
      case _ => before
  }

  function ReadySince(events: seq<Event>): set<Device>
    decreases |events|
  {
    if events == [] then {}
    else
      var before := ReadySince(events[..|events| - 1]);
      match events[|events| - 1]
      case ReadyEvent(d) => if d.child then before else before + {d}
      case DisconnectedEvent(d) => before - {d}
      case _ => before
  }

  predicate Lives(events: seq<Event>)
    decreases |events|
  {
    events == []
    || (var before := events[..|events| - 1];
        Lives(before)
        && match events[|events| - 1]
           case ConnectedEvent(d) => d.child || d !in Linked(before)
           case ReadyEvent(d) => d.child || (d in Linked(before) && d !in ReadySince(before))
           case DisconnectedEvent(d) => d.child || d in Linked(before)
           case _ => true)
  }

  predicate Names(p: Option<Device>, devices: set<Device>) {
    p.Some? ==> p.value in devices
  }

  predicate PointersGood(s: State, devices: set<Device>) {
    && (s.bbReady <==> s.bbDevice.Some?) && (s.gpReady <==> s.gpDevice.Some?)
    && (s.bbDevice.Some? ==> s.bbDevice.value.board) && (s.gpDevice.Some? ==> !s.gpDevice.value.board)
    && Names(s.bbDevice, devices) && Names(s.gpDevice, devices)
    && Names(s.effectDevice, devices) && Names(s.keepaliveDevice, devices)
  }

  /** What every callback keeps. */
  predicate Inv(s: State, linked: set<Device>, readySince: set<Device>) {
    && readySince <= linked && s.ready == readySince && s.readyCount == |s.ready|
    && (s.connected <==> s.readyCount > 0)
    && PointersGood(s, s.ready)
  }

  lemma ReadyKeeps(s: State, d: Device, linked: set<Device>, readySince: set<Device>)
    requires Inv(s, linked, readySince) && !d.child && d in linked && d !in readySince
    ensures Inv(Ready(s, d), linked, readySince + {d})
  {
    assert |s.ready + {d}| == |s.ready| + 1;
  }

  lemma UnpointKeeps(s: State, d: Device, devices: set<Device>)
    requires PointersGood(s, devices)
    ensures PointersGood(Unpoint(s, d), devices - {d})
    ensures var r := Unpoint(s, d);
            && r.ready == s.ready && r.readyCount == s.readyCount && r.connected == s.connected
            && r.laserDevice == s.laserDevice
  {}

  lemma DisconnectedKeeps(s: State, d: Device, linked: set<Device>, readySince: set<Device>)
    requires Inv(s, linked, readySince) && !d.child && d in linked
    ensures Inv(Disconnected(s, d), linked - {d}, readySince - {d})
  {
    if d in s.ready {
      assert |s.ready - {d}| == |s.ready| - 1;
    } else {
      assert s.ready - {d} == s.ready;
    }
    hide Unpoint;
    UnpointKeeps(Uncount(s, d), d, s.ready);
    hide Names;
  }

  lemma ChildNeverLinked(events: seq<Event>, d: Device)
    requires d.child
    ensures d !in Linked(events) && d !in ReadySince(events)
    decreases |events|
  {
    if events != [] {
      ChildNeverLinked(events[..|events| - 1], d);
    }
  }

  /** Virtual children change nothing. */
  lemma ChildIgnored(s: State, ev: Event)
    requires OfDevice(ev) && ev.d.child
    ensures Step(s, ev) == s
  {}

  lemma {:induction false} AlwaysInv(events: seq<Event>)
    requires Lives(events)
    ensures Inv(Run(events), Linked(events), ReadySince(events))
    decreases |events|
  {
    if events != [] {
      var before, ev := events[..|events| - 1], events[|events| - 1];
      AlwaysInv(before);
      var s := Run(before);
      if OfDevice(ev) && ev.d.child {
        ChildIgnored(s, ev);
        ChildNeverLinked(before, ev.d);
        assert Linked(before) - {ev.d} == Linked(before) && ReadySince(before) - {ev.d} == ReadySince(before);
      } else {
        match ev
        case ConnectedEvent(d) =>
          assert s.ready - {d} == s.ready;
        case ReadyEvent(d) =>
          assert Lives(before) && d in Linked(before) && d !in ReadySince(before);
          ReadyKeeps(s, d, Linked(before), ReadySince(before));
        case DisconnectedEvent(d) => DisconnectedKeeps(s, d, Linked(before), ReadySince(before));
        case _ =>
      }
    }
  }

  /** After every callback the count is the number of ready devices, s_connected says whether there is
      one, and board, pad, effect and keep-alive pointer name only devices that are ready. */
  lemma Accounting(events: seq<Event>)
    requires Lives(events)
    ensures var s, ready := Run(events), ReadySince(events);
            && s.readyCount == |ready| && (s.connected <==> ready != {})
            && ready <= Linked(events)
            && PointersGood(s, ready)
  {
    AlwaysInv(events);
    hide Run, Linked, ReadySince, Lives;
  }

  // What a disconnection need not clear.

  /** The shot to rumble for came from a device that is not ready. */
  predicate Dangling(s: State) {
    s.laserDevice.Some? && s.laserDevice.value !in s.ready
  }

  /** Event j takes a shot off the books: another shot, the timer, or a disconnection that leaves no device
      ready. */
  predicate Settles(events: seq<Event>, j: nat)
    requires j < |events|
  {
    match events[j]
    case Fire(_) => true
    case LaserTimer => true
    case DisconnectedEvent(d) => !d.child && ReadySince(events[..j + 1]) == {}
    case _ => false
  }

  /** Event i is a shot, and still on the books. */
  predicate Pending(events: seq<Event>, i: nat) {
    i < |events| && events[i].Fire? && forall j: nat :: i < j < |events| ==> !Settles(events, j)
  }

  lemma SettlesBefore(events: seq<Event>, n: nat, j: nat)
    requires j < n <= |events|
    ensures Settles(events[..n], j) == Settles(events, j)
  {
    assert events[..n][..j + 1] == events[..j + 1];
  }

  /** What the last event does to the shots on the books. */
  lemma PendingLast(events: seq<Event>, i: nat)
    requires events != []
    ensures var n := |events| - 1;
            && (i < n ==> (Pending(events, i) <==> Pending(events[..n], i) && !Settles(events, n)))
            && (i == n ==> (Pending(events, i) <==> events[n].Fire?))
            && (i > n ==> !Pending(events, i))
  {
    var n := |events| - 1;
    hide Settles;
    forall j | 0 <= j < n
      ensures Settles(events[..n], j) == Settles(events, j)
    {
      SettlesBefore(events, n, j);
    }
  }

  /** laser_rumble_device names the device of the shot that is on the books, if there is one. */
  ghost predicate Books(events: seq<Event>) {
    match Run(events).laserDevice
    case None => forall i: nat :: !Pending(events, i)
    case Some(d) => exists i: nat :: Pending(events, i) && events[i].d == d
  }

  lemma DisconnectedShot(s: State, d: Device, linked: set<Device>, readySince: set<Device>)
    requires Inv(s, linked, readySince) && !d.child
    ensures Disconnected(s, d).laserDevice == if readySince - {d} == {} then None else s.laserDevice
  {
    var s1 := Uncount(s, d);
    if d in s.ready {
      assert |s.ready - {d}| == |s.ready| - 1;
    } else {
      assert s.ready - {d} == s.ready;
    }
    assert s1.readyCount == |s1.ready| && s1.ready == s.ready - {d};
    hide Unpoint;
    UnpointKeeps(s1, d, s.ready);
    hide PointersGood, Uncount;
  }

  /** laser_rumble_device after the last event. */
  lemma ShotStep(events: seq<Event>)
    requires Lives(events) && events != []
    ensures var n := |events| - 1;
            var p := Run(events[..n]).laserDevice;
            Run(events).laserDevice
            == if events[n].Fire? then Some(events[n].d) else if Settles(events, n) then None else p
  {
    var n := |events| - 1;
    var before, ev := events[..n], events[n];
    assert Lives(before) && events[..n + 1] == events;
    AlwaysInv(before);
    if ev.DisconnectedEvent? && !ev.d.child {
      DisconnectedShot(Run(before), ev.d, Linked(before), ReadySince(before));
      hide Disconnected, Inv;
    } else {
      hide Inv, Disconnected;
    }
  }

  lemma {:induction false} AlwaysBooked(events: seq<Event>)
    requires Lives(events)
    ensures Books(events)
    decreases |events|
  {
    if events != [] {
      var n := |events| - 1;
      var before := events[..n];
      AlwaysBooked(before);
      ShotStep(events);
      hide Run, Lives, Settles;
      forall i: nat
        ensures i < n ==> (Pending(events, i) <==> Pending(before, i) && !Settles(events, n))
        ensures i == n ==> (Pending(events, i) <==> events[n].Fire?)
        ensures i > n ==> !Pending(events, i)
      {
        PendingLast(events, i);
      }
      if Run(before).laserDevice.Some? && !events[n].Fire? && !Settles(events, n) {
        var i: nat :| Pending(before, i) && before[i].d == Run(before).laserDevice.value;
        assert Pending(events, i);
      }
      assert events[n].Fire? ==> Pending(events, n);
    }
  }

  /** laser_rumble_device names a device that is not ready exactly if a shot is on the books whose device is
      not ready: it went after the shot, or had gone before. */
  lemma DanglesExactly(events: seq<Event>)
    requires Lives(events)
    ensures Dangling(Run(events))
       <==> exists i: nat :: Pending(events, i) && events[i].d !in ReadySince(events)
  {
    AlwaysInv(events);
    AlwaysBooked(events);
    assert Run(events).ready == ReadySince(events);
    hide Run, Lives, Settles, Inv, ReadySince;
    if exists i: nat :: Pending(events, i) && events[i].d !in ReadySince(events) {
      var i: nat :| Pending(events, i) && events[i].d !in ReadySince(events);
      var k: nat :| Pending(events, k) && events[k].d == Run(events).laserDevice.value;
      OnePending(events, i, k);
    }
  }

  lemma ShotSettles(events: seq<Event>, j: nat)
    requires Pending(events, j)
    ensures Settles(events, j)
  {}

  lemma OnePending(events: seq<Event>, i: nat, k: nat)
    requires Pending(events, i) && Pending(events, k)
    ensures i == k
  {
    ShotSettles(events, i);
    ShotSettles(events, k);
  }

  lemma OneMore(events: seq<Event>, ev: Event)
    ensures Run(events + [ev]) == Step(Run(events), ev)
    ensures ev.ConnectedEvent? && !ev.d.child ==>
              Linked(events + [ev]) == Linked(events) + {ev.d} && ReadySince(events + [ev]) == ReadySince(events)
    ensures ev.ReadyEvent? && !ev.d.child ==>
              Linked(events + [ev]) == Linked(events) && ReadySince(events + [ev]) == ReadySince(events) + {ev.d}
    ensures Lives(events) && ev.ConnectedEvent? && ev.d !in Linked(events) ==> Lives(events + [ev])
    ensures Lives(events) && ev.ReadyEvent? && ev.d in Linked(events) && ev.d !in ReadySince(events) ==>
              Lives(events + [ev])
    ensures Lives(events) && ev.Fire? ==> Lives(events + [ev]) && Linked(events + [ev]) == Linked(events)
    ensures Lives(events) && ev.DisconnectedEvent? && ev.d in Linked(events) ==> Lives(events + [ev])
    ensures Lives(events) && ev.LaserTimer? ==> Lives(events + [ev])
  {
    assert (events + [ev])[..|events|] == events;
    hide Step;
  }

  /** What becomes of it: the timer hands the device that is gone on to the rumble that core 0 is asked for. */
  lemma GoneDeviceRumbles(a: Device, b: Device)
    requires a != b && !a.child && !b.child
    ensures exists events :: Lives(events) && Dangling(Run(events))
              && Lives(events + [LaserTimer])
              && Run(events + [LaserTimer]).rumbleDevice == Some(a) && a !in Run(events + [LaserTimer]).ready
  {
    var e1 := [] + [ConnectedEvent(a)];
    var e2 := e1 + [ConnectedEvent(b)];
    var e3 := e2 + [ReadyEvent(a)];
    var e4 := e3 + [ReadyEvent(b)];
    var e5 := e4 + [Fire(a)];
    var e6 := e5 + [DisconnectedEvent(a)];
    assert Run([]) == NONE && Lives([]) && Linked([]) == {} && ReadySince([]) == {};
    hide Run, Lives, Linked, ReadySince;
    OneMore([], ConnectedEvent(a));
    OneMore(e1, ConnectedEvent(b));
    OneMore(e2, ReadyEvent(a));
    OneMore(e3, ReadyEvent(b));
    OneMore(e4, Fire(a));
    OneMore(e5, DisconnectedEvent(a));
    OneMore(e6, LaserTimer);
    assert Run(e4).ready == {a, b} && Run(e4).readyCount == 2;
    assert Run(e6).laserDevice == Some(a) && Run(e6).ready == {b};
  }

  /** A shot of the round under way, after the only device has gone: laser_rumble_device names it with nothing
      connected, and the timer, running again, still has the device rumble. */
  lemma ShotAfterTheLast(a: Device)
    requires !a.child
    ensures exists events :: Lives(events) && Dangling(Run(events)) && !Run(events).connected
              && Lives(events + [LaserTimer])
              && Run(events + [LaserTimer]).rumbleDevice == Some(a) && Run(events + [LaserTimer]).ready == {}
  {
    var e1 := [] + [ConnectedEvent(a)];
    var e2 := e1 + [ReadyEvent(a)];
    var e3 := e2 + [DisconnectedEvent(a)];
    var e4 := e3 + [Fire(a)];
    assert Run([]) == NONE && Lives([]) && Linked([]) == {} && ReadySince([]) == {};
    hide Run, Lives, Linked, ReadySince;
    OneMore([], ConnectedEvent(a));
    OneMore(e1, ReadyEvent(a));
    OneMore(e2, DisconnectedEvent(a));
    OneMore(e3, Fire(a));
    OneMore(e4, LaserTimer);
    assert Run(e2).ready == {a} && Run(e2).readyCount == 1;
    assert Run(e4).laserDevice == Some(a) && Run(e4).ready == {};
  }

  // The callbacks as the program runs them.

  class Platform {
    var ready: set<Device>
    var readyCount: int
    var connected: bool
    var bbDevice: Option<Device>
    var bbReady: bool
    var gpDevice: Option<Device>
    var gpReady: bool
    var effectDevice: Option<Device>
    var keepaliveDevice: Option<Device>
    var laserDevice: Option<Device>
    var rumbleDevice: Option<Device>

    function View(): State
      reads this
    {
      State(ready, readyCount, connected, bbDevice, bbReady, gpDevice, gpReady, effectDevice, keepaliveDevice,
            laserDevice, rumbleDevice)
    }

    constructor ()
      ensures View() == NONE
    {
      ready, readyCount, connected := {}, 0, false;
      bbDevice, bbReady, gpDevice, gpReady := None, false, None, false;
      effectDevice, keepaliveDevice, laserDevice, rumbleDevice := None, None, None, None;
    }

    method OnDeviceConnected(d: Device)
      modifies this
      ensures View() == Connected(old(View()), d)
    {
      if d.child {
        return;
      }
      ready := ready - {d};
    }

    method ForgetReadyDevice(d: Device)
      modifies this
      ensures View() == Forget(old(View()), d)
    {
      if bbDevice == Some(d) {
        bbDevice, bbReady := None, false;
      }
      if gpDevice == Some(d) {
        gpDevice, gpReady := None, false;
      }
    }

    method ForgetDevice(d: Device)
      modifies this
      ensures View() == Unpoint(old(View()), d)
    {
      ForgetReadyDevice(d);
      hide Forget;
      if effectDevice == Some(d) {
        effectDevice := None;
      }
      if keepaliveDevice == Some(d) {
        keepaliveDevice := None;
      }
    }

    method UncountDevice(d: Device)
      modifies this
      ensures View() == Uncount(old(View()), d)
    {
      if d in ready {
        ready := ready - {d};
        if readyCount > 0 {
          readyCount := readyCount - 1;
        }
      }
    }

    method OnDeviceDisconnected(d: Device)
      modifies this
      ensures View() == Disconnected(old(View()), d)
    {
      if d.child {
        return;
      }
      UncountDevice(d);
      ForgetDevice(d);
      hide Unpoint, Uncount;
      if readyCount > 0 {
        connected := true;
        return;
      }
      connected := false;
      laserDevice := None;
    }

    method LaserRumbleDue()
      modifies `laserDevice, `rumbleDevice
      ensures View() == LaserDue(old(View()))
    {
      var d := laserDevice;
      laserDevice := None;
      if d != None {
        rumbleDevice := d;
      }
    }

    method OnDeviceReady(d: Device) returns (accepted: bool)
      modifies this
      ensures accepted == !d.child && View() == Ready(old(View()), d)
    {
      if d.child {
        return false;
      }
      var first := readyCount == 0;
      if d.board {
        bbDevice, bbReady := Some(d), true;
      } else {
        gpDevice, gpReady := Some(d), true;
      }
      ready := ready + {d};
      readyCount := readyCount + 1;
      connected := true;
      if !d.board || first {
        effectDevice := Some(d);
      }
      if !d.board && d.keepAlive {
        keepaliveDevice := Some(d);
      }
      return true;
    }
  }
}
