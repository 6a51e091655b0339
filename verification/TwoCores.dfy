/** The input loop of my_platform.c on core 1 and everything that runs beside it: the callbacks of core 0
    and the wheel test task. They share s_connected, the wheel test flags and the wheels without locks, so
    every access to one of these is a step of its own, and the steps interleave freely. */
module TwoCores {
  import W = WheelTest

  /** Where the loop of input_process_task is; got says whether this round has received a report. */
  datatype Place =
    | Receive | ReadConnected(got: bool)
    | TickCheck(got: bool) | TickStop(got: bool) | Recheck(got: bool) | Resume(got: bool)
    | CheckInput(got: bool) | CheckAgain
    | StartTest | ReadHandle | ClearCancel | Create
    | DriveCheck | DriveWrite
    | FailCancel | FailStop

  /** calm counts what the loop has done since the connection went away: 0 while a round begun before
      that may be under way, 1 in the first round begun after it, 2 once that round is complete. */
  datatype State = State(connected: bool, place: Place, exhibitRunning: bool, failsafeActive: bool,
                         test: W.State, calm: nat)

  const BOOT := State(false, Receive, false, true, W.IDLE, 0)

  function SetWheels(s: State, c: W.Command): State {
    s.(test := s.test.(wheels := c))
  }

  /** The next round of the loop. */
  function Again(s: State): State {
    s.(place := Receive, calm := if s.calm == 1 then 2 else s.calm)
  }

  /** What a step of core 1 finds outside the shared flags: a report in the queue, one that is too old,
      the buttons of the wheel test held long enough, and the wheel command that the sticks ask for. */
  datatype Inputs = Inputs(got: bool, stale: bool, testHeld: bool, drive: W.Command)

  /** A new task: W.Start without its reads and writes of the flags. */
  function Created(w: W.State): W.State {
    W.State(W.Entry, w.cancel, w.active, true, [], 0, w.wheels)
  }

  /** A round up to the point where the connection is known to be up. */
  function Begun(s: State, i: Inputs): State {
    match s.place
    case Receive =>
      s.(place := ReadConnected(i.got), calm := if !s.connected && s.calm == 0 then 1 else s.calm)
    case ReadConnected(got) =>
      if s.connected then s.(place := Resume(got))
      else s.(failsafeActive := true, exhibitRunning := true, place := TickCheck(got))
    case TickCheck(got) => s.(place := if s.connected then Recheck(got) else TickStop(got))
    case TickStop(got) => SetWheels(s, W.ZERO).(place := Recheck(got))
    case Recheck(got) => if s.connected then s.(place := Resume(got)) else Again(s)
    case Resume(got) =>
      (if s.exhibitRunning then SetWheels(s, W.ZERO).(exhibitRunning := false) else s).(place := CheckInput(got))
    case _ => s
  }

  /** The rest of it. */
  function ActedOn(s: State, i: Inputs): State {
    match s.place
    case CheckInput(got) =>
      if i.stale then if s.failsafeActive then Again(s) else s.(place := FailCancel)
      else if !got then Again(s)
      else s.(place := CheckAgain)
    case CheckAgain =>
      if s.connected then s.(failsafeActive := false, place := StartTest)
      else if s.failsafeActive then Again(s)
      else s.(place := FailCancel)
    case StartTest => s.(place := if i.testHeld && !s.test.active then ReadHandle else DriveCheck)
    case ReadHandle => s.(place := if s.test.handle then DriveCheck else ClearCancel)
    case ClearCancel => s.(test := s.test.(cancel := false), place := Create)
    case Create => s.(test := Created(s.test), place := DriveCheck)
    case DriveCheck => if s.test.active then Again(s) else s.(place := DriveWrite)
    case DriveWrite => Again(SetWheels(s, i.drive))
    case FailCancel => s.(test := s.test.(cancel := true), place := FailStop)
    case FailStop => Again(SetWheels(s, W.ZERO).(failsafeActive := true))
    case _ => s
  }

  predicate Opening(p: Place) {
    p.Receive? || p.ReadConnected? || p.TickCheck? || p.TickStop? || p.Recheck? || p.Resume?
  }

  function LoopStep(s: State, i: Inputs): State {
    if Opening(s.place) then Begun(s, i) else ActedOn(s, i)
  }

  /** The callbacks of core 0, cut into their accesses to what is shared, in any order. */
  datatype Event =
    | Loop(inputs: Inputs) | TestTask
    | DeviceReady | AllGone | CancelTest | StopWheels

  function Step(t: W.Timing, s: State, ev: Event): State
    requires W.GoodTiming(t)
  {
    match ev
    case Loop(inputs) => LoopStep(s, inputs)
    case TestTask => s.(test := W.TaskStep(t, s.test))
    case DeviceReady => s.(connected := true, calm := 0)
    case AllGone => s.(connected := false)
    case CancelTest => s.(test := s.test.(cancel := true))
    case StopWheels => SetWheels(s, W.ZERO)
  }

  function Run(t: W.Timing, events: seq<Event>): State
    requires W.GoodTiming(t)
    decreases |events|
  {
    if events == [] then BOOT else Step(t, Run(t, events[..|events| - 1]), events[|events| - 1])
  }

  /** The wheel test has no command left to give: all wheels stand unless someone else drives. */
  predicate TestOver(w: W.State) {
    w.place.Deactivate? || w.place.ClearHandle? || w.place.Ended?
  }

  predicate Stopped(s: State) {
    TestOver(s.test) ==> s.test.wheels == W.ZERO
  }

  predicate CalmPlace(p: Place) {
    p.Receive? || p.ReadConnected? || p.TickCheck? || p.TickStop? || p.Recheck?
  }

  /** While the connection stays away: the first whole round without it stops the wheels. */
  predicate CalmKept(s: State) {
    && s.calm <= 2
    && (s.calm > 0 ==> !s.connected && CalmPlace(s.place))
    && (s.calm == 1 ==> !s.place.Receive? && (s.place.Recheck? ==> Stopped(s)))
    && (s.calm == 2 ==> Stopped(s))
  }

  /** A report is being acted on. */
  predicate Acting(p: Place) {
    p.StartTest? || p.ReadHandle? || p.ClearCancel? || p.Create? || p.DriveCheck? || p.DriveWrite?
  }

  /** While the failsafe is on the wheels stand, or the exhibit runs and will stop them: in its next tick,
      or when it is aborted. */
  predicate FailsafeKept(s: State) {
    && (s.failsafeActive ==> Stopped(s) || s.exhibitRunning)
    && (s.exhibitRunning ==> s.failsafeActive && (CalmPlace(s.place) || s.place.Resume?))
    && (s.place.FailCancel? || s.place.FailStop? || Acting(s.place) ==> !s.failsafeActive)
  }

  /** The flags of the test task. */
  predicate FlagsKept(w: W.State) {
    (w.handle <==> !w.place.Ended?) && (w.place.ClearHandle? || w.place.Ended? ==> !w.active)
  }

  /** What every step keeps. */
  predicate Inv(s: State) {
    CalmKept(s) && FailsafeKept(s) && FlagsKept(s.test)
  }

  lemma TestKeeps(t: W.Timing, w: W.State)
    requires W.GoodTiming(t) && FlagsKept(w)
    ensures var w1 := W.TaskStep(t, w);
            && FlagsKept(w1)
            && (TestOver(w1) ==> w1.wheels == W.ZERO || (TestOver(w) && w1.wheels == w.wheels))
  {
    hide W.Wait;
  }

  lemma LoopKeepsCalm(s: State, i: Inputs)
    requires Inv(s)
    ensures CalmKept(LoopStep(s, i))
  {
    if Opening(s.place) {
      hide ActedOn;
    } else {
      hide Begun;
    }
  }

  lemma LoopKeepsFailsafe(s: State, i: Inputs)
    requires Inv(s)
    ensures FailsafeKept(LoopStep(s, i))
  {
    if Opening(s.place) {
      hide ActedOn;
    } else {
      hide Begun;
    }
  }

  lemma LoopKeepsFlags(s: State, i: Inputs)
    requires Inv(s)
    ensures FlagsKept(LoopStep(s, i).test)
  {
    if Opening(s.place) {
      hide ActedOn;
    } else {
      hide Begun;
    }
  }

  lemma StepKeeps(t: W.Timing, s: State, ev: Event)
    requires W.GoodTiming(t) && Inv(s)
    ensures Inv(Step(t, s, ev))
  {
    hide W.TaskStep, LoopStep;
    match ev
    case Loop(i) =>
      LoopKeepsCalm(s, i);
      LoopKeepsFailsafe(s, i);
      LoopKeepsFlags(s, i);
    case TestTask => TestKeeps(t, s.test);
    case _ =>
  }

  lemma {:induction false} Always(t: W.Timing, events: seq<Event>)
    requires W.GoodTiming(t)
    ensures Inv(Run(t, events))
    decreases |events|
  {
    if events != [] {
      Always(t, events[..|events| - 1]);
      StepKeeps(t, Run(t, events[..|events| - 1]), events[|events| - 1]);
      hide Step, Inv;
    }
  }

  /** In every interleaving: once the connection has stayed away through one whole round of the loop and
      the wheel test is over, all wheels stand. */
  lemma WheelsStand(t: W.Timing, events: seq<Event>)
    requires W.GoodTiming(t)
    ensures var s := Run(t, events); s.calm == 2 && s.test.place.Ended? ==> s.test.wheels == W.ZERO
  {
    Always(t, events);
    hide Run;
  }

  lemma RunMore(t: W.Timing, events: seq<Event>, ev: Event)
    requires W.GoodTiming(t)
    ensures Run(t, events + [ev]) == Step(t, Run(t, events), ev)
  {
    assert (events + [ev])[..|events|] == events;
  }

  predicate NoDeviceReady(events: seq<Event>) {
    forall i :: 0 <= i < |events| ==> !events[i].DeviceReady?
  }

  lemma LastOfMore(t: W.Timing, events: seq<Event>, more: seq<Event>)
    requires W.GoodTiming(t) && more != [] && NoDeviceReady(more)
    ensures var n := |more| - 1;
            && NoDeviceReady(more[..n]) && !more[n].DeviceReady?
            && Run(t, events + more) == Step(t, Run(t, events + more[..n]), more[n])
  {
    var n := |more| - 1;
    assert events + more == (events + more[..n]) + [more[n]];
    RunMore(t, events + more[..n], more[n]);
  }

  lemma CalmStep(t: W.Timing, s: State, ev: Event)
    requires W.GoodTiming(t) && Inv(s) && s.calm == 2 && !ev.DeviceReady?
    ensures var r := Step(t, s, ev); r.calm == 2 && (s.test.place.Ended? ==> r.test.place.Ended?)
  {}

  /** And that stays so, with no wheel test starting, whatever happens, until a device becomes ready. */
  lemma {:induction false} StaysCalm(t: W.Timing, events: seq<Event>, more: seq<Event>)
    requires W.GoodTiming(t) && Run(t, events).calm == 2 && NoDeviceReady(more)
    ensures var s, r := Run(t, events), Run(t, events + more);
            && r.calm == 2 && !r.connected
            && (s.test.place.Ended? ==> r.test.place.Ended? && r.test.wheels == W.ZERO)
    decreases |more|
  {
    hide Run, Step, Inv, NoDeviceReady;
    if more == [] {
      assert events + more == events;
    } else {
      var n := |more| - 1;
      LastOfMore(t, events, more);
      StaysCalm(t, events, more[..n]);
      Always(t, events + more[..n]);
      CalmStep(t, Run(t, events + more[..n]), more[n]);
    }
    WheelsStand(t, events + more);
    CalmUnconnected(t, events + more);
  }

  lemma CalmUnconnected(t: W.Timing, events: seq<Event>)
    requires W.GoodTiming(t)
    ensures Run(t, events).calm > 0 ==> !Run(t, events).connected
  {
    Always(t, events);
    hide Run;
  }

  /** With the failsafe on, and no exhibit running, the wheels stand as well. */
  lemma FailsafeStands(t: W.Timing, events: seq<Event>)
    requires W.GoodTiming(t)
    ensures var s := Run(t, events);
            s.failsafeActive && !s.exhibitRunning && s.test.place.Ended? ==> s.test.wheels == W.ZERO
  {
    Always(t, events);
    hide Run;
  }

  // What the stop of a callback does not reach.

  ghost predicate Reachable(t: W.Timing, s: State)
    requires W.GoodTiming(t)
  {
    exists events :: Run(t, events) == s
  }

  lemma ReachStep(t: W.Timing, s: State, ev: Event)
    requires W.GoodTiming(t) && Reachable(t, s)
    ensures Reachable(t, Step(t, s, ev))
  {
    var events :| Run(t, events) == s;
    RunMore(t, events, ev);
  }

  /** A report being acted on, with the connection up. */
  function InRound(place: Place): State {
    State(true, place, false, false, W.IDLE, 0)
  }

  lemma ReachStartTest(t: W.Timing, i: Inputs)
    requires W.GoodTiming(t) && i.got && !i.stale
    ensures Reachable(t, InRound(StartTest))
  {
    var s0 := BOOT.(connected := true);
    assert Run(t, []) == BOOT;
    hide Run;
    ReachStep(t, BOOT, DeviceReady);
    ReachStep(t, s0, Loop(i));
    ReachStep(t, s0.(place := ReadConnected(true)), Loop(i));
    ReachStep(t, s0.(place := Resume(true)), Loop(i));
    ReachStep(t, s0.(place := CheckInput(true)), Loop(i));
    ReachStep(t, s0.(place := CheckAgain), Loop(i));
  }

  /** The connection goes away, and the callback stops everything. */
  lemma ReachStopped(t: W.Timing, place: Place)
    requires W.GoodTiming(t) && Reachable(t, InRound(place))
    ensures Reachable(t, State(false, place, false, false, W.IDLE.(cancel := true), 0))
  {
    var s := InRound(place);
    hide Run;
    ReachStep(t, s, AllGone);
    ReachStep(t, s.(connected := false), CancelTest);
    ReachStep(t, s.(connected := false, test := W.IDLE.(cancel := true)), StopWheels);
  }

  /** Less than a whole round is not enough: a round under way may apply a late sample after the callback
      has stopped everything. */
  lemma LateSample(t: W.Timing, c: W.Command)
    requires W.GoodTiming(t)
    ensures exists s :: Reachable(t, s) && !s.connected && s.test.cancel && s.test.place.Ended? && s.test.wheels == c
  {
    var i := Inputs(true, false, false, c);
    hide Run, Reachable;
    ReachStartTest(t, i);
    ReachStep(t, InRound(StartTest), Loop(i));
    ReachStep(t, InRound(DriveCheck), Loop(i));
    ReachStopped(t, DriveWrite);
    var s := State(false, DriveWrite, false, false, W.IDLE.(cancel := true), 0);
    ReachStep(t, s, Loop(i));
    assert Reachable(t, Step(t, s, Loop(i)));
  }

  /** A whole round is not enough either while a wheel test is starting: the round under way clears the
      stop again, and the test spins its first wheel although the connection has long been gone. */
  lemma StopUndone(t: W.Timing)
    requires W.GoodTiming(t)
    ensures exists s :: Reachable(t, s) && s.calm == 2 && !s.connected && !s.test.cancel
                     && s.test.wheels == W.Single(0, W.SPEED)
  {
    var i := Inputs(true, false, true, W.ZERO);
    hide Run, Reachable;
    ReachStartTest(t, i);
    ReachStep(t, InRound(StartTest), Loop(i));
    ReachStep(t, InRound(ReadHandle), Loop(i));
    ReachStopped(t, ClearCancel);
    var s := State(false, ClearCancel, false, false, W.IDLE.(cancel := true), 0);
    ReachStep(t, s, Loop(i));
    var w := Created(W.IDLE);
    ReachStep(t, s.(test := W.IDLE, place := Create), Loop(i));
    ReachStep(t, s.(test := w, place := DriveCheck), Loop(i));
    ReachStep(t, s.(test := w, place := DriveWrite), Loop(i));
    ReachCalm(t, s.(test := w, place := Receive), i);
    var c := State(false, Receive, true, true, w, 2);
    ReachStep(t, c, TestTask);
    ReachStep(t, c.(test := w.(place := W.PassCheck(0), active := true)), TestTask);
    ReachStep(t, c.(test := w.(place := W.WheelCheck(0, 0), active := true)), TestTask);
    var last := c.(test := w.(place := W.Spin(0, 0), active := true));
    ReachStep(t, last, TestTask);
    assert Reachable(t, Step(t, last, TestTask));
  }

  /** A whole round without the connection. */
  lemma ReachCalm(t: W.Timing, s: State, i: Inputs)
    requires W.GoodTiming(t) && i.got && Reachable(t, s)
    requires !s.connected && s.place.Receive? && s.calm == 0 && s.test.wheels == W.ZERO
    ensures Reachable(t, s.(calm := 2, exhibitRunning := true, failsafeActive := true))
  {
    hide Run, Reachable;
    var r := s.(calm := 1, exhibitRunning := true, failsafeActive := true);
    ReachStep(t, s, Loop(i));
    ReachStep(t, s.(calm := 1, place := ReadConnected(true)), Loop(i));
    ReachStep(t, r.(place := TickCheck(true)), Loop(i));
    ReachStep(t, r.(place := TickStop(true)), Loop(i));
    ReachStep(t, r.(place := Recheck(true)), Loop(i));
    assert SetWheels(s, W.ZERO) == s;
  }
}
