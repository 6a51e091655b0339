/** When a stop is final: what a disconnection can rely on once it has cancelled the wheel test and stopped the
    wheels, depending on where the loop of the other core is at that moment. */
module FinalStop {
  import opened TwoCores
  import W = WheelTest

  function TaskEvents(events: seq<Event>): nat {
    if events == [] then 0
    else TaskEvents(events[..|events| - 1]) + if events[|events| - 1].TestTask? then 1 else 0
  }

  /** A wheel test is being started. */
  predicate Starting(p: Place) { p.StartTest? || p.ReadHandle? || p.ClearCancel? }

  // Where the stop holds.

  /** The cancel flag is set, and nobody is about to clear it. */
  predicate StaysCancelled(s: State) {
    !s.connected && s.test.cancel && !Starting(s.place)
  }

  /** The test has six steps left at most, less those it has taken. */
  predicate Ending(s: State, taken: nat) {
    && StaysCancelled(s) && !s.place.Create?
    && (s.test.place.Ended? || W.CancelledLeft(s.test.place) + taken <= 6)
  }

  /** Nobody is about to drive. */
  predicate StaysStopped(s: State) {
    !s.connected && !Acting(s.place) && Stopped(s)
  }

  lemma LeftFalls(t: W.Timing, w: W.State)
    requires W.GoodTiming(t) && w.cancel
    ensures var w1 := W.TaskStep(t, w);
            w1.cancel && (w.place.Ended? ==> w1 == w)
            && (!w.place.Ended? ==> W.CancelledLeft(w1.place) < W.CancelledLeft(w.place))
            && W.CancelledLeft(w.place) <= 6
  {}

  lemma LoopHolds(s: State, i: Inputs)
    requires Inv(s)
    ensures StaysCancelled(s) ==> StaysCancelled(LoopStep(s, i))
    ensures StaysCancelled(s) && !s.place.Create? ==>
              !LoopStep(s, i).place.Create? && LoopStep(s, i).test.place == s.test.place
  {
    if Opening(s.place) {
      hide ActedOn;
    } else {
      hide Begun;
    }
  }

  lemma LoopStands(s: State, i: Inputs)
    requires Inv(s)
    ensures StaysStopped(s) ==> StaysStopped(LoopStep(s, i))
  {
    if Opening(s.place) {
      hide ActedOn;
    } else {
      hide Begun;
    }
  }

  lemma HoldsStep(t: W.Timing, s: State, ev: Event, taken: nat)
    requires W.GoodTiming(t) && Inv(s) && !ev.DeviceReady?
    ensures StaysCancelled(s) ==> StaysCancelled(Step(t, s, ev))
    ensures Ending(s, taken) ==> Ending(Step(t, s, ev), taken + if ev.TestTask? then 1 else 0)
    ensures StaysStopped(s) ==> StaysStopped(Step(t, s, ev))
  {
    match ev
    case Loop(i) =>
      LoopHolds(s, i);
      LoopStands(s, i);
    case TestTask =>
      TestKeeps(t, s.test);
      if s.test.cancel {
        LeftFalls(t, s.test);
      }
    case _ =>
    hide W.TaskStep, LoopStep, W.CancelledLeft;
  }

  lemma {:induction false} HoldsOn(t: W.Timing, events: seq<Event>, more: seq<Event>)
    requires W.GoodTiming(t) && NoDeviceReady(more)
    ensures var s, r := Run(t, events), Run(t, events + more);
            && (StaysCancelled(s) ==> StaysCancelled(r))
            && (Ending(s, 0) ==> Ending(r, TaskEvents(more)))
            && (StaysStopped(s) ==> StaysStopped(r))
    decreases |more|
  {
    hide Run, Step, Inv, NoDeviceReady, StaysCancelled, Ending, StaysStopped;
    if more == [] {
      assert events + more == events;
    } else {
      var n := |more| - 1;
      LastOfMore(t, events, more);
      HoldsOn(t, events, more[..n]);
      Always(t, events + more[..n]);
      HoldsStep(t, Run(t, events + more[..n]), more[n], TaskEvents(more[..n]));
    }
  }

  // Where it does not.

  /** After the events, more of them, n steps of the test task among these and no device becoming ready, lead to r. */
  ghost predicate Leads(t: W.Timing, events: seq<Event>, n: nat, r: State)
    requires W.GoodTiming(t)
  {
    exists more :: NoDeviceReady(more) && TaskEvents(more) == n && Run(t, events + more) == r
  }

  lemma Led(t: W.Timing, events: seq<Event>, n: nat, r: State) returns (more: seq<Event>)
    requires W.GoodTiming(t) && Leads(t, events, n, r)
    ensures NoDeviceReady(more) && TaskEvents(more) == n && Run(t, events + more) == r
  {
    more :| NoDeviceReady(more) && TaskEvents(more) == n && Run(t, events + more) == r;
  }

  lemma LeadsHere(t: W.Timing, events: seq<Event>)
    requires W.GoodTiming(t)
    ensures Leads(t, events, 0, Run(t, events))
  {
    assert events + [] == events && TaskEvents([]) == 0 && NoDeviceReady([]);
    hide Run;
  }

  lemma LeadsBy(t: W.Timing, events: seq<Event>, more: seq<Event>)
    requires W.GoodTiming(t) && NoDeviceReady(more)
    ensures Leads(t, events, TaskEvents(more), Run(t, events + more))
  {
    hide Run, TaskEvents, NoDeviceReady;
  }

  lemma OneMore(more: seq<Event>, ev: Event)
    requires NoDeviceReady(more) && !ev.DeviceReady?
    ensures NoDeviceReady(more + [ev]) && TaskEvents(more + [ev]) == TaskEvents(more) + if ev.TestTask? then 1 else 0
  {
    assert (more + [ev])[..|more|] == more;
  }

  lemma LeadsStep(t: W.Timing, events: seq<Event>, n: nat, s: State, ev: Event)
    requires W.GoodTiming(t) && Leads(t, events, n, s) && !ev.DeviceReady?
    ensures Leads(t, events, n + if ev.TestTask? then 1 else 0, Step(t, s, ev))
  {
    hide *;
    var more := Led(t, events, n, s);
    OneMore(more, ev);
    LeadsBy(t, events, more + [ev]);
    assert events + (more + [ev]) == (events + more) + [ev];
    RunMore(t, events + more, ev);
  }

  lemma LeadsInv(t: W.Timing, events: seq<Event>, n: nat, s: State)
    requires W.GoodTiming(t) && Leads(t, events, n, s)
    ensures Inv(s)
  {
    hide *;
    var more := Led(t, events, n, s);
    Always(t, events + more);
  }

  lemma {:induction false} LeadsTasks(t: W.Timing, events: seq<Event>, n: nat, s: State, k: nat)
    requires W.GoodTiming(t) && Leads(t, events, n, s)
    ensures Leads(t, events, n + k, s.(test := W.TaskSteps(t, s.test, k)))
    decreases k
  {
    if k == 0 {
      assert s.(test := s.test) == s;
    } else {
      LeadsStep(t, events, n, s, TestTask);
      assert Step(t, s, TestTask) == s.(test := W.TaskStep(t, s.test));
      hide Leads, W.TaskStep, Run;
      LeadsTasks(t, events, n + 1, s.(test := W.TaskStep(t, s.test)), k - 1);
    }
  }

  function Ended(t: W.Timing, s: State): State
    requires W.GoodTiming(t)
  {
    s.(test := W.TaskSteps(t, s.test.(cancel := true), 6))
  }

  /** A cancellation and six steps of the test end it, wherever the loop is. */
  lemma LeadsEnded(t: W.Timing, events: seq<Event>, n: nat, s: State)
    requires W.GoodTiming(t) && Leads(t, events, n, s)
    ensures Leads(t, events, n + 6, Ended(t, s)) && Inv(Ended(t, s))
    ensures var w := Ended(t, s).test; w.place.Ended? && !w.active && !w.handle
  {
    LeadsStep(t, events, n, s, CancelTest);
    var s1 := s.(test := s.test.(cancel := true));
    LeftFalls(t, s1.test);
    hide Leads, W.TaskSteps, W.CancelledLeft, Run;
    LeadsTasks(t, events, n, s1, 6);
    W.CancelledEnds(t, s1.test, 6);
    LeadsInv(t, events, n + 6, Ended(t, s));
  }

  /** Steps of the loop from the place to the one after Create, or to the end of the round. */
  function Rank(p: Place): nat {
    match p
    case StartTest => 5 case ReadHandle => 4 case ClearCancel => 3 case Create => 2 case DriveCheck => 1
    case _ => 0
  }

  /** The flag is cleared, and a new test is begun after six steps of the old one. */
  lemma StartLeads(t: W.Timing, events: seq<Event>, n: nat, s: State) returns (m: nat, r: State)
    requires W.GoodTiming(t) && Leads(t, events, n, s) && (Starting(s.place) || s.place.Create?)
    ensures Leads(t, events, m, r) && m >= 6 && !r.test.place.Ended?
    decreases Rank(s.place)
  {
    var i := Inputs(true, false, true, W.ZERO);
    var e := Ended(t, s);
    LeadsEnded(t, events, n, s);
    LeadsStep(t, events, n + 6, e, Loop(i));
    assert e.place == s.place;
    r := Step(t, e, Loop(i));
    m := n + 6;
    assert Starting(s.place) ==> (Starting(r.place) || r.place.Create?) && Rank(r.place) < Rank(s.place);
    assert s.place.Create? ==> r.test.place == W.Entry;
    if Starting(s.place) {
      hide *;
      m, r := StartLeads(t, events, m, r);
    }
  }

  lemma ClearLeads(t: W.Timing, events: seq<Event>, n: nat, s: State) returns (m: nat, r: State)
    requires W.GoodTiming(t) && Leads(t, events, n, s) && Starting(s.place)
    ensures Leads(t, events, m, r) && !r.test.cancel
    decreases Rank(s.place)
  {
    var i := Inputs(true, false, true, W.ZERO);
    var e := Ended(t, s);
    LeadsEnded(t, events, n, s);
    LeadsStep(t, events, n + 6, e, Loop(i));
    assert e.place == s.place;
    r := Step(t, e, Loop(i));
    m := n + 6;
    assert s.place.ClearCancel? ==> !r.test.cancel;
    assert !s.place.ClearCancel? ==> Starting(r.place) && Rank(r.place) < Rank(s.place);
    if !s.place.ClearCancel? {
      hide *;
      m, r := ClearLeads(t, events, m, r);
    }
  }

  /** A command of the round under way outlasts the test. */
  lemma DriveLeads(t: W.Timing, events: seq<Event>, n: nat, s: State, c: W.Command) returns (m: nat, r: State)
    requires W.GoodTiming(t) && Leads(t, events, n, s) && Acting(s.place)
    ensures Leads(t, events, m, r) && r.test.place.Ended? && r.test.wheels == c
    decreases Rank(s.place)
  {
    var i := Inputs(true, false, false, c);
    var e := Ended(t, s);
    LeadsEnded(t, events, n, s);
    LeadsStep(t, events, n + 6, e, Loop(i));
    assert e.place == s.place;
    r := Step(t, e, Loop(i));
    m := n + 6;
    assert s.place.DriveWrite? ==> r.test.wheels == c && r.test.place.Ended?;
    assert !s.place.DriveWrite? ==> Acting(r.place) && Rank(r.place) < Rank(s.place);
    if !s.place.DriveWrite? {
      hide *;
      m, r := DriveLeads(t, events, m, r, c);
    }
  }

  // The exact conditions.

  /** What the two halves of a stop find and leave. */
  lemma StopNow(t: W.Timing, events: seq<Event>)
    requires W.GoodTiming(t) && !Run(t, events).connected
    ensures var p, c, s := Run(t, events).place, Run(t, events + [CancelTest]), Run(t, events + [StopWheels]);
            && c.place == p && s.place == p
            && (!Starting(p) ==> StaysCancelled(c)) && (!Starting(p) && !p.Create? ==> Ending(c, 0))
            && (!Acting(p) ==> StaysStopped(s))
  {
    RunMore(t, events, CancelTest);
    RunMore(t, events, StopWheels);
    LeftFalls(t, Run(t, events + [CancelTest]).test);
    hide Run, W.TaskStep, W.CancelledLeft;
  }

  lemma HeldThen(s: State, taken: nat)
    ensures StaysCancelled(s) ==> s.test.cancel
    ensures Ending(s, taken) && taken >= 6 ==> s.test.place.Ended?
    ensures StaysStopped(s) ==> s.test.place.Ended? ==> s.test.wheels == W.ZERO
  {}

  /** With the connection away, wheel_test_stop is final exactly if the loop is not starting a wheel test at
      that moment: only then does the cancel flag stay set through whatever follows, no device becoming
      ready. */
  lemma CancelIsFinal(t: W.Timing, events: seq<Event>)
    requires W.GoodTiming(t) && !Run(t, events).connected
    ensures (forall more | NoDeviceReady(more) :: Run(t, events + [CancelTest] + more).test.cancel)
       <==> !Starting(Run(t, events).place)
  {
    var stopped := events + [CancelTest];
    var s := Run(t, stopped);
    StopNow(t, events);
    hide *;
    if Starting(s.place) {
      LeadsHere(t, stopped);
      var m, r := ClearLeads(t, stopped, 0, s);
      var more := Led(t, stopped, m, r);
      assert !Run(t, stopped + more).test.cancel;
    } else {
      forall more | NoDeviceReady(more)
        ensures Run(t, stopped + more).test.cancel
      {
        HoldsOn(t, stopped, more);
        HeldThen(Run(t, stopped + more), TaskEvents(more));
      }
    }
  }

  /** And exactly if the loop is not creating the task either, the test has ended once its task has taken six
      steps. */
  lemma CancelEndsTest(t: W.Timing, events: seq<Event>)
    requires W.GoodTiming(t) && !Run(t, events).connected
    ensures (forall more | NoDeviceReady(more) ::
               TaskEvents(more) >= 6 ==> Run(t, events + [CancelTest] + more).test.place.Ended?)
       <==> !Starting(Run(t, events).place) && !Run(t, events).place.Create?
  {
    var stopped := events + [CancelTest];
    var s := Run(t, stopped);
    StopNow(t, events);
    hide *;
    if Starting(s.place) || s.place.Create? {
      LeadsHere(t, stopped);
      var m, r := StartLeads(t, stopped, 0, s);
      var more := Led(t, stopped, m, r);
      assert !Run(t, stopped + more).test.place.Ended?;
    } else {
      forall more | NoDeviceReady(more)
        ensures TaskEvents(more) >= 6 ==> Run(t, stopped + more).test.place.Ended?
      {
        HoldsOn(t, stopped, more);
        HeldThen(Run(t, stopped + more), TaskEvents(more));
      }
    }
  }

  /** Stopping the wheels is final, but for a wheel test that has not ended, exactly if the loop is not acting
      on a report at that moment. */
  lemma WheelStopIsFinal(t: W.Timing, events: seq<Event>)
    requires W.GoodTiming(t) && !Run(t, events).connected
    ensures (forall more | NoDeviceReady(more) ::
               var w := Run(t, events + [StopWheels] + more).test; w.place.Ended? ==> w.wheels == W.ZERO)
       <==> !Acting(Run(t, events).place)
  {
    var stopped := events + [StopWheels];
    var s := Run(t, stopped);
    StopNow(t, events);
    assert W.Command(1, 0, 0, 0) != W.ZERO;
    hide *;
    if Acting(s.place) {
      LeadsHere(t, stopped);
      var m, r := DriveLeads(t, stopped, 0, s, W.Command(1, 0, 0, 0));
      var more := Led(t, stopped, m, r);
      assert Run(t, stopped + more).test.wheels != W.ZERO;
    } else {
      forall more | NoDeviceReady(more)
        ensures var w := Run(t, stopped + more).test; w.place.Ended? ==> w.wheels == W.ZERO
      {
        HoldsOn(t, stopped, more);
        HeldThen(Run(t, stopped + more), TaskEvents(more));
      }
    }
  }
}
