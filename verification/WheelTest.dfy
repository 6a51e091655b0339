/** The wheel test of rccar_motor.c: a task that spins one wheel after the other, and the calls that
    start and stop it, interleaved at every point at which the task reads or writes something shared. */
module WheelTest {
  datatype Command = Command(fl: int, fr: int, rl: int, rr: int)

  const ZERO := Command(0, 0, 0, 0)
  const SPEED := 400

  /** wheel_test_spin_one. */
  function Single(wheel: nat, speed: int): Command {
    match wheel
    case 0 => Command(speed, 0, 0, 0)
    case 1 => Command(0, speed, 0, 0)
    case 2 => Command(0, 0, speed, 0)
    case _ => Command(0, 0, 0, speed)
  }

  function Speed(pass: nat): int { if pass == 0 then SPEED else -SPEED }

  /** The task's waits, in ticks; a slice of the waits is at least one tick. */
  datatype Timing = Timing(run: nat, gap: nat, slice: nat)

  predicate GoodTiming(t: Timing) { t.slice > 0 }

  /** Where the task is. */
  datatype Place =
    | Entry | PassCheck(pass: nat) | WheelCheck(pass: nat, wheel: nat) | Spin(pass: nat, wheel: nat)
    | Running(pass: nat, wheel: nat, left: nat) | Halt(pass: nat, wheel: nat)
    | Resting(pass: nat, wheel: nat, left: nat) | LastStop | Deactivate | ClearHandle | Ended

  /** The shared flags, the task, its commands, and how many of them were not zero after a stop. */
  datatype State = State(place: Place, cancel: bool, active: bool, handle: bool, mine: seq<Command>, late: nat,
                         wheels: Command)

  const IDLE := State(Ended, false, false, false, [], 0, ZERO)

  function Issue(s: State, c: Command, next: Place): State {
    s.(place := next, mine := s.mine + [c], wheels := c,
       late := s.late + if s.cancel && c != ZERO then 1 else 0)
  }

  /** wheel_test_wait_or_cancel, one turn of its loop: where the task goes on, or the rest of the wait. */
  function Wait(t: Timing, cancel: bool, left: nat): (bool, nat)
    requires GoodTiming(t)
  {
    if cancel || left == 0 then (true, 0) else (false, if left < t.slice then 0 else left - t.slice)
  }

  /** The task up to its next access to something shared. */
  function TaskStep(t: Timing, s: State): State
    requires GoodTiming(t)
  {
    match s.place
    case Entry => s.(active := true, place := PassCheck(0))
    case PassCheck(pass) => s.(place := if pass < 2 && !s.cancel then WheelCheck(pass, 0) else LastStop)
    case WheelCheck(pass, wheel) =>
      s.(place := if wheel >= 4 || s.cancel then PassCheck(pass + 1) else Spin(pass, wheel))
    case Spin(pass, wheel) => Issue(s, Single(wheel, Speed(pass)), Running(pass, wheel, t.run))
    case Running(pass, wheel, left) =>
      var (over, rest) := Wait(t, s.cancel, left);
      s.(place := if !over then Running(pass, wheel, rest)
                  else if s.cancel then PassCheck(pass + 1) else Halt(pass, wheel))
    case Halt(pass, wheel) => Issue(s, ZERO, Resting(pass, wheel, t.gap))
    case Resting(pass, wheel, left) =>
      var (over, rest) := Wait(t, s.cancel, left);
      s.(place := if !over then Resting(pass, wheel, rest)
                  else if s.cancel then PassCheck(pass + 1) else WheelCheck(pass, wheel + 1))
    case LastStop => Issue(s, ZERO, Deactivate)
    case Deactivate => s.(active := false, place := ClearHandle)
    case ClearHandle => s.(handle := false, place := Ended)
    case Ended => s
  }

  /** rccar_motor_wheel_test_stop. */
  function Stop(s: State): State {
    s.(cancel := true, wheels := ZERO)
  }

  /** rccar_motor_wheel_test_start: nothing while a task is there. */
  function Start(s: State): State {
    if s.handle then s else State(Entry, false, s.active, true, [], 0, s.wheels)
  }

  datatype Event = TaskEvent | StopEvent | StartEvent

  function Step(t: Timing, s: State, ev: Event): State
    requires GoodTiming(t)
  {
    match ev
    case TaskEvent => TaskStep(t, s)
    case StopEvent => Stop(s)
    case StartEvent => Start(s)
  }

  function Run(t: Timing, events: seq<Event>): State
    requires GoodTiming(t)
    decreases |events|
  {
    if events == [] then IDLE else Step(t, Run(t, events[..|events| - 1]), events[|events| - 1])
  }

  // The commands of an undisturbed run.

  /** The first n commands of the eight spins, each followed by a stop. */
  function Spins(n: nat): (r: seq<Command>)
    ensures |r| == n
  {
    if n == 0 then [] else Spins(n - 1) + [Nth(n - 1)]
  }

  function Nth(k: nat): Command {
    if k % 2 == 0 then Single(k / 2 % 4, Speed(k / 8)) else ZERO
  }

  /** How many of them are out when the task is at a place. */
  function Issued(p: Place): nat {
    match p
    case Entry => 0
    case PassCheck(pass) => 8 * pass
    case WheelCheck(pass, wheel) => 8 * pass + 2 * wheel
    case Spin(pass, wheel) => 8 * pass + 2 * wheel
    case Running(pass, wheel, _) => 8 * pass + 2 * wheel + 1
    case Halt(pass, wheel) => 8 * pass + 2 * wheel + 1
    case Resting(pass, wheel, _) => 8 * pass + 2 * wheel + 2
    case _ => 16
  }

  predicate InPass(p: Place) {
    match p
    case PassCheck(pass) => pass <= 2
    case WheelCheck(pass, wheel) => pass < 2 && wheel <= 4
    case Spin(pass, wheel) => pass < 2 && wheel < 4
    case Running(pass, wheel, _) => pass < 2 && wheel < 4
    case Halt(pass, wheel) => pass < 2 && wheel < 4
    case Resting(pass, wheel, _) => pass < 2 && wheel < 4
    case _ => true
  }

  predicate Finished(p: Place) { p.Deactivate? || p.ClearHandle? || p.Ended? }

  /** Flags, place and the commands after a stop. */
  predicate Safe(s: State) {
    && InPass(s.place)
    && (s.handle <==> !s.place.Ended?)
    && (s.place.ClearHandle? || s.place.Ended? ==> !s.active)
    && s.late <= 1 && (s.place.Spin? || !s.cancel ==> s.late == 0)
    && (Finished(s.place) && s.mine != [] ==> s.mine[|s.mine| - 1] == ZERO)
    && (Finished(s.place) ==> s.wheels == ZERO)
    && (s.place.Deactivate? || s.place.ClearHandle? ==> s.mine != [])
  }

  /** Undisturbed, the task is as far with the spins as its place says. */
  predicate InOrder(s: State) {
    s.cancel || (s.place.Ended? && s.mine == [])
    || s.mine == if Finished(s.place) then Spins(16) + [ZERO] else Spins(Issued(s.place))
  }

  /** What every step keeps. */
  predicate Inv(s: State) { Safe(s) && InOrder(s) }

  lemma SpinsNext(pass: nat, wheel: nat)
    requires pass < 2 && wheel < 4
    ensures var n := 8 * pass + 2 * wheel;
            Spins(n + 1) == Spins(n) + [Single(wheel, Speed(pass))] && Spins(n + 2) == Spins(n + 1) + [ZERO]
  {
    var n := 8 * pass + 2 * wheel;
    assert Nth(n) == Single(wheel, Speed(pass)) && Nth(n + 1) == ZERO by {
      assert n / 2 % 4 == wheel && n / 8 == pass;
    }
    hide Nth, Single, Speed;
  }

  lemma TaskSafe(t: Timing, s: State)
    requires GoodTiming(t) && Safe(s)
    ensures Safe(TaskStep(t, s))
  {
    hide Wait;
  }

  lemma CommandInOrder(t: Timing, s: State)
    requires GoodTiming(t) && Inv(s) && (s.place.Spin? || s.place.Halt? || s.place.LastStop?)
    ensures InOrder(TaskStep(t, s))
  {
    hide Wait, Spins, Single, Speed;
    if !s.place.LastStop? {
      SpinsNext(s.place.pass, s.place.wheel);
    }
  }

  lemma ChecksInOrder(t: Timing, s: State)
    requires GoodTiming(t) && Inv(s) && !s.place.Spin? && !s.place.Halt? && !s.place.LastStop?
    ensures InOrder(TaskStep(t, s))
  {
    hide Wait, Spins, Single, Speed;
  }

  lemma TaskInOrder(t: Timing, s: State)
    requires GoodTiming(t) && Inv(s)
    ensures InOrder(TaskStep(t, s))
  {
    hide TaskStep, Safe, InOrder;
    if s.place.Spin? || s.place.Halt? || s.place.LastStop? {
      CommandInOrder(t, s);
    } else {
      ChecksInOrder(t, s);
    }
  }

  lemma TaskKeeps(t: Timing, s: State)
    requires GoodTiming(t) && Inv(s)
    ensures Inv(TaskStep(t, s))
  {
    hide TaskStep, Safe, InOrder;
    TaskSafe(t, s);
    TaskInOrder(t, s);
  }

  lemma {:induction false} Always(t: Timing, events: seq<Event>)
    requires GoodTiming(t)
    ensures Inv(Run(t, events))
    decreases |events|
  {
    if events != [] {
      var s := Run(t, events[..|events| - 1]);
      Always(t, events[..|events| - 1]);
      match events[|events| - 1]
      case TaskEvent => TaskKeeps(t, s);
      case StopEvent =>
      case StartEvent =>
    }
  }

  // What the calls promise.

  /** wheel_test_stop, wherever the task is: one more non-zero command at most, zero as the last one, and
      nothing left running. */
  lemma Cancelled(t: Timing, events: seq<Event>)
    requires GoodTiming(t)
    ensures var s := Run(t, events);
            && s.late <= 1
            && (s.place.Ended? ==> !s.active && !s.handle && s.wheels == ZERO)
            && (s.place.Ended? && s.mine != [] ==> s.mine[|s.mine| - 1] == ZERO)
  {
    Always(t, events);
    hide Run;
  }

  function TaskSteps(t: Timing, s: State, n: nat): State
    requires GoodTiming(t)
    decreases n
  {
    if n == 0 then s else TaskSteps(t, TaskStep(t, s), n - 1)
  }

  /** Steps that a cancelled task has left at most. */
  function CancelledLeft(p: Place): nat {
    match p
    case Ended => 0 case ClearHandle => 1 case Deactivate => 2 case LastStop => 3 case PassCheck(_) => 4
    case Spin(_, _) => 6 case Halt(_, _) => 6
    case _ => 5
  }

  lemma {:induction false} CancelledEnds(t: Timing, s: State, n: nat)
    requires GoodTiming(t) && s.cancel && CancelledLeft(s.place) <= n
    ensures TaskSteps(t, s, n).place.Ended?
    decreases n
  {
    if n > 0 {
      CancelledEnds(t, TaskStep(t, s), n - 1);
    }
  }

  /** Once cancelled the task ends within six of its steps, even in the middle of a wait. */
  lemma StopsSoon(t: Timing, s: State)
    requires GoodTiming(t)
    ensures TaskSteps(t, Stop(s), 6).place.Ended?
  {
    hide TaskSteps;
    CancelledEnds(t, Stop(s), 6);
  }

  /** Undisturbed, the eight spins in order, each followed by a stop, and a stop at the end. */
  lemma Uncancelled(t: Timing, events: seq<Event>)
    requires GoodTiming(t)
    ensures var s := Run(t, events);
            s.place.Ended? && !s.cancel && s.mine != [] ==> s.mine == Spins(16) + [ZERO]
  {
    Always(t, events);
    hide Run, Spins;
  }

  lemma {:induction false} SpinsAt(n: nat, k: nat)
    requires k < n
    ensures Spins(n)[k] == Nth(k)
  {
    hide Nth;
    if k < n - 1 {
      SpinsAt(n - 1, k);
    }
  }

  /** The order of the eight: forward on each wheel, then backward on each. */
  lemma SpinOrder(k: nat)
    requires k < 8
    ensures Spins(16)[2 * k] == Single(if k < 4 then k else k - 4, if k < 4 then SPEED else -SPEED)
    ensures Spins(16)[2 * k + 1] == ZERO
  {
    hide Spins;
    SpinsAt(16, 2 * k);
    SpinsAt(16, 2 * k + 1);
    assert 2 * k / 2 == k && 2 * k / 8 == k / 4;
  }

  // Termination without a stop.

  /** n times k, for the few n of the task. */
  function Times(n: nat, k: nat): nat {
    match n case 0 => 0 case 1 => k case 2 => 2 * k case 3 => 3 * k case _ => 4 * k
  }

  /** Steps that a task has left at most. */
  function Left(t: Timing, p: Place): nat {
    var wheelCost := t.run + t.gap + 5;
    match p
    case Ended => 0 case ClearHandle => 1 case Deactivate => 2 case LastStop => 3
    case Entry => 5 + Times(2, 4 * wheelCost + 2)
    case PassCheck(pass) => LeftPass(t, pass)
    case WheelCheck(pass, wheel) => LeftWheel(t, pass, wheel)
    case Spin(pass, wheel) => t.run + t.gap + 4 + LeftWheel(t, pass, wheel + 1)
    case Running(pass, wheel, left) => left + t.gap + 3 + LeftWheel(t, pass, wheel + 1)
    case Halt(pass, wheel) => t.gap + 2 + LeftWheel(t, pass, wheel + 1)
    case Resting(pass, wheel, left) => left + 1 + LeftWheel(t, pass, wheel + 1)
  }

  function LeftPass(t: Timing, pass: nat): nat {
    4 + Times(if pass < 2 then 2 - pass else 0, 4 * (t.run + t.gap + 5) + 2)
  }

  function LeftWheel(t: Timing, pass: nat, wheel: nat): nat {
    1 + Times(if wheel < 4 then 4 - wheel else 0, t.run + t.gap + 5) + LeftPass(t, pass + 1)
  }

  lemma LeftPasses(t: Timing, pass: nat)
    ensures LeftPass(t, pass) >= 4
    ensures pass < 2 ==> LeftPass(t, pass) == 1 + LeftWheel(t, pass, 0)
    ensures LeftPass(t, 0) == 4 + Times(2, 4 * (t.run + t.gap + 5) + 2)
  {}

  lemma LeftWheels(t: Timing, pass: nat, wheel: nat)
    ensures LeftWheel(t, pass, wheel) > LeftPass(t, pass + 1)
    ensures wheel < 4 ==> LeftWheel(t, pass, wheel) == t.run + t.gap + 5 + LeftWheel(t, pass, wheel + 1)
  {
    hide LeftPass;
  }

  lemma CheckProgress(t: Timing, s: State)
    requires GoodTiming(t) && (s.place.Entry? || s.place.PassCheck? || s.place.WheelCheck?)
    ensures Left(t, TaskStep(t, s).place) < Left(t, s.place)
  {
    hide LeftPass, LeftWheel, Times;
    match s.place
    case Entry => LeftPasses(t, 0);
    case PassCheck(pass) => LeftPasses(t, pass);
    case WheelCheck(pass, wheel) => LeftWheels(t, pass, wheel);
  }

  lemma WaitProgress(t: Timing, s: State)
    requires GoodTiming(t) && (s.place.Running? || s.place.Resting?)
    ensures Left(t, TaskStep(t, s).place) < Left(t, s.place)
  {
    hide LeftPass, LeftWheel, Times;
    LeftWheels(t, s.place.pass, s.place.wheel + 1);
  }

  lemma CommandProgress(t: Timing, s: State)
    requires GoodTiming(t) && (s.place.Spin? || s.place.Halt? || s.place.LastStop?)
    ensures Left(t, TaskStep(t, s).place) < Left(t, s.place)
  {
    hide LeftPass, LeftWheel, Times;
  }

  /** Every step of the task, cancelled or not, brings it closer to its end. */
  lemma TaskProgress(t: Timing, s: State)
    requires GoodTiming(t) && !s.place.Ended?
    ensures Left(t, TaskStep(t, s).place) < Left(t, s.place)
  {
    match s.place
    case Entry => CheckProgress(t, s);
    case PassCheck(_) => CheckProgress(t, s);
    case WheelCheck(_, _) => CheckProgress(t, s);
    case Running(_, _, _) => WaitProgress(t, s);
    case Resting(_, _, _) => WaitProgress(t, s);
    case Spin(_, _) => CommandProgress(t, s);
    case Halt(_, _) => CommandProgress(t, s);
    case LastStop => CommandProgress(t, s);
    case _ =>
  }

  // The task as the program writes it, for every sequence of answers that its reads of the cancel flag get.

  /** Only the task's own end lets a start clear the flag again. */
  ghost predicate Sticky(cancel: nat -> bool) {
    forall i, j :: 0 <= i <= j && cancel(i) ==> cancel(j)
  }

  class Task {
    const t: Timing
    /** What the k-th read of the flag returns. */
    const cancel: nat -> bool
    var polls: nat
    var active: bool
    var handle: bool
    var log: seq<Command>

    constructor (timing: Timing, flag: nat -> bool)
      ensures t == timing && cancel == flag && polls == 0 && log == [] && handle && !active
    {
      t, cancel, polls, log := timing, flag, 0, [];
      handle, active := true, false;
    }

    method ReadCancel() returns (b: bool)
      modifies `polls
      ensures b == cancel(old(polls)) && polls == old(polls) + 1
    {
      b := cancel(polls);
      polls := polls + 1;
    }

    method WheelSet(c: Command)
      modifies `log
      ensures log == old(log) + [c]
    {
      log := log + [c];
    }

    /** wheel_test_wait_or_cancel. */
    method WaitOrCancel(ticks: nat) returns (cancelled: bool)
      requires GoodTiming(t)
      modifies `polls
      ensures polls > old(polls)
      ensures cancelled == cancel(polls - 1)
    {
      var left := ticks;
      while left > 0
        invariant polls >= old(polls)
        decreases left
      {
        var c := ReadCancel();
        if c {
          return true;
        }
        var d := if left < t.slice then left else t.slice;
        left := left - d;
      }
      cancelled := ReadCancel();
    }

    /** One wheel: whether the task goes on with the next. */
    method TestWheel(pass: nat, wheel: nat) returns (on: bool, ghost n: nat)
      requires GoodTiming(t) && pass < 2 && wheel < 4 && log == Spins(8 * pass + 2 * wheel)
      modifies `polls, `log
      ensures log == Spins(n) && n <= 16 && polls > old(polls)
      ensures on ==> n == 8 * pass + 2 * wheel + 2
      ensures !on ==> cancel(polls - 1)
    {
      SpinsNext(pass, wheel);
      hide Spins, Single, Speed;
      n := 8 * pass + 2 * wheel;
      var c := ReadCancel();
      if c {
        return false, n;
      }
      WheelSet(Single(wheel, Speed(pass)));
      n := n + 1;
      c := WaitOrCancel(t.run);
      if c {
        return false, n;
      }
      WheelSet(ZERO);
      n := n + 1;
      c := WaitOrCancel(t.gap);
      on := !c;
    }

    /** wheel_test_task: some of the eight spins in order, each followed by a stop, then a stop; all of
        them unless the flag is read as set. */
    method RunTask() returns (ghost n: nat)
      requires GoodTiming(t) && Sticky(cancel) && log == []
      modifies this
      ensures log == Spins(n) + [ZERO] && n <= 16 && !active && !handle
      ensures n == 16 || (polls > 0 && cancel(polls - 1))
    {
      active := true;
      hide Spins;
      var pass := 0;
      n := 0;
      NoSpins();
      var stopped := false;
      while pass < 2 && !stopped
        invariant pass <= 2 && n <= 16 && log == Spins(n)
        invariant n == 8 * pass || (polls > 0 && cancel(polls - 1))
        invariant stopped ==> polls > 0 && cancel(polls - 1)
        decreases 2 - pass, !stopped
      {
        stopped := ReadCancel();
        if !stopped {
          var i := 0;
          var on := true;
          assert n == 8 * pass;
          while i < 4 && on
            invariant i <= 4 && n <= 16 && log == Spins(n) && polls > 0
            invariant if on then n == 8 * pass + 2 * i else cancel(polls - 1)
            decreases 4 - i, on
          {
            on, n := TestWheel(pass, i);
            i := i + 1;
          }
          pass := pass + 1;
        }
      }
      WheelSet(ZERO);
      active := false;
      handle := false;
    }
  }

  lemma NoSpins()
    ensures Spins(0) == []
  {}
}
