/** The detector behind the exhaust puff in rccar_drive.c: has the car just left a long enough rest? */
module IdleToMove {
  datatype Sample = Sample(moving: bool, now: int)

  /** was_moving and idle_since_ms. */
  datatype Memory = Memory(wasMoving: bool, idleSince: int)

  const FIRST := Memory(false, -1)

  /** rccar_drive_idle_to_move: the memory after a sample, and the pulse. */
  function Detect(m: Memory, s: Sample, need: int): (Memory, bool) {
    if s.moving then
      (m.(wasMoving := true), !m.wasMoving && m.idleSince >= 0 && s.now - m.idleSince >= need)
    else
      (Memory(false, if m.wasMoving || m.idleSince < 0 then s.now else m.idleSince), false)
  }

  function After(samples: seq<Sample>, need: int): Memory {
    if samples == [] then FIRST
    else Detect(After(samples[..|samples| - 1], need), samples[|samples| - 1], need).0
  }

  /** The pulse at sample i. */
  function Pulse(samples: seq<Sample>, i: nat, need: int): bool
    requires i < |samples|
  {
    Detect(After(samples[..i], need), samples[i], need).1
  }

  /** Where the run of idle samples that ends just before sample i begins. */
  function RunStart(samples: seq<Sample>, i: nat): (j: nat)
    requires i <= |samples|
    ensures j <= i
    ensures forall k :: j <= k < i ==> !samples[k].moving
    ensures j > 0 ==> samples[j - 1].moving
  {
    if i == 0 || samples[i - 1].moving then i else RunStart(samples, i - 1)
  }

  predicate ClockRuns(samples: seq<Sample>) {
    forall k :: 0 <= k < |samples| ==> samples[k].now >= 0
  }

  /** The memory is the state of the last sample and, within a rest, the time of its first sample. */
  lemma {:induction false} Remembers(samples: seq<Sample>, i: nat, need: int)
    requires ClockRuns(samples) && i <= |samples|
    ensures var m, j := After(samples[..i], need), RunStart(samples, i);
            && (m.wasMoving <==> i > 0 && samples[i - 1].moving)
            && (j < i ==> m.idleSince == samples[j].now)
            && (m.idleSince < 0 <==> forall k :: 0 <= k < i ==> samples[k].moving)
    decreases i
  {
    if i > 0 {
      Remembers(samples, i - 1, need);
      assert samples[..i][..i - 1] == samples[..i - 1];
    }
  }

  /** Over every history: a pulse comes with a sample exactly when it moves, the one before it does not,
      and the rest that just ended began long enough ago. */
  lemma PulseExactly(samples: seq<Sample>, i: nat, need: int)
    requires ClockRuns(samples) && i < |samples|
    ensures Pulse(samples, i, need) <==>
              && samples[i].moving && i > 0 && !samples[i - 1].moving
              && samples[i].now - samples[RunStart(samples, i)].now >= need
  {
    Remembers(samples, i, need);
    if i > 0 && !samples[i - 1].moving {
      assert RunStart(samples, i) < i;
    }
  }

  class Detector {
    var wasMoving: bool
    var idleSinceMs: int

    function View(): Memory
      reads this
    {
      Memory(wasMoving, idleSinceMs)
    }

    constructor ()
      ensures View() == FIRST
    {
      wasMoving, idleSinceMs := false, -1;
    }

    method Take(moving: bool, nowMs: int, idleNeedMs: int) returns (pulse: bool)
      modifies this
      ensures (View(), pulse) == Detect(old(View()), Sample(moving, nowMs), idleNeedMs)
    {
      pulse := false;
      if moving {
        if !wasMoving && idleSinceMs >= 0 && nowMs - idleSinceMs >= idleNeedMs {
          pulse := true;
        }
        wasMoving := true;
      } else {
        if wasMoving || idleSinceMs < 0 {
          idleSinceMs := nowMs;
        }
        wasMoving := false;
      }
    }
  }
}
