/** The request queue never stalls and never spins, and every callback finds the right result. */
module EngineProgress {
  import opened Bytes
  import opened Options
  import opened Engine
  import opened EngineHead
  import opened EngineRuns
  import C = Cmac
  import M = CmacMachine
  import Ccm
  import Rfc = Rfc4493

  const REST := Statics(M.IDLE, Ecc(KeyIdle, [], [], []))

  /** Passes and answers that a request not begun needs at most. */
  function FullCost(job: Job): nat {
    Cost(job, REST, false)
  }

  function FullCosts(queue: seq<Entry>): nat {
    if queue == [] then 0 else FullCosts(queue[..|queue| - 1]) + FullCost(queue[|queue| - 1].now)
  }

  /** Falls with every pass that is let through and every answer. */
  function Measure(e: State): nat {
    if e.queue == [] then 0 else Cost(e.queue[0].now, e.statics, e.wait) + FullCosts(e.queue[1..])
  }

  lemma {:induction false} FullCostsFront(queue: seq<Entry>)
    requires queue != []
    ensures FullCosts(queue) == FullCost(queue[0].now) + FullCosts(queue[1..])
    decreases |queue|
  {
    var init := queue[..|queue| - 1];
    if |queue| > 1 {
      FullCostsFront(init);
      assert init[1..] == queue[1..][..|queue| - 2];
    } else {
      assert queue[1..] == [] && init == [];
    }
  }

  /** The statics at rest never make a request dearer than FullCost. */
  lemma RestCost(w: World, job: Job, s: Statics)
    requires Quiet(w, s)
    ensures Cost(job, s, false) <= FullCost(job)
  {
    hide Flatten;
  }

  lemma FinishedMeasure(w: World, e: State, head: Entry, s: Statics)
    requires e.queue != [] && !e.wait && Quiet(w, s)
    ensures Measure(Finished(e, head, s)) <= FullCosts(e.queue[1..])
  {
    var rest := e.queue[1..];
    hide Quiet, Cost, FullCost;
    if rest != [] {
      RestCost(w, rest[0].now, s);
      FullCostsFront(rest);
    }
  }

  lemma CostPositive(w: World, entry: Entry, s: Statics, inFlight: Option<Command>)
    requires HeadGood(w, entry, s, inFlight)
    ensures Cost(entry.now, s, inFlight.Some?) > 0
  {
    hide Flatten, CmacTag, Ccm.Handle;
    if entry.now.CcmJob? {
      WorkPositive(entry.now.request);
    }
  }

  lemma WorkPositive(q: Ccm.Request)
    ensures Ccm.Work(q) > 0
  {}

  /** The events that move the queue. */
  predicate Moves(e: State, ev: Event) {
    (ev.RunPass? && e.queue != [] && !e.wait) || (ev.Response? && e.wait)
  }

  lemma PassProgress(w: World, e: State)
    requires Inv(w, e) && !e.wait && e.queue != []
    ensures Ready(e.queue[0], e.statics) && Measure(Passed(w, e)) < Measure(e)
  {
    hide HeadGood, Completed, Fresh, Quiet, Ready, PassHead, Cost, FullCosts;
    CostPositive(w, e.queue[0], e.statics, None);
    HeadPass(w, e.queue[0], e.statics);
    var (head, s, pass) := PassHead(w, e.queue[0], e.statics);
    if pass.Done? {
      FinishedMeasure(w, e, head, s);
    }
  }

  lemma ResponseProgress(w: World, e: State, random: seq<byte>)
    requires Inv(w, e) && |random| == 8 && e.wait
    ensures e.queue != [] && (e.queue[0].now.CcmJob? ==> Ccm.Ok(e.queue[0].now.request))
    ensures Measure(Responded(w, e, random)) < Measure(e)
  {
    hide HeadGood, Completed, Fresh, Quiet, Answered, Cost, FullCosts;
    CostPositive(w, e.queue[0], e.statics, Flying(e));
    HeadAnswer(w, e.queue[0], e.statics, e.inFlight[0], random);
    var (head, s, done) := Answered(w, e.queue[0], e.statics, e.inFlight[0], random);
    if done {
      FinishedMeasure(w, e.(wait := false, inFlight := e.inFlight[1..]), head, s);
    }
  }

  /** A pass that the guards let through, and an answer that is waited for, bring the queue closer to
      empty; nothing else an HCI event or a call of the loop does changes it. */
  lemma Progress(w: World, e: State, ev: Event)
    requires Inv(w, e) && LegalEvent(ev) && (ev.RunPass? || ev.Response?)
    ensures Moves(e, ev) ==> Measure(Step(w, e, ev)) < Measure(e)
    ensures !Moves(e, ev) ==> Step(w, e, ev) == e
  {
    InvReady(w, e);
    hide Inv, Passed, Responded, Measure;
    match ev
    case RunPass =>
      if !e.wait && e.queue != [] {
        PassProgress(w, e);
      } else {
        NothingToPass(w, e);
      }
    case Response(random) =>
      if e.wait {
        ResponseProgress(w, e, random);
      } else {
        Stray(w, e, random);
      }
  }

  /** While requests are queued, either the loop or the controller can move: with the wait flag clear the
      head is in no state that waits for anything, and with it set there is a command to answer. */
  lemma NeverStuck(w: World, e: State)
    requires Inv(w, e) && e.queue != []
    ensures Measure(e) > 0
    ensures !e.wait ==> Ready(e.queue[0], e.statics) && !PassHead(w, e.queue[0], e.statics).2.Stuck?
                        && (e.queue[0].now.CcmJob? ==> !Ccm.Waiting(e.queue[0].now.request.state))
                        && !e.statics.ecc.state.Active?
    ensures e.wait ==> |e.inFlight| == 1
  {
    CostPositive(w, e.queue[0], e.statics, Flying(e));
    assert !e.wait && e.queue[0].now.CcmJob? ==> !Ccm.Waiting(e.queue[0].now.request.state);
    assert !e.statics.ecc.state.Active?;
    hide HeadGood, Completed, Fresh, Quiet, PassHead, Cost;
    if !e.wait {
      HeadPass(w, e.queue[0], e.statics);
    }
  }

  // Whole runs.

  /** Moves since the stack last halted. */
  ghost function Moved(w: World, events: seq<Event>): nat
    requires LegalEvents(events)
    decreases |events|
  {
    if events == [] then 0
    else
      var before, ev := events[..|events| - 1], events[|events| - 1];
      if ev.Halt? then 0
      else Moved(w, before) + if Moves(After(w, before), ev) then 1 else 0
  }

  /** What the submissions since the stack last halted may cost together. */
  function Budget(events: seq<Event>): nat
    decreases |events|
  {
    if events == [] then 0
    else
      var before := Budget(events[..|events| - 1]);
      match events[|events| - 1]
      case Submit(job) => before + FullCost(job) + (if job.GenerateKey? then 16 else 0)
      case Halt => 0
      case _ => before
  }

  lemma SubmitMeasure(w: World, e: State, job: Job)
    requires Inv(w, e) && Legal(job)
    ensures Measure(Submitted(e, job)) <= Measure(e) + FullCost(job) + if job.GenerateKey? then 16 else 0
  {
    var entry := Entry(job, job, []);
    var s := Requested(job, e.statics);
    hide HeadGood, Completed, Fresh, Quiet, Requested, Cost;
    if e.queue == [] {
      RequestedKeeps(w, entry, e.statics, None, job);
      RestCost(w, job, s);
      assert Submitted(e, job).queue == [entry];
    } else {
      RequestedKeeps(w, e.queue[0], e.statics, Flying(e), job);
      var rest := e.queue[1..] + [entry];
      assert (e.queue + [entry])[1..] == rest && rest[..|rest| - 1] == e.queue[1..];
    }
  }

  /** However the events fall, the moves made and the moves still to come stay within the budget of the
      requests submitted: every request completes after finitely many. */
  lemma {:induction false} Bounded(w: World, events: seq<Event>)
    requires LegalEvents(events)
    ensures Moved(w, events) + Measure(After(w, events)) <= Budget(events)
    decreases |events|
  {
    if events != [] {
      var before, ev := events[..|events| - 1], events[|events| - 1];
      var e := After(w, before);
      Bounded(w, before);
      assert After(w, events) == Step(w, e, ev);
      hide Measure, Inv, Moves, FullCost;
      match ev
      case Submit(job) =>
        SubmitMeasure(w, e, job);
        NoMove(e, ev);
      case Halt => HaltMeasure(e);
      case _ => Progress(w, e, ev);
    }
  }

  lemma NoMove(e: State, ev: Event)
    requires ev.Submit?
    ensures !Moves(e, ev)
  {}

  lemma HaltMeasure(e: State)
    ensures Measure(Halted(e)) == 0
  {}

  // Results.

  /** Every callback finds its request as if it had been alone, whatever else went through the queue. */
  lemma Results(w: World, events: seq<Event>, i: nat)
    requires LegalEvents(events) && i < |After(w, events).done|
    ensures Completed(w, After(w, events).done[i])
  {}

  lemma {:induction false} FlattenSize(answers: seq<seq<byte>>)
    requires forall i :: 0 <= i < |answers| ==> |answers[i]| == 8
    ensures |Flatten(answers)| == 8 * |answers|
  {
    if answers != [] {
      FlattenSize(answers[..|answers| - 1]);
    }
  }

  /** A random request for n octets takes the fewest responses of eight octets that cover n, but at least
      one, and its buffer is the first n octets of them, one after the other. */
  lemma RandomResult(w: World, events: seq<Event>, i: nat)
    requires LegalEvents(events) && i < |After(w, events).done|
    ensures var entry := After(w, events).done[i];
            entry.asked.Random? ==>
              var n, k := entry.asked.size, |entry.answers|;
              && k >= 1 && n <= 8 * k && (k == 1 || 8 * (k - 1) < n)
              && n <= |Flatten(entry.answers)|
              && entry.now == Random(Flatten(entry.answers)[..n], 0)
  {
    Results(w, events, i);
  }

  /** A CMAC request of up to 4080 octets, read from a buffer or a generator, gets the AES-CMAC of
      RFC 4493. */
  lemma CmacResult(w: World, events: seq<Event>, i: nat)
    requires LegalEvents(events) && i < |After(w, events).done|
    ensures var entry := After(w, events).done[i];
            entry.asked.CmacJob? && entry.asked.length <= 4080 ==>
              && Legal(entry.asked) && entry.now.CmacJob?
              && entry.now.hash == Some(Rfc.Cmac(w.E, entry.asked.key, Message(entry.asked)))
  {
    Results(w, events, i);
    var entry := After(w, events).done[i];
    hide After, M.Run, Rfc.Cmac;
    if entry.asked.CmacJob? && entry.asked.length <= 4080 {
      M.RunIsCmac(w.E, M.IDLE, entry.asked.key, Message(entry.asked));
    }
  }
}
