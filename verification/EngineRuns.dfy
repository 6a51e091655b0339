/** Every run of the request queue: whatever the order of submissions, passes, answers and halts. */
module EngineRuns {
  import opened Bytes
  import opened Options
  import opened Engine
  import opened EngineHead
  import M = CmacMachine
  import Ccm

  /** The queue, the wait flag, the HCI commands sent and not answered, and the callbacks made so far. */
  datatype State = State(queue: seq<Entry>, statics: Statics, wait: bool, inFlight: seq<Command>, done: seq<Entry>)

  /** What can happen between two moments at which control may be anywhere. A callback that re-enters the
      API shows as submissions and passes right after the step that made it. */
  datatype Event = Submit(job: Job) | RunPass | Response(random: seq<byte>) | Halt

  predicate LegalEvent(ev: Event) {
    match ev
    case Submit(job) => Legal(job)
    case Response(random) => |random| == 8
    case _ => true
  }

  predicate LegalEvents(events: seq<Event>) {
    forall i :: 0 <= i < |events| ==> LegalEvent(events[i])
  }

  const START := State([], Statics(M.IDLE, Ecc(KeyIdle, [], [], [])), false, [], [])

  function Flying(e: State): Option<Command> {
    if e.inFlight == [] then None else Some(e.inFlight[0])
  }

  /** What holds whenever control may be elsewhere. */
  ghost predicate Inv(w: World, e: State) {
    && |e.inFlight| == (if e.wait then 1 else 0)
    && (forall i :: 1 <= i < |e.queue| ==> Fresh(e.queue[i]))
    && (forall i :: 0 <= i < |e.done| ==> Completed(w, e.done[i]))
    && if e.queue == [] then !e.wait && Quiet(w, e.statics)
       else HeadGood(w, e.queue[0], e.statics, Flying(e))
  }

  // The steps.

  function Submitted(e: State, job: Job): State {
    e.(queue := e.queue + [Entry(job, job, [])], statics := Requested(job, e.statics))
  }

  /** The head is done: off the queue, and its callback called. */
  function Finished(e: State, head: Entry, s: Statics): State
    requires e.queue != []
  {
    e.(queue := e.queue[1..], statics := s, done := e.done + [head])
  }

  /** One iteration of the loop in btstack_crypto_run, when its guards let it through. */
  function Passed(w: World, e: State): State
    requires e.queue != [] ==> Ready(e.queue[0], e.statics)
  {
    if e.queue == [] || e.wait then e
    else
      var (head, s, pass) := PassHead(w, e.queue[0], e.statics);
      match pass
      case Sent(command) =>
        e.(queue := [head] + e.queue[1..], statics := s, wait := true, inFlight := e.inFlight + [command])
      case Done => Finished(e, head, s)
      case Stuck => e.(wait := head.now.CmacJob?)
  }

  /** The command complete event of the oldest command in flight; an event nobody waits for is ignored. */
  function Responded(w: World, e: State, random: seq<byte>): State
    requires |random| == 8
    requires e.queue != [] && e.queue[0].now.CcmJob? ==> Ccm.Ok(e.queue[0].now.request)
  {
    if !e.wait || e.inFlight == [] then e
    else
      var e1 := e.(wait := false, inFlight := e.inFlight[1..]);
      if e.queue == [] then e1
      else
        var (head, s, done) := Answered(w, e.queue[0], e.statics, e.inFlight[0], random);
        Delivered(e1, head, s, done)
  }

  /** An answer taken in at the head. */
  function Delivered(e: State, head: Entry, s: Statics, done: bool): State
    requires e.queue != []
  {
    if done then Finished(e, head, s) else e.(queue := [head] + e.queue[1..], statics := s)
  }

  /** btstack_crypto_state_reset. The histories start over with the queue. */
  function Halted(e: State): State {
    State([], Statics(e.statics.cmac.(state := M.Idle), e.statics.ecc.(state := KeyIdle)), false, [], [])
  }

  lemma InvReady(w: World, e: State)
    requires Inv(w, e)
    ensures e.queue != [] && !e.wait ==> Ready(e.queue[0], e.statics)
    ensures e.queue != [] && e.queue[0].now.CcmJob? ==> Ccm.Ok(e.queue[0].now.request)
  {
    hide HeadGood, Completed, Fresh, Ready;
    if e.queue != [] {
      HeadReady(w, e.queue[0], e.statics, Flying(e));
    }
  }

  ghost function Step(w: World, e: State, ev: Event): State
    requires Inv(w, e) && LegalEvent(ev)
  {
    InvReady(w, e);
    match ev
    case Submit(job) => Submitted(e, job)
    case RunPass => if e.wait then e else Passed(w, e)
    case Response(random) => Responded(w, e, random)
    case Halt => Halted(e)
  }

  // Every step keeps the invariant.

  lemma SubmitKeeps(w: World, e: State, job: Job)
    requires Inv(w, e) && Legal(job)
    ensures Inv(w, Submitted(e, job))
  {
    var entry := Entry(job, job, []);
    var s := Requested(job, e.statics);
    assert Fresh(entry);
    hide HeadGood, Completed, Fresh, Quiet, Requested;
    if e.queue == [] {
      RequestedKeeps(w, entry, e.statics, None, job);
      FreshHead(w, entry, s);
    } else {
      RequestedKeeps(w, e.queue[0], e.statics, Flying(e), job);
    }
  }

  lemma FinishedKeeps(w: World, e: State, head: Entry, s: Statics)
    requires e.queue != [] && !e.wait && e.inFlight == [] && Completed(w, head) && Quiet(w, s)
    requires forall i :: 1 <= i < |e.queue| ==> Fresh(e.queue[i])
    requires forall i :: 0 <= i < |e.done| ==> Completed(w, e.done[i])
    ensures Inv(w, Finished(e, head, s))
  {
    hide HeadGood, Completed, Fresh, Quiet;
    if |e.queue| > 1 {
      FreshHead(w, e.queue[1], s);
    }
  }

  lemma PassKeeps(w: World, e: State)
    requires Inv(w, e) && !e.wait && e.queue != []
    ensures Ready(e.queue[0], e.statics) && Inv(w, Passed(w, e))
  {
    hide HeadGood, Completed, Fresh, Quiet, Ready, PassHead, Cost;
    HeadPass(w, e.queue[0], e.statics);
    var (head, s, pass) := PassHead(w, e.queue[0], e.statics);
    if pass.Done? {
      FinishedKeeps(w, e, head, s);
    }
  }

  lemma ResponseKeeps(w: World, e: State, random: seq<byte>)
    requires Inv(w, e) && |random| == 8 && e.wait
    ensures e.queue != [] && (e.queue[0].now.CcmJob? ==> Ccm.Ok(e.queue[0].now.request))
    ensures Inv(w, Responded(w, e, random))
  {
    hide HeadGood, Completed, Fresh, Quiet, Answered, Cost;
    HeadAnswer(w, e.queue[0], e.statics, e.inFlight[0], random);
    var (head, s, done) := Answered(w, e.queue[0], e.statics, e.inFlight[0], random);
    if done {
      FinishedKeeps(w, e.(wait := false, inFlight := e.inFlight[1..]), head, s);
    }
  }

  lemma HaltKeeps(w: World, e: State)
    requires Inv(w, e)
    ensures Inv(w, Halted(e))
  {
    hide Flatten, Completed, Fresh;
  }

  lemma StepKeeps(w: World, e: State, ev: Event)
    requires Inv(w, e) && LegalEvent(ev)
    ensures Inv(w, Step(w, e, ev))
  {
    InvReady(w, e);
    hide Inv, Passed, Responded;
    match ev
    case Submit(job) => SubmitKeeps(w, e, job);
    case RunPass =>
      if !e.wait && e.queue != [] {
        PassKeeps(w, e);
      } else {
        NothingToPass(w, e);
      }
    case Response(random) =>
      if e.wait {
        ResponseKeeps(w, e, random);
      } else {
        Stray(w, e, random);
      }
    case Halt => HaltKeeps(w, e);
  }

  lemma NothingToPass(w: World, e: State)
    requires Inv(w, e) && (e.queue == [] || e.wait)
    ensures Step(w, e, RunPass) == e
  {}

  /** An event that nobody waits for changes nothing. */
  lemma Stray(w: World, e: State, random: seq<byte>)
    requires !e.wait && |random| == 8
    requires e.queue != [] && e.queue[0].now.CcmJob? ==> Ccm.Ok(e.queue[0].now.request)
    ensures Responded(w, e, random) == e
  {}

  // Runs.

  ghost function Next(w: World, e: State, ev: Event): (r: State)
    requires Inv(w, e) && LegalEvent(ev)
    ensures Inv(w, r)
  {
    StepKeeps(w, e, ev);
    Step(w, e, ev)
  }

  ghost function Run(w: World, e: State, events: seq<Event>): (r: State)
    requires Inv(w, e) && LegalEvents(events)
    ensures Inv(w, r)
    decreases |events|
  {
    if events == [] then e
    else
      Next(w, Run(w, e, events[..|events| - 1]), events[|events| - 1])
  }

  lemma RunOne(w: World, e: State, events: seq<Event>, ev: Event)
    requires Inv(w, e) && LegalEvents(events) && LegalEvent(ev)
    ensures LegalEvents(events + [ev]) && Run(w, e, events + [ev]) == Step(w, Run(w, e, events), ev)
  {
    hide Inv, Step;
    assert (events + [ev])[..|events|] == events;
  }

  lemma InvStart(w: World)
    ensures Inv(w, START)
  {}

  /** Where a run from the start of the program is after the events. */
  ghost function After(w: World, events: seq<Event>): (r: State)
    requires LegalEvents(events)
    ensures Inv(w, r)
  {
    InvStart(w);
    Run(w, START, events)
  }

  function Asked(entries: seq<Entry>): (jobs: seq<Job>)
    ensures |jobs| == |entries|
  {
    seq(|entries|, i requires 0 <= i < |entries| => entries[i].asked)
  }

  /** The submissions since the stack last halted, in order. */
  function Submissions(events: seq<Event>): seq<Job>
    decreases |events|
  {
    if events == [] then []
    else
      var before := Submissions(events[..|events| - 1]);
      match events[|events| - 1]
      case Submit(job) => before + [job]
      case Halt => []
      case _ => before
  }

  /** First in, first out, and each callback exactly once: the requests called back, followed by those
      still queued, are the requests submitted. */
  ghost predicate InOrder(e: State, jobs: seq<Job>) {
    Asked(e.done) + Asked(e.queue) == jobs
  }

  lemma FinishedInOrder(e: State, head: Entry, s: Statics)
    requires e.queue != [] && head.asked == e.queue[0].asked
    ensures Asked(Finished(e, head, s).done) + Asked(Finished(e, head, s).queue) == Asked(e.done) + Asked(e.queue)
  {
    assert Asked(e.done + [head]) == Asked(e.done) + [head.asked];
    assert Asked(e.queue) == [head.asked] + Asked(e.queue[1..]);
  }

  lemma SameHeadInOrder(queue: seq<Entry>, head: Entry)
    requires queue != [] && head.asked == queue[0].asked
    ensures Asked([head] + queue[1..]) == Asked(queue)
  {}

  lemma PassInOrder(w: World, e: State)
    requires Inv(w, e) && !e.wait && e.queue != []
    ensures Ready(e.queue[0], e.statics)
    ensures Asked(Passed(w, e).done) + Asked(Passed(w, e).queue) == Asked(e.done) + Asked(e.queue)
  {
    hide HeadGood, Completed, Fresh, Quiet, Ready, PassHead, Cost, Asked;
    HeadPass(w, e.queue[0], e.statics);
    var (head, s, pass) := PassHead(w, e.queue[0], e.statics);
    if pass.Done? {
      FinishedInOrder(e, head, s);
    } else {
      SameHeadInOrder(e.queue, head);
    }
  }

  lemma ResponseInOrder(w: World, e: State, random: seq<byte>)
    requires Inv(w, e) && |random| == 8 && e.wait
    ensures e.queue != [] && (e.queue[0].now.CcmJob? ==> Ccm.Ok(e.queue[0].now.request))
    ensures var r := Responded(w, e, random); Asked(r.done) + Asked(r.queue) == Asked(e.done) + Asked(e.queue)
  {
    hide HeadGood, Completed, Fresh, Quiet, Answered, Cost, Asked;
    HeadAnswer(w, e.queue[0], e.statics, e.inFlight[0], random);
    var (head, s, done) := Answered(w, e.queue[0], e.statics, e.inFlight[0], random);
    if done {
      FinishedInOrder(e.(wait := false, inFlight := e.inFlight[1..]), head, s);
    } else {
      SameHeadInOrder(e.queue, head);
    }
  }

  lemma SubmittedInOrder(e: State, job: Job)
    ensures var r := Submitted(e, job);
            Asked(r.done) + Asked(r.queue) == (Asked(e.done) + Asked(e.queue)) + [job]
  {
    assert Asked(e.queue + [Entry(job, job, [])]) == Asked(e.queue) + [job];
  }

  lemma StepInOrder(w: World, e: State, ev: Event, jobs: seq<Job>)
    requires Inv(w, e) && LegalEvent(ev) && InOrder(e, jobs)
    ensures InOrder(Step(w, e, ev),
                    match ev case Submit(job) => jobs + [job] case Halt => [] case _ => jobs)
  {
    InvReady(w, e);
    hide Inv, Passed, Responded, Submitted, Asked;
    match ev
    case Submit(job) => SubmittedInOrder(e, job);
    case RunPass =>
      if !e.wait && e.queue != [] {
        PassInOrder(w, e);
      } else {
        NothingToPass(w, e);
      }
    case Response(random) =>
      if e.wait {
        ResponseInOrder(w, e, random);
      } else {
        Stray(w, e, random);
      }
    case Halt =>
  }

  /** Over every run, requests complete in the order of submission and none twice, at most one HCI
      command is outstanding, and the wait flag says exactly whether one is. */
  lemma {:induction false} Fifo(w: World, events: seq<Event>)
    requires LegalEvents(events)
    ensures var e := After(w, events);
            && Asked(e.done) + Asked(e.queue) == Submissions(events)
            && |e.inFlight| <= 1 && (e.wait <==> |e.inFlight| == 1)
            && (e.wait ==> e.queue != [])
    decreases |events|
  {
    if events != [] {
      var before, ev := events[..|events| - 1], events[|events| - 1];
      Fifo(w, before);
      StepInOrder(w, After(w, before), ev, Submissions(before));
      hide Step, Asked, HeadGood, Completed;
    }
  }
}
