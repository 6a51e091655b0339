/** Key generation requests in the queue: how many LE_RAND responses each takes, and whose key it gets. */
module EngineKeys {
  import opened Bytes
  import opened Options
  import opened Engine
  import opened EngineHead
  import opened EngineRuns
  import Ccm

  // What came of the key state since a request reached the head of the queue.

  /** Whether the key state was idle when it did, and how often a further generate_key has set a finished
      key back to idle since. */
  datatype Turn = Turn(idle: bool, resets: nat)

  /** The turn of the request at the head, and the turns of those called back. */
  datatype Trace = Trace(head: Turn, done: seq<Turn>)

  function Keys(turn: Turn): nat {
    (if turn.idle then 1 else 0) + turn.resets
  }

  function Arrival(e: State): Turn {
    Turn(e.statics.ecc.state.KeyIdle?, 0)
  }

  predicate AsksForKey(ev: Event) {
    ev.Submit? && ev.job.GenerateKey?
  }

  /** The event ev took e to r. */
  function Followed(t: Trace, e: State, ev: Event, r: State): Trace {
    if ev.Halt? then Trace(Arrival(r), [])
    else if |r.done| > |e.done| then Trace(Arrival(r), t.done + [t.head])
    else if e.queue == [] then t.(head := Arrival(r))
    else if AsksForKey(ev) && e.statics.ecc.state.KeyDone? then t.(head := Turn(t.head.idle, t.head.resets + 1))
    else t
  }

  ghost function Traced(w: World, events: seq<Event>): Trace
    requires LegalEvents(events)
    decreases |events|
  {
    if events == [] then Trace(Turn(true, 0), [])
    else
      var before := events[..|events| - 1];
      Followed(Traced(w, before), After(w, before), events[|events| - 1], After(w, events))
  }

  // The responses that a key request has taken.

  predicate LastOf(gathered: seq<seq<byte>>, answers: seq<seq<byte>>) {
    |gathered| <= |answers| && gathered == answers[|answers| - |gathered|..]
  }

  /** At the head: whole keys, and the part of one under way. */
  predicate HeadTakes(entry: Entry, ecc: Ecc, turn: Turn) {
    entry.now.GenerateKey? ==>
      var n := |entry.answers|;
      match ecc.state
      case KeyIdle => n + 8 == 8 * Keys(turn)
      case GeneratingRandom => n + 8 == 8 * Keys(turn) + |ecc.gathered| && LastOf(ecc.gathered, entry.answers)
      case Active => false
      case KeyDone => n == 8 * Keys(turn) && (n > 0 ==> LastOf(ecc.gathered, entry.answers))
  }

  predicate DoneTakes(entry: Entry, turn: Turn) {
    entry.now.GenerateKey? ==>
      && |entry.answers| == 8 * Keys(turn)
      && (entry.answers != [] ==> LastOf(entry.now.gathered, entry.answers))
  }

  predicate Takes(e: State, t: Trace) {
    && |t.done| == |e.done|
    && (forall i :: 0 <= i < |e.done| ==> DoneTakes(e.done[i], t.done[i]))
    && (e.queue != [] ==> HeadTakes(e.queue[0], e.statics.ecc, t.head))
  }

  lemma ArrivalTakes(w: World, e: State)
    requires e.queue != [] && Fresh(e.queue[0]) && Quiet(w, e.statics)
    ensures HeadTakes(e.queue[0], e.statics.ecc, Arrival(e))
  {
    hide Flatten, Legal;
  }

  lemma ResetTakes(entry: Entry, s: Statics, turn: Turn, job: Job)
    requires HeadTakes(entry, s.ecc, turn)
    ensures job.GenerateKey? && s.ecc.state.KeyDone? ==>
              HeadTakes(entry, Requested(job, s).ecc, Turn(turn.idle, turn.resets + 1))
    ensures !(job.GenerateKey? && s.ecc.state.KeyDone?) ==> HeadTakes(entry, Requested(job, s).ecc, turn)
  {}

  lemma PassTakes(w: World, entry: Entry, s: Statics, turn: Turn)
    requires Ready(entry, s) && HeadTakes(entry, s.ecc, turn) && KeyGood(w, s.ecc)
    ensures var (head, s1, pass) := PassHead(w, entry, s);
            && (pass.Done? ==> DoneTakes(head, turn))
            && (!pass.Done? ==> HeadTakes(head, s1.ecc, turn))
  {
    hide Flatten, Ready, Encrypt, PassCmac, PassCcm;
    match entry.now
    case CmacJob(_, _, _, _) => CmacPassKind(entry, s);
    case CcmJob(_) => CcmPassKind(entry, s);
    case _ =>
  }

  lemma CmacPassKind(entry: Entry, s: Statics)
    requires Ready(entry, s) && entry.now.CmacJob?
    ensures var (head, s1, pass) := PassCmac(entry, s); head.now.CmacJob? && !pass.Done?
  {}

  lemma CcmPassKind(entry: Entry, s: Statics)
    requires Ready(entry, s) && entry.now.CcmJob?
    ensures var (head, s1, pass) := PassCcm(entry, s); head.now.CcmJob?
  {
    hide Ccm.Calc, Ccm.Ok;
  }

  lemma LastOfMore(gathered: seq<seq<byte>>, answers: seq<seq<byte>>, data: seq<byte>)
    requires LastOf(gathered, answers)
    ensures LastOf(gathered + [data], answers + [data])
  {}

  lemma RandomTakes(w: World, entry: Entry, s: Statics, turn: Turn, data: seq<byte>)
    requires HeadTakes(entry, s.ecc, turn) && |data| == 8
    requires entry.now.GenerateKey? ==> s.ecc.state.GeneratingRandom? && |s.ecc.gathered| < 8
    ensures var (head, s1, done) := TakeRandom(w, entry, s, data);
            && (done ==> DoneTakes(head, turn))
            && (!done ==> HeadTakes(head, s1.ecc, turn))
  {
    hide Flatten;
    if entry.now.GenerateKey? {
      LastOfMore(s.ecc.gathered, entry.answers, data);
      hide LastOf;
    }
  }

  lemma BlockTakes(entry: Entry, s: Statics, turn: Turn, data: Block)
    requires entry.now.CcmJob? ==> Ccm.Ok(entry.now.request)
    requires !entry.now.GenerateKey?
    ensures var (head, s1, done) := TakeBlock(entry, s, data);
            && (done ==> DoneTakes(head, turn))
            && (!done ==> HeadTakes(head, s1.ecc, turn))
  {
    hide Ccm.Handle, Ccm.Ok, Flip;
  }

  // Every run.

  lemma SubmitTaken(w: World, e: State, job: Job, t: Trace)
    requires Inv(w, e) && Legal(job) && Takes(e, t)
    ensures var r := Submitted(e, job); Takes(r, Followed(t, e, Submit(job), r))
  {
    var entry := Entry(job, job, []);
    assert Fresh(entry);
    hide HeadGood, Completed, Fresh, Quiet, Requested, HeadTakes, DoneTakes;
    var r := Submitted(e, job);
    if e.queue == [] {
      RequestedKeeps(w, entry, e.statics, None, job);
      ArrivalTakes(w, r);
    } else {
      assert r.queue[0] == e.queue[0];
      ResetTakes(e.queue[0], e.statics, t.head, job);
    }
  }

  lemma FinishedTaken(w: World, e: State, ev: Event, t: Trace, e0: State, head: Entry, s: Statics)
    requires Takes(e, t) && !ev.Halt? && e0.queue == e.queue != [] && e0.done == e.done
    requires DoneTakes(head, t.head) && Quiet(w, s)
    requires |e.queue| > 1 ==> Fresh(e.queue[1])
    ensures var r := Finished(e0, head, s); Takes(r, Followed(t, e, ev, r))
  {
    var r := Finished(e0, head, s);
    if |e.queue| > 1 {
      ArrivalTakes(w, r);
    }
    hide HeadTakes, DoneTakes, Quiet, Fresh;
  }

  lemma HeadKeyGood(w: World, e: State)
    requires Inv(w, e) && e.queue != []
    ensures KeyGood(w, e.statics.ecc)
    ensures e.wait && e.queue[0].now.GenerateKey? ==>
              e.statics.ecc.state.GeneratingRandom? && |e.statics.ecc.gathered| < 8 && e.inFlight == [LeRand]
    ensures |e.queue| > 1 ==> Fresh(e.queue[1])
  {
    hide Flatten, Completed, Fresh;
  }

  lemma PassTaken(w: World, e: State, t: Trace)
    requires Inv(w, e) && !e.wait && e.queue != [] && Takes(e, t)
    ensures Ready(e.queue[0], e.statics)
    ensures var r := Passed(w, e); Takes(r, Followed(t, e, RunPass, r))
  {
    HeadKeyGood(w, e);
    hide HeadGood, Completed, Fresh, Quiet, Ready, PassHead, Cost, HeadTakes, DoneTakes, KeyGood;
    HeadPass(w, e.queue[0], e.statics);
    PassTakes(w, e.queue[0], e.statics, t.head);
    var (head, s, pass) := PassHead(w, e.queue[0], e.statics);
    if pass.Done? {
      FinishedTaken(w, e, RunPass, t, e, head, s);
    }
  }

  lemma AnswerTakes(w: World, entry: Entry, s: Statics, c: Command, turn: Turn, random: seq<byte>)
    requires HeadTakes(entry, s.ecc, turn) && |random| == 8
    requires entry.now.GenerateKey? ==> s.ecc.state.GeneratingRandom? && |s.ecc.gathered| < 8 && c.LeRand?
    requires entry.now.CcmJob? ==> Ccm.Ok(entry.now.request)
    ensures var (head, s1, done) := Answered(w, entry, s, c, random);
            && (done ==> DoneTakes(head, turn))
            && (!done ==> HeadTakes(head, s1.ecc, turn))
  {
    hide HeadTakes, DoneTakes, TakeRandom, TakeBlock, Flip, Ccm.Ok;
    match c
    case LeRand => RandomTakes(w, entry, s, turn, random);
    case LeEncrypt(key, plaintext) => BlockTakes(entry, s, turn, Flip(w.E(Flip(key), Flip(plaintext))));
  }

  lemma ResponseTaken(w: World, e: State, t: Trace, random: seq<byte>)
    requires Inv(w, e) && |random| == 8 && e.wait && Takes(e, t)
    ensures e.queue != [] && (e.queue[0].now.CcmJob? ==> Ccm.Ok(e.queue[0].now.request))
    ensures var r := Responded(w, e, random); Takes(r, Followed(t, e, Response(random), r))
  {
    assert e.queue != [];
    HeadKeyGood(w, e);
    hide HeadGood, Completed, Fresh, Quiet, Answered, Cost, HeadTakes, DoneTakes, KeyGood;
    HeadAnswer(w, e.queue[0], e.statics, e.inFlight[0], random);
    AnswerTakes(w, e.queue[0], e.statics, e.inFlight[0], t.head, random);
    var (head, s, done) := Answered(w, e.queue[0], e.statics, e.inFlight[0], random);
    if done {
      FinishedTaken(w, e, Response(random), t, e.(wait := false, inFlight := e.inFlight[1..]), head, s);
    }
  }

  lemma SameTaken(e: State, ev: Event, t: Trace)
    requires Takes(e, t) && (ev.RunPass? || ev.Response?)
    ensures Takes(e, Followed(t, e, ev, e))
  {
    hide HeadTakes, DoneTakes;
  }

  lemma StepTaken(w: World, e: State, ev: Event, t: Trace)
    requires Inv(w, e) && LegalEvent(ev) && Takes(e, t)
    ensures Takes(Step(w, e, ev), Followed(t, e, ev, Step(w, e, ev)))
  {
    InvReady(w, e);
    hide Inv, Passed, Responded, Submitted, HeadTakes, DoneTakes;
    match ev
    case Submit(job) => SubmitTaken(w, e, job, t);
    case RunPass =>
      SameTaken(e, ev, t);
      if !e.wait && e.queue != [] {
        PassTaken(w, e, t);
      } else {
        NothingToPass(w, e);
      }
    case Response(random) =>
      SameTaken(e, ev, t);
      if e.wait {
        ResponseTaken(w, e, t, random);
      } else {
        Stray(w, e, random);
      }
    case Halt =>
  }

  lemma {:induction false} AllTaken(w: World, events: seq<Event>)
    requires LegalEvents(events)
    ensures Takes(After(w, events), Traced(w, events))
    decreases |events|
  {
    if events != [] {
      var before, ev := events[..|events| - 1], events[|events| - 1];
      AllTaken(w, before);
      StepTaken(w, After(w, before), ev, Traced(w, before));
      hide Step, Inv, Followed, HeadTakes, DoneTakes;
    }
  }

  predicate KeyFrom(w: World, entry: Entry, turn: Turn) {
    var n := |entry.answers|;
    && n == 8 * ((if turn.idle then 1 else 0) + turn.resets)
    && (n == 8 <==> if turn.idle then turn.resets == 0 else turn.resets == 1)
    && (n == 0 <==> !turn.idle && turn.resets == 0)
    && entry.now.GenerateKey? && (n > 0 ==> entry.now.gathered == entry.answers[n - 8..])
    && entry.now.publicKey == Some(w.keyGen(Flatten(entry.now.gathered)).0)
  }

  lemma KeyEntry(w: World, entry: Entry, turn: Turn)
    requires Completed(w, entry) && entry.asked.GenerateKey? && DoneTakes(entry, turn)
    ensures KeyFrom(w, entry, turn)
  {
    hide Flatten;
  }

  /** Over every run: a key request that is called back has taken eight responses for each time that its
      key state was idle, when it reached the head or because a further generate_key came between the
      eighth response and the delivery. Its key is made from the last eight of them. */
  lemma KeyResponses(w: World, events: seq<Event>, i: nat)
    requires LegalEvents(events) && i < |After(w, events).done|
    ensures i < |Traced(w, events).done|
    ensures var entry, turn := After(w, events).done[i], Traced(w, events).done[i];
            entry.asked.GenerateKey? ==> KeyFrom(w, entry, turn)
  {
    AllTaken(w, events);
    var e, t := After(w, events), Traced(w, events);
    assert Completed(w, e.done[i]) && DoneTakes(e.done[i], t.done[i]);
    hide *;
    if e.done[i].asked.GenerateKey? {
      KeyEntry(w, e.done[i], t.done[i]);
    }
  }

  // Single keys.

  /** Passes and answers, one after the other. */
  function Rounds(answers: seq<seq<byte>>): (events: seq<Event>)
    ensures |events| == 2 * |answers|
    ensures (forall i :: 0 <= i < |answers| ==> |answers[i]| == 8) ==> LegalEvents(events)
    decreases |answers|
  {
    if answers == [] then []
    else Rounds(answers[..|answers| - 1]) + [RunPass] + [Response(answers[|answers| - 1])]
  }

  /** The key generation has taken the responses since it was idle. */
  predicate Gathered(e: State, answers: seq<seq<byte>>) {
    && e.queue != [] && e.queue[0].now.GenerateKey? && !e.wait
    && if answers == [] then e.statics.ecc.state.KeyIdle?
       else e.statics.ecc.gathered == answers
            && e.statics.ecc.state == if |answers| < 8 then GeneratingRandom else KeyDone
  }

  lemma GatherPass(w: World, e: State, answers: seq<seq<byte>>)
    requires Inv(w, e) && Gathered(e, answers) && |answers| < 8
    ensures var e1 := Step(w, e, RunPass);
            && e1.wait && e1.inFlight == [LeRand] && e1.queue == e.queue && e1.done == e.done
            && e1.statics.ecc.state.GeneratingRandom? && e1.statics.ecc.gathered == answers
  {
    hide Flatten, Completed, Fresh;
  }

  /** The queue with more answers at its head. */
  function Answering(queue: seq<Entry>, answers: seq<seq<byte>>): seq<Entry>
    requires queue != []
  {
    [queue[0].(answers := queue[0].answers + answers)] + queue[1..]
  }

  /** The random buffer has room for the response, and takes it. */
  lemma GatherResponse(w: World, e: State, answers: seq<seq<byte>>, data: seq<byte>)
    requires Inv(w, e) && |data| == 8 && e.queue != [] && e.queue[0].now.GenerateKey? && e.wait
    requires e.inFlight == [LeRand] && e.statics.ecc.state.GeneratingRandom? && e.statics.ecc.gathered == answers
    ensures 8 * |answers| + 8 <= 64
    ensures var r := Step(w, e, Response(data));
            Gathered(r, answers + [data]) && r.queue == Answering(e.queue, [data]) && r.done == e.done
  {
    HeadKeyGood(w, e);
    InvReady(w, e);
    hide Flatten, Completed, Fresh, HeadGood, Inv;
  }

  lemma AnsweringMore(queue: seq<Entry>, answers: seq<seq<byte>>, data: seq<byte>)
    requires queue != []
    ensures Answering(queue, []) == queue
    ensures Answering(Answering(queue, answers), [data]) == Answering(queue, answers + [data])
  {
    var a := queue[0].answers;
    assert a + [] == a && (a + answers) + [data] == a + (answers + [data]);
    assert queue[0].(answers := a) == queue[0];
  }

  lemma OneRound(w: World, e: State, answers: seq<seq<byte>>, data: seq<byte>)
    requires Inv(w, e) && Gathered(e, answers) && |answers| < 8 && |data| == 8
    ensures e.queue != []
    ensures var e1 := Step(w, e, RunPass);
            Inv(w, e1) && var r := Step(w, e1, Response(data));
            Gathered(r, answers + [data]) && r.queue == Answering(e.queue, [data]) && r.done == e.done
  {
    assert e.queue != [] && e.queue[0].now.GenerateKey?;
    hide *;
    StepKeeps(w, e, RunPass);
    GatherPass(w, e, answers);
    GatherResponse(w, Step(w, e, RunPass), answers, data);
  }

  lemma RoundsMore(answers: seq<seq<byte>>, data: seq<byte>)
    ensures Rounds(answers + [data]) == Rounds(answers) + [RunPass] + [Response(data)]
    ensures Rounds([]) == []
  {
    assert (answers + [data])[..|answers|] == answers;
  }

  lemma RunPair(w: World, e: State, answers: seq<seq<byte>>, data: seq<byte>)
    requires Inv(w, e) && LegalEvents(Rounds(answers)) && |data| == 8
    ensures LegalEvents(Rounds(answers + [data]))
    ensures var e1 := Run(w, e, Rounds(answers));
            Inv(w, Step(w, e1, RunPass))
            && Run(w, e, Rounds(answers + [data])) == Step(w, Step(w, e1, RunPass), Response(data))
  {
    assert LegalEvent(RunPass) && LegalEvent(Response(data));
    hide *;
    var events := Rounds(answers);
    RoundsMore(answers, data);
    RunOne(w, e, events, RunPass);
    RunOne(w, e, events + [RunPass], Response(data));
    StepKeeps(w, Run(w, e, events), RunPass);
  }

  /** Undisturbed: key generation that starts idle, at the head of the queue, takes eight responses. */
  lemma {:induction false} EightRounds(w: World, e: State, answers: seq<seq<byte>>)
    requires Inv(w, e) && Gathered(e, []) && |answers| <= 8
    requires forall i :: 0 <= i < |answers| ==> |answers[i]| == 8
    ensures e.queue != []
    ensures var r := Run(w, e, Rounds(answers));
            Gathered(r, answers) && r.queue == Answering(e.queue, answers) && r.done == e.done
    decreases |answers|
  {
    assert e.queue != [];
    hide *;
    if answers == [] {
      RunNothing(w, e);
      AnsweringMore(e.queue, [], []);
    } else {
      var before, data := answers[..|answers| - 1], answers[|answers| - 1];
      assert before + [data] == answers;
      EightRounds(w, e, before);
      RunPair(w, e, before, data);
      OneRound(w, Run(w, e, Rounds(before)), before, data);
      AnsweringMore(e.queue, before, data);
    }
  }

  lemma RunNothing(w: World, e: State)
    requires Inv(w, e)
    ensures Rounds([]) == [] && Run(w, e, []) == e
  {}

  /** The key comes from the eight responses, one after the other. */
  lemma KeyFromEight(w: World, e: State, answers: seq<seq<byte>>)
    requires Inv(w, e) && Gathered(e, answers) && |answers| == 8
    ensures var r := Step(w, e, RunPass);
            && r.queue == e.queue[1..] && |r.done| == |e.done| + 1
            && r.done[|e.done|].now == GenerateKey(Some(w.keyGen(Flatten(answers)).0), answers)
            && r.done[|e.done|].answers == e.queue[0].answers && r.statics == e.statics
  {
    hide Flatten, Completed, Fresh;
  }

  /** A key asked for when nothing is queued is made from scratch, also after one that is done. */
  lemma KeyStartsOver(w: World, e: State)
    requires Inv(w, e) && e.queue == []
    ensures var r := Step(w, e, Submit(GenerateKey(None, [])));
            Gathered(r, []) && r.queue == [Entry(GenerateKey(None, []), GenerateKey(None, []), [])] && r.done == e.done
  {
    hide Flatten;
  }

  /** No response of its own: a key request behind one whose eight responses are there gets the same key. */
  lemma KeyShared(w: World, e: State, answers: seq<seq<byte>>)
    requires Inv(w, e) && Gathered(e, answers) && |answers| == 8
    requires |e.queue| > 1 && e.queue[1].now.GenerateKey?
    ensures var r1 := Step(w, e, RunPass);
            Inv(w, r1) && var r := Step(w, r1, RunPass);
            && |r.done| == |e.done| + 2 && r.queue == e.queue[2..]
            && r.done[|e.done|].now == r.done[|e.done| + 1].now && r.done[|e.done| + 1].answers == []
  {
    var r1 := Step(w, e, RunPass);
    StepKeeps(w, e, RunPass);
    KeyFromEight(w, e, answers);
    assert Fresh(e.queue[1]) && e.queue[1..][0] == e.queue[1] && !r1.wait;
    SharedPass(w, r1, answers);
    hide Step, Inv, Flatten, Gathered;
  }

  lemma SharedPass(w: World, e: State, answers: seq<seq<byte>>)
    requires Inv(w, e) && Gathered(e, answers) && |answers| == 8 && Fresh(e.queue[0])
    ensures var r := Step(w, e, RunPass);
            && r.queue == e.queue[1..] && |r.done| == |e.done| + 1 && r.done[..|e.done|] == e.done
            && r.done[|e.done|].now == GenerateKey(Some(w.keyGen(Flatten(answers)).0), answers)
            && r.done[|e.done|].answers == []
  {
    hide Flatten, Completed;
  }

  /** A generate_key between the eighth response and the delivery sends the head back to the start. */
  lemma KeyAgain(w: World, e: State, answers: seq<seq<byte>>)
    requires Inv(w, e) && Gathered(e, answers) && |answers| == 8
    ensures var r := Step(w, e, Submit(GenerateKey(None, [])));
            Gathered(r, []) && r.queue[0] == e.queue[0] && r.done == e.done
  {
    hide Flatten, Completed, Fresh, HeadGood;
  }

  predicate EightOfEight(answers: seq<seq<byte>>) {
    |answers| == 8 && forall i :: 0 <= i < 8 ==> |answers[i]| == 8
  }

  /** The run of a key request with a second one coming in late. */
  ghost function LateSecond(w: World, e: State, first: seq<seq<byte>>, second: seq<seq<byte>>): (r: State)
    requires Inv(w, e) && EightOfEight(first) && EightOfEight(second)
    ensures Inv(w, r)
  {
    var e1 := Next(w, e, Submit(GenerateKey(None, [])));
    var e2 := Run(w, e1, Rounds(first));
    var e3 := Next(w, e2, Submit(GenerateKey(None, [])));
    var e4 := Run(w, e3, Rounds(second));
    Next(w, e4, RunPass)
  }

  lemma NextIsStep(w: World, e: State, ev: Event)
    requires Inv(w, e) && LegalEvent(ev)
    ensures Next(w, e, ev) == Step(w, e, ev)
  {}

  /** Sixteen responses for one key request, although its key state was idle when it came. */
  lemma Sixteen(w: World, e: State, first: seq<seq<byte>>, second: seq<seq<byte>>)
    requires Inv(w, e) && e.queue == [] && EightOfEight(first) && EightOfEight(second)
    ensures var r := LateSecond(w, e, first, second);
            && |r.done| == |e.done| + 1 && r.done[|e.done|].answers == first + second
            && r.done[|e.done|].now == GenerateKey(Some(w.keyGen(Flatten(second)).0), second)
  {
    var job := GenerateKey(None, []);
    assert LegalEvent(Submit(job)) && LegalEvent(RunPass);
    assert |first| == 8 && |second| == 8;
    var e1 := Next(w, e, Submit(job));
    var e2 := Run(w, e1, Rounds(first));
    var e3 := Next(w, e2, Submit(job));
    var e4 := Run(w, e3, Rounds(second));
    assert LateSecond(w, e, first, second) == Next(w, e4, RunPass);
    hide Step, Next, Run, Inv, Gathered, Rounds, Flatten, LateSecond;
    NextIsStep(w, e, Submit(job));
    NextIsStep(w, e2, Submit(job));
    NextIsStep(w, e4, RunPass);
    KeyStartsOver(w, e);
    EightRounds(w, e1, first);
    KeyAgain(w, e2, first);
    EightRounds(w, e3, second);
    KeyFromEight(w, e4, second);
    assert [] + first == first;
  }

  /** A shared secret is made with the private half of the last key. */
  lemma DhkeyUsesLastKey(w: World, e: State)
    requires Inv(w, e) && !e.wait && e.queue != [] && e.queue[0].now.Dhkey? && e.statics.ecc.state.KeyDone?
    ensures var r := Step(w, e, RunPass);
            && r.queue == e.queue[1..] && |r.done| == |e.done| + 1
            && r.done[|e.done|].now.Dhkey?
            && r.done[|e.done|].now.dhkey
               == Some(w.dh(e.queue[0].now.peer, w.keyGen(Flatten(e.statics.ecc.gathered)).1))
  {
    hide Flatten, Completed, Fresh;
  }
}
