/** The engine as the program keeps it: a queue, a flag and the statics, updated in place. */
module CryptoEngine {
  import opened Bytes
  import opened Options
  import opened Engine
  import opened EngineRuns
  import EngineHead
  import EngineProgress
  import C = Cmac
  import M = CmacMachine
  import Ccm

  class Crypto {
    const w: World
    var operations: seq<Entry>
    var waitForHciResult: bool
    const cmac: M.CmacEngine
    var keyState: KeyState
    const random: array<byte>
    var randomLen: nat
    var publicKey: seq<byte>
    var d: seq<byte>
    /** HCI commands sent and not answered; callbacks made; the responses behind the random buffer. */
    var inFlight: seq<Command>
    var done: seq<Entry>
    var gathered: seq<seq<byte>>

    ghost predicate Valid()
      reads this, random
    {
      && random.Length == 64 && randomLen <= 64
      && randomLen == 8 * |gathered| && random[..randomLen] == Flatten(gathered)
    }

    ghost function View(): State
      reads this, cmac
    {
      State(operations, Statics(cmac.View(), Ecc(keyState, gathered, publicKey, d)), waitForHciResult, inFlight, done)
    }

    constructor (world: World)
      ensures Valid() && View() == START && w == world && fresh(cmac) && fresh(random)
    {
      w := world;
      operations, waitForHciResult, inFlight, done := [], false, [], [];
      cmac := new M.CmacEngine();
      keyState, publicKey, d := KeyIdle, [], [];
      random := new byte[64](_ => 0);
      randomLen, gathered := 0, [];
    }

    /** The common end of the request entry points; generate_key first starts over after a finished key. */
    method Submit(job: Job)
      requires Valid()
      modifies this
      ensures Valid() && View() == Submitted(old(View()), job)
    {
      if job.GenerateKey? && keyState == KeyDone {
        keyState := KeyIdle;
      }
      operations := operations + [Entry(job, job, [])];
    }

    method SendCommand(command: Command)
      modifies `waitForHciResult, `inFlight
      ensures waitForHciResult && inFlight == old(inFlight) + [command]
    {
      waitForHciResult := true;
      inFlight := inFlight + [command];
    }

    /** btstack_crypto_done. */
    method Complete(head: Entry)
      requires operations != []
      modifies `operations, `done
      ensures operations == old(operations)[1..] && done == old(done) + [head]
    {
      operations := operations[1..];
      done := done + [head];
    }

    method PassCmac(head: Entry)
      requires Valid() && operations != [] && operations[0] == head && head.now.CmacJob?
      requires Inv(w, View()) && !waitForHciResult
      modifies this, cmac
      ensures Valid() && operations == old(operations) && done == old(done)
      ensures View() == Passed(w, old(View()))
    {
      InvReady(w, View());
      hide Inv, M.Ready, Flip, Flatten;
      var CmacJob(key, source, length, _) := head.now;
      if cmac.state.Idle? {
        cmac.CmacStart(key, length);
      }
      waitForHciResult := true;
      var block := cmac.HandleAesEngineReady(source, length);
      if block.Some? {
        SendCommand(Encrypt(cmac.k, block.value));
      }
    }

    method PassKey(head: Entry)
      requires Valid() && operations != [] && operations[0] == head && head.now.GenerateKey? && !waitForHciResult
      modifies this
      ensures Valid() && View() == Passed(w, old(View()))
    {
      match keyState
      case KeyDone =>
        Complete(head.(now := GenerateKey(Some(publicKey), gathered)));
      case KeyIdle =>
        keyState := GeneratingRandom;
        randomLen, gathered := 0, [];
        SendCommand(LeRand);
      case GeneratingRandom =>
        SendCommand(LeRand);
      case Active =>
    }

    method PassCcm(head: Entry)
      requires Valid() && operations != [] && operations[0] == head && head.now.CcmJob? && !waitForHciResult
      requires Ccm.Ok(head.now.request)
      modifies this
      ensures Valid() && View() == Passed(w, old(View()))
    {
      hide Ccm.Calc, Ccm.Ok, Flip, Flatten;
      var (q, action) := Ccm.Calc(head.now.request);
      var head1 := head.(now := CcmJob(q));
      match action
      case Send(block) =>
        operations := [head1] + operations[1..];
        SendCommand(Encrypt(q.key, block));
      case Complete =>
        Complete(head1);
      case Nothing =>
    }

    /** One iteration of the loop in btstack_crypto_run, past its guards. */
    method Iterate()
      requires Valid() && operations != [] && !waitForHciResult && Inv(w, View())
      modifies this, cmac
      ensures Valid() && Inv(w, View())
      ensures View() == Step(w, old(View()), RunPass)
    {
      ghost var e := View();
      InvReady(w, e);
      PassKeeps(w, e);
      var head := operations[0];
      hide Inv, Flip, Flatten, PassHead;
      match head.now
      case Random(_, _) =>
        SendHead(LeRand);
      case Aes(key, plaintext, _) =>
        SendHead(Encrypt(key, plaintext));
      case CmacJob(_, _, _, _) =>
        PassCmac(head);
      case CcmJob(_) =>
        PassCcm(head);
      case GenerateKey(_, _) =>
        PassKey(head);
      case Dhkey(peer, _) =>
        Complete(head.(now := Dhkey(peer, Some(w.dh(peer, d)))));
    }

    /** A command for a head that itself does not change. */
    method SendHead(command: Command)
      requires operations != [] && Valid() && !waitForHciResult && Ready(operations[0], View().statics)
      requires PassHead(w, operations[0], View().statics) == (operations[0], View().statics, Sent(command))
      modifies `waitForHciResult, `inFlight
      ensures Valid() && View() == Passed(w, old(View()))
    {
      hide PassHead, Flatten;
      assert [operations[0]] + operations[1..] == operations;
      SendCommand(command);
    }

    /** One iteration of a loop that has come from e by the events. */
    method IterateFrom(ghost e: State, ghost events: seq<Event>)
      requires Inv(w, e) && LegalEvents(events)
      requires Valid() && operations != [] && !waitForHciResult && View() == Run(w, e, events)
      modifies this, cmac
      ensures Valid() && LegalEvents(events + [RunPass]) && View() == Run(w, e, events + [RunPass])
      ensures EngineProgress.Measure(View()) < EngineProgress.Measure(old(View()))
    {
      RunOne(w, e, events, RunPass);
      EngineProgress.Progress(w, View(), RunPass);
      hide Inv, EngineProgress.Measure, Run, Passed, Flatten;
      Iterate();
    }

    method SubmitFrom(ghost e: State, ghost events: seq<Event>, job: Job)
      requires Inv(w, e) && LegalEvents(events) && Legal(job)
      requires Valid() && View() == Run(w, e, events)
      modifies this
      ensures Valid() && LegalEvents(events + [EngineRuns.Submit(job)])
      ensures View() == Run(w, e, events + [EngineRuns.Submit(job)])
    {
      RunOne(w, e, events, EngineRuns.Submit(job));
      SubmitIsStep(w, View(), job);
      hide Run, Inv, Submitted, Step, Legal;
      Submit(job);
    }

    /** A callback that follows the script: it submits requests, each of which enters the loop again, until it
        returns. */
    method CallBack(script: seq<Option<Job>>) returns (rest: seq<Option<Job>>, ghost events: seq<Event>)
      requires Valid() && Inv(w, View()) && LegalScript(script)
      modifies this, cmac
      ensures Valid() && Played(script, rest, events) && (script != [] ==> |rest| < |script|)
      ensures Inv(w, old(View())) && View() == Run(w, old(View()), events)
      decreases |script|, 0
    {
      ghost var e := View();
      rest, events := script, [];
      NothingPlayed(w, e, script);
      hide *;
      while |rest| > 0 && rest[0].Some?
        invariant Valid() && Inv(w, e) && Played(script, rest, events) && View() == Run(w, e, events)
        decreases |rest|
      {
        var job := rest[0].value;
        NextPlayed(script, rest, events);
        SubmitFrom(e, events, job);
        events := events + [EngineRuns.Submit(job)];
        rest := rest[1..];
        var rest1, more := RunLoop(rest);
        JoinPlayed(w, e, script, rest, events, rest1, more);
        rest, events := rest1, events + more;
      }
      if |rest| > 0 {
        ReturnPlayed(script, rest, events);
        rest := rest[1..];
      }
    }

    /** btstack_crypto_run on a working stack that can take commands: passes until the queue is empty or a
        command is out, while the callbacks follow the script. */
    method RunLoop(script: seq<Option<Job>>) returns (rest: seq<Option<Job>>, ghost events: seq<Event>)
      requires Valid() && Inv(w, View()) && LegalScript(script)
      modifies this, cmac
      ensures Valid() && Played(script, rest, events)
      ensures Inv(w, old(View())) && View() == Run(w, old(View()), events)
      ensures operations == [] || waitForHciResult
      decreases |script|, 1
    {
      ghost var e := View();
      rest, events := script, [];
      NothingPlayed(w, e, script);
      hide *;
      while operations != [] && !waitForHciResult
        invariant Valid() && Inv(w, e) && Played(script, rest, events) && View() == Run(w, e, events)
        decreases |rest|, EngineProgress.Measure(View())
      {
        var called := |done|;
        PassPlayed(script, rest, events);
        IterateFrom(e, events);
        events := events + [RunPass];
        if |done| > called && |rest| > 0 {
          var rest1, more := CallBack(rest);
          JoinPlayed(w, e, script, rest, events, rest1, more);
          rest, events := rest1, events + more;
        }
      }
    }

    method Replace(head: Entry)
      requires operations != []
      modifies `operations
      ensures operations == [head] + old(operations)[1..]
    {
      operations := [head] + operations[1..];
    }

    /** memcpy(&random[random_len], data, 8). */
    method StoreRandom(data: seq<byte>)
      requires Valid() && |data| == 8 && randomLen + 8 <= 64
      modifies `randomLen, `gathered, random
      ensures Valid() && gathered == old(gathered) + [data] && randomLen == old(randomLen) + 8
    {
      ghost var was := random[..randomLen];
      for i := 0 to 8
        invariant randomLen == old(randomLen) && gathered == old(gathered)
        invariant random[..randomLen] == was
        invariant random[randomLen..randomLen + i] == data[..i]
      {
        random[randomLen + i] := data[i];
      }
      assert random[..randomLen + 8] == was + data;
      EngineHead.FlattenMore(gathered, data);
      randomLen := randomLen + 8;
      gathered := gathered + [data];
    }

    method GatherRandom(head: Entry, data: seq<byte>)
      requires Valid() && |data| == 8 && operations != [] && head == operations[0] && head.now.GenerateKey?
      requires keyState == GeneratingRandom && |gathered| < 8
      modifies this, random
      ensures Valid()
      ensures var (head, s, done) := TakeRandom(w, old(operations[0]), old(View().statics), data);
              View() == Delivered(old(View()), head, s, done)
    {
      assert randomLen + 8 <= 64;
      hide Flatten;
      StoreRandom(data);
      Replace(head.(answers := head.answers + [data]));
      if randomLen >= 64 {
        GenerateKeySoftware();
      }
    }

    method GenerateKeySoftware()
      requires Valid() && randomLen == 64
      modifies `keyState, `publicKey, `d
      ensures Valid() && keyState == KeyDone && (publicKey, d) == w.keyGen(Flatten(gathered))
    {
      keyState := Active;
      assert random[..randomLen] == random[..];
      var (q, k) := w.keyGen(random[..]);
      publicKey, d := q, k;
      keyState := KeyDone;
    }

    /** btstack_crypto_handle_random_data, up to its call of the loop. */
    method HandleRandomData(data: seq<byte>)
      requires Valid() && |data| == 8 && operations != []
      requires operations[0].now.GenerateKey? ==> keyState == GeneratingRandom && |gathered| < 8
      modifies this, random
      ensures Valid()
      ensures var (head, s, done) := TakeRandom(w, old(operations[0]), old(View().statics), data);
              View() == Delivered(old(View()), head, s, done)
    {
      var head := operations[0];
      match head.now
      case Random(buffer, size) =>
        var bytesToCopy := Min(size, 8);
        var left := size - bytesToCopy;
        var head1 := Entry(head.asked, Random(buffer + data[..bytesToCopy], left), head.answers + [data]);
        if left == 0 {
          Complete(head1);
        } else {
          Replace(head1);
        }
      case GenerateKey(_, _) =>
        GatherRandom(head, data);
      case _ =>
        assert [operations[0]] + operations[1..] == operations;
    }

    /** btstack_crypto_handle_encryption_result. */
    method HandleEncryptionResult(data: Block)
      requires Valid() && operations != [] && (operations[0].now.CcmJob? ==> Ccm.Ok(operations[0].now.request))
      modifies this, cmac
      ensures Valid()
      ensures var (head, s, done) := TakeBlock(old(operations[0]), old(View().statics), data);
              View() == Delivered(old(View()), head, s, done)
    {
      hide Flip, Ccm.Handle, Flatten;
      var head := operations[0];
      match head.now
      case Aes(key, plaintext, _) =>
        Complete(head.(now := Aes(key, plaintext, Some(Flip(data)))));
      case CmacJob(key, source, length, _) =>
        var hash := cmac.HandleEncryptionResult(Flip(data));
        if hash.Some? {
          Complete(head.(now := CmacJob(key, source, length, hash)));
        } else {
          assert [operations[0]] + operations[1..] == operations;
        }
      case CcmJob(request) =>
        var (q, finished) := Ccm.Handle(request, Flip(data));
        if finished {
          Complete(head.(now := CcmJob(q)));
        } else {
          Replace(head.(now := CcmJob(q)));
        }
      case _ =>
        assert [operations[0]] + operations[1..] == operations;
    }

    method TakeRandomIn(data: seq<byte>)
      requires Valid() && |data| == 8 && Inv(w, View()) && waitForHciResult && inFlight == [LeRand]
      modifies this, cmac, random
      ensures Valid() && View() == Next(w, old(View()), Response(data))
    {
      ResponseKeeps(w, View(), data);
      EngineHead.HeadReady(w, operations[0], View().statics, Some(LeRand));
      waitForHciResult := false;
      inFlight := inFlight[1..];
      HandleRandomData(data);
      hide Inv, TakeRandom, Ready;
    }

    /** After an answer: its callback, if it has one, and the loop. */
    method AfterAnswer(called: nat, script: seq<Option<Job>>)
      returns (rest: seq<Option<Job>>, ghost events: seq<Event>)
      requires Valid() && Inv(w, View()) && LegalScript(script)
      modifies this, cmac
      ensures Valid() && Played(script, rest, events)
      ensures Inv(w, old(View())) && View() == Run(w, old(View()), events)
      ensures operations == [] || waitForHciResult
    {
      ghost var e := View();
      rest, events := script, [];
      NothingPlayed(w, e, script);
      hide *;
      if |done| > called {
        rest, events := CallBack(script);
      }
      PlayedLegal(script, rest, events);
      RunInv(w, e, events);
      var rest1, more := RunLoop(rest);
      JoinPlayed(w, e, script, rest, events, rest1, more);
      rest, events := rest1, events + more;
    }

    /** The command complete event of LE Rand, the callback and the passes after it. */
    method RandComplete(data: seq<byte>, script: seq<Option<Job>>)
      returns (rest: seq<Option<Job>>, ghost events: seq<Event>)
      requires Valid() && |data| == 8 && Inv(w, View()) && (waitForHciResult ==> inFlight == [LeRand])
      requires LegalScript(script)
      modifies this, cmac, random
      ensures Valid() && Played(script, rest, events)
      ensures waitForHciResult || operations == [] || !old(waitForHciResult)
      ensures View() == Run(w, Next(w, old(View()), Response(data)), events)
    {
      ghost var e := View();
      rest, events := script, [];
      NothingPlayed(w, Next(w, e, Response(data)), script);
      var called := |done|;
      if waitForHciResult {
        hide *;
        TakeRandomIn(data);
        rest, events := AfterAnswer(called, script);
      } else {
        InvReady(w, e);
        Stray(w, e, data);
        hide Inv, Responded;
      }
    }

    method TakeBlockIn(data: Block)
      requires Valid() && Inv(w, View()) && waitForHciResult && inFlight != [] && inFlight[0].LeEncrypt?
      requires data == Flip(w.E(Flip(inFlight[0].key), Flip(inFlight[0].plaintext)))
      modifies this, cmac
      ensures Valid()
      ensures forall random: seq<byte> | |random| == 8 :: View() == Next(w, old(View()), Response(random))
    {
      ghost var e := View();
      InvReady(w, e);
      forall random: seq<byte> | |random| == 8
        ensures Inv(w, Step(w, e, Response(random)))
      {
        StepKeeps(w, e, Response(random));
      }
      waitForHciResult := false;
      inFlight := inFlight[1..];
      HandleEncryptionResult(data);
      hide Inv, TakeBlock, Flip;
    }

    /** The command complete event of LE Encrypt, the callback and the passes after it. */
    method EncryptComplete(data: Block, script: seq<Option<Job>>)
      returns (rest: seq<Option<Job>>, ghost events: seq<Event>)
      requires Valid() && Inv(w, View()) && LegalScript(script)
      requires waitForHciResult ==>
                 && inFlight != [] && inFlight[0].LeEncrypt?
                 && data == Flip(w.E(Flip(inFlight[0].key), Flip(inFlight[0].plaintext)))
      modifies this, cmac
      ensures Valid() && Played(script, rest, events)
      ensures waitForHciResult || operations == [] || !old(waitForHciResult)
      ensures forall random: seq<byte> | |random| == 8 ::
                View() == Run(w, Next(w, old(View()), Response(random)), events)
    {
      ghost var e := View();
      rest, events := script, [];
      NothingPlayed(w, e, script);
      var called := |done|;
      if waitForHciResult {
        hide *;
        assert LegalEvent(Response([0, 0, 0, 0, 0, 0, 0, 0])) by {
          EightOctets();
        }
        TakeBlockIn(data);
        assert View() == Next(w, e, Response([0, 0, 0, 0, 0, 0, 0, 0]));
        rest, events := AfterAnswer(called, script);
      } else {
        InvReady(w, e);
        forall random: seq<byte> | |random| == 8
          ensures Next(w, e, Response(random)) == e
        {
          Stray(w, e, random);
        }
        hide Inv, Responded;
      }
    }

    /** btstack_crypto_state_reset, on HCI_STATE_HALTING; the controller forgets its command. */
    method StateReset()
      requires Valid()
      modifies this, cmac
      ensures Valid() && View() == Halted(old(View()))
    {
      cmac.state := M.Idle;
      keyState := KeyIdle;
      waitForHciResult := false;
      operations := [];
      inFlight, done := [], [];
    }
  }

  // Callbacks that call the API again. A script says what they do, one after the other: Some job submits it, and
  // None returns; at the end of the script they submit nothing.

  predicate LegalScript(script: seq<Option<Job>>) {
    forall i :: 0 <= i < |script| && script[i].Some? ==> Legal(script[i].value)
  }

  ghost function Jobs(script: seq<Option<Job>>): seq<Job> {
    if script == [] then []
    else
      var n := |script| - 1;
      Jobs(script[..n]) + if script[n].Some? then [script[n].value] else []
  }

  /** The submissions among the events. */
  ghost function Submits(events: seq<Event>): seq<Job> {
    if events == [] then []
    else
      var n := |events| - 1;
      Submits(events[..n]) + if events[n].Submit? then [events[n].job] else []
  }

  predicate InLoop(events: seq<Event>) {
    forall i :: 0 <= i < |events| ==> events[i].Submit? || events[i].RunPass?
  }

  /** The events are passes of the loop and, in order, the submissions of the script up to rest. */
  ghost predicate Played(script: seq<Option<Job>>, rest: seq<Option<Job>>, events: seq<Event>) {
    && LegalScript(script) && |rest| <= |script| && rest == script[|script| - |rest|..]
    && LegalEvents(events) && InLoop(events)
    && Submits(events) == Jobs(script[..|script| - |rest|])
  }

  lemma SubmitIsStep(w: World, e: State, job: Job)
    requires Inv(w, e) && Legal(job)
    ensures Step(w, e, EngineRuns.Submit(job)) == Submitted(e, job)
  {}

  lemma EightOctets()
    ensures |[0, 0, 0, 0, 0, 0, 0, 0]| == 8 && LegalEvent(Response([0, 0, 0, 0, 0, 0, 0, 0]))
  {}

  lemma NothingPlayed(w: World, e: State, script: seq<Option<Job>>)
    requires Inv(w, e) && LegalScript(script)
    ensures Played(script, script, []) && LegalEvents([]) && Run(w, e, []) == e
  {
    assert script[|script| - |script|..] == script && script[..0] == [];
  }

  lemma PlayedLegal(script: seq<Option<Job>>, rest: seq<Option<Job>>, events: seq<Event>)
    requires Played(script, rest, events)
    ensures LegalEvents(events) && LegalScript(rest)
  {}

  lemma RunInv(w: World, e: State, events: seq<Event>)
    requires Inv(w, e) && LegalEvents(events)
    ensures Inv(w, Run(w, e, events))
  {}

  lemma SubmitsOne(events: seq<Event>, ev: Event)
    ensures Submits(events + [ev]) == Submits(events) + if ev.Submit? then [ev.job] else []
  {
    assert (events + [ev])[..|events|] == events;
  }

  lemma JobsOne(script: seq<Option<Job>>, k: nat)
    requires k < |script|
    ensures Jobs(script[..k + 1]) == Jobs(script[..k]) + if script[k].Some? then [script[k].value] else []
  {
    assert script[..k + 1][..k] == script[..k];
  }

  lemma NextPlayed(script: seq<Option<Job>>, rest: seq<Option<Job>>, events: seq<Event>)
    requires Played(script, rest, events) && rest != [] && rest[0].Some?
    ensures LegalEvents(events) && Legal(rest[0].value)
    ensures Played(script, rest[1..], events + [EngineRuns.Submit(rest[0].value)])
    ensures LegalScript(rest[1..])
  {
    var k := |script| - |rest|;
    JobsOne(script, k);
    SubmitsOne(events, EngineRuns.Submit(rest[0].value));
    hide Jobs, Submits, Legal;
  }

  lemma ReturnPlayed(script: seq<Option<Job>>, rest: seq<Option<Job>>, events: seq<Event>)
    requires Played(script, rest, events) && rest != [] && rest[0].None?
    ensures Played(script, rest[1..], events)
  {
    JobsOne(script, |script| - |rest|);
    hide Jobs, Submits, Legal;
  }

  lemma PassPlayed(script: seq<Option<Job>>, rest: seq<Option<Job>>, events: seq<Event>)
    requires Played(script, rest, events)
    ensures LegalEvents(events) && LegalScript(rest) && Played(script, rest, events + [RunPass])
  {
    SubmitsOne(events, RunPass);
    hide Jobs, Submits, Legal;
  }

  lemma {:induction false} SubmitsJoin(events: seq<Event>, more: seq<Event>)
    ensures Submits(events + more) == Submits(events) + Submits(more)
    decreases |more|
  {
    if more == [] {
      assert events + more == events;
    } else {
      var n := |more| - 1;
      assert (events + more)[..|events| + n] == events + more[..n];
      SubmitsJoin(events, more[..n]);
    }
  }

  lemma {:induction false} JobsJoin(script: seq<Option<Job>>, more: seq<Option<Job>>)
    ensures Jobs(script + more) == Jobs(script) + Jobs(more)
    decreases |more|
  {
    if more == [] {
      assert script + more == script;
    } else {
      var n := |more| - 1;
      assert (script + more)[..|script| + n] == script + more[..n];
      JobsJoin(script, more[..n]);
    }
  }

  lemma LegalLast(events: seq<Event>, more: seq<Event>)
    requires LegalEvents(events) && LegalEvents(more)
    ensures LegalEvents(events + more)
    ensures more != [] ==>
              var n := |more| - 1;
              && LegalEvents(more[..n]) && LegalEvent(more[n]) && more == more[..n] + [more[n]]
              && events + more == (events + more[..n]) + [more[n]]
  {
    hide LegalEvent;
  }

  lemma RunNone(w: World, e: State, events: seq<Event>)
    requires Inv(w, e)
    ensures LegalEvents([]) && Run(w, e, []) == e && events + [] == events
  {}

  lemma {:induction false} RunJoin(w: World, e: State, events: seq<Event>, more: seq<Event>)
    requires Inv(w, e) && LegalEvents(events) && LegalEvents(more)
    ensures LegalEvents(events + more) && Inv(w, Run(w, e, events))
    ensures Run(w, e, events + more) == Run(w, Run(w, e, events), more)
    decreases |more|
  {
    hide *;
    LegalLast(events, more);
    RunInv(w, e, events);
    if more == [] {
      RunNone(w, Run(w, e, events), events);
    } else {
      var n := |more| - 1;
      LegalLast(events, more[..n]);
      RunJoin(w, e, events, more[..n]);
      RunOne(w, e, events + more[..n], more[n]);
      RunOne(w, Run(w, e, events), more[..n], more[n]);
    }
  }

  lemma SplitAt(script: seq<Option<Job>>, i: nat, k: nat)
    requires i <= k <= |script|
    ensures script[..k] == script[..i] + script[i..][..k - i] && script[k..] == script[i..][k - i..]
  {}

  lemma JoinedPlayed(script: seq<Option<Job>>, rest: seq<Option<Job>>, events: seq<Event>,
                     rest1: seq<Option<Job>>, more: seq<Event>)
    requires Played(script, rest, events) && Played(rest, rest1, more)
    ensures Played(script, rest1, events + more)
  {
    var i, k := |script| - |rest|, |script| - |rest1|;
    SplitAt(script, i, k);
    JobsJoin(script[..i], rest[..k - i]);
    SubmitsJoin(events, more);
    hide Jobs, Submits, Legal;
  }

  /** What a nested loop or callback does, added to what was before. */
  lemma JoinPlayed(w: World, e: State, script: seq<Option<Job>>, rest: seq<Option<Job>>, events: seq<Event>,
                   rest1: seq<Option<Job>>, more: seq<Event>)
    requires Inv(w, e) && Played(script, rest, events) && Played(rest, rest1, more)
    ensures Played(script, rest1, events + more) && |rest1| <= |rest|
    ensures LegalEvents(events) && LegalEvents(more) && LegalEvents(events + more)
    ensures Inv(w, Run(w, e, events)) && Run(w, e, events + more) == Run(w, Run(w, e, events), more)
  {
    JoinedPlayed(script, rest, events, rest1, more);
    RunJoin(w, e, events, more);
    hide Inv, Run, Submits, Jobs;
  }
}
