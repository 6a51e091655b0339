/** What one pass, or one answer of the controller, does to the request at the head of the queue. */
module EngineHead {
  import opened Bytes
  import opened Options
  import opened Engine
  import C = Cmac
  import M = CmacMachine
  import Rfc = Rfc4493
  import Ccm

  /** A pass sends a command, with which the request stays on its way, or completes the request. It
      never does nothing, so the run loop cannot spin. */
  ghost predicate GoodPass(w: World, entry: Entry, s: Statics, r: (Entry, Statics, Pass)) {
    && r.0.asked == entry.asked
    && match r.2
       case Sent(command) =>
         HeadGood(w, r.0, r.1, Some(command)) && Cost(r.0.now, r.1, true) < Cost(entry.now, s, false)
       case Done => Completed(w, r.0) && Quiet(w, r.1)
       case Stuck => false
  }

  /** An answer completes the request or leaves it ready for the next pass. */
  ghost predicate GoodAnswer(w: World, entry: Entry, s: Statics, r: (Entry, Statics, bool)) {
    && r.0.asked == entry.asked
    && if r.2 then Completed(w, r.0) && Quiet(w, r.1)
       else HeadGood(w, r.0, r.1, None) && Cost(r.0.now, r.1, false) < Cost(entry.now, s, true)
  }

  /** The next request finds the statics at rest. */
  lemma FreshHead(w: World, entry: Entry, s: Statics)
    requires Fresh(entry) && Quiet(w, s)
    ensures HeadGood(w, entry, s, None)
  {}

  lemma HeadReady(w: World, entry: Entry, s: Statics, inFlight: Option<Command>)
    requires HeadGood(w, entry, s, inFlight)
    ensures inFlight.None? ==> Ready(entry, s)
    ensures entry.now.CcmJob? ==> Ccm.Ok(entry.now.request)
  {
    if entry.now.CmacJob? && inFlight.None? && !s.cmac.state.Idle? {
      M.ChainedInRange(w.E, s.cmac, entry.now.key, Message(entry.now));
    }
  }

  // Passes.

  lemma RandomPass(w: World, entry: Entry, s: Statics)
    requires HeadGood(w, entry, s, None) && entry.now.Random?
    ensures GoodPass(w, entry, s, (entry, s, Sent(LeRand)))
  {
    hide Flatten, Responses, M.Chained;
  }

  lemma AesPass(w: World, entry: Entry, s: Statics)
    requires HeadGood(w, entry, s, None) && entry.now.Aes?
    ensures GoodPass(w, entry, s, (entry, s, Sent(Encrypt(entry.now.key, entry.now.plaintext))))
  {
    hide Flatten, Encrypt;
  }

  lemma KeyPass(w: World, entry: Entry, s: Statics)
    requires HeadGood(w, entry, s, None) && entry.now.GenerateKey?
    ensures GoodPass(w, entry, s, PassKey(entry, s))
  {
    hide Flatten;
  }

  lemma DhkeyPass(w: World, entry: Entry, s: Statics)
    requires HeadGood(w, entry, s, None) && entry.now.Dhkey?
    ensures Ready(entry, s) && GoodPass(w, entry, s, PassHead(w, entry, s))
  {
    hide Flatten;
  }

  lemma CcmSends(E: Cipher, q: Ccm.Request, q1: Ccm.Request, block: Block)
    requires Ccm.Ok(q) && !Ccm.Waiting(q.state) && Ccm.Calc(q) == (q1, Ccm.Send(block))
    ensures CcmAwaits(E, q1, Encrypt(q1.key, block), Ccm.Finish(E, q)) && Ccm.Work(q1) < Ccm.Work(q)
  {
    Ccm.CalcProgress(q);
    hide Ccm.Calc, Ccm.Handle, Ccm.Ok, Ccm.Work, Flip;
    FlipTwice(q1.key);
    FlipTwice(block);
    Ccm.RoundSend(E, q, q1, block);
    Ccm.HandleProgress(q1, E(q1.key, block));
  }

  lemma CcmPass(w: World, entry: Entry, s: Statics)
    requires HeadGood(w, entry, s, None) && entry.now.CcmJob?
    ensures GoodPass(w, entry, s, PassCcm(entry, s))
  {
    var q := entry.now.request;
    Ccm.CalcProgress(q);
    var (q1, action) := Ccm.Calc(q);
    hide Ccm.Calc, Ccm.Ok, Ccm.Work, Flatten, CcmAwaits, Encrypt;
    match action
    case Send(block) =>
      CcmSends(w.E, q, q1, block);
    case Complete =>
      Ccm.RoundComplete(w.E, q, q1);
    case Nothing =>
  }

  /** From the first command for a message on, the engine waits for what the cipher makes of it. */
  lemma CmacFirst(E: Cipher, c: M.Engine, k: Block, m: seq<byte>)
    ensures var (c1, block) := M.Ready(M.Start(c, k, |m|), m);
            && block == Some(ZERO) && c1.k == k && CmacAwaits(E, c1, k, m, ZERO)
            && c1.state.W4Subkeys? && c1.current == 0 && c1.count == M.Count8(|m|)
  {
    M.FirstStep(E, c, k, m);
    hide M.Chained, M.Run;
  }

  lemma CmacNextShape(E: Cipher, c: M.Engine, k: Block, m: seq<byte>)
    requires M.Chained(E, c, k, m)
    ensures M.InRange(c, m)
    ensures var c1 := M.Ready(c, m).0;
            && c1.k == k && c1.current == c.current + 1 && c1.count == c.count
            && (c1.state.W4Mi? || c1.state.W4Mlast?)
  {
    hide Xor, Rfc.LastBlock, Cbc, WholeBlocks;
  }

  lemma CmacNext(E: Cipher, c: M.Engine, k: Block, m: seq<byte>)
    requires M.Chained(E, c, k, m)
    ensures M.InRange(c, m)
    ensures var (c1, block) := M.Ready(c, m);
            block.Some? && CmacAwaits(E, c1, k, m, block.value)
  {
    assert c.current < c.count;
    CmacNextShape(E, c, k, m);
    hide M.Chained, M.Ready, M.Result, M.Run, M.Count8, Rfc.Tag;
    M.ChainedStep(E, c, k, m);
    M.RunIsTag(E, M.IDLE, k, m);
  }

  lemma CmacPass(w: World, entry: Entry, s: Statics)
    requires HeadGood(w, entry, s, None) && entry.now.CmacJob?
    ensures Ready(entry, s) && GoodPass(w, entry, s, PassCmac(entry, s))
  {
    HeadReady(w, entry, s, None);
    var m, k := Message(entry.now), entry.now.key;
    if s.cmac.state.Idle? {
      CmacFirst(w.E, s.cmac, k, m);
      FlipTwice(ZERO);
    } else {
      assert M.Chained(w.E, s.cmac, k, m) && s.cmac.current < s.cmac.count && s.cmac.state == M.NextState(s.cmac);
      CmacNext(w.E, s.cmac, k, m);
      CmacNextShape(w.E, s.cmac, k, m);
      FlipTwice(M.Ready(s.cmac, m).1.value);
    }
    hide M.Chained, M.Ready, M.Start, M.Count8, CmacAwaits, Flip, Flatten;
  }

  /** A pass over the head. */
  lemma HeadPass(w: World, entry: Entry, s: Statics)
    requires HeadGood(w, entry, s, None)
    ensures Ready(entry, s) && GoodPass(w, entry, s, PassHead(w, entry, s))
  {
    HeadReady(w, entry, s, None);
    hide HeadGood, GoodPass, PassCmac, PassCcm, PassKey, Encrypt;
    match entry.now
    case Random(_, _) => RandomPass(w, entry, s);
    case Aes(_, _, _) => AesPass(w, entry, s);
    case CmacJob(_, _, _, _) => CmacPass(w, entry, s);
    case CcmJob(_) => CcmPass(w, entry, s);
    case GenerateKey(_, _) => KeyPass(w, entry, s);
    case Dhkey(_, _) => DhkeyPass(w, entry, s);
  }

  // Answers.

  lemma FlattenMore(answers: seq<seq<byte>>, data: seq<byte>)
    ensures Flatten(answers + [data]) == Flatten(answers) + data
  {
    assert (answers + [data])[..|answers|] == answers;
  }

  lemma ResponsesMore(size: nat, k: nat)
    requires 8 * k <= size && (8 * k < size || k == 0)
    ensures var left := size - 8 * k;
            && Responses(left) == Responses(size) - k
            && (left <= 8 ==> Responses(left) == 1)
            && (left > 8 ==> Responses(left - 8) == Responses(left) - 1)
  {}

  lemma RandomAnswer(w: World, entry: Entry, s: Statics, data: seq<byte>)
    requires HeadGood(w, entry, s, Some(LeRand)) && entry.now.Random? && |data| == 8
    ensures GoodAnswer(w, entry, s, TakeRandom(w, entry, s, data))
  {
    var buffer, size := entry.now.buffer, entry.now.size;
    var answers := entry.answers + [data];
    FlattenMore(entry.answers, data);
    ResponsesMore(entry.asked.size, |entry.answers|);
    hide Flatten, Responses;
    if size <= 8 {
      assert (buffer + data)[..entry.asked.size] == buffer + data[..size];
    } else {
      assert data[..8] == data;
    }
  }

  lemma KeyAnswer(w: World, entry: Entry, s: Statics, data: seq<byte>)
    requires HeadGood(w, entry, s, Some(LeRand)) && entry.now.GenerateKey? && |data| == 8
    ensures GoodAnswer(w, entry, s, TakeRandom(w, entry, s, data))
  {
    hide Flatten;
  }

  lemma AesAnswer(w: World, entry: Entry, s: Statics)
    requires entry.now.Aes? && HeadGood(w, entry, s, Some(Encrypt(entry.now.key, entry.now.plaintext)))
    ensures var c := Encrypt(entry.now.key, entry.now.plaintext);
            GoodAnswer(w, entry, s, TakeBlock(entry, s, Flip(w.E(Flip(c.key), Flip(c.plaintext)))))
  {
    FlipTwice(entry.now.key);
    FlipTwice(entry.now.plaintext);
    FlipTwice(w.E(entry.now.key, entry.now.plaintext));
    hide Flip;
  }

  lemma CmacAnswer(w: World, entry: Entry, s: Statics, c: Command)
    requires entry.now.CmacJob? && HeadGood(w, entry, s, Some(c)) && c.LeEncrypt?
    ensures GoodAnswer(w, entry, s, TakeBlock(entry, s, Flip(w.E(Flip(c.key), Flip(c.plaintext)))))
  {
    var k, y := entry.now.key, Flip(c.plaintext);
    FlipTwice(k);
    FlipTwice(w.E(k, y));
    assert CmacAwaits(w.E, s.cmac, k, Message(entry.now), y);
    hide Flip, M.Count8, CmacTag;
  }

  lemma CcmAnswer(w: World, entry: Entry, s: Statics, c: Command)
    requires entry.now.CcmJob? && HeadGood(w, entry, s, Some(c)) && c.LeEncrypt?
    ensures Ccm.Ok(entry.now.request)
    ensures GoodAnswer(w, entry, s, TakeBlock(entry, s, Flip(w.E(Flip(c.key), Flip(c.plaintext)))))
  {
    FlipTwice(w.E(Flip(c.key), Flip(c.plaintext)));
    hide Flip, Ccm.Handle, Ccm.Ok, Ccm.Work, Flatten;
  }

  /** The answer to the command in flight. */
  lemma HeadAnswer(w: World, entry: Entry, s: Statics, c: Command, random: seq<byte>)
    requires HeadGood(w, entry, s, Some(c)) && |random| == 8
    ensures entry.now.CcmJob? ==> Ccm.Ok(entry.now.request)
    ensures GoodAnswer(w, entry, s, Answered(w, entry, s, c, random))
  {
    HeadReady(w, entry, s, Some(c));
    match entry.now
    case Random(_, _) => RandomAnswer(w, entry, s, random);
    case Aes(_, _, _) => AesAnswer(w, entry, s);
    case CmacJob(_, _, _, _) => CmacAnswer(w, entry, s, c);
    case CcmJob(_) => CcmAnswer(w, entry, s, c);
    case GenerateKey(_, _) => KeyAnswer(w, entry, s, random);
    case Dhkey(_, _) =>
  }

  /** Asking for a key never disturbs the request at the head, nor statics at rest. */
  lemma RequestedKeeps(w: World, entry: Entry, s: Statics, inFlight: Option<Command>, job: Job)
    ensures HeadGood(w, entry, s, inFlight) ==> HeadGood(w, entry, Requested(job, s), inFlight)
    ensures Quiet(w, s) ==> Quiet(w, Requested(job, s))
    ensures Cost(entry.now, Requested(job, s), inFlight.Some?)
         <= Cost(entry.now, s, inFlight.Some?) + if job.GenerateKey? then 16 else 0
  {
    hide Flatten;
  }
}
