/** The request queue of btstack_crypto.c: one FIFO, one HCI command at a time, and the statics that the
    request at its head shares with no other. Every callback may re-enter the API, so the engine moves in
    the steps between which control can leave it: a submission, one pass of the run loop, the answer of
    the controller, an event nobody waits for, and the stack halting. */
module Engine {
  import opened Bytes
  import opened Options
  import C = Cmac
  import M = CmacMachine
  import Ccm

  /** What the engine cannot see into: the cipher of the controller and the P-256 library. */
  datatype World = World(E: Cipher, keyGen: seq<byte> -> (seq<byte>, seq<byte>),
                         dh: (seq<byte>, seq<byte>) -> seq<byte>)

  /** A request structure. For GenerateKey, gathered is the LE_RAND responses behind the key. */
  datatype Job =
    | Random(buffer: seq<byte>, size: nat)
    | Aes(key: Block, plaintext: Block, ciphertext: Option<Block>)
    | CmacJob(key: Block, source: C.Source, length: nat, hash: Option<Block>)
    | CcmJob(request: Ccm.Request)
    | GenerateKey(publicKey: Option<seq<byte>>, gathered: seq<seq<byte>>)
    | Dhkey(peer: seq<byte>, dhkey: Option<seq<byte>>)

  /** A queued request: as it was submitted, as it is now, and the LE_RAND responses it has taken. */
  datatype Entry = Entry(asked: Job, now: Job, answers: seq<seq<byte>>)

  datatype KeyState = KeyIdle | GeneratingRandom | Active | KeyDone

  /** The key generation statics: the octets of gathered fill the 64-octet random buffer. */
  datatype Ecc = Ecc(state: KeyState, gathered: seq<seq<byte>>, publicKey: seq<byte>, d: seq<byte>)

  datatype Statics = Statics(cmac: M.Engine, ecc: Ecc)

  /** HCI commands as sent: key and plaintext least significant octet first. */
  datatype Command = LeRand | LeEncrypt(key: Block, plaintext: Block)

  /** The octets of the responses, one response after the other. */
  function Flatten(answers: seq<seq<byte>>): seq<byte> {
    if answers == [] then [] else Flatten(answers[..|answers| - 1]) + answers[|answers| - 1]
  }

  // What callers owe.

  predicate Legal(job: Job) {
    match job
    case Random(buffer, size) => buffer == [] && size < 0x10000
    case Aes(_, _, _) => true
    case CmacJob(_, source, length, _) => length < 0x10000 && C.Readable(source, length)
    case CcmJob(request) => Ccm.Ok(request) && !Ccm.Waiting(request.state)
    case GenerateKey(_, _) => true
    case Dhkey(_, _) => true
  }

  ghost predicate Fresh(entry: Entry) {
    Legal(entry.asked) && entry.now == entry.asked && entry.answers == []
  }

  function Message(job: Job): seq<byte>
    requires job.CmacJob? && Legal(job)
  {
    C.Contents(job.source, job.length)
  }

  // One pass of the run loop over the request at the head.

  datatype Pass = Sent(command: Command) | Done | Stuck

  function Encrypt(key: Block, block: Block): Command {
    LeEncrypt(Flip(key), Flip(block))
  }

  function PassCmac(entry: Entry, s: Statics): (Entry, Statics, Pass)
    requires entry.now.CmacJob? && Legal(entry.now) && M.InRange(s.cmac, Message(entry.now))
  {
    var m := Message(entry.now);
    var c := if s.cmac.state.Idle? then M.Start(s.cmac, entry.now.key, |m|) else s.cmac;
    var (c1, block) := M.Ready(c, m);
    (entry, s.(cmac := c1), if block.Some? then Sent(Encrypt(c1.k, block.value)) else Stuck)
  }

  function PassCcm(entry: Entry, s: Statics): (Entry, Statics, Pass)
    requires entry.now.CcmJob? && Ccm.Ok(entry.now.request)
  {
    var (q, action) := Ccm.Calc(entry.now.request);
    (entry.(now := CcmJob(q)), s,
     match action
     case Send(block) => Sent(Encrypt(q.key, block))
     case Complete => Done
     case Nothing => Stuck)
  }

  function PassKey(entry: Entry, s: Statics): (Entry, Statics, Pass)
    requires entry.now.GenerateKey?
  {
    match s.ecc.state
    case KeyDone => (entry.(now := GenerateKey(Some(s.ecc.publicKey), s.ecc.gathered)), s, Done)
    case KeyIdle => (entry, s.(ecc := s.ecc.(state := GeneratingRandom, gathered := [])), Sent(LeRand))
    case GeneratingRandom => (entry, s, Sent(LeRand))
    case Active => (entry, s, Stuck)
  }

  /** The machines at the head can take a pass. */
  predicate Ready(entry: Entry, s: Statics) {
    match entry.now
    case CmacJob(_, _, _, _) => Legal(entry.now) && M.InRange(s.cmac, Message(entry.now))
    case CcmJob(request) => Ccm.Ok(request)
    case _ => true
  }

  function PassHead(w: World, entry: Entry, s: Statics): (Entry, Statics, Pass)
    requires Ready(entry, s)
  {
    match entry.now
    case Random(_, _) => (entry, s, Sent(LeRand))
    case Aes(key, plaintext, _) => (entry, s, Sent(Encrypt(key, plaintext)))
    case CmacJob(_, _, _, _) => PassCmac(entry, s)
    case CcmJob(_) => PassCcm(entry, s)
    case GenerateKey(_, _) => PassKey(entry, s)
    case Dhkey(peer, _) => (entry.(now := Dhkey(peer, Some(w.dh(peer, s.ecc.d)))), s, Done)
  }

  // The controller's answer, for the request at the head. The flag says that the callback is due.

  /** btstack_crypto_handle_random_data. */
  function TakeRandom(w: World, entry: Entry, s: Statics, data: seq<byte>): (Entry, Statics, bool)
    requires |data| == 8
  {
    var answered := entry.(answers := entry.answers + [data]);
    match entry.now
    case Random(buffer, size) =>
      var n := Min(size, 8);
      (answered.(now := Random(buffer + data[..n], size - n)), s, size == n)
    case GenerateKey(_, _) =>
      var gathered := s.ecc.gathered + [data];
      (answered,
       if |gathered| < 8 then s.(ecc := s.ecc.(gathered := gathered))
       else
         var (publicKey, d) := w.keyGen(Flatten(gathered));
         s.(ecc := Ecc(KeyDone, gathered, publicKey, d)),
       false)
    case _ => (entry, s, false)
  }

  /** btstack_crypto_handle_encryption_result; the octets come in the controller's order. */
  function TakeBlock(entry: Entry, s: Statics, data: Block): (Entry, Statics, bool)
    requires entry.now.CcmJob? ==> Ccm.Ok(entry.now.request)
  {
    match entry.now
    case Aes(key, plaintext, _) => (entry.(now := Aes(key, plaintext, Some(Flip(data)))), s, true)
    case CmacJob(key, source, length, _) =>
      var (c, hash) := M.Result(s.cmac, Flip(data));
      (if hash.Some? then entry.(now := CmacJob(key, source, length, hash)) else entry, s.(cmac := c), hash.Some?)
    case CcmJob(request) =>
      var (q, done) := Ccm.Handle(request, Flip(data));
      (entry.(now := CcmJob(q)), s, done)
    case _ => (entry, s, false)
  }

  /** An honest controller: LE Encrypt is the cipher on octet-reversed blocks. */
  function Answered(w: World, entry: Entry, s: Statics, command: Command, random: seq<byte>): (Entry, Statics, bool)
    requires |random| == 8 && (entry.now.CcmJob? ==> Ccm.Ok(entry.now.request))
  {
    match command
    case LeRand => TakeRandom(w, entry, s, random)
    case LeEncrypt(key, plaintext) => TakeBlock(entry, s, Flip(w.E(Flip(key), Flip(plaintext))))
  }

  /** btstack_crypto_ecc_p256_generate_key starts over when the last key is done. */
  function Requested(job: Job, s: Statics): Statics {
    if job.GenerateKey? && s.ecc.state.KeyDone? then s.(ecc := s.ecc.(state := KeyIdle)) else s
  }

  // What holds of the request at the head and the statics.

  predicate KeyGood(w: World, ecc: Ecc) {
    && (forall i :: 0 <= i < |ecc.gathered| ==> |ecc.gathered[i]| == 8)
    && match ecc.state
       case KeyIdle => true
       case GeneratingRandom => |ecc.gathered| < 8
       case Active => false
       case KeyDone => |ecc.gathered| == 8 && (ecc.publicKey, ecc.d) == w.keyGen(Flatten(ecc.gathered))
  }

  /** Nothing is left over from earlier requests. */
  predicate Quiet(w: World, s: Statics) {
    s.cmac.state.Idle? && KeyGood(w, s.ecc) && !s.ecc.state.GeneratingRandom?
  }

  /** The whole blocks of random data taken so far. */
  predicate RandomGood(entry: Entry) {
    && entry.asked.Random? && entry.now.Random?
    && |entry.now.buffer| == 8 * |entry.answers| && entry.now.buffer == Flatten(entry.answers)
    && 8 * |entry.answers| + entry.now.size == entry.asked.size
    && (entry.now.size > 0 || entry.answers == [])
  }

  /** The cipher's answer to y leaves the CMAC engine chained, or with the tag. */
  ghost predicate CmacAwaits(E: Cipher, c: M.Engine, k: Block, m: seq<byte>, y: Block) {
    var (c1, hash) := M.Result(c, E(k, y));
    && c.current <= c.count
    && (hash.None? ==> M.Chained(E, c1, k, m))
    && (hash.Some? ==> hash.value == CmacTag(E, k, m) && c1.state.Idle?)
    && (c.state.W4Subkeys? || c.state.W4Mi? || c.state.W4Mlast?)
  }

  function CmacTag(E: Cipher, k: Block, m: seq<byte>): Block {
    M.Run(E, M.IDLE, k, m)
  }

  ghost predicate CmacGood(E: Cipher, entry: Entry, c: M.Engine, inFlight: Option<Command>) {
    && entry.asked.CmacJob? && Legal(entry.asked) && entry.now == entry.asked
    && var m := Message(entry.now);
       match inFlight
       case None => c.state.Idle? || M.Chained(E, c, entry.now.key, m)
       case Some(command) =>
         command.LeEncrypt? && command.key == Flip(entry.now.key)
         && CmacAwaits(E, c, entry.now.key, m, Flip(command.plaintext))
  }

  /** Where the run of the request alone ends. */
  predicate CcmLeadsTo(E: Cipher, q: Ccm.Request, done: bool, goal: Ccm.Request) {
    if done then q == goal else Ccm.Ok(q) && !Ccm.Waiting(q.state) && Ccm.Finish(E, q) == goal
  }

  /** The cipher's answer to the command in flight keeps the request on the way to goal. */
  predicate CcmAwaits(E: Cipher, q: Ccm.Request, command: Command, goal: Ccm.Request) {
    && Ccm.Ok(q) && Ccm.Waiting(q.state) && command.LeEncrypt?
    && var (q1, done) := Ccm.Handle(q, E(Flip(command.key), Flip(command.plaintext)));
       CcmLeadsTo(E, q1, done, goal) && (!done ==> Ccm.Work(q1) < Ccm.Work(q))
  }

  predicate CcmGood(E: Cipher, entry: Entry, inFlight: Option<Command>) {
    && entry.asked.CcmJob? && Legal(entry.asked) && entry.now.CcmJob?
    && var q, goal := entry.now.request, Ccm.Finish(E, entry.asked.request);
       match inFlight
       case None => CcmLeadsTo(E, q, false, goal)
       case Some(command) => CcmAwaits(E, q, command, goal)
  }

  /** The request at the head is on its way, the statics are its own, and the command in flight is the
      one it waits for. */
  ghost predicate HeadGood(w: World, entry: Entry, s: Statics, inFlight: Option<Command>) {
    && KeyGood(w, s.ecc)
    && (s.cmac.state.Idle? || entry.now.CmacJob?)
    && (s.ecc.state.GeneratingRandom? ==> entry.now.GenerateKey?)
    && match entry.now
       case Random(_, _) => RandomGood(entry) && inFlight in {None, Some(LeRand)}
       case Aes(key, plaintext, _) =>
         entry.now == entry.asked && inFlight in {None, Some(Encrypt(key, plaintext))}
       case CmacJob(_, _, _, _) => CmacGood(w.E, entry, s.cmac, inFlight)
       case CcmJob(_) => CcmGood(w.E, entry, inFlight)
       case GenerateKey(_, _) =>
         && entry.now == entry.asked
         && (inFlight == None || (inFlight == Some(LeRand) && s.ecc.state.GeneratingRandom?))
       case Dhkey(_, _) => entry.now == entry.asked && inFlight == None
  }

  /** LE_RAND responses that n octets take: one for eight octets, and one even for none. */
  function Responses(n: nat): nat {
    if n == 0 then 1 else (n + 7) / 8
  }

  /** The result with which the callback finds the request. */
  ghost predicate Completed(w: World, entry: Entry) {
    match entry.asked
    case Random(_, size) =>
      && |entry.answers| == Responses(size) && |Flatten(entry.answers)| >= size
      && entry.now == Random(Flatten(entry.answers)[..size], 0)
    case Aes(key, plaintext, _) => entry.now == Aes(key, plaintext, Some(w.E(key, plaintext)))
    case CmacJob(key, source, length, _) =>
      Legal(entry.asked)
      && entry.now == CmacJob(key, source, length, Some(CmacTag(w.E, key, Message(entry.asked))))
    case CcmJob(request) => Legal(entry.asked) && entry.now == CcmJob(Ccm.Finish(w.E, request))
    case GenerateKey(_, _) =>
      && entry.now.GenerateKey? && |entry.now.gathered| == 8
      && entry.now.publicKey == Some(w.keyGen(Flatten(entry.now.gathered)).0)
    case Dhkey(peer, _) => entry.now.Dhkey? && entry.now.peer == peer && entry.now.dhkey.Some?
  }

  // Progress.

  /** Passes and answers that a request still needs at most; one less when its command is in flight. */
  function Cost(job: Job, s: Statics, waiting: bool): nat {
    var half := if waiting then 1 else 0;
    match job
    case Random(_, size) => 2 * Responses(size) - half
    case Aes(_, _, _) => 2 - half
    case CmacJob(_, _, length, _) => CmacCost(s.cmac, length)
    case CcmJob(request) => Ccm.Work(request)
    case GenerateKey(_, _) => KeyCost(s.ecc) - (if KeyCost(s.ecc) > half then half else 0)
    case Dhkey(_, _) => 1
  }

  function CmacCost(c: M.Engine, length: nat): nat {
    if c.state.Idle? || c.current > c.count then 2 * M.Count8(length) + 2
    else if c.state.CalcMi? || c.state.CalcMlast? then 2 * (c.count - c.current)
    else 2 * (c.count - c.current) + 1
  }

  function KeyCost(ecc: Ecc): nat {
    match ecc.state
    case KeyIdle => 17
    case KeyDone => 1
    case _ => if |ecc.gathered| < 8 then 2 * (8 - |ecc.gathered|) + 1 else 1
  }
}
