/** CCM sessions whose calls go through the shared queue, one after the other's callback, among any
    other requests. */
module CcmThroughQueue {
  import opened Bytes
  import opened Engine
  import opened EngineRuns
  import opened EngineProgress
  import Ccm
  import S = CcmSession
  import Rfc = Rfc3610

  /** The k-th digest call is callback number at[k], made on the request as the callback before found it. */
  ghost predicate DigestedBy(done: seq<Entry>, at: seq<nat>, q: Ccm.Request, bs: seq<S.Chunk>, r: Ccm.Request)
    decreases |bs|
  {
    |at| == |bs|
    && if bs == [] then r == q
       else
         at[0] < |done|
         && var entry := done[at[0]];
            entry.asked == CcmJob(Ccm.DigestBlock(q, bs[0].mem, bs[0].input, bs[0].len))
            && entry.now.CcmJob?
            && DigestedBy(done, at[1..], entry.now.request, bs[1..], r)
  }

  /** The same for the message calls, which put out together. */
  ghost predicate ProcessedBy(done: seq<Entry>, at: seq<nat>, q: Ccm.Request, encrypt: bool, bs: seq<S.Chunk>,
                              r: Ccm.Request, out: seq<byte>)
    decreases |bs|
  {
    |at| == |bs|
    && if bs == [] then r == q && out == []
       else
         at[0] < |done|
         && var entry, b := done[at[0]], bs[0];
            entry.asked == CcmJob(S.Called(q, encrypt, b))
            && entry.now.CcmJob? && |entry.now.request.mem| == |b.mem| && b.len <= |out|
            && out[..b.len] == S.Output(entry.now.request, b)
            && ProcessedBy(done, at[1..], entry.now.request, encrypt, bs[1..], r, out[b.len..])
  }

  /** Every CCM request called back is as the machine on its own would have left it. */
  ghost predicate AllServed(E: Cipher, done: seq<Entry>) {
    forall i :: 0 <= i < |done| ==>
      done[i].asked.CcmJob? ==> done[i].now == CcmJob(S.Served(E, done[i].asked.request))
  }

  lemma RunServes(w: World, events: seq<Event>)
    requires LegalEvents(events)
    ensures AllServed(w.E, After(w, events).done)
  {
    var done := After(w, events).done;
    hide After;
    forall i | 0 <= i < |done| && done[i].asked.CcmJob?
      ensures done[i].now == CcmJob(S.Served(w.E, done[i].asked.request))
    {
      Results(w, events, i);
    }
  }

  lemma {:induction false} DigestsServed(E: Cipher, done: seq<Entry>, at: seq<nat>, q: Ccm.Request,
                                         bs: seq<S.Chunk>, r: Ccm.Request)
    requires AllServed(E, done) && DigestedBy(done, at, q, bs, r)
    ensures r == S.Digested(E, q, bs)
    decreases |bs|
  {
    hide S.Served;
    if bs != [] {
      DigestsServed(E, done, at[1..], done[at[0]].now.request, bs[1..], r);
    }
  }

  lemma {:induction false} MessageServed(E: Cipher, done: seq<Entry>, at: seq<nat>, q: Ccm.Request, encrypt: bool,
                                         bs: seq<S.Chunk>, r: Ccm.Request, out: seq<byte>)
    requires AllServed(E, done) && ProcessedBy(done, at, q, encrypt, bs, r, out)
    ensures (r, out) == S.Processed(E, q, encrypt, bs)
    decreases |bs|
  {
    hide S.Served, S.Called, S.Output;
    if bs != [] {
      var b, q1 := bs[0], done[at[0]].now.request;
      assert q1 == S.Served(E, S.Called(q, encrypt, b));
      MessageServed(E, done, at[1..], q1, encrypt, bs[1..], r, out[b.len..]);
      hide *;
      S.ProcessedFirst(E, q, encrypt, bs);
      assert out == out[..b.len] + out[b.len..];
    }
  }

  /** The calls of a session are callbacks of the run. */
  ghost predicate SessionBy(done: seq<Entry>, atAad: seq<nat>, atMessage: seq<nat>, encrypt: bool, key: Block,
                            nonce: Rfc.Nonce, aad: seq<S.Chunk>, message: seq<S.Chunk>, authLen: nat,
                            q: Ccm.Request, digested: Ccm.Request, last: Ccm.Request, out: seq<byte>)
  {
    var q1 := Ccm.Init(key, nonce, |S.Joined(message)|, |S.Joined(aad)|, authLen, q);
    && DigestedBy(done, atAad, q1, aad, digested)
    && ProcessedBy(done, atMessage, digested, encrypt, message, last, out)
  }

  lemma SessionServed(w: World, events: seq<Event>, atAad: seq<nat>, atMessage: seq<nat>, encrypt: bool, key: Block,
                      nonce: Rfc.Nonce, aad: seq<S.Chunk>, message: seq<S.Chunk>, authLen: nat, q: Ccm.Request,
                      digested: Ccm.Request, last: Ccm.Request, out: seq<byte>)
    requires LegalEvents(events) && S.Legal(aad, message, authLen)
    requires SessionBy(After(w, events).done, atAad, atMessage, encrypt, key, nonce, aad, message, authLen, q,
                       digested, last, out)
    ensures (out, last.xi[..authLen]) == S.Session(w.E, encrypt, key, nonce, aad, message, authLen, q)
  {
    var q1 := Ccm.Init(key, nonce, |S.Joined(message)|, |S.Joined(aad)|, authLen, q);
    hide After, S.Digested, S.Processed, Ccm.Init, S.Joined, DigestedBy, ProcessedBy, AllServed;
    RunServes(w, events);
    DigestsServed(w.E, After(w, events).done, atAad, q1, aad, digested);
    MessageServed(w.E, After(w, events).done, atMessage, digested, encrypt, message, last, out);
  }

  /** Suspended at every cipher call, fed in any legal chunks, among any other requests and callbacks that
      re-enter the queue, the machine computes the encryption of RFC 3610. */
  lemma QueueEncrypts(w: World, events: seq<Event>, atAad: seq<nat>, atMessage: seq<nat>, key: Block,
                      nonce: Rfc.Nonce, aad: seq<S.Chunk>, message: seq<S.Chunk>, authLen: nat, q: Ccm.Request,
                      digested: Ccm.Request, last: Ccm.Request, out: seq<byte>)
    requires LegalEvents(events) && S.Legal(aad, message, authLen)
    requires SessionBy(After(w, events).done, atAad, atMessage, true, key, nonce, aad, message, authLen, q,
                       digested, last, out)
    ensures (out, last.xi[..authLen])
         == Rfc.Encrypt(w.E, key, nonce, S.Joined(aad), S.Joined(message), authLen)
  {
    hide After, S.Session, Rfc.Encrypt, SessionBy;
    SessionServed(w, events, atAad, atMessage, true, key, nonce, aad, message, authLen, q, digested, last, out);
    S.EncryptSession(w.E, key, nonce, aad, message, authLen, q);
  }

  /** And its decryption: the plaintext that encrypts to the input, with that authentication value. */
  lemma QueueDecrypts(w: World, events: seq<Event>, atAad: seq<nat>, atMessage: seq<nat>, key: Block,
                      nonce: Rfc.Nonce, aad: seq<S.Chunk>, message: seq<S.Chunk>, authLen: nat, q: Ccm.Request,
                      digested: Ccm.Request, last: Ccm.Request, out: seq<byte>)
    requires LegalEvents(events) && S.Legal(aad, message, authLen)
    requires SessionBy(After(w, events).done, atAad, atMessage, false, key, nonce, aad, message, authLen, q,
                       digested, last, out)
    ensures |out| == |S.Joined(message)|
    ensures Rfc.Encrypt(w.E, key, nonce, S.Joined(aad), out, authLen) == (S.Joined(message), last.xi[..authLen])
  {
    hide After, S.Session, Rfc.Encrypt, SessionBy;
    SessionServed(w, events, atAad, atMessage, false, key, nonce, aad, message, authLen, q, digested, last, out);
    S.DecryptSession(w.E, key, nonce, aad, message, authLen, q);
  }
}
