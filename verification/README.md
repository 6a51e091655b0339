# Nutcracker RC car: verified models

Dafny models of the parts of the firmware whose correctness is hard to see by reading, with proofs.

- **Crypto engine** (`btstack_crypto.c`), built as here: AES in the controller, P-256 in software. AES is an
  uninterpreted cipher `E(key, block)`, the P-256 library two uninterpreted functions.
  `Rfc4493` and `Rfc3610` state AES-CMAC and Counter with CBC-MAC as the RFCs do. `Cmac` and `CmacMachine` are
  the two CMAC implementations, `Ccm` to `CcmSession` the CCM request as a machine that gives up the
  processor at every cipher call, `CcmRequest` the same request updated in place. `CcmEmptyDigest`, `CcmEmptyCall` and
  `CcmCuts` say what calls without octets do to it; `CcmWitness` and `CcmPath` hold ciphers that show it, and
  `CcmEmptyMessage` the exact condition. `Engine` to `EngineKeys` are the queue, over every order of submissions,
  passes of the run loop, controller answers and halts;
  `CryptoEngine` is the queue updated in place, and `CcmThroughQueue` puts sessions and queue together.
- **Car**: `Exhibit` is the table exhibit, `WheelTest` the wheel test task, `TwoCores` the input loop beside the
  callbacks of the other core and `FinalStop` when their stop is final, `Connections` the accounting of ready devices, `Drive` the arithmetic from stick
  to motor duty and `IdleToMove` the detector behind the exhaust puff.
- **Codecs**: `Base64` is the decoder, `AdParser` the advertising data iterator.

How the models are built:

- A pure machine (a record and step functions) says what the code does; classes and methods over fields,
  arrays and loops are proved equal to it, and the theorems are about the machine. `TableExhibit`, `Platform`,
  `Detector` and the calls that only set fields have a method for each function of the source, whose contract is
  equality with the step of the machine; the table below lists those with loops, arrays or aliasing.
- Callbacks may call the API again. A callback is the last thing before control returns to a place that reads
  the state afresh, so a run is a sequence of atomic steps, and what a callback does shows as further steps.
  The run loop may also stop between any two passes, as it does when HCI cannot take a command.
- Concurrency is interleaving: each access to a flag that another task or core shares is a step of its own.
- HCI responses are arbitrary for random data and honest for encryption, on octet-reversed keys and blocks.
  After `HALTING` no answer to an older command arrives before the stack works again.
- Clock, `is_connected`, `esp_random` and everything read from devices are arbitrary inputs.

Where code and documentation differ, the model follows the code. These findings are stated, with the exact condition
or an input:

- the CMAC machine's block count has 8 bits, so it is right exactly up to 4080 octets (`ExactlyUpTo4080`),
  though its size parameter has 16;
- CCM encrypts and decrypts as RFC 3610 says exactly when every message call and the last digest call have an octet
  (`ExactlyNonEmpty`), though the comments in `btstack_crypto.h` ask only for multiples of 16; a digest call after the
  last octet of the additional data leaves the run loop spinning (`LateDigestSpins`);
- a key request takes 0, 8, 16 or more responses, depending on the key state when it reaches the head and on further
  requests before its key is delivered (`KeyResponses`);
- `rccar_exhibit_begin` turns off only the headlight, and callbacks and timers write to the outputs of a running
  exhibit: it shows what it should exactly if begin finds mist, radar and turret off and these writes fall outside the
  phases they disturb (`AgreesExactly`); how long a wrong output lasts is `RightAgain`;
- a round under way can clear the cancel flag that a disconnection has set (`StopUndone`); where the loop must be for a
  stop to be final is `CancelIsFinal`, `CancelEndsTest` and `WheelStopIsFinal`;
- the rumble pointer of the laser can name a device that is gone, even with nothing connected (`DanglesExactly`);
- the activity test negates unclamped axes (`ActivityExactly`);
- the duty of a wheel is computed in 32 bits (`WheelDuty`), which every command of the car fits (`DutyWraps`);
- the base64 routine for one character returns more than an octet (`FitsOctet`); the block routine stores eight bits.

Verify with `dafny verify dfyconfig.toml`.

## Model

| member | source | states |
|---|---|---|
| Rfc4493.ShiftLeftDoubles | components/btstack/src/btstack_crypto.c:188-196 | The one-bit shift doubles the big-endian number modulo 2^(8 len), for strings of any length |
| Rfc4493.ValueInjective | components/btstack/src/btstack_crypto.c:188-196 | Two strings of one length with the same big-endian value are equal, so the doubling fixes every octet of the shift |
| Cmac.ShiftLeftByOneBitInPlace | components/btstack/src/btstack_crypto.c:188-196 | The loop over an array, from the last octet with a carry, leaves the shifted string |
| Cmac.NextSubkey | components/btstack/src/btstack_crypto.c:317-329 | Copy, shift and fold in 0x87: the next subkey of section 2.3 of RFC 4493 |
| Cmac.SetLastBlock | components/btstack/src/btstack_crypto.c:335-355 | The last block of section 2.4, from a buffer or a generator: masked with K1 when whole, padded and masked with K2 otherwise |
| Cmac.Calc | components/btstack/src/btstack_crypto.c:221-277 | The straight-line implementation computes the AES-CMAC of RFC 4493 for every 16-bit size |
| CmacMachine.CountExact | components/btstack/src/btstack_crypto.c:403-409 | The 8-bit block count is the number of blocks up to 4080 octets and smaller beyond |
| CmacMachine.FirstStep | components/btstack/src/btstack_crypto.c:397-417 | The first cipher call is for zero, and its answer leaves the engine at the first block |
| CmacMachine.ChainedStep | components/btstack/src/btstack_crypto.c:299-395 | Each further cipher call, answered, absorbs one more block or ends with the tag over the blocks counted |
| CmacMachine.RunIsTag | components/btstack/src/btstack_crypto.c:299-417 | Suspended at every cipher call, a whole request ends with the tag over as many blocks as the 8-bit count says |
| CmacMachine.RunIsCmac | components/btstack/src/btstack_crypto.c:299-417 | Up to 4080 octets that is the AES-CMAC of RFC 4493, so the suspended machine refines the straight-line one |
| CmacMachine.TooLong | components/btstack/src/btstack_crypto.c:149-149 | Every longer size has a cipher, key and message for which the machine returns something else |
| CmacMachine.ExactlyUpTo4080 | components/btstack/src/btstack_crypto.c:397-417 | For a 16-bit size the machine computes RFC 4493 for all ciphers, keys and messages if and only if the size is at most 4080 |
| CmacMachine.CmacEngine.HandleAesEngineReady | components/btstack/src/btstack_crypto.c:299-369 | Puts together the next block in place and hands it to the cipher |
| CmacMachine.CmacEngine.HandleEncryptionResult | components/btstack/src/btstack_crypto.c:371-395 | Takes the cipher block in, or delivers the hash |
| CmacMachine.CmacEngine.Hash | components/btstack/src/btstack_crypto.c:299-417 | The engine driven by the cipher alone returns the tag, which up to 4080 octets is the AES-CMAC, and is idle again |
| Rfc3610.MacIsAbsorb | components/btstack/src/btstack_crypto.c:454-488 | The authentication value of section 2.2 of RFC 3610 is what absorbing first the additional data, then the message, leaves |
| Rfc3610.CtrTwice | components/btstack/src/btstack_crypto.c:638-647 | Combining with the key stream of section 2.3 twice gives the message back |
| Ccm.CalcProgress | components/btstack/src/btstack_crypto.c:894-932 | A pass over a CCM request that waits for nothing sends a block to the cipher or ends a chunk of additional data, and leaves less work |
| Ccm.HandleProgress | components/btstack/src/btstack_crypto.c:1050-1076 | An answer ends the call or leaves the request ready for a pass with less work |
| CcmChunk.TwoRounds | components/btstack/src/btstack_crypto.c:730-787 | Two cipher calls, in the order of encryption or of decryption, take the request over one block of the message |
| CcmChunk.ChunkFinish | components/btstack/src/btstack_crypto.c:603-659 | A message call ends with the chunk combined with its part of the key stream, the plaintext absorbed, the counter one per block further and S_0 folded in after the last octet, also in place |
| CcmAad.RoundAad | components/btstack/src/btstack_crypto.c:799-834 | One pass over additional data fills up the block of the CBC-MAC and has it encrypted when it is full or the last |
| CcmAad.AadFinish | components/btstack/src/btstack_crypto.c:789-835 | A digest call ends with all its octets in the CBC-MAC: whole blocks encrypted, the rest combined in, aad_remainder_len being aad_offset modulo 16 |
| CcmSession.DigestStep | components/btstack/src/btstack_crypto.c:1313-1322 | One digest call continues the CBC-MAC from wherever the calls before left it |
| CcmSession.DigestCalls | components/btstack/src/btstack_crypto.c:1313-1322 | Any number of digest calls of any lengths digest their octets put together |
| CcmSession.AfterAllDigests | components/btstack/src/btstack_crypto.c:1302-1322 | From init on, however the additional data is cut, the message calls start from its CBC-MAC |
| CcmSession.MessageStep | components/btstack/src/btstack_crypto.c:1328-1357 | One message call writes its chunk combined with the key stream and digests the plaintext |
| CcmSession.MessageCalls | components/btstack/src/btstack_crypto.c:1328-1357 | Any cut of the message into non-empty chunks, whole blocks but for the last, yields the octets and the CBC-MAC of the message in one piece |
| CcmSession.EncryptSession | components/btstack/src/btstack_crypto.c:1302-1343 | For every key, nonce, additional data and non-empty message, for every cut of both into calls and every place of the buffers, output and authentication value are those of sections 2.2 and 2.3 of RFC 3610 |
| CcmSession.DecryptSession | components/btstack/src/btstack_crypto.c:1345-1357 | Decryption puts out the plaintext whose encryption is its input, with the authentication value of that encryption |
| CcmSession.RoundTrip | components/btstack/src/btstack_crypto.c:603-713 | Decrypting what was encrypted, cut in any other way and in any other buffers, returns plaintext and authentication value |
| CcmEmptyDigest.EmptyDigest | components/btstack/src/btstack_crypto.c:789-835 | A digest call without octets where there is no additional data still runs a CBC-MAC step on nothing |
| CcmEmptyDigest.LateDigest | components/btstack/src/btstack_crypto.c:1313-1322 | After the last octet of the additional data, a digest call without octets leaves a request that is legal in every respect but waits for an answer that nobody owes it |
| CcmEmptyDigest.LateDigestSpins | components/btstack/src/btstack_crypto.c:849-932 | With the request of such a call at its head the run loop makes no progress: every pass leaves queue, statics and flag as they are, and sends nothing |
| CcmEmptyCall.EmptyCall | components/btstack/src/btstack_crypto.c:603-787 | A message call without octets runs a CBC-MAC step on nothing and moves the counter on; without octets to come it folds S_0 in |
| CcmCuts.OutOfStepShows | components/btstack/src/btstack_crypto.c:603-647 | Encrypting or decrypting, a call with octets that finds the counter moved on by a number of empty calls that 65536 does not divide combines its first octet with the wrong key stream block |
| CcmCuts.InStepRun | components/btstack/src/btstack_crypto.c:603-787 | Otherwise the authentication value is the CBC-MAC of the plaintext with one more step per empty call, and a further step and S_0 for each call after the last octet; for decryption where the key stream is zero |
| CcmEmptyMessage.EmptySession | components/btstack/src/btstack_crypto.c:757-787 | A session of calls without octets runs a CBC-MAC step on nothing and folds S_0 in for each of them |
| CcmEmptyMessage.ExactlyNonEmpty | components/btstack/src/btstack_crypto.c:1302-1357 | Encryption and decryption, over all cuts of the message into calls whose lengths, but for the last, are multiples of 16, zero included, and however many: a session does what RFC 3610 says for all ciphers if and only if every message call has an octet and the last digest call, if any, has one |
| CcmEmptyMessage.OctetBehindEmpty | components/btstack/src/btstack_crypto.c:603-622 | The shortest such cut: one octet behind an empty call is combined with S_2 where RFC 3610 says S_1 |
| CcmRequest.RequestRecord.StoreLength | components/btstack/src/btstack_crypto.c:790-798 | Combines the length of the additional data into x_i in place |
| CcmRequest.RequestRecord.FillFromInput | components/btstack/src/btstack_crypto.c:800-809 | The loop that combines input octets into x_i up to the end of the block |
| CcmRequest.RequestRecord.CalcAadPass | components/btstack/src/btstack_crypto.c:789-835 | The whole pass over additional data on the fields and buffers |
| CcmRequest.RequestRecord.XoredBlock | components/btstack/src/btstack_crypto.c:765-775 | The buffer handed to the cipher: combined as far as there is plaintext, copied after it |
| CcmRequest.RequestRecord.Calc | components/btstack/src/btstack_crypto.c:897-932 | Each state of the request sends the block, or ends the call, that the machine says |
| CcmRequest.RequestRecord.NextBlock | components/btstack/src/btstack_crypto.c:603-622 | Moves counter, pointers and lengths over a block and chooses the next state |
| CcmRequest.RequestRecord.CombineOutput | components/btstack/src/btstack_crypto.c:639-647 | The output loop on one memory: also with input and output the same, the output is the input combined with the reversed answer |
| CcmRequest.RequestRecord.HandleSn | components/btstack/src/btstack_crypto.c:638-659 | Takes a key stream block in and goes on in the order of the operation |
| CcmRequest.RequestRecord.HandleS0 | components/btstack/src/btstack_crypto.c:625-635 | Folds the reversed answer into x_i in place |
| CcmRequest.RequestRecord.Handle | components/btstack/src/btstack_crypto.c:1053-1075 | Each waiting state takes the octet-reversed answer as the machine says |
| CcmRequest.RequestRecord.Serve | components/btstack/src/btstack_crypto.c:894-932 | Passes and answers of a controller that works on octet-reversed keys and blocks, until the callback, leave the request where the machine ends |
| EngineHead.FreshHead | components/btstack/src/btstack_crypto.c:862-863 | A request that reaches the head finds the statics at rest |
| EngineHead.HeadPass | components/btstack/src/btstack_crypto.c:861-987 | A pass over the head sends exactly the command it then waits for, or completes it with the right result; it never does nothing |
| EngineHead.HeadAnswer | components/btstack/src/btstack_crypto.c:991-1080 | The answer to the command in flight completes the head with the right result or leaves it ready for a pass |
| EngineHead.RandomAnswer | components/btstack/src/btstack_crypto.c:997-1009 | A random response is appended to the buffer, up to the size asked for |
| EngineRuns.StepKeeps | components/btstack/src/btstack_crypto.c:1083-1184 | Submission, pass, answer, unexpected event and halt all keep the invariant of queue, statics, wait flag and command in flight |
| EngineRuns.Stray | components/btstack/src/btstack_crypto.c:1112-1122 | A response event that nobody waits for changes nothing |
| EngineRuns.Fifo | components/btstack/src/btstack_crypto.c:837-1081 | Over every run, callbacks made and requests queued are together the submissions in order, so each callback fires once and in turn; at most one HCI command is outstanding, and the wait flag says whether one is |
| EngineProgress.NeverStuck | components/btstack/src/btstack_crypto.c:852-859 | With requests queued and the wait flag clear, the head is in no waiting or active state and a pass sends or completes; with it set, a command is in flight |
| EngineProgress.Progress | components/btstack/src/btstack_crypto.c:849-988 | Every pass let through and every answer awaited lowers a measure of the queue; any other changes nothing |
| EngineProgress.Bounded | components/btstack/src/btstack_crypto.c:837-1184 | Over every run the moves made and the measure left are at most the cost of the requests submitted, so every request completes |
| EngineProgress.Results | components/btstack/src/btstack_crypto.c:183-186 | Every callback finds the result that its request would have alone |
| EngineProgress.RandomResult | components/btstack/src/btstack_crypto.c:997-1009 | A random request for n octets takes max(1, ceil(n/8)) responses and holds the first n octets of them |
| EngineProgress.CmacResult | components/btstack/src/btstack_crypto.c:371-395 | Through the queue and the octet reversal, CMAC requests up to 4080 octets get the AES-CMAC of RFC 4493 |
| EngineKeys.KeyResponses | components/btstack/src/btstack_crypto.c:935-1024 | Over every run, a key request called back has taken eight responses for each time that its key state was idle, on reaching the head or because of a further generate_key between the eighth response and the delivery; eight exactly when that was once; its key is made from the last eight |
| EngineKeys.EightRounds | components/btstack/src/btstack_crypto.c:946-969 | Undisturbed and idle at the head, it takes eight, appended in order |
| EngineKeys.KeyShared | components/btstack/src/btstack_crypto.c:935-945 | A key request behind one whose eight responses are there gets the same key with none of its own |
| EngineKeys.KeyAgain | components/btstack/src/btstack_crypto.c:1244-1248 | A generate_key between the eighth response and the delivery sends the request at the head back to idle |
| EngineKeys.Sixteen | components/btstack/src/btstack_crypto.c:1244-1255 | The run in which a request that was idle at the head therefore takes sixteen, its key made from the second eight |
| EngineKeys.GatherResponse | components/btstack/src/btstack_crypto.c:1011-1020 | The random buffer has room for every response that comes, so its assertion never fails |
| EngineKeys.KeyStartsOver | components/btstack/src/btstack_crypto.c:1244-1248 | A key asked for when nothing is queued is generated anew, also after a finished one |
| EngineKeys.KeyFromEight | components/btstack/src/btstack_crypto.c:937-945 | The key delivered is the one made from the eight responses |
| EngineKeys.DhkeyUsesLastKey | components/btstack/src/btstack_crypto.c:970-976 | A shared secret is made with the private half of the finished key |
| CcmThroughQueue.QueueEncrypts | components/btstack/src/btstack_crypto.c:837-1080 | A session whose calls are callbacks of a run, among any other requests and callbacks that re-enter the queue, computes the encryption of RFC 3610 |
| CcmThroughQueue.QueueDecrypts | components/btstack/src/btstack_crypto.c:837-1080 | The same for decryption |
| CryptoEngine.Crypto.Submit | components/btstack/src/btstack_crypto.c:1244-1255 | Appends a request, key generation first starting over |
| CryptoEngine.Crypto.PassCmac | components/btstack/src/btstack_crypto.c:880-890 | Starts or continues the CMAC engine and sends its block |
| CryptoEngine.Crypto.PassKey | components/btstack/src/btstack_crypto.c:935-969 | Delivers the finished key or asks for random data |
| CryptoEngine.Crypto.Iterate | components/btstack/src/btstack_crypto.c:861-987 | One iteration of the loop |
| CryptoEngine.Crypto.CallBack | components/btstack/src/btstack_crypto.c:837-989 | A callback that submits requests, each of which enters the loop again: what it does is a run of passes and of its submissions in order |
| CryptoEngine.Crypto.RunLoop | components/btstack/src/btstack_crypto.c:837-989 | The loop, whose callbacks submit any requests by any finite script, nested as deep as they like, terminates with the queue empty or a command out, after a run of passes and of their submissions in order |
| CryptoEngine.Crypto.StoreRandom | components/btstack/src/btstack_crypto.c:1012-1014 | Copies eight octets to the end of the random buffer, within its 64 |
| CryptoEngine.Crypto.HandleRandomData | components/btstack/src/btstack_crypto.c:991-1024 | Takes a random response in at the head |
| CryptoEngine.Crypto.HandleEncryptionResult | components/btstack/src/btstack_crypto.c:1030-1080 | Takes an octet-reversed cipher block in at the head |
| CryptoEngine.Crypto.RandComplete | components/btstack/src/btstack_crypto.c:1118-1122 | The LE Rand event: ignored unless waited for, else the answer, its callback and the passes after it, with the same re-entrance |
| CryptoEngine.Crypto.EncryptComplete | components/btstack/src/btstack_crypto.c:1112-1116 | The LE Encrypt event of an honest controller: likewise |
| CryptoEngine.Crypto.StateReset | components/btstack/src/btstack_crypto.c:1360-1369 | Empties the queue and puts flag and engines at rest |
| Base64.FitsOctet | components/btstack/src/btstack_base64_decoder.c:106-118 | The value that process_byte returns fits an octet exactly when the upper bits of the previous character are zero |
| Base64.ByteBits | components/btstack/src/btstack_base64_decoder.c:100-118 | Per character, the bits pending and its own six are the octet put out, taken modulo 256, and the bits then pending |
| Base64.DecodeAlphabet | components/btstack/src/btstack_base64_decoder.c:130-152 | From any position, alphabet characters put out the octets of their concatenated 6-bit values |
| Base64.DecodeBlock | components/btstack/src/btstack_base64_decoder.c:130-152 | n alphabet characters yield the first floor(6n/8) octets of their bits, or as many as fit, and FULL exactly when they do not fit |
| Base64.InvalidCharacter | components/btstack/src/btstack_base64_decoder.c:94-97 | Any other character, save padding in its place, makes the input INVALID |
| Base64.RoundTrip | components/btstack/src/btstack_base64_decoder.c:130-152 | Decoding the padded encoding of section 4 of RFC 4648 of any octets returns them, given the space |
| Base64.Decoder.Process | components/btstack/src/btstack_base64_decoder.c:61-128 | The per-character routine on the context |
| Base64.ProcessBlock | components/btstack/src/btstack_base64_decoder.c:130-152 | The loop writes the decoded octets, never beyond output_max_size, leaves the rest of the buffer alone and returns count or error |
| AdParser.RoundTrip | components/btstack/src/ad_parser.c:57-98 | Parsing a serialized list of AD structures, zero padding after it or not, returns the list |
| AdParser.ParsedPrefix | components/btstack/src/ad_parser.c:63-80 | What is found in any data is laid out at its front, and no whole structure follows it |
| AdParser.AdIterator.Accessors | components/btstack/src/ad_parser.c:63-98 | has_more is true exactly if a structure is left, and the accessors return the first one, their 8-bit arithmetic not wrapping |
| AdParser.AdIterator.Next | components/btstack/src/ad_parser.c:83-86 | The 8-bit offset moves on by the whole structure without wrapping |
| AdParser.Iterate | components/btstack/src/ad_parser.c:57-98 | The loop of init, has_more, accessors and next terminates with the structures of the data |
| AdParser.Search16 | components/btstack/src/ad_parser.c:114-119 | The inner loop finds a 16-bit UUID exactly if the structure lists it, its 8-bit index not wrapping |
| AdParser.Search128 | components/btstack/src/ad_parser.c:123-129 | The same for the expanded 128-bit form |
| AdParser.ContainsUuid16 | components/btstack/src/ad_parser.c:100-137 | True exactly if a structure before the first malformed or zero length holds the UUID in one of the two forms |
| Exhibit.TickKeeps | components/rccar/rccar_exhibit.c:197-314 | For any clock and any answers of is_connected, a tick keeps outputs, gun, turns and phase in agreement; gun, turns and counts also where the outputs are not |
| Exhibit.AbortKeeps | components/rccar/rccar_exhibit.c:179-195 | abort leaves everything off from any phase, whatever the outputs were |
| Exhibit.BeginKeeps | components/rccar/rccar_exhibit.c:165-177 | begin leaves outputs and phase in agreement exactly if mist, radar and turret are off before it |
| Exhibit.AlwaysSteady | components/rccar/rccar_exhibit.c:81-314 | Over every run, whatever other tasks and the other core write to the outputs: shots minus gun sounds is 0 or 1 and the pending flag; turns alternate; a lap has three turns, two shots and two bursts |
| Exhibit.AgreesExactly | components/rccar/rccar_exhibit.c:81-314 | Over every run headlight, mist, radar and turret are on exactly in their phases, at every moment, if and only if each begin finds mist, radar and turret off, and while the exhibit runs no callback stops the turret in a turn, the radar in its phase or the mist in its phase, and no timer turns the mist on in another |
| Exhibit.RadarLeftOn | main/my_platform.c:736-742 | A run in which one does not: the radar toggled after abort stays on when the exhibit begins again |
| Exhibit.ReadyInTurn | main/my_platform.c:1122-1133 | A run whose begin finds all off: a device that becomes ready during the first turn stops the turret |
| Exhibit.RightAgain | components/rccar/rccar_exhibit.c:214-307 | Whatever has been written beside it, the turret is right from the next tick on that nothing blocks, mist and radar from the next phase on that switches them |
| Exhibit.AgreesAgain | components/rccar/rccar_exhibit.c:165-313 | Without a further write all outputs are on exactly in their phases in every lap after the next one; from a begin on, whatever it finds on, after the first |
| Exhibit.LapOpens | components/rccar/rccar_exhibit.c:100-107 | Lap n opens in direction (-1)^n |
| Exhibit.EveryShotSounded | components/rccar/rccar_exhibit.c:205-212 | When LASER_HOLD is left because its time is over, every shot has had its sound |
| Exhibit.NextPhase | components/rccar/rccar_exhibit.c:245-313 | An expired phase hands over to the next of the nineteen of a lap, with its duration, or to the next lap |
| Exhibit.NominalLap | components/rccar/rccar_exhibit.c:32-43 | The durations of a lap add up to 34107 ms and the track |
| Exhibit.LapTime | components/rccar/rccar_exhibit.c:197-314 | With ticks at most D ms apart every lap lasts at least 34107 ms and its track, and less than 19 D longer |
| WheelTest.Always | components/rccar/rccar_motor.c:425-484 | Every interleaving of the task with start and stop keeps flags, task handle and commands in order |
| WheelTest.Cancelled | components/rccar/rccar_motor.c:464-468 | After a stop, wherever the task is, it gives at most one more non-zero command; when it has ended all wheels stand and its last command is zero |
| WheelTest.StopsSoon | components/rccar/rccar_motor.c:410-423 | A stopped task ends within six of its steps |
| WheelTest.Uncancelled | components/rccar/rccar_motor.c:425-457 | An undisturbed run is the eight spins in order, each followed by a stop, and a stop at the end |
| WheelTest.SpinOrder | components/rccar/rccar_motor.c:432-441 | The order is forward on FL, FR, RL, RR, then backward on each |
| WheelTest.TaskProgress | components/rccar/rccar_motor.c:425-457 | Every step of the task brings it closer to its end |
| WheelTest.Task.WaitOrCancel | components/rccar/rccar_motor.c:410-423 | The wait in slices terminates and returns what the flag read last |
| WheelTest.Task.RunTask | components/rccar/rccar_motor.c:425-457 | The task as two nested loops: some of the spins in order, each followed by a stop, then a stop; all eight unless the flag was read as set |
| TwoCores.Always | main/my_platform.c:592-721 | Every interleaving of core 0, the loop of core 1 and the wheel test, one access to a shared flag or to the wheels at a time, keeps the invariant on connection, failsafe, exhibit and wheels |
| TwoCores.WheelsStand | main/my_platform.c:613-635 | Once the connection has stayed away through one whole round of the loop and the wheel test has ended, all wheels stand |
| TwoCores.StaysCalm | main/my_platform.c:1066-1078 | And they stay so, no wheel test starting, through any further events until a device becomes ready |
| FinalStop.CancelIsFinal | components/rccar/rccar_motor.c:464-468 | With the connection away, the cancel flag that a stop sets stays set through whatever follows, no device becoming ready, if and only if the loop is not between its decision to start a wheel test and the clearing of the flag |
| FinalStop.CancelEndsTest | components/rccar/rccar_motor.c:464-468 | The wheel test has ended once its task has taken six more steps, through whatever follows, if and only if the loop is not creating the task either |
| FinalStop.WheelStopIsFinal | main/my_platform.c:541-549 | After a stop of the wheels they stand whenever no wheel test is under way, through whatever follows, if and only if the loop is not acting on a report at that moment |
| TwoCores.StopUndone | components/rccar/rccar_motor.c:470-484 | An earlier stop can be undone: the round under way starts a wheel test and clears the cancel flag, so that a wheel turns after a whole round without the connection |
| TwoCores.LateSample | main/my_platform.c:658-717 | Less than a whole round is not enough: a round under way can apply a late sample after everything has been stopped |
| TwoCores.FailsafeStands | main/my_platform.c:646-653 | With the failsafe on, no exhibit running and no wheel test, the wheels stand |
| Connections.Accounting | main/my_platform.c:1005-1147 | If each device is connected, at most once ready and disconnected, then after every callback s_ready_count is the number of ready devices, s_connected says whether it is positive, and board, pad, effect and keep-alive pointers name only ready devices |
| Connections.DanglesExactly | main/my_platform.c:225-240 | Over every run, shots coming from any device at any moment: laser_rumble_device names a device that is not ready if and only if that device fired a shot after which there was no other, no timer and no disconnection of the last device, and is not ready now |
| Connections.GoneDeviceRumbles | main/my_platform.c:225-255 | A run in which the device goes after its shot and the timer then asks it to rumble |
| Connections.ShotAfterTheLast | main/my_platform.c:762-767 | A run in which the shot comes after the last device has gone, and laser_rumble_device names it with nothing connected |
| Connections.ChildIgnored | main/my_platform.c:1030-1035 | Virtual child devices change nothing |
| Drive.SnapTwice | components/rccar/rccar_drive.c:72-100 | Snapping is idempotent, for all values and all cones that contain the diagonal |
| Drive.SnapBounds | components/rccar/rccar_drive.c:72-100 | Snapping keeps the direction of each axis or stops it, stays within the larger axis, and is zero exactly in the dead zone |
| Drive.RawMotion | components/rccar/rccar_drive.c:20-23 | The unscaled wheels determine the three motions |
| Drive.MixResult | components/rccar/rccar_drive.c:14-47 | In range the mix is the sum; beyond it the fastest wheel gets exactly 512 and every wheel keeps its sign or stops, within one unit of exact proportion |
| Drive.PeakIsSum | components/rccar/rccar_drive.c:20-36 | The fastest unscaled wheel has the three motions added up in magnitude |
| Drive.WheelDuty | components/rccar/rccar_motor.c:83-132 | A wheel gets one channel at most, by the sign of the command, off or 43 to 50 of 50 ticks, if and only if the command is 0 or its 32-bit product with 50 is at least 43 times 512 |
| Drive.DutyWraps | components/rccar/rccar_motor.c:83-132 | Every command below 2^32 / 50 in magnitude therefore drives its wheel; the first one that is not leaves the wheel standing |
| Drive.WheelSet | components/rccar/rccar_motor.c:337-347 | The loop over the wheels leaves each pair of compare registers at the duty of its command, which is as it should be for commands below 2^32 / 50 |
| Drive.GamepadBounds | main/my_platform.c:509-531 | Whatever the sticks read, no wheel is asked for more than 512; at rest all stand |
| Drive.StickDirections | main/my_platform.c:509-528 | A stick moved along one axis drives, turns or strafes, at the speed of its deflection |
| Drive.BoardStoppedExactly | main/my_platform.c:533-539 | The stopped test of the board is true exactly if its drive would leave all wheels standing |
| Drive.SnapDiagonalCone | components/rccar/rccar_drive.c:72-100 | Snapping in 32-bit arithmetic, for all arguments whose negations and products fit |
| Drive.MixWheels | components/rccar/rccar_drive.c:14-47 | The mix in 32-bit arithmetic, for all motions whose unscaled wheels fit 32 bits when multiplied by 512 |
| Drive.MotionsFit | components/rccar/rccar_drive.c:20-43 | They do when the three motions add up to less than 2^22 in magnitude, and do not when it is more |
| Drive.GamepadDrive | main/my_platform.c:509-526 | From arbitrary 32-bit stick values to the wheels, no operation overflowing |
| Drive.BoardDrive | main/my_platform.c:495-502 | From arbitrary 32-bit board axes to the wheels, likewise |
| Drive.ApplyGamepadDrive | main/my_platform.c:509-531 | From arbitrary 32-bit stick values to the compare registers: each wheel is off or has 43 to 50 ticks on the channel of its direction |
| Drive.ApplyBoardDrive | main/my_platform.c:495-507 | The same from the board |
| Drive.ActivityExactly | main/my_platform.c:294-306 | The activity test, which takes the absolute value of unclamped axes, leaves 32 bits if and only if the first axis beyond the dead zone is -2^31; otherwise it tells whether there is one |
| Drive.HasControlActivity | main/my_platform.c:294-306 | The test in 32-bit arithmetic, buttons first |
| IdleToMove.PulseExactly | components/rccar/rccar_drive.c:112-133 | Over every history, the pulse comes at a sample exactly if it moves, the one before does not, and the rest just ended began at least idle_need_ms earlier |

## Left out

- AES, micro-ecc and mbedTLS: uninterpreted functions; HCI packet formats beyond the octet order of keys and blocks.
- `USE_BTSTACK_AES128` and controller-side P-256: not built here; the straight-line CMAC is modelled as the reference.
- `btstack_crypto_ecc_p256_set_key` and `btstack_crypto_ecc_p256_validate_public_key`: a test hook and a library call.
- Submitting a request structure that is still queued: callers owe not to; the list would refuse it.
- Additional data of 0xff00 octets or more, a chunk longer than init announced, a message chunk that is neither whole blocks nor the last: callers owe not to, by the comments in `btstack_crypto.h`.
- CcmEmptyMessage.ExactlyNonEmpty: for sessions with a message call, and without a digest call that never ends (`LateDigest`).
- EngineRuns: requests submitted are not already waiting for an answer, which only such a digest call would make them.
- Response statuses: the code does not look at them either.
- CryptoEngine.Crypto.Iterate: holds CCM requests by value; `CcmRequest` proves the code that updates them in place, for one memory in which input and output may be the same or overlap.
- EngineKeys.DhkeyUsesLastKey: a shared secret asked for before any key exists uses whatever the static holds.
- Base64: characters of the alphabet after complete padding, on which the decoder asserts, are excluded.
- `ad_data_contains_uuid128`: left out; its 16-bit branch compares an expansion that is not octet-reversed, unlike the 16-bit search.
- WheelTest: waits are counted in ticks of an unspecified length; a task that cannot be created, and motor registers that cannot be written, are not modelled.
- TwoCores: `input_process_task` is a machine of atomic steps, its endless loop no method. Which command the sticks ask for is arbitrary there; `Drive` computes it. Turret, radar, lights, volume and buttons of the loop are not modelled.
- Connections: scanning, sound and keep-alive timers, and the axes of the board.
- Drive: balance board smoothing, which needs `mult_frac`; `mult_frac` is not part of this model.
- Exhibit: log output, and the sounds other than the gun's beyond their count. A tick writes to each output at most once, so writes beside it fall between ticks.
- Radar, audio, neopixel, DFPlayer, console, storage: device plumbing.
