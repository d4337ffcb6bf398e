# Verification of the router data path, the ratcheting handshake and its bookkeeping

A Dafny 4.11 model of three parts of the repository, and proofs of what they promise. Verify with
`dafny verify dfyconfig.toml`.

**Router data path** (`src/wireguard/router`). `InOrderQueue` is the queue whose jobs are worked on
in parallel and finished in push order under one atomic contender counter: a state machine over the
atomic steps of any number of threads, and a class with the loops of `consume`. `KeyWheel` and
`RouterPeer` are the three-slot key wheel, the nonce counter and the staged packets, `LockOrder` the
two locks between them, `KeyTable` the account of the receiver ids over whole runs. `SendPath` and
`ReceivePath` put queue, wheel, AEAD and transport headers together, and `EndToEnd` one behind the
other: what is sealed under which nonce, and what opens. `AntiReplay` is the 2048-bit ring of RFC
6479 (section 2), proved to be a set of accepted numbers.

**v2.3 handshake** (`src/wireguard_hybrid_new/handshake`). `Crypto` holds the primitives as
uninterpreted functions with their laws: Diffie-Hellman commutes, decapsulation undoes
encapsulation, opening undoes sealing, the stream cipher undoes itself. `Codec` and `RiProofs` are
the message blocks and the RI proof, `Ratchets` the committed and pending epochs, `Noise` what each
side computes. `Handshake` proves one honest exchange from any synchronised pair; `HandshakeRun`
proves what holds in every run over a network that loses, duplicates and reorders; `HandshakePeer`
is the peer object with the bodies of `noise.rs`, proved to take exactly the steps of that machine.
`Acceptance` says exactly which messages are accepted, from whom ever they come. `Binding` says what
roots and keys depend on: it lists the input of every hash call of an exchange, and two exchanges
with the same outcome had the same inputs unless two calls at the same place collide.

**Bookkeeping and throttling.** `HalfOpen` is the per-address accounting with its timing argument,
`Bans` the verdicts and bans of a run told from a journal of the address's own events, `Sessions`
the three session tables, `RateLimiter` the token bucket, `Cookies` the cookie windows.

Where the model meets a surprise in the code, it follows the code: `RateLimiter.WholeSecondsAreLost`
(the refill credits only the part of the elapsed time below one second), `HalfOpen.BurstOfFifteen`
(fifteen answers within a nanosecond, from a bucket with a capacity of ten),
`Sessions.RemovalLeavesHalfOpen` (removing a peer leaves its half-open entries behind),
`KeyWheel.ReusedIdLosesKey` (a receiver id that comes twice), `KeyTable.ConfirmedKeyIsLost` (a
`previous` key that a confirmation put there is never taken off the receiver table when the next one
takes its place), `Bans.BanIsForgotten` (the ban of a silent address is purged in the call that sets
it), `LockOrder.TwoThreadsCanDeadlock` (`send` and `send_staged` take two locks in opposite orders),
and `InOrderQueue.ExclusionNeedsTheBound` (exclusion ends when the contender counter wraps). Beside
the failing input stands when the code does meet the property: `RefillIsExact`, `AnswersAreBounded`,
`HalfOpenIsAllocated`, `WheelAndTableAgree`, `NothingIsLostExactly`, `VerdictsOverRuns`,
`DeadlockFreeExactly`, and `RunPanics` with `MutualExclusion`.

How the parts are modelled:

- A state machine has an `Action` or `Event` datatype, `Enabled`, `Apply` and `IsRun`; the main
  results are about the outcome of every run from the initial state. The invariant is a conjunction
  of narrow predicates, kept by one lemma for each step.
- A class has a view, a value of the datatype that the machine or the reference functions are
  about; each method's `ensures` gives the new view as a function of the old one.
- Machine integers are bounded types. `/` and `%` on non-negative numbers stand for shifts and masks.

## Model

| member | source | states |
|---|---|---|
| InOrderQueue.MutualExclusion | src/wireguard/router/queue.rs:44-91 | For any number of threads and every interleaving of atomic steps with fewer than 2^64 calls, or at least none that finds the counter at its maximum, at most one thread is between winning the contender counter and leaving `consume` |
| InOrderQueue.FinishedInPushOrder | src/wireguard/router/queue.rs:62-83 | In every such interleaving the finished jobs are a prefix of the pushed ones, nothing is started twice or lost, and sequential work only sees jobs that were marked ready |
| InOrderQueue.NoLostWakeup | src/wireguard/router/queue.rs:44-91 | In every such interleaving: with no owner active and no worker between marking the front job and its `fetch_add`, the front job is not ready |
| InOrderQueue.QuietMeansDone | src/wireguard/router/worker.rs:25-32 | Once every pushed job went to a worker and every `consume` has returned, the queue is empty and everything pushed is finished |
| InOrderQueue.StepDecreases | src/wireguard/router/queue.rs:44-91 | Every step other than a push lowers a measure, so the two nested loops of `consume` end for every schedule |
| InOrderQueue.PushFreeRunsAreBounded | src/wireguard/router/queue.rs:44-91 | A schedule without further pushes is no longer than the measure of the state it starts in |
| InOrderQueue.NeverStuck | src/wireguard/router/queue.rs:44-91 | Unless everything is done, some thread can always take a step: no deadlock of the queue itself; the locks that `sequential_work` takes are the business of `LockOrder` |
| InOrderQueue.EveryMaximalRunDrains | src/wireguard/router/queue.rs:44-91 | Any schedule that cannot go on ends with an empty queue and every pushed job finished, in order |
| InOrderQueue.OverflowBreaksExclusion | src/wireguard/router/queue.rs:44-52 | At the maximum of the counter one more caller wraps it and panics, and the next one becomes a second owner |
| InOrderQueue.FewCallsDoNotOverflow | src/wireguard/router/queue.rs:44-91 | With fewer than 2^64 calls in all no call finds the counter at its maximum, since owners only take off what they have counted |
| InOrderQueue.StepPanics | src/wireguard/router/queue.rs:46-50 | The assertion on the counter fails at exactly that step |
| InOrderQueue.RunPanics | src/wireguard/router/queue.rs:46-50 | A run ends without a panicked worker if and only if no call of it found the counter at its maximum |
| InOrderQueue.ExclusionNeedsTheBound | src/wireguard/router/queue.rs:44-91 | Without a bound on the calls exclusion is false: from the start, some run of three workers ends with two owners, because an owner that finds the front ready every time can be joined without limit |
| InOrderQueue.Queue.Push | src/wireguard/router/queue.rs:40-42 | The job joins the end of the deque, and the state stays one that the thread machine reaches |
| InOrderQueue.Queue.Drain | src/wireguard/router/queue.rs:62-78 | The inner loop pops exactly the ready jobs at the front, finishing them in order, and stops at one that is not ready |
| InOrderQueue.Queue.Consume | src/wireguard/router/queue.rs:44-91 | A call without interference is a run of the thread machine of that thread: it finishes the longest ready prefix of the queue in order, leaves the counter at zero, and stops at a job that is not ready |
| KeyWheel.NoncesAreUnique | src/wireguard/router/peer.rs:252-345 | Over every run, whatever receiver ids come, each key pair is installed for encryption at most once, no (key pair, nonce) is used twice, nonces of a pair rise, and all stay below REJECT_AFTER_MESSAGES - 1 |
| KeyWheel.WheelAndTableAgree | src/wireguard/router/peer.rs:383-478 | In every run an installed encryption key is `current`; and `next` and `current` are mapped under their own ids to their own decryption states throughout if and only if no new key pair comes with the id of the slot that `add_keypair` leaves in place |
| KeyWheel.TableStep | src/wireguard/router/peer.rs:383-478 | One call keeps that mapping if and only if a new id is not that of the slot that stays |
| KeyWheel.FreshIsApart | src/wireguard/router/peer.rs:461-476 | The debug assertion on new ids is sufficient for it |
| KeyWheel.ReusedIdLosesKey | src/wireguard/router/peer.rs:461-476 | Without it the mapping fails: with one id used twice the current key is no longer the one its id leads to |
| KeyWheel.AtMostThreeReleased | src/wireguard/router/peer.rs:436-497 | Whatever receiver ids come, `add_keypair` hands back at most three ids however often keys were zeroed; a non-empty `retired` means an empty wheel |
| KeyTable.ZeroUnmaps | src/wireguard/router/peer.rs:383-412 | In every run: after `zero_keys` no key pair that was on the wheel decrypts or encrypts, none of their ids is in the receiver table, and each is in `retired` |
| KeyTable.AddUnmaps | src/wireguard/router/peer.rs:436-497 | In every run: after `add_keypair` the key pair that it displaced is unmapped and its id has been handed back |
| KeyTable.StaysUnmapped | src/wireguard/router/peer.rs:252-497 | A key pair that does not decrypt never does again, whatever follows |
| KeyTable.ZeroedKeyIsGone | src/wireguard/router/peer.rs:383-412 | So a key pair zeroed in any run is gone for good |
| KeyTable.MappedUntilReturned | src/wireguard/router/peer.rs:383-497 | In every run with different receiver ids an id is mapped, and to its own key pair, if and only if it came and has neither been handed back nor been retired |
| KeyTable.NothingIsLostExactly | src/wireguard/router/peer.rs:316-497 | With different ids every id that left the wheel is retired or has been handed back, and every key pair that decrypts is on the wheel, if and only if no `add_keypair` or confirmation wrote over a `previous` that a confirmation had put there |
| KeyTable.ConfirmedKeyIsLost | src/wireguard/router/peer.rs:316-345 | That happens: after two confirmed responder keys and a third the first is on no slot, has not been handed back, and still decrypts even after `zero_keys` |
| KeyTable.AddTurnsTheWheel | src/wireguard/router/peer.rs:436-497 | In every run the new pair is mapped and goes to `current` with its first nonce for an initiator, to `next` for a responder, and the one it displaces to `previous` |
| KeyTable.ConfirmTurnsTheWheel | src/wireguard/router/peer.rs:316-345 | In every run confirming the pair in `next` makes it current with its first nonce and the current one previous; confirming any other changes nothing |
| KeyTable.NoncesAreConsecutive | src/wireguard/router/peer.rs:252-283 | In every run the nonces of a pair are 0, 1, 2, … without a gap |
| KeyTable.SendTakesExactly | src/wireguard/router/peer.rs:252-283 | In every run a send takes the next nonce if and only if there is a key with nonces left and room in the queue; a key without nonces is dropped |
| RouterPeer.PacketsKeepTheirOrder | src/wireguard/router/peer.rs:252-314 | Over every run the packets pushed outbound followed by those staged are an order-preserving subsequence of those submitted, at most MAX_QUEUED_PACKETS are staged, and none while an encryption key is installed |
| RouterPeer.JobsNeverShareANonce | src/wireguard/router/peer.rs:255-283 | Two outbound jobs of one key pair carry rising counters below the reject limit, in push order |
| RouterPeer.SendPacketExactly | src/wireguard/router/peer.rs:252-296 | A packet is pushed under the next nonce of the current key, or, without a usable key, staged with a key request, the oldest of 1024 giving way; with a key and a full queue it is dropped |
| RouterPeer.LatestAreStaged | src/wireguard/router/peer.rs:252-296 | However many packets come without a key, the latest 1024 are staged in order and each has asked for a key |
| RouterPeer.StagedAreSent | src/wireguard/router/peer.rs:301-314 | With room and nonces all staged packets are pushed oldest first under consecutive nonces, and none stays |
| RouterPeer.ConfirmationSendsTheStaged | src/wireguard/router/peer.rs:316-345 | Confirming the next key pushes every staged packet under it from nonce 0 on |
| RouterPeer.InitiatorConfirms | src/wireguard/router/peer.rs:436-497 | An initiator's `add_keypair` pushes at least one job under the new key at nonce 0, the oldest staged packet or else a keepalive, whenever the queue has room |
| RouterPeer.Peer.Send | src/wireguard/router/peer.rs:252-296 | The in-place code has the effect of the state function that the order and nonce results are about: seal and push, stage and perhaps drop the oldest, or do nothing |
| RouterPeer.Peer.SendStaged | src/wireguard/router/peer.rs:301-314 | The draining loop takes the staged packets oldest first and sends each once, without staging it again; it answers whether there were any |
| RouterPeer.Peer.ConfirmKeypair | src/wireguard/router/peer.rs:316-345 | Confirming rotates the wheel only for the key in `next`, installs it, and drains the staged packets |
| RouterPeer.Peer.ZeroAllKeys | src/wireguard/router/peer.rs:383-412 | All slots, the encryption key and their table entries go; their ids join `retired` |
| RouterPeer.Peer.AddNewKeypair | src/wireguard/router/peer.rs:436-497 | The wheel turns by role, the displaced ids are returned and unmapped, and staged packets follow when the initiator installs a key |
| RouterPeer.Peer.PurgeStagedPackets | src/wireguard/router/peer.rs:548-551 | Nothing stays staged, and nothing else changes |
| LockOrder.DeadlockIsCrossing | src/wireguard/router/peer.rs:252-314 | Of the two locks, any number of threads are deadlocked if and only if one is in `send` holding the key's lock to stage a packet and another in `send_staged` waiting for that lock |
| LockOrder.DeadlockFreeExactly | src/wireguard/router/peer.rs:252-314 | A run stays free of deadlock if and only if no send has to stage while `send_staged` is at work on a packet, in either order of the two |
| LockOrder.StepDeadlocks | src/wireguard/router/peer.rs:252-314 | A step leads into a deadlock if and only if it is one of those two |
| LockOrder.DeadlockStays | src/wireguard/router/peer.rs:252-314 | A deadlock of the two is for good |
| LockOrder.TwoThreadsCanDeadlock | src/wireguard/router/peer.rs:252-314 | It can happen: a run of two threads from the start in which the key goes away between its installation and the draining |
| SendPath.WireIsSealedPrefix | src/wireguard/router/send.rs:59-135 | Whatever order workers encrypt in and whatever receiver ids come, the wire carries the sealed packets of a prefix of the pushed jobs, in push order |
| SendPath.OutboundJob.ParallelWork | src/wireguard/router/send.rs:59-109 | The in-place code leaves the transport message of the job: header fields, sealed body, tag, and only then the ready flag |
| SendPath.OutboundJob.SetHeader | src/wireguard/router/send.rs:74-86 | The three field writes give the header that the wire results read back, and touch nothing behind it |
| SendPath.OutboundJob.SealBody | src/wireguard/router/send.rs:94-106 | The body is replaced by its ciphertext and the reserved room by the tag |
| SendPath.CountersRiseOnTheWire | src/wireguard/router/send.rs:59-135 | For each key pair the counters in the transport headers on the wire rise strictly, in every interleaving of senders, workers and key changes |
| SendPath.WireOpensToSubmitted | src/wireguard/router/send.rs:59-135 | For every AEAD that opens what it seals, each packet on the wire opens under the sender's key and the counter in its own header to exactly the body that some `send` submitted, and is one logged use of the AEAD |
| SendPath.NoNonceIsSealedTwice | src/wireguard/router/send.rs:88-106 | In every run the seal function is never called twice with the same key and nonce, if different key pairs have different keys |
| EndToEnd.WireMayPass | src/wireguard/router/send.rs:59-109 | Each packet on the wire passes authentication at a receiver with the sender's key, under its own header counter, and yields exactly the submitted body |
| EndToEnd.SubmittedIsDelivered | src/wireguard/router/receive.rs:66-184 | Sender and receiver together: a packet that is new at the receiver and inside its window delivers the submitted body, up to the length in its IP header, to the TUN device |
| ReceivePath.SameAsOneByOne | src/wireguard/router/receive.rs:66-184 | In every interleaving of parallel decryption and in-order completion with fewer than 2^64 calls of `consume`, or none that wraps its counter, the effects are those of handling the packets one by one in arrival order |
| ReceivePath.PassedOnce | src/wireguard/router/receive.rs:134-184 | No counter of a decryption state is passed on twice |
| ReceivePath.PassesOnExactly | src/wireguard/router/receive.rs:66-184 | A packet passes on if and only if its parallel work succeeded, its counter was not passed on before, and it is not more than the window behind a passed one; otherwise nothing changes |
| ReceivePath.PassesIsMayPass | src/wireguard/router/receive.rs:81-116 | Parallel work succeeds if and only if the AEAD opens the body under the state of the receiver id and the counter of the header, the counter is below the limit, and the plaintext is a keepalive or routed; it leaves header, plaintext and tag |
| ReceivePath.OnlyGenuinePassInAnyRun | src/wireguard/router/receive.rs:66-184 | In every interleaving every counter passed on and every byte given to the TUN device comes from a finished packet that the AEAD opened that way, and those bytes are a prefix of its plaintext |
| ReceivePath.RefusedLeavesNoTrace | src/wireguard/router/receive.rs:81-124 | A packet that does not open, or fails the limit or the route check, leaves window, confirmation, endpoint and deliveries as they were |
| ReceivePath.DeliveredExactly | src/wireguard/router/receive.rs:134-184 | All that a packet does that may pass and is new in its window: counter, confirmation, endpoint, the inner-length prefix of the plaintext and the callback, in this order |
| ReceivePath.ConfirmedOnce | src/wireguard/router/receive.rs:134-184 | A key is confirmed once, by the first packet that passes on, and never if it started out confirmed |
| ReceivePath.InboundJob.ParallelWork | src/wireguard/router/receive.rs:66-124 | The in-place code leaves the opened packet, or nothing if the header, the tag, the counter limit or the route check fails, and then sets the ready flag |
| ReceivePath.InboundJob.Authenticate | src/wireguard/router/receive.rs:81-116 | The closure says yes exactly for packets that pass every check |
| ReceivePath.InboundJob.SequentialWork | src/wireguard/router/receive.rs:134-184 | Replay window, confirmation flag, endpoint, deliveries and callback end up as one step of the reference sink |
| ReceivePath.DecryptedHeader | src/wireguard/router/receive.rs:66-124 | A failed job is emptied and so falls out at header parsing; a successful one keeps its counter |
| AntiReplay.AcceptedExactly | src/wireguard/router/anti_replay.rs:50-111 | In every sequence of `update` calls a number is accepted if and only if it was not accepted before and no accepted number is more than WINDOW_SIZE ahead of it |
| AntiReplay.AcceptedOnce | src/wireguard/router/anti_replay.rs:50-111 | No number is accepted twice |
| AntiReplay.AfterRun | src/wireguard/router/anti_replay.rs:50-111 | The reference window holds exactly the accepted numbers and the largest of them |
| AntiReplay.AntiReplay.Check | src/wireguard/router/anti_replay.rs:50-63 | The ring bitmap answers as the set of accepted numbers does, for every u64 |
| AntiReplay.AntiReplay.UpdateStore | src/wireguard/router/anti_replay.rs:67-100 | Clearing the words in between and setting the bit keeps the ring a faithful picture of the accepted numbers in the window |
| AntiReplay.AntiReplay.Update | src/wireguard/router/anti_replay.rs:103-111 | One call is one step of the reference window, and the answer is whether the number was fresh |
| Ratchets.SynchronisedIsAnswered | src/wireguard_hybrid_new/handshake/peer.rs:230-316 | An initiation whose slot the responder holds is never refused for mode, epoch or kid, and is answered with its own roots and the matching ratchet secret |
| Ratchets.StageKeepsSynchronised | src/wireguard_hybrid_new/handshake/peer.rs:333-365 | Staging the next epoch after an accepted initiation keeps every initiation of that epoch acceptable |
| Ratchets.AnsweredExactly | src/wireguard_hybrid_new/handshake/peer.rs:230-316 | For every mode, epoch and kid: which slot answers, or which error, in terms of the slot that has the epoch |
| Ratchets.InitiatedExactly | src/wireguard_hybrid_new/handshake/peer.rs:204-228 | An initiator ratchets if and only if it has the other side's kid and key; else it bootstraps at epoch zero and resyncs later, under a zero kid |
| Ratchets.RatchetState.Reset | src/wireguard_hybrid_new/handshake/peer.rs:184-202 | Back to epoch zero under new roots, without keys or pending epoch |
| Ratchets.RatchetState.CommitInitiator | src/wireguard_hybrid_new/handshake/peer.rs:318-331 | The committed epoch moves, the responder half stays |
| Ratchets.RatchetState.StageResponder | src/wireguard_hybrid_new/handshake/peer.rs:333-365 | An initiation at the pending epoch commits that epoch; in every case the new epoch becomes the pending one |
| Crypto.RootsAgree | src/wireguard_hybrid_new/handshake/peer.rs:158-182 | Both ends derive the same first roots, whichever orders the two key hashes |
| Crypto.PeersMirror | src/wireguard_hybrid_new/handshake/peer.rs:375-434 | What one end stores as sent is what the other stores as received: shared secret, static hashes and identities |
| Crypto.LawsAreConsistent | src/wireguard_hybrid_new/handshake/crypto_params.rs:78-230 | The laws assumed of the primitives can hold together |
| Noise.FirstPartAgrees | src/wireguard_hybrid_new/handshake/noise.rs:538-618 | The responder recomputes the chain of any initiation made for it, and refuses it only where its ratchet does |
| Noise.SecondPartAgrees | src/wireguard_hybrid_new/handshake/noise.rs:620-665 | It then reads the initiator's counter under the same chain; with the same RI key it accepts if and only if the clocks are within the skew |
| Noise.AcceptAgrees | src/wireguard_hybrid_new/handshake/noise.rs:668-718 | With the same roots and the matching ratchet key both sides hold the same chain, hash and ratchet secret |
| Noise.ResponseSecretsAgree | src/wireguard_hybrid_new/handshake/noise.rs:720-800 | Decapsulation and Diffie-Hellman on the initiator's side give the responder's secrets |
| Noise.ConfirmAgrees | src/wireguard_hybrid_new/handshake/noise.rs:802-1035 | The confirm block opens and carries the staged epoch, kid and public key; it is accepted if and only if the clocks are within the skew |
| Noise.ResponseAgrees | src/wireguard_hybrid_new/handshake/noise.rs:720-1083 | Whatever an initiator completes from an honest response has mirrored keys and the responder's pending roots |
| Noise.MadeRiVerifies | src/wireguard_hybrid_new/handshake/noise.rs:145-210 | An RI proof of the handshake verifies exactly within 120 s of its timestamp |
| Noise.RiIsBound | src/wireguard_hybrid_new/handshake/noise.rs:121-210 | An RI proof is accepted if and only if its clock is within 120 s and it is the XOR of the key, its sum and the number that leads by its offset to the target hashed from key, chain and handshake hash |
| Binding.ResponderBinds | src/wireguard_hybrid_new/handshake/noise.rs:355-866 | Two exchanges that leave a responder the same staged roots had the same two messages, pre-shared key and old roots, the same Diffie-Hellman and KEM secrets, kid and epoch, unless two hash calls made at the same place collide; stated over the states of `Respond`, for any message and any suite |
| Binding.InitiatorBinds | src/wireguard_hybrid_new/handshake/noise.rs:355-1083 | The same for the roots that an initiator commits |
| Binding.ResponderKeysBind | src/wireguard_hybrid_new/handshake/noise.rs:720-866 | A responder never sends under a key it, or another exchange, receives under; two exchanges share a transport key only with the same initiation, session ids, ephemerals, secrets and old roots |
| Binding.InitiatorKeysBind | src/wireguard_hybrid_new/handshake/noise.rs:868-1083 | The same for the initiator's transport keys |
| Binding.CollisionsAreAvoidable | src/wireguard_hybrid_new/handshake/crypto_params.rs:78-230 | The hypotheses of these results can be met: by a suite that meets all laws and two answered exchanges that differ in one secret and leave different roots |
| Binding.ResponderFollows | src/wireguard_hybrid_new/handshake/noise.rs:720-866 | What an answered initiation stages and sends, for any message: roots, kid, confirm block, tag and keys from the independent schedule of the exchange, under the slot that the message names |
| Binding.IdentityBinds | src/wireguard_hybrid_new/handshake/peer.rs:375-434 | Equal identity hashes have the same static keys on both sides in the same order, if the KEM keys have one size |
| Binding.RootBinds | src/wireguard_hybrid_new/handshake/peer.rs:158-182 | Equal first roots have the same pre-shared key and the same two identities |
| Binding.KidBinds | src/wireguard_hybrid_new/handshake/noise.rs:320-330 | Equal key ids have the same recovery root, epoch and ratchet key |
| Acceptance.AnsweredIffGenuine | src/wireguard_hybrid_new/handshake/noise.rs:538-718 | Any initiation, from whom ever, is answered if and only if it names a slot of the ratchet, its identity block and counter open under the chain that it makes with the responder's keys, the block names the configured peer with an RI proof that holds, the tag is right, the counter is new and 20 ms have gone by, and no shared secret is zero |
| Acceptance.RefusedLeavesTheRatchet | src/wireguard_hybrid_new/handshake/noise.rs:538-718 | Any other initiation leaves the responder as it was, except that one which passes every check before the ratchet secret uses up its counter |
| Acceptance.AnsweredMovesOn | src/wireguard_hybrid_new/handshake/peer.rs:333-365 | An answered one commits the slot it was accepted under, with its own key, moves the counter, and stages the next epoch; the initiator half stays |
| Acceptance.CompletedIffGenuine | src/wireguard_hybrid_new/handshake/noise.rs:868-1083 | Any response completes a handshake if and only if it answers the id, mode and epoch sent, its ciphertext hash is right, its confirm block opens to the next epoch with an RI proof that holds, the tag is right, and no shared secret is zero; then epoch, kid and key are those in the block |
| Acceptance.TransportIds | src/wireguard_hybrid_new/handshake/noise.rs:845-866 | Each side sends to the id that the other chose and receives under its own: the first four bytes of the session ids, least significant first |
| Handshake.HonestRead | src/wireguard_hybrid_new/handshake/noise.rs:538-665 | What the responder reads of an initiation made for it, and exactly when it reads it |
| Handshake.HonestReply | src/wireguard_hybrid_new/handshake/noise.rs:668-866 | A responder that holds the sender's slot accepts under the sender's chain and replies unless a shared secret is zero |
| Handshake.HonestRespond | src/wireguard_hybrid_new/handshake/device.rs:1040-1112 | Everything an initiation can lead to on the responder: refusal with at most the counter moved, or an answer with the accepted slot committed and the next epoch staged |
| Handshake.HonestIsAnswered | src/wireguard_hybrid_new/handshake/device.rs:1040-1112 | A synchronised, timely initiation is answered if and only if the clocks are within the skew and no shared secret is zero |
| Handshake.HonestComplete | src/wireguard_hybrid_new/handshake/noise.rs:868-1083 | A response to the open initiation either changes nothing or gives mirrored keys and puts the initiator in step with the pending epoch |
| Handshake.HonestExchange | src/wireguard_hybrid_new/handshake/noise.rs:387-1083 | From any synchronised pair, in bootstrap, ratchet or resync mode at any epoch, an honest exchange within the skew passes every check, gives mirrored keys and ids, and leaves the initiator's epoch, roots, kid and public key equal to the responder's pending slot |
| HandshakeRun.NeverDesynchronised | src/wireguard_hybrid_new/handshake/peer.rs:204-365 | In every run under loss, duplication and reordering the initiator's epoch, roots, kid and key are the responder's committed or pending ones, at most one epoch apart, and neither its next initiation nor any still acceptable one is refused for mode, epoch or kid |
| HandshakeRun.AcceptedKeysMirror | src/wireguard_hybrid_new/handshake/device.rs:933-1158 | In every run all keys the initiator accepts mirror those the responder made for the same initiation, and no initiation yields keys twice |
| HandshakeRun.NextExchangeSucceeds | src/wireguard_hybrid_new/handshake/device.rs:933-1158 | After every run the next honest exchange succeeds: nothing that the network does wedges the pair |
| HandshakeRun.StepInv | src/wireguard_hybrid_new/handshake/peer.rs:318-494 | Every `begin`, every delivery of an old or new message and every loss of the ratchet key keeps the two sides in step |
| HandshakePeer.Peer.CreateInitiation | src/wireguard_hybrid_new/handshake/noise.rs:387-536 | The code with its running `ck` and `hs` makes the message and the remembered state that the protocol results are about; on an error nothing changes |
| HandshakePeer.Peer.CheckReplayFlood | src/wireguard_hybrid_new/handshake/peer.rs:462-494 | Only a counter above every accepted one passes, not sooner than 20 ms after the last; only then do state, counter and time change and the own initiation's id go back |
| HandshakePeer.Peer.ConsumeInitiationFirstPart | src/wireguard_hybrid_new/handshake/noise.rs:538-618 | Identification without any change of state, with the errors in the order of the code |
| HandshakePeer.Peer.ConsumeInitiationSecondPart | src/wireguard_hybrid_new/handshake/noise.rs:620-718 | Authentication comes before the replay check, the replay check before the ratchet; a refusal before it changes nothing |
| HandshakePeer.Peer.CreateResponse | src/wireguard_hybrid_new/handshake/noise.rs:720-866 | The response goes out together with the staging of exactly the epoch it announces, or nothing changes |
| HandshakePeer.Peer.ConsumeResponse | src/wireguard_hybrid_new/handshake/noise.rs:868-1083 | A response that passes every check closes the initiation and commits its epoch; any other changes nothing |
| HandshakePeer.Peer.Begin | src/wireguard_hybrid_new/handshake/device.rs:933-957 | One call is the `begin` step of the two-party machine |
| HandshakePeer.Peer.ProcessInitiation | src/wireguard_hybrid_new/handshake/device.rs:1040-1112 | One call is the responder's step of the two-party machine |
| HandshakePeer.Peer.ProcessResponse | src/wireguard_hybrid_new/handshake/device.rs:1114-1147 | One call is the initiator's completing step of the two-party machine |
| RiProofs.GenerateRiProof | src/wireguard_hybrid_new/handshake/noise.rs:145-175 | For every stream of draws: a proof exactly if the stream yields 99 fresh numbers; `a` is the XOR of the first 99, which are distinct, in 1..10000 and not sigma; the proof verifies at every time within the skew |
| RiProofs.Sample | src/wireguard_hybrid_new/handshake/noise.rs:154-165 | The loop over the marked array XORs the first 99 fresh numbers of the stream |
| RiProofs.ProofVerifies | src/wireguard_hybrid_new/handshake/noise.rs:145-210 | For every key, target, delta and sum a made proof verifies if and only if the times are at most 120 s apart |
| RiProofs.OneDeltaIsAccepted | src/wireguard_hybrid_new/handshake/noise.rs:177-210 | For fixed `f` and `a` exactly one delta in 0..9999 recovers the target, and the verifier accepts it if and only if it is not zero |
| RiProofs.VerifiedIsMade | src/wireguard_hybrid_new/handshake/noise.rs:145-210 | Within the skew the verifier accepts exactly the proofs that can be made for its key and target |
| Codec.IdentityRoundTrip | src/wireguard_hybrid_new/handshake/noise.rs:246-275 | Unpacking a packed identity block returns every field |
| Codec.IdentityBytesRoundTrip | src/wireguard_hybrid_new/handshake/noise.rs:246-275 | Packing an unpacked identity block returns the same bytes if and only if the four unread bytes are zero |
| Codec.ConfirmRoundTrip | src/wireguard_hybrid_new/handshake/noise.rs:277-318 | Unpacking a packed confirm block returns every field |
| Codec.ConfirmBytesRoundTrip | src/wireguard_hybrid_new/handshake/noise.rs:277-318 | Packing an unpacked confirm block returns the same bytes if and only if the four unread bytes are zero |
| Codec.IdentityLayout | src/wireguard_hybrid_new/handshake/noise.rs:224-254 | Which bytes of the identity block hold what, with the version word and four zeros at the end |
| Codec.ConfirmLayout | src/wireguard_hybrid_new/handshake/noise.rs:277-295 | Which bytes of the confirm block hold what |
| Codec.LeDigits | src/wireguard_hybrid_new/handshake/noise.rs:212-232 | The little-endian bytes are the base-256 digits, lowest first |
| Codec.BeDigits | src/wireguard_hybrid_new/handshake/macs.rs:49-76 | The big-endian bytes are the base-256 digits, highest first |
| Codec.PackIdentityPlain | src/wireguard_hybrid_new/handshake/noise.rs:246-254 | The buffer-filling code writes the block that the round trips are about |
| Codec.PackConfirmPlain | src/wireguard_hybrid_new/handshake/noise.rs:277-295 | The buffer-filling code with its running offset writes the block that the round trips are about |
| Codec.HeaderRoundTrip | src/wireguard/router/messages.rs:1-13 | Receiver and counter are read back from a transport header whatever follows it |
| Codec.HeaderLayout | src/wireguard/router/messages.rs:1-13 | Type 4, receiver and counter in this order, all little-endian |
| HalfOpen.CountsMatchTheTable | src/wireguard_hybrid_new/handshake/device.rs:337-563 | In every run each address's count is its number of live table entries, at most 64; the purge of a precheck drops no live count and no release finds a count of zero |
| HalfOpen.RegisterCounts | src/wireguard_hybrid_new/handshake/device.rs:498-507 | Registering keeps the counts right if and only if the id had no entry |
| HalfOpen.ReleaseCounts | src/wireguard_hybrid_new/handshake/device.rs:509-517 | Releasing keeps the counts right and the subtraction never saturates |
| HalfOpen.ReapCounts | src/wireguard_hybrid_new/handshake/device.rs:519-563 | Reaping lowers every count by the entries of that address that it removes, in whatever order they come |
| HalfOpen.PrecheckCounts | src/wireguard_hybrid_new/handshake/device.rs:337-353 | The precheck keeps the counts right if and only if its 300 s purge drops no live count |
| HalfOpen.NothingIsForgotten | src/wireguard_hybrid_new/handshake/device.rs:348-351 | It drops none: 30 s timeout, 15 s reap interval and two calls of at most 127 s stay below 300 s |
| HalfOpen.Verdicts | src/wireguard_hybrid_new/handshake/device.rs:353-421 | Exactly when a message is dropped, challenged or allowed: a ban, an empty bucket or a full quota drops, the quota even with a cookie; a cookie is never challenged |
| Bans.VerdictsOverRuns | src/wireguard_hybrid_new/handshake/device.rs:337-422 | In every run, told from the address's own events: a message is dropped if and only if a ban of the last 60 s stands, or it has no cookie and no token, or 64, 16 or 4 of its entries are live by load; else challenged if and only if it has no cookie and the address failed twice in a row, or has under three successes in ten of at least three samples in the last minute, or loses the draw |
| Bans.BannedIsDropped | src/wireguard_hybrid_new/handshake/device.rs:353-360 | A ban drops every message of its 60 s, cookie or not, whatever else happens, unless the precheck forgot the address after 300 s of silence |
| Bans.HonestIsNeverBanned | src/wireguard_hybrid_new/handshake/device.rs:543-562 | An address none of whose entries ever expired in the run is dropped only for tokens and quota |
| Bans.ExpiryIsNoted | src/wireguard_hybrid_new/handshake/device.rs:519-541 | A reap, at least 15 s after the last, takes off exactly the entries of 30, 15 or 5 s by load, and counts one expiry for each against its address |
| Bans.TableStepExactly | src/wireguard_hybrid_new/handshake/device.rs:498-541 | In every step the half-open table gains exactly the id of an accepted initiation, for the allowed address, and loses exactly what is released or overdue at a reap |
| Bans.RunTracks | src/wireguard_hybrid_new/handshake/device.rs:337-563 | In every run a state's deques, failures in a row and ban are those of the journal of its address: a reap bans it, for 60 s, exactly if of its ends in the last 60 s there are at least three and four in five are expiries |
| Bans.BanIsForgotten | src/wireguard_hybrid_new/handshake/device.rs:348-353 | A ban can be lost at once: in some run a silent address is banned by the reap of a call whose precheck then forgets it and allows its message |
| HalfOpen.StepInv | src/wireguard_hybrid_new/handshake/device.rs:337-563 | Every step of a `process` call keeps counts, quota and the timing bounds |
| HalfOpen.AnswersAreBounded | src/wireguard_hybrid_new/handshake/device.rs:100-108 | In every window of every run an address without a valid cookie gets at most fifteen answers and five for every second, whatever is purged |
| HalfOpen.BurstOfFifteen | src/wireguard_hybrid_new/handshake/device.rs:100-108 | That bound is met: in some run of a new device fifteen messages of one address are answered within a nanosecond, ten just before a second is full and five when it is |
| HalfOpen.ServedFromTokens | src/wireguard_hybrid_new/handshake/device.rs:355-366 | In every state with nothing half-open, messages of a known address without a cookie are all answered as long as tokens are on hand, each taking one |
| HalfOpen.WaitingEarnsExactly | src/wireguard_hybrid_new/handshake/device.rs:100-108 | Waiting earns five tokens for each whole second, up to ten: exactly so many messages without a cookie are answered then, and the next is dropped |
| HalfOpen.RecentIsExact | src/wireguard_hybrid_new/handshake/device.rs:110-138 | With growing times, popping the old front leaves exactly the times inside the window |
| HalfOpen.GradientDosChecker.Precheck | src/wireguard_hybrid_new/handshake/device.rs:337-422 | The in-place code reaches the verdict and state of the judged address that the run results are about |
| HalfOpen.GradientDosChecker.Purge | src/wireguard_hybrid_new/handshake/device.rs:348-348 | The `retain` keeps exactly the states active within 300 s |
| HalfOpen.GradientDosChecker.RegisterHalfOpen | src/wireguard_hybrid_new/handshake/device.rs:498-507 | Table and count move together |
| HalfOpen.GradientDosChecker.ReleaseHalfOpen | src/wireguard_hybrid_new/handshake/device.rs:509-517 | Table and count move together, and an unknown id changes nothing |
| HalfOpen.GradientDosChecker.TakeExpired | src/wireguard_hybrid_new/handshake/device.rs:532-541 | The `retain` takes out exactly the expired entries, each once |
| HalfOpen.GradientDosChecker.ReapExpiredHalfOpen | src/wireguard_hybrid_new/handshake/device.rs:519-563 | At most every 15 s exactly the expired ids are returned and removed, each lowering its address's count once |
| HalfOpen.GradientDosChecker.RecordSuccess | src/wireguard_hybrid_new/handshake/device.rs:424-434 | A success clears the failures in a row and is recorded, for a known address only |
| HalfOpen.GradientDosChecker.RecordFailure | src/wireguard_hybrid_new/handshake/device.rs:436-443 | A failure is recorded and counted, for an unknown address too |
| HalfOpen.RecordsKeepCounts | src/wireguard_hybrid_new/handshake/device.rs:424-443 | Neither record changes a count, the table, or the activity of a known address |
| HalfOpen.CleanWindows | src/wireguard_hybrid_new/handshake/device.rs:110-138 | The four popping loops leave exactly the reference windows |
| Sessions.OneBijection | src/wireguard_hybrid_new/handshake/device.rs:896-931 | Over every sequence of allocation, release, reaping, removal and clear the three tables are one bijection with id = session_index(sid), the same owner on both sides, and every owner configured |
| Sessions.SessionStays | src/wireguard_hybrid_new/handshake/device.rs:896-931 | A session leads to the peer it was allocated for until it is released, reaped, or its peer removed |
| Sessions.TablesTellTheHistory | src/wireguard_hybrid_new/handshake/device.rs:896-931 | In every run an id leads to the peer and session id it was last allocated for, and nowhere after that session was released, reaped or cleared or its peer removed; it is half-open exactly from its answer until its release or reaping |
| Sessions.HalfOpenIsAllocated | src/wireguard_hybrid_new/handshake/device.rs:977-982 | Throughout a run every half-open id is allocated, so that no newly drawn id has a half-open entry, if and only if peers are removed only without half-open sessions and all are cleared only when there are none |
| Sessions.RemoveKeepsHalf | src/wireguard_hybrid_new/handshake/device.rs:896-905 | Removing a peer keeps half-open ids allocated if and only if that peer owns none of them |
| Sessions.ClearKeepsHalf | src/wireguard_hybrid_new/handshake/device.rs:707-713 | Clearing does if and only if nothing is half-open |
| Sessions.RemovalLeavesHalfOpen | src/wireguard_hybrid_new/handshake/device.rs:896-905 | A concrete run with another removal leaves a half-open entry under an id that can be drawn again |
| Sessions.Device.AllocateSession | src/wireguard_hybrid_new/handshake/device.rs:1190-1209 | The loop takes the first vacant session id of the random stream and enters it in all three tables |
| Sessions.Device.Release | src/wireguard_hybrid_new/handshake/device.rs:924-931 | The id leaves all three tables and the half-open table |
| Sessions.Device.ReapHalfOpen | src/wireguard_hybrid_new/handshake/device.rs:977-982 | Exactly the expired half-open ids leave all tables |
| Sessions.Device.Remove | src/wireguard_hybrid_new/handshake/device.rs:896-905 | The three `retain`s remove exactly the sessions of the peer, or an unknown peer changes nothing |
| Sessions.Device.Add | src/wireguard_hybrid_new/handshake/device.rs:858-894 | A peer is added unless there are too many, no device key, or it is the device's own key |
| Sessions.Device.LookupSid | src/wireguard_hybrid_new/handshake/device.rs:1178-1188 | With consistent tables the `unreachable!()` arm is unreachable |
| Sessions.Device.LookupId | src/wireguard_hybrid_new/handshake/device.rs:1166-1176 | With consistent tables the `unreachable!()` arm is unreachable |
| RateLimiter.PassedIsPaid | src/wireguard_hybrid_new/handshake/ratelimiter.rs:48-93 | Over any sequence of calls and collections what passes of an address is paid for by its tokens at the start and the time that went by |
| RateLimiter.WindowBound | src/wireguard_hybrid_new/handshake/ratelimiter.rs:48-93 | In any window of any run: packets * PACKET_COST <= MAX_TOKENS + elapsed nanoseconds |
| RateLimiter.ForgettingGrantsNothing | src/wireguard_hybrid_new/handshake/ratelimiter.rs:91-93 | Forgetting an entry idle for over a second grants no more than waiting had |
| RateLimiter.IdleIsForgotten | src/wireguard_hybrid_new/handshake/ratelimiter.rs:91-97 | A collection forgets exactly the entries idle for over a second; who was forgotten passes and starts with four packets left, and others are answered as before |
| RateLimiter.SteadyIsNeverRefused | src/wireguard_hybrid_new/handshake/ratelimiter.rs:48-79 | A sender whose packets are 50 ms to under a second apart is never refused, whatever is collected in between |
| RateLimiter.BriskPacket | src/wireguard_hybrid_new/handshake/ratelimiter.rs:48-79 | Under a second after its last packet an address passes if and only if more than 50 ms of credit are there, and what is left, passed or refused, is exactly the credit less what was paid |
| RateLimiter.ExactAccount | src/wireguard_hybrid_new/handshake/ratelimiter.rs:48-79 | For a sender with gaps under a second, refusals included: tokens at the start plus the time gone by are exactly what passed, what is left, and what the cap cut off |
| RateLimiter.RefillIsExact | src/wireguard_hybrid_new/handshake/ratelimiter.rs:56-59 | The refill is the promised one if and only if less than a second went by or the part below a second fills the bucket anyway |
| RateLimiter.WholeSecondsAreLost | src/wireguard_hybrid_new/handshake/ratelimiter.rs:56-68 | A drained address that waits exactly one second is refused: only the sub-second part of the elapsed time is credited |
| RateLimiter.Limiter.Allow | src/wireguard_hybrid_new/handshake/ratelimiter.rs:48-79 | The in-place code is the table step that the bounds are about |
| RateLimiter.Limiter.GarbageCollect | src/wireguard_hybrid_new/handshake/ratelimiter.rs:91-97 | The `retain` keeps exactly the entries used within a second |
| Cookies.CookieLifetime | src/wireguard_hybrid_new/handshake/macs.rs:66-246 | A cookie carried through reply and generator makes every message of the next 120 s pass for its address until the end of the window after the one it was minted in, so for at least 60 s; if the MACs looked at differ, for no other sender and never from 120 s on |
| Cookies.CookieIsCarried | src/wireguard_hybrid_new/handshake/macs.rs:143-157 | In any run of messages exactly those up to 120 s after the cookie came in carry its MAC; later ones carry zeros |
| Cookies.CookieComesFrom | src/wireguard_hybrid_new/handshake/macs.rs:103-157 | In every run of messages, replies and new keys a generator has a cookie if and only if some reply opened under the first MAC of the message sent before it and no new key, newer opened reply or message later than 120 s came since; and it is what that reply opened to |
| Cookies.CookieBinds | src/wireguard_hybrid_new/handshake/macs.rs:66-81 | Two cookies are equal if and only if root secret, window and address are, short of a collision |
| Cookies.Mac1IsExact | src/wireguard_hybrid_new/handshake/macs.rs:143-233 | A first MAC validates for the same message under the same pre-shared key and no other, short of a collision; without a cookie the second MAC is zero |
| Cookies.WindowArithmetic | src/wireguard_hybrid_new/handshake/macs.rs:66-72 | The minted window is the current or the previous one exactly until 120 s after it began |
| Cookies.AddressesDiffer | src/wireguard_hybrid_new/handshake/macs.rs:49-64 | Different addresses are MACed as different bytes |
| Cookies.Generator.Process | src/wireguard_hybrid_new/handshake/macs.rs:119-133 | A reply is taken only after a first message and only if it opens under that message's MAC |
| Cookies.Generator.Generate | src/wireguard_hybrid_new/handshake/macs.rs:143-157 | A cookie is used up to 120 s after it came in and then dropped |
| Cookies.Generator.SetMac1Key | src/wireguard_hybrid_new/handshake/macs.rs:103-107 | A new key forgets the last MAC and the cookie |

## Left out

- AntiReplay.AntiReplay.UpdateStore: a 64-bit word is the set of its one bits, so `|`, `&` and shifts of words are set operations; shifts of the counter are divisions.
- InOrderQueue.Queue.Consume: the class runs one thread without interference; interleavings are the machine's. The machine takes `sequential_work` as one step at its completion.
- InOrderQueue.MutualExclusion: the counter counts the calls since an owner last took some off, most of which have returned; with 2^64 of them in one ownership it wraps, and `InOrderQueue.ExclusionNeedsTheBound` shows that exclusion then fails.
- RouterPeer.PacketsKeepTheirOrder: calls on one peer are taken one after the other; `LockOrder` interleaves `send` and `send_staged`, but keeps only which locks are held, not the packets.
- LockOrder.DeadlockFreeExactly: of the locks in the router only the key's and the staged packets' are modelled, the two that are held together; a worker that waits on the full work channel is not.
- KeyWheel.WheelAndTableAgree: the receiver table is the device's, and only the entries of this peer are modelled, so another peer's use of an id is not seen; debug assertions are taken as switched off; ids of the `previous` slot are not claimed to be mapped, since a displaced `previous` is handed back yet listed again by `zero_keys`.
- KeyTable.MappedUntilReturned: it, and `KeyTable.NothingIsLostExactly`, cover runs in which all receiver ids are different; with an id that comes twice the table entry is the later one's, as `KeyWheel.ReusedIdLosesKey` shows.
- SendPath.NoNonceIsSealedTwice: that different key pairs have different sending keys is a hypothesis there; `Binding.ResponderKeysBind` and `Binding.InitiatorKeysBind` say when exchanges can share one.
- Binding.ResponderBinds: absence of collisions is assumed of the hash, HMAC and HKDF calls that two exchanges make at the same place, not of the functions as a whole, which have 32-byte results; KEM and Diffie-Hellman outputs are bound, not the secrets they come from.
- Bans.VerdictsOverRuns: what the token bucket holds is taken from the state; `HalfOpen.AnswersAreBounded` and `HalfOpen.ServedFromTokens` are about it. As for the counts, a run is one of calls of at most 127 s each.
- ReceivePath.PassesOnExactly: the routing check on the inner packet and the endpoint update are inputs or effects of a delivered packet; the routing table itself is not part of this model, and its comparison of peers is discarded by the code.
- HandshakeRun.NeverDesynchronised: the network carries only what the two sides made, so unforgeability is not assumed of any primitive; session ids drawn in one run are distinct; roles are fixed, because a former responder's initiation is refused; each `begin` and each processed message is one step; epochs stay below 2^64 - 1 and counters below 2^128.
- HandshakeRun.StepInv: losing the ratchet key is the step that leads to resync mode; in the code only a test hook takes it.
- Noise.FirstPartAgrees: labels, the initial chaining key and hash, and the all-zero secret are parameters of the suite, and parsing of KEM keys and ciphertexts does not fail.
- HandshakePeer.Peer.ProcessInitiation: the MAC, cookie, rate and accounting checks that `process` makes around it are in `Cookies`, `RateLimiter`, `HalfOpen` and `Bans`, and are not composed with it.
- HalfOpen.CountsMatchTheTable: covers runs in which a newly registered id has no half-open entry, which `Sessions.HalfOpenIsAllocated` characterises and without which `HalfOpen.RegisterCounts` shows the counts to fail; calls of `process` one at a time and of at most 127 s each; the load ratio and the random draw are inputs, the success and timeout shares are exact fractions where the code rounds to f32, and the u32 token sum is taken not to overflow.
- Sessions.Device.Release: an unallocated id is a panic in the code and a precondition here; reaped ids are no longer allocated when released later.
- Sessions.OneBijection: `set_sk` with the key of a configured peer is left out; that peer leaves the peer map while its ids stay.
- RateLimiter.WindowBound: the collector thread appears as collections at arbitrary times; starting and stopping it is left out.
- Cookies.CookieLifetime: the wall clock does not go back between minting and checking.
- One-sided `set_psk`, the TAI64N timestamp comparison of the older handshakes, timers, UAPI, TUN and UDP: not part of this model.
- Resource sampling and gradient ratios: they only produce the load ratio, which is an input here.
