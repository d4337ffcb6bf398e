/**
 * Two devices, one always the initiator, over a network that may lose, duplicate and reorder
 * messages (src/wireguard_hybrid_new/handshake/device.rs, noise.rs, peer.rs). Every `begin`
 * and every processed message is one step.
 */
module Handshake {
  import opened Base
  import opened Codec
  import opened Crypto
  import opened Ratchets
  import opened Noise
  import RP = RiProofs

  /** Initiator `a`, responder `b`, their pre-shared key, and an RI key set by hand, if any. */
  datatype Config = Config(c: Suite, a: KeyState, b: KeyState, psk: Hash, manual: Option<RiKey>)

  function AtA(g: Config): PeerKeys {
    PeerAt(g.c, g.a, g.b, g.psk)
  }

  function AtB(g: Config): PeerKeys {
    PeerAt(g.c, g.b, g.a, g.psk)
  }

  datatype Initiator = Initiator(ratchet: Ratchet, sent: Option<SentState>, kSend: nat)

  datatype Responder = Responder(ratchet: Ratchet, kRecv: nat, lastConsumption: Option<nat>)

  const COUNTERS: nat := Pow256(16)

  function Snapshot(i: Initiator): InitiationRatchet {
    InitiationSnapshot(i.ratchet)
  }

  function RiKeyA(g: Config, i: Initiator): RiKey {
    RiKeyFor(g.c, g.manual, i.ratchet.kRi)
  }

  /** `begin`. */
  function Begin(g: Config, i: Initiator, sid: Sid, coins: InitiatorCoins, now: u64)
    : (r: Result<(Initiation, Initiator), HandshakeError>)
    ensures r.Ok? ==> r.value.1.sent.Some?
  {
    match CreateInitiation(g.c, g.a, AtA(g), Snapshot(i), sid, i.kSend + 1, RiKeyA(g, i), coins, now)
    case Err(e) => Err(e)
    case Ok((m, st)) => Ok((m, i.(sent := Some(st), kSend := i.kSend + 1)))
  }

  /** Identification and authentication of an initiation; nothing is changed yet. */
  function Read(g: Config, ratchet: Ratchet, m: Initiation, now: nat)
    : (r: Result<(Identified, Authentic), HandshakeError>)
    ensures r.Ok? ==> r.value.0.slot.epoch == m.epoch
  {
    match ConsumeFirst(g.c, g.b, AtB(g), ratchet, m)
    case Err(e) => Err(e)
    case Ok(id) =>
      match Authenticate(g.c, AtB(g), id, m, g.manual, now)
      case Err(e) => Err(e)
      case Ok(au) => Ok((id, au))
  }

  /** `check_replay_flood`; `instant` in milliseconds. */
  function ReplayOrFlood(r: Responder, counter: nat, instant: nat): Option<HandshakeError> {
    if counter <= r.kRecv then Some(OldTimestamp)
    else if r.lastConsumption.Some? && instant < r.lastConsumption.value + TIME_BETWEEN_INITIATIONS then
      Some(InitiationFlood)
    else None
  }

  /** Acceptance under the ratchet, and the response. */
  function Reply(g: Config, id: Identified, au: Authentic, m: Initiation, sidR: Sid, coins: ResponderCoins, now: u64)
    : (r: Result<(Accepted, Replied), HandshakeError>)
    requires id.slot.epoch + 1 < TWO_64
    ensures r.Ok? ==> r.value.0.slot == id.slot && r.value.1.next.epoch == id.slot.epoch + 1
  {
    match Accept(g.c, AtB(g), id, au, m, g.manual)
    case Err(e) => Err(e)
    case Ok(acc) =>
      match CreateResponse(g.c, AtB(g), m, acc, sidR, coins, now)
      case Err(e) => Err(e)
      case Ok(rep) => Ok((acc, rep))
  }

  /** What answers an initiation; `accepted` is internal to the responder. */
  datatype Answer = Refused(error: HandshakeError) | Answered(accepted: Accepted, reply: Replied)

  /** `process` of an initiation: `now` in seconds, `instant` in milliseconds. */
  function Respond(g: Config, r: Responder, m: Initiation, sidR: Sid, coins: ResponderCoins, now: u64, instant: nat)
    : (Responder, Answer)
    requires m.epoch + 1 < TWO_64
  {
    match Read(g, r.ratchet, m, now)
    case Err(e) => (r, Refused(e))
    case Ok((id, au)) =>
      match ReplayOrFlood(r, au.counter, instant)
      case Some(e) => (r, Refused(e))
      case None =>
        var r1 := r.(kRecv := au.counter, lastConsumption := Some(instant));
        match Reply(g, id, au, m, sidR, coins, now)
        case Err(e) => (r1, Refused(e))
        case Ok((acc, rep)) => (r1.(ratchet := Stage(r.ratchet, acc.slot, rep.next)), Answered(acc, rep))
  }

  /** `process` of a response. */
  function Complete(g: Config, i: Initiator, m: Response, now: nat): (Initiator, Result<Completed, HandshakeError>) {
    match i.sent
    case None => (i, Err(if m.hashEphemeral != g.c.hash(m.ephemeralCt) then DecryptionFailure else InvalidState))
    case Some(st) =>
      match ConsumeResponse(g.c, g.a, AtA(g), st, m, RiKeyA(g, i), now)
      case Err(e) => (i, Err(e))
      case Ok(done) =>
        (i.(sent := None, ratchet := Commit(i.ratchet, done.epoch, done.pub, done.kid, done.rk, done.kRi)),
         Ok(done))
  }

  // ------------------------------------------------------- one honest exchange

  /** An initiation of `snap` that carries `counter`, with everything the initiator drew for it. */
  datatype Sending = Sending(snap: InitiationRatchet, sid: Sid, counter: nat, riKey: RiKey, coins: InitiatorCoins,
    ts: u64)

  function Created(g: Config, x: Sending): Result<(Initiation, SentState), HandshakeError> {
    CreateInitiation(g.c, g.a, AtA(g), x.snap, x.sid, x.counter, x.riKey, x.coins, x.ts)
  }

  function Traced(g: Config, x: Sending): Trace {
    Initiate(g.c, g.a, AtA(g), x.snap, x.sid, x.counter, x.riKey, x.coins, x.ts)
  }

  /** What the initiator sends and remembers. */
  lemma CreatedIsRemembered(g: Config, x: Sending)
    requires Created(g, x).Ok?
    ensures var (m, st) := Created(g, x).value;
            && m == Traced(g, x).msg && st.ssR == Traced(g, x).ssR && st.chain == Traced(g, x).chain
            && Remembers(g.c, st, m) && st.localSid == m.sender == x.sid
            && st.mode == m.mode == x.snap.mode && st.epoch == m.epoch == x.snap.epoch
            && st.rk == x.snap.rk && st.kRi == x.snap.kRi && m.kid == x.snap.remoteKid
            && m.ephemeral == g.c.dhPub(x.coins.ephSk)
            && g.c.dh(x.coins.ephSk, Pk(g.c, g.b)) != g.c.zero32 && AtA(g).ss != g.c.zero32
  {
  }

  /** The responder reads what was sent, unless its ratchet, its clock or its RI key object. */
  lemma HonestRead(g: Config, x: Sending, ratchet: Ratchet, now: nat)
    requires Lawful(g.c) && x.counter < COUNTERS && x.snap.mode <= MODE_RESYNC && Created(g, x).Ok?
    ensures var t := Traced(g, x);
            var slot := ResponseSnapshot(ratchet, x.snap.mode, x.snap.epoch, x.snap.remoteKid);
            var read := Read(g, ratchet, t.msg, now);
            && (read.Ok? ==>
                  slot.Ok? && read.value == (Identified(t.fixed, slot.value, t.ri),
                    Authentic(t.ck, t.chain.hs, x.counter)))
            && (slot.Ok? && x.riKey == RiKeyFor(g.c, g.manual, slot.value.kRi) && 1 <= x.coins.delta < RP.RANGE ==>
                  (read.Ok? <==> RP.Skew(now, x.ts) <= RP.MAX_SKEW))
  {
    hide ConsumeFirst, Authenticate, Initiate, ResponseSnapshot, CreateInitiation, PeerAt, RiKeyFor;
    CreatedIsRemembered(g, x);
    FirstPartAgrees(g.c, g.a, g.b, g.psk, x.snap, x.sid, x.counter, x.riKey, x.coins, x.ts, ratchet);
    var slot := ResponseSnapshot(ratchet, x.snap.mode, x.snap.epoch, x.snap.remoteKid);
    if slot.Ok? {
      SecondPartAgrees(g.c, g.a, g.b, g.psk, x.snap, x.sid, x.counter, x.riKey, x.coins, x.ts, slot.value, g.manual,
        now);
    }
  }

  /** A responder that is synchronised with the sender accepts under the sender's chain and replies. */
  lemma HonestReply(g: Config, x: Sending, ratchet: Ratchet, id: Identified, au: Authentic,
                    sidR: Sid, coins: ResponderCoins, now: u64)
    requires Lawful(g.c) && Created(g, x).Ok? && Synchronised(g.c.kemPub, x.snap, ratchet)
    requires var t := Traced(g, x);
             && ResponseSnapshot(ratchet, x.snap.mode, x.snap.epoch, x.snap.remoteKid) == Ok(id.slot)
             && id == Identified(t.fixed, id.slot, t.ri) && au == Authentic(t.ck, t.chain.hs, x.counter)
             && id.slot.epoch + 1 < TWO_64
    ensures var (m, st) := Created(g, x).value;
            var reply := Reply(g, id, au, m, sidR, coins, now);
            && (reply.Ok? <==> g.c.dh(coins.ephSk, Pk(g.c, g.a)) != g.c.zero32 &&
                               g.c.dh(coins.ephSk, m.ephemeral) != g.c.zero32)
            && (reply.Ok? ==>
                  && AcceptedAs(st, reply.value.0) && reply.value.0.riKey == RiKeyFor(g.c, g.manual, x.snap.kRi)
                  && CreateResponse(g.c, AtB(g), m, reply.value.0, sidR, coins, now) == Ok(reply.value.1))
  {
    hide ConsumeFirst, Authenticate, Accept, CreateResponse, Initiate, ResponseSnapshot, CreateInitiation,
         Synchronised, RiKeyFor;
    CreatedIsRemembered(g, x);
    SynchronisedIsAnswered(g.c.kemPub, x.snap, ratchet);
    AcceptAgrees(g.c, g.a, g.b, g.psk, x.snap, x.sid, x.counter, x.riKey, x.coins, x.ts, id.slot, g.manual);
  }

  /** Everything an initiation of the initiator can lead to on the other side. */
  lemma HonestRespond(g: Config, r: Responder, x: Sending, m: Initiation, st: SentState,
                      sidR: Sid, coins: ResponderCoins, now: u64, instant: nat)
    requires Lawful(g.c) && x.snap.mode <= MODE_RESYNC && x.counter < COUNTERS
    requires Created(g, x) == Ok((m, st)) && m.epoch + 1 < TWO_64
    ensures var (r', answer) := Respond(g, r, m, sidR, coins, now, instant);
            && (answer.Refused? ==>
                  r' == r || (x.counter > r.kRecv && r' == r.(kRecv := x.counter, lastConsumption := Some(instant))))
            && (answer.Answered? ==>
                  && var acc := answer.accepted;
                  && x.counter > r.kRecv
                  && ResponseSnapshot(r.ratchet, x.snap.mode, x.snap.epoch, x.snap.remoteKid) == Ok(acc.slot)
                  && acc.slot.epoch == x.snap.epoch && answer.reply.next.epoch == x.snap.epoch + 1
                  && r' == Responder(Stage(r.ratchet, acc.slot, answer.reply.next), x.counter, Some(instant))
                  && (Synchronised(g.c.kemPub, x.snap, r.ratchet) ==>
                        && AcceptedAs(st, acc) && acc.riKey == RiKeyFor(g.c, g.manual, x.snap.kRi)
                        && CreateResponse(g.c, AtB(g), m, acc, sidR, coins, now) == Ok(answer.reply)))
  {
    hide Read, Reply, Created, Traced, CreateResponse, Synchronised, ResponseSnapshot, Stage, AcceptedAs, RiKeyFor;
    CreatedIsRemembered(g, x);
    HonestRead(g, x, r.ratchet, now);
    var read := Read(g, r.ratchet, m, now);
    if read.Ok? && Synchronised(g.c.kemPub, x.snap, r.ratchet) {
      HonestReply(g, x, r.ratchet, read.value.0, read.value.1, sidR, coins, now);
    }
  }

  /** And it is answered, whenever counter, clocks and the responder's Diffie-Hellman allow. */
  lemma HonestIsAnswered(g: Config, r: Responder, x: Sending, m: Initiation, st: SentState,
                         sidR: Sid, coins: ResponderCoins, now: u64, instant: nat)
    requires Lawful(g.c) && x.counter < COUNTERS && 1 <= x.coins.delta < RP.RANGE
    requires Synchronised(g.c.kemPub, x.snap, r.ratchet) && x.riKey == RiKeyFor(g.c, g.manual, x.snap.kRi)
    requires Created(g, x) == Ok((m, st)) && m.epoch + 1 < TWO_64
    requires ReplayOrFlood(r, x.counter, instant).None?
    ensures Respond(g, r, m, sidR, coins, now, instant).1.Answered? <==>
            && RP.Skew(now, x.ts) <= RP.MAX_SKEW
            && g.c.dh(coins.ephSk, Pk(g.c, g.a)) != g.c.zero32 && g.c.dh(coins.ephSk, m.ephemeral) != g.c.zero32
  {
    hide Read, Reply, Created, Traced, CreateResponse, Synchronised, ResponseSnapshot, Stage, AcceptedAs, RiKeyFor,
         ReplayOrFlood;
    CreatedIsRemembered(g, x);
    SynchronisedIsAnswered(g.c.kemPub, x.snap, r.ratchet);
    HonestRead(g, x, r.ratchet, now);
    var read := Read(g, r.ratchet, m, now);
    if read.Ok? {
      HonestReply(g, x, r.ratchet, read.value.0, read.value.1, sidR, coins, now);
    }
  }

  /** Completing an honest response leaves the initiator synchronised with the pending slot. */
  lemma CommitMeetsPending(c: Suite, i: Ratchet, done: Completed, r: Ratchet)
    requires r.pending.Some? && SameEpochState(c, done, r.pending.value)
    requires r.pending.value.epoch == r.epoch + 1
    ensures var i' := Commit(i, done.epoch, done.pub, done.kid, done.rk, done.kRi);
            && Synchronised(c.kemPub, InitiationSnapshot(i'), r)
            && InitiationSnapshot(i').mode == MODE_RATCHET
  {
  }

  lemma BeginIs(g: Config, i: Initiator, x: Sending)
    requires x.snap == Snapshot(i) && x.counter == i.kSend + 1 && x.riKey == RiKeyA(g, i)
    requires Begin(g, i, x.sid, x.coins, x.ts).Ok?
    ensures var (m, i1) := Begin(g, i, x.sid, x.coins, x.ts).value;
            i1.sent.Some? && Created(g, x) == Ok((m, i1.sent.value)) && i1 == i.(sent := i1.sent, kSend := i.kSend + 1)
  {
    hide CreateInitiation, RiKeyFor, InitiationSnapshot, PeerAt;
  }

  lemma SnapshotIs(i: Initiator)
    ensures Snapshot(i).epoch == i.ratchet.epoch && Snapshot(i).rk == i.ratchet.rk && Snapshot(i).kRi == i.ratchet.kRi
    ensures Snapshot(i).mode <= MODE_RESYNC
  {
  }

  lemma StagedIsPending(r: Ratchet, accepted: ResponseRatchet, next: PendingRatchet)
    ensures Stage(r, accepted, next).pending == Some(next)
  {
  }

  /** The initiator's reaction to an honest response to the initiation it is waiting on. */
  lemma HonestComplete(g: Config, i: Initiator, r: Responder, m: Initiation, acc: Accepted, rep: Replied,
                       sidR: Sid, coins: ResponderCoins, ts: u64, now: nat)
    requires Lawful(g.c) && i.sent.Some? && Remembers(g.c, i.sent.value, m) && AcceptedAs(i.sent.value, acc)
    requires acc.slot.epoch + 1 < TWO_64 && CreateResponse(g.c, AtB(g), m, acc, sidR, coins, ts) == Ok(rep)
    requires r.ratchet.pending == Some(rep.next) && r.ratchet.epoch == acc.slot.epoch
    ensures var (i', done) := Complete(g, i, rep.msg, now);
            && (done.Err? ==> i' == i)
            && (done.Ok? ==>
                  && Mirrored(done.value.transport, rep.transport) && SameEpochState(g.c, done.value, rep.next)
                  && i' == Initiator(Commit(i.ratchet, done.value.epoch, done.value.pub, done.value.kid,
                     done.value.rk, done.value.kRi),
                                     None, i.kSend)
                  && Synchronised(g.c.kemPub, Snapshot(i'), r.ratchet)
                  && i'.ratchet.epoch == acc.slot.epoch + 1 && Snapshot(i').mode == MODE_RATCHET)
            && (RiKeyA(g, i) == acc.riKey && 1 <= coins.delta < RP.RANGE ==>
                  (done.Ok? <==> RP.Skew(now, ts) <= RP.MAX_SKEW))
  {
    hide CreateResponse, ConsumeResponse, AcceptedAs, Remembers, RiKeyFor, Mirrored, Synchronised, InitiationSnapshot;
    ResponseAgrees(g.c, g.a, g.b, g.psk, i.sent.value, m, acc, sidR, coins, ts, RiKeyA(g, i), now);
    var done := Complete(g, i, rep.msg, now).1;
    if done.Ok? {
      CommitMeetsPending(g.c, i.ratchet, done.value, r.ratchet);
    }
  }

  /** No Diffie-Hellman of the exchange comes out as zero. */
  predicate NoZeroSecret(g: Config, coins: InitiatorCoins, coinsR: ResponderCoins) {
    && AtA(g).ss != g.c.zero32
    && g.c.dh(coins.ephSk, Pk(g.c, g.b)) != g.c.zero32
    && g.c.dh(coinsR.ephSk, Pk(g.c, g.a)) != g.c.zero32
    && g.c.dh(coinsR.ephSk, g.c.dhPub(coins.ephSk)) != g.c.zero32
  }

  /**
   * `begin`, `process` of the initiation and `process` of the response all succeed, give mirrored
   * keys, and leave the initiator synchronised with the responder's new pending epoch.
   */
  predicate ExchangeSucceeds(g: Config, i: Initiator, r: Responder, sid: Sid, coins: InitiatorCoins, tsI: u64,
                             sidR: Sid, coinsR: ResponderCoins, nowR: u64, instant: nat, nowI: nat)
  {
    match Begin(g, i, sid, coins, tsI)
    case Err(_) => false
    case Ok((m, i1)) =>
      && m.epoch + 1 < TWO_64
      && match Respond(g, r, m, sidR, coinsR, nowR, instant)
         case (_, Refused(_)) => false
         case (r1, Answered(_, rep)) =>
           match Complete(g, i1, rep.msg, nowI)
           case (_, Err(_)) => false
           case (i2, Ok(done)) =>
             && Mirrored(done.transport, rep.transport)
             && r1.ratchet.epoch == i.ratchet.epoch && i2.ratchet.epoch == i.ratchet.epoch + 1
             && r1.ratchet.pending.Some? && SameEpochState(g.c, done, r1.ratchet.pending.value)
             && Synchronised(g.c.kemPub, Snapshot(i2), r1.ratchet) && Snapshot(i2).mode == MODE_RATCHET
  }

  /** With a synchronised responder `begin` fails only for a zero shared secret. */
  lemma SynchronisedBegins(g: Config, i: Initiator, r: Ratchet, sid: Sid, coins: InitiatorCoins, now: u64)
    requires Synchronised(g.c.kemPub, Snapshot(i), r)
    ensures Begin(g, i, sid, coins, now).Ok? <==>
            AtA(g).ss != g.c.zero32 && g.c.dh(coins.ephSk, Pk(g.c, g.b)) != g.c.zero32
  {
    hide Initiate;
  }

  /**
   * From any synchronised pair of states, in bootstrap, ratchet or resync mode and at any epoch,
   * an honest exchange within the clock skew succeeds.
   */
  lemma HonestExchange(g: Config, i: Initiator, r: Responder, sid: Sid, coins: InitiatorCoins, tsI: u64,
                       sidR: Sid, coinsR: ResponderCoins, nowR: u64, instant: nat, nowI: nat)
    requires Lawful(g.c) && i.kSend + 1 < COUNTERS && i.ratchet.epoch + 1 < TWO_64
    requires 1 <= coins.delta < RP.RANGE && 1 <= coinsR.delta < RP.RANGE
    requires Synchronised(g.c.kemPub, Snapshot(i), r.ratchet)
    requires ReplayOrFlood(r, i.kSend + 1, instant).None?
    requires RP.Skew(nowR, tsI) <= RP.MAX_SKEW && RP.Skew(nowI, nowR) <= RP.MAX_SKEW
    requires NoZeroSecret(g, coins, coinsR)
    ensures ExchangeSucceeds(g, i, r, sid, coins, tsI, sidR, coinsR, nowR, instant, nowI)
  {
    hide Created, Traced, CreateInitiation, Begin, Respond, CreateResponse, Synchronised, ResponseSnapshot, Stage,
         AcceptedAs, RiKeyFor, Complete, InitiationSnapshot, Remembers, Mirrored, Commit, SameEpochState, ReplayOrFlood;
    var x := Sending(Snapshot(i), sid, i.kSend + 1, RiKeyA(g, i), coins, tsI);
    SynchronisedBegins(g, i, r.ratchet, sid, coins, tsI);
    var (m, i1) := Begin(g, i, sid, coins, tsI).value;
    BeginIs(g, i, x);
    var st := i1.sent.value;
    CreatedIsRemembered(g, x);
    SnapshotIs(i);
    SynchronisedIsAnswered(g.c.kemPub, x.snap, r.ratchet);
    HonestRespond(g, r, x, m, st, sidR, coinsR, nowR, instant);
    HonestIsAnswered(g, r, x, m, st, sidR, coinsR, nowR, instant);
    var (r', answer) := Respond(g, r, m, sidR, coinsR, nowR, instant);
    StageKeepsSynchronised(g.c.kemPub, x.snap, x.snap, r.ratchet, answer.accepted.slot, answer.reply.next);
    StagedIsPending(r.ratchet, answer.accepted.slot, answer.reply.next);
    HonestComplete(g, i1, r', m, answer.accepted, answer.reply, sidR, coinsR, nowR, nowI);
  }
}
