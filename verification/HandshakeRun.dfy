/**
 * Every run of one initiator and one responder over a network that may lose, duplicate, delay
 * and reorder what they send. All messages ever sent stay in the network; delivering one does
 * not remove it.
 */
module HandshakeRun {
  import opened Base
  import opened Codec
  import opened Crypto
  import opened Ratchets
  import opened Noise
  import opened Handshake
  import RP = RiProofs

  /** An initiation in the network, with what the initiator kept of it. */
  datatype Sent = Sent(x: Sending, m: Initiation, st: SentState)

  /** A response in the network: the initiation it answers and what the responder drew for it. */
  datatype Made = Made(init: nat, acc: Accepted, sidR: Sid, coins: ResponderCoins, ts: u64, rep: Replied)

  /** Transport keys the initiator accepted, and the response they came from. */
  datatype Acceptance = Acceptance(keys: Transport, made: nat)

  datatype State = State(i: Initiator, r: Responder, inits: seq<Sent>, replies: seq<Made>, accepts: seq<Acceptance>)

  datatype Action =
    | Begin(sid: Sid, coins: InitiatorCoins, now: u64)
    | DeliverInitiation(n: nat, sidR: Sid, rcoins: ResponderCoins, rnow: u64, instant: nat)
    | DeliverResponse(k: nat, inow: nat)
    | Forget                             // the initiator loses the responder's ratchet key

  ghost predicate FreshSid(s: State, sid: Sid) {
    forall n :: 0 <= n < |s.inits| ==> s.inits[n].x.sid != sid
  }

  ghost predicate Enabled(s: State, a: Action) {
    match a
    case Begin(sid, _, _) => FreshSid(s, sid) && s.i.kSend + 1 < COUNTERS
    case DeliverInitiation(n, _, _, _, _) => n < |s.inits| && s.inits[n].m.epoch + 1 < TWO_64
    case DeliverResponse(k, _) => k < |s.replies|
    case Forget => true
  }

  function AfterBegin(g: Config, s: State, sid: Sid, coins: InitiatorCoins, now: u64): State {
    match Handshake.Begin(g, s.i, sid, coins, now)
    case Err(_) => s
    case Ok((m, i1)) =>
      var x := Sending(Snapshot(s.i), sid, s.i.kSend + 1, RiKeyA(g, s.i), coins, now);
      s.(i := i1, inits := s.inits + [Sent(x, m, i1.sent.value)])
  }

  function AfterInitiation(g: Config, s: State, n: nat, sidR: Sid, coins: ResponderCoins, now: u64, instant: nat): State
    requires n < |s.inits| && s.inits[n].m.epoch + 1 < TWO_64
  {
    match Respond(g, s.r, s.inits[n].m, sidR, coins, now, instant)
    case (r1, Refused(_)) => s.(r := r1)
    case (r1, Answered(acc, rep)) => s.(r := r1, replies := s.replies + [Made(n, acc, sidR, coins, now, rep)])
  }

  function AfterResponse(g: Config, s: State, k: nat, now: nat): State
    requires k < |s.replies|
  {
    match Complete(g, s.i, s.replies[k].rep.msg, now)
    case (i1, Err(_)) => s.(i := i1)
    case (i1, Ok(done)) => s.(i := i1, accepts := s.accepts + [Acceptance(done.transport, k)])
  }

  function Forgotten(i: Initiator): Initiator {
    i.(ratchet := i.ratchet.(remoteKid := None, remotePub := None))
  }

  ghost function Apply(g: Config, s: State, a: Action): State
    requires Enabled(s, a)
  {
    match a
    case Begin(sid, coins, now) => AfterBegin(g, s, sid, coins, now)
    case DeliverInitiation(n, sidR, coins, now, instant) => AfterInitiation(g, s, n, sidR, coins, now, instant)
    case DeliverResponse(k, now) => AfterResponse(g, s, k, now)
    case Forget => s.(i := Forgotten(s.i))
  }

  /** Two new peers: each derives the roots from its own view of the pair. */
  function Initial(g: Config): State {
    var a, b := AtA(g), AtB(g);
    State(
      Initiator(Start(DeriveRoot(g.c, g.c.tag(RootRk), a.ownPkHash, a.pkHash, g.psk),
                      DeriveRoot(g.c, g.c.tag(RootKRi), a.ownPkHash, a.pkHash, g.psk)), None, 0),
      Responder(Start(DeriveRoot(g.c, g.c.tag(RootRk), b.ownPkHash, b.pkHash, g.psk),
                      DeriveRoot(g.c, g.c.tag(RootKRi), b.ownPkHash, b.pkHash, g.psk)), 0, None),
      [], [], [])
  }

  ghost predicate IsRun(g: Config, s: State, actions: seq<Action>)
    decreases |actions|
  {
    actions == [] || (Enabled(s, actions[0]) && IsRun(g, Apply(g, s, actions[0]), actions[1..]))
  }

  ghost function Outcome(g: Config, s: State, actions: seq<Action>): State
    requires IsRun(g, s, actions)
    decreases |actions|
  {
    if actions == [] then s else Outcome(g, Apply(g, s, actions[0]), actions[1..])
  }

  // ---------------------------------------------------------------- invariant

  /** The initiations are what `create_initiation` made, with counters 1, 2, 3, … */
  ghost predicate InitOk(g: Config, e: Sent, n: nat) {
    && Created(g, e.x) == Ok((e.m, e.st)) && e.x.counter == n + 1 && n + 1 < COUNTERS
    && e.x.snap.mode <= MODE_RESYNC && e.x.riKey == RiKeyFor(g.c, g.manual, e.x.snap.kRi)
    && e.m.epoch == e.x.snap.epoch && e.st.epoch == e.x.snap.epoch && e.st.localSid == e.m.sender == e.x.sid
  }

  ghost predicate InitsOk(g: Config, s: State) {
    && |s.inits| == s.i.kSend
    && (forall n :: 0 <= n < |s.inits| ==> InitOk(g, s.inits[n], n))
    && (forall m, n :: 0 <= m < n < |s.inits| ==> s.inits[m].x.sid != s.inits[n].x.sid)
  }

  /** A response answers its initiation under the initiator's own roots and chain. */
  ghost predicate ReplyOk(g: Config, e: Sent, k: Made) {
    && k.acc.slot.epoch == e.x.snap.epoch && k.acc.slot.epoch + 1 < TWO_64
    && AcceptedAs(e.st, k.acc) && k.acc.riKey == e.x.riKey
    && CreateResponse(g.c, AtB(g), e.m, k.acc, k.sidR, k.coins, k.ts) == Ok(k.rep)
  }

  ghost predicate RepliesOk(g: Config, s: State) {
    && s.r.kRecv <= |s.inits|
    && (forall k :: 0 <= k < |s.replies| ==>
          s.replies[k].init < s.r.kRecv && ReplyOk(g, s.inits[s.replies[k].init], s.replies[k]))
  }

  /** The initiator waits on its last initiation, whose roots it still holds. */
  ghost predicate WaitingOk(s: State) {
    s.i.sent.Some? ==>
      && |s.inits| > 0 && s.i.sent.value == s.inits[|s.inits| - 1].st
      && s.inits[|s.inits| - 1].x.snap.epoch == s.i.ratchet.epoch
      && s.inits[|s.inits| - 1].x.snap.kRi == s.i.ratchet.kRi
  }

  ghost predicate RatchetsOk(i: Ratchet, r: Ratchet) {
    && (r.pending.Some? ==> r.pending.value.epoch == r.epoch + 1)
    && (i.remoteKid.Some? <==> i.remotePub.Some?)
    && (i.epoch == 0 ==> i.remotePub.None?)
  }

  /** What the initiator would send now, and everything the responder would still look at, fits. */
  ghost predicate InSync(g: Config, s: State) {
    && Synchronised(g.c.kemPub, Snapshot(s.i), s.r.ratchet)
    && (forall n :: s.r.kRecv <= n < |s.inits| ==>
          && Synchronised(g.c.kemPub, s.inits[n].x.snap, s.r.ratchet)
          && s.inits[n].x.snap.epoch == s.i.ratchet.epoch)
  }

  /** While its initiation is open and answered, the responder's pending epoch is the answer's. */
  ghost predicate AnswerIsPending(s: State) {
    s.i.sent.Some? ==>
      forall k :: 0 <= k < |s.replies| && s.replies[k].init == |s.inits| - 1 ==>
        s.r.ratchet.pending == Some(s.replies[k].rep.next) && s.r.ratchet.epoch == s.i.ratchet.epoch
  }

  /** Accepted keys mirror the responder's, and no initiation yields keys twice. */
  ghost predicate AcceptsOk(s: State) {
    && (forall j :: 0 <= j < |s.accepts| ==>
          && s.accepts[j].made < |s.replies|
          && Mirrored(s.accepts[j].keys, s.replies[s.accepts[j].made].rep.transport)
          && s.replies[s.accepts[j].made].init < (if s.i.sent.Some? then |s.inits| - 1 else |s.inits|))
    && (forall j, k :: 0 <= j < k < |s.accepts| ==>
          s.replies[s.accepts[j].made].init < s.replies[s.accepts[k].made].init)
  }

  ghost predicate Inv(g: Config, s: State)
  {
    && InitsOk(g, s) && RepliesOk(g, s) && WaitingOk(s) && RatchetsOk(s.i.ratchet, s.r.ratchet)
    && InSync(g, s) && AnswerIsPending(s) && AcceptsOk(s)
  }

  // -------------------------------------------------------------------- steps

  lemma BeginShape(g: Config, s: State, sid: Sid, coins: InitiatorCoins, now: u64)
    requires InitsOk(g, s) && Enabled(s, Action.Begin(sid, coins, now))
    ensures var s' := AfterBegin(g, s, sid, coins, now);
            || s' == s
            || (|s'.inits| == |s.inits| + 1 &&
                var e := s'.inits[|s.inits|];
                && s' == s.(i := s.i.(sent := Some(e.st), kSend := s.i.kSend + 1), inits := s.inits + [e])
                && InitOk(g, e, |s.inits|) && e.x.snap == Snapshot(s.i) && e.x.sid == sid)
  {
    hide CreateInitiation, Created, Traced, Handshake.Begin, Remembers, PeerAt, RiKeyFor, InitiationSnapshot;
    assert |s.inits| == s.i.kSend;
    hide InitsOk;
    var x := Sending(Snapshot(s.i), sid, s.i.kSend + 1, RiKeyA(g, s.i), coins, now);
    SnapshotIs(s.i);
    if Handshake.Begin(g, s.i, sid, coins, now).Ok? {
      BeginIs(g, s.i, x);
      CreatedIsRemembered(g, x);
    }
  }

  lemma BeginStep(g: Config, s: State, sid: Sid, coins: InitiatorCoins, now: u64)
    requires Inv(g, s) && Enabled(s, Action.Begin(sid, coins, now))
    ensures Inv(g, AfterBegin(g, s, sid, coins, now))
  {
    hide AfterBegin, Synchronised, InitiationSnapshot, ReplyOk, InitOk, Mirrored;
    BeginShape(g, s, sid, coins, now);
    SnapshotIs(s.i);
    var s' := AfterBegin(g, s, sid, coins, now);
    assert InitsOk(g, s');
    assert RepliesOk(g, s');
    assert InSync(g, s');
    assert AcceptsOk(s');
  }

  /** Only the responder's counter moves, or a response to a synchronised initiation is staged. */
  ghost predicate Silent(s: State, s': State, n: nat) {
    && s' == s.(r := s'.r) && s'.r.ratchet == s.r.ratchet
    && (s'.r.kRecv == s.r.kRecv || (s.r.kRecv <= n && s'.r.kRecv == n + 1))
  }

  ghost predicate Answering(g: Config, s: State, s': State, n: nat, k: Made)
    requires n < |s.inits|
  {
    && s' == s.(r := s'.r, replies := s.replies + [k]) && k.init == n
    && s.r.kRecv <= n && s'.r.kRecv == n + 1
    && ResponseSnapshot(s.r.ratchet, s.inits[n].x.snap.mode, s.inits[n].x.snap.epoch, s.inits[n].x.snap.remoteKid)
       == Ok(k.acc.slot)
    && s'.r.ratchet == Stage(s.r.ratchet, k.acc.slot, k.rep.next)
    && k.rep.next.epoch == s.inits[n].x.snap.epoch + 1
    && ReplyOk(g, s.inits[n], k)
  }

  lemma InitiationShape(g: Config, s: State, n: nat, sidR: Sid, coins: ResponderCoins, now: u64, instant: nat)
    requires Lawful(g.c) && InitsOk(g, s) && InSync(g, s)
    requires n < |s.inits| && s.inits[n].m.epoch + 1 < TWO_64
    ensures var s' := AfterInitiation(g, s, n, sidR, coins, now, instant);
            || Silent(s, s', n)
            || (|s'.replies| == |s.replies| + 1 && Answering(g, s, s', n, s'.replies[|s.replies|]))
  {
    hide Respond, Created, Synchronised, ResponseSnapshot, RiKeyFor, Stage, AcceptedAs, CreateResponse;
    var e := s.inits[n];
    assert InitOk(g, e, n);
    HonestRespond(g, s.r, e.x, e.m, e.st, sidR, coins, now, instant);
  }

  lemma SilentStep(g: Config, s: State, s': State, n: nat)
    requires Inv(g, s) && n < |s.inits| && Silent(s, s', n)
    ensures Inv(g, s')
  {
    hide Synchronised, InitiationSnapshot, ReplyOk, InitOk, Mirrored;
    assert InitsOk(g, s');
    assert RepliesOk(g, s');
    assert InSync(g, s');
    assert AnswerIsPending(s');
    assert AcceptsOk(s');
  }

  lemma AnsweringKeepsSync(g: Config, s: State, s': State, n: nat, k: Made)
    requires InSync(g, s) && n < |s.inits| && Answering(g, s, s', n, k)
    requires Snapshot(s.i).epoch == s.i.ratchet.epoch
    ensures InSync(g, s')
    ensures s'.r.ratchet.epoch == s.i.ratchet.epoch && s'.r.ratchet.pending == Some(k.rep.next)
  {
    hide Synchronised, InitiationSnapshot, ReplyOk, ResponseSnapshot, Stage;
    var j, pubOf, slot, next := s.inits[n].x.snap, g.c.kemPub, k.acc.slot, k.rep.next;
    StageKeepsSynchronised(pubOf, Snapshot(s.i), j, s.r.ratchet, slot, next);
    StagedIsPending(s.r.ratchet, slot, next);
    forall m | s'.r.kRecv <= m < |s'.inits|
      ensures Synchronised(pubOf, s'.inits[m].x.snap, s'.r.ratchet) && s'.inits[m].x.snap.epoch == s'.i.ratchet.epoch
    {
      StageKeepsSynchronised(pubOf, s.inits[m].x.snap, j, s.r.ratchet, slot, next);
    }
  }

  lemma AnsweringStep(g: Config, s: State, s': State, n: nat, k: Made)
    requires Inv(g, s) && n < |s.inits| && Answering(g, s, s', n, k)
    ensures Inv(g, s')
  {
    hide Synchronised, InitiationSnapshot, ReplyOk, InitOk, Mirrored, ResponseSnapshot, Stage;
    SnapshotIs(s.i);
    AnsweringKeepsSync(g, s, s', n, k);
    assert InitsOk(g, s');
    assert RepliesOk(g, s');
    assert RatchetsOk(s'.i.ratchet, s'.r.ratchet);
    assert AnswerIsPending(s');
    assert AcceptsOk(s');
  }

  /** A response to an initiation that is not the open one does nothing. */
  lemma StaleResponse(g: Config, s: State, k: nat, now: nat)
    requires InitsOk(g, s) && RepliesOk(g, s) && WaitingOk(s) && k < |s.replies|
    requires s.i.sent.None? || s.replies[k].init != |s.inits| - 1
    ensures AfterResponse(g, s, k, now) == s
  {
    if s.i.sent.Some? {
      var e := s.inits[s.replies[k].init];
      assert InitOk(g, e, s.replies[k].init) && ReplyOk(g, e, s.replies[k]);
      assert InitOk(g, s.inits[|s.inits| - 1], |s.inits| - 1);
      ResponseGoesTo(g, s, e, s.replies[k], now);
    }
  }

  lemma ResponseGoesTo(g: Config, s: State, e: Sent, k: Made, now: nat)
    requires ReplyOk(g, e, k) && s.i.sent.Some? && s.i.sent.value.localSid != e.m.sender
    ensures Complete(g, s.i, k.rep.msg, now).0 == s.i && Complete(g, s.i, k.rep.msg, now).1.Err?
  {
  }

  ghost predicate Completing(g: Config, s: State, s': State, k: nat)
    requires k < |s.replies|
  {
    && |s'.accepts| == |s.accepts| + 1
    && s' == s.(i := s'.i, accepts := s.accepts + [s'.accepts[|s.accepts|]])
    && s'.accepts[|s.accepts|].made == k
    && Mirrored(s'.accepts[|s.accepts|].keys, s.replies[k].rep.transport)
    && s'.i.sent.None? && s'.i.kSend == s.i.kSend
    && Synchronised(g.c.kemPub, Snapshot(s'.i), s.r.ratchet)
    && s'.i.ratchet.epoch == s.i.ratchet.epoch + 1
    && s'.i.ratchet.remoteKid.Some? && s'.i.ratchet.remotePub.Some?
  }

  /** The initiator reacts to a response to its open initiation. */
  lemma OpenResponse(g: Config, s: State, k: nat, now: nat)
    requires Lawful(g.c) && InitsOk(g, s) && RepliesOk(g, s) && WaitingOk(s) && AnswerIsPending(s)
    requires k < |s.replies| && s.i.sent.Some? && s.replies[k].init == |s.inits| - 1
    ensures var s' := AfterResponse(g, s, k, now);
            s' == s || Completing(g, s, s', k)
  {
    hide CreateResponse, Complete, Synchronised, InitiationSnapshot, AcceptedAs, RiKeyFor, Mirrored, Created,
         SameEpochState, Remembers, PeerAt, Traced;
    var reply := s.replies[k];
    var e := s.inits[reply.init];
    assert InitOk(g, e, reply.init) && ReplyOk(g, e, reply);
    CreatedIsRemembered(g, e.x);
    HonestComplete(g, s.i, s.r, e.m, reply.acc, reply.rep, reply.sidR, reply.coins, reply.ts, now);
  }

  lemma ResponseShape(g: Config, s: State, k: nat, now: nat)
    requires Lawful(g.c) && Inv(g, s) && k < |s.replies|
    ensures var s' := AfterResponse(g, s, k, now);
            s' == s || (s.i.sent.Some? && s.replies[k].init == |s.inits| - 1 && Completing(g, s, s', k))
  {
    hide AfterResponse, Completing, Mirrored, Synchronised;
    var reply := s.replies[k];
    if s.i.sent.None? || reply.init != |s.inits| - 1 {
      StaleResponse(g, s, k, now);
    } else {
      OpenResponse(g, s, k, now);
    }
  }

  lemma CompletingStep(g: Config, s: State, s': State, k: nat)
    requires Inv(g, s) && k < |s.replies| && s.i.sent.Some? && s.replies[k].init == |s.inits| - 1
    requires Completing(g, s, s', k)
    ensures Inv(g, s')
  {
    hide Synchronised, InitiationSnapshot, ReplyOk, InitOk, Mirrored;
    assert s.r.kRecv == |s.inits|;
    assert InitsOk(g, s');
    assert RepliesOk(g, s');
    assert RatchetsOk(s'.i.ratchet, s'.r.ratchet);
    assert InSync(g, s');
    assert AcceptsOk(s');
  }

  /** Falling back to bootstrap or resync mode keeps the two sides in step. */
  lemma ForgetKeepsSync(c: Suite, i: Initiator, r: Ratchet)
    requires Synchronised(c.kemPub, Snapshot(i), r) && RatchetsOk(i.ratchet, r)
    ensures Synchronised(c.kemPub, Snapshot(Forgotten(i)), r)
  {
  }

  lemma ForgetStep(g: Config, s: State)
    requires Inv(g, s)
    ensures Inv(g, s.(i := Forgotten(s.i)))
  {
    hide Synchronised, InitiationSnapshot, ReplyOk, InitOk, Mirrored;
    ForgetKeepsSync(g.c, s.i, s.r.ratchet);
    var s' := s.(i := Forgotten(s.i));
    assert InitsOk(g, s');
    assert RepliesOk(g, s');
    assert InSync(g, s');
    assert AcceptsOk(s');
  }

  /** Every step keeps the invariant. */
  lemma StepInv(g: Config, s: State, a: Action)
    requires Lawful(g.c) && Inv(g, s) && Enabled(s, a)
    ensures Inv(g, Apply(g, s, a))
  {
    hide AfterBegin, AfterInitiation, AfterResponse, Inv, Answering, Silent, Completing;
    match a
    case Begin(sid, coins, now) => BeginStep(g, s, sid, coins, now);
    case DeliverInitiation(n, sidR, coins, now, instant) =>
      InvParts(g, s);
      InitiationShape(g, s, n, sidR, coins, now, instant);
      var s' := AfterInitiation(g, s, n, sidR, coins, now, instant);
      if Silent(s, s', n) {
        SilentStep(g, s, s', n);
      } else {
        AnsweringStep(g, s, s', n, s'.replies[|s.replies|]);
      }
    case DeliverResponse(k, now) =>
      ResponseShape(g, s, k, now);
      var s' := AfterResponse(g, s, k, now);
      if s' != s {
        CompletingStep(g, s, s', k);
      }
    case Forget => ForgetStep(g, s);
  }

  lemma InvParts(g: Config, s: State)
    requires Inv(g, s)
    ensures InitsOk(g, s) && InSync(g, s)
  {
  }

  lemma InitialInv(g: Config)
    requires Lawful(g.c)
    ensures Inv(g, Initial(g))
  {
    PeersMirror(g.c, g.a, g.b, g.psk);
    RootsAgree(g.c, g.c.tag(RootRk), AtA(g).ownPkHash, AtA(g).pkHash, g.psk);
    RootsAgree(g.c, g.c.tag(RootKRi), AtA(g).ownPkHash, AtA(g).pkHash, g.psk);
  }

  lemma {:induction false} RunInv(g: Config, s: State, actions: seq<Action>)
    requires Lawful(g.c) && Inv(g, s) && IsRun(g, s, actions)
    ensures Inv(g, Outcome(g, s, actions))
    decreases |actions|
  {
    hide Inv, Apply;
    if actions != [] {
      StepInv(g, s, actions[0]);
      RunInv(g, Apply(g, s, actions[0]), actions[1..]);
    }
  }

  // ------------------------------------------------------------- main results

  /** The initiator's epoch, roots and ratchet key are those of one slot of the responder. */
  predicate Agree(c: Suite, i: Ratchet, slot: Slot) {
    && i.rk == slot.rk && i.kRi == slot.kRi
    && (i.remotePub.Some? ==>
          && i.remoteKid.Some? && slot.localKid == i.remoteKid
          && slot.localSecret.Some? && c.kemPub(slot.localSecret.value) == i.remotePub.value)
  }

  /**
   * In every run, whatever is lost, duplicated or reordered, the initiator agrees with the
   * responder's committed slot or with its pending one, at most one epoch apart; and neither its
   * next initiation nor any initiation still to be accepted is refused for mode, epoch or kid.
   */
  lemma {:induction false} NeverDesynchronised(g: Config, actions: seq<Action>)
    requires Lawful(g.c) && IsRun(g, Initial(g), actions)
    ensures var s := Outcome(g, Initial(g), actions);
            var slot := SlotAt(s.r.ratchet, s.i.ratchet.epoch);
            && slot.Some? && Agree(g.c, s.i.ratchet, slot.value)
            && (s.i.ratchet.epoch == s.r.ratchet.epoch || s.i.ratchet.epoch == s.r.ratchet.epoch + 1)
            && NotRefused(s.r.ratchet, Snapshot(s.i))
            && (forall n :: s.r.kRecv <= n < |s.inits| ==> NotRefused(s.r.ratchet, s.inits[n].x.snap))
  {
    hide Inv;
    InitialInv(g);
    RunInv(g, Initial(g), actions);
    InvInSync(g, Outcome(g, Initial(g), actions));
  }

  predicate NotRefused(r: Ratchet, snap: InitiationRatchet) {
    ResponseSnapshot(r, snap.mode, snap.epoch, snap.remoteKid).Ok?
  }

  lemma InvInSync(g: Config, s: State)
    requires Inv(g, s)
    ensures var slot := SlotAt(s.r.ratchet, s.i.ratchet.epoch);
            && slot.Some? && Agree(g.c, s.i.ratchet, slot.value)
            && (s.i.ratchet.epoch == s.r.ratchet.epoch || s.i.ratchet.epoch == s.r.ratchet.epoch + 1)
    ensures NotRefused(s.r.ratchet, Snapshot(s.i))
    ensures forall n :: s.r.kRecv <= n < |s.inits| ==> NotRefused(s.r.ratchet, s.inits[n].x.snap)
  {
    hide ReplyOk, InitOk, Mirrored;
    SnapshotIs(s.i);
    SynchronisedIsAnswered(g.c.kemPub, Snapshot(s.i), s.r.ratchet);
    forall n | s.r.kRecv <= n < |s.inits| ensures NotRefused(s.r.ratchet, s.inits[n].x.snap) {
      SynchronisedIsAnswered(g.c.kemPub, s.inits[n].x.snap, s.r.ratchet);
    }
  }

  /**
   * In every run the keys the initiator accepts mirror those the responder made for the same
   * initiation, and no initiation yields keys twice.
   */
  lemma {:induction false} AcceptedKeysMirror(g: Config, actions: seq<Action>)
    requires Lawful(g.c) && IsRun(g, Initial(g), actions)
    ensures AcceptsOk(Outcome(g, Initial(g), actions))
  {
    hide AcceptsOk, InitsOk, RepliesOk, InSync;
    InitialInv(g);
    RunInv(g, Initial(g), actions);
  }

  /**
   * After every run the next honest exchange succeeds, given clocks within the skew, time since
   * the last initiation, and no zero shared secret: nothing the network does wedges the pair.
   */
  lemma {:induction false} NextExchangeSucceeds(g: Config, actions: seq<Action>, sid: Sid, coins: InitiatorCoins,
                                                tsI: u64,
                             sidR: Sid, coinsR: ResponderCoins, nowR: u64, instant: nat, nowI: nat)
    requires Lawful(g.c) && IsRun(g, Initial(g), actions)
    requires var s := Outcome(g, Initial(g), actions);
             && s.i.kSend + 1 < COUNTERS && s.i.ratchet.epoch + 1 < TWO_64
             && (s.r.lastConsumption.Some? ==> instant >= s.r.lastConsumption.value + TIME_BETWEEN_INITIATIONS)
    requires 1 <= coins.delta < RP.RANGE && 1 <= coinsR.delta < RP.RANGE
    requires RP.Skew(nowR, tsI) <= RP.MAX_SKEW && RP.Skew(nowI, nowR) <= RP.MAX_SKEW
    requires NoZeroSecret(g, coins, coinsR)
    ensures var s := Outcome(g, Initial(g), actions);
            ExchangeSucceeds(g, s.i, s.r, sid, coins, tsI, sidR, coinsR, nowR, instant, nowI)
  {
    hide Inv, ExchangeSucceeds, Synchronised, NoZeroSecret;
    InitialInv(g);
    RunInv(g, Initial(g), actions);
    var s := Outcome(g, Initial(g), actions);
    InvCounters(g, s);
    HonestExchange(g, s.i, s.r, sid, coins, tsI, sidR, coinsR, nowR, instant, nowI);
  }

  lemma InvCounters(g: Config, s: State)
    requires Inv(g, s)
    ensures s.r.kRecv <= s.i.kSend && Synchronised(g.c.kemPub, Snapshot(s.i), s.r.ratchet)
  {
  }
}
