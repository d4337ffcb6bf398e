/**
 * The ratchet state of a peer (src/wireguard_hybrid_new/handshake/peer.rs): one committed
 * epoch, and on the responder one pending epoch. The functions on `Ratchet` are the
 * reference; the class updates its fields as the source does.
 */
module Ratchets {
  import opened Base
  import opened Codec

  const MODE_BOOTSTRAP: nat := 0
  const MODE_RATCHET: nat := 1
  const MODE_RESYNC: nat := 2

  datatype InitiationRatchet = InitiationRatchet(
    mode: nat, epoch: u64, rk: Hash, kRi: Hash, remoteKid: Kid, remotePub: Option<RatchetPub>)

  datatype SlotKind = Current | Pending

  datatype ResponseRatchet = ResponseRatchet(
    slot: SlotKind, mode: nat, epoch: u64, rk: Hash, kRi: Hash,
    localKid: Option<Kid>, localSecret: Option<Bytes>)

  datatype PendingRatchet = PendingRatchet(epoch: u64, rk: Hash, kRi: Hash, localKid: Kid, localSecret: Bytes)

  datatype Ratchet = Ratchet(
    epoch: u64, rk: Hash, kRi: Hash,
    remoteKid: Option<Kid>, remotePub: Option<RatchetPub>,
    localKid: Option<Kid>, localSecret: Option<Bytes>,
    pending: Option<PendingRatchet>)

  const ZERO_KID: Kid := Zeros(SIZE_KID)

  function Start(rk: Hash, kRi: Hash): Ratchet {
    Ratchet(0, rk, kRi, None, None, None, None, None)
  }

  function InitiationSnapshot(r: Ratchet): InitiationRatchet {
    if r.remoteKid.Some? && r.remotePub.Some? then
      InitiationRatchet(MODE_RATCHET, r.epoch, r.rk, r.kRi, r.remoteKid.value, r.remotePub)
    else
      InitiationRatchet(if r.epoch == 0 then MODE_BOOTSTRAP else MODE_RESYNC, r.epoch, r.rk, r.kRi, ZERO_KID, None)
  }

  function OfPending(mode: nat, p: PendingRatchet): ResponseRatchet {
    ResponseRatchet(Pending, mode, p.epoch, p.rk, p.kRi, Some(p.localKid), Some(p.localSecret))
  }

  function ResponseSnapshot(r: Ratchet, mode: nat, epoch: u64, kid: Kid): Result<ResponseRatchet, HandshakeError> {
    if mode == MODE_BOOTSTRAP then
      if epoch != 0 || r.epoch != 0 then Err(InvalidEpoch)
      else Ok(ResponseRatchet(Current, mode, epoch, r.rk, r.kRi, None, None))
    else if mode == MODE_RESYNC then
      if epoch == r.epoch then Ok(ResponseRatchet(Current, mode, epoch, r.rk, r.kRi, None, None))
      else if r.pending.None? || epoch != r.pending.value.epoch then Err(InvalidEpoch)
      else Ok(OfPending(mode, r.pending.value))
    else if mode == MODE_RATCHET then
      if epoch == r.epoch then
        if r.localKid.None? || r.localKid.value != kid then Err(InvalidRatchetKid)
        else Ok(ResponseRatchet(Current, mode, epoch, r.rk, r.kRi, r.localKid, r.localSecret))
      else if r.pending.None? || epoch != r.pending.value.epoch then Err(InvalidEpoch)
      else if r.pending.value.localKid != kid then Err(InvalidRatchetKid)
      else Ok(OfPending(mode, r.pending.value))
    else Err(InvalidMode)
  }

  function Commit(r: Ratchet, epoch: u64, pub: RatchetPub, kid: Kid, rk: Hash, kRi: Hash): Ratchet {
    r.(epoch := epoch, rk := rk, kRi := kRi, remotePub := Some(pub), remoteKid := Some(kid))
  }

  /** Accepting an initiation at the pending epoch commits that epoch first. */
  function Stage(r: Ratchet, accepted: ResponseRatchet, next: PendingRatchet): Ratchet {
    var r1 :=
      if accepted.slot.Pending? then
        r.(epoch := accepted.epoch, rk := accepted.rk, kRi := accepted.kRi,
           localKid := accepted.localKid, localSecret := accepted.localSecret)
      else r;
    r1.(pending := Some(next))
  }

  // ----------------------------------------------------- initiator and responder

  /** The slot of the responder that an epoch names. */
  function SlotAt(r: Ratchet, epoch: u64): Option<Slot> {
    if epoch == r.epoch then Some(Slot(Current, r.rk, r.kRi, r.localKid, r.localSecret))
    else if r.pending.Some? && epoch == r.pending.value.epoch then
      var p := r.pending.value;
      Some(Slot(Pending, p.rk, p.kRi, Some(p.localKid), Some(p.localSecret)))
    else None
  }

  datatype Slot = Slot(
    kind: SlotKind, rk: Hash, kRi: Hash, localKid: Option<Kid>, localSecret: Option<Bytes>)

  /**
   * The initiation `i` and the responder's slot for its epoch carry the same roots, and in
   * ratchet mode the slot holds the secret key of the public key that `i` encapsulates to.
   */
  predicate Synchronised(pubOf: Bytes -> RatchetPub, i: InitiationRatchet, r: Ratchet) {
    var slot := SlotAt(r, i.epoch);
    && slot.Some? && slot.value.rk == i.rk && slot.value.kRi == i.kRi
    && (i.mode == MODE_BOOTSTRAP ==> i.epoch == 0 && i.remotePub.None? && r.epoch == 0)
    && (i.mode == MODE_RESYNC ==> i.remotePub.None?)
    && (i.mode == MODE_RATCHET ==>
          && i.remotePub.Some?
          && slot.value.localKid == Some(i.remoteKid)
          && slot.value.localSecret.Some? && pubOf(slot.value.localSecret.value) == i.remotePub.value)
    && i.mode <= MODE_RESYNC
  }

  /**
   * A synchronised initiation is never refused for mode, epoch or kid, and the snapshot that
   * answers it carries the initiator's roots and the matching ratchet secret.
   */
  lemma SynchronisedIsAnswered(pubOf: Bytes -> RatchetPub, i: InitiationRatchet, r: Ratchet)
    requires Synchronised(pubOf, i, r)
    ensures var answer := ResponseSnapshot(r, i.mode, i.epoch, i.remoteKid);
            && answer.Ok?
            && answer.value.slot == SlotAt(r, i.epoch).value.kind
            && answer.value.mode == i.mode && answer.value.epoch == i.epoch
            && answer.value.rk == i.rk && answer.value.kRi == i.kRi
            && i.mode <= MODE_RESYNC && (i.mode == MODE_RATCHET <==> i.remotePub.Some?)
            && (i.mode == MODE_RATCHET ==>
                  answer.value.localSecret.Some? && pubOf(answer.value.localSecret.value) == i.remotePub.value)
  {
  }

  /**
   * An initiation is refused exactly if no slot has its epoch, a bootstrap is past epoch zero, its
   * ratchet key is not the one of the slot, or its mode is unknown; else that slot answers it.
   */
  lemma AnsweredExactly(r: Ratchet, mode: nat, epoch: u64, kid: Kid)
    ensures var slot := SlotAt(r, epoch);
            var badEpoch := slot.None? || (mode == MODE_BOOTSTRAP && (epoch != 0 || r.epoch != 0));
            ResponseSnapshot(r, mode, epoch, kid) ==
              if mode > 2 then Err(InvalidMode)
              else if badEpoch then Err(InvalidEpoch)
              else if mode == 1 && slot.value.localKid != Some(kid) then Err(InvalidRatchetKid)
              else Ok(ResponseRatchet(slot.value.kind, mode, epoch, slot.value.rk, slot.value.kRi,
                                      if mode == 1 || slot.value.kind.Pending? then slot.value.localKid else None,
                                      if mode == 1 || slot.value.kind.Pending? then slot.value.localSecret else None))
  {
  }

  /** An initiator ratchets exactly if it knows a key of the other side, and bootstraps only at epoch zero. */
  lemma InitiatedExactly(r: Ratchet)
    ensures var i := InitiationSnapshot(r);
            && i.epoch == r.epoch && i.rk == r.rk && i.kRi == r.kRi
            && (i.mode == 1 <==> r.remoteKid.Some? && r.remotePub.Some?)
            && (i.mode == 1 ==> i.remotePub == r.remotePub && Some(i.remoteKid) == r.remoteKid)
            && (i.mode != 1 ==> i.remotePub.None? && i.mode == if r.epoch == 0 then 0 else 2)
            && (i.mode != 1 ==> forall k :: 0 <= k < 16 ==> i.remoteKid[k] == 0)
  {
    ZerosAreZero(SIZE_KID);
  }

  lemma {:induction false} ZerosAreZero(n: nat)
    ensures forall k :: 0 <= k < n ==> Zeros(n)[k] == 0
  {
    if n > 0 { ZerosAreZero(n - 1); }
  }

  /**
   * Staging after an accepted initiation `j` moves the accepted slot to the committed one and
   * leaves every initiation `i` of the same epoch synchronised with it.
   */
  lemma StageKeepsSynchronised(pubOf: Bytes -> RatchetPub, i: InitiationRatchet, j: InitiationRatchet, r: Ratchet,
                               accepted: ResponseRatchet, next: PendingRatchet)
    requires Synchronised(pubOf, i, r) && Synchronised(pubOf, j, r) && i.epoch == j.epoch
    requires ResponseSnapshot(r, j.mode, j.epoch, j.remoteKid) == Ok(accepted)
    ensures Stage(r, accepted, next).epoch == i.epoch
    ensures Synchronised(pubOf, i, Stage(r, accepted, next))
  {
  }

  // -------------------------------------------------------------------- class

  class RatchetState {
    var epoch: u64
    var rk: Hash
    var kRi: Hash
    var remoteKid: Option<Kid>
    var remotePub: Option<RatchetPub>
    var localKid: Option<Kid>
    var localSecret: Option<Bytes>
    var pending: Option<PendingRatchet>

    function View(): Ratchet
      reads this
    {
      Ratchet.Ratchet(epoch, rk, kRi, remoteKid, remotePub, localKid, localSecret, pending)
    }

    constructor (rk: Hash, kRi: Hash)
      ensures View() == Start(rk, kRi)
    {
      this.epoch, this.rk, this.kRi := 0, rk, kRi;
      remoteKid, remotePub, localKid, localSecret, pending := None, None, None, None, None;
    }

    /** `set_psk`: back to epoch zero under new roots. */
    method Reset(rk: Hash, kRi: Hash)
      modifies this
      ensures View() == Start(rk, kRi)
    {
      localSecret := None;
      pending := None;
      this.epoch, this.rk, this.kRi := 0, rk, kRi;
      remoteKid, remotePub, localKid := None, None, None;
    }

    method CommitInitiator(nextEpoch: u64, nextPub: RatchetPub, nextKid: Kid, nextRk: Hash, nextKRi: Hash)
      modifies this
      ensures View() == Commit(old(View()), nextEpoch, nextPub, nextKid, nextRk, nextKRi)
    {
      epoch := nextEpoch;
      rk := nextRk;
      kRi := nextKRi;
      remotePub := Some(nextPub);
      remoteKid := Some(nextKid);
    }

    method StageResponder(accepted: ResponseRatchet, nextEpoch: u64, nextSecret: Bytes, nextKid: Kid,
                          nextRk: Hash, nextKRi: Hash)
      modifies this
      ensures View() == Stage(old(View()), accepted,
                              PendingRatchet(nextEpoch, nextRk, nextKRi, nextKid, nextSecret))
    {
      if accepted.slot.Pending? {
        epoch := accepted.epoch;
        rk := accepted.rk;
        kRi := accepted.kRi;
        localKid := accepted.localKid;
        localSecret := accepted.localSecret;
        pending := None;
      }
      pending := Some(PendingRatchet(nextEpoch, nextRk, nextKRi, nextKid, nextSecret));
    }
  }
}
