/**
 * The key wheel of a router peer (src/wireguard/router/peer.rs): three key slots, the
 * encryption key with its nonce counter, the receiver table and the retired ids.
 * Each function is one section of the code that runs under the peer's locks.
 */
module KeyWheel {
  import opened Base

  const REJECT_AFTER_MESSAGES: nat := TWO_64 - 1 - 16

  datatype Key = Key(key: seq<byte>, id: u32)

  /** `uid` is the identity of the allocation: key pairs are compared by pointer. */
  datatype KeyPair = KeyPair(uid: nat, initiator: bool, send: Key, recv: Key)

  datatype EncryptionState = EncryptionState(keypair: KeyPair, nonce: u64)

  datatype Keys = Keys(
    next: Option<KeyPair>,
    current: Option<KeyPair>,
    previous: Option<KeyPair>,
    retired: seq<u32>,
    encKey: Option<EncryptionState>,
    recv: map<u32, KeyPair>,          // receiver id -> decryption state of that key pair
    // history
    made: nat,                        // key pairs allocated so far
    installs: seq<nat>,               // key pairs put to use for encryption
    used: seq<(nat, nat)>)            // (key pair, nonce) of every send job

  const INITIAL := Keys(None, None, None, [], None, map[], 0, [], [])

  function Install(k: Keys, kp: KeyPair): Keys {
    k.(encKey := Some(EncryptionState(kp, 0)), installs := k.installs + [kp.uid])
  }

  function IdOf(k: Option<KeyPair>): seq<u32> {
    if k.Some? then [k.value.recv.id] else []
  }

  /** The slot that `add_keypair` moves to `previous`. */
  function Displaced(k: Keys, initiator: bool): Option<KeyPair> {
    if initiator then k.current else k.next
  }

  function RecvWithout(k: Keys, slot: Option<KeyPair>): map<u32, KeyPair> {
    if slot.Some? then k.recv - {slot.value.recv.id} else k.recv
  }

  /** The code's debug assertion: the new receiver id is not in the table. */
  predicate FreshId(k: Keys, initiator: bool, id: u32) {
    id !in RecvWithout(k, Displaced(k, initiator))
  }

  function Add(k: Keys, initiator: bool, send: Key, recv: Key): (Keys, seq<u32>) {
    var made := KeyPair(k.made, initiator, send, recv);
    var displaced := Displaced(k, initiator);
    var table := RecvWithout(k, displaced)[recv.id := made];
    var k1 := if initiator then Install(k, made).(current := Some(made)) else k.(next := Some(made));
    (k1.(previous := displaced, retired := [], recv := table, made := k.made + 1), k.retired + IdOf(displaced))
  }

  /** Called with the key pair of the decryption state that accepted a message. */
  function Confirm(k: Keys, kp: KeyPair): Keys {
    if k.next.Some? && k.next.value.uid == kp.uid then
      Install(k, k.next.value).(next := None, current := k.next, previous := k.current)
    else
      k
  }

  function Zero(k: Keys): Keys {
    var release := IdOf(k.next) + IdOf(k.current) + IdOf(k.previous);
    k.(next := None, current := None, previous := None, retired := k.retired + release,
       recv := k.recv - (set id | id in release), encKey := None)
  }

  datatype Taken = NoKey | Expired | Full | Nonce(keypair: KeyPair, nonce: u64)

  /** The part of `send` under the encryption key's lock; `room`: the outbound queue accepts. */
  function TakeNonce(k: Keys, room: bool): (Keys, Taken) {
    match k.encKey
    case None => (k, NoKey)
    case Some(e) =>
      if e.nonce >= REJECT_AFTER_MESSAGES - 1 then
        (k.(encKey := None), Expired)
      else if room then
        (k.(encKey := Some(e.(nonce := e.nonce + 1)), used := k.used + [(e.keypair.uid, e.nonce)]),
         Nonce(e.keypair, e.nonce))
      else
        (k, Full)
  }

  // --------------------------------------------------------------- invariants

  predicate Mapped(k: Keys, slot: Option<KeyPair>) {
    slot.Some? ==> slot.value.recv.id in k.recv && k.recv[slot.value.recv.id] == slot.value
  }

  predicate Allocated(k: Keys, slot: Option<KeyPair>) {
    slot.Some? ==> slot.value.uid < k.made
  }

  /** An installed encryption key is the current one. */
  predicate Slots(k: Keys) {
    && Allocated(k, k.next) && Allocated(k, k.current)
    && (k.encKey.Some? ==> k.current == Some(k.encKey.value.keypair))
  }

  ghost predicate Installed(k: Keys) {
    && Distinct(k.installs)
    && (forall u :: u in k.installs ==> u < k.made)
    && (k.next.Some? ==> k.next.value.uid !in k.installs)
    && (k.current.Some? ==> k.current.value.uid in k.installs)
  }

  ghost predicate Nonces(k: Keys) {
    && (k.encKey.Some? ==> k.encKey.value.nonce <= REJECT_AFTER_MESSAGES - 1)
    && (forall i :: 0 <= i < |k.used| ==> k.used[i].0 in k.installs && k.used[i].1 < REJECT_AFTER_MESSAGES - 1)
    && (forall i :: 0 <= i < |k.used| && k.encKey.Some? && k.used[i].0 == k.encKey.value.keypair.uid ==>
          k.used[i].1 < k.encKey.value.nonce)
    && (forall i, j :: 0 <= i < j < |k.used| && k.used[i].0 == k.used[j].0 ==> k.used[i].1 < k.used[j].1)
  }

  /** `zero_keys` empties the wheel; only an empty wheel has retired ids. */
  predicate Retirement(k: Keys) {
    && |k.retired| <= 3
    && (k.retired != [] ==> k.next.None? && k.current.None? && k.previous.None?)
  }

  /** What holds whatever receiver ids the new key pairs come with. */
  ghost predicate Inv(k: Keys) {
    Slots(k) && Installed(k) && Nonces(k) && Retirement(k)
  }

  datatype Action =
    | AddKeypair(initiator: bool, send: Key, recv: Key)
    | ConfirmKey(keypair: KeyPair)
    | ZeroKeys
    | Send(room: bool)

  function Apply(k: Keys, a: Action): Keys {
    match a
    case AddKeypair(initiator, send, recv) => Add(k, initiator, send, recv).0
    case ConfirmKey(kp) => Confirm(k, kp)
    case ZeroKeys => Zero(k)
    case Send(room) => TakeNonce(k, room).0
  }

  lemma AddInv(k: Keys, initiator: bool, send: Key, recv: Key)
    requires Inv(k)
    ensures Inv(Add(k, initiator, send, recv).0)
    ensures |Add(k, initiator, send, recv).1| <= 3
  {
    assert k.made !in k.installs;
    assert forall i :: 0 <= i < |k.used| ==> k.used[i].0 < k.made;
  }

  lemma StepInv(k: Keys, a: Action)
    requires Inv(k)
    ensures Inv(Apply(k, a))
  {
    match a
    case AddKeypair(initiator, send, recv) => AddInv(k, initiator, send, recv);
    case ConfirmKey(kp) => assert forall i :: 0 <= i < |k.used| ==> k.used[i].0 in k.installs;
    case ZeroKeys =>
    case Send(room) =>
  }

  // ------------------------------------------------------- the receiver table

  /** `next` and `current` are mapped, under their own ids, to their own decryption states. */
  predicate TableOk(k: Keys) {
    Mapped(k, k.next) && Mapped(k, k.current)
  }

  /** The slot that `add_keypair` leaves in place. */
  function Kept(k: Keys, initiator: bool): Option<KeyPair> {
    if initiator then k.next else k.current
  }

  /** A new receiver id is not that of the slot that stays. */
  predicate IdApart(k: Keys, a: Action) {
    a.AddKeypair? ==>
      var kept := Kept(k, a.initiator); kept.Some? ==> kept.value.recv.id != a.recv.id
  }

  /** One step keeps the table right exactly if a new id is not that of the slot that stays. */
  lemma TableStep(k: Keys, a: Action)
    requires Inv(k) && TableOk(k)
    ensures TableOk(Apply(k, a)) <==> IdApart(k, a)
  {
  }

  /** The code's debug assertion is sufficient, though more than is needed. */
  lemma FreshIsApart(k: Keys, initiator: bool, send: Key, recv: Key)
    requires Inv(k) && TableOk(k) && FreshId(k, initiator, recv.id)
    ensures IdApart(k, AddKeypair(initiator, send, recv))
  {
    if k.next.Some? && k.current.Some? {
      assert k.next.value.uid != k.current.value.uid;
    }
  }

  // ---------------------------------------------------------------- every run

  /** The state after any calls whatever. */
  function After(acts: seq<Action>): Keys {
    if acts == [] then INITIAL else Apply(After(acts[..|acts| - 1]), acts[|acts| - 1])
  }

  lemma {:induction false} RunInv(acts: seq<Action>)
    ensures Inv(After(acts))
  {
    if acts != [] {
      RunInv(acts[..|acts| - 1]);
      StepInv(After(acts[..|acts| - 1]), acts[|acts| - 1]);
    }
  }

  /**
   * Each key pair is installed for encryption at most once; no two send jobs share a
   * (key pair, nonce), the nonces of a key pair rise, and all stay below the reject limit.
   */
  lemma {:induction false} NoncesAreUnique(acts: seq<Action>)
    ensures Distinct(After(acts).installs)
    ensures Distinct(After(acts).used)
    ensures var k := After(acts);
            forall i, j :: 0 <= i < j < |k.used| && k.used[i].0 == k.used[j].0 ==> k.used[i].1 < k.used[j].1
    ensures var k := After(acts); forall i :: 0 <= i < |k.used| ==> k.used[i].1 < REJECT_AFTER_MESSAGES - 1
  {
    RunInv(acts);
  }

  /** Every new id of the run is apart from the slot that stays. */
  predicate IdsApart(acts: seq<Action>) {
    acts == [] || (IdsApart(acts[..|acts| - 1]) && IdApart(After(acts[..|acts| - 1]), acts[|acts| - 1]))
  }

  /** The table is right after every call of the run. */
  predicate TableAlwaysOk(acts: seq<Action>) {
    TableOk(After(acts)) && (acts == [] || TableAlwaysOk(acts[..|acts| - 1]))
  }

  /**
   * In every run an installed encryption key is exactly `current`; and `next` and `current` are
   * mapped, under their own ids, to their own decryption states throughout, exactly if no new
   * key pair comes with the id of the slot that stays.
   */
  lemma {:induction false} WheelAndTableAgree(acts: seq<Action>)
    ensures var k := After(acts); k.encKey.Some? ==> k.current == Some(k.encKey.value.keypair)
    ensures TableAlwaysOk(acts) <==> IdsApart(acts)
  {
    RunInv(acts);
    if acts != [] {
      var before := acts[..|acts| - 1];
      WheelAndTableAgree(before);
      RunInv(before);
      if TableAlwaysOk(before) {
        TableStep(After(before), acts[|acts| - 1]);
      }
    }
  }

  /** An id that comes twice: the current key is no longer the one that its id leads to. */
  lemma ReusedIdLosesKey(send: Key, recv: Key)
    ensures var k := After([AddKeypair(true, send, recv), AddKeypair(false, send, recv)]);
            k.current.Some? && k.encKey.Some? && !Mapped(k, k.current)
  {
    var acts := [AddKeypair(true, send, recv), AddKeypair(false, send, recv)];
    assert acts[..1] == [acts[0]] && [acts[0]][..0] == [];
    assert After([acts[0]]) == Apply(INITIAL, acts[0]);
    assert After(acts) == Apply(Apply(INITIAL, acts[0]), acts[1]);
  }

  /** `add_keypair` hands back at most three ids, however often the keys were zeroed. */
  lemma {:induction false} AtMostThreeReleased(acts: seq<Action>, initiator: bool, send: Key, recv: Key)
    ensures |Add(After(acts), initiator, send, recv).1| <= 3
    ensures var k := After(acts); k.retired != [] ==> k.next.None? && k.current.None? && k.previous.None?
  {
    RunInv(acts);
  }
}
