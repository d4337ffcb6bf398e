/** Small shared vocabulary: optional values, results, machine integers. */
module Base {
  const TWO_64: nat := 0x1_0000_0000_0000_0000
  const TWO_32: nat := 0x1_0000_0000

  const MAX_QUEUED_PACKETS: nat := 1024
  const PARALLEL_QUEUE_SIZE: nat := 4 * MAX_QUEUED_PACKETS
  const INORDER_QUEUE_SIZE: nat := MAX_QUEUED_PACKETS

  /** Times are in nanoseconds unless a module says otherwise. */
  const SECOND: nat := 1_000_000_000

  type u64 = x: nat | x < 0x1_0000_0000_0000_0000
  type u32 = x: nat | x < 0x1_0000_0000
  type byte = x: nat | x < 256

  datatype Option<+T> = None | Some(value: T)

  datatype Result<+T, +E> = Ok(value: T) | Err(error: E)

  /** The handshake errors that the model can return. */
  datatype HandshakeError =
    | InvalidEpoch | InvalidRatchetKid | InvalidMode | RatchetStateMissing
    | InvalidSharedSecret | DecryptionFailure | InvalidMessageFormat | UnknownPublicKey
    | UnknownReceiverId | InvalidTi | InvalidTr | InvalidConfirm | InvalidState
    | OldTimestamp | InitiationFlood

  /** The address of a sender, without its port. */
  datatype IpAddr = V4(octets: seq<byte>) | V6(octets: seq<byte>)

  /** The time since an instant; a clock that stands behind it counts as zero. */
  function Elapsed(now: nat, since: nat): nat {
    if since <= now then now - since else 0
  }

  function Max(a: nat, b: nat): nat {
    if a < b then b else a
  }

  function Min(a: nat, b: nat): nat {
    if a < b then a else b
  }

  /** No element occurs twice. */
  ghost predicate Distinct<T>(s: seq<T>) {
    forall i, j :: 0 <= i < j < |s| ==> s[i] != s[j]
  }
}
