/**
 * The fixed-layout plaintexts of the v2.3 handshake
 * (src/wireguard_hybrid_new/handshake/noise.rs) and the transport header of the router.
 */
module Codec {
  import opened Base

  type Bytes = seq<byte>
  type u16 = x: nat | x < 0x1_0000

  const SIZE_HASH: nat := 32
  const SIZE_KID: nat := 16
  const SIZE_RATCHET_KEM_PUB_KEY: nat := 800
  const SIZE_RI_PROOF: nat := 32
  const SIZE_IDENTITY_PLAIN: nat := SIZE_HASH + SIZE_RI_PROOF + 4 + 4
  const SIZE_CONFIRM_PLAIN: nat := 8 + SIZE_RI_PROOF + SIZE_RATCHET_KEM_PUB_KEY + SIZE_KID + 4 + 4
  const PROTOCOL_VERSION_V2_3: nat := 0x0002_0003

  type Hash = b: Bytes | |b| == SIZE_HASH witness seq(SIZE_HASH, _ => 0)
  type Kid = b: Bytes | |b| == SIZE_KID witness seq(SIZE_KID, _ => 0)
  type RatchetPub = b: Bytes | |b| == SIZE_RATCHET_KEM_PUB_KEY witness seq(SIZE_RATCHET_KEM_PUB_KEY, _ => 0)
  type Reserved = b: Bytes | |b| == 6 witness [0, 0, 0, 0, 0, 0]

  datatype RiProof = RiProof(f: u64, a: u64, delta: u16, ts: u64, reserved: Reserved)

  function Zeros(n: nat): (b: Bytes)
    ensures |b| == n
  {
    if n == 0 then [] else [0] + Zeros(n - 1)
  }

  // ------------------------------------------------------ little-endian words

  function Pow256(n: nat): (p: nat)
    ensures p > 0
  {
    if n == 0 then 1 else 256 * Pow256(n - 1)
  }

  /** The low `width` bytes of `x`, least significant first. */
  function Le(x: nat, width: nat): (b: Bytes)
    ensures |b| == width
  {
    if width == 0 then [] else [x % 256] + Le(x / 256, width - 1)
  }

  function LeNat(b: Bytes): (x: nat)
    ensures x < Pow256(|b|)
  {
    if b == [] then 0 else b[0] + 256 * LeNat(b[1..])
  }

  lemma {:induction false} LeRoundTrip(x: nat, width: nat)
    requires x < Pow256(width)
    ensures LeNat(Le(x, width)) == x
  {
    if width > 0 {
      LeRoundTrip(x / 256, width - 1);
      assert Le(x, width)[1..] == Le(x / 256, width - 1);
    }
  }

  lemma DigitSplit(digit: byte, rest: nat)
    ensures (digit + 256 * rest) % 256 == digit && (digit + 256 * rest) / 256 == rest
  {
  }

  lemma {:induction false} LeNatRoundTrip(b: Bytes)
    ensures Le(LeNat(b), |b|) == b
  {
    if b != [] {
      LeNatRoundTrip(b[1..]);
      DigitSplit(b[0], LeNat(b[1..]));
    }
  }

  /** The low `width` bytes of `x`, most significant first. */
  function Be(x: nat, width: nat): (b: Bytes)
    ensures |b| == width
  {
    if width == 0 then [] else Be(x / 256, width - 1) + [x % 256]
  }

  function BeNat(b: Bytes): nat {
    if b == [] then 0 else 256 * BeNat(b[..|b| - 1]) + b[|b| - 1]
  }

  lemma {:induction false} BeRoundTrip(x: nat, width: nat)
    requires x < Pow256(width)
    ensures BeNat(Be(x, width)) == x
  {
    if width > 0 {
      BeRoundTrip(x / 256, width - 1);
      assert Be(x, width)[..width - 1] == Be(x / 256, width - 1);
    }
  }

  /** Byte `i` of the little-endian form is digit `i`, of the big-endian form the one counted from the end. */
  lemma {:induction false} LeDigits(x: nat, width: nat, i: nat)
    requires i < width
    ensures Le(x, width)[i] == x / Pow256(i) % 256
  {
    if i > 0 {
      LeDigits(x / 256, width - 1, i - 1);
      DivTwice(x, Pow256(i - 1));
    }
  }

  lemma DivTwice(x: nat, n: nat)
    requires n > 0
    ensures 256 * n > 0 && x / (256 * n) == x / 256 / n
  {
    var q := x / 256;
    var k, r, d := q / n, q % n, x % 256;
    assert q == k * n + r && x == 256 * q + d;
    var rest := 256 * r + d;
    assert rest < 256 * n;
    assert x == k * (256 * n) + rest by {
      assert 256 * (k * n) == k * (256 * n);
    }
    QuotientIs(x, 256 * n, k, rest);
  }

  lemma QuotientIs(x: nat, n: nat, k: nat, rest: nat)
    requires n > 0 && x == k * n + rest && rest < n
    ensures x / n == k
  {
    var q, r := x / n, x % n;
    assert x == q * n + r;
    if q < k {
      assert (k - q) * n == k * n - q * n;
      MulAtLeast(k - q, n);
    } else if q > k {
      assert (q - k) * n == q * n - k * n;
      MulAtLeast(q - k, n);
    }
  }

  lemma MulAtLeast(a: nat, n: nat)
    requires a >= 1
    ensures a * n >= n
  {
    assert a * n == (a - 1) * n + n;
  }

  lemma {:induction false} BeDigits(x: nat, width: nat, i: nat)
    requires i < width
    ensures Be(x, width)[i] == x / Pow256(width - 1 - i) % 256
  {
    if i < width - 1 {
      BeDigits(x / 256, width - 1, i);
      DivTwice(x, Pow256(width - 2 - i));
    }
  }

  lemma Widths()
    ensures Pow256(2) == 0x1_0000 && Pow256(4) == TWO_32 && Pow256(8) == TWO_64
  {
  }

  // ------------------------------------------------------------ the RI proof

  function PackRi(ri: RiProof): (b: Bytes)
    ensures |b| == SIZE_RI_PROOF
  {
    Le(ri.f, 8) + Le(ri.a, 8) + Le(ri.delta, 2) + Le(ri.ts, 8) + ri.reserved
  }

  function UnpackRi(b: Bytes): RiProof
    requires |b| == SIZE_RI_PROOF
  {
    Widths();
    RiProof(LeNat(b[..8]), LeNat(b[8..16]), LeNat(b[16..18]), LeNat(b[18..26]), b[26..32])
  }

  lemma RiSlices(f: Bytes, a: Bytes, delta: Bytes, ts: Bytes, reserved: Bytes)
    requires |f| == 8 && |a| == 8 && |delta| == 2 && |ts| == 8 && |reserved| == 6
    ensures var b := f + a + delta + ts + reserved;
            b[..8] == f && b[8..16] == a && b[16..18] == delta && b[18..26] == ts && b[26..32] == reserved
  {
  }

  lemma RiJoin(b: Bytes)
    requires |b| == SIZE_RI_PROOF
    ensures b == b[..8] + b[8..16] + b[16..18] + b[18..26] + b[26..32]
  {
  }

  lemma RiRoundTrip(ri: RiProof)
    ensures UnpackRi(PackRi(ri)) == ri
  {
    Widths();
    RiSlices(Le(ri.f, 8), Le(ri.a, 8), Le(ri.delta, 2), Le(ri.ts, 8), ri.reserved);
    LeRoundTrip(ri.f, 8);
    LeRoundTrip(ri.a, 8);
    LeRoundTrip(ri.delta, 2);
    LeRoundTrip(ri.ts, 8);
  }

  lemma RiBytesRoundTrip(b: Bytes)
    requires |b| == SIZE_RI_PROOF
    ensures PackRi(UnpackRi(b)) == b
  {
    var ri := UnpackRi(b);
    assert Le(ri.f, 8) == b[..8] by { LeNatRoundTrip(b[..8]); }
    assert Le(ri.a, 8) == b[8..16] by { LeNatRoundTrip(b[8..16]); }
    assert Le(ri.delta, 2) == b[16..18] by { LeNatRoundTrip(b[16..18]); }
    assert Le(ri.ts, 8) == b[18..26] by { LeNatRoundTrip(b[18..26]); }
    RiJoin(b);
  }

  // ------------------------------------------------------------ identity block

  function PackIdentity(pkHash: Hash, ri: RiProof): (b: Bytes)
    ensures |b| == SIZE_IDENTITY_PLAIN
  {
    pkHash + PackRi(ri) + Le(PROTOCOL_VERSION_V2_3, 4) + Le(0, 4)
  }

  function UnpackIdentity(b: Bytes): Result<(Hash, RiProof), HandshakeError>
    requires |b| == SIZE_IDENTITY_PLAIN
  {
    if LeNat(b[64..68]) != PROTOCOL_VERSION_V2_3 then Err(InvalidMessageFormat)
    else Ok((b[..32], UnpackRi(b[32..64])))
  }

  lemma IdentitySlices(pkHash: Bytes, ri: Bytes, version: Bytes, rest: Bytes)
    requires |pkHash| == 32 && |ri| == 32 && |version| == 4
    ensures var b := pkHash + ri + version + rest;
            b[..32] == pkHash && b[32..64] == ri && b[64..68] == version
  {
  }

  lemma IdentityRoundTrip(pkHash: Hash, ri: RiProof)
    ensures UnpackIdentity(PackIdentity(pkHash, ri)) == Ok((pkHash, ri))
  {
    Widths();
    IdentitySlices(pkHash, PackRi(ri), Le(PROTOCOL_VERSION_V2_3, 4), Le(0, 4));
    LeRoundTrip(PROTOCOL_VERSION_V2_3, 4);
    RiRoundTrip(ri);
  }

  lemma TailDecides(b: Bytes, n: nat)
    requires |b| == n + 4
    ensures b[..n] + Le(0, 4) == b <==> b[n..n + 4] == [0, 0, 0, 0]
  {
    assert Le(0, 4) == [0, 0, 0, 0];
    assert b == b[..n] + b[n..n + 4];
    assert (b[..n] + Le(0, 4))[n..n + 4] == Le(0, 4);
  }

  lemma IdentityJoin(b: Bytes)
    requires |b| == SIZE_IDENTITY_PLAIN
    ensures b[..68] == b[..32] + b[32..64] + b[64..68]
  {
  }

  /** What unpacks packs again to the same bytes, exactly if the four unread bytes are zero. */
  lemma IdentityBytesRoundTrip(b: Bytes)
    requires |b| == SIZE_IDENTITY_PLAIN && UnpackIdentity(b).Ok?
    ensures var (pkHash, ri) := UnpackIdentity(b).value;
            PackIdentity(pkHash, ri) == b <==> b[68..72] == [0, 0, 0, 0]
  {
    var (pkHash, ri) := UnpackIdentity(b).value;
    assert PackRi(ri) == b[32..64] by { RiBytesRoundTrip(b[32..64]); }
    assert Le(PROTOCOL_VERSION_V2_3, 4) == b[64..68] by { LeNatRoundTrip(b[64..68]); }
    IdentityJoin(b);
    assert PackIdentity(pkHash, ri) == b[..68] + Le(0, 4);
    TailDecides(b, 68);
  }

  // ------------------------------------------------------------- confirm block

  function PackConfirm(nextEpoch: u64, ri: RiProof, nextPub: RatchetPub, nextKid: Kid): (b: Bytes)
    ensures |b| == SIZE_CONFIRM_PLAIN
  {
    Le(nextEpoch, 8) + PackRi(ri) + nextPub + nextKid + Le(PROTOCOL_VERSION_V2_3, 4) + Le(0, 4)
  }

  function UnpackConfirm(b: Bytes): Result<(u64, RiProof, RatchetPub, Kid), HandshakeError>
    requires |b| == SIZE_CONFIRM_PLAIN
  {
    Widths();
    if LeNat(b[856..860]) != PROTOCOL_VERSION_V2_3 then Err(InvalidConfirm)
    else Ok((LeNat(b[..8]), UnpackRi(b[8..40]), b[40..840], b[840..856]))
  }

  lemma ConfirmSlices(e: Bytes, ri: Bytes, pub: Bytes, kid: Bytes, version: Bytes, rest: Bytes)
    requires |e| == 8 && |ri| == 32 && |pub| == 800 && |kid| == 16 && |version| == 4
    ensures var b := e + ri + pub + kid + version + rest;
            b[..8] == e && b[8..40] == ri && b[40..840] == pub && b[840..856] == kid && b[856..860] == version
  {
  }

  lemma ConfirmRoundTrip(nextEpoch: u64, ri: RiProof, nextPub: RatchetPub, nextKid: Kid)
    ensures UnpackConfirm(PackConfirm(nextEpoch, ri, nextPub, nextKid)) == Ok((nextEpoch, ri, nextPub, nextKid))
  {
    Widths();
    ConfirmSlices(Le(nextEpoch, 8), PackRi(ri), nextPub, nextKid, Le(PROTOCOL_VERSION_V2_3, 4), Le(0, 4));
    LeRoundTrip(nextEpoch, 8);
    LeRoundTrip(PROTOCOL_VERSION_V2_3, 4);
    RiRoundTrip(ri);
  }

  lemma ConfirmJoin(b: Bytes)
    requires |b| == SIZE_CONFIRM_PLAIN
    ensures b[..860] == b[..8] + b[8..40] + b[40..840] + b[840..856] + b[856..860]
  {
  }

  lemma ConfirmBytesRoundTrip(b: Bytes)
    requires |b| == SIZE_CONFIRM_PLAIN && UnpackConfirm(b).Ok?
    ensures var (nextEpoch, ri, nextPub, nextKid) := UnpackConfirm(b).value;
            PackConfirm(nextEpoch, ri, nextPub, nextKid) == b <==> b[860..864] == [0, 0, 0, 0]
  {
    var (nextEpoch, ri, nextPub, nextKid) := UnpackConfirm(b).value;
    assert Le(nextEpoch, 8) == b[..8] by { LeNatRoundTrip(b[..8]); }
    assert PackRi(ri) == b[8..40] by { RiBytesRoundTrip(b[8..40]); }
    assert Le(PROTOCOL_VERSION_V2_3, 4) == b[856..860] by { LeNatRoundTrip(b[856..860]); }
    ConfirmJoin(b);
    assert PackConfirm(nextEpoch, ri, nextPub, nextKid) == b[..860] + Le(0, 4);
    TailDecides(b, 860);
  }

  lemma RiLayout(ri: RiProof)
    ensures var b := PackRi(ri);
            && b[..8] == Le(ri.f, 8) && b[8..16] == Le(ri.a, 8) && b[16..18] == Le(ri.delta, 2)
            && b[18..26] == Le(ri.ts, 8) && b[26..32] == ri.reserved
  {
    RiSlices(Le(ri.f, 8), Le(ri.a, 8), Le(ri.delta, 2), Le(ri.ts, 8), ri.reserved);
  }

  lemma VersionBytes()
    ensures Le(PROTOCOL_VERSION_V2_3, 4) == [3, 0, 2, 0] && Le(0, 4) == [0, 0, 0, 0]
  {
    assert forall x: nat :: Le(x, 0) == [];
    assert PROTOCOL_VERSION_V2_3 % 256 == 3 && PROTOCOL_VERSION_V2_3 / 256 == 512;
    assert Le(2, 2) == [2] + Le(0, 1) && Le(512, 3) == [0] + Le(2, 2);
  }

  /** Where the two blocks have what. */
  lemma IdentityLayout(pkHash: Hash, ri: RiProof)
    ensures var b := PackIdentity(pkHash, ri);
            && b[..32] == pkHash
            && b[32..40] == Le(ri.f, 8) && b[40..48] == Le(ri.a, 8) && b[48..50] == Le(ri.delta, 2)
            && b[50..58] == Le(ri.ts, 8) && b[58..64] == ri.reserved && b[64..72] == [3, 0, 2, 0, 0, 0, 0, 0]
  {
    hide PackRi, Le;
    VersionBytes();
    var b, r := PackIdentity(pkHash, ri), PackRi(ri);
    IdentitySlices(pkHash, r, Le(PROTOCOL_VERSION_V2_3, 4), Le(0, 4));
    RiLayout(ri);
    assert b[32..64] == r;
    assert b[32..40] == b[32..64][..8] && b[40..48] == b[32..64][8..16] && b[48..50] == b[32..64][16..18];
    assert b[50..58] == b[32..64][18..26] && b[58..64] == b[32..64][26..32];
  }

  lemma {:induction false} ConfirmLayout(nextEpoch: u64, ri: RiProof, nextPub: RatchetPub, nextKid: Kid)
    ensures var b := PackConfirm(nextEpoch, ri, nextPub, nextKid);
            && b[..8] == Le(nextEpoch, 8)
            && b[8..16] == Le(ri.f, 8) && b[16..24] == Le(ri.a, 8) && b[24..26] == Le(ri.delta, 2)
            && b[26..34] == Le(ri.ts, 8) && b[34..40] == ri.reserved
            && b[40..840] == nextPub && b[840..856] == nextKid && b[856..864] == [3, 0, 2, 0, 0, 0, 0, 0]
  {
    hide PackRi, Le;
    VersionBytes();
    var b, r := PackConfirm(nextEpoch, ri, nextPub, nextKid), PackRi(ri);
    ConfirmSlices(Le(nextEpoch, 8), r, nextPub, nextKid, Le(PROTOCOL_VERSION_V2_3, 4), Le(0, 4));
    RiLayout(ri);
    assert b[8..40] == r;
    assert b[8..16] == b[8..40][..8] && b[16..24] == b[8..40][8..16] && b[24..26] == b[8..40][16..18];
    assert b[26..34] == b[8..40][18..26] && b[34..40] == b[8..40][26..32];
  }

  // ------------------------------------------- the code that fills the buffers

  /** `out[at..].copy_from_slice(src)`. */
  method CopyInto(out: array<byte>, at: nat, src: Bytes)
    requires at + |src| <= out.Length
    modifies out
    ensures out[..at + |src|] == old(out[..at]) + src
    ensures out[at + |src|..] == old(out[at + |src|..])
  {
    for i := 0 to |src|
      invariant out[..at + i] == old(out[..at]) + src[..i]
      invariant out[at + i..] == old(out[at + i..])
    {
      out[at + i] := src[i];
    }
    assert src[..|src|] == src;
  }

  method PackRiProof(ri: RiProof) returns (out: array<byte>)
    ensures fresh(out) && out.Length == SIZE_RI_PROOF && out[..] == PackRi(ri)
  {
    out := new byte[SIZE_RI_PROOF](_ => 0);
    CopyInto(out, 0, Le(ri.f, 8));
    CopyInto(out, 8, Le(ri.a, 8));
    CopyInto(out, 16, Le(ri.delta, 2));
    CopyInto(out, 18, Le(ri.ts, 8));
    CopyInto(out, 26, ri.reserved);
    assert out[..] == out[..32];
  }

  method PackIdentityPlain(pkHash: Hash, ri: RiProof) returns (out: array<byte>)
    ensures fresh(out) && out.Length == SIZE_IDENTITY_PLAIN && out[..] == PackIdentity(pkHash, ri)
  {
    out := new byte[SIZE_IDENTITY_PLAIN](_ => 0);
    CopyInto(out, 0, pkHash);
    var proof := PackRiProof(ri);
    CopyInto(out, SIZE_HASH, proof[..]);
    PutVersion(out, SIZE_HASH + SIZE_RI_PROOF);
  }

  /** The version word and four zero bytes that end both blocks. */
  method PutVersion(out: array<byte>, at: nat)
    requires at + 8 == out.Length
    modifies out
    ensures out[..] == old(out[..at]) + Le(PROTOCOL_VERSION_V2_3, 4) + Le(0, 4)
  {
    CopyInto(out, at, Le(PROTOCOL_VERSION_V2_3, 4));
    CopyInto(out, at + 4, Le(0, 4));
    assert out[..] == out[..at + 8];
  }

  method PackConfirmPlain(nextEpoch: u64, ri: RiProof, nextPub: RatchetPub, nextKid: Kid)
    returns (out: array<byte>)
    ensures fresh(out) && out.Length == SIZE_CONFIRM_PLAIN
    ensures out[..] == PackConfirm(nextEpoch, ri, nextPub, nextKid)
  {
    hide Le, PackRi;
    out := new byte[SIZE_CONFIRM_PLAIN](_ => 0);
    CopyInto(out, 0, Le(nextEpoch, 8));
    var at := 8;
    var proof := PackRiProof(ri);
    CopyInto(out, at, proof[..]);
    at := at + SIZE_RI_PROOF;
    CopyInto(out, at, nextPub);
    at := at + SIZE_RATCHET_KEM_PUB_KEY;
    CopyInto(out, at, nextKid);
    at := at + SIZE_KID;
    PutVersion(out, at);
  }

  // ---------------------------------------------------------- transport header

  const TYPE_TRANSPORT: nat := 4
  const SIZE_HEADER: nat := 16
  const SIZE_TAG: nat := 16                      // of ChaCha20-Poly1305

  function Header(receiver: u32, counter: u64): (b: Bytes)
    ensures |b| == SIZE_HEADER
  {
    Le(TYPE_TRANSPORT, 4) + Le(receiver, 4) + Le(counter, 8)
  }

  function HeaderReceiver(b: Bytes): u32
    requires |b| >= SIZE_HEADER
  {
    Widths();
    LeNat(b[4..8])
  }

  function HeaderCounter(b: Bytes): u64
    requires |b| >= SIZE_HEADER
  {
    Widths();
    LeNat(b[8..16])
  }

  /** The type word, the receiver and the counter, all little-endian. */
  lemma {:induction false} HeaderLayout(receiver: u32, counter: u64)
    ensures var b := Header(receiver, counter);
            b[..4] == [4, 0, 0, 0] && b[4..8] == Le(receiver, 4) && b[8..16] == Le(counter, 8)
  {
    assert forall x: nat :: Le(x, 0) == [];
    assert Le(4, 4) == [4, 0, 0, 0];
  }

  lemma HeaderRoundTrip(receiver: u32, counter: u64, rest: Bytes)
    ensures HeaderReceiver(Header(receiver, counter) + rest) == receiver
    ensures HeaderCounter(Header(receiver, counter) + rest) == counter
  {
    Widths();
    var b := Header(receiver, counter) + rest;
    assert b[4..8] == Le(receiver, 4) && b[8..16] == Le(counter, 8);
    LeRoundTrip(receiver, 4);
    LeRoundTrip(counter, 8);
  }
}
