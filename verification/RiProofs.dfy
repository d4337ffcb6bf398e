/**
 * The RI proof of the v2.3 handshake (src/wireguard_hybrid_new/handshake/noise.rs):
 * a masked sum of sampled numbers that lets the peer recover a target derived from
 * the handshake.
 */
module RiProofs {
  import opened Base
  import opened Codec

  const RANGE: nat := 10_000
  const SAMPLES: nat := 99
  const MAX_SKEW: nat := 120

  // ---------------------------------------------------------------------- xor

  /** Bitwise exclusive or. */
  function Xor(a: nat, b: nat): nat
    decreases a + b
  {
    if a == 0 then b
    else if b == 0 then a
    else (a + b) % 2 + 2 * Xor(a / 2, b / 2)
  }

  lemma {:induction false} XorComm(a: nat, b: nat)
    ensures Xor(a, b) == Xor(b, a)
    decreases a + b
  {
    if a != 0 && b != 0 {
      XorComm(a / 2, b / 2);
    }
  }

  /** The defining equations hold for zeros as well. */
  lemma {:induction false} XorSplit(a: nat, b: nat)
    ensures Xor(a, b) % 2 == (a + b) % 2 && Xor(a, b) / 2 == Xor(a / 2, b / 2)
  {
    if a != 0 && b != 0 {
      var rest := Xor(a / 2, b / 2);
      assert Xor(a, b) == (a + b) % 2 + 2 * rest;
      LowBit((a + b) % 2, rest);
    }
  }

  lemma LowBit(bit: nat, rest: nat)
    requires bit < 2
    ensures (bit + 2 * rest) % 2 == bit && (bit + 2 * rest) / 2 == rest
  {
  }

  lemma {:induction false} XorAssoc(a: nat, b: nat, c: nat)
    ensures Xor(Xor(a, b), c) == Xor(a, Xor(b, c))
    decreases a + b + c
  {
    if a != 0 && b != 0 && c != 0 {
      XorAssoc(a / 2, b / 2, c / 2);
      var ab, bc := Xor(a, b), Xor(b, c);
      XorSplit(a, b);
      XorSplit(b, c);
      XorSplit(ab, c);
      XorSplit(a, bc);
      Parity(a, b, c, ab, bc);
      SameHalves(Xor(ab, c), Xor(a, bc));
    }
  }

  lemma Parity(a: nat, b: nat, c: nat, ab: nat, bc: nat)
    requires ab % 2 == (a + b) % 2 && bc % 2 == (b + c) % 2
    ensures (ab + c) % 2 == (a + bc) % 2
  {
  }

  lemma SameHalves(x: nat, y: nat)
    requires x % 2 == y % 2 && x / 2 == y / 2
    ensures x == y
  {
  }

  lemma {:induction false} XorSelf(a: nat)
    ensures Xor(a, a) == 0
  {
    if a != 0 {
      XorSelf(a / 2);
    }
  }

  /** Masking with `m` twice gives back what was masked. */
  lemma {:induction false} XorCancels(m: nat, x: nat)
    ensures Xor(Xor(m, x), m) == x
  {
    XorComm(m, x);
    XorAssoc(x, m, m);
    XorSelf(m);
  }

  function Pow2(n: nat): nat {
    if n == 0 then 1 else 2 * Pow2(n - 1)
  }

  lemma {:induction false} XorBounded(a: nat, b: nat, n: nat)
    requires a < Pow2(n) && b < Pow2(n)
    ensures Xor(a, b) < Pow2(n)
    decreases n
  {
    if a != 0 && b != 0 {
      XorBounded(a / 2, b / 2, n - 1);
    }
  }

  lemma {:induction false} Pow2Add(m: nat, n: nat)
    ensures Pow2(m + n) == Pow2(m) * Pow2(n)
  {
    if m > 0 {
      Pow2Add(m - 1, n);
      Twice(Pow2(m - 1), Pow2(n));
      assert m + n - 1 == m - 1 + n;
    }
  }

  lemma Twice(x: nat, y: nat)
    ensures 2 * (x * y) == (2 * x) * y
  {
  }

  lemma Pow64()
    ensures Pow2(64) == TWO_64
  {
    assert Pow2(8) == 256;
    Pow2Add(8, 8);
    Pow2Add(16, 16);
    Pow2Add(32, 32);
  }

  lemma {:induction false} Xor64(a: u64, b: u64)
    ensures Xor(a, b) < TWO_64
  {
    Pow64();
    XorBounded(a, b, 64);
  }

  function XorAll(xs: seq<nat>): nat {
    if xs == [] then 0 else Xor(XorAll(xs[..|xs| - 1]), xs[|xs| - 1])
  }

  // --------------------------------------------------------- target and proof

  /** A target in 1..10000 from the first eight bytes of a hash. */
  function Target(hash: Hash): nat {
    LeNat(hash[..8]) % RANGE + 1
  }

  function Sigma(target: nat, delta: nat): nat
    requires target >= 1
  {
    (target - 1 + delta) % RANGE + 1
  }

  /** The proof made from a mask key, a target, a sampled `delta` and the sampled sum `a`. */
  function MakeProof(key: u64, target: nat, delta: u16, a: u64, now: u64): RiProof
    requires target >= 1
  {
    Xor64(a, Sigma(target, delta));
    Xor64(key, Xor(a, Sigma(target, delta)));
    RiProof(Xor(key, Xor(a, Sigma(target, delta))), a, delta, now, [0, 0, 0, 0, 0, 0])
  }

  function Skew(now: nat, ts: nat): nat {
    if now >= ts then now - ts else ts - now
  }

  /** The masked number that the verifier unmasks. */
  function Unmasked(key: u64, f: nat, a: nat): nat {
    Xor(Xor(f, key), a)
  }

  function Recovered(sigma: nat, delta: nat): nat
    requires 1 <= sigma && delta <= RANGE
  {
    (sigma - 1 + RANGE - delta) % RANGE + 1
  }

  /** The checks of `verify_ri_proof`, in its order. */
  predicate Verify(key: u64, target: nat, proof: RiProof, now: nat) {
    && proof.reserved == [0, 0, 0, 0, 0, 0]
    && Skew(now, proof.ts) <= MAX_SKEW
    && 1 <= proof.delta < RANGE
    && var sigma := Unmasked(key, proof.f, proof.a);
    && 1 <= sigma <= RANGE
    && Recovered(sigma, proof.delta) == target
  }

  lemma {:induction false} UnmaskedIsSigma(key: u64, a: u64, sigma: nat)
    ensures Unmasked(key, Xor(key, Xor(a, sigma)), a) == sigma
  {
    XorCancels(key, Xor(a, sigma));
    XorCancels(a, sigma);
  }

  lemma RecoveredIsTarget(target: nat, delta: nat)
    requires 1 <= target <= RANGE && delta < RANGE
    ensures Recovered(Sigma(target, delta), delta) == target
  {
    if target - 1 + delta < RANGE {
      assert Sigma(target, delta) == target + delta;
    } else {
      assert (target - 1 + delta) % RANGE == target - 1 + delta - RANGE;
    }
  }

  /** A proof verifies exactly within 120 seconds of its timestamp, on either side. */
  lemma ProofVerifies(key: u64, target: nat, delta: u16, a: u64, ts: u64, now: nat)
    requires 1 <= target <= RANGE && 1 <= delta < RANGE
    ensures Verify(key, target, MakeProof(key, target, delta, a, ts), now) <==> Skew(now, ts) <= MAX_SKEW
  {
    UnmaskedIsSigma(key, a, Sigma(target, delta));
    RecoveredIsTarget(target, delta);
  }

  lemma {:induction false} RemaskedIsF(key: u64, f: u64, a: u64)
    ensures Xor(key, Xor(a, Unmasked(key, f, a))) == f
  {
    XorCancels(a, Xor(f, key));
    XorComm(Xor(f, key), a);
    XorComm(a, Unmasked(key, f, a));
    XorComm(key, Xor(f, key));
    XorComm(f, key);
    XorCancels(key, f);
  }

  lemma SigmaIsRecovered(sigma: nat, target: nat, delta: nat)
    requires 1 <= sigma <= RANGE && 1 <= target <= RANGE && delta < RANGE && Recovered(sigma, delta) == target
    ensures Sigma(target, delta) == sigma
  {
    if delta < sigma {
      assert (sigma - 1 - delta + RANGE) % RANGE == sigma - 1 - delta;
    }
  }

  /** The verifier accepts, within its clock, exactly the proofs that can be made for its key and target. */
  lemma VerifiedIsMade(key: u64, target: nat, proof: RiProof, now: nat)
    requires 1 <= target <= RANGE
    ensures Verify(key, target, proof, now) <==>
              && 1 <= proof.delta < 10_000 && proof.ts <= now + 120 && now <= proof.ts + 120
              && proof == MakeProof(key, target, proof.delta, proof.a, proof.ts)
  {
    if Verify(key, target, proof, now) {
      RemaskedIsF(key, proof.f, proof.a);
      SigmaIsRecovered(Unmasked(key, proof.f, proof.a), target, proof.delta);
    } else if 1 <= proof.delta < RANGE {
      ProofVerifies(key, target, proof.delta, proof.a, proof.ts, now);
    }
  }

  /** The only offset that leads from the target to the unmasked number. */
  function OnlyDelta(sigma: nat, target: nat): nat
    requires 1 <= sigma <= RANGE && 1 <= target <= RANGE
  {
    (sigma + RANGE - target) % RANGE
  }

  lemma RecoveredByOne(sigma: nat, target: nat, delta: nat)
    requires 1 <= sigma <= RANGE && 1 <= target <= RANGE && delta < RANGE
    ensures Recovered(sigma, delta) == target <==> delta == OnlyDelta(sigma, target)
  {
    if delta < sigma {
      assert (sigma - 1 - delta + RANGE) % RANGE == sigma - 1 - delta;
    }
  }

  /**
   * For fixed `f` and `a` exactly one offset in 0..9999 recovers the target, and the verifier
   * accepts that one, unless it is zero, and no other.
   */
  lemma OneDeltaIsAccepted(key: u64, target: nat, proof: RiProof, now: nat)
    requires 1 <= target <= RANGE
    requires proof.reserved == [0, 0, 0, 0, 0, 0] && Skew(now, proof.ts) <= MAX_SKEW
    requires 1 <= Unmasked(key, proof.f, proof.a) <= RANGE
    ensures var only := OnlyDelta(Unmasked(key, proof.f, proof.a), target);
            && only < RANGE
            && (forall d: nat :: d < RANGE ==>
                  (Recovered(Unmasked(key, proof.f, proof.a), d) == target <==> d == only))
            && (Verify(key, target, proof, now) <==> proof.delta == only && only != 0)
  {
    var sigma := Unmasked(key, proof.f, proof.a);
    forall d: nat | d < RANGE ensures Recovered(sigma, d) == target <==> d == OnlyDelta(sigma, target) {
      RecoveredByOne(sigma, target, d);
    }
  }

  // --------------------------------------------------------------- generation

  /** The numbers that were sampled: distinct, in range, and none of them sigma. */
  ghost predicate Sampled(chosen: seq<nat>, sigma: nat) {
    && Distinct(chosen)
    && forall i :: 0 <= i < |chosen| ==> 1 <= chosen[i] <= RANGE && chosen[i] != sigma
  }

  lemma {:induction false} XorAllBounded(xs: seq<nat>)
    requires forall i :: 0 <= i < |xs| ==> xs[i] <= RANGE
    ensures XorAll(xs) < TWO_64
  {
    if xs != [] {
      XorAllBounded(xs[..|xs| - 1]);
      Xor64(XorAll(xs[..|xs| - 1]), xs[|xs| - 1]);
    }
  }

  /** The numbers that a stream of draws yields, in order: those that are fresh when drawn. */
  function Picks(draws: seq<u32>, sigma: nat): seq<nat> {
    if draws == [] then []
    else
      var n := |draws| - 1;
      var before, candidate := Picks(draws[..n], sigma), draws[n] % RANGE + 1;
      if candidate == sigma || candidate in before then before else before + [candidate]
  }

  lemma {:induction false} PicksGrow(draws: seq<u32>, k: nat, sigma: nat)
    requires k <= |draws|
    ensures Picks(draws[..k], sigma) <= Picks(draws, sigma)
  {
    if k < |draws| {
      var n := |draws| - 1;
      PicksGrow(draws[..n], k, sigma);
      assert draws[..n][..k] == draws[..k];
    } else {
      assert draws[..k] == draws;
    }
  }

  lemma {:induction false} PickStep(draws: seq<u32>, k: nat, sigma: nat)
    requires k < |draws|
    ensures var before, candidate := Picks(draws[..k], sigma), draws[k] % RANGE + 1;
            Picks(draws[..k + 1], sigma) ==
            if candidate == sigma || candidate in before then before else before + [candidate]
  {
    assert draws[..k + 1][..k] == draws[..k];
  }

  lemma {:induction false} PicksAreSampled(draws: seq<u32>, sigma: nat)
    ensures Sampled(Picks(draws, sigma), sigma)
  {
    if draws != [] {
      PicksAreSampled(draws[..|draws| - 1], sigma);
    }
  }

  lemma {:induction false} XorAllStep(xs: seq<nat>, x: nat)
    ensures XorAll(xs + [x]) == Xor(XorAll(xs), x)
  {
    assert (xs + [x])[..|xs|] == xs;
  }

  /** The sampling loop, over the marked array. */
  method Sample(draws: seq<u32>, sigma: nat) returns (enough: bool, a: nat)
    requires 1 <= sigma <= RANGE
    ensures enough <==> |Picks(draws, sigma)| >= SAMPLES
    ensures enough ==> a == XorAll(Picks(draws, sigma)[..SAMPLES])
  {
    hide Picks, XorAll, Xor;
    var taken := new bool[RANGE + 1](_ => false);
    taken[sigma] := true;
    a := 0;
    var count, next := 0, 0;
    ghost var chosen: seq<nat> := [];
    NoPicks(sigma);
    assert draws[..0] == [];
    while count < SAMPLES && next < |draws|
      invariant count == |chosen| <= SAMPLES && next <= |draws|
      invariant chosen == Picks(draws[..next], sigma) && a == XorAll(chosen)
      invariant forall n :: 0 <= n <= RANGE ==> (taken[n] <==> n == sigma || n in chosen)
    {
      var candidate := draws[next] % RANGE + 1;
      PickStep(draws, next, sigma);
      next := next + 1;
      if !taken[candidate] {
        taken[candidate] := true;
        XorAllStep(chosen, candidate);
        a := Xor(a, candidate);
        count := count + 1;
        chosen := chosen + [candidate];
      }
    }
    PicksGrow(draws, next, sigma);
    if next == |draws| { assert draws[..next] == draws; }
    if count == SAMPLES { assert Picks(draws, sigma)[..SAMPLES] == chosen; }
    enough := count == SAMPLES;
  }

  lemma {:induction false} NoPicks(sigma: nat)
    ensures Picks([], sigma) == [] && XorAll([]) == 0
  {
  }

  function FirstDelta(draw: u32): (delta: u16)
    ensures 1 <= delta < RANGE
  {
    draw % 9_999 + 1
  }

  /**
   * `generate_ri_proof` on a stream of 32-bit draws: there is a proof exactly if the stream yields
   * 99 fresh numbers, and then `a` is the XOR of the first 99. They are distinct, in range, and
   * not sigma, and the proof verifies at every time within the skew.
   */
  method GenerateRiProof(draws: seq<u32>, key: u64, target: nat, now: u64)
    returns (proof: Option<RiProof>)
    requires 1 <= target <= RANGE
    ensures proof.Some? <==>
              draws != [] && |Picks(draws[1..], Sigma(target, FirstDelta(draws[0])))| >= SAMPLES
    ensures proof.Some? ==>
              && var delta, p := FirstDelta(draws[0]), proof.value;
              && var chosen := Picks(draws[1..], Sigma(target, delta))[..SAMPLES];
              && Sampled(chosen, Sigma(target, delta)) && XorAll(chosen) < TWO_64
              && p == MakeProof(key, target, delta, XorAll(chosen), now)
    ensures proof.Some? ==> forall t: nat :: Skew(t, now) <= MAX_SKEW ==> Verify(key, target, proof.value, t)
  {
    hide Picks, XorAll, Verify;
    if draws == [] {
      return None;
    }
    var delta := FirstDelta(draws[0]);
    var sigma := (target - 1 + delta) % RANGE + 1;
    var enough, a := Sample(draws[1..], sigma);
    if !enough {
      return None;
    }
    PicksAreSampled(draws[1..], sigma);
    ghost var chosen := Picks(draws[1..], sigma)[..SAMPLES];
    assert Sampled(chosen, sigma);
    XorAllBounded(chosen);
    Xor64(a, sigma);
    Xor64(key, Xor(a, sigma));
    var sum := Xor(a, sigma);
    var f := Xor(key, sum);
    proof := Some(RiProof(f, a, delta, now, [0, 0, 0, 0, 0, 0]));
    forall t: nat | Skew(t, now) <= MAX_SKEW ensures Verify(key, target, proof.value, t) {
      ProofVerifies(key, target, delta, a, now, t);
    }
  }
}
