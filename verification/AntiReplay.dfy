/**
 * The RFC 6479 replay window of the router (src/wireguard/router/anti_replay.rs).
 *
 * `Window` is the reference: the set of accepted numbers and the largest of them.
 * `AntiReplay` is the 2048-bit ring of 64-bit words, updated in place.
 * Shifts and masks of the counter by powers of two are written as `/` and `%`.
 */
module AntiReplay {
  import opened Base

  const SIZE_OF_WORD: nat := 64
  const BITMAP_BITLEN: nat := 2048
  const BITMAP_LEN: nat := BITMAP_BITLEN / SIZE_OF_WORD
  const WINDOW_SIZE: nat := BITMAP_BITLEN - SIZE_OF_WORD

  // ---------------------------------------------------------------- reference

  /** `last` is zero before anything is accepted. */
  datatype Window = Window(last: nat, seen: set<nat>)

  const EMPTY := Window(0, {})

  predicate Fresh(w: Window, s: nat) {
    s > w.last || (w.last - s <= WINDOW_SIZE && s !in w.seen)
  }

  function Accept(w: Window, s: nat): Window {
    if Fresh(w, s) then Window(Max(w.last, s), w.seen + {s}) else w
  }

  /** The window after a run of `update` calls. */
  function After(xs: seq<nat>): Window {
    if xs == [] then EMPTY else Accept(After(xs[..|xs| - 1]), xs[|xs| - 1])
  }

  /** Whether call number `i` of the run is answered with "valid". */
  predicate Accepted(xs: seq<nat>, i: nat)
    requires i < |xs|
  {
    Fresh(After(xs[..i]), xs[i])
  }

  ghost predicate AcceptedValue(xs: seq<nat>, s: nat) {
    exists j: nat :: j < |xs| && Accepted(xs, j) && xs[j] == s
  }

  lemma AcceptedEarlier(xs: seq<nat>, n: nat, j: nat)
    requires j < n <= |xs|
    ensures Accepted(xs, j) == Accepted(xs[..n], j)
  {
    assert xs[..j] == xs[..n][..j];
  }

  lemma OneMoreValue(xs: seq<nat>, s: nat)
    requires xs != []
    ensures var n := |xs| - 1;
            AcceptedValue(xs, s) <==> AcceptedValue(xs[..n], s) || (Accepted(xs, n) && xs[n] == s)
  {
    hide Accepted;
    var n := |xs| - 1;
    forall j: nat | j < n ensures Accepted(xs, j) == Accepted(xs[..n], j) {
      AcceptedEarlier(xs, n, j);
    }
    if AcceptedValue(xs[..n], s) {
      var j: nat :| j < n && Accepted(xs[..n], j) && xs[..n][j] == s;
      assert Accepted(xs, j) && xs[j] == s;
    }
  }

  lemma {:induction false} SeenIsAccepted(xs: seq<nat>)
    ensures forall s :: s in After(xs).seen <==> AcceptedValue(xs, s)
    ensures forall s :: s in After(xs).seen ==> s <= After(xs).last
    ensures After(xs).last == 0 || After(xs).last in After(xs).seen
  {
    hide AcceptedValue;
    if xs != [] {
      var n := |xs| - 1;
      SeenIsAccepted(xs[..n]);
      forall s ensures s in After(xs).seen <==> AcceptedValue(xs, s) {
        OneMoreValue(xs, s);
      }
    } else {
      forall s ensures !AcceptedValue([], s) { NothingAccepted(s); }
    }
  }

  lemma NothingAccepted(s: nat)
    ensures !AcceptedValue([], s)
  {
  }

  lemma {:induction false} AfterRun(xs: seq<nat>)
    ensures forall s :: s in After(xs).seen <==> exists j: nat :: j < |xs| && Accepted(xs, j) && xs[j] == s
    ensures forall s :: s in After(xs).seen ==> s <= After(xs).last
    ensures After(xs).last == 0 || After(xs).last in After(xs).seen
  {
    hide Accepted, After;
    SeenIsAccepted(xs);
  }

  /**
   * The exact answer of every call of every run, over the answers before it:
   * a number passes iff it was not accepted before and no accepted number
   * is more than the window ahead of it.
   */
  lemma AcceptedExactly(xs: seq<nat>, i: nat)
    requires i < |xs|
    ensures Accepted(xs, i) <==>
            forall j: nat :: j < i && Accepted(xs, j) ==> xs[j] != xs[i] && xs[j] <= xs[i] + WINDOW_SIZE
  {
    var ys := xs[..i];
    AfterRun(ys);
    forall j: nat | j < i ensures Accepted(xs, j) == Accepted(ys, j) {
      assert xs[..j] == ys[..j];
    }
    var w := After(ys);
    if Accepted(xs, i) {
      forall j: nat | j < i && Accepted(xs, j) ensures xs[j] != xs[i] && xs[j] <= xs[i] + WINDOW_SIZE {
        assert Accepted(ys, j) && ys[j] == xs[j];
        assert xs[j] in w.seen;
      }
    } else {
      if xs[i] in w.seen {
        var j: nat :| j < i && Accepted(ys, j) && ys[j] == xs[i];
        assert Accepted(xs, j) && xs[j] == xs[i];
      } else {
        assert w.last in w.seen;
        var j: nat :| j < i && Accepted(ys, j) && ys[j] == w.last;
        assert Accepted(xs, j) && xs[j] > xs[i] + WINDOW_SIZE;
      }
    }
  }

  /** No number is ever accepted twice. */
  lemma AcceptedOnce(xs: seq<nat>, i: nat, j: nat)
    requires i < j < |xs| && xs[i] == xs[j] && Accepted(xs, i)
    ensures !Accepted(xs, j)
  {
    AcceptedExactly(xs, j);
  }

  // ------------------------------------------------------------------- bitmap

  /** A 64-bit word as the set of its one bits: `|=` adds a position, `&` tests one. */
  type Word = w: set<nat> | forall b :: b in w ==> b < SIZE_OF_WORD witness {}

  /** The bit that stands for `s` in the ring. */
  predicate InRing(bitmap: seq<Word>, s: nat)
    requires |bitmap| == BITMAP_LEN
  {
    s % 64 in bitmap[(s / 64) % 32]
  }

  /** The numbers whose word is one of the 32 that the ring still holds. */
  predicate Covered(last: nat, s: nat) {
    s / 64 <= last / 64 < s / 64 + 32
  }

  /** The ring remembers exactly the seen numbers of the words that it covers. */
  ghost predicate Represents(bitmap: seq<Word>, last: nat, seen: set<nat>) {
    && |bitmap| == BITMAP_LEN
    && (forall s :: s in seen ==> s <= last)
    && (forall s: nat :: Covered(last, s) ==> (InRing(bitmap, s) <==> s in seen))
  }

  lemma SameSlot(a: nat, b: nat)
    requires a % 32 == b % 32 && a <= b < a + 32
    ensures a == b
  {
  }

  lemma WithinWindowIsCovered(last: nat, s: nat)
    requires s <= last && last - s <= WINDOW_SIZE
    ensures Covered(last, s)
  {
  }

  lemma NothingIsLeft(before: seq<Word>, after: seq<Word>, last: nat, s: nat, seen: set<nat>)
    requires Represents(before, last, seen) && last < s && s / 64 - last / 64 >= BITMAP_LEN
    requires |after| == BITMAP_LEN && forall i :: 0 <= i < BITMAP_LEN ==> after[i] == {}
    ensures Represents(after, s, seen)
  {
  }

  /** Clearing the words after that of `last` up to that of `s` is all it takes to move on to `s`. */
  lemma ClearedInBetween(before: seq<Word>, after: seq<Word>, last: nat, s: nat, seen: set<nat>)
    requires Represents(before, last, seen) && last < s && s / 64 - last / 64 < BITMAP_LEN && |after| == BITMAP_LEN
    requires forall k: nat :: last / 64 < k <= s / 64 ==> after[k % 32] == {}
    requires forall k: nat :: s / 64 < k + 32 && k <= last / 64 ==> after[k % 32] == before[k % 32]
    ensures Represents(after, s, seen)
  {
    forall n: nat | Covered(s, n) ensures InRing(after, n) <==> n in seen {
      if n / 64 <= last / 64 {
        assert Covered(last, n);
        assert InRing(before, n) <==> n in seen;
      }
    }
  }

  lemma MarkedIsSeen(bitmap: seq<Word>, last: nat, seen: set<nat>, s: nat)
    requires Represents(bitmap, last, seen) && s <= last && Covered(last, s)
    ensures var slot := (s / 64) % 32;
            Represents(bitmap[slot := bitmap[slot] + {s % 64}], last, seen + {s})
  {
    var slot := (s / 64) % 32;
    forall n: nat | Covered(last, n)
      ensures InRing(bitmap[slot := bitmap[slot] + {s % 64}], n) <==> n in seen + {s}
    {
      MarkedOne(bitmap, s, n, last);
    }
  }

  class AntiReplay {
    const bitmap: array<Word>
    var last: u64
    ghost var seen: set<nat>

    ghost predicate Valid()
      reads this, bitmap
    {
      bitmap.Length == BITMAP_LEN && Represents(bitmap[..], last, seen)
    }

    ghost function View(): Window
      reads this
    {
      Window(last, seen)
    }

    constructor ()
      ensures Valid() && fresh(bitmap)
      ensures View() == EMPTY
    {
      bitmap := new Word[BITMAP_LEN](_ => {});
      last := 0;
      seen := {};
      new;
      assert forall i :: 0 <= i < BITMAP_LEN ==> bitmap[..][i] == {};
    }

    /** The bit test decides freshness in the reference window. */
    predicate Check(s: u64)
      requires Valid()
      reads this, bitmap
      ensures Check(s) <==> Fresh(View(), s)
    {
      if s > last then
        true
      else if last - s > WINDOW_SIZE then
        false
      else
        var location := s % 64;
        var index := (s / 64) % 32;
        WithinWindowIsCovered(last, s);
        assert InRing(bitmap[..], s) <==> s in seen;
        location !in bitmap[index]
    }

    /** Clears the words that leave the window, then marks `s`. */
    method UpdateStore(s: u64)
      requires Valid() && Check(s)
      modifies this, bitmap
      ensures Valid()
      ensures View() == Accept(old(View()), s)
    {
      hide Represents, Covered;
      var index := s / 64;
      assert bitmap.Length == BITMAP_LEN;
      if s > last {
        var current := last / 64;
        var diff := index - current;
        ghost var before := bitmap[..];
        if diff >= BITMAP_LEN {
          forall i | 0 <= i < BITMAP_LEN {
            bitmap[i] := {};
          }
          NothingIsLeft(before, bitmap[..], last, s, seen);
        } else {
          for i := 0 to diff
            invariant last == old(last) && seen == old(seen)
            invariant forall k: nat :: current < k <= current + i ==> bitmap[k % 32] == {}
            invariant forall k: nat :: current + i < k + 32 && k <= current ==> bitmap[k % 32] == before[k % 32]
          {
            ghost var cleared := current + i + 1;
            forall k: nat | cleared < k + 32 && k < cleared ensures k % 32 != cleared % 32 {
              if k % 32 == cleared % 32 { SameSlot(k, cleared); }
            }
            var realIndex := (current + i + 1) % 32;
            bitmap[realIndex] := {};
          }
          ClearedInBetween(before, bitmap[..], last, s, seen);
        }
        last := s;
      } else {
        WithinWindowIsCovered(last, s);
      }
      ghost var marked := bitmap[..];
      var slot := index % 32;
      var location := s % 64;
      bitmap[slot] := bitmap[slot] + {location};
      MarkedIsSeen(marked, last, seen, s);
      assert bitmap[..] == marked[slot := marked[slot] + {location}];
      seen := seen + {s};
    }

    /** Checks and marks: the answer and the new window are those of the reference. */
    method Update(s: u64) returns (ok: bool)
      requires Valid()
      modifies this, bitmap
      ensures Valid()
      ensures ok == Fresh(old(View()), s)
      ensures View() == Accept(old(View()), s)
    {
      if Check(s) {
        UpdateStore(s);
        ok := true;
      } else {
        ok := false;
      }
    }
  }

  /** Marking `s` changes the bit of no other covered number. */
  lemma MarkedOne(bitmap: seq<Word>, s: nat, n: nat, last: nat)
    requires |bitmap| == BITMAP_LEN
    requires Covered(last, s) && Covered(last, n)
    ensures var slot := (s / 64) % 32;
            InRing(bitmap[slot := bitmap[slot] + {s % 64}], n) <==> n == s || InRing(bitmap, n)
  {
    var slot := (s / 64) % 32;
    if (n / 64) % 32 == slot {
      if n / 64 <= s / 64 { SameSlot(n / 64, s / 64); } else { SameSlot(s / 64, n / 64); }
    }
  }
}
