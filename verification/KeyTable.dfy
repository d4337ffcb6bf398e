/**
 * The receiver table and the ids that come back, over whole runs of the key wheel
 * (src/wireguard/router/peer.rs): which keys still decrypt, and which ids are accounted for.
 */
module KeyTable {
  import opened Base
  import opened KeyWheel

  /** The key pairs of a run in the order they were added; `uid` is the position. */
  function Pairs(acts: seq<Action>): seq<KeyPair> {
    if acts == [] then []
    else
      var before, a := Pairs(acts[..|acts| - 1]), acts[|acts| - 1];
      if a.AddKeypair? then before + [KeyPair(|before|, a.initiator, a.send, a.recv)] else before
  }

  /** The ids that `add_keypair` has handed back so far. */
  function HandedBack(acts: seq<Action>): seq<u32> {
    if acts == [] then []
    else
      var before, a := acts[..|acts| - 1], acts[|acts| - 1];
      HandedBack(before) + if a.AddKeypair? then Add(After(before), a.initiator, a.send, a.recv).1 else []
  }

  predicate OnWheel(k: Keys, p: KeyPair) {
    k.next == Some(p) || k.current == Some(p) || k.previous == Some(p)
  }

  ghost predicate Unmapped(k: Keys, p: KeyPair) {
    forall id :: id in k.recv ==> k.recv[id] != p
  }

  /** Every pair that the state speaks of is one that was added, under its own id. */
  ghost predicate Known(k: Keys, pairs: seq<KeyPair>) {
    && k.made == |pairs|
    && (forall p :: OnWheel(k, p) ==> p.uid < |pairs| && pairs[p.uid] == p)
    && (forall id :: id in k.recv ==>
          k.recv[id].recv.id == id && k.recv[id].uid < |pairs| && pairs[k.recv[id].uid] == k.recv[id])
    && (forall i :: 0 <= i < |pairs| ==> pairs[i].uid == i)
  }

  lemma KnownStep(k: Keys, pairs: seq<KeyPair>, a: Action)
    requires Known(k, pairs)
    ensures Known(Apply(k, a), if a.AddKeypair? then pairs + [KeyPair(|pairs|, a.initiator, a.send, a.recv)] else pairs)
  {
    if a.ConfirmKey? {
      assert forall p :: OnWheel(Apply(k, a), p) ==> OnWheel(k, p);
    }
  }

  lemma {:induction false} AllKnown(acts: seq<Action>)
    ensures Known(After(acts), Pairs(acts))
  {
    if acts != [] {
      hide Known, Apply;
      AllKnown(acts[..|acts| - 1]);
      KnownStep(After(acts[..|acts| - 1]), Pairs(acts[..|acts| - 1]), acts[|acts| - 1]);
    } else {
      assert After([]) == INITIAL;
    }
  }

  lemma {:induction false} AfterOne(acts: seq<Action>, a: Action)
    ensures After(acts + [a]) == Apply(After(acts), a)
    ensures Pairs(acts + [a]) ==
            if a.AddKeypair? then Pairs(acts) + [KeyPair(|Pairs(acts)|, a.initiator, a.send, a.recv)]
                                 else Pairs(acts)
    ensures HandedBack(acts + [a]) == HandedBack(acts) +
              if a.AddKeypair? then Add(After(acts), a.initiator, a.send, a.recv).1 else []
  {
    assert (acts + [a])[..|acts|] == acts;
  }

  // --------------------------------------------------------- a key that is gone

  /** In every run: after `zero_keys` no key that was on the wheel decrypts, and none encrypts. */
  lemma {:induction false} ZeroUnmaps(acts: seq<Action>, p: KeyPair)
    requires OnWheel(After(acts), p)
    ensures var k := After(acts + [ZeroKeys]);
            && p.recv.id !in k.recv && Unmapped(k, p)
            && k.encKey.None? && k.next.None? && k.current.None? && k.previous.None?
            && p.recv.id in k.retired
  {
    AfterOne(acts, ZeroKeys);
    AllKnown(acts);
  }

  /** And after `add_keypair` the key that it displaced does not, and its id has been handed back. */
  lemma {:induction false} AddUnmaps(acts: seq<Action>, initiator: bool, send: Key, recv: Key, p: KeyPair)
    requires (if initiator then After(acts).current else After(acts).next) == Some(p)
    ensures var k := After(acts + [AddKeypair(initiator, send, recv)]);
            Unmapped(k, p) && p.recv.id in HandedBack(acts + [AddKeypair(initiator, send, recv)])
  {
    var a := AddKeypair(initiator, send, recv);
    AfterOne(acts, a);
    AllKnown(acts);
    assert OnWheel(After(acts), p);
    assert (acts + [a])[..|acts|] == acts;
  }

  /** A key that does not decrypt never does again. */
  lemma {:induction false} StaysUnmapped(acts: seq<Action>, later: seq<Action>, p: KeyPair)
    requires Unmapped(After(acts), p) && p.uid < |Pairs(acts)|
    ensures Unmapped(After(acts + later), p) && p.uid < |Pairs(acts + later)|
  {
    if later == [] {
      assert acts + later == acts;
    } else {
      var n := |later| - 1;
      StaysUnmapped(acts, later[..n], p);
      assert acts + later == (acts + later[..n]) + [later[n]];
      AfterOne(acts + later[..n], later[n]);
      AllKnown(acts + later[..n]);
    }
  }

  /** So a key that was on the wheel when it was zeroed is gone for good, whatever follows. */
  lemma {:induction false} ZeroedKeyIsGone(acts: seq<Action>, later: seq<Action>, p: KeyPair)
    requires OnWheel(After(acts), p)
    ensures Unmapped(After(acts + [ZeroKeys] + later), p)
  {
    ZeroUnmaps(acts, p);
    AfterOne(acts, ZeroKeys);
    AllKnown(acts);
    StaysUnmapped(acts + [ZeroKeys], later, p);
  }

  // -------------------------------------------------------- the account of the ids

  ghost predicate IdsDiffer(acts: seq<Action>) {
    forall i, j :: 0 <= i < j < |Pairs(acts)| ==> Pairs(acts)[i].recv.id != Pairs(acts)[j].recv.id
  }

  ghost predicate IsId(acts: seq<Action>, id: u32) {
    exists i :: 0 <= i < |Pairs(acts)| && Pairs(acts)[i].recv.id == id
  }

  predicate Accounted(acts: seq<Action>, id: u32) {
    id in HandedBack(acts) || id in After(acts).retired
  }

  lemma {:induction false} PrefixIds(acts: seq<Action>)
    requires acts != []
    ensures var before := acts[..|acts| - 1];
            && Pairs(before) <= Pairs(acts) && (IdsDiffer(acts) ==> IdsDiffer(before))
            && (forall id :: IsId(before, id) ==> IsId(acts, id))
  {
    var before := acts[..|acts| - 1];
    forall i, j | IdsDiffer(acts) && 0 <= i < j < |Pairs(before)|
      ensures Pairs(before)[i].recv.id != Pairs(before)[j].recv.id
    {
      assert Pairs(acts)[i] == Pairs(before)[i] && Pairs(acts)[j] == Pairs(before)[j];
    }
    forall id | IsId(before, id) ensures IsId(acts, id) {
      var i :| 0 <= i < |Pairs(before)| && Pairs(before)[i].recv.id == id;
      assert Pairs(acts)[i].recv.id == id;
    }
  }

  lemma {:induction false} WheelIds(acts: seq<Action>, p: KeyPair)
    requires OnWheel(After(acts), p)
    ensures IsId(acts, p.recv.id)
  {
    AllKnown(acts);
    assert Pairs(acts)[p.uid].recv.id == p.recv.id;
  }

  lemma {:induction false} AccountedAreIds(acts: seq<Action>)
    ensures forall id :: Accounted(acts, id) ==> IsId(acts, id)
  {
    if acts != [] {
      var before, a := acts[..|acts| - 1], acts[|acts| - 1];
      AccountedAreIds(before);
      PrefixIds(acts);
      var k := After(before);
      forall id | Accounted(acts, id) ensures IsId(acts, id) {
        if !Accounted(before, id) {
          var p :| OnWheel(k, p) && p.recv.id == id;
          WheelIds(before, p);
        }
      }
    }
  }

  /**
   * In every run with different ids, an id leads to a decryption key exactly as long as it has
   * been neither handed back nor retired.
   */
  lemma {:induction false} MappedUntilReturned(acts: seq<Action>, id: u32)
    requires IdsDiffer(acts)
    ensures id in After(acts).recv <==> IsId(acts, id) && !Accounted(acts, id)
  {
    if acts != [] {
      var before, a := acts[..|acts| - 1], acts[|acts| - 1];
      PrefixIds(acts);
      MappedUntilReturned(before, id);
      AccountedAreIds(before);
      AllKnown(before);
      MappedStep(before, acts, a, id);
    }
  }

  lemma {:induction false} MappedStep(before: seq<Action>, acts: seq<Action>, a: Action, id: u32)
    requires acts == before + [a] && IdsDiffer(acts)
    requires id in After(before).recv <==> IsId(before, id) && !Accounted(before, id)
    requires forall i :: Accounted(before, i) ==> IsId(before, i)
    ensures id in After(acts).recv <==> IsId(acts, id) && !Accounted(acts, id)
  {
    assert acts[..|acts| - 1] == before;
    PrefixIds(acts);
    AfterOne(before, a);
    var k := After(before);
    if a.AddKeypair? {
      NewId(before, acts, a, id);
      var displaced := if a.initiator then k.current else k.next;
      if displaced.Some? { WheelIds(before, displaced.value); NewId(before, acts, a, displaced.value.recv.id); }
    } else {
      assert Pairs(acts) == Pairs(before);
      assert IsId(acts, id) <==> IsId(before, id);
    }
  }

  /** The ids after `add_keypair` are those before and the new one, which is none of them. */
  lemma NewId(before: seq<Action>, acts: seq<Action>, a: Action, id: u32)
    requires acts == before + [a] && a.AddKeypair? && IdsDiffer(acts)
    ensures IsId(acts, id) <==> IsId(before, id) || id == a.recv.id
    ensures IsId(before, id) ==> id != a.recv.id
  {
    AfterOne(before, a);
    var n := |Pairs(before)|;
    assert Pairs(acts)[n].recv.id == a.recv.id;
    if IsId(before, id) {
      var i :| 0 <= i < n && Pairs(before)[i].recv.id == id;
      assert Pairs(acts)[i].recv.id == id;
    }
    if IsId(acts, id) && id != a.recv.id {
      var i :| 0 <= i < |Pairs(acts)| && Pairs(acts)[i].recv.id == id;
      assert Pairs(before)[i].recv.id == id;
    }
  }

  // ------------------------------------------------------------ keys that get lost

  predicate Confirms(k: Keys, a: Action) {
    a.ConfirmKey? && k.next.Some? && k.next.value.uid == a.keypair.uid
  }

  /** `previous` holds a key that a confirmation has put there, so that its id is still out. */
  predicate Lingers(acts: seq<Action>) {
    if acts == [] then false
    else
      var before, a := acts[..|acts| - 1], acts[|acts| - 1];
      if a.AddKeypair? || a.ZeroKeys? then false
      else if Confirms(After(before), a) then After(before).current.Some?
      else Lingers(before)
  }

  /** A step that writes over such a key. */
  predicate Loses(acts: seq<Action>, a: Action) {
    Lingers(acts) && (a.AddKeypair? || Confirms(After(acts), a))
  }

  predicate NeverLoses(acts: seq<Action>) {
    acts == [] || (NeverLoses(acts[..|acts| - 1]) && !Loses(acts[..|acts| - 1], acts[|acts| - 1]))
  }

  /** Every key that decrypts is on the wheel. */
  ghost predicate NoStray(k: Keys) {
    forall id :: id in k.recv ==> OnWheel(k, k.recv[id])
  }

  /** The live slots are mapped, and `previous` is exactly if it lingers. */
  ghost predicate SlotsMapped(k: Keys, lingers: bool) {
    && Mapped(k, k.next) && Mapped(k, k.current)
    && (lingers ==> k.previous.Some? && Mapped(k, k.previous))
    && (k.previous.Some? && !lingers ==> Unmapped(k, k.previous.value))
    && (k.next.Some? ==> k.next != k.current && k.next != k.previous)
    && (k.current.Some? ==> k.current != k.previous)
  }

  /** An id belongs to one pair only, on the wheel and in the table. */
  ghost predicate IdsTell(k: Keys) {
    && (forall p, q :: OnWheel(k, p) && OnWheel(k, q) && p.recv.id == q.recv.id ==> p == q)
    && (forall p, id :: OnWheel(k, p) && id in k.recv && p.recv.id == id ==> p == k.recv[id])
    && (forall id :: id in k.recv ==> k.recv[id].recv.id == id && k.recv[id].uid < k.made)
    && (forall p :: OnWheel(k, p) ==> p.uid < k.made)
  }

  lemma {:induction false} DifferentIdsTell(acts: seq<Action>)
    requires IdsDiffer(acts)
    ensures IdsTell(After(acts))
  {
    AllKnown(acts);
    var k, pairs := After(acts), Pairs(acts);
    forall p, q | OnWheel(k, p) && OnWheel(k, q) && p.recv.id == q.recv.id ensures p == q {
      assert pairs[p.uid] == p && pairs[q.uid] == q;
    }
    forall p, id | OnWheel(k, p) && id in k.recv && p.recv.id == id ensures p == k.recv[id] {
      assert pairs[p.uid] == p && pairs[k.recv[id].uid] == k.recv[id];
    }
  }

  ghost predicate IsNewId(k: Keys, id: u32) {
    id !in k.recv && forall p :: OnWheel(k, p) ==> p.recv.id != id
  }

  lemma AddSlots(k: Keys, lingers: bool, initiator: bool, send: Key, recv: Key)
    requires SlotsMapped(k, lingers) && IdsTell(k) && IsNewId(k, recv.id)
    ensures SlotsMapped(Add(k, initiator, send, recv).0, false)
  {
    if k.next.Some? { assert OnWheel(k, k.next.value); }
    if k.current.Some? { assert OnWheel(k, k.current.value); }
  }

  lemma AddStray(k: Keys, lingers: bool, initiator: bool, send: Key, recv: Key)
    requires SlotsMapped(k, lingers) && IdsTell(k) && IsNewId(k, recv.id)
    ensures NoStray(Add(k, initiator, send, recv).0) <==> NoStray(k) && !lingers
  {
    var k' := Add(k, initiator, send, recv).0;
    var displaced := Displaced(k, initiator);
    if displaced.Some? { assert OnWheel(k, displaced.value); }
    if lingers {
      var p := k.previous.value;
      assert OnWheel(k, p) && p.recv.id in k'.recv && k'.recv[p.recv.id] == p;
      assert !OnWheel(k', p);
    }
    if NoStray(k') {
      forall id | id in k.recv ensures OnWheel(k, k.recv[id]) {
        if !displaced.Some? || id != displaced.value.recv.id {
          assert id in k'.recv && OnWheel(k', k.recv[id]);
        }
      }
    }
    if NoStray(k) && !lingers {
      forall id | id in k'.recv ensures OnWheel(k', k'.recv[id]) {
        if id != recv.id { assert OnWheel(k, k.recv[id]); }
      }
    }
  }

  lemma ConfirmSlots(k: Keys, lingers: bool, a: Action)
    requires SlotsMapped(k, lingers) && IdsTell(k) && Confirms(k, a)
    ensures SlotsMapped(Apply(k, a), k.current.Some?)
    ensures NoStray(Apply(k, a)) <==> NoStray(k) && !lingers
  {
    var k' := Apply(k, a);
    assert k'.recv == k.recv;
    if lingers {
      var p := k.previous.value;
      assert k'.recv[p.recv.id] == p && !OnWheel(k', p);
    }
    if NoStray(k') {
      assert forall id :: id in k.recv ==> OnWheel(k', k.recv[id]);
    }
    if NoStray(k) && !lingers {
      forall id | id in k'.recv ensures OnWheel(k', k'.recv[id]) {
        assert OnWheel(k, k.recv[id]);
      }
    }
  }

  lemma ZeroSlots(k: Keys, lingers: bool)
    requires SlotsMapped(k, lingers) && IdsTell(k)
    ensures SlotsMapped(Zero(k), false)
    ensures NoStray(Zero(k)) <==> NoStray(k)
  {
    var k' := Zero(k);
    if NoStray(k') {
      forall id | id in k.recv ensures OnWheel(k, k.recv[id]) {
        if id !in k'.recv {
          var p :| OnWheel(k, p) && p.recv.id == id;
        }
      }
    }
    if NoStray(k) {
      forall id | id in k'.recv ensures OnWheel(k', k'.recv[id]) {
        assert OnWheel(k, k.recv[id]);
      }
    }
  }

  lemma OtherSlots(k: Keys, lingers: bool, a: Action)
    requires SlotsMapped(k, lingers) && (a.Send? || (a.ConfirmKey? && !Confirms(k, a)))
    ensures SlotsMapped(Apply(k, a), lingers)
    ensures NoStray(Apply(k, a)) <==> NoStray(k)
  {
    var k' := Apply(k, a);
    assert k'.recv == k.recv && forall p :: OnWheel(k', p) <==> OnWheel(k, p);
  }

  lemma {:induction false} StraySteps(before: seq<Action>, a: Action)
    requires IdsDiffer(before + [a]) && IdsDiffer(before) && SlotsMapped(After(before), Lingers(before))
    ensures SlotsMapped(After(before + [a]), Lingers(before + [a]))
    ensures NoStray(After(before + [a])) <==> NoStray(After(before)) && !Loses(before, a)
  {
    hide SlotsMapped, NoStray, IdsDiffer, Add, Zero, Confirm;
    var k, acts := After(before), before + [a];
    AfterOne(before, a);
    assert acts[..|acts| - 1] == before;
    DifferentIdsTell(before);
    match a
    case AddKeypair(initiator, send, recv) =>
      AddedIsNew(before, a);
      AddSlots(k, Lingers(before), initiator, send, recv);
      AddStray(k, Lingers(before), initiator, send, recv);
    case ConfirmKey(kp) =>
      if Confirms(k, a) { ConfirmSlots(k, Lingers(before), a); } else { OtherSlots(k, Lingers(before), a); }
    case ZeroKeys => ZeroSlots(k, Lingers(before));
    case Send(room) => OtherSlots(k, Lingers(before), a);
  }

  lemma {:induction false} AddedIsNew(before: seq<Action>, a: Action)
    requires a.AddKeypair? && IdsDiffer(before + [a])
    ensures IsNewId(After(before), a.recv.id)
  {
    var k, pairs, n := After(before), Pairs(before), |Pairs(before)|;
    AllKnown(before);
    AfterOne(before, a);
    assert Pairs(before + [a])[n].recv.id == a.recv.id;
    forall p | OnWheel(k, p) ensures p.recv.id != a.recv.id {
      assert Pairs(before + [a])[p.uid] == p;
    }
    forall id | id in k.recv ensures k.recv[id].recv.id != a.recv.id {
      assert Pairs(before + [a])[k.recv[id].uid] == k.recv[id];
    }
  }

  lemma {:induction false} StrayOverRuns(acts: seq<Action>)
    requires IdsDiffer(acts)
    ensures SlotsMapped(After(acts), Lingers(acts))
    ensures NoStray(After(acts)) <==> NeverLoses(acts)
  {
    if acts != [] {
      var before, a := acts[..|acts| - 1], acts[|acts| - 1];
      PrefixIds(acts);
      assert acts == before + [a];
      StrayOverRuns(before);
      StraySteps(before, a);
    } else {
      assert After(acts) == INITIAL;
    }
  }

  lemma {:induction false} MappedIsPair(acts: seq<Action>, i: nat)
    requires IdsDiffer(acts) && i < |Pairs(acts)|
    ensures var k, p := After(acts), Pairs(acts)[i]; p.recv.id in k.recv ==> k.recv[p.recv.id] == p
  {
    AllKnown(acts);
    var k, p := After(acts), Pairs(acts)[i];
    if p.recv.id in k.recv {
      var q := k.recv[p.recv.id];
      assert Pairs(acts)[q.uid] == q;
    }
  }

  /**
   * In every run with different ids: each id that left the wheel has been handed back or is
   * retired, and with it each key that decrypts is on the wheel, exactly if no step wrote over a
   * `previous` key that a confirmation had put there.
   */
  lemma {:induction false} NothingIsLostExactly(acts: seq<Action>)
    requires IdsDiffer(acts)
    ensures (forall i :: 0 <= i < |Pairs(acts)| && !OnWheel(After(acts), Pairs(acts)[i]) ==>
               Accounted(acts, Pairs(acts)[i].recv.id)) <==> NeverLoses(acts)
    ensures NoStray(After(acts)) <==> NeverLoses(acts)
  {
    hide SlotsMapped, Accounted;
    StrayOverRuns(acts);
    AllKnown(acts);
    var k, pairs := After(acts), Pairs(acts);
    if NoStray(k) {
      forall i | 0 <= i < |pairs| && !OnWheel(k, pairs[i]) ensures Accounted(acts, pairs[i].recv.id) {
        MappedUntilReturned(acts, pairs[i].recv.id);
        assert IsId(acts, pairs[i].recv.id);
        MappedIsPair(acts, i);
      }
    } else {
      var id :| id in k.recv && !OnWheel(k, k.recv[id]);
      MappedUntilReturned(acts, id);
      assert pairs[k.recv[id].uid] == k.recv[id];
    }
  }

  /** It does happen: after two confirmed responder keys and a third, the first is never taken off the table. */
  lemma ConfirmedKeyIsLost(send: Key, r0: Key, r1: Key, r2: Key)
    requires r0.id != r1.id && r0.id != r2.id && r1.id != r2.id
    ensures var p0, p1 := KeyPair(0, false, send, r0), KeyPair(1, false, send, r1);
            var acts := [AddKeypair(false, send, r0), ConfirmKey(p0), AddKeypair(false, send, r1), ConfirmKey(p1),
                         AddKeypair(false, send, r2)];
            var k := After(acts + [ZeroKeys]);
            && r0.id in k.recv && k.recv[r0.id] == p0 && !OnWheel(After(acts), p0) && !Accounted(acts, r0.id)
  {
    var p0, p1 := KeyPair(0, false, send, r0), KeyPair(1, false, send, r1);
    var a4 := AddKeypair(false, send, r2);
    hide After, HandedBack, Pairs, Accounted, Add, Zero;
    var four := [AddKeypair(false, send, r0), ConfirmKey(p0), AddKeypair(false, send, r1), ConfirmKey(p1)];
    TwoConfirmed(send, r0, r1);
    AfterOne(four, a4);
    ThirdKey(After(four), send, r0, r1, r2);
    var acts := four + [a4];
    assert acts == [four[0], four[1], four[2], four[3], a4];
    AfterOne(acts, ZeroKeys);
    NotAccounted(acts, r0.id);
  }

  /** Two responder keys, each confirmed: the first is `previous`, and both decrypt. */
  lemma TwoConfirmed(send: Key, r0: Key, r1: Key)
    requires r0.id != r1.id
    ensures var p0, p1 := KeyPair(0, false, send, r0), KeyPair(1, false, send, r1);
            var acts := [AddKeypair(false, send, r0), ConfirmKey(p0), AddKeypair(false, send, r1), ConfirmKey(p1)];
            var k := After(acts);
            && k.next.None? && k.current == Some(p1) && k.previous == Some(p0) && k.retired == []
            && k.recv == map[r0.id := p0, r1.id := p1] && k.made == 2 && HandedBack(acts) == []
  {
    hide After, HandedBack, Pairs, Add, Confirm;
    var p0, p1 := KeyPair(0, false, send, r0), KeyPair(1, false, send, r1);
    var a0, a1, a2, a3 := AddKeypair(false, send, r0), ConfirmKey(p0), AddKeypair(false, send, r1), ConfirmKey(p1);
    Nothing();
    var s1 := [] + [a0];
    var s2 := s1 + [a1];
    var s3 := s2 + [a2];
    AfterOne([], a0);
    AfterOne(s1, a1);
    AfterOne(s2, a2);
    AfterOne(s3, a3);
    assert s3 + [a3] == [a0, a1, a2, a3];
    OneKey(INITIAL, send, r0);
    OneKey(After(s2), send, r1);
  }

  /** A responder key that comes with an empty `next` and is confirmed. */
  lemma OneKey(k: Keys, send: Key, r: Key)
    requires k.next.None?
    ensures var p := KeyPair(k.made, false, send, r);
            var (k1, out) := Add(k, false, send, r);
            && out == k.retired && k1.next == Some(p) && k1.recv == k.recv[r.id := p]
            && Confirm(k1, p) == Install(k1, p).(next := None, current := Some(p), previous := k.current)
            && k1.current == k.current && k1.retired == [] && k1.made == k.made + 1
  {
  }

  lemma ThirdKey(k: Keys, send: Key, r0: Key, r1: Key, r2: Key)
    requires r0.id != r1.id && r0.id != r2.id && r1.id != r2.id && k.next.None? && k.retired == [] && k.made == 2
    requires var p0, p1 := KeyPair(0, false, send, r0), KeyPair(1, false, send, r1);
             k.current == Some(p1) && k.previous == Some(p0) && k.recv == map[r0.id := p0, r1.id := p1]
    ensures var p0 := KeyPair(0, false, send, r0);
            var (k1, out) := Add(k, false, send, r2);
            && out == [] && k1.retired == [] && !OnWheel(k1, p0)
            && r0.id in Zero(k1).recv && Zero(k1).recv[r0.id] == p0
  {
  }

  lemma Nothing()
    ensures After([]) == INITIAL && HandedBack([]) == []
  {
  }

  lemma {:induction false} NotAccounted(acts: seq<Action>, id: u32)
    requires HandedBack(acts) == [] && After(acts).retired == []
    ensures !Accounted(acts, id)
  {
  }

  // ------------------------------------------------------- what the calls are for

  /** In every run `add_keypair` puts the new pair where its role says, and an initiator's to use at once. */
  lemma {:induction false} AddTurnsTheWheel(acts: seq<Action>, initiator: bool, send: Key, recv: Key)
    ensures var k, k' := After(acts), After(acts + [AddKeypair(initiator, send, recv)]);
            var made := KeyPair(|Pairs(acts)|, initiator, send, recv);
            && recv.id in k'.recv && k'.recv[recv.id] == made && k'.retired == []
            && (if initiator
                then k'.current == Some(made) && k'.previous == k.current && k'.next == k.next
                     && k'.encKey == Some(EncryptionState(made, 0))
                else k'.next == Some(made) && k'.previous == k.next && k'.current == k.current
                     && k'.encKey == k.encKey)
  {
    AfterOne(acts, AddKeypair(initiator, send, recv));
    AllKnown(acts);
  }

  /** Confirming the next pair makes it the current one, with its first nonce; any other changes nothing. */
  lemma {:induction false} ConfirmTurnsTheWheel(acts: seq<Action>, kp: KeyPair)
    ensures var k, k' := After(acts), After(acts + [ConfirmKey(kp)]);
            if k.next == Some(kp)
            then k'.current == Some(kp) && k'.previous == k.current && k'.next.None?
                 && k'.encKey == Some(EncryptionState(kp, 0)) && k'.recv == k.recv && k'.retired == k.retired
            else (k.next.None? || k.next.value.uid != kp.uid) ==> k' == k
  {
    AfterOne(acts, ConfirmKey(kp));
  }

  /** How often a pair was used. */
  function Uses(used: seq<(nat, nat)>, uid: nat): nat {
    if used == [] then 0
    else Uses(used[..|used| - 1], uid) + if used[|used| - 1].0 == uid then 1 else 0
  }

  ghost predicate Consecutive(k: Keys) {
    && (forall i :: 0 <= i < |k.used| ==> k.used[i].1 == Uses(k.used[..i], k.used[i].0))
    && (forall u :: u !in k.installs ==> Uses(k.used, u) == 0)
    && (k.encKey.Some? ==> k.encKey.value.nonce == Uses(k.used, k.encKey.value.keypair.uid))
  }

  lemma ConsecutiveStep(k: Keys, a: Action)
    requires KeyWheel.Inv(k) && Consecutive(k)
    ensures Consecutive(Apply(k, a))
  {
    if a.Send? {
      ConsecutiveSend(k, a.room);
    } else {
      assert Apply(k, a).used == k.used;
      if a.AddKeypair? { assert k.made !in k.installs; }
    }
  }

  lemma ConsecutiveSend(k: Keys, room: bool)
    requires KeyWheel.Inv(k) && Consecutive(k)
    ensures Consecutive(TakeNonce(k, room).0)
  {
    var k', n := TakeNonce(k, room).0, |k.used|;
    if k'.used != k.used {
      assert k'.used[..n] == k.used;
      forall i | 0 <= i < |k'.used| ensures k'.used[i].1 == Uses(k'.used[..i], k'.used[i].0) {
        assert k'.used[..i] == k.used[..i];
        if i == n { assert k.used[..n] == k.used; }
      }
    }
  }

  lemma {:induction false} ConsecutiveOverRuns(acts: seq<Action>)
    ensures Consecutive(After(acts))
  {
    if acts != [] {
      hide Consecutive;
      ConsecutiveOverRuns(acts[..|acts| - 1]);
      RunInv(acts[..|acts| - 1]);
      ConsecutiveStep(After(acts[..|acts| - 1]), acts[|acts| - 1]);
    } else {
      assert After(acts) == INITIAL;
    }
  }

  /** In every run the nonces of a pair are 0, 1, 2, … without a gap. */
  lemma {:induction false} NoncesAreConsecutive(acts: seq<Action>, i: nat)
    requires i < |After(acts).used|
    ensures var used := After(acts).used; used[i].1 == Uses(used[..i], used[i].0)
  {
    ConsecutiveOverRuns(acts);
  }

  /** A `send` takes a nonce exactly if there is a key with nonces left and room in the queue. */
  lemma {:induction false} SendTakesExactly(acts: seq<Action>, room: bool)
    ensures var k, k' := After(acts), After(acts + [Send(room)]);
            var usable := k.encKey.Some? && k.encKey.value.nonce < REJECT_AFTER_MESSAGES - 1;
            && k'.used == (if usable && room then k.used + [(k.encKey.value.keypair.uid, k.encKey.value.nonce)]
               else k.used)
            && (k'.encKey.Some? <==> usable)
            && k'.current == k.current && k'.next == k.next && k'.recv == k.recv
  {
    AfterOne(acts, Send(room));
  }
}
