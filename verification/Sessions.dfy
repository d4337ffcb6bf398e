/**
 * The session tables of a device (src/wireguard_hybrid_new/handshake/device.rs): `id_map`,
 * `id_to_sid` and `sid_map`, next to the configured peers and the half-open table.
 */
module Sessions {
  import opened Base
  import opened Codec
  import opened Noise
  import HO = HalfOpen

  const MAX_PEER_PER_DEVICE: nat := 0x10_0000

  /** `half` is the set of ids in the half-open table. */
  datatype Tables = Tables(
    idMap: map<u32, Hash>, idToSid: map<u32, Sid>, sidMap: map<Sid, Hash>, peers: set<Hash>, half: set<u32>)

  /** A drawn session id that `allocate_session` takes. */
  predicate Vacant(t: Tables, sid: Sid) {
    SessionIndex(sid) != 0 && SessionIndex(sid) !in t.idMap && sid !in t.sidMap
  }

  function Allocated(t: Tables, owner: Hash, sid: Sid): Tables {
    var id := SessionIndex(sid);
    t.(idMap := t.idMap[id := owner], idToSid := t.idToSid[id := sid], sidMap := t.sidMap[sid := owner])
  }

  function Registered(t: Tables, id: u32): Tables {
    t.(half := t.half + {id})
  }

  /** The id leaves the three session tables. */
  function Dropped(t: Tables, id: u32): Tables {
    t.(idMap := t.idMap - {id}, idToSid := t.idToSid - {id},
       sidMap := if id in t.idToSid then t.sidMap - {t.idToSid[id]} else t.sidMap)
  }

  function Released(t: Tables, id: u32): Tables {
    Dropped(t, id).(half := t.half - {id})
  }

  function DroppedAll(t: Tables, ids: seq<u32>): Tables {
    if ids == [] then t else Dropped(DroppedAll(t, ids[..|ids| - 1]), ids[|ids| - 1])
  }

  function Reaped(t: Tables, ids: seq<u32>): Tables {
    DroppedAll(t, ids).(half := t.half - (set id | id in ids))
  }

  function Removed(t: Tables, pk: Hash): Tables {
    var idMap := map id | id in t.idMap && t.idMap[id] != pk :: t.idMap[id];
    var sidMap := map sid | sid in t.sidMap && t.sidMap[sid] != pk :: t.sidMap[sid];
    var idToSid := map id | id in t.idToSid && id in idMap && t.idToSid[id] in sidMap :: t.idToSid[id];
    Tables(idMap, idToSid, sidMap, t.peers - {pk}, t.half)
  }

  function Cleared(t: Tables): Tables {
    Tables(map[], map[], map[], {}, t.half)
  }

  function Added(t: Tables, pk: Hash): Tables {
    t.(peers := t.peers + {pk})
  }

  // ---------------------------------------------------------------- invariant

  /** Every id has a session id of its own, with the same configured owner. */
  ghost predicate IdsOk(t: Tables) {
    && t.idMap.Keys == t.idToSid.Keys
    && (forall id :: id in t.idToSid ==>
          && SessionIndex(t.idToSid[id]) == id != 0
          && t.idToSid[id] in t.sidMap && t.sidMap[t.idToSid[id]] == t.idMap[id])
    && (forall id :: id in t.idMap ==> t.idMap[id] in t.peers)
  }

  /** Every session id belongs to the id that its first four bytes spell. */
  ghost predicate SidsOk(t: Tables) {
    forall sid :: sid in t.sidMap ==> SessionIndex(sid) in t.idToSid && t.idToSid[SessionIndex(sid)] == sid
  }

  ghost predicate Consistent(t: Tables) {
    IdsOk(t) && SidsOk(t)
  }

  lemma AllocateKeeps(t: Tables, owner: Hash, sid: Sid)
    requires Consistent(t) && owner in t.peers && Vacant(t, sid)
    ensures Consistent(Allocated(t, owner, sid))
  {
    hide SessionIndex;
  }

  lemma DropKeeps(t: Tables, id: u32)
    requires Consistent(t)
    ensures Consistent(Dropped(t, id))
  {
    hide SessionIndex;
    var t' := Dropped(t, id);
    assert t'.idMap.Keys == t.idMap.Keys - {id} && t'.idToSid.Keys == t.idToSid.Keys - {id};
  }

  lemma {:induction false} DropAllKeeps(t: Tables, ids: seq<u32>)
    requires Consistent(t)
    ensures Consistent(DroppedAll(t, ids))
    ensures DroppedAll(t, ids).idMap.Keys == t.idMap.Keys - set id | id in ids
    ensures DroppedAll(t, ids).half == t.half
  {
    if ids != [] {
      var sooner, id := ids[..|ids| - 1], ids[|ids| - 1];
      DropAllKeeps(t, sooner);
      DropKeeps(DroppedAll(t, sooner), id);
      assert ids == sooner + [id];
    }
  }

  lemma RemoveKeeps(t: Tables, pk: Hash)
    requires Consistent(t)
    ensures Consistent(Removed(t, pk))
  {
    hide SessionIndex;
    var t' := Removed(t, pk);
    assert t'.idMap.Keys == t'.idToSid.Keys;
  }

  // ------------------------------------------------------------------- events

  datatype Event =
    | Begin(owner: Hash, sid: Sid)          // `begin` allocates
    | Respond(owner: Hash, sid: Sid)        // an accepted initiation allocates and becomes half-open
    | Release(id: u32)
    | Reap(ids: seq<u32>)
    | Remove(pk: Hash)
    | Clear
    | Add(pk: Hash)

  ghost predicate Enabled(t: Tables, e: Event) {
    match e
    case Begin(owner, sid) => owner in t.peers && Vacant(t, sid)
    case Respond(owner, sid) => owner in t.peers && Vacant(t, sid)
    case Release(id) => id in t.idMap
    case Reap(ids) => forall i :: 0 <= i < |ids| ==> ids[i] in t.half
    case Remove(pk) => pk in t.peers
    case Clear => true
    case Add(pk) => |t.peers| <= MAX_PEER_PER_DEVICE
  }

  function Apply(t: Tables, e: Event): Tables {
    match e
    case Begin(owner, sid) => Allocated(t, owner, sid)
    case Respond(owner, sid) => Registered(Allocated(t, owner, sid), SessionIndex(sid))
    case Release(id) => Released(t, id)
    case Reap(ids) => Reaped(t, ids)
    case Remove(pk) => Removed(t, pk)
    case Clear => Cleared(t)
    case Add(pk) => Added(t, pk)
  }

  ghost predicate IsRun(t: Tables, events: seq<Event>)
    decreases |events|
  {
    events == [] || (Enabled(t, events[0]) && IsRun(Apply(t, events[0]), events[1..]))
  }

  function Outcome(t: Tables, events: seq<Event>): Tables
    decreases |events|
  {
    if events == [] then t else Outcome(Apply(t, events[0]), events[1..])
  }

  const EMPTY: Tables := Tables(map[], map[], map[], {}, {})

  lemma StepKeeps(t: Tables, e: Event)
    requires Consistent(t) && Enabled(t, e)
    ensures Consistent(Apply(t, e))
  {
    hide SessionIndex, Allocated, Dropped, DroppedAll, Removed, Vacant;
    match e
    case Begin(owner, sid) => AllocateKeeps(t, owner, sid);
    case Respond(owner, sid) => AllocateKeeps(t, owner, sid);
    case Release(id) => DropKeeps(t, id);
    case Reap(ids) => DropAllKeeps(t, ids);
    case Remove(pk) => RemoveKeeps(t, pk);
    case Clear =>
    case Add(pk) =>
  }

  lemma {:induction false} RunKeeps(t: Tables, events: seq<Event>)
    requires Consistent(t) && IsRun(t, events)
    ensures Consistent(Outcome(t, events))
    decreases |events|
  {
    hide Consistent, Apply;
    if events != [] {
      StepKeeps(t, events[0]);
      RunKeeps(Apply(t, events[0]), events[1..]);
    }
  }

  /**
   * In every run the three tables are one bijection between ids and session ids: the id is the
   * head of the session id, both have the same owner, and that owner is a configured peer.
   */
  lemma {:induction false} OneBijection(events: seq<Event>, id: u32, sid: Sid)
    requires IsRun(EMPTY, events)
    ensures var t := Outcome(EMPTY, events);
            && (id in t.idToSid && t.idToSid[id] == sid <==> sid in t.sidMap && SessionIndex(sid) == id)
            && (id in t.idMap <==> id in t.idToSid)
            && (id in t.idMap ==> id != 0 && t.idMap[id] in t.peers)
            && (sid in t.sidMap ==> t.sidMap[sid] in t.peers)
            && (sid in t.sidMap && SessionIndex(sid) == id ==> id in t.idMap && t.sidMap[sid] == t.idMap[id])
  {
    RunKeeps(EMPTY, events);
    hide SessionIndex, IsRun, Outcome;
    var t := Outcome(EMPTY, events);
    assert id in t.idMap <==> id in t.idMap.Keys;
    assert id in t.idToSid <==> id in t.idToSid.Keys;
  }

  // ------------------------------------------------- sessions stay with their owner

  /** What can end the session of `id`. */
  predicate Ends(t: Tables, e: Event, id: u32, owner: Hash) {
    match e
    case Release(i) => i == id
    case Reap(ids) => id in ids
    case Remove(pk) => pk == owner
    case Clear => true
    case _ => false
  }

  ghost predicate NeverEnds(t: Tables, events: seq<Event>, id: u32, owner: Hash)
    decreases |events|
  {
    events == [] || (!Ends(t, events[0], id, owner) && NeverEnds(Apply(t, events[0]), events[1..], id, owner))
  }

  predicate Owns(t: Tables, id: u32, sid: Sid, owner: Hash) {
    id in t.idMap && t.idMap[id] == owner && id in t.idToSid && t.idToSid[id] == sid
    && sid in t.sidMap && t.sidMap[sid] == owner
  }

  lemma {:induction false} DropAllLeaves(t: Tables, ids: seq<u32>, id: u32, sid: Sid, owner: Hash)
    requires Consistent(t) && Owns(t, id, sid, owner) && id !in ids
    ensures Owns(DroppedAll(t, ids), id, sid, owner)
  {
    if ids != [] {
      var sooner, last := ids[..|ids| - 1], ids[|ids| - 1];
      DropAllLeaves(t, sooner, id, sid, owner);
      DropAllKeeps(t, sooner);
      DropLeaves(DroppedAll(t, sooner), last, id, sid, owner);
    }
  }

  lemma DropLeaves(t: Tables, gone: u32, id: u32, sid: Sid, owner: Hash)
    requires Consistent(t) && Owns(t, id, sid, owner) && id != gone
    ensures Owns(Dropped(t, gone), id, sid, owner)
  {
    hide SessionIndex;
    if gone in t.idToSid { assert SessionIndex(t.idToSid[gone]) == gone; }
  }

  lemma StepLeaves(t: Tables, e: Event, id: u32, sid: Sid, owner: Hash)
    requires Consistent(t) && Enabled(t, e) && Owns(t, id, sid, owner) && !Ends(t, e, id, owner)
    ensures Owns(Apply(t, e), id, sid, owner)
  {
    hide SessionIndex, Dropped, DroppedAll;
    match e
    case Release(i) => DropLeaves(t, i, id, sid, owner);
    case Reap(ids) => DropAllLeaves(t, ids, id, sid, owner);
    case _ =>
  }

  /** A session leads to the peer it was allocated for until it is released, reaped or removed. */
  lemma {:induction false} SessionStays(t: Tables, events: seq<Event>, id: u32, sid: Sid, owner: Hash)
    requires Consistent(t) && IsRun(t, events) && NeverEnds(t, events, id, owner)
    requires Owns(t, id, sid, owner)
    ensures Owns(Outcome(t, events), id, sid, owner)
    decreases |events|
  {
    hide Consistent, Apply, Owns, Ends;
    if events != [] {
      StepKeeps(t, events[0]);
      StepLeaves(t, events[0], id, sid, owner);
      SessionStays(Apply(t, events[0]), events[1..], id, sid, owner);
    }
  }

  // --------------------------------------------------- tables told from the events

  /** Whose session `id` is, and its session id, told from what happened. */
  datatype Holder = Nobody | Holder(owner: Hash, sid: Sid)

  function HolderAfter(before: Holder, e: Event, id: u32): Holder {
    match e
    case Begin(owner, sid) => if SessionIndex(sid) == id then Holder.Holder(owner, sid) else before
    case Respond(owner, sid) => if SessionIndex(sid) == id then Holder.Holder(owner, sid) else before
    case Release(i) => if i == id then Nobody else before
    case Reap(ids) => if id in ids then Nobody else before
    case Remove(pk) => if before.Holder? && before.owner == pk then Nobody else before
    case Clear => Nobody
    case Add(_) => before
  }

  function HolderOf(events: seq<Event>, id: u32, before: Holder): Holder
    decreases |events|
  {
    if events == [] then before else HolderOf(events[1..], id, HolderAfter(before, events[0], id))
  }

  /** Half-open since it answered, until it is released or reaped. */
  predicate HalfAfter(before: bool, e: Event, id: u32) {
    match e
    case Respond(_, sid) => before || SessionIndex(sid) == id
    case Release(i) => before && i != id
    case Reap(ids) => before && id !in ids
    case _ => before
  }

  predicate HalfOf(events: seq<Event>, id: u32, before: bool)
    decreases |events|
  {
    if events == [] then before else HalfOf(events[1..], id, HalfAfter(before, events[0], id))
  }

  /** The tables hold `id` for its holder, and no other. */
  predicate Holds(t: Tables, id: u32, holder: Holder) {
    if holder.Nobody? then id !in t.idMap else Owns(t, id, holder.sid, holder.owner)
  }

  lemma {:induction false} DropAllHolds(t: Tables, ids: seq<u32>, id: u32, holder: Holder)
    requires Consistent(t) && Holds(t, id, holder)
    ensures Holds(DroppedAll(t, ids), id, if id in ids then Nobody else holder)
  {
    hide Consistent, Owns, DroppedAll;
    DropAllKeeps(t, ids);
    if id in ids || holder.Nobody? {
      assert id !in DroppedAll(t, ids).idMap.Keys;
    } else {
      DropAllLeaves(t, ids, id, holder.sid, holder.owner);
    }
  }

  lemma StepHolds(t: Tables, e: Event, id: u32, holder: Holder)
    requires Consistent(t) && Enabled(t, e) && Holds(t, id, holder)
    ensures Holds(Apply(t, e), id, HolderAfter(holder, e, id))
  {
    hide SessionIndex, Dropped, DroppedAll;
    match e
    case Release(i) => OneDropped(t, i); DropAllHolds(t, [i], id, holder);
    case Reap(ids) => DropAllHolds(t, ids, id, holder);
    case _ =>
  }

  lemma {:induction false} OneDropped(t: Tables, i: u32)
    ensures Dropped(t, i) == DroppedAll(t, [i])
  {
    assert [i][..0] == [];
  }

  lemma HalfStepExactly(t: Tables, e: Event, id: u32)
    requires Consistent(t)
    ensures id in Apply(t, e).half <==> HalfAfter(id in t.half, e, id)
  {
    hide SessionIndex;
    if e.Reap? { DropAllKeeps(t, e.ids); }
  }

  lemma {:induction false} RunHolds(t: Tables, events: seq<Event>, id: u32, holder: Holder, half: bool)
    requires Consistent(t) && IsRun(t, events) && Holds(t, id, holder) && (id in t.half <==> half)
    ensures Holds(Outcome(t, events), id, HolderOf(events, id, holder))
    ensures id in Outcome(t, events).half <==> HalfOf(events, id, half)
    decreases |events|
  {
    hide Consistent, Apply, Holds, HolderAfter, HalfAfter;
    if events != [] {
      StepKeeps(t, events[0]);
      StepHolds(t, events[0], id, holder);
      HalfStepExactly(t, events[0], id);
      RunHolds(Apply(t, events[0]), events[1..], id, HolderAfter(holder, events[0], id),
        HalfAfter(half, events[0], id));
    }
  }

  /**
   * In every run an id leads to the peer and session id it was last allocated for, unless that
   * session was released, reaped or cleared or its peer removed since: then it leads nowhere. It is
   * half-open exactly from the answer to an initiation until it is released or reaped.
   */
  lemma {:induction false} TablesTellTheHistory(events: seq<Event>, id: u32)
    requires IsRun(EMPTY, events)
    ensures var t, holder := Outcome(EMPTY, events), HolderOf(events, id, Nobody);
            && (id in t.idMap <==> holder.Holder?) && (id in t.idToSid <==> holder.Holder?)
            && (holder.Holder? ==>
                  && t.idMap[id] == holder.owner && t.idToSid[id] == holder.sid
                  && holder.sid in t.sidMap && t.sidMap[holder.sid] == holder.owner)
            && (id in t.half <==> HalfOf(events, id, false))
  {
    hide IsRun, Outcome, HolderOf, HalfOf;
    RunHolds(EMPTY, events, id, Nobody, false);
    RunKeeps(EMPTY, events);
    var t := Outcome(EMPTY, events);
    assert id in t.idMap <==> id in t.idMap.Keys;
    assert id in t.idToSid <==> id in t.idToSid.Keys;
  }

  // --------------------------------------------------------- half-open and allocated

  /** Every half-open id is an allocated one. */
  predicate HalfAllocated(t: Tables) {
    t.half <= t.idMap.Keys
  }

  /** A peer is removed only without half-open sessions, and all are only when there are none. */
  ghost predicate Harmless(t: Tables, e: Event) {
    match e
    case Remove(pk) => forall id :: id in t.half && id in t.idMap ==> t.idMap[id] != pk
    case Clear => t.half == {}
    case _ => true
  }

  /** Removing a peer keeps half-open ids allocated exactly if the peer has no half-open session. */
  lemma RemoveKeepsHalf(t: Tables, pk: Hash)
    requires HalfAllocated(t)
    ensures HalfAllocated(Removed(t, pk)) <==> forall id :: id in t.half ==> t.idMap[id] != pk
  {
    var t' := Removed(t, pk);
    if id :| id in t.half && t.idMap[id] == pk {
      assert id !in t'.idMap.Keys;
    } else {
      assert forall id :: id in t.half ==> id in t'.idMap.Keys;
    }
  }

  /** Clearing does exactly if nothing is half-open. */
  lemma ClearKeepsHalf(t: Tables)
    requires HalfAllocated(t)
    ensures HalfAllocated(Cleared(t)) <==> t.half == {}
  {
    assert Cleared(t).idMap.Keys == {};
  }

  /** So does any step exactly if it is harmless. */
  lemma HalfStep(t: Tables, e: Event)
    requires Consistent(t) && Enabled(t, e) && HalfAllocated(t)
    ensures HalfAllocated(Apply(t, e)) <==> Harmless(t, e)
  {
    hide SessionIndex, Removed, Cleared;
    match e
    case Reap(ids) => DropAllKeeps(t, ids);
    case Remove(pk) => RemoveKeepsHalf(t, pk);
    case Clear => ClearKeepsHalf(t);
    case _ =>
  }

  ghost predicate AllHarmless(t: Tables, events: seq<Event>)
    decreases |events|
  {
    events == [] || (Harmless(t, events[0]) && AllHarmless(Apply(t, events[0]), events[1..]))
  }

  predicate AlwaysHalfAllocated(t: Tables, events: seq<Event>)
    decreases |events|
  {
    HalfAllocated(t) && (events == [] || AlwaysHalfAllocated(Apply(t, events[0]), events[1..]))
  }

  /**
   * Throughout a run every half-open id is allocated, so that no newly drawn id has a half-open
   * entry, exactly if peers are only removed without half-open sessions.
   */
  lemma {:induction false} HalfOpenIsAllocated(t: Tables, events: seq<Event>)
    requires Consistent(t) && IsRun(t, events) && HalfAllocated(t)
    ensures AlwaysHalfAllocated(t, events) <==> AllHarmless(t, events)
    ensures AllHarmless(t, events) ==>
              forall sid :: Vacant(Outcome(t, events), sid) ==> SessionIndex(sid) !in Outcome(t, events).half
    decreases |events|
  {
    hide Consistent, Apply, SessionIndex, Harmless;
    if events != [] {
      StepKeeps(t, events[0]);
      HalfStep(t, events[0]);
      if Harmless(t, events[0]) {
        HalfOpenIsAllocated(Apply(t, events[0]), events[1..]);
      }
    }
  }

  /** After a removal that is not, an id can be given out again while its half-open entry is there. */
  lemma RemovalLeavesHalfOpen(pk: Hash, sid: Sid)
    requires SessionIndex(sid) != 0
    ensures var events := [Add(pk), Respond(pk, sid), Remove(pk)];
            && IsRun(EMPTY, events)
            && Vacant(Outcome(EMPTY, events), sid) && SessionIndex(sid) in Outcome(EMPTY, events).half
  {
    hide SessionIndex;
    var e0, e1, e2 := Add(pk), Respond(pk, sid), Remove(pk);
    var t1 := Apply(EMPTY, e0);
    var t2 := Apply(t1, e1);
    var t3 := Apply(t2, e2);
    assert [e0, e1, e2][1..] == [e1, e2] && [e1, e2][1..] == [e2] && [e2][1..] == [];
    assert Enabled(EMPTY, e0) && Enabled(t1, e1) && Enabled(t2, e2);
    assert IsRun(t2, [e2]) && Outcome(t2, [e2]) == t3;
    assert IsRun(t1, [e1, e2]) && Outcome(t1, [e1, e2]) == t3;
  }

  // -------------------------------------------------------------------- class

  class Device {
    var ownPkHash: Option<Hash>
    var idMap: map<u32, Hash>
    var idToSid: map<u32, Sid>
    var sidMap: map<Sid, Hash>
    var pkMap: set<Hash>
    const checker: HO.GradientDosChecker

    function View(): Tables
      reads this, checker
    {
      Tables.Tables(idMap, idToSid, sidMap, pkMap, checker.halfOpenById.Keys)
    }

    constructor (now: nat)
      ensures View() == EMPTY && fresh(checker)
    {
      ownPkHash, idMap, idToSid, sidMap, pkMap := None, map[], map[], map[], {};
      checker := new HO.GradientDosChecker(now);
    }

    /** The first vacant session id of the random stream. */
    method AllocateSession(owner: Hash, stream: seq<Sid>) returns (id: u32, sid: Sid, used: nat)
      requires exists k :: 0 <= k < |stream| && Vacant(View(), stream[k])
      modifies this`idMap, this`idToSid, this`sidMap
      ensures used <= |stream| && used > 0 && stream[used - 1] == sid && id == SessionIndex(sid)
      ensures Vacant(old(View()), sid) && forall k :: 0 <= k < used - 1 ==> !Vacant(old(View()), stream[k])
      ensures View() == Allocated(old(View()), owner, sid)
    {
      used := 0;
      while true
        invariant used <= |stream| && View() == old(View())
        invariant forall k :: 0 <= k < used ==> !Vacant(View(), stream[k])
        decreases |stream| - used
      {
        sid := stream[used];
        used := used + 1;
        id := SessionIndex(sid);
        if id == 0 || id in idMap || sid in sidMap {
          continue;
        }
        idMap := idMap[id := owner];
        idToSid := idToSid[id := sid];
        sidMap := sidMap[sid := owner];
        return;
      }
    }

    method DropId(id: u32)
      modifies this`idMap, this`idToSid, this`sidMap
      ensures View() == Dropped(old(View()), id)
    {
      idMap := idMap - {id};
      if id in idToSid {
        var sid := idToSid[id];
        idToSid := idToSid - {id};
        sidMap := sidMap - {sid};
      }
      assert idToSid == old(idToSid) - {id};
    }

    /** The source panics if the id is not allocated. */
    method Release(id: u32)
      requires id in idMap
      modifies this`idMap, this`idToSid, this`sidMap, checker
      ensures View() == Released(old(View()), id)
      ensures checker.View() == HO.Release(old(checker.View()), id)
    {
      checker.ReleaseHalfOpen(id);
      DropId(id);
    }

    /** The reaping that starts every `process` call. */
    method ReapHalfOpen(ratio: real, now: nat) returns (ids: seq<u32>)
      modifies this`idMap, this`idToSid, this`sidMap, checker
      ensures forall i :: 0 <= i < |ids| ==> ids[i] in old(checker.halfOpenById)
      ensures View() == Reaped(old(View()), ids)
      ensures checker.View() == HO.Reap(old(checker.View()), ratio, ids, now)
    {
      ids := checker.ReapExpiredHalfOpen(ratio, now);
      label reaped:
      for i := 0 to |ids|
        invariant View() == DroppedAll(old@reaped(View()), ids[..i])
        invariant checker.View() == old@reaped(checker.View())
      {
        assert ids[..i + 1][..i] == ids[..i];
        DropId(ids[i]);
      }
      assert ids[..|ids|] == ids;
      HalfAfterReap(old(View()), old@reaped(View()), ids);
    }

    /** The peer goes, and its ids with it; their half-open entries stay. */
    method Remove(pkHash: Hash) returns (ok: bool)
      modifies this`pkMap, this`idMap, this`idToSid, this`sidMap
      ensures ok == (pkHash in old(pkMap))
      ensures View() == if ok then Removed(old(View()), pkHash) else old(View())
    {
      if pkHash !in pkMap {
        return false;
      }
      pkMap := pkMap - {pkHash};
      idMap := map id | id in idMap && idMap[id] != pkHash :: idMap[id];
      sidMap := map sid | sid in sidMap && sidMap[sid] != pkHash :: sidMap[sid];
      idToSid := map id | id in idToSid && id in idMap && idToSid[id] in sidMap :: idToSid[id];
      ok := true;
    }

    method Clear()
      modifies this`pkMap, this`idMap, this`idToSid, this`sidMap
      ensures View() == Cleared(old(View()))
    {
      idMap, idToSid, sidMap, pkMap := map[], map[], map[], {};
    }

    method Add(pkHash: Hash) returns (ok: bool)
      modifies this`pkMap
      ensures ok == (|old(pkMap)| <= MAX_PEER_PER_DEVICE && ownPkHash.Some? && pkHash != ownPkHash.value)
      ensures View() == if ok then Added(old(View()), pkHash) else old(View())
    {
      if |pkMap| > MAX_PEER_PER_DEVICE {
        return false;
      }
      if ownPkHash.Some? && pkHash == ownPkHash.value {
        return false;
      }
      if ownPkHash.None? {
        return false;
      }
      pkMap := pkMap + {pkHash};
      ok := true;
    }

    /** With consistent tables the arm that the source calls unreachable is. */
    method LookupSid(sid: Sid) returns (r: Result<Hash, HandshakeError>)
      requires Consistent(View())
      ensures r == if sid in sidMap then Ok(sidMap[sid]) else Err(UnknownReceiverId)
      ensures r.Ok? ==> r.value in pkMap
    {
      if sid !in sidMap {
        return Err(UnknownReceiverId);
      }
      var hpk := sidMap[sid];
      assert idToSid[SessionIndex(sid)] == sid;
      if hpk in pkMap {
        r := Ok(hpk);
      } else {
        assert false;
      }
    }

    method LookupId(id: u32) returns (r: Result<Hash, HandshakeError>)
      requires Consistent(View())
      ensures r == if id in idMap then Ok(idMap[id]) else Err(UnknownReceiverId)
      ensures r.Ok? ==> r.value in pkMap
    {
      if id !in idMap {
        return Err(UnknownReceiverId);
      }
      var hpk := idMap[id];
      if hpk in pkMap {
        r := Ok(hpk);
      } else {
        assert false;
      }
    }
  }

  lemma {:induction false} HalfAfterReap(t: Tables, reaped: Tables, ids: seq<u32>)
    requires reaped == t.(half := t.half - set id | id in ids)
    ensures DroppedAll(reaped, ids) == Reaped(t, ids)
  {
    DropAllIgnoresHalf(t, reaped, ids);
  }

  lemma {:induction false} DropAllIgnoresHalf(t: Tables, t': Tables, ids: seq<u32>)
    requires t' == t.(half := t'.half)
    ensures DroppedAll(t', ids) == DroppedAll(t, ids).(half := t'.half)
  {
    if ids != [] {
      DropAllIgnoresHalf(t, t', ids[..|ids| - 1]);
    }
  }
}
