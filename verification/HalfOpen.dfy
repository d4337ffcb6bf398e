/**
 * Half-open accounting per source address (`GradientDosChecker` in
 * src/wireguard_hybrid_new/handshake/device.rs). Times are in nanoseconds; the load ratio and the
 * random draw are inputs.
 */
module HalfOpen {
  import opened Base

  type Addr = IpAddr

  const TOKEN_BUCKET_CAPACITY: nat := 10
  const TOKEN_REFILL_PER_SEC: nat := 5
  const SLIDING_WINDOW: nat := 30 * SECOND
  const BEHAVIOR_WINDOW: nat := 60 * SECOND
  const ACTIVITY_LIMIT: nat := 300 * SECOND
  const REAP_INTERVAL: nat := 15 * SECOND
  const LONGEST_TIMEOUT: nat := 30 * SECOND
  const CONSECUTIVE_FAILURE_THRESHOLD: nat := 2
  const MALICIOUS_MIN_SAMPLES: nat := 3
  const QUOTA_NORMAL: nat := 64

  datatype IpState = IpState(
    tokens: nat, lastRefill: nat, requestTimes: seq<nat>, successTimes: seq<nat>, failureTimes: seq<nat>,
    timeoutEvents: seq<(nat, bool)>, consecutiveFailures: u32, halfOpen: u64,
    bannedUntil: Option<nat>, lastActivity: nat)

  datatype HalfOpenEntry = HalfOpenEntry(addr: Addr, born: nat)

  datatype Checker = Checker(ipStates: map<Addr, IpState>, halfOpen: map<u32, HalfOpenEntry>, lastReap: nat)

  datatype Decision = Allow | Challenge | Drop

  function NewIp(now: nat): IpState {
    IpState(TOKEN_BUCKET_CAPACITY, now, [], [], [], [], 0, 0, None, now)
  }

  /** `entry(addr).or_insert_with(IpState::new)`. */
  function Entry(states: map<Addr, IpState>, addr: Addr, now: nat): IpState {
    if addr in states then states[addr] else NewIp(now)
  }

  function Inc32(x: u32): u32 {
    if x + 1 < TWO_32 then x + 1 else x
  }

  function Inc64(x: u64): u64 {
    if x + 1 < TWO_64 then x + 1 else x
  }

  function Dec64(x: u64): u64 {
    if x > 0 then x - 1 else 0
  }

  /** The times from the first one inside the window on. */
  function Recent(times: seq<nat>, window: nat, now: nat): seq<nat> {
    if times != [] && times[0] + window < now then Recent(times[1..], window, now) else times
  }

  function RecentEvents(events: seq<(nat, bool)>, now: nat): seq<(nat, bool)> {
    if events != [] && events[0].0 + BEHAVIOR_WINDOW < now then RecentEvents(events[1..], now) else events
  }

  function Cleaned(s: IpState, now: nat): IpState {
    s.(requestTimes := Recent(s.requestTimes, SLIDING_WINDOW, now),
       successTimes := Recent(s.successTimes, BEHAVIOR_WINDOW, now),
       failureTimes := Recent(s.failureTimes, BEHAVIOR_WINDOW, now),
       timeoutEvents := RecentEvents(s.timeoutEvents, now))
  }

  function Refilled(s: IpState, now: nat): IpState {
    var seconds := Elapsed(now, s.lastRefill) / SECOND;
    if seconds > 0 then
      s.(tokens := Min(s.tokens + seconds * TOKEN_REFILL_PER_SEC, TOKEN_BUCKET_CAPACITY), lastRefill := now)
    else s
  }

  function QuotaForRatio(ratio: real): nat {
    if ratio >= 1.0 then 4 else if ratio > 0.0 then 16 else QUOTA_NORMAL
  }

  function TimeoutForRatio(ratio: real): nat {
    if ratio >= 1.0 then 5 * SECOND else if ratio > 0.0 then 15 * SECOND else LONGEST_TIMEOUT
  }

  /** Two failures in a row, or fewer than three in ten successes out of at least three. */
  predicate Suspicious(s: IpState) {
    var good, total := |s.successTimes|, |s.successTimes| + |s.failureTimes|;
    s.consecutiveFailures >= CONSECUTIVE_FAILURE_THRESHOLD || (total >= 3 && 10 * good < 3 * total)
  }

  function Strike(s: IpState): IpState {
    s.(consecutiveFailures := Inc32(s.consecutiveFailures))
  }

  function Failed(s: IpState, now: nat): IpState {
    Strike(s).(failureTimes := s.failureTimes + [now])
  }

  /** The verdict on one address, and its new state. */
  function Judge(s0: IpState, cookie: bool, ratio: real, draw: real, now: nat): (IpState, Decision) {
    var s := s0.(lastActivity := now);
    if s.bannedUntil.Some? && s.bannedUntil.value > now then (Strike(s), Drop)
    else
      var s := if cookie then s else Refilled(s, now);
      if !cookie && s.tokens == 0 then (Failed(s, now), Drop)
      else
        var s := if cookie then s else s.(tokens := s.tokens - 1);
        var s := Cleaned(s, now);
        var s := s.(requestTimes := s.requestTimes + [now]);
        if s.halfOpen >= QuotaForRatio(ratio) then (Failed(s, now), Drop)
        else if cookie then (s, Allow)
        else if Suspicious(s) then (Failed(s, now), Challenge)
        else if ratio > 0.0 && draw < ratio then (Failed(s, now), Challenge)
        else (s, Allow)
  }

  function Purged(states: map<Addr, IpState>, now: nat): map<Addr, IpState> {
    map a | a in states && Elapsed(now, states[a].lastActivity) < ACTIVITY_LIMIT :: states[a]
  }

  function Prechecked(c: Checker, src: Addr, cookie: bool, ratio: real, draw: real, now: nat): (Checker, Decision) {
    var states := Purged(c.ipStates, now);
    var (s, decision) := Judge(Entry(states, src, now), cookie, ratio, draw, now);
    (c.(ipStates := states[src := s]), decision)
  }

  function SuccessRecorded(c: Checker, src: Addr, now: nat): Checker {
    if src !in c.ipStates then c
    else
      var s := c.ipStates[src];
      c.(ipStates := c.ipStates[src := Cleaned(s.(consecutiveFailures := 0, successTimes := s.successTimes + [now],
                                                  timeoutEvents := s.timeoutEvents + [(now, false)]), now)])
  }

  function FailureRecorded(c: Checker, src: Addr, now: nat): Checker {
    c.(ipStates := c.ipStates[src := Cleaned(Failed(Entry(c.ipStates, src, now), now), now)])
  }

  function Register(c: Checker, id: u32, src: Addr, now: nat): Checker {
    var s := Entry(c.ipStates, src, now);
    c.(halfOpen := c.halfOpen[id := HalfOpenEntry(src, now)],
       ipStates := c.ipStates[src := s.(halfOpen := Inc64(s.halfOpen))])
  }

  function Release(c: Checker, id: u32): Checker {
    if id !in c.halfOpen then c
    else
      var src := c.halfOpen[id].addr;
      var c1 := c.(halfOpen := c.halfOpen - {id});
      if src !in c.ipStates then c1
      else c1.(ipStates := c.ipStates[src := c.ipStates[src].(halfOpen := Dec64(c.ipStates[src].halfOpen))])
  }

  /** The ids whose time is up. */
  function Expired(table: map<u32, HalfOpenEntry>, timeout: nat, now: nat): set<u32> {
    set id | id in table && Elapsed(now, table[id].born) >= timeout
  }

  function TimedOut(events: seq<(nat, bool)>): nat {
    if events == [] then 0 else (if events[0].1 then 1 else 0) + TimedOut(events[1..])
  }

  /** One expired entry: the count drops, and too many timeouts ban the address. */
  function Reaped(s0: IpState, now: nat): IpState {
    var s := Cleaned(s0.(halfOpen := Dec64(s0.halfOpen), timeoutEvents := s0.timeoutEvents + [(now, true)]), now);
    var total := |s.timeoutEvents|;
    if total >= MALICIOUS_MIN_SAMPLES && 10 * TimedOut(s.timeoutEvents) >= 8 * total then
      s.(bannedUntil := Some(now + BEHAVIOR_WINDOW))
    else s
  }

  function ReapAll(states: map<Addr, IpState>, expired: seq<Addr>, now: nat): map<Addr, IpState> {
    if expired == [] then states
    else
      var before, a := ReapAll(states, expired[..|expired| - 1], now), expired[|expired| - 1];
      before[a := Reaped(Entry(before, a, now), now)]
  }

  /** The addresses of the entries `ids`. */
  function AddrsOf(table: map<u32, HalfOpenEntry>, ids: seq<u32>): (r: seq<Addr>)
    requires forall i :: 0 <= i < |ids| ==> ids[i] in table
    ensures |r| == |ids|
  {
    if ids == [] then [] else AddrsOf(table, ids[..|ids| - 1]) + [table[ids[|ids| - 1]].addr]
  }

  /** `order` is the order in which the hash map hands out the expired ids. */
  ghost predicate IsOrderOf(order: seq<u32>, ids: set<u32>) {
    Distinct(order) && (forall i :: 0 <= i < |order| ==> order[i] in ids) && (forall id :: id in ids ==> id in order)
  }

  function Reap(c: Checker, ratio: real, order: seq<u32>, now: nat): Checker
    requires forall i :: 0 <= i < |order| ==> order[i] in c.halfOpen
  {
    if Elapsed(now, c.lastReap) < REAP_INTERVAL then c
    else
      Checker(ReapAll(c.ipStates, AddrsOf(c.halfOpen, order), now),
              c.halfOpen - Expired(c.halfOpen, TimeoutForRatio(ratio), now), now)
  }

  // ------------------------------------------------------------------- counts

  function LiveIds(table: map<u32, HalfOpenEntry>, a: Addr): set<u32> {
    set id | id in table && table[id].addr == a
  }

  /** The live entries of an address. */
  function Live(table: map<u32, HalfOpenEntry>, a: Addr): nat {
    |LiveIds(table, a)|
  }

  /** What the checker believes about an address. */
  function CountOf(states: map<Addr, IpState>, a: Addr): nat {
    if a in states then states[a].halfOpen else 0
  }

  ghost predicate Agree(states: map<Addr, IpState>, table: map<u32, HalfOpenEntry>) {
    forall a :: CountOf(states, a) == Live(table, a)
  }

  lemma LiveInsert(table: map<u32, HalfOpenEntry>, id: u32, e: HalfOpenEntry, a: Addr)
    requires id !in table
    ensures Live(table[id := e], a) == Live(table, a) + if e.addr == a then 1 else 0
  {
    assert LiveIds(table[id := e], a) == LiveIds(table, a) + if e.addr == a then {id} else {};
  }

  lemma LiveRemove(table: map<u32, HalfOpenEntry>, id: u32, a: Addr)
    requires id in table
    ensures Live(table, a) == Live(table - {id}, a) + if table[id].addr == a then 1 else 0
  {
    var e := table[id];
    assert (table - {id})[id := e] == table;
    LiveInsert(table - {id}, id, e, a);
  }

  lemma {:induction false} BelowHasSize(n: nat, s: set<u32>)
    requires forall x :: x in s ==> x < n
    ensures |s| <= n
    decreases n
  {
    if n > 0 {
      var rest := s - {n - 1};
      BelowHasSize(n - 1, rest);
      assert |s| <= |rest| + 1 by {
        if n - 1 in s { assert s == rest + {n - 1}; } else { assert s == rest; }
      }
    } else {
      assert s == {};
    }
  }

  /** An address never has more live entries than there are ids. */
  lemma LiveFits(table: map<u32, HalfOpenEntry>, a: Addr)
    ensures Live(table, a) <= TWO_32
  {
    BelowHasSize(TWO_32, LiveIds(table, a));
  }

  /** Registering keeps the counts right exactly if the id had no entry. */
  lemma RegisterCounts(c: Checker, id: u32, src: Addr, now: nat)
    requires Agree(c.ipStates, c.halfOpen)
    ensures var c' := Register(c, id, src, now);
            Agree(c'.ipStates, c'.halfOpen) <==> id !in c.halfOpen
  {
    var c', e := Register(c, id, src, now), HalfOpenEntry(src, now);
    LiveFits(c.halfOpen, src);
    if id !in c.halfOpen {
      forall a ensures CountOf(c'.ipStates, a) == Live(c'.halfOpen, a) {
        LiveInsert(c.halfOpen, id, e, a);
      }
    } else {
      var b, rest := c.halfOpen[id].addr, c.halfOpen - {id};
      assert c'.halfOpen == rest[id := e];
      LiveRemove(c.halfOpen, id, b);
      LiveInsert(rest, id, e, b);
      assert CountOf(c'.ipStates, b) != Live(c'.halfOpen, b);
    }
  }

  /** Releasing keeps them right, and finds a positive count to lower. */
  lemma ReleaseCounts(c: Checker, id: u32)
    requires Agree(c.ipStates, c.halfOpen)
    ensures var c' := Release(c, id); Agree(c'.ipStates, c'.halfOpen)
    ensures id in c.halfOpen ==> CountOf(c.ipStates, c.halfOpen[id].addr) > 0
  {
    if id in c.halfOpen {
      var c', src := Release(c, id), c.halfOpen[id].addr;
      LiveRemove(c.halfOpen, id, src);
      assert CountOf(c.ipStates, src) == Live(c.halfOpen, src);
      forall a ensures CountOf(c'.ipStates, a) == Live(c'.halfOpen, a) {
        LiveRemove(c.halfOpen, id, a);
        assert CountOf(c.ipStates, a) == Live(c.halfOpen, a);
      }
    }
  }

  lemma ReapedCounts(s: IpState, now: nat)
    ensures Reaped(s, now).halfOpen == Dec64(s.halfOpen) && Reaped(s, now).lastActivity == s.lastActivity
  {
  }

  function Ids(ids: seq<u32>): set<u32> {
    set id | id in ids
  }

  lemma ReapOneCounts(states: map<Addr, IpState>, table: map<u32, HalfOpenEntry>, id: u32, now: nat)
    requires Agree(states, table) && id in table
    ensures var a := table[id].addr; Agree(states[a := Reaped(Entry(states, a, now), now)], table - {id})
  {
    hide Reaped, Live;
    var a0 := table[id].addr;
    ReapedCounts(Entry(states, a0, now), now);
    forall a ensures CountOf(states[a0 := Reaped(Entry(states, a0, now), now)], a) == Live(table - {id}, a) {
      LiveRemove(table, id, a);
      assert CountOf(states, a) == Live(table, a);
    }
  }

  lemma {:induction false} ReapAllStep(states: map<Addr, IpState>, addrs: seq<Addr>, a: Addr, now: nat)
    ensures var before := ReapAll(states, addrs, now);
            ReapAll(states, addrs + [a], now) == before[a := Reaped(Entry(before, a, now), now)]
  {
    assert (addrs + [a])[..|addrs|] == addrs;
  }

  lemma IdsStep(table: map<u32, HalfOpenEntry>, ids: seq<u32>)
    requires ids != [] && Distinct(ids) && forall i :: 0 <= i < |ids| ==> ids[i] in table
    ensures var n := |ids| - 1;
            && Distinct(ids[..n]) && ids[n] in table - Ids(ids[..n])
            && table - Ids(ids) == (table - Ids(ids[..n])) - {ids[n]}
  {
    assert ids == ids[..|ids| - 1] + [ids[|ids| - 1]];
  }

  lemma {:induction false} ReapAllCounts(states: map<Addr, IpState>, table: map<u32, HalfOpenEntry>, ids: seq<u32>,
                                         now: nat)
    requires Agree(states, table) && Distinct(ids) && forall i :: 0 <= i < |ids| ==> ids[i] in table
    ensures Agree(ReapAll(states, AddrsOf(table, ids), now), table - Ids(ids))
  {
    hide Reaped, Live, Agree, Distinct;
    if ids == [] {
      assert table - Ids(ids) == table;
    } else {
      hide Ids, ReapAll;
      var n := |ids| - 1;
      IdsStep(table, ids);
      ReapAllCounts(states, table, ids[..n], now);
      var before := ReapAll(states, AddrsOf(table, ids[..n]), now);
      ReapOneCounts(before, table - Ids(ids[..n]), ids[n], now);
      ReapAllStep(states, AddrsOf(table, ids[..n]), table[ids[n]].addr, now);
    }
  }

  /** Reaping lowers every count by the entries of that address that it removes. */
  lemma ReapCounts(c: Checker, ratio: real, order: seq<u32>, now: nat)
    requires Agree(c.ipStates, c.halfOpen)
    requires IsOrderOf(order, Expired(c.halfOpen, TimeoutForRatio(ratio), now))
    ensures var c' := Reap(c, ratio, order, now); Agree(c'.ipStates, c'.halfOpen)
  {
    if Elapsed(now, c.lastReap) >= REAP_INTERVAL {
      ReapAllCounts(c.ipStates, c.halfOpen, order, now);
      assert Ids(order) == Expired(c.halfOpen, TimeoutForRatio(ratio), now);
    }
  }

  lemma JudgeKeepsCount(s: IpState, cookie: bool, ratio: real, draw: real, now: nat)
    ensures var (s', decision) := Judge(s, cookie, ratio, draw, now);
            && s'.halfOpen == s.halfOpen && s'.lastActivity == now
            && (decision.Allow? ==> s.halfOpen < QuotaForRatio(ratio) <= QUOTA_NORMAL)
  {
  }

  /**
   * When each verdict falls: a ban, an empty bucket and a full quota drop, the quota even with a
   * cookie; a cookie is never challenged; and without one a suspicious or unlucky sender always is.
   */
  lemma Verdicts(s: IpState, cookie: bool, ratio: real, draw: real, now: nat)
    ensures var decision := Judge(s, cookie, ratio, draw, now).1;
            && (decision.Drop? <==>
                  || (s.bannedUntil.Some? && s.bannedUntil.value > now)
                  || (!cookie && Refilled(s, now).tokens == 0)
                  || s.halfOpen >= QuotaForRatio(ratio))
            && (cookie ==> !decision.Challenge?)
            && (!cookie && !decision.Drop? ==>
                  (decision.Challenge? <==> Suspicious(Cleaned(s, now)) || (0.0 < ratio && draw < ratio)))
  {
    hide Recent, RecentEvents;
  }

  /** An address state that the purge would drop although entries of that address are live. */
  predicate Forgets(states: map<Addr, IpState>, a: Addr, now: nat) {
    a in states && Elapsed(now, states[a].lastActivity) >= ACTIVITY_LIMIT && states[a].halfOpen > 0
  }

  /** The precheck keeps the counts right exactly if its purge drops no live count. */
  lemma PrecheckCounts(c: Checker, src: Addr, cookie: bool, ratio: real, draw: real, now: nat)
    requires Agree(c.ipStates, c.halfOpen)
    ensures var c' := Prechecked(c, src, cookie, ratio, draw, now).0;
            Agree(c'.ipStates, c'.halfOpen) <==> forall a :: !Forgets(c.ipStates, a, now)
  {
    var c' := Prechecked(c, src, cookie, ratio, draw, now).0;
    JudgeKeepsCount(Entry(Purged(c.ipStates, now), src, now), cookie, ratio, draw, now);
    forall a ensures CountOf(c'.ipStates, a) == CountOf(c.ipStates, a) <==> !Forgets(c.ipStates, a, now) {
    }
    if a :| Forgets(c.ipStates, a, now) {
      assert CountOf(c'.ipStates, a) != CountOf(c.ipStates, a) == Live(c'.halfOpen, a);
    }
  }

  // -------------------------------------------------------------- the machine

  /** How long one `process` call may take. */
  const CALL_LIMIT: nat := 127 * SECOND

  /** Where the device is in a `process` call. */
  datatype Call = Idle | Started(start: nat) | Allowed(start: nat, src: Addr)

  datatype Machine = Machine(c: Checker, clock: nat, call: Call)

  datatype Event =
    | Start(now: nat, ratio: real, order: seq<u32>)                        // every call reaps first
    | CheckSource(src: Addr, cookie: bool, ratio: real, draw: real, now: nat)
    | Admit(id: u32, now: nat)                                             // the initiation is accepted
    | Done(id: u32)                                                        // the id is released
    | Failure(src: Addr, now: nat)
    | Success(src: Addr, now: nat)

  ghost predicate Enabled(m: Machine, e: Event) {
    match e
    case Start(now, ratio, order) =>
      m.clock <= now && IsOrderOf(order, Expired(m.c.halfOpen, TimeoutForRatio(ratio), now))
    case CheckSource(_, _, _, _, now) => m.call.Started? && m.clock <= now <= m.call.start + CALL_LIMIT
    case Admit(id, now) => m.call.Allowed? && m.clock <= now <= m.call.start + CALL_LIMIT && id !in m.c.halfOpen
    case Done(_) => true
    case Failure(_, now) => m.clock <= now
    case Success(_, now) => m.clock <= now
  }

  ghost function Apply(m: Machine, e: Event): Machine
    requires Enabled(m, e)
  {
    match e
    case Start(now, ratio, order) => Machine(Reap(m.c, ratio, order, now), now, Started(now))
    case CheckSource(src, cookie, ratio, draw, now) =>
      var (c, decision) := Prechecked(m.c, src, cookie, ratio, draw, now);
      Machine(c, now, if decision.Allow? then Allowed(m.call.start, src) else Idle)
    case Admit(id, now) => Machine(Register(m.c, id, m.call.src, now), now, Idle)
    case Done(id) => m.(c := Release(m.c, id))
    case Failure(src, now) => m.(c := FailureRecorded(m.c, src, now), clock := now)
    case Success(src, now) => m.(c := SuccessRecorded(m.c, src, now), clock := now)
  }

  ghost predicate IsRun(m: Machine, events: seq<Event>)
    decreases |events|
  {
    events == [] || (Enabled(m, events[0]) && IsRun(Apply(m, events[0]), events[1..]))
  }

  ghost function Outcome(m: Machine, events: seq<Event>): Machine
    requires IsRun(m, events)
    decreases |events|
  {
    if events == [] then m else Outcome(Apply(m, events[0]), events[1..])
  }

  function Initial(now: nat): Machine {
    Machine(Checker(map[], map[], now), now, Idle)
  }

  /** Every live entry was under 30 s old at the last reap, and its address was active about then. */
  ghost predicate EntryTimely(c: Checker, clock: nat, e: HalfOpenEntry) {
    && e.born <= clock && c.lastReap < e.born + LONGEST_TIMEOUT
    && e.addr in c.ipStates && e.born <= c.ipStates[e.addr].lastActivity + CALL_LIMIT
  }

  ghost predicate Timely(c: Checker, clock: nat) {
    && c.lastReap <= clock
    && (forall id :: id in c.halfOpen ==> EntryTimely(c, clock, c.halfOpen[id]))
  }

  ghost predicate CallTimely(m: Machine) {
    && (m.call.Started? ==>
          m.c.lastReap <= m.call.start <= m.clock && m.call.start < m.c.lastReap + REAP_INTERVAL)
    && (m.call.Allowed? ==>
          && m.call.start <= m.clock && m.call.src in m.c.ipStates
          && m.call.start <= m.c.ipStates[m.call.src].lastActivity)
  }

  /** The quota bounds what is live; an allowed source has room for one more. */
  ghost predicate QuotaHolds(m: Machine) {
    && (forall a :: Live(m.c.halfOpen, a) <= QUOTA_NORMAL)
    && (m.call.Allowed? ==> Live(m.c.halfOpen, m.call.src) < QUOTA_NORMAL)
  }

  ghost predicate Inv(m: Machine) {
    Agree(m.c.ipStates, m.c.halfOpen) && Timely(m.c, m.clock) && CallTimely(m) && QuotaHolds(m)
  }

  /** The purge never drops a live count: 45 s and two calls make less than 300 s. */
  lemma NothingIsForgotten(m: Machine, a: Addr, now: nat)
    requires Inv(m) && m.call.Started? && m.clock <= now <= m.call.start + CALL_LIMIT
    ensures !Forgets(m.c.ipStates, a, now)
  {
    if a in m.c.ipStates && m.c.ipStates[a].halfOpen > 0 {
      assert CountOf(m.c.ipStates, a) == Live(m.c.halfOpen, a);
      var id :| id in LiveIds(m.c.halfOpen, a);
      assert EntryTimely(m.c, m.clock, m.c.halfOpen[id]);
    }
  }

  lemma CheckSourceStep(m: Machine, src: Addr, cookie: bool, ratio: real, draw: real, now: nat)
    requires Inv(m) && Enabled(m, CheckSource(src, cookie, ratio, draw, now))
    ensures Inv(Apply(m, CheckSource(src, cookie, ratio, draw, now)))
  {
    hide Judge, Live;
    var m' := Apply(m, CheckSource(src, cookie, ratio, draw, now));
    JudgeKeepsCount(Entry(Purged(m.c.ipStates, now), src, now), cookie, ratio, draw, now);
    forall a ensures !Forgets(m.c.ipStates, a, now) { NothingIsForgotten(m, a, now); }
    PrecheckCounts(m.c, src, cookie, ratio, draw, now);
    forall id | id in m'.c.halfOpen ensures EntryTimely(m'.c, now, m'.c.halfOpen[id]) {
      var e := m.c.halfOpen[id];
      assert EntryTimely(m.c, m.clock, e);
      assert Elapsed(now, m.c.ipStates[e.addr].lastActivity) < ACTIVITY_LIMIT;
    }
    assert CountOf(m'.c.ipStates, src) == Live(m'.c.halfOpen, src);
  }

  lemma AdmitStep(m: Machine, id: u32, now: nat)
    requires Inv(m) && Enabled(m, Admit(id, now))
    ensures Inv(Apply(m, Admit(id, now)))
  {
    hide Live;
    var m' := Apply(m, Admit(id, now));
    RegisterCounts(m.c, id, m.call.src, now);
    forall a ensures Live(m'.c.halfOpen, a) <= QUOTA_NORMAL {
      LiveInsert(m.c.halfOpen, id, HalfOpenEntry(m.call.src, now), a);
    }
    forall i | i in m'.c.halfOpen ensures EntryTimely(m'.c, now, m'.c.halfOpen[i]) {
      assert i != id ==> EntryTimely(m.c, m.clock, m.c.halfOpen[i]);
    }
  }

  lemma DoneStep(m: Machine, id: u32)
    requires Inv(m)
    ensures Inv(Apply(m, Done(id)))
  {
    hide Live;
    var m' := Apply(m, Done(id));
    ReleaseCounts(m.c, id);
    forall a ensures Live(m'.c.halfOpen, a) <= Live(m.c.halfOpen, a) {
      if id in m.c.halfOpen { LiveRemove(m.c.halfOpen, id, a); }
    }
    forall i | i in m'.c.halfOpen ensures EntryTimely(m'.c, m'.clock, m'.c.halfOpen[i]) {
      assert EntryTimely(m.c, m.clock, m.c.halfOpen[i]);
    }
  }

  /** `c'` differs from `c` in nothing that counts: same table, counts and, where known, activity. */
  ghost predicate SameCounts(c: Checker, c': Checker) {
    && c'.halfOpen == c.halfOpen && c'.lastReap == c.lastReap
    && (forall a :: CountOf(c'.ipStates, a) == CountOf(c.ipStates, a))
    && (forall a :: a in c.ipStates ==> a in c'.ipStates && c'.ipStates[a].lastActivity == c.ipStates[a].lastActivity)
  }

  lemma SameCountsStep(m: Machine, m': Machine)
    requires Inv(m) && SameCounts(m.c, m'.c) && m'.call == m.call && m.clock <= m'.clock
    ensures Inv(m')
  {
    hide Live;
    forall i | i in m'.c.halfOpen ensures EntryTimely(m'.c, m'.clock, m'.c.halfOpen[i]) {
      assert EntryTimely(m.c, m.clock, m.c.halfOpen[i]);
    }
    forall a ensures CountOf(m'.c.ipStates, a) == Live(m'.c.halfOpen, a) {
      assert CountOf(m.c.ipStates, a) == Live(m.c.halfOpen, a);
    }
  }

  lemma RecordsKeepCounts(c: Checker, src: Addr, now: nat)
    ensures SameCounts(c, FailureRecorded(c, src, now)) && SameCounts(c, SuccessRecorded(c, src, now))
  {
  }

  lemma {:induction false} ReapAllKeepsActivity(states: map<Addr, IpState>, addrs: seq<Addr>, now: nat)
    ensures forall a :: a in states ==>
              && a in ReapAll(states, addrs, now)
              && ReapAll(states, addrs, now)[a].lastActivity == states[a].lastActivity
  {
    hide Reaped;
    if addrs != [] {
      var n := |addrs| - 1;
      ReapAllKeepsActivity(states, addrs[..n], now);
      ReapedCounts(Entry(ReapAll(states, addrs[..n], now), addrs[n], now), now);
    }
  }

  lemma LiveShrinks(table: map<u32, HalfOpenEntry>, gone: set<u32>, a: Addr)
    ensures Live(table - gone, a) <= Live(table, a)
  {
    var rest := LiveIds(table, a) - LiveIds(table - gone, a);
    assert LiveIds(table, a) == LiveIds(table - gone, a) + rest;
  }

  lemma StartStep(m: Machine, now: nat, ratio: real, order: seq<u32>)
    requires Inv(m) && Enabled(m, Start(now, ratio, order))
    ensures Inv(Apply(m, Start(now, ratio, order)))
  {
    hide Live, ReapAll;
    var m' := Apply(m, Start(now, ratio, order));
    ReapCounts(m.c, ratio, order, now);
    var expired := Expired(m.c.halfOpen, TimeoutForRatio(ratio), now);
    forall a ensures Live(m'.c.halfOpen, a) <= QUOTA_NORMAL {
      LiveShrinks(m.c.halfOpen, expired, a);
    }
    ReapAllKeepsActivity(m.c.ipStates, AddrsOf(m.c.halfOpen, order), now);
    forall i | i in m'.c.halfOpen ensures EntryTimely(m'.c, now, m'.c.halfOpen[i]) {
      assert EntryTimely(m.c, m.clock, m.c.halfOpen[i]);
      assert i !in expired || m'.c == m.c;
    }
  }

  lemma StepInv(m: Machine, e: Event)
    requires Inv(m) && Enabled(m, e)
    ensures Inv(Apply(m, e))
  {
    hide Inv;
    match e
    case Start(now, ratio, order) => StartStep(m, now, ratio, order);
    case CheckSource(src, cookie, ratio, draw, now) => CheckSourceStep(m, src, cookie, ratio, draw, now);
    case Admit(id, now) => AdmitStep(m, id, now);
    case Done(id) => DoneStep(m, id);
    case Failure(src, now) =>
      RecordsKeepCounts(m.c, src, now);
      SameCountsStep(m, Apply(m, e));
    case Success(src, now) =>
      RecordsKeepCounts(m.c, src, now);
      SameCountsStep(m, Apply(m, e));
  }

  lemma {:induction false} RunInv(m: Machine, events: seq<Event>)
    requires Inv(m) && IsRun(m, events)
    ensures Inv(Outcome(m, events))
    decreases |events|
  {
    hide Inv, Apply;
    if events != [] {
      StepInv(m, events[0]);
      RunInv(Apply(m, events[0]), events[1..]);
    }
  }

  lemma InitialInv(now: nat)
    ensures Inv(Initial(now))
  {
    forall a ensures Live(map[], a) == 0 {
      assert LiveIds(map[], a) == {};
    }
  }

  /**
   * In every run the count of every address is its number of live entries, at most 64; the purge
   * of the next precheck drops no live count, and the next release lowers a positive one.
   */
  lemma {:induction false} CountsMatchTheTable(start: nat, events: seq<Event>, a: Addr, now: nat, id: u32)
    requires IsRun(Initial(start), events)
    ensures var m := Outcome(Initial(start), events);
            && CountOf(m.c.ipStates, a) == Live(m.c.halfOpen, a) <= QUOTA_NORMAL
            && (m.call.Started? && m.clock <= now <= m.call.start + CALL_LIMIT ==> !Forgets(m.c.ipStates, a, now))
            && (id in m.c.halfOpen ==> CountOf(m.c.ipStates, m.c.halfOpen[id].addr) > 0)
  {
    hide CallTimely, Timely, Live;
    InitialInv(start);
    RunInv(Initial(start), events);
    var m := Outcome(Initial(start), events);
    if m.call.Started? && m.clock <= now <= m.call.start + CALL_LIMIT {
      NothingIsForgotten(m, a, now);
    }
    ReleaseCounts(m.c, id);
  }

  // ------------------------------------------------------------- token bucket

  /** What a state holds is at most full, and was refilled no later than it was last active. */
  ghost predicate BucketOk(c: Checker, clock: nat) {
    forall a :: a in c.ipStates ==>
      c.ipStates[a].tokens <= TOKEN_BUCKET_CAPACITY && c.ipStates[a].lastRefill <= c.ipStates[a].lastActivity <= clock
  }

  /** The capacity, and the refill of the second that is running. */
  const BURST: nat := (TOKEN_BUCKET_CAPACITY + TOKEN_REFILL_PER_SEC) * SECOND

  /** What an address could ask for at `now`, in billionths of a token. */
  function Worth(c: Checker, a: Addr, now: nat): (w: nat)
    ensures w <= BURST
  {
    if a in c.ipStates then StateWorth(c.ipStates[a], now) else TOKEN_BUCKET_CAPACITY * SECOND
  }

  function StateWorth(s: IpState, now: nat): (w: nat)
    ensures w <= BURST
  {
    Min(BURST, s.tokens * SECOND + TOKEN_REFILL_PER_SEC * Elapsed(now, s.lastRefill))
  }

  /** One if `e` answers a message of `a` that carries no valid cookie. */
  function Answers(m: Machine, e: Event, a: Addr): nat {
    match e
    case CheckSource(src, cookie, ratio, draw, now) =>
      if src == a && !cookie && !Prechecked(m.c, src, cookie, ratio, draw, now).1.Drop? then 1 else 0
    case _ => 0
  }

  ghost function Answered(m: Machine, events: seq<Event>, a: Addr): nat
    requires IsRun(m, events)
    decreases |events|
  {
    if events == [] then 0 else Answers(m, events[0], a) + Answered(Apply(m, events[0]), events[1..], a)
  }

  /** The parts of a state that the bucket rests on. */
  predicate SameBucket(s: IpState, t: IpState) {
    s.tokens == t.tokens && s.lastRefill == t.lastRefill && s.lastActivity == t.lastActivity
  }

  /** Known states keep their bucket, new ones are as `NewIp` makes them. */
  ghost predicate BucketsKept(before: map<Addr, IpState>, after: map<Addr, IpState>, now: nat) {
    forall a :: (a in before ==> a in after) && (a in after ==> SameBucket(after[a], Entry(before, a, now)))
  }

  lemma {:induction false} ReapAllKeepsBuckets(states: map<Addr, IpState>, addrs: seq<Addr>, now: nat)
    ensures BucketsKept(states, ReapAll(states, addrs, now), now)
  {
    if addrs != [] {
      ReapAllKeepsBuckets(states, addrs[..|addrs| - 1], now);
    }
  }

  lemma KeptIsPaid(m: Machine, m': Machine, a: Addr, now: nat)
    requires BucketOk(m.c, m.clock) && m.clock <= m'.clock == now
    requires BucketsKept(m.c.ipStates, m'.c.ipStates, now)
    ensures BucketOk(m'.c, m'.clock)
    ensures Worth(m'.c, a, m'.clock) <= Worth(m.c, a, m.clock) + TOKEN_REFILL_PER_SEC * (m'.clock - m.clock)
  {
  }

  /** Judging without a cookie takes a token out of what was earned, or answers nothing. */
  lemma JudgeIsPaid(s: IpState, cookie: bool, ratio: real, draw: real, now: nat)
    requires s.tokens <= TOKEN_BUCKET_CAPACITY && s.lastRefill <= now
    ensures var (s', decision) := Judge(s, cookie, ratio, draw, now);
            && s'.tokens <= TOKEN_BUCKET_CAPACITY && s'.lastRefill <= now && s'.lastActivity == now
            && StateWorth(s', now) + (if !cookie && !decision.Drop? then SECOND else 0) <= StateWorth(s, now)
  {
    var seconds := Elapsed(now, s.lastRefill) / SECOND;
    assert seconds * SECOND <= Elapsed(now, s.lastRefill);
    var refilled := Refilled(s.(lastActivity := now), now);
    assert StateWorth(refilled, now) <= StateWorth(s, now);
  }

  lemma CheckIsPaid(m: Machine, e: Event, a: Addr)
    requires e.CheckSource? && Enabled(m, e) && BucketOk(m.c, m.clock)
    ensures var m' := Apply(m, e);
            && BucketOk(m'.c, m'.clock)
            && Answers(m, e, a) * SECOND + Worth(m'.c, a, m'.clock) <=
               Worth(m.c, a, m.clock) + TOKEN_REFILL_PER_SEC * (m'.clock - m.clock)
  {
    hide Judge, StateWorth, Purged;
    var m', kept := Apply(m, e), m.c.(ipStates := Purged(m.c.ipStates, e.now));
    PurgeIsPaid(m.c, a, m.clock, e.now);
    JudgeIsPaid(Entry(kept.ipStates, e.src, e.now), e.cookie, e.ratio, e.draw, e.now);
    if e.src == a {
      NewIsWorth(e.now);
      assert Worth(m'.c, a, e.now) + Answers(m, e, a) * SECOND <= Worth(kept, a, e.now);
    } else {
      assert Worth(m'.c, a, e.now) == Worth(kept, a, e.now);
    }
  }

  lemma NewIsWorth(now: nat)
    ensures StateWorth(NewIp(now), now) == TOKEN_BUCKET_CAPACITY * SECOND
  {
  }

  /** Being purged gains nothing. */
  lemma PurgeIsPaid(c: Checker, a: Addr, clock: nat, now: nat)
    requires BucketOk(c, clock) && clock <= now
    ensures Worth(c.(ipStates := Purged(c.ipStates, now)), a, now) <= Worth(c, a, now)
    ensures Worth(c, a, now) <= Worth(c, a, clock) + TOKEN_REFILL_PER_SEC * (now - clock)
    ensures BucketOk(c.(ipStates := Purged(c.ipStates, now)), now)
  {
  }

  lemma StepIsPaid(m: Machine, e: Event, a: Addr)
    requires Enabled(m, e) && BucketOk(m.c, m.clock)
    ensures var m' := Apply(m, e);
            && BucketOk(m'.c, m'.clock) && m.clock <= m'.clock
            && Answers(m, e, a) * SECOND + Worth(m'.c, a, m'.clock) <=
               Worth(m.c, a, m.clock) + TOKEN_REFILL_PER_SEC * (m'.clock - m.clock)
  {
    hide Worth, BucketOk, ReapAll, Prechecked;
    match e
    case CheckSource(_, _, _, _, _) => CheckIsPaid(m, e, a);
    case Start(now, ratio, order) =>
      ReapAllKeepsBuckets(m.c.ipStates, AddrsOf(m.c.halfOpen, order), now);
      KeptIsPaid(m, Apply(m, e), a, now);
    case Admit(_, now) => KeptIsPaid(m, Apply(m, e), a, now);
    case Done(_) => KeptIsPaid(m, Apply(m, e), a, m.clock);
    case Failure(_, now) => KeptIsPaid(m, Apply(m, e), a, now);
    case Success(_, now) => KeptIsPaid(m, Apply(m, e), a, now);
  }

  /**
   * In every window of every run, the messages of one address that are answered without a valid
   * cookie number at most fifteen and five for every second, whatever is purged in between. It is
   * fifteen, not the capacity of ten, because the running second is credited when it is full.
   */
  lemma {:induction false} AnswersAreBounded(m: Machine, events: seq<Event>, a: Addr)
    requires IsRun(m, events) && BucketOk(m.c, m.clock)
    ensures var m' := Outcome(m, events);
            && m.clock <= m'.clock && BucketOk(m'.c, m'.clock)
            && Answered(m, events, a) * SECOND + Worth(m'.c, a, m'.clock) <=
               Worth(m.c, a, m.clock) + TOKEN_REFILL_PER_SEC * (m'.clock - m.clock)
            && Answered(m, events, a) * SECOND <=
               BURST + TOKEN_REFILL_PER_SEC * (m'.clock - m.clock)
    decreases |events|
  {
    hide Worth, BucketOk, Apply, Answers;
    if events != [] {
      StepIsPaid(m, events[0], a);
      AnswersAreBounded(Apply(m, events[0]), events[1..], a);
    }
  }

  /** The events lead from `m` to `m'`, and answer `n` messages of `a` that carry no cookie. */
  ghost predicate Reaches(m: Machine, events: seq<Event>, m': Machine, a: Addr, n: nat) {
    IsRun(m, events) && Outcome(m, events) == m' && Answered(m, events, a) == n
  }

  lemma {:induction false} Extend(m: Machine, events: seq<Event>, m': Machine, a: Addr, n: nat, e: Event)
    requires Reaches(m, events, m', a, n) && Enabled(m', e)
    ensures Reaches(m, events + [e], Apply(m', e), a, n + Answers(m', e, a))
    decreases |events|
  {
    hide Enabled, Apply, Answers;
    if events == [] {
      assert events + [e] == [e] && [e][1..] == [] && m' == m && n == 0;
      assert IsRun(Apply(m, e), []) && Answered(Apply(m, e), [], a) == 0;
      assert Outcome(Apply(m, e), []) == Apply(m, e);
      assert IsRun(m, [e]) && Outcome(m, [e]) == Apply(m, e) && Answered(m, [e], a) == Answers(m, e, a);
    } else {
      var m1, rest := Apply(m, events[0]), events[1..];
      Extend(m1, rest, m', a, n - Answers(m, events[0], a), e);
      assert (events + [e])[1..] == rest + [e];
    }
  }

  /** Nothing is half-open, and `a` is known, not banned, and was active since the last reap. */
  predicate Quiet(m: Machine, a: Addr) {
    && m.c.halfOpen == map[] && a in m.c.ipStates
    && m.c.ipStates[a].bannedUntil.None? && m.c.ipStates[a].halfOpen == 0
    && m.c.lastReap <= m.c.ipStates[a].lastActivity <= m.clock
  }

  /** One message without a cookie, in a call that reaps nothing. */
  lemma AskOnce(m0: Machine, events: seq<Event>, m: Machine, a: Addr, n: nat, now: nat)
    returns (events': seq<Event>, m': Machine)
    requires Reaches(m0, events, m, a, n) && Quiet(m, a)
    requires m.clock <= now < m.c.lastReap + REAP_INTERVAL && Refilled(m.c.ipStates[a], now).tokens >= 1
    ensures Reaches(m0, events', m', a, n + 1)
    ensures Quiet(m', a) && m'.clock == now && m'.c.lastReap == m.c.lastReap
    ensures var s := Refilled(m.c.ipStates[a], now);
            m'.c.ipStates[a].tokens == s.tokens - 1 && m'.c.ipStates[a].lastRefill == s.lastRefill
  {
    hide Reaches, Cleaned, Suspicious;
    var start, check := Start(now, 0.0, []), CheckSource(a, false, 0.0, 0.0, now);
    assert Expired(m.c.halfOpen, TimeoutForRatio(0.0), now) == {};
    Extend(m0, events, m, a, n, start);
    var m1 := Apply(m, start);
    assert m1.c == m.c;
    Extend(m0, events + [start], m1, a, n, check);
    events', m' := events + [start] + [check], Apply(m1, check);
    var s := Refilled(m.c.ipStates[a].(lastActivity := now), now);
    CleanedKeeps(s, now);
    CleanedKeeps(s.(tokens := Refilled(m.c.ipStates[a], now).tokens - 1), now);
  }

  lemma CleanedKeeps(s: IpState, now: nat)
    ensures var t := Cleaned(s, now);
            && t.tokens == s.tokens && t.lastRefill == s.lastRefill && t.lastActivity == s.lastActivity
            && t.halfOpen == s.halfOpen && t.bannedUntil == s.bannedUntil
  {
  }

  /** Up to the tokens on hand, counting those that the first message brings, all are answered. */
  lemma {:induction false} ServedFromTokens(m0: Machine, events: seq<Event>, m: Machine, a: Addr, n: nat, k: nat,
                                            now: nat)
    returns (events': seq<Event>, m': Machine)
    requires Reaches(m0, events, m, a, n) && Quiet(m, a)
    requires m.clock <= now < m.c.lastReap + REAP_INTERVAL && 1 <= k <= Refilled(m.c.ipStates[a], now).tokens
    ensures Reaches(m0, events', m', a, n + k)
    ensures Quiet(m', a) && m'.clock == now && m'.c.lastReap == m.c.lastReap
    ensures var s := Refilled(m.c.ipStates[a], now);
            m'.c.ipStates[a].tokens == s.tokens - k && m'.c.ipStates[a].lastRefill == s.lastRefill
  {
    hide Reaches;
    if k == 1 {
      events', m' := AskOnce(m0, events, m, a, n, now);
    } else {
      var events1, m1 := ServedFromTokens(m0, events, m, a, n, k - 1, now);
      assert Elapsed(now, m1.c.ipStates[a].lastRefill) / SECOND == 0;
      events', m' := AskOnce(m0, events1, m1, a, n + (k - 1), now);
    }
  }

  /**
   * Waiting earns five tokens for each whole second, up to ten: exactly so many messages without a
   * cookie are answered then, and the next one is dropped.
   */
  lemma WaitingEarnsExactly(m0: Machine, events: seq<Event>, m: Machine, a: Addr, n: nat, seconds: nat, rest: nat)
    returns (events': seq<Event>, m': Machine)
    requires Reaches(m0, events, m, a, n) && Quiet(m, a) && rest < 1_000_000_000
    requires var now := m.c.ipStates[a].lastRefill + seconds * 1_000_000_000 + rest;
             m.clock <= now < m.c.lastReap + REAP_INTERVAL
    requires m.c.ipStates[a].tokens <= 10 && m.c.ipStates[a].tokens + seconds >= 1
    ensures var earned := m.c.ipStates[a].tokens + 5 * seconds;
            Reaches(m0, events', m', a, n + if earned < 10 then earned else 10)
    ensures Quiet(m', a) && m'.clock == m.c.ipStates[a].lastRefill + seconds * 1_000_000_000 + rest
    ensures Prechecked(m'.c, a, false, 0.0, 0.0, m'.clock).1.Drop?
  {
    hide Reaches, Cleaned, Suspicious;
    var s, earned := m.c.ipStates[a], m.c.ipStates[a].tokens + 5 * seconds;
    var now := s.lastRefill + seconds * SECOND + rest;
    WholeSeconds(seconds, rest);
    assert Elapsed(now, s.lastRefill) / SECOND == seconds;
    var k := if earned < 10 then earned else 10;
    assert Refilled(s, now).tokens == k;
    events', m' := ServedFromTokens(m0, events, m, a, n, k, now);
    var s' := m'.c.ipStates[a];
    assert s'.tokens == 0 && Elapsed(now, s'.lastRefill) < SECOND;
    assert Refilled(s'.(lastActivity := now), now).tokens == 0;
  }

  lemma WholeSeconds(seconds: nat, rest: nat)
    requires rest < SECOND
    ensures (seconds * SECOND + rest) / SECOND == seconds
  {
  }

  /** A new device, a first message with a cookie, and a call that starts just before a second is full. */
  lemma AlmostASecond(start: nat, a: Addr) returns (events: seq<Event>, m: Machine)
    ensures IsRun(Initial(start), events) && Outcome(Initial(start), events) == m
    ensures Quiet(m, a) && m.clock == start + SECOND - 1 && m.c.lastReap == start
    ensures m.c.ipStates[a].tokens == TOKEN_BUCKET_CAPACITY && m.c.ipStates[a].lastRefill == start
  {
    hide Cleaned, Suspicious, Reaches;
    var e0, e1, e2 := Start(start, 0.0, []), CheckSource(a, true, 0.0, 0.0, start), Start(start + SECOND - 1, 0.0, []);
    var m0 := Initial(start);
    assert Reaches(m0, [], m0, a, 0) by { StartReaches(m0, a); }
    assert Expired(map[], TimeoutForRatio(0.0), start) == {} && Expired(map[], TimeoutForRatio(0.0), e2.now) == {};
    Extend(m0, [], m0, a, 0, e0);
    var m1 := Apply(m0, e0);
    Extend(m0, [] + [e0], m1, a, 0, e1);
    var m2 := Apply(m1, e1);
    CleanedKeeps(NewIp(start), start);
    Extend(m0, [] + [e0] + [e1], m2, a, 0, e2);
    events, m := [] + [e0] + [e1] + [e2], Apply(m2, e2);
    assert Reaches(m0, events, m, a, 0);
    ReachesIsRun(m0, events, m, a, 0);
  }

  lemma StartReaches(m: Machine, a: Addr)
    ensures Reaches(m, [], m, a, 0)
  {
  }

  lemma {:induction false} ReachesIsRun(m: Machine, events: seq<Event>, m': Machine, a: Addr, n: nat)
    requires Reaches(m, events, m', a, n)
    ensures IsRun(m, events) && Outcome(m, events) == m' && Answered(m, events, a) == n
  {
  }

  /**
   * The bound is met: in some run of a new device fifteen messages of one address are answered
   * within a nanosecond, ten just before a second is full and five when it is.
   */
  lemma BurstOfFifteen(start: nat, a: Addr)
    ensures exists before: seq<Event>, burst: seq<Event> ::
              && IsRun(Initial(start), before)
              && var m := Outcome(Initial(start), before);
              && IsRun(m, burst) && Outcome(m, burst).clock == m.clock + 1 && Answered(m, burst, a) == 15
  {
    hide Reaches, IsRun, Outcome, Answered, Initial;
    var before, m := AlmostASecond(start, a);
    assert Reaches(m, [], m, a, 0) by { StartReaches(m, a); }
    assert Elapsed(start + SECOND - 1, start) / SECOND == 0;
    var burst, m1 := ServedFromTokens(m, [], m, a, 0, 10, start + SECOND - 1);
    assert Elapsed(start + SECOND, start) / SECOND == 1;
    var m2;
    burst, m2 := ServedFromTokens(m, burst, m1, a, 10, 5, start + SECOND);
    ReachesIsRun(m, burst, m2, a, 15);
  }

  // -------------------------------------------------------------------- class

  /** `clean_windows`: each deque loses its old front. */
  method CleanWindows(s: IpState, now: nat) returns (r: IpState)
    ensures r == Cleaned(s, now)
  {
    var requests := PopOld(s.requestTimes, SLIDING_WINDOW, now);
    var successes := PopOld(s.successTimes, BEHAVIOR_WINDOW, now);
    var failures := PopOld(s.failureTimes, BEHAVIOR_WINDOW, now);
    var events := s.timeoutEvents;
    while events != [] && events[0].0 + BEHAVIOR_WINDOW < now
      invariant RecentEvents(events, now) == RecentEvents(s.timeoutEvents, now)
    {
      events := events[1..];
    }
    r := s.(requestTimes := requests, successTimes := successes, failureTimes := failures, timeoutEvents := events);
  }

  method PopOld(times: seq<nat>, window: nat, now: nat) returns (r: seq<nat>)
    ensures r == Recent(times, window, now)
  {
    r := times;
    while r != [] && r[0] + window < now
      invariant Recent(r, window, now) == Recent(times, window, now)
    {
      r := r[1..];
    }
  }

  /** What the deques lose is exactly what is older than the window, if times only grow. */
  lemma {:induction false} RecentIsExact(times: seq<nat>, window: nat, now: nat)
    requires forall i, j :: 0 <= i < j < |times| ==> times[i] <= times[j]
    ensures var r := Recent(times, window, now);
            && |r| <= |times| && r == times[|times| - |r|..]
            && (forall i :: 0 <= i < |times| ==> (times[i] + window >= now <==> i >= |times| - |r|))
  {
    if times != [] && times[0] + window < now {
      RecentIsExact(times[1..], window, now);
      var r := Recent(times, window, now);
      forall i | 0 <= i < |times| ensures times[i] + window >= now <==> i >= |times| - |r| {
        if i > 0 { assert times[i] == times[1..][i - 1]; }
      }
    }
  }

  method CountTimeouts(events: seq<(nat, bool)>) returns (n: nat)
    ensures n == TimedOut(events)
  {
    n := 0;
    for i := |events| downto 0
      invariant n == TimedOut(events[i..])
    {
      n := n + if events[i].1 then 1 else 0;
    }
  }

  /** `gone` has been taken out of the table, in the order `expired`. */
  ghost predicate Taken(before: map<u32, HalfOpenEntry>, left: map<u32, HalfOpenEntry>, gone: set<u32>,
                        expired: seq<u32>, addrs: seq<Addr>) {
    && left == before - gone && IsOrderOf(expired, gone)
    && (forall i :: 0 <= i < |expired| ==> expired[i] in before) && addrs == AddrsOf(before, expired)
  }

  lemma NothingTaken(before: map<u32, HalfOpenEntry>, timeout: nat, now: nat)
    ensures Taken(before, before, Expired(before, timeout, now) - before.Keys, [], [])
  {
    assert Expired(before, timeout, now) - before.Keys == {};
    assert before - {} == before;
  }

  lemma TakeOne(before: map<u32, HalfOpenEntry>, left: map<u32, HalfOpenEntry>, gone: set<u32>,
                expired: seq<u32>, addrs: seq<Addr>, id: u32)
    requires Taken(before, left, gone, expired, addrs) && id in left
    ensures Taken(before, left - {id}, gone + {id}, expired + [id], addrs + [left[id].addr])
  {
    assert (expired + [id])[..|expired|] == expired;
    assert before - (gone + {id}) == left - {id};
  }

  lemma ExpiredSplits(before: map<u32, HalfOpenEntry>, timeout: nat, now: nat, todo: set<u32>, id: u32)
    requires id in todo && id in before
    ensures Expired(before, timeout, now) - (todo - {id}) ==
            (Expired(before, timeout, now) - todo) + if Elapsed(now, before[id].born) < timeout then {} else {id}
    ensures todo - {id} + {id} == todo
  {
  }

  lemma {:induction false} AllTaken(before: map<u32, HalfOpenEntry>, left: map<u32, HalfOpenEntry>, gone: set<u32>,
                 expired: seq<u32>, addrs: seq<Addr>, todo: set<u32>)
    requires todo == {} && Taken(before, left, gone - todo, expired, addrs)
    ensures left == before - gone && IsOrderOf(expired, gone)
    ensures (forall i :: 0 <= i < |expired| ==> expired[i] in before) && addrs == AddrsOf(before, expired)
  {
    assert gone - todo == gone;
  }

  class GradientDosChecker {
    var ipStates: map<Addr, IpState>
    var halfOpenById: map<u32, HalfOpenEntry>
    var lastReap: nat

    function View(): Checker
      reads this
    {
      Checker.Checker(ipStates, halfOpenById, lastReap)
    }

    constructor (now: nat)
      ensures View() == Initial(now).c
    {
      ipStates, halfOpenById, lastReap := map[], map[], now;
    }

    /** `ip_states.retain(..)`. */
    method Purge(now: nat)
      modifies this`ipStates
      ensures ipStates == Purged(old(ipStates), now)
    {
      ghost var before := ipStates;
      var todo := ipStates.Keys;
      while todo != {}
        invariant todo <= before.Keys
        invariant ipStates == map a | a in before &&
                    (a in todo || Elapsed(now, before[a].lastActivity) < ACTIVITY_LIMIT) :: before[a]
        decreases |todo|
      {
        var a :| a in todo;
        if !(Elapsed(now, ipStates[a].lastActivity) < ACTIVITY_LIMIT) {
          ipStates := ipStates - {a};
        }
        todo := todo - {a};
      }
    }

    method Precheck(src: Addr, hasValidCookie: bool, ratio: real, draw: real, now: nat) returns (r: Decision)
      modifies this`ipStates
      ensures (View(), r) == Prechecked(old(View()), src, hasValidCookie, ratio, draw, now)
    {
      Purge(now);
      var state := Entry(ipStates, src, now);
      state := state.(lastActivity := now);

      if state.bannedUntil.Some? && state.bannedUntil.value > now {
        ipStates := ipStates[src := Strike(state)];
        return Drop;
      }
      if !hasValidCookie {
        state := Refilled(state, now);
        if state.tokens == 0 {
          ipStates := ipStates[src := Failed(state, now)];
          return Drop;
        }
        state := state.(tokens := state.tokens - 1);
      }
      state := CleanWindows(state, now);
      state := state.(requestTimes := state.requestTimes + [now]);
      var behaviorTrigger := Suspicious(state);
      if state.halfOpen >= QuotaForRatio(ratio) {
        ipStates := ipStates[src := Failed(state, now)];
        return Drop;
      }
      if hasValidCookie {
        ipStates := ipStates[src := state];
        return Allow;
      }
      if behaviorTrigger {
        ipStates := ipStates[src := Failed(state, now)];
        return Challenge;
      }
      if ratio > 0.0 {
        if draw < ratio {
          ipStates := ipStates[src := Failed(state, now)];
          return Challenge;
        }
      }
      ipStates := ipStates[src := state];
      return Allow;
    }

    method RecordSuccess(src: Addr, now: nat)
      modifies this`ipStates
      ensures View() == SuccessRecorded(old(View()), src, now)
    {
      if src in ipStates {
        var s := ipStates[src];
        s := CleanWindows(s.(consecutiveFailures := 0, successTimes := s.successTimes + [now],
                             timeoutEvents := s.timeoutEvents + [(now, false)]), now);
        ipStates := ipStates[src := s];
      }
    }

    method RecordFailure(src: Addr, now: nat)
      modifies this`ipStates
      ensures View() == FailureRecorded(old(View()), src, now)
    {
      var s := CleanWindows(Failed(Entry(ipStates, src, now), now), now);
      ipStates := ipStates[src := s];
    }

    method RegisterHalfOpen(id: u32, src: Addr, now: nat)
      modifies this`ipStates, this`halfOpenById
      ensures View() == Register(old(View()), id, src, now)
    {
      halfOpenById := halfOpenById[id := HalfOpenEntry(src, now)];
      var s := Entry(ipStates, src, now);
      ipStates := ipStates[src := s.(halfOpen := Inc64(s.halfOpen))];
    }

    method ReleaseHalfOpen(id: u32)
      modifies this`ipStates, this`halfOpenById
      ensures View() == Release(old(View()), id)
    {
      if id in halfOpenById {
        var src := halfOpenById[id].addr;
        halfOpenById := halfOpenById - {id};
        if src in ipStates {
          var s := ipStates[src];
          ipStates := ipStates[src := s.(halfOpen := Dec64(s.halfOpen))];
        }
      }
    }

    /** `retain` on the table: the expired ids, in the order the hash map hands them out. */
    method TakeExpired(timeout: nat, now: nat) returns (expired: seq<u32>, addrs: seq<Addr>)
      modifies this`halfOpenById
      ensures halfOpenById == old(halfOpenById) - Expired(old(halfOpenById), timeout, now)
      ensures IsOrderOf(expired, Expired(old(halfOpenById), timeout, now))
      ensures addrs == AddrsOf(old(halfOpenById), expired)
    {
      hide Taken, Expired;
      expired, addrs := [], [];
      ghost var before := halfOpenById;
      var todo := halfOpenById.Keys;
      NothingTaken(before, timeout, now);
      while todo != {}
        invariant todo <= before.Keys && todo <= halfOpenById.Keys
        invariant forall id :: id in todo ==> id in before && halfOpenById[id] == before[id]
        invariant Taken(before, halfOpenById, Expired(before, timeout, now) - todo, expired, addrs)
        decreases |todo|
      {
        var id :| id in todo;
        var e := halfOpenById[id];
        ExpiredSplits(before, timeout, now, todo, id);
        todo := todo - {id};
        if !(Elapsed(now, e.born) < timeout) {
          TakeOne(before, halfOpenById, Expired(before, timeout, now) - (todo + {id}), expired, addrs, id);
          expired, addrs := expired + [id], addrs + [e.addr];
          halfOpenById := halfOpenById - {id};
        }
      }
      AllTaken(before, halfOpenById, Expired(before, timeout, now), expired, addrs, todo);
    }

    method ReapExpiredHalfOpen(ratio: real, now: nat) returns (expired: seq<u32>)
      modifies this
      ensures Elapsed(now, old(lastReap)) < REAP_INTERVAL ==> expired == []
      ensures Elapsed(now, old(lastReap)) >= REAP_INTERVAL ==>
                IsOrderOf(expired, Expired(old(halfOpenById), TimeoutForRatio(ratio), now))
      ensures forall i :: 0 <= i < |expired| ==> expired[i] in old(halfOpenById)
      ensures View() == Reap(old(View()), ratio, expired, now)
    {
      if Elapsed(now, lastReap) < REAP_INTERVAL {
        return [];
      }
      lastReap := now;
      ghost var before := ipStates;
      var addrs;
      expired, addrs := TakeExpired(TimeoutForRatio(ratio), now);
      for i := 0 to |addrs|
        invariant ipStates == ReapAll(before, addrs[..i], now)
        invariant lastReap == now
        invariant halfOpenById == old(halfOpenById) - Expired(old(halfOpenById), TimeoutForRatio(ratio), now)
      {
        var s := Entry(ipStates, addrs[i], now);
        s := CleanWindows(s.(halfOpen := Dec64(s.halfOpen), timeoutEvents := s.timeoutEvents + [(now, true)]), now);
        var total := |s.timeoutEvents|;
        var timedOut := CountTimeouts(s.timeoutEvents);
        if total >= MALICIOUS_MIN_SAMPLES && 10 * timedOut >= 8 * total {
          s := s.(bannedUntil := Some(now + BEHAVIOR_WINDOW));
        }
        assert addrs[..i + 1][..i] == addrs[..i];
        ipStates := ipStates[addrs[i] := s];
      }
      assert addrs[..|addrs|] == addrs;
    }
  }
}
