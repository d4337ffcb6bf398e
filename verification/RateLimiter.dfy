/**
 * The per-address token bucket (src/wireguard_hybrid_new/handshake/ratelimiter.rs). Times and
 * tokens are in nanoseconds.
 */
module RateLimiter {
  import opened Base

  const PACKETS_PER_SECOND: nat := 20
  const PACKETS_BURSTABLE: nat := 5
  const PACKET_COST: nat := SECOND / PACKETS_PER_SECOND
  const MAX_TOKENS: nat := PACKET_COST * PACKETS_BURSTABLE
  const GC_INTERVAL: nat := SECOND

  datatype Entry = Entry(lastTime: nat, tokens: nat)

  type Table = map<IpAddr, Entry>

  /** The tokens on hand: only the part of the elapsed time below a second is credited. */
  function Credited(e: Entry, now: nat): nat {
    Min(MAX_TOKENS, e.tokens + Elapsed(now, e.lastTime) % SECOND)
  }

  function Allowed(table: Table, addr: IpAddr, now: nat): (Table, bool) {
    if addr !in table then (table[addr := Entry(now, MAX_TOKENS - PACKET_COST)], true)
    else
      var tokens := Credited(table[addr], now);
      if tokens > PACKET_COST then (table[addr := Entry(now, tokens - PACKET_COST)], true)
      else (table[addr := Entry(now, tokens)], false)
  }

  /** The garbage collection. */
  function Collect(table: Table, now: nat): Table {
    map a | a in table && Elapsed(now, table[a].lastTime) <= GC_INTERVAL :: table[a]
  }

  datatype Event = Packet(addr: IpAddr, now: nat) | Gc(now: nat)

  function Apply(table: Table, e: Event): Table {
    match e
    case Packet(addr, now) => Allowed(table, addr, now).0
    case Gc(now) => Collect(table, now)
  }

  function After(table: Table, events: seq<Event>): Table
    decreases |events|
  {
    if events == [] then table else After(Apply(table, events[0]), events[1..])
  }

  /** One if the event is a packet of `addr` that is let through. */
  function Passes(table: Table, e: Event, addr: IpAddr): nat {
    match e
    case Packet(a, now) => if a == addr && Allowed(table, a, now).1 then 1 else 0
    case Gc(_) => 0
  }

  /** The packets of `addr` that are let through. */
  function Passed(table: Table, events: seq<Event>, addr: IpAddr): nat
    decreases |events|
  {
    if events == [] then 0 else Passes(table, events[0], addr) + Passed(Apply(table, events[0]), events[1..], addr)
  }

  /** The clock does not run backwards, from `start` on. */
  ghost predicate Ordered(events: seq<Event>, start: nat)
    decreases |events|
  {
    events == [] || (start <= events[0].now && Ordered(events[1..], events[0].now))
  }

  function End(events: seq<Event>, start: nat): nat {
    if events == [] then start else events[|events| - 1].now
  }

  /** No entry is from the future, nor holds more than the cap. */
  ghost predicate Sound(table: Table, now: nat) {
    forall a :: a in table ==> table[a].lastTime <= now && table[a].tokens <= MAX_TOKENS
  }

  /** What an address could spend at `now` if every nanosecond were credited; unknown means full. */
  function Worth(table: Table, addr: IpAddr, now: nat): (w: nat)
    ensures w <= MAX_TOKENS
  {
    if addr in table then Min(MAX_TOKENS, table[addr].tokens + Elapsed(now, table[addr].lastTime)) else MAX_TOKENS
  }

  /** Worth grows by no more than the time that passes. */
  lemma Waiting(table: Table, addr: IpAddr, t: nat, now: nat)
    requires t <= now
    ensures Worth(table, addr, now) <= Worth(table, addr, t) + (now - t)
  {
  }

  /** Forgetting an idle entry grants nothing that waiting had not already granted. */
  lemma ForgettingGrantsNothing(table: Table, addr: IpAddr, now: nat)
    ensures Worth(Collect(table, now), addr, now) == Worth(table, addr, now)
  {
  }

  /** A packet that passes costs its price; one that is refused, or another address's, costs nothing. */
  lemma PacketIsPaid(table: Table, addr: IpAddr, other: IpAddr, now: nat)
    requires Sound(table, now)
    ensures var (t', ok) := Allowed(table, other, now);
            Worth(t', addr, now) + (if other == addr && ok then PACKET_COST else 0) <= Worth(table, addr, now)
  {
    var rest := Elapsed(now, if other in table then table[other].lastTime else now);
    assert rest % SECOND <= rest;
  }

  lemma SoundStep(table: Table, e: Event, start: nat)
    requires Sound(table, start) && start <= e.now
    ensures Sound(Apply(table, e), e.now)
  {
  }

  lemma StepIsPaid(table: Table, e: Event, start: nat, addr: IpAddr)
    requires Sound(table, start) && start <= e.now
    ensures Passes(table, e, addr) * PACKET_COST + Worth(Apply(table, e), addr, e.now) <=
            Worth(table, addr, start) + (e.now - start)
  {
    hide Worth, Allowed, Collect;
    Waiting(table, addr, start, e.now);
    match e
    case Packet(a, now) =>
      PacketIsPaid(table, addr, a, now);
      assert Passes(table, e, addr) == if a == addr && Allowed(table, a, now).1 then 1 else 0;
    case Gc(now) => ForgettingGrantsNothing(table, addr, now);
  }

  /**
   * Over any sequence of calls and collections, what passes of one address is paid for: by what
   * it was worth at the start, at most five packets, and by the time that went by.
   */
  lemma {:induction false} PassedIsPaid(table: Table, events: seq<Event>, start: nat, addr: IpAddr)
    requires Sound(table, start) && Ordered(events, start)
    ensures start <= End(events, start)
    ensures Passed(table, events, addr) * PACKET_COST + Worth(After(table, events), addr, End(events, start)) <=
            Worth(table, addr, start) + (End(events, start) - start)
    ensures Passed(table, events, addr) * PACKET_COST <= MAX_TOKENS + (End(events, start) - start)
    decreases |events|
  {
    if events != [] {
      hide Worth, Apply, Passes, Sound;
      var e, rest := events[0], events[1..];
      SoundStep(table, e, start);
      StepIsPaid(table, e, start, addr);
      PassedIsPaid(Apply(table, e), rest, e.now, addr);
      assert End(events, start) == End(rest, e.now);
      Distribute(Passes(table, e, addr), Passed(Apply(table, e), rest, addr));
    }
  }

  lemma Distribute(a: nat, b: nat)
    ensures (a + b) * PACKET_COST == a * PACKET_COST + b * PACKET_COST
  {
  }

  /**
   * In any window of a run that starts with an empty table, an address gets no more packets
   * through than five and one for every 50 ms of the window.
   */
  lemma {:induction false} WindowBound(events: seq<Event>, start: nat, i: nat, j: nat, addr: IpAddr)
    requires Ordered(events, start) && i <= j <= |events|
    ensures var table := After(map[], events[..i]);
            var from := End(events[..i], start);
            from <= End(events[i..j], from) &&
            Passed(table, events[i..j], addr) * PACKET_COST <= MAX_TOKENS + (End(events[i..j], from) - from)
  {
    OrderedSplit(events, start, i);
    AfterIsSound(map[], events[..i], start);
    OrderedSplit(events[i..], End(events[..i], start), j - i);
    assert events[i..][..j - i] == events[i..j];
    PassedIsPaid(After(map[], events[..i]), events[i..j], End(events[..i], start), addr);
  }

  lemma {:induction false} OrderedSplit(events: seq<Event>, start: nat, i: nat)
    requires Ordered(events, start) && i <= |events|
    ensures Ordered(events[..i], start) && Ordered(events[i..], End(events[..i], start))
    decreases i
  {
    if i > 0 {
      var front, rest := events[..i], events[1..];
      OrderedSplit(rest, events[0].now, i - 1);
      assert front[1..] == rest[..i - 1];
      assert rest[i - 1..] == events[i..];
      assert front[0] == events[0] && front != [];
      EndOfRest(front, start);
    } else {
      assert events[..i] == [];
    }
  }

  lemma EndOfRest(events: seq<Event>, start: nat)
    requires events != []
    ensures End(events, start) == End(events[1..], events[0].now)
  {
  }

  lemma {:induction false} AfterIsSound(table: Table, events: seq<Event>, start: nat)
    requires Sound(table, start) && Ordered(events, start)
    ensures Sound(After(table, events), End(events, start))
    decreases |events|
  {
    if events != [] {
      SoundStep(table, events[0], start);
      AfterIsSound(Apply(table, events[0]), events[1..], events[0].now);
    }
  }

  // ------------------------------------------------------- where the code is stricter

  /** What a bucket that credits all elapsed time would hold. */
  function Earned(e: Entry, now: nat): nat {
    Min(MAX_TOKENS, e.tokens + Elapsed(now, e.lastTime))
  }

  /**
   * The refill is the promised one exactly if less than a second went by, or if the part of the
   * time below a second fills the bucket anyway.
   */
  lemma RefillIsExact(e: Entry, now: nat)
    requires e.tokens <= MAX_TOKENS
    ensures Credited(e, now) == Earned(e, now) <==>
            Elapsed(now, e.lastTime) < SECOND || e.tokens + Elapsed(now, e.lastTime) % SECOND >= MAX_TOKENS
  {
    var t := Elapsed(now, e.lastTime);
    if t < SECOND {
      assert t % SECOND == t;
    } else {
      assert t >= MAX_TOKENS;
    }
  }

  /** A drained address that waits exactly one second is refused, though it has earned five packets. */
  lemma WholeSecondsAreLost(addr: IpAddr, tokens: nat, start: nat)
    requires tokens <= PACKET_COST
    ensures var e := Entry(start, tokens);
            !Allowed(map[addr := e], addr, start + SECOND).1 && Earned(e, start + SECOND) == MAX_TOKENS
  {
    assert (start + SECOND - start) % SECOND == 0;
  }

  /** Successive packets of `addr` are at least the price and less than a second apart. */
  ghost predicate Steady(events: seq<Event>, addr: IpAddr, last: Option<nat>)
    decreases |events|
  {
    events == [] ||
    match events[0]
    case Packet(a, now) =>
      if a == addr then
        && (last.Some? ==> last.value + PACKET_COST <= now < last.value + SECOND)
        && Steady(events[1..], addr, Some(now))
      else Steady(events[1..], addr, last)
    case Gc(_) => Steady(events[1..], addr, last)
  }

  function Sent(events: seq<Event>, addr: IpAddr): nat {
    if events == [] then 0
    else (if events[0].Packet? && events[0].addr == addr then 1 else 0) + Sent(events[1..], addr)
  }

  /** A sender that keeps to the rate is never refused, whatever is collected in between. */
  lemma {:induction false} SteadyIsNeverRefused(table: Table, events: seq<Event>, addr: IpAddr, last: Option<nat>,
                                                start: nat)
    requires Ordered(events, start) && Steady(events, addr, last)
    requires addr in table ==> last == Some(table[addr].lastTime) && table[addr].tokens >= 1
    ensures Passed(table, events, addr) == Sent(events, addr)
    decreases |events|
  {
    if events != [] {
      var e, rest := events[0], events[1..];
      match e
      case Packet(a, now) =>
        if a == addr && addr in table {
          var d := Elapsed(now, table[addr].lastTime);
          assert d % SECOND == d;
        }
        SteadyIsNeverRefused(Apply(table, e), rest, addr, if a == addr then Some(now) else last, now);
      case Gc(now) =>
        SteadyIsNeverRefused(Apply(table, e), rest, addr, last, now);
    }
  }

  // ------------------------------------------------------------ the exact account

  /** Everything happens less than a second after the last packet of `addr`, whose entry is from `last`. */
  ghost predicate Brisk(events: seq<Event>, addr: IpAddr, last: nat)
    decreases |events|
  {
    events == [] ||
    (events[0].now < last + SECOND &&
     Brisk(events[1..], addr, if events[0].Packet? && events[0].addr == addr then events[0].now else last))
  }

  /** What the cap of 250 ms takes off the credit of `addr`. */
  function CutOff(table: Table, e: Event, addr: IpAddr): nat {
    if e.Packet? && e.addr == addr && addr in table then
      var credit := table[addr].tokens + Elapsed(e.now, table[addr].lastTime);
      if credit > 250_000_000 then credit - 250_000_000 else 0
    else 0
  }

  function AllCutOff(table: Table, events: seq<Event>, addr: IpAddr): nat
    decreases |events|
  {
    if events == [] then 0 else CutOff(table, events[0], addr) + AllCutOff(Apply(table, events[0]), events[1..], addr)
  }

  /** A packet passes exactly if more than 50 ms of credit are there, and only then pays for it. */
  lemma BriskPacket(table: Table, addr: IpAddr, now: nat)
    requires addr in table && table[addr].lastTime <= now < table[addr].lastTime + SECOND
    ensures var (t', ok) := Allowed(table, addr, now);
            var credit := Min(250_000_000, table[addr].tokens + (now - table[addr].lastTime));
            && (ok <==> credit > 50_000_000)
            && addr in t' && t'[addr] == Entry(now, if ok then credit - 50_000_000 else credit)
  {
    var d := now - table[addr].lastTime;
    assert d % SECOND == d;
  }

  /** An unknown address passes, and is left with four packets' worth. */
  lemma FirstPacket(table: Table, addr: IpAddr, now: nat)
    requires addr !in table
    ensures Allowed(table, addr, now) == (table[addr := Entry(now, 200_000_000)], true)
  {
  }

  /** A collection forgets exactly what was idle for over a second; who was forgotten starts afresh. */
  lemma IdleIsForgotten(table: Table, addr: IpAddr, now: nat, later: nat)
    requires addr in table && table[addr].lastTime <= now
    ensures var t' := Collect(table, now);
            if now > table[addr].lastTime + 1_000_000_000
            then addr !in t' && Allowed(t', addr, later) == (t'[addr := Entry(later, 200_000_000)], true)
            else addr in t' && t'[addr] == table[addr] && Allowed(t', addr, later).1 == Allowed(table, addr, later).1
  {
  }

  lemma OtherEvents(table: Table, e: Event, addr: IpAddr)
    requires addr in table && table[addr].lastTime <= e.now < table[addr].lastTime + SECOND
    requires !(e.Packet? && e.addr == addr)
    ensures addr in Apply(table, e) && Apply(table, e)[addr] == table[addr] && Passes(table, e, addr) == 0
  {
  }

  /**
   * The exact account of an address whose packets are less than a second apart, refusals and
   * collections included: what it has, what it spent and what the cap took is what it had and the
   * time from its first entry to its last packet.
   */
  lemma {:induction false} ExactAccount(table: Table, events: seq<Event>, addr: IpAddr, start: nat)
    requires addr in table && table[addr].lastTime <= start && Ordered(events, start)
    requires Brisk(events, addr, table[addr].lastTime)
    ensures var t' := After(table, events);
            && addr in t' && t'[addr].lastTime >= table[addr].lastTime
            && t'[addr].tokens + Passed(table, events, addr) * 50_000_000 + AllCutOff(table, events, addr) ==
               table[addr].tokens + (t'[addr].lastTime - table[addr].lastTime)
    decreases |events|
  {
    if events != [] {
      hide Allowed, Collect;
      var e, rest := events[0], events[1..];
      if e.Packet? && e.addr == addr {
        BriskPacket(table, addr, e.now);
      } else {
        OtherEvents(table, e, addr);
      }
      ExactAccount(Apply(table, e), rest, addr, e.now);
    }
  }

  // -------------------------------------------------------------------- class

  class Limiter {
    var table: Table

    constructor ()
      ensures table == map[]
    {
      table := map[];
    }

    method Allow(addr: IpAddr, now: nat) returns (allowed: bool)
      modifies this
      ensures (table, allowed) == Allowed(old(table), addr, now)
    {
      if addr in table {
        var entry := table[addr];
        entry := entry.(tokens := Min(MAX_TOKENS, entry.tokens + Elapsed(now, entry.lastTime) % SECOND));
        entry := entry.(lastTime := now);
        if entry.tokens > PACKET_COST {
          entry := entry.(tokens := entry.tokens - PACKET_COST);
          table := table[addr := entry];
          return true;
        } else {
          table := table[addr := entry];
          return false;
        }
      }
      table := table[addr := Entry(now, MAX_TOKENS - PACKET_COST)];
      allowed := true;
    }

    /** `retain` over the table. */
    method GarbageCollect(now: nat) returns (empty: bool)
      modifies this
      ensures table == Collect(old(table), now) && (empty <==> table == map[])
    {
      ghost var before := table;
      var todo := table.Keys;
      while todo != {}
        invariant todo <= before.Keys
        invariant table == map a | a in before
          && (a in todo || Elapsed(now, before[a].lastTime) <= GC_INTERVAL) :: before[a]
        decreases |todo|
      {
        var a :| a in todo;
        if !(Elapsed(now, table[a].lastTime) <= GC_INTERVAL) {
          table := table - {a};
        }
        todo := todo - {a};
      }
      empty := |table| == 0;
    }
  }
}
