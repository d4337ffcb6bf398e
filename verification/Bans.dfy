/**
 * Bans, challenges and drops told from what happened to an address
 * (`precheck` and `reap_expired_half_open` in src/wireguard_hybrid_new/handshake/device.rs): a
 * journal of its events over a run decides every verdict.
 */
module Bans {
  import opened Base
  import opened HalfOpen

  /** A completed handshake; a failure, challenge or drop; a drop for a ban; an expired entry. */
  datatype Kind = Good | Bad | Turned | Lapsed

  datatype Note = Note(at: nat, kind: Kind)

  const MINUTE: nat := 60 * SECOND

  // ------------------------------------------------------------------- counting

  /** The notes of a kind in the minute before `now`. */
  function Count(notes: seq<Note>, kind: Kind, now: nat): nat {
    if notes == [] then 0
    else
      var n := notes[|notes| - 1];
      Count(notes[..|notes| - 1], kind, now) + if n.kind == kind && now <= n.at + MINUTE then 1 else 0
  }

  /** The failures since the last success. */
  function Streak(notes: seq<Note>): nat {
    if notes == [] then 0
    else
      match notes[|notes| - 1].kind
      case Good => 0
      case Lapsed => Streak(notes[..|notes| - 1])
      case _ => Streak(notes[..|notes| - 1]) + 1
  }

  /** The expiry at position `i` bans: three ends or more in its minute, four in five of them expiries. */
  predicate IsBan(notes: seq<Note>, i: nat)
    requires i < |notes|
  {
    && notes[i].kind.Lapsed?
    && var goods := Count(notes[..i + 1], Good, notes[i].at);
       var lapses := Count(notes[..i + 1], Lapsed, notes[i].at);
       goods + lapses >= 3 && 5 * lapses >= 4 * (goods + lapses)
  }

  ghost predicate BannedAt(notes: seq<Note>, now: nat) {
    exists i :: 0 <= i < |notes| && IsBan(notes, i) && now < notes[i].at + MINUTE
  }

  // -------------------------------------------------------------------- journal

  function LapsedOf(addrs: seq<Addr>, a: Addr, now: nat): seq<Note> {
    if addrs == [] then []
    else LapsedOf(addrs[..|addrs| - 1], a, now) + if addrs[|addrs| - 1] == a then [Note(now, Lapsed)] else []
  }

  /** The precheck forgets an address that was silent for 300 s. */
  predicate IsPurged(m: Machine, e: Event, a: Addr) {
    e.CheckSource? && a in m.c.ipStates && Elapsed(e.now, m.c.ipStates[a].lastActivity) >= 300 * SECOND
  }

  function Kept(m: Machine, e: Event, a: Addr, past: seq<Note>): seq<Note> {
    if IsPurged(m, e, a) then [] else past
  }

  /** What an event adds to the journal of an address. */
  ghost function Notes(m: Machine, e: Event, a: Addr, past: seq<Note>): seq<Note>
    requires Enabled(m, e)
  {
    match e
    case Start(now, ratio, order) =>
      if Elapsed(now, m.c.lastReap) >= 15 * SECOND then LapsedOf(AddrsOf(m.c.halfOpen, order), a, now) else []
    case CheckSource(src, cookie, ratio, draw, now) =>
      if src != a || Prechecked(m.c, src, cookie, ratio, draw, now).1.Allow? then []
      else [Note(now, if BannedAt(past, now) then Turned else Bad)]
    case Success(src, now) => if src == a && a in m.c.ipStates then [Note(now, Good)] else []
    case Failure(src, now) => if src == a then [Note(now, Bad)] else []
    case _ => []
  }

  ghost function Next(m: Machine, e: Event, a: Addr, past: seq<Note>): seq<Note>
    requires Enabled(m, e)
  {
    Kept(m, e, a, past) + Notes(m, e, a, Kept(m, e, a, past))
  }

  /** The journal of an address after a run. */
  ghost function Journal(m: Machine, events: seq<Event>, a: Addr, past: seq<Note>): seq<Note>
    requires IsRun(m, events)
    decreases |events|
  {
    if events == [] then past else Journal(Apply(m, events[0]), events[1..], a, Next(m, events[0], a, past))
  }

  // ------------------------------------------------------- deques and the journal

  function TimesOf(notes: seq<Note>, kind: Kind): seq<nat> {
    if notes == [] then []
    else TimesOf(notes[..|notes| - 1], kind) + if notes[|notes| - 1].kind == kind then [notes[|notes| - 1].at] else []
  }

  function EndsOf(notes: seq<Note>): seq<(nat, bool)> {
    if notes == [] then []
    else
      var n := notes[|notes| - 1];
      EndsOf(notes[..|notes| - 1])
      + if n.kind.Good? then [(n.at, false)] else if n.kind.Lapsed? then [(n.at, true)] else []
  }

  predicate Sorted(times: seq<nat>, clock: nat) {
    && (forall i, j :: 0 <= i < j < |times| ==> times[i] <= times[j])
    && (forall i :: 0 <= i < |times| ==> times[i] <= clock)
  }

  predicate SortedEnds(ends: seq<(nat, bool)>, clock: nat) {
    && (forall i, j :: 0 <= i < j < |ends| ==> ends[i].0 <= ends[j].0)
    && (forall i :: 0 <= i < |ends| ==> ends[i].0 <= clock)
  }

  /** The times inside the minute before `now`. */
  function InMinute(times: seq<nat>, now: nat): seq<nat> {
    if times == [] then []
    else InMinute(times[..|times| - 1], now) + if now <= times[|times| - 1] + MINUTE then [times[|times| - 1]] else []
  }

  function EndsInMinute(ends: seq<(nat, bool)>, now: nat): seq<(nat, bool)> {
    if ends == [] then []
    else EndsInMinute(ends[..|ends| - 1], now) + if now <= ends[|ends| - 1].0 + MINUTE then [ends[|ends| - 1]] else []
  }

  lemma {:induction false} RecentTwice(times: seq<nat>, now: nat, later: nat)
    requires now <= later
    ensures Recent(Recent(times, BEHAVIOR_WINDOW, now), BEHAVIOR_WINDOW, later) == Recent(times, BEHAVIOR_WINDOW, later)
  {
    if times != [] && times[0] + BEHAVIOR_WINDOW < now {
      RecentTwice(times[1..], now, later);
    }
  }

  lemma {:induction false} RecentEventsTwice(ends: seq<(nat, bool)>, now: nat, later: nat)
    requires now <= later
    ensures RecentEvents(RecentEvents(ends, now), later) == RecentEvents(ends, later)
  {
    if ends != [] && ends[0].0 + BEHAVIOR_WINDOW < now {
      RecentEventsTwice(ends[1..], now, later);
    }
  }

  lemma {:induction false} RecentKeeps(times: seq<nat>, now: nat, clock: nat)
    requires Sorted(times, clock)
    ensures Sorted(Recent(times, BEHAVIOR_WINDOW, now), clock)
  {
    if times != [] && times[0] + BEHAVIOR_WINDOW < now {
      RecentKeeps(times[1..], now, clock);
    }
  }

  lemma {:induction false} RecentEventsKeeps(ends: seq<(nat, bool)>, now: nat, clock: nat)
    requires SortedEnds(ends, clock)
    ensures SortedEnds(RecentEvents(ends, now), clock)
  {
    if ends != [] && ends[0].0 + BEHAVIOR_WINDOW < now {
      RecentEventsKeeps(ends[1..], now, clock);
    }
  }

  lemma {:induction false} RecentAppend(times: seq<nat>, t: nat, now: nat)
    requires Sorted(times, t)
    ensures Recent(times + [t], BEHAVIOR_WINDOW, now)
            == Recent(times, BEHAVIOR_WINDOW, now) + if now <= t + MINUTE then [t] else []
  {
    if times == [] {
      assert times + [t] == [t];
    } else if times[0] + BEHAVIOR_WINDOW < now {
      assert (times + [t])[1..] == times[1..] + [t];
      RecentAppend(times[1..], t, now);
    }
  }

  lemma {:induction false} RecentEventsAppend(ends: seq<(nat, bool)>, x: (nat, bool), now: nat)
    requires SortedEnds(ends, x.0)
    ensures RecentEvents(ends + [x], now) == RecentEvents(ends, now) + if now <= x.0 + MINUTE then [x] else []
  {
    if ends == [] {
      assert ends + [x] == [x];
    } else if ends[0].0 + BEHAVIOR_WINDOW < now {
      assert (ends + [x])[1..] == ends[1..] + [x];
      RecentEventsAppend(ends[1..], x, now);
    }
  }

  /** From `clock` on, the deque shows the same as the whole history. */
  ghost predicate Shows(times: seq<nat>, history: seq<nat>, clock: nat) {
    && Sorted(times, clock)
    && (forall now :: now >= clock ==> Recent(times, BEHAVIOR_WINDOW, now) == InMinute(history, now))
  }

  ghost predicate ShowsEnds(ends: seq<(nat, bool)>, history: seq<(nat, bool)>, clock: nat) {
    && SortedEnds(ends, clock)
    && (forall now :: now >= clock ==> RecentEvents(ends, now) == EndsInMinute(history, now))
  }

  lemma ShowsAppend(times: seq<nat>, history: seq<nat>, clock: nat, t: nat)
    requires Shows(times, history, clock) && clock <= t
    ensures Shows(times + [t], history + [t], t)
  {
    forall now | now >= t
      ensures Recent(times + [t], BEHAVIOR_WINDOW, now) == InMinute(history + [t], now)
    {
      RecentAppend(times, t, now);
      assert (history + [t])[..|history|] == history;
    }
  }

  lemma ShowsEndsAppend(ends: seq<(nat, bool)>, history: seq<(nat, bool)>, clock: nat, x: (nat, bool))
    requires ShowsEnds(ends, history, clock) && clock <= x.0
    ensures ShowsEnds(ends + [x], history + [x], x.0)
  {
    forall now | now >= x.0 ensures RecentEvents(ends + [x], now) == EndsInMinute(history + [x], now) {
      RecentEventsAppend(ends, x, now);
      assert (history + [x])[..|history|] == history;
    }
  }

  lemma {:induction false} ShowsCleaned(times: seq<nat>, history: seq<nat>, clock: nat, t: nat)
    requires Shows(times, history, clock) && clock <= t
    ensures Shows(Recent(times, BEHAVIOR_WINDOW, t), history, t)
    ensures Recent(times, BEHAVIOR_WINDOW, t) == InMinute(history, t)
  {
    RecentKeeps(times, t, t);
    forall now | now >= t
      ensures Recent(Recent(times, BEHAVIOR_WINDOW, t), BEHAVIOR_WINDOW, now) == InMinute(history, now)
    {
      RecentTwice(times, t, now);
    }
  }

  lemma {:induction false} ShowsEndsCleaned(ends: seq<(nat, bool)>, history: seq<(nat, bool)>, clock: nat, t: nat)
    requires ShowsEnds(ends, history, clock) && clock <= t
    ensures ShowsEnds(RecentEvents(ends, t), history, t)
    ensures RecentEvents(ends, t) == EndsInMinute(history, t)
  {
    RecentEventsKeeps(ends, t, t);
    forall now | now >= t ensures RecentEvents(RecentEvents(ends, t), now) == EndsInMinute(history, now) {
      RecentEventsTwice(ends, t, now);
    }
  }

  lemma {:induction false} InMinuteAppend(times: seq<nat>, t: nat, now: nat)
    ensures InMinute(times + [t], now) == InMinute(times, now) + if now <= t + MINUTE then [t] else []
  {
    assert (times + [t])[..|times|] == times;
  }

  lemma {:induction false} EndsInMinuteAppend(ends: seq<(nat, bool)>, x: (nat, bool), now: nat)
    ensures EndsInMinute(ends + [x], now) == EndsInMinute(ends, now) + if now <= x.0 + MINUTE then [x] else []
  {
    assert (ends + [x])[..|ends|] == ends;
  }

  lemma {:induction false} CountsOfMinute(notes: seq<Note>, kind: Kind, now: nat)
    ensures |InMinute(TimesOf(notes, kind), now)| == Count(notes, kind, now)
  {
    if notes != [] {
      var n := |notes| - 1;
      CountsOfMinute(notes[..n], kind, now);
      var before := TimesOf(notes[..n], kind);
      if notes[n].kind == kind {
        assert TimesOf(notes, kind) == before + [notes[n].at];
        InMinuteAppend(before, notes[n].at, now);
      } else {
        assert TimesOf(notes, kind) == before;
      }
    }
  }

  lemma {:induction false} TimedOutAppend(ends: seq<(nat, bool)>, x: (nat, bool))
    ensures TimedOut(ends + [x]) == TimedOut(ends) + if x.1 then 1 else 0
  {
    if ends == [] {
      assert ends + [x] == [x] && [x][1..] == [];
    } else {
      assert (ends + [x])[1..] == ends[1..] + [x];
      TimedOutAppend(ends[1..], x);
    }
  }

  lemma {:induction false} EndsOfMinute(notes: seq<Note>, now: nat)
    ensures |EndsInMinute(EndsOf(notes), now)| == Count(notes, Good, now) + Count(notes, Lapsed, now)
    ensures TimedOut(EndsInMinute(EndsOf(notes), now)) == Count(notes, Lapsed, now)
  {
    if notes != [] {
      var n := |notes| - 1;
      EndsOfMinute(notes[..n], now);
      var before, note := EndsOf(notes[..n]), notes[n];
      if note.kind.Good? || note.kind.Lapsed? {
        var x := (note.at, note.kind.Lapsed?);
        assert EndsOf(notes) == before + [x];
        EndsInMinuteAppend(before, x, now);
        if now <= note.at + MINUTE {
          TimedOutAppend(EndsInMinute(before, now), x);
        } else {
          assert EndsInMinute(before, now) + [] == EndsInMinute(before, now);
        }
      } else {
        assert EndsOf(notes) == before;
      }
    }
  }

  // ------------------------------------------------------ states and the journal

  ghost predicate BanShown(s: IpState, notes: seq<Note>) {
    forall now :: (s.bannedUntil.Some? && s.bannedUntil.value > now) <==> BannedAt(notes, now)
  }

  ghost predicate NotedBy(notes: seq<Note>, clock: nat) {
    && (forall i, j :: 0 <= i < j < |notes| ==> notes[i].at <= notes[j].at)
    && (forall i :: 0 <= i < |notes| ==> notes[i].at <= clock)
  }

  ghost predicate DequesShow(s: IpState, notes: seq<Note>, clock: nat) {
    && Shows(s.successTimes, TimesOf(notes, Good), clock) && Shows(s.failureTimes, TimesOf(notes, Bad), clock)
    && ShowsEnds(s.timeoutEvents, EndsOf(notes), clock)
  }

  /** A state says what the journal of its address says. */
  ghost predicate Tracks(s: IpState, notes: seq<Note>, clock: nat) {
    && NotedBy(notes, clock) && DequesShow(s, notes, clock) && BanShown(s, notes)
    && s.consecutiveFailures == Min(Streak(notes), TWO_32 - 1)
  }

  /** An address that is not known has nothing in its journal. */
  ghost predicate Tracked(states: map<Addr, IpState>, a: Addr, notes: seq<Note>, clock: nat) {
    if a in states then Tracks(states[a], notes, clock) else notes == []
  }

  lemma DequesLater(s: IpState, notes: seq<Note>, clock: nat, later: nat)
    requires DequesShow(s, notes, clock) && clock <= later
    ensures DequesShow(s, notes, later)
  {
  }

  lemma TracksLater(s: IpState, notes: seq<Note>, clock: nat, later: nat)
    requires Tracks(s, notes, clock) && clock <= later
    ensures Tracks(s, notes, later)
  {
    hide DequesShow, BanShown, Streak;
    DequesLater(s, notes, clock, later);
  }

  lemma NewTracks(now: nat, clock: nat)
    ensures Tracks(NewIp(now), [], clock)
  {
  }

  lemma CleanedDeques(s: IpState, notes: seq<Note>, clock: nat, now: nat)
    requires DequesShow(s, notes, clock) && clock <= now
    ensures DequesShow(Cleaned(s, now), notes, now)
  {
    hide Shows, ShowsEnds, Recent, RecentEvents, TimesOf, EndsOf;
    ShowsCleaned(s.successTimes, TimesOf(notes, Good), clock, now);
    ShowsCleaned(s.failureTimes, TimesOf(notes, Bad), clock, now);
    ShowsEndsCleaned(s.timeoutEvents, EndsOf(notes), clock, now);
  }

  lemma CleanedTracks(s: IpState, notes: seq<Note>, clock: nat, now: nat)
    requires Tracks(s, notes, clock) && clock <= now
    ensures Tracks(Cleaned(s, now), notes, now)
  {
    hide DequesShow, Streak, BannedAt;
    CleanedDeques(s, notes, clock, now);
    assert BanShown(Cleaned(s, now), notes);
  }

  /** Two states that differ in nothing the journal speaks about. */
  predicate SameHistory(s: IpState, t: IpState) {
    && s.successTimes == t.successTimes && s.failureTimes == t.failureTimes && s.timeoutEvents == t.timeoutEvents
    && s.consecutiveFailures == t.consecutiveFailures && s.bannedUntil == t.bannedUntil
  }

  lemma SameTracks(s: IpState, t: IpState, notes: seq<Note>, clock: nat)
    requires Tracks(s, notes, clock) && SameHistory(s, t)
    ensures Tracks(t, notes, clock)
  {
    hide BannedAt, Streak, Shows, ShowsEnds, TimesOf, EndsOf;
    assert BanShown(t, notes);
  }

  // ------------------------------------------------------------- one more note

  lemma PrefixOf(notes: seq<Note>, n: Note, i: nat)
    requires i < |notes|
    ensures (notes + [n])[..i + 1] == notes[..i + 1]
  {
  }

  lemma BannedAppend(notes: seq<Note>, n: Note, now: nat)
    ensures BannedAt(notes + [n], now) <==>
              BannedAt(notes, now) || (IsBan(notes + [n], |notes|) && now < n.at + MINUTE)
  {
    hide Count;
    var more := notes + [n];
    forall i | 0 <= i < |notes| ensures IsBan(more, i) == IsBan(notes, i) && more[i] == notes[i] {
      PrefixOf(notes, n, i);
    }
    if BannedAt(more, now) {
      var i :| 0 <= i < |more| && IsBan(more, i) && now < more[i].at + MINUTE;
      assert i < |notes| ==> IsBan(notes, i);
    }
    if BannedAt(notes, now) {
      var i :| 0 <= i < |notes| && IsBan(notes, i) && now < notes[i].at + MINUTE;
      assert IsBan(more, i);
    }
  }

  lemma OtherNotesDoNotBan(s: IpState, notes: seq<Note>, n: Note)
    requires BanShown(s, notes) && !n.kind.Lapsed?
    ensures BanShown(s, notes + [n])
  {
    hide BannedAt;
    forall now ensures (s.bannedUntil.Some? && s.bannedUntil.value > now) <==> BannedAt(notes + [n], now) {
      BannedAppend(notes, n, now);
    }
  }

  lemma {:induction false} AppendShapes(notes: seq<Note>, n: Note)
    ensures forall kind :: TimesOf(notes + [n], kind) == TimesOf(notes, kind) + if n.kind == kind then [n.at] else []
    ensures EndsOf(notes + [n]) == EndsOf(notes) + if n.kind.Good? then [(n.at, false)]
            else if n.kind.Lapsed? then [(n.at, true)] else []
    ensures Streak(notes + [n]) == if n.kind.Good? then 0 else Streak(notes) + if n.kind.Lapsed? then 0 else 1
  {
    assert (notes + [n])[..|notes|] == notes;
  }

  lemma NotedAppend(notes: seq<Note>, clock: nat, n: Note)
    requires NotedBy(notes, clock) && clock <= n.at
    ensures NotedBy(notes + [n], n.at)
  {
  }

  lemma BadTracks(s: IpState, notes: seq<Note>, clock: nat, now: nat)
    requires Tracks(s, notes, clock) && clock <= now
    ensures Tracks(Failed(s, now), notes + [Note(now, Bad)], now)
  {
    hide BanShown, Shows, ShowsEnds, TimesOf, EndsOf, Streak, NotedBy;
    var n := Note(now, Bad);
    AppendShapes(notes, n);
    NotedAppend(notes, clock, n);
    DequesLater(s, notes, clock, now);
    assert TimesOf(notes, Good) + [] == TimesOf(notes, Good) && EndsOf(notes) + [] == EndsOf(notes);
    ShowsAppend(s.failureTimes, TimesOf(notes, Bad), clock, now);
    OtherNotesDoNotBan(s, notes, n);
    SameBan(s, Failed(s, now), notes + [n]);
  }

  lemma SameBan(s: IpState, t: IpState, notes: seq<Note>)
    requires BanShown(s, notes) && s.bannedUntil == t.bannedUntil
    ensures BanShown(t, notes)
  {
    hide BannedAt;
  }

  lemma TurnedTracks(s: IpState, notes: seq<Note>, clock: nat, now: nat)
    requires Tracks(s, notes, clock) && clock <= now
    ensures Tracks(Strike(s), notes + [Note(now, Turned)], now)
  {
    hide BanShown, Shows, ShowsEnds, TimesOf, EndsOf, Streak, NotedBy;
    var n := Note(now, Turned);
    AppendShapes(notes, n);
    NotedAppend(notes, clock, n);
    DequesLater(s, notes, clock, now);
    assert forall kind :: TimesOf(notes, kind) + [] == TimesOf(notes, kind);
    assert EndsOf(notes) + [] == EndsOf(notes);
    OtherNotesDoNotBan(s, notes, n);
    SameBan(s, Strike(s), notes + [n]);
  }

  lemma GoodTracks(s: IpState, notes: seq<Note>, clock: nat, now: nat)
    requires Tracks(s, notes, clock) && clock <= now
    ensures Tracks(s.(consecutiveFailures := 0, successTimes := s.successTimes + [now],
                      timeoutEvents := s.timeoutEvents + [(now, false)]), notes + [Note(now, Good)], now)
  {
    hide BanShown, Shows, ShowsEnds, TimesOf, EndsOf, Streak, NotedBy;
    var n := Note(now, Good);
    AppendShapes(notes, n);
    NotedAppend(notes, clock, n);
    DequesLater(s, notes, clock, now);
    assert TimesOf(notes, Bad) + [] == TimesOf(notes, Bad);
    ShowsAppend(s.successTimes, TimesOf(notes, Good), clock, now);
    ShowsEndsAppend(s.timeoutEvents, EndsOf(notes), clock, (now, false));
    OtherNotesDoNotBan(s, notes, n);
    var t := s.(consecutiveFailures := 0, successTimes := s.successTimes + [now],
                timeoutEvents := s.timeoutEvents + [(now, false)]);
    SameBan(s, t, notes + [n]);
  }

  lemma {:induction false} LapsedDeques(s: IpState, notes: seq<Note>, clock: nat, now: nat)
    requires DequesShow(s, notes, clock) && clock <= now
    ensures DequesShow(Reaped(s, now), notes + [Note(now, Lapsed)], now)
    ensures Reaped(s, now).timeoutEvents == EndsInMinute(EndsOf(notes + [Note(now, Lapsed)]), now)
  {
    hide Shows, ShowsEnds, TimesOf, EndsOf, Recent, RecentEvents, TimedOut;
    var n := Note(now, Lapsed);
    AppendShapes(notes, n);
    assert forall kind :: TimesOf(notes, kind) + [] == TimesOf(notes, kind);
    DequesLater(s, notes, clock, now);
    ShowsEndsAppend(s.timeoutEvents, EndsOf(notes), clock, (now, true));
    var t := s.(halfOpen := Dec64(s.halfOpen), timeoutEvents := s.timeoutEvents + [(now, true)]);
    assert DequesShow(t, notes + [n], now);
    CleanedDeques(t, notes + [n], now, now);
    ShowsEndsCleaned(t.timeoutEvents, EndsOf(notes + [n]), now, now);
  }

  lemma {:induction false} LapsedBan(s: IpState, notes: seq<Note>, now: nat)
    requires BanShown(s, notes) && (forall i :: 0 <= i < |notes| ==> notes[i].at <= now)
    requires Reaped(s, now).timeoutEvents == EndsInMinute(EndsOf(notes + [Note(now, Lapsed)]), now)
    ensures BanShown(Reaped(s, now), notes + [Note(now, Lapsed)])
  {
    hide Cleaned, Count, EndsOf, EndsInMinute, TimedOut;
    var n, t := Note(now, Lapsed), Reaped(s, now);
    var more := notes + [n];
    EndsOfMinute(more, now);
    CleanedKeeps(s.(halfOpen := Dec64(s.halfOpen), timeoutEvents := s.timeoutEvents + [(now, true)]), now);
    assert more[..|notes| + 1] == more;
    var ends := t.timeoutEvents;
    assert IsBan(more, |notes|) <==>
             t.bannedUntil == Some(now + MINUTE) && |ends| >= 3 && 10 * TimedOut(ends) >= 8 * |ends|;
    forall later: nat ensures (t.bannedUntil.Some? && t.bannedUntil.value > later) <==> BannedAt(more, later) {
      BannedAppend(notes, n, later);
      assert BannedAt(notes, later) ==> later < now + MINUTE;
    }
  }

  lemma LapsedTracks(s: IpState, notes: seq<Note>, clock: nat, now: nat)
    requires Tracks(s, notes, clock) && clock <= now
    ensures Tracks(Reaped(s, now), notes + [Note(now, Lapsed)], now)
  {
    hide BanShown, DequesShow, Streak, TimedOut, Recent, RecentEvents;
    AppendShapes(notes, Note(now, Lapsed));
    NotedAppend(notes, clock, Note(now, Lapsed));
    LapsedDeques(s, notes, clock, now);
    LapsedBan(s, notes, now);
  }

  // ------------------------------------------------------------------- steps

  lemma {:induction false} ReapAllTracks(states: map<Addr, IpState>, addrs: seq<Addr>, a: Addr, notes: seq<Note>,
                                         clock: nat, now: nat)
    requires Tracked(states, a, notes, clock) && clock <= now
    ensures Tracked(ReapAll(states, addrs, now), a, notes + LapsedOf(addrs, a, now), now)
  {
    hide Tracks, Reaped;
    if addrs == [] {
      assert notes + LapsedOf(addrs, a, now) == notes;
      if a in states { TracksLater(states[a], notes, clock, now); }
    } else {
      var n := |addrs| - 1;
      var before, sofar := ReapAll(states, addrs[..n], now), notes + LapsedOf(addrs[..n], a, now);
      ReapAllTracks(states, addrs[..n], a, notes, clock, now);
      if addrs[n] == a {
        NewTracks(now, now);
        LapsedTracks(Entry(before, a, now), sofar, now, now);
        assert notes + LapsedOf(addrs, a, now) == sofar + [Note(now, Lapsed)];
      } else {
        assert notes + LapsedOf(addrs, a, now) == sofar;
      }
    }
  }

  /** What judging notes: nothing if allowed, else a failure, for which a ban does not count. */
  lemma JudgeTracks(s0: IpState, notes: seq<Note>, clock: nat, cookie: bool, ratio: real, draw: real, now: nat)
    requires Tracks(s0, notes, clock) && clock <= now
    ensures var (s, decision) := Judge(s0, cookie, ratio, draw, now);
            Tracks(s, notes + (if decision.Allow? then []
              else [Note(now, if BannedAt(notes, now) then Turned else Bad)]), now)
  {
    hide Tracks, BannedAt, QuotaForRatio, Suspicious, Cleaned;
    var (r, decision) := Judge(s0, cookie, ratio, draw, now);
    var s1 := s0.(lastActivity := now);
    SameTracks(s0, s1, notes, clock);
    assert BanShown(s0, notes) by { TracksShow(s0, notes, clock); }
    if BannedAt(notes, now) {
      TurnedTracks(s1, notes, clock, now);
    } else {
      var s2 := if cookie then s1 else Refilled(s1, now);
      SameTracks(s1, s2, notes, clock);
      if !cookie && s2.tokens == 0 {
        BadTracks(s2, notes, clock, now);
      } else {
        var s3 := if cookie then s2 else s2.(tokens := s2.tokens - 1);
        SameTracks(s2, s3, notes, clock);
        CleanedTracks(s3, notes, clock, now);
        var s4 := Cleaned(s3, now);
        var s5 := s4.(requestTimes := s4.requestTimes + [now]);
        SameTracks(s4, s5, notes, now);
        BadTracks(s5, notes, now, now);
        assert notes + [] == notes;
      }
    }
  }

  lemma TracksShow(s: IpState, notes: seq<Note>, clock: nat)
    requires Tracks(s, notes, clock)
    ensures BanShown(s, notes)
  {
  }

  lemma PurgedTracks(m: Machine, e: Event, a: Addr, notes: seq<Note>)
    requires Tracked(m.c.ipStates, a, notes, m.clock) && Enabled(m, e) && e.CheckSource?
    ensures Tracked(Purged(m.c.ipStates, e.now), a, Kept(m, e, a, notes), e.now)
    ensures Tracks(Entry(Purged(m.c.ipStates, e.now), a, e.now), Kept(m, e, a, notes), e.now)
  {
    hide Tracks;
    if a in m.c.ipStates { TracksLater(m.c.ipStates[a], notes, m.clock, e.now); }
    NewTracks(e.now, e.now);
  }

  lemma CheckTracks(m: Machine, e: Event, a: Addr, notes: seq<Note>)
    requires Tracked(m.c.ipStates, a, notes, m.clock) && Enabled(m, e) && e.CheckSource?
    ensures Tracked(Apply(m, e).c.ipStates, a, Next(m, e, a, notes), Apply(m, e).clock)
  {
    hide Tracks, Judge, BannedAt, Purged, Kept;
    PurgedTracks(m, e, a, notes);
    var past := Kept(m, e, a, notes);
    if e.src == a {
      JudgeTracks(Entry(Purged(m.c.ipStates, e.now), a, e.now), past, e.now, e.cookie, e.ratio, e.draw, e.now);
    } else {
      assert past + [] == past;
    }
  }

  lemma RecordTracks(m: Machine, e: Event, a: Addr, notes: seq<Note>)
    requires Tracked(m.c.ipStates, a, notes, m.clock) && Enabled(m, e) && (e.Success? || e.Failure?)
    ensures Tracked(Apply(m, e).c.ipStates, a, Next(m, e, a, notes), Apply(m, e).clock)
  {
    hide Tracks, Cleaned, Failed;
    assert notes + [] == notes;
    NewTracks(e.now, m.clock);
    var s := Entry(m.c.ipStates, a, e.now);
    TracksLater(s, notes, m.clock, e.now);
    if e.src == a {
      if e.Failure? {
        BadTracks(s, notes, m.clock, e.now);
        CleanedTracks(Failed(s, e.now), notes + [Note(e.now, Bad)], e.now, e.now);
      } else {
        GoodTracks(s, notes, m.clock, e.now);
        CleanedTracks(s.(consecutiveFailures := 0, successTimes := s.successTimes + [e.now],
                         timeoutEvents := s.timeoutEvents + [(e.now, false)]), notes + [Note(e.now, Good)], e.now,
                           e.now);
      }
    }
  }

  lemma CountTracks(m: Machine, e: Event, a: Addr, notes: seq<Note>)
    requires Tracked(m.c.ipStates, a, notes, m.clock) && Enabled(m, e) && (e.Admit? || e.Done?)
    requires CallTimely(m)
    ensures Tracked(Apply(m, e).c.ipStates, a, Next(m, e, a, notes), Apply(m, e).clock)
  {
    hide Tracks;
    assert notes + [] == notes;
    var after := Apply(m, e).c.ipStates;
    if a in m.c.ipStates {
      TracksLater(m.c.ipStates[a], notes, m.clock, Apply(m, e).clock);
      SameTracks(m.c.ipStates[a], after[a], notes, Apply(m, e).clock);
    }
  }

  lemma StepTracks(m: Machine, e: Event, a: Addr, notes: seq<Note>)
    requires Tracked(m.c.ipStates, a, notes, m.clock) && Inv(m) && Enabled(m, e)
    ensures Tracked(Apply(m, e).c.ipStates, a, Next(m, e, a, notes), Apply(m, e).clock)
  {
    hide Tracked, Inv;
    match e
    case CheckSource(_, _, _, _, _) => CheckTracks(m, e, a, notes);
    case Start(now, ratio, order) =>
      var addrs := if Elapsed(now, m.c.lastReap) >= 15 * SECOND then AddrsOf(m.c.halfOpen, order) else [];
      ReapAllTracks(m.c.ipStates, addrs, a, notes, m.clock, now);
      assert ReapAll(m.c.ipStates, addrs, now) == Apply(m, e).c.ipStates;
    case Admit(_, _) => assert CallTimely(m) by { InvTimely(m); } CountTracks(m, e, a, notes);
    case Done(_) => assert CallTimely(m) by { InvTimely(m); } CountTracks(m, e, a, notes);
    case Failure(_, _) => RecordTracks(m, e, a, notes);
    case Success(_, _) => RecordTracks(m, e, a, notes);
  }

  lemma InvTimely(m: Machine)
    requires Inv(m)
    ensures CallTimely(m)
  {
  }

  lemma {:induction false} RunTracks(m: Machine, events: seq<Event>, a: Addr, notes: seq<Note>)
    requires Tracked(m.c.ipStates, a, notes, m.clock) && Inv(m) && IsRun(m, events)
    ensures Tracked(Outcome(m, events).c.ipStates, a, Journal(m, events, a, notes), Outcome(m, events).clock)
    decreases |events|
  {
    hide Tracked, Inv, Apply, Enabled, Next;
    if events != [] {
      StepTracks(m, events[0], a, notes);
      StepInv(m, events[0]);
      RunTracks(Apply(m, events[0]), events[1..], a, Next(m, events[0], a, notes));
    }
  }

  // ---------------------------------------------------------------- theorems

  /** Fewer than two failures in a row, and three successes in ten or fewer than three samples. */
  ghost predicate WellBehaved(notes: seq<Note>, now: nat) {
    var good, bad := Count(notes, Good, now), Count(notes, Bad, now);
    Streak(notes) < 2 && (good + bad < 3 || 10 * good >= 3 * (good + bad))
  }

  /** No token is left, and the next one is not due. */
  predicate OutOfTokens(m: Machine, a: Addr, now: nat) {
    && a in m.c.ipStates && m.c.ipStates[a].tokens == 0
    && now < m.c.ipStates[a].lastRefill + SECOND && now < m.c.ipStates[a].lastActivity + 300 * SECOND
  }

  lemma {:induction false} CleanedSizes(s: IpState, notes: seq<Note>, clock: nat, now: nat)
    requires Tracks(s, notes, clock) && clock <= now
    ensures var t := Cleaned(s, now);
            && |t.successTimes| == Count(notes, Good, now) && |t.failureTimes| == Count(notes, Bad, now)
            && t.consecutiveFailures == Min(Streak(notes), TWO_32 - 1)
  {
    hide Shows, ShowsEnds, ShowsEnds, BanShown, Recent, RecentEvents, Streak;
    ShowsCleaned(s.successTimes, TimesOf(notes, Good), clock, now);
    ShowsCleaned(s.failureTimes, TimesOf(notes, Bad), clock, now);
    CountsOfMinute(notes, Good, now);
    CountsOfMinute(notes, Bad, now);
  }

  lemma VerdictOf(s: IpState, notes: seq<Note>, clock: nat, cookie: bool, ratio: real, draw: real, now: nat)
    requires Tracks(s, notes, clock) && clock <= now
    ensures var decision := Judge(s, cookie, ratio, draw, now).1;
            && (decision.Drop? <==>
                  || BannedAt(notes, now) || (!cookie && s.tokens == 0 && Elapsed(now, s.lastRefill) < SECOND)
                  || s.halfOpen >= if ratio >= 1.0 then 4 else if ratio > 0.0 then 16 else 64)
            && (decision.Challenge? <==>
                  !decision.Drop? && !cookie && (!WellBehaved(notes, now) || (0.0 < ratio && draw < ratio)))
  {
    hide Count, Streak, Tracks, BannedAt, Cleaned;
    Verdicts(s, cookie, ratio, draw, now);
    CleanedSizes(s, notes, clock, now);
    TracksShow(s, notes, clock);
    assert s.bannedUntil.Some? && s.bannedUntil.value > now <==> BannedAt(notes, now);
  }

  /**
   * Every verdict of every run, told from what happened before. A message is dropped exactly if
   * the address is banned, has no token and no cookie, or has 64, 16 or 4 live entries, by load.
   * What is not dropped is challenged exactly if it has no cookie and the address failed twice
   * in a row, has fewer than three successes in ten in the last minute, or loses the draw.
   */
  lemma {:induction false} VerdictsOverRuns(start: nat, events: seq<Event>, src: Addr, cookie: bool, ratio: real,
                                            draw: real, now: nat)
    requires IsRun(Initial(start), events)
    requires Enabled(Outcome(Initial(start), events), CheckSource(src, cookie, ratio, draw, now))
    ensures var m := Outcome(Initial(start), events);
            var past := Kept(m, CheckSource(src, cookie, ratio, draw, now), src,
              Journal(Initial(start), events, src, []));
            var decision := Prechecked(m.c, src, cookie, ratio, draw, now).1;
            && (decision.Drop? <==>
                  || BannedAt(past, now) || (!cookie && OutOfTokens(m, src, now))
                  || Live(m.c.halfOpen, src) >= if ratio >= 1.0 then 4 else if ratio > 0.0 then 16 else 64)
            && (decision.Challenge? <==>
                  !decision.Drop? && !cookie && (!WellBehaved(past, now) || (0.0 < ratio && draw < ratio)))
  {
    hide Tracks, BannedAt, WellBehaved, Journal, IsRun, Outcome, Judge, Inv, Live;
    InitialInv(start);
    RunInv(Initial(start), events);
    RunTracks(Initial(start), events, src, []);
    var m, e := Outcome(Initial(start), events), CheckSource(src, cookie, ratio, draw, now);
    PurgedTracks(m, e, src, Journal(Initial(start), events, src, []));
    var s := Entry(Purged(m.c.ipStates, now), src, now);
    VerdictOf(s, Kept(m, e, src, Journal(Initial(start), events, src, [])), now, cookie, ratio, draw, now);
    assert s.halfOpen == Live(m.c.halfOpen, src) by { CountIsLive(m, src, now); }
  }

  lemma CountIsLive(m: Machine, a: Addr, now: nat)
    requires Inv(m) && m.call.Started? && m.clock <= now <= m.call.start + CALL_LIMIT
    ensures Entry(Purged(m.c.ipStates, now), a, now).halfOpen == Live(m.c.halfOpen, a)
  {
    hide Live;
    NothingIsForgotten(m, a, now);
    assert CountOf(m.c.ipStates, a) == Live(m.c.halfOpen, a);
  }

  /** No precheck of the run finds the address silent for 300 s. */
  ghost predicate NeverPurged(m: Machine, events: seq<Event>, a: Addr)
    requires IsRun(m, events)
    decreases |events|
  {
    events == [] || (!IsPurged(m, events[0], a) && NeverPurged(Apply(m, events[0]), events[1..], a))
  }

  lemma {:induction false} BansStand(m: Machine, events: seq<Event>, a: Addr, notes: seq<Note>, now: nat)
    requires IsRun(m, events) && NeverPurged(m, events, a) && BannedAt(notes, now)
    ensures BannedAt(Journal(m, events, a, notes), now)
    decreases |events|
  {
    hide Apply, Enabled, BannedAt;
    if events != [] {
      var more := Next(m, events[0], a, notes);
      LongerBans(notes, Notes(m, events[0], a, notes), now);
      BansStand(Apply(m, events[0]), events[1..], a, more, now);
    }
  }

  lemma LongerBans(notes: seq<Note>, more: seq<Note>, now: nat)
    requires BannedAt(notes, now)
    ensures BannedAt(notes + more, now)
  {
    hide Count;
    var i :| 0 <= i < |notes| && IsBan(notes, i) && now < notes[i].at + MINUTE;
    assert (notes + more)[..i + 1] == notes[..i + 1];
    assert IsBan(notes + more, i);
  }

  lemma {:induction false} JournalSplits(m: Machine, events: seq<Event>, more: seq<Event>, a: Addr, notes: seq<Note>)
    requires IsRun(m, events) && IsRun(Outcome(m, events), more)
    ensures IsRun(m, events + more) && Outcome(m, events + more) == Outcome(Outcome(m, events), more)
    ensures Journal(m, events + more, a, notes) == Journal(Outcome(m, events), more, a, Journal(m, events, a, notes))
    decreases |events|
  {
    hide Apply, Enabled, Next;
    if events == [] {
      assert events + more == more;
    } else {
      assert (events + more)[1..] == events[1..] + more;
      JournalSplits(Apply(m, events[0]), events[1..], more, a, Next(m, events[0], a, notes));
    }
  }

  /** Until its minute is over, whatever happens in between, a ban drops every message, cookie or not. */
  lemma {:induction false} BannedIsDropped(start: nat, events: seq<Event>, more: seq<Event>, src: Addr, cookie: bool,
                                           ratio: real,
                        draw: real, now: nat)
    requires IsRun(Initial(start), events) && IsRun(Outcome(Initial(start), events), more)
    requires BannedAt(Journal(Initial(start), events, src, []), now)
    requires var m := Outcome(Outcome(Initial(start), events), more);
             && Enabled(m, CheckSource(src, cookie, ratio, draw, now))
             && !IsPurged(m, CheckSource(src, cookie, ratio, draw, now), src)
    requires NeverPurged(Outcome(Initial(start), events), more, src)
    ensures var m := Outcome(Outcome(Initial(start), events), more);
            Prechecked(m.c, src, cookie, ratio, draw, now).1.Drop?
  {
    hide BannedAt, IsRun, Outcome, Journal, NeverPurged, Enabled, Prechecked, Initial;
    var m0 := Initial(start);
    BansStand(Outcome(m0, events), more, src, Journal(m0, events, src, []), now);
    JournalSplits(m0, events, more, src, []);
    VerdictsOverRuns(start, events + more, src, cookie, ratio, draw, now);
  }

  /** No reap of the run takes out an entry of `a`. */
  ghost predicate NothingExpires(m: Machine, events: seq<Event>, a: Addr)
    requires IsRun(m, events)
    decreases |events|
  {
    events == [] ||
    (&& (events[0].Start? && Elapsed(events[0].now, m.c.lastReap) >= 15 * SECOND ==>
           forall id :: id in events[0].order ==> m.c.halfOpen[id].addr != a)
     && NothingExpires(Apply(m, events[0]), events[1..], a))
  }

  lemma {:induction false} NoneLapsed(table: map<u32, HalfOpenEntry>, ids: seq<u32>, a: Addr, now: nat)
    requires forall i :: 0 <= i < |ids| ==> ids[i] in table
    requires forall id :: id in ids ==> table[id].addr != a
    ensures LapsedOf(AddrsOf(table, ids), a, now) == []
  {
    if ids != [] {
      var n := |ids| - 1;
      NoneLapsed(table, ids[..n], a, now);
      var addrs := AddrsOf(table, ids);
      assert addrs[..|addrs| - 1] == AddrsOf(table, ids[..n]);
    }
  }

  ghost predicate NoLapse(notes: seq<Note>) {
    forall i :: 0 <= i < |notes| ==> !notes[i].kind.Lapsed?
  }

  lemma {:induction false} JournalWithoutLapse(m: Machine, events: seq<Event>, a: Addr, notes: seq<Note>)
    requires IsRun(m, events) && NothingExpires(m, events, a) && NoLapse(notes)
    ensures NoLapse(Journal(m, events, a, notes))
    decreases |events|
  {
    hide Apply, Prechecked, BannedAt;
    if events != [] {
      var e := events[0];
      if e.Start? && Elapsed(e.now, m.c.lastReap) >= 15 * SECOND {
        NoneLapsed(m.c.halfOpen, e.order, a, e.now);
      }
      JournalWithoutLapse(Apply(m, e), events[1..], a, Next(m, e, a, notes));
    }
  }

  /** An address none of whose entries ever expired is never banned: only tokens and quota drop it. */
  lemma {:induction false} HonestIsNeverBanned(start: nat, events: seq<Event>, src: Addr, cookie: bool, ratio: real,
                                               draw: real, now: nat)
    requires IsRun(Initial(start), events) && NothingExpires(Initial(start), events, src)
    requires Enabled(Outcome(Initial(start), events), CheckSource(src, cookie, ratio, draw, now))
    ensures var m := Outcome(Initial(start), events);
            Prechecked(m.c, src, cookie, ratio, draw, now).1.Drop? <==>
              || (!cookie && OutOfTokens(m, src, now))
              || Live(m.c.halfOpen, src) >= if ratio >= 1.0 then 4 else if ratio > 0.0 then 16 else 64
  {
    hide IsRun, Outcome, Journal, NothingExpires, Enabled, Prechecked, Initial, Count, WellBehaved, Live;
    JournalWithoutLapse(Initial(start), events, src, []);
    VerdictsOverRuns(start, events, src, cookie, ratio, draw, now);
  }

  /** The live entries of an address whose time is up: 30 s, 15 s under load, 5 s under full load. */
  function OverdueOf(table: map<u32, HalfOpenEntry>, a: Addr, ratio: real, now: nat): set<u32> {
    set id | id in table && table[id].addr == a &&
      table[id].born + (if ratio >= 1.0 then 5 else if ratio > 0.0 then 15 else 30) * SECOND <= now
  }

  function IdsAt(table: map<u32, HalfOpenEntry>, ids: seq<u32>, a: Addr): set<u32>
    requires forall i :: 0 <= i < |ids| ==> ids[i] in table
  {
    set id | id in ids && table[id].addr == a
  }

  lemma IdsAtStep(table: map<u32, HalfOpenEntry>, ids: seq<u32>, id: u32, a: Addr)
    requires id in table && id !in ids && (forall i :: 0 <= i < |ids| ==> ids[i] in table)
    ensures |IdsAt(table, ids + [id], a)| == |IdsAt(table, ids, a)| + if table[id].addr == a then 1 else 0
  {
    var before, after := IdsAt(table, ids, a), IdsAt(table, ids + [id], a);
    if table[id].addr == a {
      assert after == before + {id} && id !in before;
    } else {
      assert after == before;
    }
  }

  lemma {:induction false} LapsedStep(addrs: seq<Addr>, b: Addr, a: Addr, now: nat)
    ensures LapsedOf(addrs + [b], a, now) == LapsedOf(addrs, a, now) + if b == a then [Note(now, Lapsed)] else []
  {
    assert (addrs + [b])[..|addrs|] == addrs;
  }

  ghost predicate AllLapsed(notes: seq<Note>, now: nat) {
    forall i :: 0 <= i < |notes| ==> notes[i] == Note(now, Lapsed)
  }

  lemma {:induction false} LapsesCount(table: map<u32, HalfOpenEntry>, ids: seq<u32>, a: Addr, now: nat)
    requires Distinct(ids) && forall i :: 0 <= i < |ids| ==> ids[i] in table
    ensures |LapsedOf(AddrsOf(table, ids), a, now)| == |IdsAt(table, ids, a)|
    ensures AllLapsed(LapsedOf(AddrsOf(table, ids), a, now), now)
  {
    if ids == [] {
      assert IdsAt(table, ids, a) == {};
    } else {
      hide IdsAt, LapsedOf;
      var n := |ids| - 1;
      assert ids == ids[..n] + [ids[n]];
      LapsesCount(table, ids[..n], a, now);
      IdsAtStep(table, ids[..n], ids[n], a);
      LapsedStep(AddrsOf(table, ids[..n]), table[ids[n]].addr, a, now);
    }
  }

  /**
   * A call that reaps, at least 15 s after the last reap, takes exactly the overdue entries off the
   * table and notes one expiry for each; any other call takes and notes nothing.
   */
  lemma ExpiryIsNoted(m: Machine, now: nat, ratio: real, order: seq<u32>, a: Addr, past: seq<Note>, id: u32)
    requires Enabled(m, Start(now, ratio, order))
    ensures var e, m' := Start(now, ratio, order), Apply(m, Start(now, ratio, order));
            var reaps := now >= m.c.lastReap + 15 * SECOND;
            && |Notes(m, e, a, past)| == (if reaps then |OverdueOf(m.c.halfOpen, a, ratio, now)| else 0)
            && (forall i :: 0 <= i < |Notes(m, e, a, past)| ==> Notes(m, e, a, past)[i] == Note(now, Lapsed))
            && (id in m'.c.halfOpen <==>
                  id in m.c.halfOpen && !(reaps && id in OverdueOf(m.c.halfOpen, m.c.halfOpen[id].addr, ratio, now)))
  {
    hide ReapAll;
    LapsesCount(m.c.halfOpen, order, a, now);
    assert IdsAt(m.c.halfOpen, order, a) == OverdueOf(m.c.halfOpen, a, ratio, now);
  }

  /**
   * In every step the half-open table changes exactly so: an accepted initiation enters its id for
   * the address that the precheck allowed, a release takes its id out, a reap what is overdue.
   */
  lemma TableStepExactly(m: Machine, e: Event, id: u32)
    requires Enabled(m, e)
    ensures var before, after := m.c.halfOpen, Apply(m, e).c.halfOpen;
            && (id in after <==>
                  match e
                  case Admit(i, _) => i == id || id in before
                  case Done(i) => i != id && id in before
                  case Start(now, ratio, _) =>
                    id in before && !(now >= m.c.lastReap + 15 * SECOND
                      && id in OverdueOf(before, before[id].addr, ratio, now))
                  case _ => id in before)
            && (id in after ==>
                  after[id] == if e.Admit? && e.id == id then HalfOpenEntry(m.call.src, e.now) else before[id])
  {
    hide ReapAll, Judge, Purged, Cleaned;
    if e.Start? { ExpiryIsNoted(m, e.now, e.ratio, e.order, V4([]), [], id); }
  }

  // ------------------------------------------------------------ a forgotten ban

  /** `a` is known, was last active at `start` and never banned, and `k` of its entries are live. */
  ghost predicate Filling(m: Machine, a: Addr, start: nat, k: nat) {
    && m.clock == start && m.c.lastReap == start && a in m.c.ipStates
    && m.c.ipStates[a].lastActivity == start && m.c.ipStates[a].bannedUntil.None?
    && m.c.ipStates[a].timeoutEvents == [] && m.c.ipStates[a].halfOpen == k
    && |m.c.halfOpen| == k && (forall id: u32 :: id in m.c.halfOpen <==> id < k)
    && (forall id :: id in m.c.halfOpen ==> m.c.halfOpen[id] == HalfOpenEntry(a, start))
  }

  /** An initiation of `a` with a cookie passes the precheck. */
  lemma FillCheck(m: Machine, a: Addr, start: nat, k: nat)
    requires k < 3 && m.call == Started(start)
    requires Filling(m, a, start, k) || (k == 0 && m.c == Initial(start).c && m.clock == start)
    ensures var m' := Apply(m, CheckSource(a, true, 0.0, 0.0, start));
            m'.call == Allowed(start, a) && Filling(m', a, start, k)
  {
    hide Suspicious, Cleaned;
    var s := Entry(m.c.ipStates, a, start).(lastActivity := start);
    CleanedKeeps(s, start);
    assert Cleaned(s, start).timeoutEvents == RecentEvents([], start) == [] by { CleanedEnds(s, start); }
    assert Entry(Purged(m.c.ipStates, start), a, start).(lastActivity := start) == s;
    var (t, decision) := Judge(s, true, 0.0, 0.0, start);
    assert decision.Allow? && t.timeoutEvents == [] && t.halfOpen == k && t.bannedUntil.None?;
    assert t.lastActivity == start;
    assert Judge(Entry(Purged(m.c.ipStates, start), a, start), true, 0.0, 0.0, start) == (t, decision);
  }

  lemma {:induction false} CleanedEnds(s: IpState, now: nat)
    ensures Cleaned(s, now).timeoutEvents == RecentEvents(s.timeoutEvents, now)
  {
  }

  lemma FillAdmit(m: Machine, a: Addr, start: nat, k: nat)
    requires k < 3 && m.call == Allowed(start, a) && Filling(m, a, start, k)
    ensures Enabled(m, Admit(k, start)) && Filling(Apply(m, Admit(k, start)), a, start, k + 1)
  {
  }

  /** One more initiation of `a` with a cookie. */
  lemma FillOne(m0: Machine, events: seq<Event>, m: Machine, a: Addr, start: nat, k: nat)
    returns (events': seq<Event>, m': Machine)
    requires Reaches(m0, events, m, a, 0) && k < 3
    requires Filling(m, a, start, k) || (k == 0 && m == Initial(start))
    ensures Reaches(m0, events', m', a, 0) && Filling(m', a, start, k + 1)
  {
    hide Reaches, Prechecked;
    var e0, e1, e2 := Start(start, 0.0, []), CheckSource(a, true, 0.0, 0.0, start), Admit(k, start);
    assert Expired(m.c.halfOpen, TimeoutForRatio(0.0), start) == {};
    Extend(m0, events, m, a, 0, e0);
    var m1 := Apply(m, e0);
    Extend(m0, events + [e0], m1, a, 0, e1);
    FillCheck(m1, a, start, k);
    var m2 := Apply(m1, e1);
    FillAdmit(m2, a, start, k);
    Extend(m0, events + [e0] + [e1], m2, a, 0, e2);
    events', m' := events + [e0] + [e1] + [e2], Apply(m2, e2);
  }

  lemma LapseOnce(s: IpState, now: nat, k: nat)
    requires k < 3 && s.bannedUntil.None? && s.timeoutEvents == seq(k, _ => (now, true))
    ensures var t := Reaped(s, now);
            && t.timeoutEvents == seq(k + 1, _ => (now, true)) && t.lastActivity == s.lastActivity
            && t.bannedUntil == if k == 2 then Some(now + 60 * SECOND) else None
  {
    hide Recent;
    var ends := seq(k + 1, _ => (now, true));
    assert s.timeoutEvents + [(now, true)] == ends;
    assert TimedOut(ends) == k + 1 by { AllTimedOut(now, k + 1); }
  }

  lemma {:induction false} AllTimedOut(now: nat, k: nat)
    ensures TimedOut(seq(k, _ => (now, true))) == k
  {
    if k > 0 {
      AllTimedOut(now, k - 1);
      assert seq(k, _ => (now, true))[1..] == seq(k - 1, _ => (now, true));
    }
  }

  lemma {:induction false} ThreeLapses(states: map<Addr, IpState>, a: Addr, now: nat)
    requires a in states && states[a].timeoutEvents == [] && states[a].bannedUntil.None?
    ensures ReapAll(states, [a, a, a], now)[a].bannedUntil == Some(now + 60 * SECOND)
    ensures ReapAll(states, [a, a, a], now)[a].lastActivity == states[a].lastActivity
  {
    hide Reaped;
    var s1 := Reaped(states[a], now);
    LapseOnce(states[a], now, 0);
    var s2 := Reaped(s1, now);
    LapseOnce(s1, now, 1);
    LapseOnce(s2, now, 2);
    ReapAllStep(states, [], a, now);
    ReapAllStep(states, [a], a, now);
    ReapAllStep(states, [a, a], a, now);
    assert [] + [a] == [a] && [a] + [a] == [a, a] && [a, a] + [a] == [a, a, a];
    assert ReapAll(states, [], now) == states;
    assert ReapAll(states, [a], now)[a] == s1;
    assert ReapAll(states, [a, a], now)[a] == s2;
    assert ReapAll(states, [a, a, a], now)[a] == Reaped(s2, now);
  }

  /**
   * A ban can be forgotten at once. After three initiations an address is silent; the next call
   * comes 400 s later from whom ever, reaps the three entries and bans the address for a minute.
   * A message of the address in that same call is allowed: the precheck first forgets addresses
   * silent for 300 s, and the ban with them.
   */
  lemma BanIsForgotten(start: nat, a: Addr) returns (events: seq<Event>, now: nat)
    ensures IsRun(Initial(start), events)
    ensures BannedAt(Journal(Initial(start), events, a, []), now)
    ensures var m := Outcome(Initial(start), events);
            && Enabled(m, CheckSource(a, true, 0.0, 0.0, now))
            && Prechecked(m.c, a, true, 0.0, 0.0, now).1.Allow?
  {
    hide Reaches, Journal, Tracks, BannedAt, Suspicious;
    var m0 := Initial(start);
    StartReaches(m0, a);
    var events1, m1 := FillOne(m0, [], m0, a, start, 0);
    var events2, m2 := FillOne(m0, events1, m1, a, start, 1);
    var events3, m3 := FillOne(m0, events2, m2, a, start, 2);
    now := start + 400 * SECOND;
    var last := Start(now, 0.0, [0, 1, 2]);
    OrderOfThree(m3, a, start, now);
    Extend(m0, events3, m3, a, 0, last);
    var m := Apply(m3, last);
    events := events3 + [last];
    ReachesIsRun(m0, events, m, a, 0);
    ThreeLapses(m3.c.ipStates, a, now);
    InitialInv(start);
    RunTracks(m0, events, a, []);
    TracksShow(m.c.ipStates[a], Journal(m0, events, a, []), m.clock);
    assert m.c.ipStates[a].bannedUntil.Some? && m.c.ipStates[a].bannedUntil.value > now;
  }

  lemma OrderOfThree(m: Machine, a: Addr, start: nat, now: nat)
    requires Filling(m, a, start, 3) && now == start + 400 * SECOND
    ensures IsOrderOf([0, 1, 2], Expired(m.c.halfOpen, TimeoutForRatio(0.0), now))
    ensures AddrsOf(m.c.halfOpen, [0, 1, 2]) == [a, a, a]
  {
    var ids: seq<u32> := [0, 1, 2];
    assert ids[..2] == [0, 1] && ids[..2][..1] == [0];
    assert AddrsOf(m.c.halfOpen, ids[..2][..1]) == [a];
    assert AddrsOf(m.c.halfOpen, ids[..2]) == [a, a];
  }
}
