/**
 * The two locks of a router peer that are held together (src/wireguard/router/peer.rs): `send`
 * takes the encryption key's lock and, to stage a packet without a usable key, the staged
 * packets' lock; `send_staged` holds the staged packets' lock while it sends. A machine over any
 * number of threads; what happens under one lock alone is one step.
 */
module LockOrder {
  import opened Base

  type Thread = nat

  /** `drain`: the send is one of `send_staged`, so the thread holds the staged packets' lock. */
  datatype Phase =
    | Idle
    | AtKey(stage: bool, drain: bool)      // in `send`, about to lock the key
    | HasKey(stage: bool, drain: bool)     // holds the key's lock, about to look at the key
    | AtStaged                             // holds the key's lock, about to lock the staged packets
    | AtDrain                              // in `send_staged`, about to lock the staged packets
    | Draining                             // holds their lock, about to take the next packet

  /** `usable`: there is an encryption key with nonces left; `waiting` packets are staged. */
  datatype State = State(
    keyLock: Option<Thread>, stagedLock: Option<Thread>, usable: bool, waiting: nat, threads: seq<Phase>)

  datatype Action =
    | Send(thread: Thread, stage: bool)
    | SendStaged(thread: Thread)
    | Step(thread: Thread)
    | SetKey(usable: bool)                 // a key is installed, zeroed or used up

  /** Whether a busy thread can take its next step. */
  predicate CanStep(s: State, t: Thread)
    requires t < |s.threads|
  {
    match s.threads[t]
    case Idle => false
    case AtKey(_, _) => s.keyLock.None?
    case HasKey(_, _) => true
    case AtStaged => s.stagedLock.None?
    case AtDrain => s.stagedLock.None?
    case Draining => true
  }

  predicate Enabled(s: State, a: Action) {
    match a
    case Send(t, _) => t < |s.threads| && s.threads[t].Idle?
    case SendStaged(t) => t < |s.threads| && s.threads[t].Idle?
    case Step(t) => t < |s.threads| && CanStep(s, t)
    case SetKey(_) => s.keyLock.None?
  }

  /** The next step of a busy thread. */
  function Next(s: State, t: Thread): State
    requires t < |s.threads| && CanStep(s, t)
  {
    match s.threads[t]
    case AtKey(stage, drain) => s.(keyLock := Some(t), threads := s.threads[t := HasKey(stage, drain)])
    case HasKey(stage, drain) =>
      if !s.usable && stage then s.(threads := s.threads[t := AtStaged])
      else s.(keyLock := None, threads := s.threads[t := if drain then Draining else Idle])
    case AtStaged => s.(keyLock := None, waiting := s.waiting + 1, threads := s.threads[t := Idle])
    case AtDrain => s.(stagedLock := Some(t), threads := s.threads[t := Draining])
    case Draining =>
      if s.waiting == 0 then s.(stagedLock := None, threads := s.threads[t := Idle])
      else s.(waiting := s.waiting - 1, threads := s.threads[t := AtKey(false, true)])
  }

  function Apply(s: State, a: Action): State
    requires Enabled(s, a)
  {
    match a
    case Send(t, stage) => s.(threads := s.threads[t := AtKey(stage, false)])
    case SendStaged(t) => s.(threads := s.threads[t := AtDrain])
    case Step(t) => Next(s, t)
    case SetKey(usable) => s.(usable := usable)
  }

  function Initial(threads: nat): State {
    State(None, None, false, 0, seq(threads, _ => Idle))
  }

  predicate IsRun(s: State, acts: seq<Action>)
    decreases |acts|
  {
    acts == [] || (Enabled(s, acts[0]) && IsRun(Apply(s, acts[0]), acts[1..]))
  }

  function Outcome(s: State, acts: seq<Action>): State
    requires IsRun(s, acts)
    decreases |acts|
  {
    if acts == [] then s else Outcome(Apply(s, acts[0]), acts[1..])
  }

  // ---------------------------------------------------------------- invariant

  predicate HoldsKey(p: Phase) {
    p.HasKey? || p.AtStaged?
  }

  predicate HoldsStaged(p: Phase) {
    p.Draining? || ((p.AtKey? || p.HasKey?) && p.drain)
  }

  ghost predicate KeyLockOk(s: State) {
    && (forall t :: 0 <= t < |s.threads| ==> (HoldsKey(s.threads[t]) <==> s.keyLock == Some(t)))
    && (s.keyLock.Some? ==> s.keyLock.value < |s.threads|)
  }

  ghost predicate StagedLockOk(s: State) {
    && (forall t :: 0 <= t < |s.threads| ==> (HoldsStaged(s.threads[t]) <==> s.stagedLock == Some(t)))
    && (s.stagedLock.Some? ==> s.stagedLock.value < |s.threads|)
    && (forall t :: 0 <= t < |s.threads| && HoldsStaged(s.threads[t]) && !s.threads[t].Draining? ==>
       !s.threads[t].stage)
  }

  /** Each lock is held by the thread whose phase says so, and by no other. */
  ghost predicate Inv(s: State) {
    KeyLockOk(s) && StagedLockOk(s)
  }

  lemma NextKeyLock(s: State, t: Thread)
    requires KeyLockOk(s) && t < |s.threads| && CanStep(s, t)
    ensures KeyLockOk(Next(s, t))
  {
    assert HoldsKey(s.threads[t]) <==> s.keyLock == Some(t);
  }

  lemma NextStagedLock(s: State, t: Thread)
    requires StagedLockOk(s) && t < |s.threads| && CanStep(s, t)
    ensures StagedLockOk(Next(s, t))
  {
    assert HoldsStaged(s.threads[t]) <==> s.stagedLock == Some(t);
  }

  lemma StepInv(s: State, a: Action)
    requires Inv(s) && Enabled(s, a)
    ensures Inv(Apply(s, a))
  {
    hide Next;
    if a.Step? {
      NextKeyLock(s, a.thread);
      NextStagedLock(s, a.thread);
    }
  }

  // ----------------------------------------------------------------- deadlock

  /** Some thread is busy, and no busy thread can take its next step. */
  ghost predicate Deadlocked(s: State) {
    && (exists t :: 0 <= t < |s.threads| && !s.threads[t].Idle?)
    && (forall t :: 0 <= t < |s.threads| ==> !CanStep(s, t))
  }

  /** One thread stages with the key's lock, another drains and waits for that lock. */
  ghost predicate Crossed(s: State) {
    && (exists t :: 0 <= t < |s.threads| && s.threads[t].AtStaged?)
    && (exists u :: 0 <= u < |s.threads| && s.threads[u] == AtKey(false, true))
  }

  /** The only way into a deadlock is that the two take the locks in opposite orders. */
  lemma DeadlockIsCrossing(s: State)
    requires Inv(s)
    ensures Deadlocked(s) <==> Crossed(s)
  {
    if Crossed(s) {
      var t :| 0 <= t < |s.threads| && s.threads[t].AtStaged?;
      var u :| 0 <= u < |s.threads| && s.threads[u] == AtKey(false, true);
      assert HoldsKey(s.threads[t]) && HoldsStaged(s.threads[u]);
    }
    if Deadlocked(s) {
      var t :| 0 <= t < |s.threads| && !s.threads[t].Idle?;
      assert !CanStep(s, t);
      if s.keyLock.Some? {
        assert !CanStep(s, s.keyLock.value) && HoldsKey(s.threads[s.keyLock.value]);
        assert s.threads[s.keyLock.value].AtStaged?;
      }
      assert s.stagedLock.Some?;
      assert !CanStep(s, s.stagedLock.value) && HoldsStaged(s.threads[s.stagedLock.value]);
      assert s.threads[s.stagedLock.value] == AtKey(false, true);
    }
  }

  /**
   * The steps that cross: a send that must stage, while `send_staged` waits for the key; and
   * `send_staged` going on to the next packet, while such a send waits to stage.
   */
  ghost predicate Crosses(s: State, a: Action) {
    && a.Step? && a.thread < |s.threads|
    && ((s.threads[a.thread].HasKey? && s.threads[a.thread].stage && !s.usable &&
           exists u :: 0 <= u < |s.threads| && s.threads[u] == AtKey(false, true))
        || (s.threads[a.thread].Draining? && s.waiting > 0 &&
              exists t :: 0 <= t < |s.threads| && s.threads[t].AtStaged?))
  }

  /** A step leads into a deadlock exactly if it crosses. */
  lemma StepDeadlocks(s: State, a: Action)
    requires Inv(s) && Enabled(s, a) && !Deadlocked(s)
    ensures Deadlocked(Apply(s, a)) <==> Crosses(s, a)
  {
    StepInv(s, a);
    DeadlockIsCrossing(s);
    var s' := Apply(s, a);
    DeadlockIsCrossing(s');
    if Crosses(s, a) {
      assert a.thread < |s'.threads|;
      if s.threads[a.thread].HasKey? {
        var u :| 0 <= u < |s.threads| && s.threads[u] == AtKey(false, true);
        assert s'.threads[a.thread].AtStaged? && s'.threads[u] == AtKey(false, true);
      } else {
        var t :| 0 <= t < |s.threads| && s.threads[t].AtStaged?;
        assert s'.threads[t].AtStaged? && s'.threads[a.thread] == AtKey(false, true);
      }
    }
    if Crossed(s') {
      var t :| 0 <= t < |s'.threads| && s'.threads[t].AtStaged?;
      var u :| 0 <= u < |s'.threads| && s'.threads[u] == AtKey(false, true);
      CameFrom(s, a, t, u);
    }
  }

  /** A thread gets where it can cross only from right before. */
  lemma CameFrom(s: State, a: Action, t: Thread, u: Thread)
    requires Enabled(s, a) && t < |s.threads| && u < |s.threads|
    requires Apply(s, a).threads[t].AtStaged? && Apply(s, a).threads[u] == AtKey(false, true)
    ensures s.threads[t].AtStaged? || (a == Step(t) && s.threads[t].HasKey? && s.threads[t].stage && !s.usable)
    ensures s.threads[u] == AtKey(false, true) || (a == Step(u) && s.threads[u].Draining? && s.waiting > 0)
  {
  }

  ghost predicate NeverDeadlocked(s: State, acts: seq<Action>)
    requires IsRun(s, acts)
    decreases |acts|
  {
    !Deadlocked(s) && (acts == [] || NeverDeadlocked(Apply(s, acts[0]), acts[1..]))
  }

  ghost predicate NeverCrosses(s: State, acts: seq<Action>)
    requires IsRun(s, acts)
    decreases |acts|
  {
    acts == [] || (!Crosses(s, acts[0]) && NeverCrosses(Apply(s, acts[0]), acts[1..]))
  }

  lemma {:induction false} RunDeadlocks(s: State, acts: seq<Action>)
    requires Inv(s) && IsRun(s, acts) && !Deadlocked(s)
    ensures NeverDeadlocked(s, acts) <==> NeverCrosses(s, acts)
    decreases |acts|
  {
    hide Inv, Deadlocked, Crosses;
    if acts != [] {
      StepInv(s, acts[0]);
      StepDeadlocks(s, acts[0]);
      if !Crosses(s, acts[0]) {
        RunDeadlocks(Apply(s, acts[0]), acts[1..]);
      }
    }
  }

  /**
   * A run of any number of threads stays free of deadlock exactly if no send has to stage while
   * `send_staged` is at work on another packet.
   */
  lemma {:induction false} DeadlockFreeExactly(threads: nat, acts: seq<Action>)
    requires IsRun(Initial(threads), acts)
    ensures NeverDeadlocked(Initial(threads), acts) <==> NeverCrosses(Initial(threads), acts)
  {
    RunDeadlocks(Initial(threads), acts);
  }

  /** A deadlock is for good: the two threads that cross never move again. */
  lemma {:induction false} DeadlockStays(s: State, acts: seq<Action>)
    requires Inv(s) && Deadlocked(s) && IsRun(s, acts)
    ensures Deadlocked(Outcome(s, acts))
    decreases |acts|
  {
    if acts != [] {
      StepInv(s, acts[0]);
      DeadlockIsCrossing(s);
      var s' := Apply(s, acts[0]);
      var t :| 0 <= t < |s.threads| && s.threads[t].AtStaged?;
      var u :| 0 <= u < |s.threads| && s.threads[u] == AtKey(false, true);
      assert s'.threads[t].AtStaged? && s'.threads[u] == AtKey(false, true);
      DeadlockIsCrossing(s');
      DeadlockStays(s', acts[1..]);
    }
  }

  lemma {:induction false} RunExtends(s: State, acts: seq<Action>, a: Action)
    requires IsRun(s, acts) && Enabled(Outcome(s, acts), a)
    ensures IsRun(s, acts + [a]) && Outcome(s, acts + [a]) == Apply(Outcome(s, acts), a)
    decreases |acts|
  {
    if acts == [] {
      assert acts + [a] == [a] && [a][1..] == [];
    } else {
      RunExtends(Apply(s, acts[0]), acts[1..], a);
      assert (acts + [a])[1..] == acts[1..] + [a];
    }
  }

  /** Thread 0 is in `send` with the key's lock, thread 1 in `send_staged` before its lock. */
  lemma DrainMeetsSend() returns (acts: seq<Action>)
    ensures IsRun(Initial(2), acts)
    ensures Outcome(Initial(2), acts) == State(Some(0), None, false, 1, [AtStaged, AtDrain])
  {
    var s0 := Initial(2);
    assert s0.threads == [Idle, Idle];
    acts := [];
    RunExtends(s0, acts, Send(0, true));
    acts := acts + [Send(0, true)];
    RunExtends(s0, acts, Step(0));
    acts := acts + [Step(0)];
    RunExtends(s0, acts, Step(0));
    acts := acts + [Step(0)];
    RunExtends(s0, acts, Step(0));
    acts := acts + [Step(0)];
    assert Outcome(s0, acts) == State(None, None, false, 1, [Idle, Idle]);
    RunExtends(s0, acts, SetKey(true));
    acts := acts + [SetKey(true)];
    RunExtends(s0, acts, SendStaged(1));
    acts := acts + [SendStaged(1)];
    RunExtends(s0, acts, SetKey(false));
    acts := acts + [SetKey(false)];
    RunExtends(s0, acts, Send(0, true));
    acts := acts + [Send(0, true)];
    RunExtends(s0, acts, Step(0));
    acts := acts + [Step(0)];
    RunExtends(s0, acts, Step(0));
    acts := acts + [Step(0)];
  }

  /** A run of two threads into the deadlock: the key went away between its installation and the drain. */
  lemma TwoThreadsCanDeadlock()
    ensures exists acts :: IsRun(Initial(2), acts) && Deadlocked(Outcome(Initial(2), acts))
  {
    var s0 := Initial(2);
    var acts := DrainMeetsSend();
    RunExtends(s0, acts, Step(1));
    acts := acts + [Step(1)];
    RunExtends(s0, acts, Step(1));
    acts := acts + [Step(1)];
    var s := Outcome(s0, acts);
    assert s.threads == [AtStaged, AtKey(false, true)];
    assert !s.threads[0].Idle? && !CanStep(s, 0) && !CanStep(s, 1);
  }
}
