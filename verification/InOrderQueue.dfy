/**
 * The in-order job queue of the router (src/wireguard/router/queue.rs) and the worker
 * threads that drive it (worker.rs), as a machine whose steps are the atomic operations
 * of any number of threads.
 *
 * A job is pushed onto the queue, then submitted to the work channel; a worker takes it,
 * does its parallel work, stores `ready`, and calls `consume`, which decides by one
 * `fetch_add` who becomes the owner of the critical section.
 */
module InOrderQueue {
  import opened Base

  const USIZE_MAX: nat := TWO_64 - 1

  /** The identity of a job: one allocation, never reused. */
  type Job = nat

  type Thread = nat

  /** Where a worker thread is. `mine` is the local variable `contenders` of `consume`. */
  datatype Phase =
    | Idle                           // waiting on the work channel
    | Working(job: Job)              // in parallel_work
    | Marked(job: Job)               // ready stored, fetch_add still to come
    | Scan(mine: nat)                // owner, about to lock the queue
    | Front(mine: nat)               // owner, holds the lock, about to look at the front
    | Taking(mine: nat)              // owner, holds the lock, the front was ready
    | Running(mine: nat, job: Job)   // owner, in sequential_work
    | Leaving(mine: nat)             // owner, about to fetch_sub
    | Panicked                       // the overflow assertion failed

  datatype State = State(
    contenders: nat,
    lock: Option<Thread>,
    queue: seq<Job>,
    ready: set<Job>,
    unsubmitted: set<Job>,
    channel: seq<Job>,
    threads: seq<Phase>,
    // history
    pushed: seq<Job>,
    started: seq<Job>,
    finished: seq<Job>)

  datatype Action =
    | Push(job: Job)
    | Submit(job: Job)
    | Take(thread: Thread)
    | MarkReady(thread: Thread)
    | FetchAdd(thread: Thread)
    | Lock(thread: Thread)
    | Inspect(thread: Thread)
    | Pop(thread: Thread)
    | Finish(thread: Thread)
    | FetchSub(thread: Thread)

  predicate Owns(p: Phase) {
    p.Scan? || p.Front? || p.Taking? || p.Running? || p.Leaving?
  }

  predicate Enabled(s: State, a: Action) {
    match a
    case Push(j) => s.lock.None? && j !in s.pushed
    case Submit(j) => j in s.unsubmitted && |s.channel| < PARALLEL_QUEUE_SIZE
    case _ =>
      && a.thread < |s.threads|
      && var p := s.threads[a.thread];
      match a
      case Take(_) => p.Idle? && s.channel != []
      case MarkReady(_) => p.Working?
      case FetchAdd(_) => p.Marked?
      case Lock(_) => p.Scan? && s.lock.None?
      case Inspect(_) => p.Front?
      case Pop(_) => p.Taking? && s.queue != []
      case Finish(_) => p.Running?
      case FetchSub(_) => p.Leaving?
  }

  function Apply(s: State, a: Action): State
    requires Enabled(s, a)
  {
    match a
    case Push(j) =>
      if |s.queue| < INORDER_QUEUE_SIZE then
        s.(queue := s.queue + [j], pushed := s.pushed + [j], unsubmitted := s.unsubmitted + {j})
      else
        s
    case Submit(j) =>
      s.(channel := s.channel + [j], unsubmitted := s.unsubmitted - {j})
    case Take(t) =>
      s.(channel := s.channel[1..], threads := s.threads[t := Working(s.channel[0])])
    case MarkReady(t) =>
      var j := s.threads[t].job;
      s.(ready := s.ready + {j}, threads := s.threads[t := Marked(j)])
    case FetchAdd(t) =>
      var pos := s.contenders;
      var next := if pos == 0 then Scan(1) else if pos < USIZE_MAX then Idle else Panicked;
      s.(contenders := (pos + 1) % TWO_64, threads := s.threads[t := next])
    case Lock(t) =>
      s.(lock := Some(t), threads := s.threads[t := Front(s.threads[t].mine)])
    case Inspect(t) =>
      var mine := s.threads[t].mine;
      if s.queue == [] || s.queue[0] !in s.ready then
        s.(lock := None, threads := s.threads[t := Leaving(mine)])
      else
        s.(threads := s.threads[t := Taking(mine)])
    case Pop(t) =>
      var j := s.queue[0];
      s.(lock := None, queue := s.queue[1..], started := s.started + [j],
         threads := s.threads[t := Running(s.threads[t].mine, j)])
    case Finish(t) =>
      var Running(mine, j) := s.threads[t];
      s.(finished := s.finished + [j], threads := s.threads[t := Scan(mine)])
    case FetchSub(t) =>
      var left := (s.contenders + TWO_64 - s.threads[t].mine) % TWO_64;
      s.(contenders := left, threads := s.threads[t := if left > 0 then Scan(left) else Idle])
  }

  function Initial(workers: nat): State {
    State(0, None, [], {}, {}, [], seq(workers, _ => Idle), [], [], [])
  }

  /** `acts` can be taken one after the other from `s`. */
  predicate IsRun(s: State, acts: seq<Action>)
    decreases |acts|
  {
    acts == [] || (Enabled(s, acts[0]) && IsRun(Apply(s, acts[0]), acts[1..]))
  }

  function Outcome(s: State, acts: seq<Action>): State
    requires IsRun(s, acts)
    decreases |acts|
  {
    if acts == [] then s else Outcome(Apply(s, acts[0]), acts[1..])
  }

  /** No worker died of 2^64 calls in one ownership period. */
  predicate NoPanic(s: State) {
    forall t :: 0 <= t < |s.threads| ==> !s.threads[t].Panicked?
  }

  /** The `fetch_add` that fails the assertion of `consume`, and wraps the counter. */
  predicate Overflows(s: State, a: Action) {
    a.FetchAdd? && s.contenders == USIZE_MAX
  }

  /** No call of the run finds the counter at its maximum. */
  predicate NoOverflow(s: State, acts: seq<Action>)
    requires IsRun(s, acts)
    decreases |acts|
  {
    acts == [] || (!Overflows(s, acts[0]) && NoOverflow(Apply(s, acts[0]), acts[1..]))
  }

  /** The calls of `consume` in a run. */
  function Calls(acts: seq<Action>): nat {
    if acts == [] then 0 else (if acts[0].FetchAdd? then 1 else 0) + Calls(acts[1..])
  }

  // ---------------------------------------------------------------- invariant

  /** Before it is marked ready a job is in at most one place. */
  ghost predicate Exclusive(s: State) {
    && Distinct(s.pushed) && Distinct(s.channel)
    && (forall j :: j in s.ready || j in s.unsubmitted || j in s.channel ==> j in s.pushed)
    && (forall j :: j in s.unsubmitted ==> j !in s.channel && j !in s.ready)
    && (forall j :: j in s.channel ==> j !in s.ready)
    && (forall t :: 0 <= t < |s.threads| && s.threads[t].Working? ==>
          var j := s.threads[t].job;
          j in s.pushed && j !in s.ready && j !in s.unsubmitted && j !in s.channel)
    && (forall t, u :: 0 <= t < u < |s.threads| && s.threads[t].Working? && s.threads[u].Working? ==>
          s.threads[t].job != s.threads[u].job)
  }

  ghost predicate BeingWorkedOn(s: State, j: Job) {
    exists t :: 0 <= t < |s.threads| && s.threads[t] == Working(j)
  }

  /** Until it is marked ready a pushed job is somewhere. */
  ghost predicate Located(s: State) {
    forall j :: j in s.pushed && j !in s.ready && j !in s.unsubmitted && j !in s.channel ==> BeingWorkedOn(s, j)
  }

  /** The ownership discipline; `o` is the owner, if there is one. */
  ghost predicate Ownership(s: State, o: Option<Thread>) {
    && (forall t :: 0 <= t < |s.threads| ==> (Owns(s.threads[t]) <==> o == Some(t)))
    && (o.Some? ==> o.value < |s.threads|)
    && (s.contenders > 0 <==> o.Some?)
    && (o.Some? ==> 1 <= s.threads[o.value].mine <= s.contenders < TWO_64)
    && (s.lock.Some? ==> o == s.lock)
    && (o.Some? ==> (s.lock.Some? <==> s.threads[o.value].Front? || s.threads[o.value].Taking?))
    && (o.Some? && s.threads[o.value].Taking? ==> s.queue != [] && s.queue[0] in s.ready)
  }

  /** What was pushed is what was started followed by what is queued; at most one job runs. */
  ghost predicate InOrder(s: State, o: Option<Thread>)
    requires o.Some? ==> o.value < |s.threads|
  {
    && s.pushed == s.started + s.queue
    && s.started == s.finished + (if o.Some? && s.threads[o.value].Running? then [s.threads[o.value].job] else [])
    && (forall j :: j in s.started ==> j in s.ready)
  }

  /** The owner `o` will look at the queue again. */
  ghost predicate WillScan(s: State, o: Option<Thread>)
    requires o.Some? ==> o.value < |s.threads|
  {
    && o.Some?
    && var p := s.threads[o.value];
    && Owns(p)
    && (p.Leaving? ==> s.contenders > p.mine)
  }

  /** A ready front is about to be noticed: by its worker, or by an owner that scans again. */
  ghost predicate Awake(s: State, o: Option<Thread>)
    requires o.Some? ==> o.value < |s.threads|
  {
    s.queue != [] && s.queue[0] in s.ready ==>
      || (exists t :: 0 <= t < |s.threads| && s.threads[t] == Marked(s.queue[0]))
      || WillScan(s, o)
  }

  ghost predicate InvAt(s: State, o: Option<Thread>) {
    Exclusive(s) && Located(s) && Ownership(s, o) && InOrder(s, o) && Awake(s, o)
  }

  ghost predicate Inv(s: State) {
    exists o :: InvAt(s, o)
  }

  /** Who owns the critical section after the step. */
  function OwnerAfter(s: State, a: Action, o: Option<Thread>): Option<Thread>
    requires Enabled(s, a)
  {
    if a.FetchAdd? && s.contenders == 0 then Some(a.thread)
    else if a.FetchSub? && Apply(s, a).contenders == 0 then None
    else o
  }

  lemma ExclusiveEntry(s: State, a: Action)
    requires Exclusive(s) && Enabled(s, a) && (a.Push? || a.Submit?)
    ensures Exclusive(Apply(s, a))
  {
  }

  lemma ExclusiveWork(s: State, a: Action)
    requires Exclusive(s) && Enabled(s, a) && (a.Take? || a.MarkReady?)
    ensures Exclusive(Apply(s, a))
  {
  }

  lemma ExclusiveStep(s: State, a: Action)
    requires Exclusive(s) && Enabled(s, a)
    ensures Exclusive(Apply(s, a))
  {
    if a.Push? || a.Submit? {
      ExclusiveEntry(s, a);
    } else if a.Take? || a.MarkReady? {
      ExclusiveWork(s, a);
    }
  }

  lemma LocatedStep(s: State, a: Action)
    requires Located(s) && Enabled(s, a)
    ensures Located(Apply(s, a))
  {
    var s' := Apply(s, a);
    forall j | j in s'.pushed && j !in s'.ready && j !in s'.unsubmitted && j !in s'.channel
      ensures BeingWorkedOn(s', j)
    {
      if a.Take? && j == s.channel[0] {
        assert s'.threads[a.thread] == Working(j);
      } else {
        if a.Take? { assert s.channel == [s.channel[0]] + s.channel[1..]; }
        var t :| 0 <= t < |s.threads| && s.threads[t] == Working(j);
        assert s'.threads[t] == Working(j);
      }
    }
  }

  lemma OwnershipCounted(s: State, a: Action, o: Option<Thread>)
    requires Ownership(s, o) && Enabled(s, a) && NoPanic(Apply(s, a)) && (a.FetchAdd? || a.FetchSub?)
    ensures Ownership(Apply(s, a), OwnerAfter(s, a, o))
  {
    assert !Apply(s, a).threads[a.thread].Panicked?;
  }

  lemma OwnershipScanned(s: State, a: Action, o: Option<Thread>)
    requires Ownership(s, o) && Enabled(s, a) && (a.Lock? || a.Inspect? || a.Pop? || a.Finish?)
    ensures Ownership(Apply(s, a), o)
  {
    assert o == Some(a.thread);
  }

  lemma OwnershipStep(s: State, a: Action, o: Option<Thread>)
    requires Ownership(s, o) && Enabled(s, a) && NoPanic(Apply(s, a))
    ensures Ownership(Apply(s, a), OwnerAfter(s, a, o))
  {
    if a.FetchAdd? || a.FetchSub? {
      OwnershipCounted(s, a, o);
    } else if a.Lock? || a.Inspect? || a.Pop? || a.Finish? {
      OwnershipScanned(s, a, o);
    }
  }

  lemma InOrderMoved(s: State, a: Action, o: Option<Thread>)
    requires Ownership(s, o) && InOrder(s, o) && Enabled(s, a) && (a.Push? || a.Pop? || a.Finish?)
    ensures InOrder(Apply(s, a), o)
  {
  }

  lemma InOrderStep(s: State, a: Action, o: Option<Thread>)
    requires Ownership(s, o) && InOrder(s, o) && Enabled(s, a) && NoPanic(Apply(s, a))
    ensures var o' := OwnerAfter(s, a, o);
            (o'.Some? ==> o'.value < |Apply(s, a).threads|) && InOrder(Apply(s, a), o')
  {
    if a.Push? || a.Pop? || a.Finish? {
      InOrderMoved(s, a, o);
    }
  }

  lemma WitnessKept(s: State, a: Action, front: Job)
    requires Enabled(s, a) && !a.FetchAdd?
    requires exists t :: 0 <= t < |s.threads| && s.threads[t] == Marked(front)
    ensures exists t :: 0 <= t < |Apply(s, a).threads| && Apply(s, a).threads[t] == Marked(front)
  {
    var t :| 0 <= t < |s.threads| && s.threads[t] == Marked(front);
    assert Apply(s, a).threads[t] == Marked(front);
  }

  lemma AwakeStep(s: State, a: Action, o: Option<Thread>)
    requires Exclusive(s) && Ownership(s, o) && Awake(s, o) && Enabled(s, a) && NoPanic(Apply(s, a))
    ensures var o' := OwnerAfter(s, a, o);
            (o'.Some? ==> o'.value < |Apply(s, a).threads|) && Awake(Apply(s, a), o')
  {
    var s' := Apply(s, a);
    var o' := OwnerAfter(s, a, o);
    OwnershipStep(s, a, o);
    if s'.queue != [] && s'.queue[0] in s'.ready && !WillScan(s', o') {
      var front := s'.queue[0];
      match a
      case Push(_) => WitnessKept(s, a, front);
      case Submit(_) => WitnessKept(s, a, front);
      case Take(_) => WitnessKept(s, a, front);
      case MarkReady(t) =>
        if s.threads[t].job == front {
          assert s'.threads[t] == Marked(front);
        } else {
          WitnessKept(s, a, front);
        }
      case FetchAdd(t) => assert false;
      case Lock(_) => assert false;
      case Inspect(_) => assert false;
      case Pop(_) => assert false;
      case Finish(_) => assert false;
      case FetchSub(_) => WitnessKept(s, a, front);
    }
  }

  lemma InvStep(s: State, a: Action)
    requires Inv(s) && Enabled(s, a) && NoPanic(Apply(s, a))
    ensures Inv(Apply(s, a))
  {
    var o :| InvAt(s, o);
    ExclusiveStep(s, a);
    LocatedStep(s, a);
    OwnershipStep(s, a, o);
    InOrderStep(s, a, o);
    AwakeStep(s, a, o);
    assert InvAt(Apply(s, a), OwnerAfter(s, a, o));
  }

  // --------------------------------------------------------------- every run

  lemma InitialInv(workers: nat)
    ensures Inv(Initial(workers)) && NoPanic(Initial(workers))
  {
    assert InvAt(Initial(workers), None);
  }

  lemma {:induction false} PanicStays(s: State, acts: seq<Action>)
    requires IsRun(s, acts) && NoPanic(Outcome(s, acts))
    ensures NoPanic(s)
    decreases |acts|
  {
    if acts != [] {
      PanicStays(Apply(s, acts[0]), acts[1..]);
      PanicStaysStep(s, acts[0]);
    }
  }

  /** Under the invariant exactly one kind of step makes a thread panic. */
  lemma StepPanics(s: State, a: Action)
    requires Inv(s) && NoPanic(s) && Enabled(s, a)
    ensures NoPanic(Apply(s, a)) <==> !Overflows(s, a)
  {
    var o :| InvAt(s, o);
    if Overflows(s, a) {
      assert Apply(s, a).threads[a.thread].Panicked?;
    }
  }

  lemma SafeStep(s: State, a: Action)
    requires Inv(s) && NoPanic(s) && Enabled(s, a) && !Overflows(s, a)
    ensures Inv(Apply(s, a)) && NoPanic(Apply(s, a))
  {
    StepPanics(s, a);
    InvStep(s, a);
  }

  lemma {:induction false} RunInv(s: State, acts: seq<Action>)
    requires Inv(s) && NoPanic(s) && IsRun(s, acts) && NoOverflow(s, acts)
    ensures Inv(Outcome(s, acts)) && NoPanic(Outcome(s, acts))
    decreases |acts|
  {
    if acts != [] {
      SafeStep(s, acts[0]);
      RunInv(Apply(s, acts[0]), acts[1..]);
    }
  }

  /** A run ends without a panicked worker exactly if no call found the counter at its maximum. */
  lemma {:induction false} RunPanics(s: State, acts: seq<Action>)
    requires Inv(s) && NoPanic(s) && IsRun(s, acts)
    ensures NoPanic(Outcome(s, acts)) <==> NoOverflow(s, acts)
    decreases |acts|
  {
    if acts != [] {
      StepPanics(s, acts[0]);
      if Overflows(s, acts[0]) {
        if NoPanic(Outcome(s, acts)) { PanicStays(Apply(s, acts[0]), acts[1..]); }
      } else {
        InvStep(s, acts[0]);
        RunPanics(Apply(s, acts[0]), acts[1..]);
      }
    }
  }

  /** The counter counts calls, and an owner takes off no more than it has counted. */
  lemma CounterStep(s: State, a: Action)
    requires Inv(s) && Enabled(s, a)
    ensures Apply(s, a).contenders <= s.contenders + if a.FetchAdd? then 1 else 0
  {
    var o :| InvAt(s, o);
  }

  /** With fewer than 2^64 calls in all, no call finds the counter at its maximum. */
  lemma {:induction false} FewCallsDoNotOverflow(s: State, acts: seq<Action>)
    requires Inv(s) && NoPanic(s) && IsRun(s, acts) && s.contenders + Calls(acts) < TWO_64
    ensures NoOverflow(s, acts)
    decreases |acts|
  {
    if acts != [] {
      CounterStep(s, acts[0]);
      SafeStep(s, acts[0]);
      FewCallsDoNotOverflow(Apply(s, acts[0]), acts[1..]);
    }
  }

  /**
   * `acts` leads from the start to `s`, with fewer than 2^64 calls of `consume` in all, or at
   * least with none that finds the counter at its maximum.
   */
  ghost predicate Reachable(workers: nat, acts: seq<Action>, s: State) {
    && IsRun(Initial(workers), acts) && s == Outcome(Initial(workers), acts)
    && (Calls(acts) < TWO_64 || NoOverflow(Initial(workers), acts))
  }

  lemma ReachableInv(workers: nat, acts: seq<Action>, s: State)
    requires Reachable(workers, acts, s)
    ensures Inv(s) && NoPanic(s)
  {
    InitialInv(workers);
    if Calls(acts) < TWO_64 {
      FewCallsDoNotOverflow(Initial(workers), acts);
    }
    RunInv(Initial(workers), acts);
  }

  /** At most one worker is inside the critical section of `consume`. */
  lemma MutualExclusion(workers: nat, acts: seq<Action>, s: State, t: Thread, u: Thread)
    requires Reachable(workers, acts, s)
    requires t < |s.threads| && u < |s.threads| && Owns(s.threads[t]) && Owns(s.threads[u])
    ensures t == u
  {
    ReachableInv(workers, acts, s);
  }

  /** Jobs are finished exactly once and in push order; sequential work sees only ready jobs. */
  lemma FinishedInPushOrder(workers: nat, acts: seq<Action>, s: State)
    requires Reachable(workers, acts, s)
    ensures s.finished <= s.started <= s.pushed && |s.started| <= |s.finished| + 1
    ensures s.started + s.queue == s.pushed && Distinct(s.pushed)
    ensures forall j :: j in s.started ==> j in s.ready
    ensures forall t :: 0 <= t < |s.threads| && s.threads[t].Working? ==> s.threads[t].job !in s.ready
  {
    ReachableInv(workers, acts, s);
  }

  /**
   * No lost wakeup: with no owner active and no worker between marking the front ready
   * and its `fetch_add`, the front is not ready.
   */
  lemma NoLostWakeup(workers: nat, acts: seq<Action>, s: State)
    requires Reachable(workers, acts, s)
    requires s.queue != []
    requires forall t :: 0 <= t < |s.threads| ==> !Owns(s.threads[t]) && s.threads[t] != Marked(s.queue[0])
    ensures s.queue[0] !in s.ready
  {
    ReachableInv(workers, acts, s);
  }

  /** Once the counter stands at its maximum, one more call wraps it, and the next caller is a second owner. */
  lemma {:induction false} OverflowBreaksExclusion(s: State, o: Thread, t: Thread, u: Thread)
    requires Inv(s) && o < |s.threads| && Owns(s.threads[o]) && s.contenders == USIZE_MAX
    requires t < |s.threads| && u < |s.threads| && t != u && s.threads[t].Marked? && s.threads[u].Marked?
    ensures var acts := [FetchAdd(t), FetchAdd(u)];
            && IsRun(s, acts) && |Outcome(s, acts).threads| == |s.threads|
            && Outcome(s, acts).threads[t].Panicked?
            && Owns(Outcome(s, acts).threads[o]) && Owns(Outcome(s, acts).threads[u]) && o != u
  {
    var s1 := Apply(s, FetchAdd(t));
    assert s1.contenders == 0;
    var s2 := Apply(s1, FetchAdd(u));
    var acts := [FetchAdd(t), FetchAdd(u)];
    assert acts[1..] == [FetchAdd(u)] && acts[1..][1..] == [];
    assert IsRun(s2, []);
    assert IsRun(s1, [FetchAdd(u)]) && Outcome(s1, [FetchAdd(u)]) == s2;
  }

  /** What a user of the queue may rely on in every state. */
  ghost predicate Facts(s: State) {
    && s.started + s.queue == s.pushed && s.finished <= s.started && Distinct(s.pushed)
    && (forall j :: j in s.ready ==> j in s.pushed)
    && (forall t :: 0 <= t < |s.threads| && s.threads[t].Working? ==>
          s.threads[t].job in s.pushed && s.threads[t].job !in s.ready)
    && (forall t :: 0 <= t < |s.threads| && s.threads[t].Running? ==>
          s.threads[t].job in s.ready && s.threads[t].job in s.pushed)
  }

  lemma InvFacts(s: State)
    requires Inv(s)
    ensures Facts(s)
  {
    var o: Option<Thread> :| InvAt(s, o);
    forall t | 0 <= t < |s.threads| && s.threads[t].Running?
      ensures s.threads[t].job in s.ready && s.threads[t].job in s.pushed
    {
      assert s.threads[t].job in s.started;
    }
  }

  /** What is finished was marked ready. */
  lemma InvReady(s: State)
    requires Inv(s)
    ensures s.finished <= s.pushed && forall j :: j in s.finished ==> j in s.ready
  {
    var o: Option<Thread> :| InvAt(s, o);
  }

  lemma PanicStaysStep(s: State, a: Action)
    requires Enabled(s, a) && NoPanic(Apply(s, a))
    ensures NoPanic(s)
  {
    forall t | 0 <= t < |s.threads| ensures !s.threads[t].Panicked? {
      assert !Apply(s, a).threads[t].Panicked?;
    }
  }

  /** Nothing is left to do outside the queue: no job on its way, every worker waiting. */
  predicate Quiet(s: State) {
    s.unsubmitted == {} && s.channel == [] && forall t :: 0 <= t < |s.threads| ==> s.threads[t].Idle?
  }

  lemma QueuedIsPushed(s: State, o: Option<Thread>)
    requires (o.Some? ==> o.value < |s.threads|) && InOrder(s, o)
    ensures forall j :: j in s.queue ==> j in s.pushed
  {
  }

  lemma QuietMeansDone(s: State)
    requires Inv(s) && Quiet(s)
    ensures s.queue == [] && s.finished == s.pushed
  {
    var o :| InvAt(s, o);
    QueuedIsPushed(s, o);
    assert forall j :: j in s.pushed ==> j in s.ready;
  }

  // ---------------------------------------------------------------- progress

  function Rank(p: Phase): int {
    match p
    case Idle => 0
    case Panicked => 0
    case Working(_) => 5
    case Marked(_) => 4
    case Running(mine, _) => 4 - 3 * mine
    case Scan(mine) => 3 - 3 * mine
    case Front(mine) => 2 - 3 * mine
    case Taking(mine) => 1 - 3 * mine
    case Leaving(mine) => 1 - 3 * mine
  }

  function Ranks(ts: seq<Phase>): int {
    if ts == [] then 0 else Ranks(ts[..|ts| - 1]) + Rank(ts[|ts| - 1])
  }

  /** Bounds the number of steps until the queue is drained. */
  function Measure(s: State): int {
    7 * |s.unsubmitted| + 6 * |s.channel| + 4 * |s.queue| + 3 * s.contenders + Ranks(s.threads)
  }

  lemma {:induction false} RanksUpdate(ts: seq<Phase>, t: Thread, p: Phase)
    requires t < |ts|
    ensures Ranks(ts[t := p]) == Ranks(ts) - Rank(ts[t]) + Rank(p)
  {
    var n := |ts| - 1;
    if t == n {
      assert ts[t := p][..n] == ts[..n];
    } else {
      assert ts[t := p][..n] == ts[..n][t := p];
      RanksUpdate(ts[..n], t, p);
    }
  }

  lemma {:induction false} RanksWithoutOwner(ts: seq<Phase>)
    requires forall t :: 0 <= t < |ts| ==> !Owns(ts[t])
    ensures Ranks(ts) >= 0
  {
    if ts != [] {
      RanksWithoutOwner(ts[..|ts| - 1]);
    }
  }

  lemma MeasureBound(s: State)
    requires Inv(s)
    ensures Measure(s) >= 0
  {
    var o: Option<Thread> :| InvAt(s, o);
    if o.Some? {
      RanksUpdate(s.threads, o.value, Idle);
      RanksWithoutOwner(s.threads[o.value := Idle]);
    } else {
      RanksWithoutOwner(s.threads);
    }
  }

  lemma EntryDecreases(s: State, a: Action)
    requires Enabled(s, a) && (a.Submit? || a.Take? || a.MarkReady?)
    ensures Measure(Apply(s, a)) < Measure(s)
  {
    var s' := Apply(s, a);
    if a.Submit? {
      assert s.unsubmitted == s'.unsubmitted + {a.job};
    } else {
      RanksUpdate(s.threads, a.thread, s'.threads[a.thread]);
    }
  }

  lemma CountedDecreases(s: State, a: Action, o: Option<Thread>)
    requires Ownership(s, o) && Enabled(s, a) && (a.FetchAdd? || a.FetchSub?) && NoPanic(Apply(s, a))
    ensures Measure(Apply(s, a)) < Measure(s)
  {
    var s' := Apply(s, a);
    assert !s'.threads[a.thread].Panicked?;
    RanksUpdate(s.threads, a.thread, s'.threads[a.thread]);
  }

  lemma ScanDecreases(s: State, a: Action)
    requires Enabled(s, a) && (a.Lock? || a.Inspect? || a.Pop? || a.Finish?)
    ensures Measure(Apply(s, a)) < Measure(s)
  {
    RanksUpdate(s.threads, a.thread, Apply(s, a).threads[a.thread]);
  }

  lemma StepDecreases(s: State, a: Action)
    requires Inv(s) && NoPanic(s) && Enabled(s, a) && !a.Push? && !Overflows(s, a)
    ensures Measure(Apply(s, a)) < Measure(s)
  {
    StepPanics(s, a);
    if a.FetchAdd? || a.FetchSub? {
      var o :| InvAt(s, o);
      CountedDecreases(s, a, o);
    } else if a.Submit? || a.Take? || a.MarkReady? {
      EntryDecreases(s, a);
    } else {
      ScanDecreases(s, a);
    }
  }

  predicate PushFree(acts: seq<Action>) {
    forall i :: 0 <= i < |acts| ==> !acts[i].Push?
  }

  /** Whatever the schedule, only so many steps can be taken without a new push. */
  lemma {:induction false} PushFreeRunsAreBounded(s: State, acts: seq<Action>)
    requires Inv(s) && NoPanic(s) && IsRun(s, acts) && PushFree(acts) && NoOverflow(s, acts)
    ensures |acts| <= Measure(s) - Measure(Outcome(s, acts)) <= Measure(s)
    decreases |acts|
  {
    RunInv(s, acts);
    MeasureBound(Outcome(s, acts));
    if acts != [] {
      var s' := Apply(s, acts[0]);
      SafeStep(s, acts[0]);
      StepDecreases(s, acts[0]);
      assert forall i :: 0 <= i < |acts| - 1 ==> acts[1..][i] == acts[i + 1];
      PushFreeRunsAreBounded(s', acts[1..]);
    }
  }

  /** The step that a busy thread can take, if the lock is not held by another. */
  function OwnStep(s: State, t: Thread): Action
    requires t < |s.threads|
  {
    match s.threads[t]
    case Working(_) => MarkReady(t)
    case Marked(_) => FetchAdd(t)
    case Scan(_) => Lock(t)
    case Front(_) => Inspect(t)
    case Taking(_) => Pop(t)
    case Running(_, _) => Finish(t)
    case Leaving(_) => FetchSub(t)
    case _ => Take(t)
  }

  /** Until everything is done, some step other than a push is possible. */
  lemma NeverStuck(s: State)
    requires Inv(s) && NoPanic(s) && |s.threads| > 0
    ensures Quiet(s) || exists a: Action :: !a.Push? && Enabled(s, a)
  {
    var o :| InvAt(s, o);
    if t :| 0 <= t < |s.threads| && !s.threads[t].Idle? {
      assert Enabled(s, OwnStep(s, t));
    } else if s.channel != [] {
      assert Enabled(s, Take(0));
    } else if s.unsubmitted != {} {
      var j :| j in s.unsubmitted;
      assert Enabled(s, Submit(j));
    }
  }

  /**
   * Every run that is continued for as long as possible without further pushes
   * finishes every pushed job, in push order, and leaves the queue empty.
   */
  lemma EveryMaximalRunDrains(workers: nat, acts: seq<Action>, s: State)
    requires workers > 0 && Reachable(workers, acts, s)
    requires forall a: Action :: Enabled(s, a) ==> a.Push?
    ensures s.queue == [] && s.finished == s.pushed
  {
    ReachableInv(workers, acts, s);
    WorkersStay(Initial(workers), acts);
    NeverStuck(s);
    QuietMeansDone(s);
  }

  lemma {:induction false} WorkersStay(s: State, acts: seq<Action>)
    requires IsRun(s, acts)
    ensures |Outcome(s, acts).threads| == |s.threads|
    decreases |acts|
  {
    if acts != [] {
      WorkersStay(Apply(s, acts[0]), acts[1..]);
    }
  }

  // -------------------------------------------------- the code of one thread

  lemma {:induction false} RunExtends(s: State, acts: seq<Action>, a: Action)
    requires IsRun(s, acts) && Enabled(Outcome(s, acts), a)
    ensures IsRun(s, acts + [a]) && Outcome(s, acts + [a]) == Apply(Outcome(s, acts), a)
    decreases |acts|
  {
    if acts == [] {
      assert acts + [a] == [a];
      assert [a][1..] == [];
    } else {
      RunExtends(Apply(s, acts[0]), acts[1..], a);
      assert (acts + [a])[1..] == acts[1..] + [a];
    }
  }

  /** The longest ready prefix of `q0` has moved to the end of `f0`. */
  ghost predicate Drained(f0: seq<Job>, q0: seq<Job>, f: seq<Job>, q: seq<Job>, ready: set<Job>) {
    && f0 + q0 == f + q && |q| <= |q0|
    && (forall i :: 0 <= i < |q0| - |q| ==> q0[i] in ready)
    && (q != [] ==> q[0] !in ready)
  }

  lemma {:induction false} SettledInv(s: State, acts: seq<Action>, t: Thread)
    requires Inv(s) && NoPanic(s) && IsRun(s, acts) && t < |s.threads|
    requires Outcome(s, acts).threads == s.threads[t := Idle]
    ensures Inv(Outcome(s, acts)) && NoPanic(Outcome(s, acts))
  {
    RunPanics(s, acts);
    RunInv(s, acts);
  }

  // ------------------------------------------------------ overflow can happen

  ghost predicate Leads(workers: nat, acts: seq<Action>, s: State) {
    IsRun(Initial(workers), acts) && Outcome(Initial(workers), acts) == s
  }

  lemma Extend(workers: nat, acts: seq<Action>, s: State, a: Action)
    requires Leads(workers, acts, s) && Enabled(s, a)
    ensures Leads(workers, acts + [a], Apply(s, a))
  {
    RunExtends(Initial(workers), acts, a);
  }

  /** A job is pushed, submitted, taken by an idle thread and marked ready. */
  lemma MarkJob(workers: nat, acts: seq<Action>, s: State, t: Thread, j: Job) returns (acts': seq<Action>, s': State)
    requires Leads(workers, acts, s) && s.lock.None? && s.unsubmitted == {} && s.channel == []
    requires t < |s.threads| && s.threads[t].Idle? && j !in s.pushed && |s.queue| < INORDER_QUEUE_SIZE
    ensures Leads(workers, acts', s')
    ensures s' == s.(queue := s.queue + [j], pushed := s.pushed + [j], ready := s.ready + {j},
                     threads := s.threads[t := Marked(j)])
  {
    hide Leads;
    Extend(workers, acts, s, Push(j));
    var s1 := Apply(s, Push(j));
    Extend(workers, acts + [Push(j)], s1, Submit(j));
    var s2 := Apply(s1, Submit(j));
    Extend(workers, acts + [Push(j)] + [Submit(j)], s2, Take(t));
    var s3 := Apply(s2, Take(t));
    Extend(workers, acts + [Push(j)] + [Submit(j)] + [Take(t)], s3, MarkReady(t));
    acts', s' := acts + [Push(j)] + [Submit(j)] + [Take(t)] + [MarkReady(t)], Apply(s3, MarkReady(t));
    assert s'.threads == s.threads[t := Marked(j)];
  }

  /** An owner finishes the only job and is about to look again. */
  lemma FinishOne(workers: nat, acts: seq<Action>, s: State, t: Thread) returns (acts': seq<Action>, s': State)
    requires Leads(workers, acts, s) && s.lock.None? && t < |s.threads| && s.threads[t] == Scan(1)
    requires |s.queue| == 1 && s.queue[0] in s.ready
    ensures Leads(workers, acts', s')
    ensures s' == s.(queue := [], started := s.started + s.queue, finished := s.finished + s.queue)
  {
    hide Leads;
    Extend(workers, acts, s, Action.Lock(t));
    var s1 := Apply(s, Action.Lock(t));
    Extend(workers, acts + [Action.Lock(t)], s1, Inspect(t));
    var s2 := Apply(s1, Inspect(t));
    Extend(workers, acts + [Action.Lock(t)] + [Inspect(t)], s2, Pop(t));
    var s3 := Apply(s2, Pop(t));
    Extend(workers, acts + [Action.Lock(t)] + [Inspect(t)] + [Pop(t)], s3, Finish(t));
    acts', s' := acts + [Action.Lock(t)] + [Inspect(t)] + [Pop(t)] + [Finish(t)], Apply(s3, Finish(t));
    assert s'.threads == s.threads && s.queue == [s.queue[0]];
  }

  /** `n` calls were made while thread 0, which still has to look once more, was the owner. */
  ghost predicate Crowded(s: State, workers: nat, n: nat) {
    && s.contenders == n && s.lock.None? && s.queue == [] && s.unsubmitted == {} && s.channel == []
    && |s.threads| == workers && (forall t :: 0 <= t < workers ==> s.threads[t] == if t == 0 then Scan(1) else Idle)
    && (forall j :: j in s.pushed ==> j < n)
  }

  /** An owner that finds the front ready every time can be joined by any number of callers. */
  lemma {:induction false} CrowdGrows(workers: nat, n: nat) returns (acts: seq<Action>, s: State)
    requires workers >= 3 && 1 <= n <= USIZE_MAX
    ensures Leads(workers, acts, s) && Crowded(s, workers, n)
  {
    hide Leads;
    var caller: Thread := if n == 1 then 0 else 1;
    if n == 1 {
      acts, s := [], Initial(workers);
      assert Leads(workers, acts, s) by { StartLeads(workers); }
    } else {
      acts, s := CrowdGrows(workers, n - 1);
    }
    acts, s := MarkJob(workers, acts, s, caller, n - 1);
    Extend(workers, acts, s, FetchAdd(caller));
    acts, s := acts + [FetchAdd(caller)], Apply(s, FetchAdd(caller));
    acts, s := FinishOne(workers, acts, s, 0);
  }

  lemma StartLeads(workers: nat)
    ensures Leads(workers, [], Initial(workers))
  {
  }

  /** Without a bound on the calls exclusion is false: some run of three workers has two owners. */
  lemma ExclusionNeedsTheBound(workers: nat)
    requires workers >= 3
    ensures exists acts :: IsRun(Initial(workers), acts) && |Outcome(Initial(workers), acts).threads| == workers
                           && Owns(Outcome(Initial(workers), acts).threads[0])
                           && Owns(Outcome(Initial(workers), acts).threads[2])
  {
    var acts, s := CrowdGrows(workers, USIZE_MAX);
    acts, s := MarkJob(workers, acts, s, 1, USIZE_MAX);
    acts, s := MarkJob(workers, acts, s, 2, USIZE_MAX + 1);
    Extend(workers, acts, s, FetchAdd(1));
    acts, s := acts + [FetchAdd(1)], Apply(s, FetchAdd(1));
    Extend(workers, acts, s, FetchAdd(2));
    acts, s := acts + [FetchAdd(2)], Apply(s, FetchAdd(2));
    assert Leads(workers, acts, s);
  }

  /**
   * `Queue::push` and `Queue::consume` as written, run by one thread without interference:
   * every shared access is one step of the machine, so the machine takes the steps of the code.
   */
  class Queue {
    var contenders: nat
    var queue: seq<Job>
    var ready: set<Job>
    var finished: seq<Job>
    ghost var state: State
    ghost var taken: seq<Action>   // the steps of the call so far

    /** The fields are those of the machine. */
    ghost predicate Agrees()
      reads this
    {
      && contenders == state.contenders && queue == state.queue
      && ready == state.ready && finished == state.finished
    }

    ghost predicate Valid()
      reads this
    {
      Agrees() && Inv(state) && NoPanic(state)
    }

    constructor (ghost workers: nat)
      ensures Valid() && state == Initial(workers)
    {
      contenders, queue, ready, finished := 0, [], {}, [];
      state, taken := Initial(workers), [];
      new;
      InitialInv(workers);
    }

    method Push(job: Job) returns (ok: bool)
      requires Valid() && Enabled(state, Action.Push(job))
      modifies this
      ensures Valid() && state == Apply(old(state), Action.Push(job))
      ensures ok <==> |old(queue)| < INORDER_QUEUE_SIZE
      ensures queue == if ok then old(queue) + [job] else old(queue)
    {
      InvStep(state, Action.Push(job));
      ok := |queue| < INORDER_QUEUE_SIZE;
      if ok {
        queue := queue + [job];
      }
      state := Apply(state, Action.Push(job));
    }

    /** One shared access of the code is one step of the machine. */
    ghost method Record(a: Action, start: State)
      requires Enabled(state, a)
      requires IsRun(start, taken) && state == Outcome(start, taken)
      modifies `state, `taken
      ensures state == Apply(old(state), a)
      ensures IsRun(start, taken) && state == Outcome(start, taken)
    {
      RunExtends(start, taken, a);
      state := Apply(state, a);
      taken := taken + [a];
    }

    /** The `fetch_add` that decides who owns the critical section. */
    ghost method RecordEnter(t: Thread, start: State)
      requires t < |state.threads| && state.threads[t].Marked? && state.contenders < USIZE_MAX
      requires IsRun(start, taken) && state == Outcome(start, taken)
      modifies `state, `taken
      ensures IsRun(start, taken) && state == Outcome(start, taken)
      ensures var s := old(state);
              state == s.(contenders := s.contenders + 1,
                          threads := s.threads[t := if s.contenders == 0 then Scan(1) else Idle])
    {
      Record(FetchAdd(t), start);
    }

    /** The `fetch_sub` of an owner that nobody has joined. */
    ghost method RecordLeave(t: Thread, start: State)
      requires t < |state.threads| && state.threads[t] == Leaving(1) && state.contenders == 1
      requires IsRun(start, taken) && state == Outcome(start, taken)
      modifies `state, `taken
      ensures IsRun(start, taken) && state == Outcome(start, taken)
      ensures state == old(state).(contenders := 0, threads := old(state).threads[t := Idle])
    {
      Record(FetchSub(t), start);
    }

    /** Lock, look, pop, work: one round of the inner loop with a ready front. */
    ghost method RecordJob(t: Thread, start: State)
      requires t < |state.threads| && state.lock.None? && state.threads[t] == Scan(1)
      requires state.queue != [] && state.queue[0] in state.ready
      requires IsRun(start, taken) && state == Outcome(start, taken)
      modifies `state, `taken
      ensures IsRun(start, taken) && state == Outcome(start, taken)
      ensures var s, j := old(state), old(state).queue[0];
              state == s.(queue := s.queue[1..], started := s.started + [j], finished := s.finished + [j])
    {
      Record(Action.Lock(t), start);
      Record(Action.Inspect(t), start);
      Record(Action.Pop(t), start);
      Record(Action.Finish(t), start);
      assert state.threads == old(state).threads;
    }

    /** Lock and look: the last round, with no ready front. */
    ghost method RecordStop(t: Thread, start: State)
      requires t < |state.threads| && state.lock.None? && state.threads[t] == Scan(1)
      requires state.queue == [] || state.queue[0] !in state.ready
      requires IsRun(start, taken) && state == Outcome(start, taken)
      modifies `state, `taken
      ensures IsRun(start, taken) && state == Outcome(start, taken)
      ensures state == old(state).(threads := old(state).threads[t := Leaving(1)])
    {
      Record(Action.Lock(t), start);
      Record(Action.Inspect(t), start);
      assert state.threads == old(state).threads[t := Leaving(1)];
    }

    /** The inner loop: finishes the longest ready prefix. */
    method Drain(t: Thread, ghost start: State)
      requires Agrees() && IsRun(start, taken) && state == Outcome(start, taken)
      requires t < |state.threads| && state.lock.None? && state.threads[t] == Scan(1)
      modifies this
      ensures Agrees() && IsRun(start, taken) && state == Outcome(start, taken)
      ensures ready == old(ready) && contenders == old(contenders)
      ensures state.lock.None? && state.threads == old(state).threads[t := Leaving(1)]
      ensures Drained(old(finished), old(queue), finished, queue, ready)
    {
      while true
        invariant Agrees() && IsRun(start, taken) && state == Outcome(start, taken)
        invariant ready == old(ready) && contenders == old(contenders)
        invariant state.lock.None? && state.threads == old(state).threads
        invariant old(finished) + old(queue) == finished + queue && |queue| <= |old(queue)|
        invariant forall i :: 0 <= i < |old(queue)| - |queue| ==> old(queue)[i] in ready
        decreases |queue|
      {
        if queue == [] || queue[0] !in ready {
          RecordStop(t, start);
          break;
        }
        var job := queue[0];
        QueueShift(old(finished), old(queue), finished, queue);
        queue := queue[1..];
        finished := finished + [job];
        RecordJob(t, start);
      }
    }

    method Consume(t: Thread)
      requires Valid() && t < |state.threads| && state.threads[t].Marked?
      requires state.lock.None? && contenders < USIZE_MAX
      modifies this
      ensures Valid()
      ensures IsRun(old(state), taken) && state == Outcome(old(state), taken)
      ensures ready == old(ready)
      // another thread owns the critical section: only the counter moves
      ensures old(contenders) > 0 ==>
                contenders == old(contenders) + 1 && queue == old(queue) && finished == old(finished)
      // otherwise the longest ready prefix is finished and the section is left
      ensures old(contenders) == 0 ==>
                contenders == 0 && Drained(old(finished), old(queue), finished, queue, ready)
    {
      taken := [];
      ghost var start := state;
      var pos := contenders;
      contenders := contenders + 1;
      RecordEnter(t, start);
      if pos == 0 {
        var mine := 1;
        while mine > 0
          invariant Agrees() && IsRun(start, taken) && state == Outcome(start, taken)
          invariant ready == old(ready) && state.lock.None?
          invariant mine == contenders <= 1 && |state.threads| == |start.threads|
          invariant state.threads == start.threads[t := if mine > 0 then Scan(mine) else Idle]
          invariant mine == 1 ==> queue == old(queue) && finished == old(finished)
          invariant mine == 0 ==> Drained(old(finished), old(queue), finished, queue, ready)
          decreases mine
        {
          Drain(t, start);
          contenders := contenders - mine;
          RecordLeave(t, start);
          mine := contenders;
        }
      }
      SettledInv(start, taken, t);
    }
  }

  lemma QueueShift(f0: seq<Job>, q0: seq<Job>, f: seq<Job>, q: seq<Job>)
    requires f0 + q0 == f + q && |q| <= |q0| && q != []
    ensures f0 + q0 == (f + [q[0]]) + q[1..]
    ensures q0[|q0| - |q|] == q[0]
  {
    assert (f0 + q0)[|f|] == (f + q)[|f|];
  }
}
