/**
 * The outbound path of a peer: nonces are taken and jobs pushed under one lock, workers
 * encrypt in any order, and the in-order queue transmits
 * (src/wireguard/router/peer.rs, send.rs, queue.rs, worker.rs).
 * The machine runs the key wheel and the queue of `InOrderQueue` side by side.
 */
module SendPath {
  import opened Base
  import opened Codec
  import opened KeyWheel
  import Q = InOrderQueue

  const SIZE_MESSAGE_PREFIX: nat := SIZE_HEADER

  /** `msg` is padded in front with room for the transport header. */
  datatype SendJob = SendJob(msg: Bytes, counter: u64, keypair: KeyPair)

  /** ChaCha20-Poly1305 under a key and a counter nonce: ciphertext followed by the tag. */
  type Seal = (Bytes, nat, Bytes) -> Bytes

  /** One use of the AEAD. */
  datatype SealCall = SealCall(key: Bytes, nonce: nat, body: Bytes)

  function CallOf(job: SendJob): SealCall {
    SealCall(job.keypair.send.key, job.counter,
             if |job.msg| >= SIZE_MESSAGE_PREFIX then job.msg[SIZE_MESSAGE_PREFIX..] else [])
  }

  function Sealed(seal: Seal, job: SendJob): Bytes {
    var call := CallOf(job);
    Header(job.keypair.send.id, job.counter) + seal(call.key, call.nonce, call.body)
  }

  datatype State = State(
    queue: Q.State,
    keys: Keys,
    jobs: map<Q.Job, SendJob>,
    buffer: map<Q.Job, Bytes>,   // the buffer that workers encrypt in place
    wire: seq<Bytes>,            // what was handed to send_raw
    // history
    calls: seq<(Q.Job, SealCall)>)   // every use of the AEAD, by the job it was for

  datatype Action =
    | Send(job: Q.Job, msg: Bytes)
    | TurnKeys(keyAction: KeyWheel.Action)
    | Work(queueAction: Q.Action)

  predicate Enabled(s: State, a: Action) {
    match a
    case Send(job, msg) => Q.Enabled(s.queue, Q.Action.Push(job)) && |msg| >= SIZE_MESSAGE_PREFIX
    case TurnKeys(k) => !k.Send?
    case Work(w) => !w.Push? && Q.Enabled(s.queue, w)
  }

  function Room(s: State): bool {
    |s.queue.queue| < INORDER_QUEUE_SIZE
  }

  function Apply(seal: Seal, s: State, a: Action): State
    requires Enabled(s, a)
  {
    match a
    case Send(job, msg) =>
      var (keys, taken) := TakeNonce(s.keys, Room(s));
      if taken.Nonce? then
        s.(keys := keys,
           queue := Q.Apply(s.queue, Q.Action.Push(job)),
           jobs := s.jobs[job := SendJob(msg, taken.nonce, taken.keypair)],
           buffer := s.buffer[job := msg])
      else
        s.(keys := keys)
    case TurnKeys(k) =>
      s.(keys := KeyWheel.Apply(s.keys, k))
    case Work(w) =>
      var s1 := s.(queue := Q.Apply(s.queue, w));
      match w
      case MarkReady(t) =>
        var j := s.queue.threads[t].job;
        if j in s.jobs then
          s1.(buffer := s.buffer[j := Sealed(seal, s.jobs[j])], calls := s.calls + [(j, CallOf(s.jobs[j]))])
        else s1
      case Finish(t) =>
        var j := s.queue.threads[t].job;
        if j in s.buffer then s1.(wire := s.wire + [s.buffer[j]]) else s1
      case _ => s1
  }

  function Initial(workers: nat): State {
    State(Q.Initial(workers), KeyWheel.INITIAL, map[], map[], [], [])
  }

  predicate IsRun(seal: Seal, s: State, acts: seq<Action>)
    decreases |acts|
  {
    acts == [] || (Enabled(s, acts[0]) && IsRun(seal, Apply(seal, s, acts[0]), acts[1..]))
  }

  function Outcome(seal: Seal, s: State, acts: seq<Action>): State
    requires IsRun(seal, s, acts)
    decreases |acts|
  {
    if acts == [] then s else Outcome(seal, Apply(seal, s, acts[0]), acts[1..])
  }

  // ---------------------------------------------------------------- invariant

  /** Job number `i` of the queue carries nonce number `i` of the key wheel. */
  ghost predicate NoncesFollowJobs(s: State) {
    && (forall j :: j in s.jobs <==> j in s.queue.pushed)
    && |s.queue.pushed| == |s.keys.used|
    && forall i :: 0 <= i < |s.queue.pushed| ==>
         s.queue.pushed[i] in s.jobs &&
         var job := s.jobs[s.queue.pushed[i]];
         s.keys.used[i] == (job.keypair.uid, job.counter)
  }

  /** A ready job's buffer holds its sealed packet. */
  ghost predicate ReadyIsSealed(seal: Seal, s: State) {
    && s.buffer.Keys == s.jobs.Keys
    && forall j :: j in s.queue.ready && j in s.jobs ==> s.buffer[j] == Sealed(seal, s.jobs[j])
  }

  ghost predicate WireFollowsQueue(seal: Seal, s: State) {
    && |s.wire| == |s.queue.finished|
    && forall i :: 0 <= i < |s.wire| ==>
         s.queue.finished[i] in s.jobs && s.wire[i] == Sealed(seal, s.jobs[s.queue.finished[i]])
  }

  /** The AEAD was used once for each ready job, and for no other. */
  ghost predicate CalledOnce(s: State) {
    && (forall i :: 0 <= i < |s.calls| ==>
          s.calls[i].0 in s.jobs && s.calls[i].0 in s.queue.ready && s.calls[i].1 == CallOf(s.jobs[s.calls[i].0]))
    && (forall i, k :: 0 <= i < k < |s.calls| ==> s.calls[i].0 != s.calls[k].0)
    && (forall j :: j in s.queue.ready && j in s.jobs ==> (j, CallOf(s.jobs[j])) in s.calls)
  }

  ghost predicate Coupled(seal: Seal, s: State) {
    NoncesFollowJobs(s) && CalledOnce(s) && ReadyIsSealed(seal, s) && WireFollowsQueue(seal, s)
  }

  ghost predicate Inv(seal: Seal, s: State) {
    Q.Inv(s.queue) && KeyWheel.Inv(s.keys) && Coupled(seal, s)
  }

  lemma SendShape(seal: Seal, s: State, job: Q.Job, msg: Bytes)
    requires Enabled(s, Action.Send(job, msg))
    ensures var s', taken := Apply(seal, s, Action.Send(job, msg)), TakeNonce(s.keys, Room(s)).1;
            && s'.keys == TakeNonce(s.keys, Room(s)).0 && s'.wire == s.wire
            && (taken.Nonce? ==>
                  && s'.keys.used == s.keys.used + [(taken.keypair.uid, taken.nonce)]
                  && s'.queue.pushed == s.queue.pushed + [job]
                  && s'.queue.ready == s.queue.ready && s'.queue.finished == s.queue.finished
                  && s'.jobs == s.jobs[job := SendJob(msg, taken.nonce, taken.keypair)]
                  && s'.buffer == s.buffer[job := msg])
            && (!taken.Nonce? ==>
                  && s'.keys.used == s.keys.used && s'.queue == s.queue
                  && s'.jobs == s.jobs && s'.buffer == s.buffer)
  {
  }

  lemma SendCoupled(seal: Seal, s: State, job: Q.Job, msg: Bytes)
    requires Q.Facts(s.queue) && Coupled(seal, s) && job !in s.queue.pushed
    requires Enabled(s, Action.Send(job, msg))
    ensures Coupled(seal, Apply(seal, s, Action.Send(job, msg)))
  {
    hide Apply, TakeNonce, Coupled, Enabled;
    SendShape(seal, s, job, msg);
    SendCallsNothing(seal, s, job, msg);
    var s', taken := Apply(seal, s, Action.Send(job, msg)), TakeNonce(s.keys, Room(s)).1;
    if taken.Nonce? {
      PushCoupled(seal, s, s', job, SendJob(msg, taken.nonce, taken.keypair));
    } else {
      KeysCoupled(seal, s, s');
    }
  }

  lemma KeysCoupled(seal: Seal, s: State, s': State)
    requires Coupled(seal, s) && s' == s.(keys := s'.keys) && s'.keys.used == s.keys.used
    ensures Coupled(seal, s')
  {
  }

  lemma PushCoupled(seal: Seal, s: State, s': State, job: Q.Job, x: SendJob)
    requires Q.Facts(s.queue) && Coupled(seal, s) && job !in s.queue.pushed
    requires s' == s.(queue := s'.queue, keys := s'.keys, jobs := s.jobs[job := x], buffer := s.buffer[job := x.msg])
    requires s'.queue.pushed == s.queue.pushed + [job] && s'.keys.used == s.keys.used + [(x.keypair.uid, x.counter)]
    requires s'.queue.ready == s.queue.ready && s'.queue.finished == s.queue.finished
    ensures Coupled(seal, s')
  {
    hide Sealed, CallOf, Q.Facts;
    assert job !in s.queue.ready && job !in s.jobs by { NewJob(s, job); }
    PushNonces(s, s', job, x);
    hide NoncesFollowJobs;
    PushCalls(s, s', job, x);
  }

  lemma NewJob(s: State, job: Q.Job)
    requires Q.Facts(s.queue) && NoncesFollowJobs(s) && job !in s.queue.pushed
    ensures job !in s.queue.ready && job !in s.jobs
  {
  }

  lemma PushNonces(s: State, s': State, job: Q.Job, x: SendJob)
    requires NoncesFollowJobs(s) && job !in s.jobs && s'.jobs == s.jobs[job := x]
    requires s'.queue.pushed == s.queue.pushed + [job] && s'.keys.used == s.keys.used + [(x.keypair.uid, x.counter)]
    ensures NoncesFollowJobs(s')
  {
  }

  lemma PushCalls(s: State, s': State, job: Q.Job, x: SendJob)
    requires CalledOnce(s) && job !in s.jobs && job !in s.queue.ready && s'.jobs == s.jobs[job := x]
    requires s'.queue.ready == s.queue.ready && s'.calls == s.calls
    ensures CalledOnce(s')
  {
    hide CallOf;
  }

  lemma SendCallsNothing(seal: Seal, s: State, job: Q.Job, msg: Bytes)
    requires Enabled(s, Action.Send(job, msg))
    ensures Apply(seal, s, Action.Send(job, msg)).calls == s.calls
  {
  }

  lemma WorkShape(seal: Seal, s: State, w: Q.Action)
    requires Enabled(s, Work(w)) && Q.Facts(s.queue) && Coupled(seal, s)
    ensures var s' := Apply(seal, s, Work(w));
            && s'.queue.pushed == s.queue.pushed && s'.keys == s.keys && s'.jobs == s.jobs
            && (if w.MarkReady? then
                  var j := s.queue.threads[w.thread].job;
                  && j in s.jobs && j !in s.queue.ready
                  && s'.queue.ready == s.queue.ready + {j} && s'.buffer == s.buffer[j := Sealed(seal, s.jobs[j])]
                  && s'.calls == s.calls + [(j, CallOf(s.jobs[j]))]
                else s'.queue.ready == s.queue.ready && s'.buffer == s.buffer && s'.calls == s.calls)
            && (if w.Finish? then
                  var j := s.queue.threads[w.thread].job;
                  && j in s.jobs && j in s.queue.ready && j in s.buffer
                  && s'.queue.finished == s.queue.finished + [j] && s'.wire == s.wire + [s.buffer[j]]
                else s'.queue.finished == s.queue.finished && s'.wire == s.wire)
  {
    hide Sealed, CallOf;
  }

  lemma WorkCoupled(seal: Seal, s: State, w: Q.Action)
    requires Q.Facts(s.queue) && Coupled(seal, s) && Enabled(s, Work(w))
    ensures Coupled(seal, Apply(seal, s, Work(w)))
  {
    hide Q.Facts, Apply, Sealed, Coupled, NoncesFollowJobs, CalledOnce, ReadyIsSealed, WireFollowsQueue;
    WorkShape(seal, s, w);
    var s' := Apply(seal, s, Work(w));
    if w.MarkReady? {
      MarkCoupled(seal, s, s', s.queue.threads[w.thread].job);
    } else if w.Finish? {
      FinishCoupled(seal, s, s', s.queue.threads[w.thread].job);
    } else {
      IdleCoupled(seal, s, s');
    }
  }

  lemma IdleCoupled(seal: Seal, s: State, s': State)
    requires Coupled(seal, s) && s' == s.(queue := s'.queue)
    requires s'.queue.pushed == s.queue.pushed && s'.queue.ready == s.queue.ready
             && s'.queue.finished == s.queue.finished
    ensures Coupled(seal, s')
  {
  }

  lemma MarkCoupled(seal: Seal, s: State, s': State, j: Q.Job)
    requires Coupled(seal, s) && j in s.jobs && j !in s.queue.ready
    requires s' == s.(queue := s'.queue, buffer := s.buffer[j := Sealed(seal, s.jobs[j])],
             calls := s.calls + [(j, CallOf(s.jobs[j]))])
    requires s'.queue.pushed == s.queue.pushed && s'.queue.ready == s.queue.ready + {j}
             && s'.queue.finished == s.queue.finished
    ensures Coupled(seal, s')
  {
    hide Sealed, CallOf;
  }

  lemma FinishCoupled(seal: Seal, s: State, s': State, j: Q.Job)
    requires Coupled(seal, s) && j in s.jobs && j in s.queue.ready && j in s.buffer
    requires s' == s.(queue := s'.queue, wire := s.wire + [s.buffer[j]])
    requires s'.queue.pushed == s.queue.pushed && s'.queue.ready == s.queue.ready
             && s'.queue.finished == s.queue.finished + [j]
    ensures Coupled(seal, s')
  {
    hide Sealed, CallOf;
  }

  /** The step that makes the queue's counter wrap. */
  predicate Overflows(s: State, a: Action) {
    a.Work? && Q.Overflows(s.queue, a.queueAction)
  }

  predicate NoOverflow(seal: Seal, s: State, acts: seq<Action>)
    requires IsRun(seal, s, acts)
    decreases |acts|
  {
    acts == [] || (!Overflows(s, acts[0]) && NoOverflow(seal, Apply(seal, s, acts[0]), acts[1..]))
  }

  /** The calls of `consume` in a run. */
  function Calls(acts: seq<Action>): nat {
    if acts == [] then 0
    else (if acts[0].Work? && acts[0].queueAction.FetchAdd? then 1 else 0) + Calls(acts[1..])
  }

  lemma ApplyInv(seal: Seal, s: State, a: Action)
    requires Inv(seal, s) && Q.NoPanic(s.queue) && Enabled(s, a) && !Overflows(s, a)
    ensures Inv(seal, Apply(seal, s, a)) && Q.NoPanic(Apply(seal, s, a).queue)
  {
    hide Q.Inv, Q.Facts, KeyWheel.Inv, KeyWheel.Apply;
    Q.InvFacts(s.queue);
    QueueStep(seal, s, a);
    KeysStep(seal, s, a);
    match a
    case Send(job, msg) => SendCoupled(seal, s, job, msg);
    case TurnKeys(k) => TurnedKeysKeepLog(s.keys, k);
    case Work(w) => WorkCoupled(seal, s, w);
  }

  lemma QueueStep(seal: Seal, s: State, a: Action)
    requires Q.Inv(s.queue) && Q.NoPanic(s.queue) && Enabled(s, a) && !Overflows(s, a)
    ensures Q.Inv(Apply(seal, s, a).queue) && Q.NoPanic(Apply(seal, s, a).queue)
    ensures Apply(seal, s, a).queue.contenders <=
            s.queue.contenders + if a.Work? && a.queueAction.FetchAdd? then 1 else 0
  {
    hide Q.Inv, Q.NoPanic;
    match a
    case Send(job, msg) =>
      SendShape(seal, s, job, msg);
      if TakeNonce(s.keys, Room(s)).1.Nonce? {
        Q.SafeStep(s.queue, Q.Action.Push(job));
      }
    case TurnKeys(k) =>
    case Work(w) =>
      Q.CounterStep(s.queue, w);
      Q.SafeStep(s.queue, w);
  }

  lemma KeysStep(seal: Seal, s: State, a: Action)
    requires KeyWheel.Inv(s.keys) && Enabled(s, a)
    ensures KeyWheel.Inv(Apply(seal, s, a).keys)
  {
    match a
    case Send(job, msg) =>
      SendShape(seal, s, job, msg);
      StepInv(s.keys, KeyWheel.Action.Send(Room(s)));
    case TurnKeys(k) => StepInv(s.keys, k);
    case Work(w) =>
  }

  lemma TurnedKeysKeepLog(k: Keys, a: KeyWheel.Action)
    requires !a.Send?
    ensures KeyWheel.Apply(k, a).used == k.used
  {
  }

  lemma {:induction false} RunInv(seal: Seal, s: State, acts: seq<Action>)
    requires Inv(seal, s) && Q.NoPanic(s.queue) && IsRun(seal, s, acts) && NoOverflow(seal, s, acts)
    ensures Inv(seal, Outcome(seal, s, acts))
    decreases |acts|
  {
    if acts != [] {
      ApplyInv(seal, s, acts[0]);
      RunInv(seal, Apply(seal, s, acts[0]), acts[1..]);
    }
  }

  lemma {:induction false} FewCallsDoNotOverflow(seal: Seal, s: State, acts: seq<Action>)
    requires Inv(seal, s) && Q.NoPanic(s.queue) && IsRun(seal, s, acts) && s.queue.contenders + Calls(acts) < TWO_64
    ensures NoOverflow(seal, s, acts)
    decreases |acts|
  {
    if acts != [] {
      ApplyInv(seal, s, acts[0]);
      QueueStep(seal, s, acts[0]);
      FewCallsDoNotOverflow(seal, Apply(seal, s, acts[0]), acts[1..]);
    }
  }

  lemma InitialInv(seal: Seal, workers: nat)
    ensures Inv(seal, Initial(workers)) && Q.NoPanic(Initial(workers).queue)
  {
    Q.InitialInv(workers);
  }

  /** A run with fewer than 2^64 calls of `consume`, or at least with none that wraps its counter. */
  ghost predicate Reachable(seal: Seal, workers: nat, acts: seq<Action>, s: State) {
    && IsRun(seal, Initial(workers), acts) && s == Outcome(seal, Initial(workers), acts)
    && (Calls(acts) < TWO_64 || NoOverflow(seal, Initial(workers), acts))
  }

  lemma ReachableInv(seal: Seal, workers: nat, acts: seq<Action>, s: State)
    requires Reachable(seal, workers, acts, s)
    ensures Inv(seal, s)
  {
    InitialInv(seal, workers);
    if Calls(acts) < TWO_64 {
      FewCallsDoNotOverflow(seal, Initial(workers), acts);
    }
    RunInv(seal, Initial(workers), acts);
  }

  lemma PrefixOnWire(seal: Seal, s: State)
    requires Q.Facts(s.queue) && WireFollowsQueue(seal, s)
    ensures |s.wire| <= |s.queue.pushed|
    ensures forall i :: 0 <= i < |s.wire| ==>
              s.queue.pushed[i] in s.jobs && s.wire[i] == Sealed(seal, s.jobs[s.queue.pushed[i]])
  {
    assert s.queue.finished <= s.queue.pushed;
    assert forall i :: 0 <= i < |s.wire| ==> s.queue.finished[i] == s.queue.pushed[i];
  }

  /**
   * Whatever the order in which workers encrypt, the wire carries the sealed packets of a
   * prefix of the pushed jobs, in push order.
   */
  lemma WireIsSealedPrefix(seal: Seal, workers: nat, acts: seq<Action>, s: State)
    requires Reachable(seal, workers, acts, s)
    ensures |s.wire| <= |s.queue.pushed|
    ensures forall i :: 0 <= i < |s.wire| ==>
              s.queue.pushed[i] in s.jobs && s.wire[i] == Sealed(seal, s.jobs[s.queue.pushed[i]])
  {
    ReachableInv(seal, workers, acts, s);
    Q.InvFacts(s.queue);
    PrefixOnWire(seal, s);
  }

  /**
   * For each key pair packets are transmitted in strictly rising counter order: the counters
   * are those in the transport headers on the wire.
   */
  lemma CountersRiseOnTheWire(seal: Seal, workers: nat, acts: seq<Action>, s: State, i: nat, k: nat)
    requires Reachable(seal, workers, acts, s) && i < k < |s.wire|
    ensures |s.wire| <= |s.queue.pushed|
    ensures var a, b := s.queue.pushed[i], s.queue.pushed[k];
            && a in s.jobs && b in s.jobs && |s.wire[i]| >= SIZE_HEADER && |s.wire[k]| >= SIZE_HEADER
            && HeaderReceiver(s.wire[i]) == s.jobs[a].keypair.send.id
            && (s.jobs[a].keypair.uid == s.jobs[b].keypair.uid ==>
                  HeaderCounter(s.wire[i]) < HeaderCounter(s.wire[k]))
  {
    ReachableInv(seal, workers, acts, s);
    WireIsSealedPrefix(seal, workers, acts, s);
    var a, b := s.jobs[s.queue.pushed[i]], s.jobs[s.queue.pushed[k]];
    assert s.keys.used[i] == (a.keypair.uid, a.counter) && s.keys.used[k] == (b.keypair.uid, b.counter);
    HeaderRoundTrip(a.keypair.send.id, a.counter, s.wire[i][SIZE_HEADER..]);
    HeaderRoundTrip(b.keypair.send.id, b.counter, s.wire[k][SIZE_HEADER..]);
    assert s.wire[i] == Header(a.keypair.send.id, a.counter) + s.wire[i][SIZE_HEADER..];
    assert s.wire[k] == Header(b.keypair.send.id, b.counter) + s.wire[k][SIZE_HEADER..];
  }

  // ------------------------------------------------------------- what is sealed

  /** Every job is what some `send` of the run submitted under its name. */
  lemma {:induction false} JobsAreSubmitted(seal: Seal, s: State, acts: seq<Action>)
    requires IsRun(seal, s, acts)
    ensures forall j :: j in Outcome(seal, s, acts).jobs ==>
              || (j in s.jobs && Outcome(seal, s, acts).jobs[j] == s.jobs[j])
              || Action.Send(j, Outcome(seal, s, acts).jobs[j].msg) in acts
    decreases |acts|
  {
    if acts != [] {
      var s1, rest := Apply(seal, s, acts[0]), acts[1..];
      JobsAreSubmitted(seal, s1, rest);
      forall j | j in Outcome(seal, s, acts).jobs
        ensures || (j in s.jobs && Outcome(seal, s, acts).jobs[j] == s.jobs[j])
                || Action.Send(j, Outcome(seal, s, acts).jobs[j].msg) in acts
      {
        if j in s1.jobs && Outcome(seal, s, acts).jobs[j] == s1.jobs[j] {
          if acts[0].Send? { SendShape(seal, s, acts[0].job, acts[0].msg); }
          assert (j in s.jobs && s1.jobs[j] == s.jobs[j]) || acts[0] == Action.Send(j, s1.jobs[j].msg);
        } else {
          assert rest <= acts[1..];
        }
      }
    }
  }

  type Open = (Bytes, nat, Bytes) -> Option<Bytes>

  ghost predicate OpensWhatItSeals(seal: Seal, open: Open) {
    forall key, nonce, body :: open(key, nonce, seal(key, nonce, body)) == Some(body)
  }

  /**
   * For every AEAD that opens what it seals: each packet on the wire is one use of it, and opens,
   * under the sender's key and the counter in its own header, to exactly the body that some
   * `send` submitted.
   */
  lemma WireOpensToSubmitted(seal: Seal, open: Open, workers: nat, acts: seq<Action>, s: State, i: nat)
    requires OpensWhatItSeals(seal, open) && Reachable(seal, workers, acts, s) && i < |s.wire|
    ensures i < |s.queue.pushed| && s.queue.pushed[i] in s.jobs
    ensures var job := s.jobs[s.queue.pushed[i]];
            && Action.Send(s.queue.pushed[i], job.msg) in acts && |job.msg| >= SIZE_HEADER
            && |s.wire[i]| >= SIZE_HEADER && HeaderCounter(s.wire[i]) < REJECT_AFTER_MESSAGES - 1
            && open(job.keypair.send.key, HeaderCounter(s.wire[i]), s.wire[i][SIZE_HEADER..]) ==
               Some(job.msg[SIZE_HEADER..])
            && var call := SealCall(job.keypair.send.key, HeaderCounter(s.wire[i]), job.msg[SIZE_HEADER..]);
            && (s.queue.pushed[i], call) in s.calls
            && s.wire[i][SIZE_HEADER..] == seal(call.key, call.nonce, call.body)
  {
    hide Inv;
    WireIsSealedPrefix(seal, workers, acts, s);
    JobsAreSubmitted(seal, Initial(workers), acts);
    var j := s.queue.pushed[i];
    var job := s.jobs[j];
    SubmittedIsPadded(seal, Initial(workers), acts, j, job.msg);
    HeaderRoundTrip(job.keypair.send.id, job.counter, s.wire[i][SIZE_HEADER..]);
    assert s.wire[i] == Header(job.keypair.send.id, job.counter) + s.wire[i][SIZE_HEADER..];
    assert s.wire[i][SIZE_HEADER..] == seal(job.keypair.send.key, job.counter, job.msg[SIZE_HEADER..]);
    CountersAreTaken(seal, workers, acts, s, i);
    FinishedIsCalled(seal, workers, acts, s, i);
  }

  lemma FinishedIsCalled(seal: Seal, workers: nat, acts: seq<Action>, s: State, i: nat)
    requires Reachable(seal, workers, acts, s) && i < |s.wire|
    ensures i < |s.queue.pushed| && s.queue.pushed[i] in s.jobs
    ensures (s.queue.pushed[i], CallOf(s.jobs[s.queue.pushed[i]])) in s.calls
  {
    WireIsSealedPrefix(seal, workers, acts, s);
    ReachableInv(seal, workers, acts, s);
    Q.InvReady(s.queue);
    assert s.queue.finished[i] == s.queue.pushed[i];
  }

  lemma {:induction false} SubmittedIsPadded(seal: Seal, s: State, acts: seq<Action>, j: Q.Job, msg: Bytes)
    requires IsRun(seal, s, acts) && Action.Send(j, msg) in acts
    ensures |msg| >= SIZE_MESSAGE_PREFIX
    decreases |acts|
  {
    if acts[0] != Action.Send(j, msg) {
      SubmittedIsPadded(seal, Apply(seal, s, acts[0]), acts[1..], j, msg);
    }
  }

  /** The counters of the jobs are the nonces that were taken, in push order. */
  lemma CountersAreTaken(seal: Seal, workers: nat, acts: seq<Action>, s: State, i: nat)
    requires Reachable(seal, workers, acts, s) && i < |s.queue.pushed|
    ensures s.queue.pushed[i] in s.jobs && s.jobs[s.queue.pushed[i]].counter < REJECT_AFTER_MESSAGES - 1
    ensures forall k :: i < k < |s.queue.pushed| ==>
              && s.queue.pushed[k] in s.jobs
              && var a, b := s.jobs[s.queue.pushed[i]], s.jobs[s.queue.pushed[k]];
                 a.keypair.uid == b.keypair.uid ==> a.counter < b.counter
  {
    hide Q.Inv, CalledOnce, ReadyIsSealed, WireFollowsQueue, Reachable;
    ReachableInv(seal, workers, acts, s);
    assert s.keys.used[i] == (s.jobs[s.queue.pushed[i]].keypair.uid, s.jobs[s.queue.pushed[i]].counter);
    forall k | i < k < |s.queue.pushed|
      ensures && s.queue.pushed[k] in s.jobs
              && var a, b := s.jobs[s.queue.pushed[i]], s.jobs[s.queue.pushed[k]];
                 a.keypair.uid == b.keypair.uid ==> a.counter < b.counter
    {
      assert s.keys.used[k] == (s.jobs[s.queue.pushed[k]].keypair.uid, s.jobs[s.queue.pushed[k]].counter);
    }
  }

  /** Different key pairs have different sending keys. */
  ghost predicate KeysDiffer(s: State) {
    forall j, k :: j in s.jobs && k in s.jobs && s.jobs[j].keypair.send.key == s.jobs[k].keypair.send.key ==>
      s.jobs[j].keypair.uid == s.jobs[k].keypair.uid
  }

  /**
   * Over every run the AEAD is never used twice with the same key and nonce, if different key
   * pairs have different keys.
   */
  lemma NoNonceIsSealedTwice(seal: Seal, workers: nat, acts: seq<Action>, s: State, i: nat, k: nat)
    requires Reachable(seal, workers, acts, s) && i < k < |s.calls| && KeysDiffer(s)
    ensures (s.calls[i].1.key, s.calls[i].1.nonce) != (s.calls[k].1.key, s.calls[k].1.nonce)
  {
    hide Reachable;
    var a := CallIsFor(seal, workers, acts, s, i);
    var b := CallIsFor(seal, workers, acts, s, k);
    CallsAreApart(seal, workers, acts, s, i, k);
    CountersAreTaken(seal, workers, acts, s, if a < b then a else b);
  }

  /** A use of the AEAD is that of some pushed job. */
  lemma CallIsFor(seal: Seal, workers: nat, acts: seq<Action>, s: State, i: nat) returns (a: nat)
    requires Reachable(seal, workers, acts, s) && i < |s.calls|
    ensures a < |s.queue.pushed| && s.queue.pushed[a] == s.calls[i].0 && s.calls[i].0 in s.jobs
    ensures var job := s.jobs[s.calls[i].0];
            s.calls[i].1.key == job.keypair.send.key
            && s.calls[i].1.nonce == job.counter
  {
    hide Q.Inv, KeyWheel.Inv, ReadyIsSealed, WireFollowsQueue, Reachable;
    ReachableInv(seal, workers, acts, s);
    assert s.calls[i].0 in s.queue.pushed;
    a :| 0 <= a < |s.queue.pushed| && s.queue.pushed[a] == s.calls[i].0;
  }

  lemma CallsAreApart(seal: Seal, workers: nat, acts: seq<Action>, s: State, i: nat, k: nat)
    requires Reachable(seal, workers, acts, s) && i < k < |s.calls|
    ensures s.calls[i].0 != s.calls[k].0
  {
    hide Q.Inv, KeyWheel.Inv, ReadyIsSealed, WireFollowsQueue, NoncesFollowJobs, Reachable;
    ReachableInv(seal, workers, acts, s);
  }

  // ------------------------------------------------------------ the job object

  /** The AEAD lengthens what it seals by the tag. */
  predicate SealsWithTag(seal: Seal, key: Bytes, nonce: nat, body: Bytes) {
    |seal(key, nonce, body)| == |body| + SIZE_TAG
  }

  /** A job with its buffer: padded plaintext at first, the transport message once it is ready. */
  class OutboundJob {
    const counter: u64
    const keypair: KeyPair
    var ready: bool
    var buffer: Bytes

    constructor (msg: Bytes, counter: u64, keypair: KeyPair)
      ensures !ready && buffer == msg && this.counter == counter && this.keypair == keypair
    {
      ready, buffer, this.counter, this.keypair := false, msg, counter, keypair;
    }

    /** Overwrites the bytes of the buffer from `at` on. */
    method Put(at: nat, bytes: Bytes)
      requires at + |bytes| <= |buffer|
      modifies this`buffer
      ensures buffer == old(buffer)[..at] + bytes + old(buffer)[at + |bytes|..]
    {
      buffer := buffer[..at] + bytes + buffer[at + |bytes|..];
    }

    /** The three header fields, in front of everything else. */
    method SetHeader()
      requires |buffer| >= SIZE_HEADER
      modifies this`buffer
      ensures buffer == Header(keypair.send.id, counter) + old(buffer)[SIZE_HEADER..]
    {
      hide Le, Header;
      ghost var rest := buffer[SIZE_HEADER..];
      Put(0, Le(TYPE_TRANSPORT, 4));
      assert buffer[..4] == Le(TYPE_TRANSPORT, 4) && buffer[SIZE_HEADER..] == rest;
      Put(4, Le(keypair.send.id, 4));
      assert buffer[..4] == Le(TYPE_TRANSPORT, 4) && buffer[4..8] == Le(keypair.send.id, 4);
      assert buffer[SIZE_HEADER..] == rest;
      Put(8, Le(counter, 8));
      HeaderInPlace(buffer, keypair.send.id, counter, rest);
    }

    /** The body is sealed in place, the tag goes behind it. */
    method SealBody(seal: Seal)
      requires |buffer| >= SIZE_HEADER + SIZE_TAG
      requires SealsWithTag(seal, keypair.send.key, counter, buffer[SIZE_HEADER..|buffer| - SIZE_TAG])
      modifies this`buffer
      ensures buffer == old(buffer)[..SIZE_HEADER] +
                        seal(keypair.send.key, counter, old(buffer)[SIZE_HEADER..|old(buffer)| - SIZE_TAG])
    {
      var tagOffset := |buffer| - SIZE_TAG;
      var sealed := seal(keypair.send.key, counter, buffer[SIZE_HEADER..tagOffset]);
      var split := tagOffset - SIZE_HEADER;
      Put(SIZE_HEADER, sealed[..split]);
      Put(tagOffset, sealed[split..]);
      assert sealed == sealed[..split] + sealed[split..];
    }

    /** `parallel_work`: room for the tag, header, body, tag, and only then ready. */
    method ParallelWork(seal: Seal)
      requires !ready && |buffer| >= SIZE_MESSAGE_PREFIX
      requires SealsWithTag(seal, keypair.send.key, counter, buffer[SIZE_MESSAGE_PREFIX..])
      modifies this
      ensures ready && buffer == Sealed(seal, SendJob(old(buffer), counter, keypair))
      ensures HeaderReceiver(buffer) == keypair.send.id && HeaderCounter(buffer) == counter
      ensures buffer[SIZE_HEADER..] == seal(keypair.send.key, counter, old(buffer)[SIZE_HEADER..])
    {
      hide Header, Zeros, Le;
      ghost var body := buffer[SIZE_MESSAGE_PREFIX..];
      buffer := buffer + Zeros(SIZE_TAG);
      assert buffer[SIZE_HEADER..] == body + Zeros(SIZE_TAG);
      SetHeader();
      assert buffer[SIZE_HEADER..|buffer| - SIZE_TAG] == body;
      assert buffer[..SIZE_HEADER] == Header(keypair.send.id, counter);
      SealBody(seal);
      HeaderRoundTrip(keypair.send.id, counter, buffer[SIZE_HEADER..]);
      assert buffer == Header(keypair.send.id, counter) + buffer[SIZE_HEADER..];
      ready := true;
    }
  }

  lemma {:induction false} HeaderInPlace(buffer: Bytes, receiver: u32, counter: u64, rest: Bytes)
    requires |buffer| >= SIZE_HEADER && buffer[SIZE_HEADER..] == rest
    requires buffer[..4] == Le(TYPE_TRANSPORT, 4) && buffer[4..8] == Le(receiver, 4) && buffer[8..16] == Le(counter, 8)
    ensures buffer == Header(receiver, counter) + rest
  {
    hide Le;
    assert buffer == buffer[..4] + buffer[4..8] + buffer[8..16] + buffer[16..];
  }
}
