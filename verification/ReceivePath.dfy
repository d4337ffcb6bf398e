/**
 * The inbound path of a peer: workers authenticate packets in any order, the in-order queue
 * then checks each for replay, confirms its key and delivers it
 * (src/wireguard/router/receive.rs, device.rs, queue.rs, worker.rs).
 */
module ReceivePath {
  import opened Base
  import opened Codec
  import KW = KeyWheel
  import AR = AntiReplay
  import Q = InOrderQueue

  const REJECT_AFTER_MESSAGES: nat := KW.REJECT_AFTER_MESSAGES

  /** The identity of a decryption state: one per key pair. */
  type DecryptionId = nat

  type Endpoint = nat

  /** A packet as it came in, with the decryption state its receiver id led to. */
  datatype ReceiveJob = ReceiveJob(state: DecryptionId, packet: Bytes, endpoint: Endpoint)

  /**
   * The foreign calls: opening a body under a decryption key and a counter nonce,
   * the crypto-key route check of an opened packet, and the length in its IP header.
   */
  datatype Env = Env(
    open: (DecryptionId, nat, Bytes) -> Option<Bytes>,
    route: Bytes -> bool,
    innerLength: Bytes -> Option<nat>)

  // ------------------------------------------------------------ parallel work

  /** The packet after decryption in place: the plaintext, then the bytes of the tag. */
  function Opened(env: Env, job: ReceiveJob): Option<Bytes> {
    if |job.packet| < SIZE_HEADER then None
    else
      var body := job.packet[SIZE_HEADER..];
      match env.open(job.state, HeaderCounter(job.packet), body)
      case None => None
      case Some(plain) =>
        if |body| < SIZE_TAG then None else Some(plain + body[|body| - SIZE_TAG..])
  }

  /** Authentication, the counter limit and the route check. */
  predicate Passes(env: Env, job: ReceiveJob) {
    var plain := Opened(env, job);
    && plain.Some?
    && HeaderCounter(job.packet) < REJECT_AFTER_MESSAGES
    && (|plain.value| == SIZE_TAG || env.route(plain.value))
  }

  /** The buffer that `parallel_work` leaves: truncated to nothing on failure. */
  function Decrypted(env: Env, job: ReceiveJob): Bytes {
    if Passes(env, job) then job.packet[..SIZE_HEADER] + Opened(env, job).value else []
  }

  // ---------------------------------------------------------- sequential work

  datatype Event =
    | Confirm(state: DecryptionId)
    | Tun(bytes: Bytes)
    | Callback(state: DecryptionId, size: nat)

  /** What the sequential part changes. */
  datatype Sink = Sink(
    windows: map<DecryptionId, AR.Window>,
    confirmed: set<DecryptionId>,
    endpoint: Option<Endpoint>,
    events: seq<Event>,
    // history: the (decryption state, counter) of every message passed on
    passed: seq<(DecryptionId, nat)>)

  function WindowOf(o: Sink, state: DecryptionId): AR.Window {
    if state in o.windows then o.windows[state] else AR.EMPTY
  }

  function TunEvents(env: Env, body: Bytes): seq<Event> {
    match env.innerLength(body)
    case Some(inner) => if inner + SIZE_TAG <= |body| then [Tun(body[..inner])] else []
    case None => []
  }

  function Deliver(env: Env, o: Sink, job: ReceiveJob, buffer: Bytes): Sink {
    if |buffer| < SIZE_HEADER then o
    else
      var counter := HeaderCounter(buffer);
      var window := WindowOf(o, job.state);
      if !AR.Fresh(window, counter) then o
      else
        var confirm := if job.state in o.confirmed then [] else [Confirm(job.state)];
        Sink(o.windows[job.state := AR.Accept(window, counter)],
             o.confirmed + {job.state},
             Some(job.endpoint),
             o.events + confirm + TunEvents(env, buffer[SIZE_HEADER..]) + [Callback(job.state, |buffer|)],
             o.passed + [(job.state, counter)])
  }

  /** The reference: handle the jobs one after the other, with no concurrency at all. */
  function OneByOne(env: Env, start: Sink, jobs: seq<ReceiveJob>): Sink {
    if jobs == [] then start
    else
      var last := jobs[|jobs| - 1];
      Deliver(env, OneByOne(env, start, jobs[..|jobs| - 1]), last, Decrypted(env, last))
  }

  // ------------------------------------------------------------------ machine

  datatype State = State(
    queue: Q.State,
    jobs: map<Q.Job, ReceiveJob>,
    buffer: map<Q.Job, Bytes>,
    sink: Sink)

  datatype Action =
    | Receive(job: Q.Job, input: ReceiveJob)
    | Work(queueAction: Q.Action)

  predicate Enabled(s: State, a: Action) {
    match a
    case Receive(job, input) => Q.Enabled(s.queue, Q.Action.Push(job))
    case Work(w) => !w.Push? && Q.Enabled(s.queue, w)
  }

  function Apply(env: Env, s: State, a: Action): State
    requires Enabled(s, a)
  {
    match a
    case Receive(job, input) =>
      // dropped before the queue if the header does not parse, or by a full queue
      if |input.packet| >= SIZE_HEADER && |s.queue.queue| < INORDER_QUEUE_SIZE then
        s.(queue := Q.Apply(s.queue, Q.Action.Push(job)),
           jobs := s.jobs[job := input],
           buffer := s.buffer[job := input.packet])
      else
        s
    case Work(w) =>
      var s1 := s.(queue := Q.Apply(s.queue, w));
      match w
      case MarkReady(t) =>
        var j := s.queue.threads[t].job;
        if j in s.jobs then s1.(buffer := s.buffer[j := Decrypted(env, s.jobs[j])]) else s1
      case Finish(t) =>
        var j := s.queue.threads[t].job;
        if j in s.jobs && j in s.buffer then s1.(sink := Deliver(env, s.sink, s.jobs[j], s.buffer[j])) else s1
      case _ => s1
  }

  /** Key pairs of which we are the initiator start out confirmed. */
  function Start(confirmed: set<DecryptionId>): Sink {
    Sink(map[], confirmed, None, [], [])
  }

  function Initial(workers: nat, confirmed: set<DecryptionId>): State {
    State(Q.Initial(workers), map[], map[], Start(confirmed))
  }

  predicate IsRun(env: Env, s: State, acts: seq<Action>)
    decreases |acts|
  {
    acts == [] || (Enabled(s, acts[0]) && IsRun(env, Apply(env, s, acts[0]), acts[1..]))
  }

  function Outcome(env: Env, s: State, acts: seq<Action>): State
    requires IsRun(env, s, acts)
    decreases |acts|
  {
    if acts == [] then s else Outcome(env, Apply(env, s, acts[0]), acts[1..])
  }

  // ---------------------------------------------------------------- invariant

  /** The inputs of the jobs of a queue history. */
  function Inputs(jobs: map<Q.Job, ReceiveJob>, ids: seq<Q.Job>): (inputs: seq<ReceiveJob>)
    requires forall i :: 0 <= i < |ids| ==> ids[i] in jobs
    ensures |inputs| == |ids|
    ensures forall i :: 0 <= i < |ids| ==> inputs[i] == jobs[ids[i]]
  {
    seq(|ids|, i requires 0 <= i < |ids| => jobs[ids[i]])
  }

  ghost predicate Coupled(env: Env, start: Sink, s: State) {
    && (forall j :: j in s.jobs <==> j in s.queue.pushed)
    && s.buffer.Keys == s.jobs.Keys
    && (forall j :: j in s.queue.ready && j in s.jobs ==> s.buffer[j] == Decrypted(env, s.jobs[j]))
    && (forall i :: 0 <= i < |s.queue.finished| ==> s.queue.finished[i] in s.jobs)
    && s.sink == OneByOne(env, start, Inputs(s.jobs, s.queue.finished))
  }

  ghost predicate Inv(env: Env, start: Sink, s: State) {
    Q.Inv(s.queue) && Coupled(env, start, s)
  }

  lemma ReceiveCoupled(env: Env, start: Sink, s: State, job: Q.Job, input: ReceiveJob)
    requires Q.Facts(s.queue) && Coupled(env, start, s) && Enabled(s, Receive(job, input))
    ensures Coupled(env, start, Apply(env, s, Receive(job, input)))
  {
    var s' := Apply(env, s, Receive(job, input));
    assert forall i :: 0 <= i < |s.queue.finished| ==> s.queue.finished[i] in s.queue.pushed;
    assert Inputs(s'.jobs, s'.queue.finished) == Inputs(s.jobs, s.queue.finished);
  }

  lemma WorkShape(env: Env, start: Sink, s: State, w: Q.Action)
    requires Enabled(s, Work(w)) && Q.Facts(s.queue) && Coupled(env, start, s)
    ensures var s' := Apply(env, s, Work(w));
            && s'.queue.pushed == s.queue.pushed && s'.jobs == s.jobs
            && (if w.MarkReady? then
                  var j := s.queue.threads[w.thread].job;
                  && j in s.jobs && s'.queue.ready == s.queue.ready + {j}
                  && s'.buffer == s.buffer[j := Decrypted(env, s.jobs[j])]
                else s'.queue.ready == s.queue.ready && s'.buffer == s.buffer)
            && (if w.Finish? then
                  var j := s.queue.threads[w.thread].job;
                  && j in s.jobs && j in s.queue.ready
                  && s'.queue.finished == s.queue.finished + [j]
                  && s'.sink == Deliver(env, s.sink, s.jobs[j], Decrypted(env, s.jobs[j]))
                else s'.queue.finished == s.queue.finished && s'.sink == s.sink)
  {
    hide Decrypted, Deliver, OneByOne;
  }

  lemma InputsExtend(jobs: map<Q.Job, ReceiveJob>, ids: seq<Q.Job>, j: Q.Job)
    requires j in jobs && forall i :: 0 <= i < |ids| ==> ids[i] in jobs
    ensures Inputs(jobs, ids + [j]) == Inputs(jobs, ids) + [jobs[j]]
  {
  }

  lemma {:induction false} OneByOneExtend(env: Env, start: Sink, jobs: seq<ReceiveJob>, job: ReceiveJob)
    ensures OneByOne(env, start, jobs + [job]) == Deliver(env, OneByOne(env, start, jobs), job, Decrypted(env, job))
  {
    assert (jobs + [job])[..|jobs|] == jobs;
  }

  lemma WorkCoupled(env: Env, start: Sink, s: State, w: Q.Action)
    requires Q.Facts(s.queue) && Coupled(env, start, s) && Enabled(s, Work(w))
    ensures Coupled(env, start, Apply(env, s, Work(w)))
  {
    hide Q.Facts, Apply, Deliver, Decrypted, OneByOne, Coupled;
    WorkShape(env, start, s, w);
    var s' := Apply(env, s, Work(w));
    if w.MarkReady? {
      MarkCoupled(env, start, s, s', s.queue.threads[w.thread].job);
    } else if w.Finish? {
      FinishCoupled(env, start, s, s', s.queue.threads[w.thread].job);
    } else {
      IdleCoupled(env, start, s, s');
    }
  }

  lemma IdleCoupled(env: Env, start: Sink, s: State, s': State)
    requires Coupled(env, start, s) && s' == s.(queue := s'.queue)
    requires s'.queue.pushed == s.queue.pushed && s'.queue.ready == s.queue.ready
    requires s'.queue.finished == s.queue.finished
    ensures Coupled(env, start, s')
  {
    hide OneByOne, Decrypted;
  }

  lemma MarkCoupled(env: Env, start: Sink, s: State, s': State, j: Q.Job)
    requires Coupled(env, start, s) && j in s.jobs
    requires s' == s.(queue := s'.queue, buffer := s.buffer[j := Decrypted(env, s.jobs[j])])
    requires s'.queue.pushed == s.queue.pushed && s'.queue.ready == s.queue.ready + {j}
    requires s'.queue.finished == s.queue.finished
    ensures Coupled(env, start, s')
  {
    hide OneByOne, Decrypted;
  }

  lemma FinishCoupled(env: Env, start: Sink, s: State, s': State, j: Q.Job)
    requires Coupled(env, start, s) && j in s.jobs && j in s.queue.ready
    requires s' == s.(queue := s'.queue, sink := Deliver(env, s.sink, s.jobs[j], Decrypted(env, s.jobs[j])))
    requires s'.queue.pushed == s.queue.pushed && s'.queue.ready == s.queue.ready
    requires s'.queue.finished == s.queue.finished + [j]
    ensures Coupled(env, start, s')
  {
    hide OneByOne, Decrypted, Deliver;
    InputsExtend(s.jobs, s.queue.finished, j);
    OneByOneExtend(env, start, Inputs(s.jobs, s.queue.finished), s.jobs[j]);
  }

  /** The step that makes the queue's counter wrap. */
  predicate Overflows(s: State, a: Action) {
    a.Work? && Q.Overflows(s.queue, a.queueAction)
  }

  predicate NoOverflow(env: Env, s: State, acts: seq<Action>)
    requires IsRun(env, s, acts)
    decreases |acts|
  {
    acts == [] || (!Overflows(s, acts[0]) && NoOverflow(env, Apply(env, s, acts[0]), acts[1..]))
  }

  /** The calls of `consume` in a run. */
  function Calls(acts: seq<Action>): nat {
    if acts == [] then 0
    else (if acts[0].Work? && acts[0].queueAction.FetchAdd? then 1 else 0) + Calls(acts[1..])
  }

  lemma ApplyInv(env: Env, start: Sink, s: State, a: Action)
    requires Inv(env, start, s) && Q.NoPanic(s.queue) && Enabled(s, a) && !Overflows(s, a)
    ensures Inv(env, start, Apply(env, s, a)) && Q.NoPanic(Apply(env, s, a).queue)
  {
    hide Q.Inv, Q.Facts, Coupled;
    Q.InvFacts(s.queue);
    match a
    case Receive(job, input) =>
      ReceiveCoupled(env, start, s, job, input);
      Q.SafeStep(s.queue, Q.Action.Push(job));
    case Work(w) =>
      WorkCoupled(env, start, s, w);
      Q.SafeStep(s.queue, w);
  }

  lemma {:induction false} RunInv(env: Env, start: Sink, s: State, acts: seq<Action>)
    requires Inv(env, start, s) && Q.NoPanic(s.queue) && IsRun(env, s, acts) && NoOverflow(env, s, acts)
    ensures Inv(env, start, Outcome(env, s, acts))
    decreases |acts|
  {
    if acts != [] {
      ApplyInv(env, start, s, acts[0]);
      RunInv(env, start, Apply(env, s, acts[0]), acts[1..]);
    }
  }

  lemma {:induction false} FewCallsDoNotOverflow(env: Env, start: Sink, s: State, acts: seq<Action>)
    requires Inv(env, start, s) && Q.NoPanic(s.queue) && IsRun(env, s, acts)
    requires s.queue.contenders + Calls(acts) < TWO_64
    ensures NoOverflow(env, s, acts)
    decreases |acts|
  {
    if acts != [] {
      hide Inv, Q.NoPanic;
      ApplyInv(env, start, s, acts[0]);
      CounterStep(env, start, s, acts[0]);
      FewCallsDoNotOverflow(env, start, Apply(env, s, acts[0]), acts[1..]);
    }
  }

  lemma CounterStep(env: Env, start: Sink, s: State, a: Action)
    requires Inv(env, start, s) && Enabled(s, a)
    ensures Apply(env, s, a).queue.contenders <=
            s.queue.contenders + if a.Work? && a.queueAction.FetchAdd? then 1 else 0
  {
    match a
    case Receive(job, _) => Q.CounterStep(s.queue, Q.Action.Push(job));
    case Work(w) => Q.CounterStep(s.queue, w);
  }

  /** A run with fewer than 2^64 calls of `consume`, or at least with none that wraps its counter. */
  ghost predicate Reachable(env: Env, workers: nat, confirmed: set<DecryptionId>, acts: seq<Action>, s: State) {
    && IsRun(env, Initial(workers, confirmed), acts)
    && s == Outcome(env, Initial(workers, confirmed), acts)
    && (Calls(acts) < TWO_64 || NoOverflow(env, Initial(workers, confirmed), acts))
  }

  /**
   * In every interleaving of parallel decryption and in-order completion, everything passed on
   * is what handling the finished packets one by one, in arrival order, would have passed on.
   */
  lemma {:induction false} SameAsOneByOne(env: Env, workers: nat, confirmed: set<DecryptionId>, acts: seq<Action>,
                                          s: State)
    requires Reachable(env, workers, confirmed, acts, s)
    ensures s.queue.finished <= s.queue.pushed
    ensures forall i :: 0 <= i < |s.queue.finished| ==> s.queue.finished[i] in s.jobs
    ensures s.sink == OneByOne(env, Start(confirmed), Inputs(s.jobs, s.queue.finished))
  {
    Q.InitialInv(workers);
    if Calls(acts) < TWO_64 {
      FewCallsDoNotOverflow(env, Start(confirmed), Initial(workers, confirmed), acts);
    }
    RunInv(env, Start(confirmed), Initial(workers, confirmed), acts);
    Q.InvFacts(s.queue);
  }

  // --------------------------------------------------- what one by one passes on

  /** Every counter passed on is in its window, which knows nothing else. */
  ghost predicate WindowsMatch(o: Sink) {
    && (forall d: DecryptionId, c: nat :: (d, c) in o.passed <==> c in WindowOf(o, d).seen)
    && (forall d: DecryptionId, c: nat :: c in WindowOf(o, d).seen ==> c <= WindowOf(o, d).last)
  }

  lemma DeliverMatches(env: Env, o: Sink, job: ReceiveJob, buffer: Bytes)
    requires WindowsMatch(o)
    ensures WindowsMatch(Deliver(env, o, job, buffer))
  {
    var o' := Deliver(env, o, job, buffer);
    if o'.passed != o.passed {
      var added := (job.state, HeaderCounter(buffer));
      assert o'.passed == o.passed + [added];
      forall d: DecryptionId, c: nat ensures (d, c) in o'.passed <==> c in WindowOf(o', d).seen {
        assert (d, c) in o'.passed <==> (d, c) in o.passed || (d, c) == added;
      }
    }
  }

  lemma {:induction false} WindowsKnowPassed(env: Env, confirmed: set<DecryptionId>, jobs: seq<ReceiveJob>)
    ensures WindowsMatch(OneByOne(env, Start(confirmed), jobs))
  {
    if jobs != [] {
      var n := |jobs| - 1;
      WindowsKnowPassed(env, confirmed, jobs[..n]);
      DeliverMatches(env, OneByOne(env, Start(confirmed), jobs[..n]), jobs[n], Decrypted(env, jobs[n]));
    }
  }

  /** Each counter of a decryption state passes on at most once. */
  lemma {:induction false} PassedOnce(env: Env, confirmed: set<DecryptionId>, jobs: seq<ReceiveJob>)
    ensures Distinct(OneByOne(env, Start(confirmed), jobs).passed)
  {
    if jobs != [] {
      var n := |jobs| - 1;
      PassedOnce(env, confirmed, jobs[..n]);
      WindowsKnowPassed(env, confirmed, jobs[..n]);
      var o0 := OneByOne(env, Start(confirmed), jobs[..n]);
      var o := OneByOne(env, Start(confirmed), jobs);
      if o.passed != o0.passed {
        assert o.passed[|o0.passed|] !in o0.passed;
      }
    }
  }

  lemma DecryptedHeader(env: Env, job: ReceiveJob)
    ensures |Decrypted(env, job)| >= SIZE_HEADER <==> Passes(env, job)
    ensures Passes(env, job) ==> HeaderCounter(Decrypted(env, job)) == HeaderCounter(job.packet)
  {
    if Passes(env, job) {
      assert Decrypted(env, job)[8..16] == job.packet[8..16];
    }
  }

  /**
   * Exactly which packets pass on: those whose parallel work succeeded and whose counter was
   * not yet passed on for that decryption state and is not behind its window.
   */
  lemma {:induction false} PassesOnExactly(env: Env, confirmed: set<DecryptionId>, jobs: seq<ReceiveJob>,
                                           job: ReceiveJob)
    ensures var before := OneByOne(env, Start(confirmed), jobs);
            var after := OneByOne(env, Start(confirmed), jobs + [job]);
            if && Passes(env, job)
               && (job.state, HeaderCounter(job.packet)) !in before.passed
               && (forall c :: (job.state, c) in before.passed ==> c <= HeaderCounter(job.packet) + AR.WINDOW_SIZE)
            then after.passed == before.passed + [(job.state, HeaderCounter(job.packet))]
            else after == before
  {
    WindowsKnowPassed(env, confirmed, jobs);
    DecryptedHeader(env, job);
    assert (jobs + [job])[..|jobs|] == jobs;
    var before := OneByOne(env, Start(confirmed), jobs);
    LastIsSeen(env, confirmed, jobs, job.state);
    if Passes(env, job) {
      var c := HeaderCounter(job.packet);
      var w := WindowOf(before, job.state);
      assert (job.state, c) in before.passed <==> c in w.seen;
      if !AR.Fresh(w, c) && c !in w.seen {
        assert (job.state, w.last) in before.passed && w.last > c + AR.WINDOW_SIZE;
      } else if AR.Fresh(w, c) {
        forall x | (job.state, x) in before.passed ensures x <= c + AR.WINDOW_SIZE {
          assert x in w.seen;
        }
      }
    }
  }

  lemma {:induction false} LastIsSeen(env: Env, confirmed: set<DecryptionId>, jobs: seq<ReceiveJob>, d: DecryptionId)
    ensures var w := WindowOf(OneByOne(env, Start(confirmed), jobs), d); w.last == 0 || w.last in w.seen
  {
    if jobs != [] {
      LastIsSeen(env, confirmed, jobs[..|jobs| - 1], d);
    }
  }

  /** The confirmations among the events of a decryption state. */
  function Confirmations(events: seq<Event>, d: DecryptionId): nat {
    if events == [] then 0
    else Confirmations(events[..|events| - 1], d) + (if events[|events| - 1] == Confirm(d) then 1 else 0)
  }

  lemma {:induction false} ConfirmationsAppend(a: seq<Event>, b: seq<Event>, d: DecryptionId)
    ensures Confirmations(a + b, d) == Confirmations(a, d) + Confirmations(b, d)
  {
    if b == [] {
      assert a + b == a;
    } else {
      ConfirmationsAppend(a, b[..|b| - 1], d);
      assert (a + b)[..|a + b| - 1] == a + b[..|b| - 1];
    }
  }

  lemma {:induction false} NoConfirmation(events: seq<Event>, d: DecryptionId)
    requires |events| <= 1 && (events != [] ==> !events[0].Confirm?)
    ensures Confirmations(events, d) == 0
  {
    assert events != [] ==> events[..0] == [];
  }

  lemma {:induction false} EventsConfirm(before: seq<Event>, confirm: seq<Event>, tun: seq<Event>, callback: Event,
                                         d: DecryptionId)
    requires |tun| <= 1 && (tun != [] ==> !tun[0].Confirm?) && !callback.Confirm?
    requires |confirm| <= 1 && (confirm != [] ==> confirm[0].Confirm?)
    ensures Confirmations(before + confirm + tun + [callback], d) ==
            Confirmations(before, d) + (if confirm != [] && confirm[0].state == d then 1 else 0)
  {
    ConfirmationsAppend((before + confirm) + tun, [callback], d);
    ConfirmationsAppend(before + confirm, tun, d);
    ConfirmationsAppend(before, confirm, d);
    NoConfirmation([callback], d);
    NoConfirmation(tun, d);
    assert confirm != [] ==> confirm[..0] == [];
  }

  /** What one delivery adds to the confirmations. */
  lemma {:induction false} DeliverConfirms(env: Env, o: Sink, job: ReceiveJob, buffer: Bytes, d: DecryptionId)
    ensures var o' := Deliver(env, o, job, buffer);
            if o'.passed == o.passed then
              o' == o
            else
              && o'.passed == o.passed + [o'.passed[|o.passed|]] && o'.passed[|o.passed|].0 == job.state
              && o'.confirmed == o.confirmed + {job.state}
              && Confirmations(o'.events, d) ==
                   Confirmations(o.events, d) + (if d == job.state && d !in o.confirmed then 1 else 0)
  {
    if |buffer| >= SIZE_HEADER {
      EventsConfirm(o.events, if job.state in o.confirmed then [] else [Confirm(job.state)],
                    TunEvents(env, buffer[SIZE_HEADER..]), Callback(job.state, |buffer|), d);
    }
  }

  /**
   * A key is confirmed exactly once, by the first packet that passes on; a key that started
   * out confirmed never is.
   */
  lemma {:induction false} ConfirmedOnce(env: Env, confirmed: set<DecryptionId>, jobs: seq<ReceiveJob>, d: DecryptionId)
    ensures var o := OneByOne(env, Start(confirmed), jobs);
            && (d in o.confirmed <==> d in confirmed || exists i :: 0 <= i < |o.passed| && o.passed[i].0 == d)
            && Confirmations(o.events, d) == (if d in o.confirmed && d !in confirmed then 1 else 0)
            && confirmed <= o.confirmed
  {
    if jobs != [] {
      var n := |jobs| - 1;
      ConfirmedOnce(env, confirmed, jobs[..n], d);
      var o0 := OneByOne(env, Start(confirmed), jobs[..n]);
      var o := OneByOne(env, Start(confirmed), jobs);
      DeliverConfirms(env, o0, jobs[n], Decrypted(env, jobs[n]), d);
      if o.passed != o0.passed && d == jobs[n].state {
        assert o.passed[|o0.passed|].0 == d;
      } else if i :| 0 <= i < |o0.passed| && o0.passed[i].0 == d {
        assert o.passed[i].0 == d;
      }
    }
  }

  // ------------------------------------------------- what it takes to be passed on

  /** The counter in the header of a packet. */
  function CounterOf(packet: Bytes): nat
    requires |packet| >= SIZE_HEADER
  {
    LeNat(packet[8..16])
  }

  /** The last bytes of a packet: its tag. */
  function TagOf(packet: Bytes): Bytes
    requires |packet| >= SIZE_TAG
  {
    packet[|packet| - SIZE_TAG..]
  }

  /**
   * The AEAD opens the packet to `plain`, under its decryption state and the counter in its own
   * header; the counter is below the limit; and `plain` is a keepalive or may come this way.
   */
  predicate MayPass(env: Env, job: ReceiveJob, plain: Bytes) {
    && |job.packet| >= SIZE_HEADER + SIZE_TAG
    && env.open(job.state, CounterOf(job.packet), job.packet[SIZE_HEADER..]) == Some(plain)
    && CounterOf(job.packet) < TWO_64 - 1 - 16
    && (plain == [] || env.route(plain + TagOf(job.packet)))
  }

  ghost predicate ExistsPass(env: Env, job: ReceiveJob) {
    exists plain :: MayPass(env, job, plain)
  }

  /** The parallel work succeeds exactly for such packets, and leaves header, plaintext and tag. */
  lemma PassesIsMayPass(env: Env, job: ReceiveJob)
    ensures Passes(env, job) <==> ExistsPass(env, job)
    ensures forall plain :: MayPass(env, job, plain) ==>
              Decrypted(env, job) == job.packet[..SIZE_HEADER] + plain + TagOf(job.packet)
  {
    if |job.packet| >= SIZE_HEADER + SIZE_TAG {
      var body := job.packet[SIZE_HEADER..];
      assert body[|body| - SIZE_TAG..] == TagOf(job.packet);
      var opening := env.open(job.state, CounterOf(job.packet), body);
      if opening.Some? && Passes(env, job) {
        assert MayPass(env, job, opening.value);
      }
      forall plain | MayPass(env, job, plain)
        ensures Decrypted(env, job) == job.packet[..SIZE_HEADER] + plain + TagOf(job.packet)
      {
        assert Opened(env, job) == Some(plain + TagOf(job.packet));
        assert job.packet[..SIZE_HEADER] + (plain + TagOf(job.packet)) ==
          job.packet[..SIZE_HEADER] + plain + TagOf(job.packet);
      }
    }
  }

  /** A packet that may not pass leaves no trace: no counter, no confirmation, no endpoint, no event. */
  lemma {:induction false} RefusedLeavesNoTrace(env: Env, confirmed: set<DecryptionId>, jobs: seq<ReceiveJob>,
                                                job: ReceiveJob)
    requires !ExistsPass(env, job)
    ensures OneByOne(env, Start(confirmed), jobs + [job]) == OneByOne(env, Start(confirmed), jobs)
  {
    PassesIsMayPass(env, job);
    OneByOneExtend(env, Start(confirmed), jobs, job);
  }

  /** What a packet that may pass, and is new in its window, does: all of it, and in this order. */
  lemma {:induction false} DeliveredExactly(env: Env, confirmed: set<DecryptionId>, jobs: seq<ReceiveJob>,
                                            job: ReceiveJob, plain: Bytes)
    requires MayPass(env, job, plain)
    requires var before := OneByOne(env, Start(confirmed), jobs);
             && (job.state, CounterOf(job.packet)) !in before.passed
             && (forall c :: (job.state, c) in before.passed ==> c <= CounterOf(job.packet) + AR.WINDOW_SIZE)
    ensures var before := OneByOne(env, Start(confirmed), jobs);
            var after := OneByOne(env, Start(confirmed), jobs + [job]);
            var inner := env.innerLength(plain + TagOf(job.packet));
            && after.passed == before.passed + [(job.state, CounterOf(job.packet))]
            && after.confirmed == before.confirmed + {job.state}
            && after.endpoint == Some(job.endpoint)
            && after.events == before.events
                               + (if job.state in before.confirmed then [] else [Confirm(job.state)])
                               + (if inner.Some? && inner.value <= |plain| then [Tun(plain[..inner.value])] else [])
                               + [Callback(job.state, SIZE_HEADER + |plain| + SIZE_TAG)]
  {
    hide OneByOne;
    PassesIsMayPass(env, job);
    PassesOnExactly(env, confirmed, jobs, job);
    DecryptedHeader(env, job);
    OneByOneExtend(env, Start(confirmed), jobs, job);
    var buffer, tag := Decrypted(env, job), TagOf(job.packet);
    assert buffer[SIZE_HEADER..] == plain + tag;
    var inner := env.innerLength(plain + tag);
    if inner.Some? && inner.value <= |plain| {
      assert (plain + tag)[..inner.value] == plain[..inner.value];
    }
  }

  /** A counter was passed on for one of these packets. */
  ghost predicate PassedFor(env: Env, jobs: seq<ReceiveJob>, d: DecryptionId, counter: nat) {
    exists i, plain :: 0 <= i < |jobs| && MayPass(env, jobs[i], plain) && jobs[i].state == d
      && CounterOf(jobs[i].packet) == counter
  }

  /** These bytes are as many of the plaintext of one of these packets as its IP header says. */
  ghost predicate PlaintextOf(env: Env, jobs: seq<ReceiveJob>, bytes: Bytes) {
    exists i, plain :: 0 <= i < |jobs| && MayPass(env, jobs[i], plain) && bytes <= plain
                       && env.innerLength(plain + TagOf(jobs[i].packet)) == Some(|bytes|)
  }

  lemma DeliverIsGenuine(env: Env, o: Sink, jobs: seq<ReceiveJob>, k: nat)
    requires k < |jobs|
    ensures var o' := Deliver(env, o, jobs[k], Decrypted(env, jobs[k]));
            && (forall i :: |o.passed| <= i < |o'.passed| ==> PassedFor(env, jobs, o'.passed[i].0, o'.passed[i].1))
            && (forall i :: |o.events| <= i < |o'.events| && o'.events[i].Tun? ==>
               PlaintextOf(env, jobs, o'.events[i].bytes))
            && o.passed <= o'.passed && o.events <= o'.events
  {
    var job := jobs[k];
    PassesIsMayPass(env, job);
    DecryptedHeader(env, job);
    var o' := Deliver(env, o, job, Decrypted(env, job));
    if o' != o {
      var plain :| MayPass(env, job, plain);
      var tag := TagOf(job.packet);
      assert Decrypted(env, job)[SIZE_HEADER..] == plain + tag;
      assert PassedFor(env, jobs, job.state, CounterOf(job.packet));
      var inner := env.innerLength(plain + tag);
      if inner.Some? && inner.value <= |plain| {
        assert (plain + tag)[..inner.value] == plain[..inner.value];
        assert MayPass(env, jobs[k], plain) && plain[..inner.value] <= plain;
        assert PlaintextOf(env, jobs, plain[..inner.value]);
      }
    }
  }

  lemma MoreJobs(env: Env, jobs: seq<ReceiveJob>, job: ReceiveJob)
    ensures forall d, c :: PassedFor(env, jobs, d, c) ==> PassedFor(env, jobs + [job], d, c)
    ensures forall bytes :: PlaintextOf(env, jobs, bytes) ==> PlaintextOf(env, jobs + [job], bytes)
  {
    forall d, c | PassedFor(env, jobs, d, c) ensures PassedFor(env, jobs + [job], d, c) {
      var i, plain :| 0 <= i < |jobs| && MayPass(env, jobs[i], plain) && jobs[i].state == d
        && CounterOf(jobs[i].packet) == c;
      assert MayPass(env, (jobs + [job])[i], plain);
    }
    forall bytes | PlaintextOf(env, jobs, bytes) ensures PlaintextOf(env, jobs + [job], bytes) {
      var i, plain :| 0 <= i < |jobs| && MayPass(env, jobs[i], plain) && bytes <= plain
                      && env.innerLength(plain + TagOf(jobs[i].packet)) == Some(|bytes|);
      assert MayPass(env, (jobs + [job])[i], plain);
    }
  }

  /** Every counter passed on and everything written to the TUN device comes from a packet that may pass. */
  ghost predicate OnlyGenuine(env: Env, jobs: seq<ReceiveJob>, o: Sink) {
    && (forall i :: 0 <= i < |o.passed| ==> PassedFor(env, jobs, o.passed[i].0, o.passed[i].1))
    && (forall i :: 0 <= i < |o.events| && o.events[i].Tun? ==> PlaintextOf(env, jobs, o.events[i].bytes))
  }

  lemma DeliverKeepsGenuine(env: Env, o: Sink, jobs: seq<ReceiveJob>, job: ReceiveJob)
    requires OnlyGenuine(env, jobs, o)
    ensures OnlyGenuine(env, jobs + [job], Deliver(env, o, job, Decrypted(env, job)))
  {
    hide PassedFor, PlaintextOf, Deliver, Decrypted;
    MoreJobs(env, jobs, job);
    DeliverIsGenuine(env, o, jobs + [job], |jobs|);
    assert (jobs + [job])[|jobs|] == job;
  }

  /**
   * Whatever is passed on comes from a packet that the AEAD opened under its own state and
   * counter, and what is written to the TUN device is the plaintext of such a packet.
   */
  lemma {:induction false} OnlyGenuinePass(env: Env, confirmed: set<DecryptionId>, jobs: seq<ReceiveJob>)
    ensures OnlyGenuine(env, jobs, OneByOne(env, Start(confirmed), jobs))
  {
    if jobs != [] {
      hide OnlyGenuine, Deliver, Decrypted;
      var n := |jobs| - 1;
      OnlyGenuinePass(env, confirmed, jobs[..n]);
      DeliverKeepsGenuine(env, OneByOne(env, Start(confirmed), jobs[..n]), jobs[..n], jobs[n]);
      assert jobs[..n] + [jobs[n]] == jobs;
    }
  }

  /** And so in every interleaving, of the packets that were finished. */
  lemma OnlyGenuinePassInAnyRun(env: Env, workers: nat, confirmed: set<DecryptionId>, acts: seq<Action>, s: State)
    requires Reachable(env, workers, confirmed, acts, s)
    ensures forall i :: 0 <= i < |s.queue.finished| ==> s.queue.finished[i] in s.jobs
    ensures OnlyGenuine(env, Inputs(s.jobs, s.queue.finished), s.sink)
  {
    hide OnlyGenuine, Reachable;
    SameAsOneByOne(env, workers, confirmed, acts, s);
    OnlyGenuinePass(env, confirmed, Inputs(s.jobs, s.queue.finished));
  }

  // ----------------------------------------------------------- the job objects

  /** The keys of one receiver id, with its replay window and whether a message confirmed it. */
  class DecryptionState {
    const id: DecryptionId
    const protector: AR.AntiReplay
    var confirmed: bool

    constructor (id: DecryptionId, confirmed: bool)
      ensures this.id == id && this.confirmed == confirmed && fresh(protector) && fresh(protector.bitmap)
      ensures protector.Valid() && protector.View() == AR.EMPTY
    {
      this.id, this.confirmed := id, confirmed;
      protector := new AR.AntiReplay();
    }
  }

  /** What a peer sees of its packets. */
  class Receiver {
    var endpoint: Option<Endpoint>
    var events: seq<Event>

    constructor ()
      ensures endpoint == None && events == []
    {
      endpoint, events := None, [];
    }
  }

  /** The objects hold what the reference sink `o` says about this decryption state. */
  ghost predicate Holds(o: Sink, state: DecryptionState, receiver: Receiver)
    reads state, state.protector, receiver
  {
    && WindowOf(o, state.id) == state.protector.View() && (state.id in o.confirmed <==> state.confirmed)
    && o.endpoint == receiver.endpoint && o.events == receiver.events
  }

  class InboundJob {
    const state: DecryptionState
    var ready: bool
    var endpoint: Option<Endpoint>
    var buffer: Bytes

    constructor (msg: Bytes, state: DecryptionState, endpoint: Endpoint)
      ensures !ready && buffer == msg && this.state == state && this.endpoint == Some(endpoint)
    {
      ready, buffer, this.state, this.endpoint := false, msg, state, Some(endpoint);
    }

    /** Opens the body in place, and says whether the packet may go on. */
    method Authenticate(env: Env) returns (ok: bool)
      modifies this`buffer
      ensures forall e :: ok <==> ExistsPass(env, ReceiveJob(state.id, old(buffer), e))
      ensures forall e, plain :: MayPass(env, ReceiveJob(state.id, old(buffer), e), plain) ==>
                buffer == old(buffer)[..SIZE_HEADER] + plain + TagOf(old(buffer))
      ensures forall e :: ok <==> Passes(env, ReceiveJob(state.id, old(buffer), e))
      ensures forall e :: ok ==> buffer == Decrypted(env, ReceiveJob(state.id, old(buffer), e))
    {
      forall e { PassesIsMayPass(env, ReceiveJob(state.id, buffer, e)); }
      if |buffer| < SIZE_HEADER {
        return false;
      }
      var counter := HeaderCounter(buffer);
      var packet := buffer[SIZE_HEADER..];
      var opening := env.open(state.id, counter, packet);
      if opening.None? || |packet| < SIZE_TAG {
        return false;
      }
      packet := opening.value + packet[|packet| - SIZE_TAG..];
      buffer := buffer[..SIZE_HEADER] + packet;
      if counter >= REJECT_AFTER_MESSAGES {
        return false;
      }
      ok := |packet| == SIZE_TAG || env.route(packet);
    }

    /** `parallel_work`: on any failure nothing is left of the packet. */
    method ParallelWork(env: Env)
      requires !ready
      modifies this`buffer, this`ready
      ensures ready && forall e :: buffer == Decrypted(env, ReceiveJob(state.id, old(buffer), e))
      ensures forall e :: buffer == [] || ExistsPass(env, ReceiveJob(state.id, old(buffer), e))
      ensures forall e, plain :: MayPass(env, ReceiveJob(state.id, old(buffer), e), plain) ==>
                buffer == old(buffer)[..SIZE_HEADER] + plain + TagOf(old(buffer))
    {
      var ok := Authenticate(env);
      if !ok {
        buffer := [];
      }
      ready := true;
    }

    /**
     * `sequential_work`: replay check, confirmation, endpoint, delivery, callback, in this order;
     * the objects then hold what the reference says after this packet.
     */
    method SequentialWork(env: Env, receiver: Receiver, ghost o: Sink, ghost from: Endpoint, ghost input: Bytes)
      requires ready && state.protector.Valid() && endpoint == Some(from)
      requires Holds(o, state, receiver)
      modifies this`endpoint, state`confirmed, state.protector, state.protector.bitmap, receiver
      ensures state.protector.Valid() && endpoint.None?
      ensures Holds(Deliver(env, o, ReceiveJob(state.id, input, from), buffer), state, receiver)
    {
      var source := endpoint;
      endpoint := None;
      if |buffer| < SIZE_HEADER {
        return;
      }
      var packet := buffer[SIZE_HEADER..];
      var updated := state.protector.Update(HeaderCounter(buffer));
      if !updated {
        return;
      }
      if !state.confirmed {
        state.confirmed := true;
        receiver.events := receiver.events + [Confirm(state.id)];
      }
      receiver.endpoint := source;
      var inner := env.innerLength(packet);
      if inner.Some? {
        if inner.value + SIZE_TAG <= |packet| {
          receiver.events := receiver.events + [Tun(packet[..inner.value])];
        }
      }
      receiver.events := receiver.events + [Callback(state.id, |buffer|)];
    }
  }
}
