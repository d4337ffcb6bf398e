/**
 * A router peer (src/wireguard/router/peer.rs): sending, staging and key installation,
 * one call at a time. The reference is a function on `State` per call; the class does the
 * same by updating its fields.
 */
module RouterPeer {
  import opened Base
  import opened KeyWheel

  /** A keepalive carries no packet: only the room for the transport header. */
  datatype Message = Packet(bytes: seq<byte>) | Keepalive

  datatype QueuedJob = QueuedJob(msg: Message, counter: nat, keypair: KeyPair)

  datatype State = State(
    keys: Keys,
    staged: seq<Message>,
    outbound: seq<QueuedJob>,      // the in-order queue
    requests: nat,               // calls of need_key
    // history
    pushed: seq<QueuedJob>,        // every job ever accepted by the outbound queue
    submitted: seq<Message>)     // every message sent with staging

  const FRESH := State(KeyWheel.INITIAL, [], [], 0, [], [])

  /** `push_back` on a full wrapping deque drops the oldest message. */
  function Stage(staged: seq<Message>, msg: Message): seq<Message> {
    if |staged| < MAX_QUEUED_PACKETS then staged + [msg] else staged[1..] + [msg]
  }

  function SendMessage(p: State, msg: Message, stage: bool): State {
    var (keys, taken) := TakeNonce(p.keys, |p.outbound| < INORDER_QUEUE_SIZE);
    var p1 := p.(keys := keys, submitted := if stage then p.submitted + [msg] else p.submitted);
    match taken
    case Full => p1
    case Nonce(keypair, nonce) =>
      var job := QueuedJob(msg, nonce, keypair);
      p1.(outbound := p.outbound + [job], pushed := p.pushed + [job])
    case _ =>
      p1.(staged := if stage then Stage(p.staged, msg) else p.staged, requests := p.requests + 1)
  }

  function SendAllStaged(p: State): State
    decreases |p.staged|
  {
    if p.staged == [] then p
    else SendAllStaged(SendMessage(p.(staged := p.staged[1..]), p.staged[0], false))
  }

  function ConfirmAndSend(p: State, keypair: KeyPair): State {
    if p.keys.next.Some? && p.keys.next.value.uid == keypair.uid then
      SendAllStaged(p.(keys := Confirm(p.keys, keypair)))
    else
      p
  }

  function AddAndSend(p: State, initiator: bool, send: Key, recv: Key): State {
    var p1 := p.(keys := Add(p.keys, initiator, send, recv).0);
    if !initiator then p1
    else if p.staged != [] then SendAllStaged(p1)
    else SendMessage(p1, Keepalive, false)
  }

  datatype Action =
    | SendPacket(bytes: seq<byte>)
    | SendKeepalive
    | AddKeypair(initiator: bool, send: Key, recv: Key)
    | ConfirmKey(keypair: KeyPair)
    | ZeroKeys
    | PurgeStaged
    | OutboundFinished             // the worker pool finishes the oldest outbound job

  predicate Enabled(p: State, a: Action) {
    a.OutboundFinished? ==> p.outbound != []
  }

  function Apply(p: State, a: Action): State
    requires Enabled(p, a)
  {
    match a
    case SendPacket(bytes) => SendMessage(p, Packet(bytes), true)
    case SendKeepalive => SendMessage(p, Keepalive, false)
    case AddKeypair(initiator, send, recv) => AddAndSend(p, initiator, send, recv)
    case ConfirmKey(keypair) => ConfirmAndSend(p, keypair)
    case ZeroKeys => p.(keys := Zero(p.keys))
    case PurgeStaged => p.(staged := [])
    case OutboundFinished => p.(outbound := p.outbound[1..])
  }

  // ------------------------------------------------------------- subsequences

  /** `a` is `b` with some elements left out. */
  ghost predicate Subsequence<T>(a: seq<T>, b: seq<T>)
    decreases |b|
  {
    a == [] ||
    (b != [] &&
     (Subsequence(a, b[..|b| - 1]) ||
      (a[|a| - 1] == b[|b| - 1] && Subsequence(a[..|a| - 1], b[..|b| - 1]))))
  }

  lemma {:induction false} SubsequenceExtend<T>(a: seq<T>, b: seq<T>, x: T)
    requires Subsequence(a, b)
    ensures Subsequence(a, b + [x]) && Subsequence(a + [x], b + [x])
  {
    assert (b + [x])[..|b|] == b && (a + [x])[..|a|] == a;
  }

  lemma {:induction false} SubsequenceDrop<T>(a: seq<T>, i: nat, b: seq<T>)
    requires i < |a| && Subsequence(a, b)
    ensures Subsequence(a[..i] + a[i + 1..], b)
    decreases |b|
  {
    var n, b' := |a| - 1, b[..|b| - 1];
    assert b == b' + [b[|b| - 1]];
    if Subsequence(a, b') {
      SubsequenceDrop(a, i, b');
      SubsequenceExtend(a[..i] + a[i + 1..], b', b[|b| - 1]);
    } else if i == n {
      SubsequenceExtend(a[..n], b', b[|b| - 1]);
      assert a[..i] + a[i + 1..] == a[..n];
    } else {
      SubsequenceDrop(a[..n], i, b');
      SubsequenceExtend(a[..n][..i] + a[..n][i + 1..], b', b[|b| - 1]);
      assert a[..i] + a[i + 1..] == (a[..n][..i] + a[..n][i + 1..]) + [a[n]];
    }
  }

  // ---------------------------------------------------------------- invariant

  /** The packets among the messages of `jobs`, in order. */
  function Packets(jobs: seq<QueuedJob>): seq<Message> {
    if jobs == [] then []
    else
      var last := jobs[|jobs| - 1].msg;
      Packets(jobs[..|jobs| - 1]) + (if last.Packet? then [last] else [])
  }

  lemma {:induction false} PacketsExtend(jobs: seq<QueuedJob>, job: QueuedJob)
    ensures Packets(jobs + [job]) == Packets(jobs) + (if job.msg.Packet? then [job.msg] else [])
  {
    assert (jobs + [job])[..|jobs|] == jobs;
  }

  predicate OnlyPackets(msgs: seq<Message>) {
    forall i :: 0 <= i < |msgs| ==> msgs[i].Packet?
  }

  ghost predicate Ordered(p: State) {
    Subsequence(Packets(p.pushed) + p.staged, p.submitted)
  }

  /** Every job carries the nonce that was taken for it, in the same order. */
  predicate JobsUseTheirNonces(p: State) {
    && |p.pushed| == |p.keys.used|
    && forall i :: 0 <= i < |p.pushed| ==> p.keys.used[i] == (p.pushed[i].keypair.uid, p.pushed[i].counter)
  }

  ghost predicate Tracked(p: State) {
    && KeyWheel.Inv(p.keys) && JobsUseTheirNonces(p)
    && |p.outbound| <= |p.pushed| && p.outbound == p.pushed[|p.pushed| - |p.outbound|..]
  }

  /** What holds between the sends of one call: messages may still be staged under a key. */
  ghost predicate Loose(p: State) {
    && Tracked(p) && Ordered(p)
    && |p.staged| <= MAX_QUEUED_PACKETS && OnlyPackets(p.staged)
  }

  ghost predicate Inv(p: State) {
    Loose(p) && (p.staged != [] ==> p.keys.encKey.None?)
  }

  lemma SendKeysInv(p: State, msg: Message, stage: bool)
    requires KeyWheel.Inv(p.keys)
    ensures KeyWheel.Inv(SendMessage(p, msg, stage).keys)
  {
    var room := |p.outbound| < INORDER_QUEUE_SIZE;
    StepInv(p.keys, KeyWheel.Action.Send(room));
    SendShape(p, msg, stage);
  }

  lemma SendJobsTracked(p: State, msg: Message, stage: bool)
    requires JobsUseTheirNonces(p)
    ensures JobsUseTheirNonces(SendMessage(p, msg, stage))
  {
    SendShape(p, msg, stage);
    TakenIsLogged(p.keys, |p.outbound| < INORDER_QUEUE_SIZE);
  }

  lemma SendTracked(p: State, msg: Message, stage: bool)
    requires Tracked(p)
    ensures Tracked(SendMessage(p, msg, stage))
  {
    SendKeysInv(p, msg, stage);
    SendJobsTracked(p, msg, stage);
    SendShape(p, msg, stage);
  }

  lemma TakenIsLogged(k: Keys, room: bool)
    ensures var (k', taken) := TakeNonce(k, room);
            k'.used == if taken.Nonce? then k.used + [(taken.keypair.uid, taken.nonce)] else k.used
  {
  }

  /** What one send does to the three sequences that carry messages. */
  lemma SendShape(p: State, msg: Message, stage: bool)
    ensures var q, taken := SendMessage(p, msg, stage), TakeNonce(p.keys, |p.outbound| < INORDER_QUEUE_SIZE).1;
            && q.keys == TakeNonce(p.keys, |p.outbound| < INORDER_QUEUE_SIZE).0
            && q.submitted == (if stage then p.submitted + [msg] else p.submitted)
            && match taken
               case Nonce(keypair, nonce) =>
                 && p.keys.encKey.Some? && q.staged == p.staged
                 && q.pushed == p.pushed + [QueuedJob(msg, nonce, keypair)]
                 && q.outbound == p.outbound + [QueuedJob(msg, nonce, keypair)]
               case Full =>
                 && p.keys.encKey.Some? && q.pushed == p.pushed && q.outbound == p.outbound && q.staged == p.staged
               case _ =>
                 && q.keys.encKey.None? && q.pushed == p.pushed && q.outbound == p.outbound
                 && q.staged == if stage then Stage(p.staged, msg) else p.staged
  {
  }

  lemma {:induction false} DropFirstStaged(a: seq<Message>, staged: seq<Message>, b: seq<Message>)
    requires staged != [] && Subsequence(a + staged, b)
    ensures Subsequence(a + staged[1..], b)
  {
    SubsequenceDrop(a + staged, |a|, b);
    assert (a + staged)[..|a|] + (a + staged)[|a| + 1..] == a + staged[1..];
  }

  /** Sending the front of the staging queue, or a keepalive. */
  lemma SendStagedOrder(p: State)
    requires Ordered(p) && OnlyPackets(p.staged) && p.staged != []
    ensures Ordered(SendMessage(p.(staged := p.staged[1..]), p.staged[0], false))
    ensures SendMessage(p.(staged := p.staged[1..]), p.staged[0], false).staged == p.staged[1..]
  {
    var msg := p.staged[0];
    SendShape(p.(staged := p.staged[1..]), msg, false);
    var q := SendMessage(p.(staged := p.staged[1..]), msg, false);
    var before := Packets(p.pushed) + p.staged;
    if q.pushed == p.pushed {
      DropFirstStaged(Packets(p.pushed), p.staged, p.submitted);
    } else {
      PacketsExtend(p.pushed, q.pushed[|p.pushed|]);
      assert before == Packets(q.pushed) + q.staged;
    }
  }

  lemma SendStagedInv(p: State)
    requires Loose(p) && p.staged != []
    ensures Loose(SendMessage(p.(staged := p.staged[1..]), p.staged[0], false))
    ensures SendMessage(p.(staged := p.staged[1..]), p.staged[0], false).staged == p.staged[1..]
  {
    hide SendMessage, Ordered;
    SendTracked(p.(staged := p.staged[1..]), p.staged[0], false);
    SendStagedOrder(p);
  }

  lemma SendKeepaliveOrder(p: State)
    requires Ordered(p)
    ensures Ordered(SendMessage(p, Keepalive, false))
  {
    SendShape(p, Keepalive, false);
    var q := SendMessage(p, Keepalive, false);
    if q.pushed != p.pushed {
      PacketsExtend(p.pushed, q.pushed[|p.pushed|]);
      assert Packets(q.pushed) == Packets(p.pushed);
    }
  }

  lemma SendKeepaliveInv(p: State)
    requires Inv(p)
    ensures Inv(SendMessage(p, Keepalive, false))
  {
    SendTracked(p, Keepalive, false);
    SendKeepaliveOrder(p);
    SendShape(p, Keepalive, false);
  }

  /** Staging on a full deque loses the oldest packet and keeps the order of the others. */
  lemma {:induction false} StageOrder(a: seq<Message>, staged: seq<Message>, b: seq<Message>, msg: Message)
    requires Subsequence(a + staged, b)
    ensures Subsequence(a + Stage(staged, msg), b + [msg])
  {
    hide Subsequence;
    SubsequenceExtend(a + staged, b, msg);
    assert (a + staged) + [msg] == a + (staged + [msg]);
    if |staged| >= MAX_QUEUED_PACKETS {
      DropFirstStaged(a, staged + [msg], b + [msg]);
      assert (staged + [msg])[1..] == staged[1..] + [msg];
    }
  }

  lemma SendPacketOrder(p: State, msg: Message)
    requires Ordered(p) && msg.Packet? && (p.staged != [] ==> p.keys.encKey.None?)
    ensures Ordered(SendMessage(p, msg, true))
  {
    hide SendMessage, Subsequence, Stage, TakeNonce;
    SendShape(p, msg, true);
    var q := SendMessage(p, msg, true);
    var before := Packets(p.pushed) + p.staged;
    SubsequenceExtend(before, p.submitted, msg);
    if q.pushed != p.pushed {
      PacketsExtend(p.pushed, q.pushed[|p.pushed|]);
      assert before + [msg] == Packets(q.pushed) + q.staged;
    } else if q.keys.encKey.None? {
      StageOrder(Packets(p.pushed), p.staged, p.submitted, msg);
    }
  }

  lemma SendPacketInv(p: State, msg: Message)
    requires Inv(p) && msg.Packet?
    ensures Inv(SendMessage(p, msg, true))
  {
    hide SendMessage, Tracked, Ordered, TakeNonce;
    SendTracked(p, msg, true);
    SendPacketOrder(p, msg);
    SendShape(p, msg, true);
  }

  lemma {:induction false} SendAllInv(p: State)
    requires Loose(p)
    ensures Inv(SendAllStaged(p)) && SendAllStaged(p).staged == []
    decreases |p.staged|
  {
    if p.staged != [] {
      SendStagedInv(p);
      SendAllInv(SendMessage(p.(staged := p.staged[1..]), p.staged[0], false));
    }
  }

  lemma AddSendInv(p: State, initiator: bool, send: Key, recv: Key)
    requires Inv(p)
    ensures Inv(AddAndSend(p, initiator, send, recv))
  {
    AddInv(p.keys, initiator, send, recv);
    var p1 := p.(keys := Add(p.keys, initiator, send, recv).0);
    assert Loose(p1);
    if initiator {
      if p.staged != [] { SendAllInv(p1); } else { SendKeepaliveInv(p1); }
    }
  }

  lemma ConfirmSendInv(p: State, keypair: KeyPair)
    requires Inv(p)
    ensures Inv(ConfirmAndSend(p, keypair))
  {
    StepInv(p.keys, KeyWheel.Action.ConfirmKey(keypair));
    SendAllInv(p.(keys := Confirm(p.keys, keypair)));
  }

  lemma ZeroInv(p: State)
    requires Inv(p)
    ensures Inv(p.(keys := Zero(p.keys)))
  {
    StepInv(p.keys, KeyWheel.Action.ZeroKeys);
  }

  lemma ApplyInv(p: State, a: Action)
    requires Inv(p) && Enabled(p, a)
    ensures Inv(Apply(p, a))
  {
    match a
    case SendPacket(bytes) => SendPacketInv(p, Packet(bytes));
    case SendKeepalive => SendKeepaliveInv(p);
    case AddKeypair(initiator, send, recv) => AddSendInv(p, initiator, send, recv);
    case ConfirmKey(keypair) => ConfirmSendInv(p, keypair);
    case ZeroKeys => ZeroInv(p);
    case PurgeStaged => PurgeInv(Packets(p.pushed), p.staged, p.submitted);
    case OutboundFinished =>
  }

  lemma {:induction false} PurgeInv(a: seq<Message>, staged: seq<Message>, b: seq<Message>)
    requires Subsequence(a + staged, b)
    ensures Subsequence(a + [], b)
    decreases |staged|
  {
    if staged == [] {
    } else {
      var n := |a + staged| - 1;
      SubsequenceDrop(a + staged, n, b);
      assert (a + staged)[..n] + (a + staged)[n + 1..] == a + staged[..|staged| - 1];
      PurgeInv(a, staged[..|staged| - 1], b);
    }
  }

  // ---------------------------------------------------------------- every run

  /** `acts` can be taken one after the other from `p`. */
  predicate IsRun(p: State, acts: seq<Action>)
    decreases |acts|
  {
    acts == [] || (Enabled(p, acts[0]) && IsRun(Apply(p, acts[0]), acts[1..]))
  }

  function Outcome(p: State, acts: seq<Action>): State
    requires IsRun(p, acts)
    decreases |acts|
  {
    if acts == [] then p else Outcome(Apply(p, acts[0]), acts[1..])
  }

  lemma {:induction false} RunInv(p: State, acts: seq<Action>)
    requires Inv(p) && IsRun(p, acts)
    ensures Inv(Outcome(p, acts))
    decreases |acts|
  {
    if acts != [] {
      ApplyInv(p, acts[0]);
      RunInv(Apply(p, acts[0]), acts[1..]);
    }
  }

  lemma FreshInv()
    ensures Inv(FRESH)
  {
  }

  /**
   * Over every run: the packets pushed outbound followed by those still staged are an
   * order-preserving subsequence of those submitted; at most `MAX_QUEUED_PACKETS` are
   * staged; none are while an encryption key is installed.
   */
  lemma {:induction false} PacketsKeepTheirOrder(acts: seq<Action>)
    requires IsRun(FRESH, acts)
    ensures var p := Outcome(FRESH, acts);
            && Subsequence(Packets(p.pushed) + p.staged, p.submitted)
            && |p.staged| <= MAX_QUEUED_PACKETS
            && (p.keys.encKey.Some? ==> p.staged == [])
  {
    FreshInv();
    RunInv(FRESH, acts);
  }

  /** Over every run: two outbound jobs of one key pair carry rising counters below the limit. */
  lemma {:induction false} JobsNeverShareANonce(acts: seq<Action>, i: nat, j: nat)
    requires IsRun(FRESH, acts) && i < j < |Outcome(FRESH, acts).pushed|
    ensures var jobs := Outcome(FRESH, acts).pushed;
            && jobs[j].counter < REJECT_AFTER_MESSAGES - 1
            && (jobs[i].keypair.uid == jobs[j].keypair.uid ==> jobs[i].counter < jobs[j].counter)
  {
    FreshInv();
    RunInv(FRESH, acts);
    var p := Outcome(FRESH, acts);
    assert p.keys.used[i].0 == p.pushed[i].keypair.uid && p.keys.used[j].0 == p.pushed[j].keypair.uid;
  }

  // ------------------------------------------------------ what becomes of a packet

  predicate Usable(k: Keys) {
    k.encKey.Some? && k.encKey.value.nonce < TWO_64 - 1 - 16 - 1
  }

  /** The last `n` of `s`, or all if there are no more. */
  function Latest<T>(s: seq<T>, n: nat): seq<T> {
    if |s| <= n then s else s[|s| - n..]
  }

  /**
   * A packet is sealed for the current key's next nonce and pushed if there is a usable key and
   * room; without a usable key it is staged and a key is asked for; with a key and no room it is
   * dropped.
   */
  lemma SendPacketExactly(p: State, bytes: seq<byte>)
    requires |p.staged| <= MAX_QUEUED_PACKETS
    ensures var p', msg := Apply(p, SendPacket(bytes)), Packet(bytes);
            && p'.submitted == p.submitted + [msg]
            && if !Usable(p.keys) then
                 && p'.requests == p.requests + 1 && p'.staged == Latest(p.staged + [msg], 1024)
                 && p'.pushed == p.pushed && p'.outbound == p.outbound && p'.keys.encKey.None?
               else if |p.outbound| < 1024 then
                 var job := QueuedJob(msg, p.keys.encKey.value.nonce, p.keys.encKey.value.keypair);
                 && p'.pushed == p.pushed + [job] && p'.outbound == p.outbound + [job]
                 && p'.requests == p.requests && p'.staged == p.staged
               else
                 p' == p.(submitted := p.submitted + [msg])
  {
    if |p.staged| == MAX_QUEUED_PACKETS {
      assert Latest(p.staged + [Packet(bytes)], 1024) == p.staged[1..] + [Packet(bytes)];
    }
  }

  function SendPackets(p: State, packets: seq<seq<byte>>): State
    decreases |packets|
  {
    if packets == [] then p else SendPackets(Apply(p, SendPacket(packets[0])), packets[1..])
  }

  function AsMessages(packets: seq<seq<byte>>): (r: seq<Message>)
    ensures |r| == |packets|
  {
    if packets == [] then [] else [Packet(packets[0])] + AsMessages(packets[1..])
  }

  /** While there is no key, the latest 1024 packets wait, and each of them has asked for a key. */
  lemma {:induction false} LatestAreStaged(p: State, packets: seq<seq<byte>>)
    requires p.keys.encKey.None? && |p.staged| <= MAX_QUEUED_PACKETS
    ensures var p' := SendPackets(p, packets);
            && p'.staged == Latest(p.staged + AsMessages(packets), 1024)
            && p'.requests == p.requests + |packets| && p'.keys.encKey.None?
    decreases |packets|
  {
    hide Apply, Latest;
    var msgs := AsMessages(packets);
    if packets == [] {
      LatestFits(p.staged);
      assert p.staged + msgs == p.staged;
    } else {
      hide SendPackets;
      SendPacketExactly(p, packets[0]);
      var p1, waiting, rest := Apply(p, SendPacket(packets[0])), p.staged + [Packet(packets[0])],
        AsMessages(packets[1..]);
      LatestFits(waiting);
      LatestAreStaged(p1, packets[1..]);
      LatestOfLatest(waiting, rest, 1024);
      assert p.staged + msgs == waiting + rest;
      SendPacketsStep(p, packets);
    }
  }

  lemma {:induction false} SendPacketsStep(p: State, packets: seq<seq<byte>>)
    requires packets != []
    ensures SendPackets(p, packets) == SendPackets(Apply(p, SendPacket(packets[0])), packets[1..])
  {
  }

  lemma LatestFits(msgs: seq<Message>)
    ensures |Latest(msgs, 1024)| <= 1024 && (|msgs| <= 1024 ==> Latest(msgs, 1024) == msgs)
  {
  }

  lemma LatestOfLatest<T>(a: seq<T>, b: seq<T>, n: nat)
    ensures Latest(Latest(a, n) + b, n) == Latest(a + b, n)
  {
  }

  /** One job for each message, with counters from `nonce` on. */
  function JobsFor(msgs: seq<Message>, keypair: KeyPair, nonce: nat): seq<QueuedJob> {
    if msgs == [] then [] else [QueuedJob(msgs[0], nonce, keypair)] + JobsFor(msgs[1..], keypair, nonce + 1)
  }

  /** With a usable key, room and nonces enough, every staged packet is pushed, oldest first. */
  lemma {:induction false} StagedAreSent(p: State)
    requires p.keys.encKey.Some? && |p.outbound| + |p.staged| <= INORDER_QUEUE_SIZE
    requires p.keys.encKey.value.nonce + |p.staged| <= TWO_64 - 1 - 16 - 1
    ensures var p', e := SendAllStaged(p), p.keys.encKey.value;
            && p'.pushed == p.pushed + JobsFor(p.staged, e.keypair, e.nonce) && p'.staged == []
            && p'.keys.encKey == Some(e.(nonce := e.nonce + |p.staged|)) && p'.requests == p.requests
    decreases |p.staged|
  {
    if p.staged != [] {
      var p1 := SendMessage(p.(staged := p.staged[1..]), p.staged[0], false);
      StagedAreSent(p1);
      var e := p.keys.encKey.value;
      assert p1.pushed == p.pushed + [QueuedJob(p.staged[0], e.nonce, e.keypair)];
      assert JobsFor(p.staged, e.keypair, e.nonce)
             == [QueuedJob(p.staged[0], e.nonce, e.keypair)] + JobsFor(p.staged[1..], e.keypair, e.nonce + 1);
    }
  }

  /** Confirming the next key sends every staged packet under it, if there is room. */
  lemma {:induction false} ConfirmationSendsTheStaged(p: State, keypair: KeyPair)
    requires Inv(p) && p.keys.next == Some(keypair) && |p.outbound| + |p.staged| <= INORDER_QUEUE_SIZE
    ensures var p' := Apply(p, Action.ConfirmKey(keypair));
            && p'.pushed == p.pushed + JobsFor(p.staged, keypair, 0) && p'.staged == []
            && p'.keys.current == Some(keypair)
  {
    var p1 := p.(keys := Confirm(p.keys, keypair));
    StagedAreSent(p1);
    SendAllKeepsCurrent(p1);
  }

  lemma {:induction false} SendAllKeepsCurrent(p: State)
    ensures SendAllStaged(p).keys.current == p.keys.current
    decreases |p.staged|
  {
    if p.staged != [] {
      SendAllKeepsCurrent(SendMessage(p.(staged := p.staged[1..]), p.staged[0], false));
    }
  }

  /**
   * As the initiator, a new key is always confirmed to the other side: `add_keypair` pushes at
   * least one job under it, a staged packet or else a keepalive, if there is room for one.
   */
  lemma InitiatorConfirms(p: State, send: Key, recv: Key)
    requires |p.outbound| < INORDER_QUEUE_SIZE
    ensures var p', made := Apply(p, Action.AddKeypair(true, send, recv)), KeyPair(p.keys.made, true, send, recv);
            && |p'.pushed| > |p.pushed| && p'.pushed[..|p.pushed|] == p.pushed
            && p'.pushed[|p.pushed|] == QueuedJob(if p.staged == [] then Keepalive else p.staged[0], 0, made)
  {
    hide SendAllStaged;
    var p1 := p.(keys := Add(p.keys, true, send, recv).0);
    var made := KeyPair(p.keys.made, true, send, recv);
    assert p1.keys.encKey == Some(EncryptionState(made, 0));
    if p.staged != [] {
      var p2 := SendMessage(p1.(staged := p1.staged[1..]), p1.staged[0], false);
      assert p2.pushed == p.pushed + [QueuedJob(p.staged[0], 0, made)];
      SendAllAppends(p2);
      SendAllStep(p1);
    }
  }

  lemma {:induction false} SendAllStep(p: State)
    requires p.staged != []
    ensures SendAllStaged(p) == SendAllStaged(SendMessage(p.(staged := p.staged[1..]), p.staged[0], false))
  {
  }

  lemma {:induction false} SendAllAppends(p: State)
    ensures p.pushed <= SendAllStaged(p).pushed
    decreases |p.staged|
  {
    if p.staged != [] {
      var p1 := SendMessage(p.(staged := p.staged[1..]), p.staged[0], false);
      assert p.pushed <= p1.pushed;
      SendAllAppends(p1);
    }
  }

  // -------------------------------------------------------------------- class

  class Peer {
    var keys: Keys                  // key wheel, encryption key, receiver table
    var staged: seq<Message>
    var outbound: seq<QueuedJob>
    var requests: nat
    ghost var pushed: seq<QueuedJob>
    ghost var submitted: seq<Message>

    ghost function View(): State
      reads this
    {
      State(keys, staged, outbound, requests, pushed, submitted)
    }

    constructor ()
      ensures View() == FRESH
    {
      keys, staged, outbound, requests := KeyWheel.INITIAL, [], [], 0;
      pushed, submitted := [], [];
    }

    method Send(msg: Message, stage: bool)
      modifies this
      ensures View() == SendMessage(old(View()), msg, stage)
    {
      if stage {
        submitted := submitted + [msg];
      }
      var needKey := false;
      match keys.encKey {
        case None =>
          if stage {
            staged := Stage(staged, msg);
          }
          needKey := true;
        case Some(state) =>
          if state.nonce >= REJECT_AFTER_MESSAGES - 1 {
            keys := keys.(encKey := None);
            if stage {
              staged := Stage(staged, msg);
            }
            needKey := true;
          } else if |outbound| < INORDER_QUEUE_SIZE {
            var job := QueuedJob(msg, state.nonce, state.keypair);
            outbound := outbound + [job];
            pushed := pushed + [job];
            keys := keys.(encKey := Some(state.(nonce := state.nonce + 1)),
                          used := keys.used + [(state.keypair.uid, state.nonce)]);
          }
      }
      if needKey {
        requests := requests + 1;
      }
    }

    method SendStaged() returns (sent: bool)
      modifies this
      ensures View() == SendAllStaged(old(View()))
      ensures sent <==> old(staged) != []
    {
      sent := false;
      while staged != []
        invariant SendAllStaged(View()) == SendAllStaged(old(View()))
        invariant sent || staged == old(staged)
        invariant sent ==> old(staged) != []
        decreases |staged|
      {
        ghost var before := View();
        var msg := staged[0];
        staged := staged[1..];
        sent := true;
        Send(msg, false);
        assert View() == SendMessage(before.(staged := before.staged[1..]), msg, false);
      }
    }

    method SendKeepaliveMessage()
      modifies this
      ensures View() == SendMessage(old(View()), Keepalive, false)
    {
      Send(Keepalive, false);
    }

    method ConfirmKeypair(keypair: KeyPair)
      modifies this
      ensures View() == ConfirmAndSend(old(View()), keypair)
    {
      if keys.next.None? {
        return;
      }
      var next := keys.next.value;
      if next.uid != keypair.uid {
        return;
      }
      ghost var start := keys;
      // rotate the wheel through one spare slot
      var swap := None;
      keys, swap := keys.(next := swap), keys.next;
      keys, swap := keys.(current := swap), keys.current;
      keys, swap := keys.(previous := swap), keys.previous;
      keys := Install(keys, next);
      assert keys == Confirm(start, keypair);
      var _ := SendStaged();
    }

    method ForgetIds(release: seq<u32>)
      modifies `keys
      ensures keys == old(keys).(recv := old(keys).recv - (set id | id in release))
    {
      for i := 0 to |release|
        invariant keys == old(keys).(recv := old(keys).recv - (set id | id in release[..i]))
      {
        keys := keys.(recv := keys.recv - {release[i]});
      }
      assert release[..|release|] == release;
    }

    method ZeroAllKeys()
      modifies `keys
      ensures keys == Zero(old(keys))
      ensures forall id :: id in keys.recv <==>
                id in old(keys).recv && id !in IdOf(old(keys).next) + IdOf(old(keys).current) + IdOf(old(keys).previous)
    {
      var release := [];
      if keys.next.Some? {
        release := release + [keys.next.value.recv.id];
        keys := keys.(next := None);
      }
      if keys.current.Some? {
        release := release + [keys.current.value.recv.id];
        keys := keys.(current := None);
      }
      if keys.previous.Some? {
        release := release + [keys.previous.value.recv.id];
        keys := keys.(previous := None);
      }
      assert release == IdOf(old(keys).next) + IdOf(old(keys).current) + IdOf(old(keys).previous);
      keys := keys.(retired := keys.retired + release);
      ForgetIds(release);
      keys := keys.(encKey := None);
    }

    /** The part of `add_keypair` under the locks. */
    method TurnWheel(initiator: bool, send: Key, recv: Key) returns (release: seq<u32>)
      modifies `keys
      ensures keys == Add(old(keys), initiator, send, recv).0
      ensures release == Add(old(keys), initiator, send, recv).1
    {
      var keypair := KeyPair(keys.made, initiator, send, recv);
      release := keys.retired;
      keys := keys.(retired := [], made := keys.made + 1);
      if initiator {
        keys := Install(keys, keypair);
        keys := keys.(previous := keys.current);
        keys := keys.(current := Some(keypair));
      } else {
        keys := keys.(previous := keys.next);
        keys := keys.(next := Some(keypair));
      }
      if keys.previous.Some? {
        var id := keys.previous.value.recv.id;
        keys := keys.(recv := keys.recv - {id});
        release := release + [id];
      }
      keys := keys.(recv := keys.recv[recv.id := keypair]);
    }

    method AddNewKeypair(initiator: bool, send: Key, recv: Key) returns (release: seq<u32>)
      modifies this
      ensures View() == AddAndSend(old(View()), initiator, send, recv)
      ensures release == Add(old(keys), initiator, send, recv).1
    {
      release := TurnWheel(initiator, send, recv);
      if initiator {
        var sent := SendStaged();
        if !sent {
          SendKeepaliveMessage();
        }
      }
    }

    method PurgeStagedPackets()
      modifies this
      ensures View() == old(View()).(staged := [])
    {
      staged := [];
    }
  }
}
