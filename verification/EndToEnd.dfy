/**
 * Sender and receiver together: a packet on the wire of a peer is one that the other end, holding
 * the same key, may pass on, with exactly the body that was submitted.
 */
module EndToEnd {
  import opened Base
  import opened Codec
  import S = SendPath
  import R = ReceivePath

  /** The receiver opens with the AEAD's `open`, under the key of each decryption state. */
  ghost predicate OpensWith(env: R.Env, open: S.Open, keyOf: R.DecryptionId -> Bytes) {
    forall d, counter, body :: env.open(d, counter, body) == open(keyOf(d), counter, body)
  }

  /** Sealing adds a tag of 16 bytes. */
  ghost predicate AddsTag(seal: S.Seal) {
    forall key, nonce, body :: |seal(key, nonce, body)| == |body| + SIZE_TAG
  }

  /**
   * Each packet on the wire may pass at a receiver that holds the sender's key and routes the
   * body this way, with the counter in its header, and yields exactly the submitted body.
   */
  lemma WireMayPass(seal: S.Seal, open: S.Open, workers: nat, acts: seq<S.Action>, s: S.State, i: nat,
                    env: R.Env, keyOf: R.DecryptionId -> Bytes, d: R.DecryptionId, from: R.Endpoint)
    requires S.OpensWhatItSeals(seal, open) && AddsTag(seal) && OpensWith(env, open, keyOf)
    requires S.Reachable(seal, workers, acts, s) && i < |s.wire|
    ensures |s.wire[i]| >= SIZE_HEADER + SIZE_TAG && i < |s.queue.pushed| && s.queue.pushed[i] in s.jobs
    ensures var job := s.jobs[s.queue.pushed[i]];
            && S.Action.Send(s.queue.pushed[i], job.msg) in acts && |job.msg| >= SIZE_HEADER
            && var body := job.msg[SIZE_HEADER..];
            && (keyOf(d) == job.keypair.send.key && (body == [] || env.route(body + R.TagOf(s.wire[i]))) ==>
                  R.MayPass(env, R.ReceiveJob.ReceiveJob(d, s.wire[i], from), body))
  {
    hide S.Reachable;
    S.WireOpensToSubmitted(seal, open, workers, acts, s, i);
    var body := s.jobs[s.queue.pushed[i]].msg[SIZE_HEADER..];
    assert s.wire[i][8..16] == s.wire[i][..SIZE_HEADER][8..16];
  }

  /**
   * From the socket to the TUN device: a packet that is new at the receiver and not behind its
   * window delivers as many bytes of the submitted body as the IP header in it says.
   */
  lemma {:induction false} SubmittedIsDelivered(seal: S.Seal, open: S.Open, workers: nat, acts: seq<S.Action>,
                                                s: S.State, i: nat,
                             env: R.Env, keyOf: R.DecryptionId -> Bytes, d: R.DecryptionId, from: R.Endpoint,
                             confirmed: set<R.DecryptionId>, earlier: seq<R.ReceiveJob>, inner: nat)
    requires S.OpensWhatItSeals(seal, open) && AddsTag(seal) && OpensWith(env, open, keyOf)
    requires S.Reachable(seal, workers, acts, s) && i < |s.wire|
    requires |s.wire[i]| >= SIZE_HEADER + SIZE_TAG && i < |s.queue.pushed| && s.queue.pushed[i] in s.jobs
    requires var job := s.jobs[s.queue.pushed[i]];
             && keyOf(d) == job.keypair.send.key && |job.msg| >= SIZE_HEADER
             && var body := job.msg[SIZE_HEADER..];
             && env.route(body + R.TagOf(s.wire[i]))
             && env.innerLength(body + R.TagOf(s.wire[i])) == Some(inner) && inner <= |body|
    requires var before := R.OneByOne(env, R.Start(confirmed), earlier);
             && (d, R.CounterOf(s.wire[i])) !in before.passed
             && (forall c :: (d, c) in before.passed ==> c <= R.CounterOf(s.wire[i]) + R.AR.WINDOW_SIZE)
    ensures var job := R.ReceiveJob.ReceiveJob(d, s.wire[i], from);
            var after := R.OneByOne(env, R.Start(confirmed), earlier + [job]);
            && R.Event.Tun(s.jobs[s.queue.pushed[i]].msg[SIZE_HEADER..][..inner]) in after.events
            && d in after.confirmed && after.endpoint == Some(from)
  {
    hide S.Reachable, R.OneByOne;
    WireMayPass(seal, open, workers, acts, s, i, env, keyOf, d, from);
    var body := s.jobs[s.queue.pushed[i]].msg[SIZE_HEADER..];
    R.DeliveredExactly(env, confirmed, earlier, R.ReceiveJob.ReceiveJob(d, s.wire[i], from), body);
  }
}
