/**
 * Cookies and the two message MACs (src/wireguard_hybrid_new/handshake/macs.rs). Wall-clock times
 * are in seconds since the epoch, the generator's monotonic times in seconds as well.
 */
module Cookies {
  import opened Base
  import opened Codec

  const WINDOW_SECS: nat := 60
  const COOKIE_UPDATE_INTERVAL: nat := 120

  type Mac = Kid

  /** The primitives: `xopen` undoes `xseal` under the same key, nonce and associated data. */
  datatype Primitives = Primitives(
    hash: Bytes -> Hash, mac: (Bytes, Bytes) -> Mac,
    xseal: (Bytes, Bytes, Bytes, Bytes) -> Bytes,             // (key, nonce, associated data, plaintext)
    xopen: (Bytes, Bytes, Bytes, Bytes) -> Option<Bytes>,
    labelMac1: Bytes, labelCookie: Bytes, labelPlain: Bytes, zeroMac: Mac)

  ghost predicate OpensWhatItSeals(p: Primitives) {
    forall k, n, ad, m :: p.xopen(k, n, ad, p.xseal(k, n, ad, m)) == Some(m)
  }

  datatype SocketAddr = SocketAddr(ip: IpAddr, port: u16)

  /** The octets and the port, most significant byte first. */
  function AddrBytes(a: SocketAddr): (b: seq<byte>) {
    a.ip.octets + Be(a.port, 2)
  }

  predicate WellFormed(a: SocketAddr) {
    |a.ip.octets| == if a.ip.V4? then 4 else 16
  }

  /** Different addresses are MACed as different bytes. */
  lemma AddressesDiffer(a: SocketAddr, b: SocketAddr)
    requires WellFormed(a) && WellFormed(b) && AddrBytes(a) == AddrBytes(b)
    ensures a == b
  {
    var n := |a.ip.octets|;
    assert |AddrBytes(a)| == n + 2 && |AddrBytes(b)| == |b.ip.octets| + 2;
    assert AddrBytes(a)[..n] == a.ip.octets && AddrBytes(b)[..n] == b.ip.octets;
    assert AddrBytes(a)[n..] == Be(a.port, 2) && AddrBytes(b)[n..] == Be(b.port, 2);
    Widths();
    BeRoundTrip(a.port, 2);
    BeRoundTrip(b.port, 2);
  }

  function Window(now: nat): (w: nat)
    ensures w <= now < w + WINDOW_SECS && w % WINDOW_SECS == 0
  {
    (now / WINDOW_SECS) * WINDOW_SECS
  }

  function Previous(window: nat): nat {
    if window >= WINDOW_SECS then window - WINDOW_SECS else 0
  }

  function CookiePlain(p: Primitives, root: Hash, src: Bytes, window: nat): Mac {
    p.mac(p.hash(root + Be(window, 8)), src + p.labelPlain)
  }

  datatype Macs = Macs(mac1: Mac, mac2: Mac)

  datatype CookieReply = CookieReply(receiver: Bytes, nonce: Bytes, cookie: Bytes)

  datatype Cookie = Cookie(value: Bytes, birth: nat)

  datatype GeneratorState = GeneratorState(
    mac1Key: Hash, cookieKey: Hash, lastMac1: Option<Mac>, cookie: Option<Cookie>)

  datatype ValidatorState = ValidatorState(mac1Key: Hash, cookieKey: Hash, root: Hash)

  function NewGenerator(p: Primitives, psk: Bytes, responderPkHash: Hash): GeneratorState {
    GeneratorState(p.hash(p.labelMac1 + psk), p.hash(p.labelCookie + responderPkHash), None, None)
  }

  function NewValidator(p: Primitives, psk: Bytes, responderPkHash: Hash, root: Hash): ValidatorState {
    ValidatorState(p.hash(p.labelMac1 + psk), p.hash(p.labelCookie + responderPkHash), root)
  }

  /** A cookie is used for 120 s after it came in, and then dropped. */
  function Generated(p: Primitives, g: GeneratorState, inner: Bytes, instant: nat): (GeneratorState, Macs) {
    var mac1 := p.mac(g.mac1Key, inner);
    var live := g.cookie.Some? && instant <= g.cookie.value.birth + COOKIE_UPDATE_INTERVAL;
    (g.(lastMac1 := Some(mac1), cookie := if live then g.cookie else None),
     Macs(mac1, if live then p.mac(g.cookie.value.value, inner + mac1) else p.zeroMac))
  }

  function Processed(p: Primitives, g: GeneratorState, reply: CookieReply, instant: nat)
    : Result<GeneratorState, HandshakeError>
  {
    if g.lastMac1.None? then Err(InvalidState)
    else
      var tau := p.xopen(g.cookieKey, reply.nonce, g.lastMac1.value, reply.cookie);
      if tau.None? then Err(DecryptionFailure) else Ok(g.(cookie := Some(Cookie(tau.value, instant))))
  }

  function Replied(p: Primitives, v: ValidatorState, receiver: Bytes, src: SocketAddr, macs: Macs, nonce: Bytes,
                   now: nat)
    : CookieReply
  {
    CookieReply(receiver, nonce,
                p.xseal(v.cookieKey, nonce, macs.mac1, CookiePlain(p, v.root, AddrBytes(src), Window(now))))
  }

  predicate Mac2Ok(p: Primitives, v: ValidatorState, inner: Bytes, src: SocketAddr, macs: Macs, now: nat) {
    var current := Window(now);
    || p.mac(CookiePlain(p, v.root, AddrBytes(src), current), inner + macs.mac1) == macs.mac2
    || p.mac(CookiePlain(p, v.root, AddrBytes(src), Previous(current)), inner + macs.mac1) == macs.mac2
  }

  // --------------------------------------------------------------- main results

  /** The cookies of two addresses and windows are one and the same, or make different MACs of this message. */
  predicate Told(p: Primitives, root: Hash, message: Bytes, a: SocketAddr, w: nat, b: SocketAddr, w': nat) {
    (a == b && w == w') ||
    p.mac(CookiePlain(p, root, AddrBytes(a), w), message) != p.mac(CookiePlain(p, root, AddrBytes(b), w'), message)
  }

  /** The windows that are looked at: the current one and the one before. */
  lemma WindowArithmetic(minted: nat, now: nat)
    requires minted <= now
    ensures (Window(now) == Window(minted) || Previous(Window(now)) == Window(minted)) <==> now < Window(minted) + 120
    ensures Window(minted) + 120 <= minted + 120 && minted + 60 < Window(minted) + 120
  {
    var w := minted / WINDOW_SECS;
    var v := now / WINDOW_SECS;
    assert w <= v;
    assert Window(minted) == 60 * w && Window(now) == 60 * v;
  }

  datatype Message = Message(inner: Bytes, instant: nat)

  /** The generator and the MACs after a run of messages. */
  function GeneratedAll(p: Primitives, g: GeneratorState, msgs: seq<Message>): (r: (GeneratorState, seq<Macs>))
    ensures |r.1| == |msgs|
  {
    if msgs == [] then (g, [])
    else
      var n := |msgs| - 1;
      var (g1, before) := GeneratedAll(p, g, msgs[..n]);
      var (g2, macs) := Generated(p, g1, msgs[n].inner, msgs[n].instant);
      (g2, before + [macs])
  }

  /** The generator's clock does not run backwards. */
  ghost predicate Ordered(msgs: seq<Message>) {
    forall i, j :: 0 <= i < j < |msgs| ==> msgs[i].instant <= msgs[j].instant
  }

  /** Every message up to 120 s after the cookie came in carries it, and no later one does. */
  lemma {:induction false} CookieIsCarried(p: Primitives, g: GeneratorState, msgs: seq<Message>, k: nat)
    requires g.cookie.Some? && Ordered(msgs) && k < |msgs|
    ensures var (g', macs) := GeneratedAll(p, g, msgs);
            && macs[k].mac1 == p.mac(g.mac1Key, msgs[k].inner)
            && macs[k].mac2 == (if msgs[k].instant <= g.cookie.value.birth + COOKIE_UPDATE_INTERVAL
                                then p.mac(g.cookie.value.value, msgs[k].inner + macs[k].mac1) else p.zeroMac)
  {
    CookieAfter(p, g, msgs[..|msgs| - 1]);
    if k < |msgs| - 1 {
      CookieIsCarried(p, g, msgs[..|msgs| - 1], k);
    }
  }

  lemma {:induction false} CookieAfter(p: Primitives, g: GeneratorState, msgs: seq<Message>)
    requires g.cookie.Some? && Ordered(msgs)
    ensures var g' := GeneratedAll(p, g, msgs).0;
            && g'.mac1Key == g.mac1Key && g'.cookieKey == g.cookieKey
            && g'.cookie == (if msgs == [] || msgs[|msgs| - 1].instant <= g.cookie.value.birth + COOKIE_UPDATE_INTERVAL
                             then g.cookie else None)
  {
    if msgs != [] {
      CookieAfter(p, g, msgs[..|msgs| - 1]);
    }
  }

  /**
   * A cookie minted at `minted` for a first message of `src` and carried through the reply goes
   * with every message of the next 120 s, and each of them passes for `src` up to the end of the
   * window after the one the cookie was minted in, which is at least 60 s and less than 120 s
   * after minting. If the MACs of the windows and addresses looked at differ, it passes for no
   * other time and no other sender.
   */
  lemma {:induction false} CookieLifetime(p: Primitives, psk: Bytes, validatorPsk: Bytes, pkHash: Hash, root: Hash,
                       g: GeneratorState, first: Message, receiver: Bytes, src: SocketAddr, nonce: Bytes,
                       minted: nat, arrived: nat, later: seq<Message>, k: nat, from: SocketAddr, now: nat)
    requires OpensWhatItSeals(p) && g.cookieKey == NewGenerator(p, psk, pkHash).cookieKey
    requires Ordered(later) && k < |later| && later[k].instant <= arrived + COOKIE_UPDATE_INTERVAL
    requires minted <= now
    ensures var v := NewValidator(p, validatorPsk, pkHash, root);
            var (g1, macs1) := Generated(p, g, first.inner, first.instant);
            var g2 := Processed(p, g1, Replied(p, v, receiver, src, macs1, nonce, minted), arrived);
            && g2.Ok?
            && var macs := GeneratedAll(p, g2.value, later).1[k];
            && var inner := later[k].inner;
            && (now < Window(minted) + 120 ==> Mac2Ok(p, v, inner, src, macs, now))
            && (now <= minted + 60 ==> Mac2Ok(p, v, inner, src, macs, now))
            && (Told(p, root, inner + macs.mac1, src, Window(minted), from, Window(now)) &&
                Told(p, root, inner + macs.mac1, src, Window(minted), from, Previous(Window(now))) ==>
                  && (Mac2Ok(p, v, inner, from, macs, now) <==> from == src && now < Window(minted) + 120)
                  && (now >= minted + 120 ==> !Mac2Ok(p, v, inner, from, macs, now)))
  {
    hide Window, Be, AddrBytes, CookiePlain;
    WindowArithmetic(minted, now);
    var v := NewValidator(p, validatorPsk, pkHash, root);
    var (g1, macs1) := Generated(p, g, first.inner, first.instant);
    var tau := CookiePlain(p, root, AddrBytes(src), Window(minted));
    assert p.xopen(v.cookieKey, nonce, macs1.mac1, p.xseal(v.cookieKey, nonce, macs1.mac1, tau)) == Some(tau);
    var g2 := Processed(p, g1, Replied(p, v, receiver, src, macs1, nonce, minted), arrived);
    CookieIsCarried(p, g2.value, later, k);
  }

  /** `check_mac1`. */
  predicate Mac1Ok(p: Primitives, v: ValidatorState, inner: Bytes, macs: Macs) {
    p.mac(v.mac1Key, inner) == macs.mac1
  }

  /** A first MAC validates for no other message and under no other pre-shared key, short of a collision. */
  lemma Mac1IsExact(p: Primitives, psk: Bytes, psk': Bytes, pkHash: Hash, root: Hash, inner: Bytes, inner': Bytes,
                    instant: nat)
    requires p.hash(p.labelMac1 + psk) == p.hash(p.labelMac1 + psk') ==> p.labelMac1 + psk == p.labelMac1 + psk'
    requires var k, k' := p.hash(p.labelMac1 + psk), p.hash(p.labelMac1 + psk');
             p.mac(k, inner) == p.mac(k', inner') ==> k == k' && inner == inner'
    ensures var macs := Generated(p, NewGenerator(p, psk, pkHash), inner, instant).1;
            && (Mac1Ok(p, NewValidator(p, psk', pkHash, root), inner', macs) <==> psk == psk' && inner == inner')
            && macs.mac2 == p.zeroMac
  {
    var a, b := p.labelMac1 + psk, p.labelMac1 + psk';
    assert a[|p.labelMac1|..] == psk && b[|p.labelMac1|..] == psk';
  }

  /** A cookie has the root secret, the window and the address in it, short of a collision. */
  lemma {:induction false} CookieBinds(p: Primitives, root: Hash, a: SocketAddr, w: u64, root': Hash, b: SocketAddr,
                                       w': u64)
    requires WellFormed(a) && WellFormed(b)
    requires var k, k' := root + Be(w, 8), root' + Be(w', 8);
             && (p.hash(k) == p.hash(k') ==> k == k')
             && (p.mac(p.hash(k), AddrBytes(a) + p.labelPlain) == p.mac(p.hash(k'), AddrBytes(b) + p.labelPlain) ==>
                   p.hash(k) == p.hash(k') && AddrBytes(a) + p.labelPlain == AddrBytes(b) + p.labelPlain)
    ensures CookiePlain(p, root, AddrBytes(a), w) == CookiePlain(p, root', AddrBytes(b), w') <==>
              root == root' && a == b && w == w'
  {
    if CookiePlain(p, root, AddrBytes(a), w) == CookiePlain(p, root', AddrBytes(b), w') {
      assert (root + Be(w, 8))[..32] == root && (root + Be(w, 8))[32..] == Be(w, 8);
      assert (root' + Be(w', 8))[..32] == root' && (root' + Be(w', 8))[32..] == Be(w', 8);
      Widths();
      BeRoundTrip(w, 8);
      BeRoundTrip(w', 8);
      SameAddress(a, b, p.labelPlain);
    }
  }

  lemma SameAddress(a: SocketAddr, b: SocketAddr, tail: Bytes)
    requires WellFormed(a) && WellFormed(b) && AddrBytes(a) + tail == AddrBytes(b) + tail
    ensures a == b
  {
    var x, y := AddrBytes(a), AddrBytes(b);
    assert |x + tail| == |x| + |tail| && |y + tail| == |y| + |tail|;
    assert (x + tail)[..|x|] == x && (y + tail)[..|y|] == y;
    AddressesDiffer(a, b);
  }

  // --------------------------------------------------- where a cookie comes from

  datatype Event =
    | Send(inner: Bytes, instant: nat)
    | Receive(reply: CookieReply, instant: nat)
    | SetKey(psk: Bytes)

  function Step(p: Primitives, g: GeneratorState, e: Event): GeneratorState {
    match e
    case Send(inner, instant) => Generated(p, g, inner, instant).0
    case Receive(reply, instant) => (match Processed(p, g, reply, instant) case Ok(g') => g' case Err(_) => g)
    case SetKey(psk) => GeneratorState(p.hash(p.labelMac1 + psk), g.cookieKey, None, None)
  }

  function After(p: Primitives, g: GeneratorState, events: seq<Event>): GeneratorState {
    if events == [] then g else Step(p, After(p, g, events[..|events| - 1]), events[|events| - 1])
  }

  /** The last message sent under the key that is set. */
  function LastSent(events: seq<Event>): Option<Bytes> {
    if events == [] then None
    else
      match events[|events| - 1]
      case Send(inner, _) => Some(inner)
      case Receive(_, _) => LastSent(events[..|events| - 1])
      case SetKey(_) => None
  }

  /** The key that is set. */
  function KeyAfter(p: Primitives, psk: Bytes, events: seq<Event>): Hash {
    if events == [] then p.hash(p.labelMac1 + psk)
    else
      match events[|events| - 1]
      case SetKey(k) => p.hash(p.labelMac1 + k)
      case _ => KeyAfter(p, psk, events[..|events| - 1])
  }

  /** What the reply `events[k]` opens to, under the first MAC of the message sent last. */
  function Opens(p: Primitives, psk: Bytes, pkHash: Hash, events: seq<Event>, k: nat): Option<Bytes>
    requires k < |events|
  {
    var sent := LastSent(events[..k]);
    if events[k].Receive? && sent.Some? then
      p.xopen(p.hash(p.labelCookie + pkHash), events[k].reply.nonce,
              p.mac(KeyAfter(p, psk, events[..k]), sent.value), events[k].reply.cookie)
    else None
  }

  /** Nothing after position `k` ends a cookie that was born then. */
  ghost predicate Lasts(p: Primitives, psk: Bytes, pkHash: Hash, events: seq<Event>, k: nat)
    requires k < |events| && events[k].Receive?
  {
    forall i :: k < i < |events| ==> Spares(p, psk, pkHash, events, i, events[k].instant)
  }

  /** `events[i]` is no new key, opens no newer cookie, and is no message past 120 s. */
  predicate Spares(p: Primitives, psk: Bytes, pkHash: Hash, events: seq<Event>, i: nat, birth: nat)
    requires i < |events|
  {
    && !events[i].SetKey? && Opens(p, psk, pkHash, events, i).None?
    && (events[i].Send? ==> events[i].instant <= birth + 120)
  }

  ghost predicate Comes(p: Primitives, psk: Bytes, pkHash: Hash, events: seq<Event>, k: nat, c: Cookie)
    requires k < |events|
  {
    && Opens(p, psk, pkHash, events, k) == Some(c.value) && events[k].instant == c.birth
    && Lasts(p, psk, pkHash, events, k)
  }

  lemma ShorterOpens(p: Primitives, psk: Bytes, pkHash: Hash, events: seq<Event>, n: nat, k: nat)
    requires k < n <= |events|
    ensures Opens(p, psk, pkHash, events[..n], k) == Opens(p, psk, pkHash, events, k)
    ensures forall birth :: Spares(p, psk, pkHash, events[..n], k, birth) == Spares(p, psk, pkHash, events, k, birth)
  {
    assert events[..n][..k] == events[..k];
  }

  lemma {:induction false} KeysAfter(p: Primitives, psk: Bytes, pkHash: Hash, events: seq<Event>)
    ensures var g := After(p, NewGenerator(p, psk, pkHash), events);
            && g.mac1Key == KeyAfter(p, psk, events) && g.cookieKey == p.hash(p.labelCookie + pkHash)
            && g.lastMac1 == (if LastSent(events).None? then None
                              else Some(p.mac(KeyAfter(p, psk, events), LastSent(events).value)))
  {
    if events != [] {
      KeysAfter(p, psk, pkHash, events[..|events| - 1]);
    }
  }

  lemma LastsLonger(p: Primitives, psk: Bytes, pkHash: Hash, events: seq<Event>, k: nat)
    requires k < |events| - 1 && events[k].Receive?
    ensures var n := |events| - 1;
            Lasts(p, psk, pkHash, events, k) <==>
              Lasts(p, psk, pkHash, events[..n], k) && Spares(p, psk, pkHash, events, n, events[k].instant)
  {
    hide Spares, Opens;
    var n := |events| - 1;
    forall i | k < i < n
      ensures Spares(p, psk, pkHash, events[..n], i, events[k].instant) ==
              Spares(p, psk, pkHash, events, i, events[k].instant)
    {
      ShorterOpens(p, psk, pkHash, events, n, i);
    }
  }

  lemma ComesLonger(p: Primitives, psk: Bytes, pkHash: Hash, events: seq<Event>, k: nat, c: Cookie)
    requires k < |events| - 1
    ensures var n := |events| - 1;
            Comes(p, psk, pkHash, events, k, c) <==>
              Comes(p, psk, pkHash, events[..n], k, c) && Spares(p, psk, pkHash, events, n, c.birth)
  {
    hide Lasts, Spares;
    ShorterOpens(p, psk, pkHash, events, |events| - 1, k);
    if events[k].Receive? { LastsLonger(p, psk, pkHash, events, k); }
  }

  lemma LastComes(p: Primitives, psk: Bytes, pkHash: Hash, events: seq<Event>, c: Cookie)
    requires events != []
    ensures var n := |events| - 1;
            var plain := Opens(p, psk, pkHash, events, n);
            Comes(p, psk, pkHash, events, n, c) <==> plain.Some? && c == Cookie(plain.value, events[n].instant)
  {
  }

  /** The last event opens a cookie, or leaves the one there is, or ends it. */
  lemma {:induction false} LastStep(p: Primitives, psk: Bytes, pkHash: Hash, events: seq<Event>, c: Cookie)
    requires events != []
    ensures var n := |events| - 1;
            var sooner, plain := After(p, NewGenerator(p, psk, pkHash), events[..n]).cookie,
              Opens(p, psk, pkHash, events, n);
            After(p, NewGenerator(p, psk, pkHash), events).cookie == Some(c) <==>
              if plain.Some? then c == Cookie(plain.value, events[n].instant)
              else sooner == Some(c) && Spares(p, psk, pkHash, events, n, c.birth)
  {
    KeysAfter(p, psk, pkHash, events[..|events| - 1]);
  }

  /**
   * In every run a generator has a cookie exactly if some reply plain under the first MAC of the
   * message sent before it, and no new key, no newer reply that opened and no message later than
   * 120 s came since; and the cookie is what that reply opened to.
   */
  lemma {:induction false} CookieComesFrom(p: Primitives, psk: Bytes, pkHash: Hash, events: seq<Event>, c: Cookie)
    ensures After(p, NewGenerator(p, psk, pkHash), events).cookie == Some(c) <==>
              exists k :: 0 <= k < |events| && Comes(p, psk, pkHash, events, k, c)
  {
    hide Lasts, Opens, Spares, Comes, After;
    if events != [] {
      var n := |events| - 1;
      var before := events[..n];
      CookieComesFrom(p, psk, pkHash, before, c);
      LastStep(p, psk, pkHash, events, c);
      forall k | 0 <= k < n
        ensures Comes(p, psk, pkHash, events, k, c) <==>
                  Comes(p, psk, pkHash, before, k, c) && Spares(p, psk, pkHash, events, n, c.birth)
      {
        ComesLonger(p, psk, pkHash, events, k, c);
      }
      LastComes(p, psk, pkHash, events, c);
      OpeningEnds(p, psk, pkHash, events, c.birth);
    } else {
      NoneAtFirst(p, psk, pkHash);
    }
  }

  lemma OpeningEnds(p: Primitives, psk: Bytes, pkHash: Hash, events: seq<Event>, birth: nat)
    requires events != []
    ensures Opens(p, psk, pkHash, events, |events| - 1).Some? ==> !Spares(p, psk, pkHash, events, |events| - 1, birth)
  {
  }

  lemma {:induction false} NoneAtFirst(p: Primitives, psk: Bytes, pkHash: Hash)
    ensures After(p, NewGenerator(p, psk, pkHash), []).cookie.None?
  {
  }

  // -------------------------------------------------------------------- classes

  class Generator {
    const p: Primitives
    var mac1Key: Hash
    var cookieKey: Hash
    var lastMac1: Option<Mac>
    var cookie: Option<Cookie>

    function View(): GeneratorState
      reads this
    {
      GeneratorState(mac1Key, cookieKey, lastMac1, cookie)
    }

    constructor (p: Primitives, psk: Bytes, responderPkHash: Hash)
      ensures this.p == p && View() == NewGenerator(p, psk, responderPkHash)
    {
      this.p := p;
      mac1Key, cookieKey := p.hash(p.labelMac1 + psk), p.hash(p.labelCookie + responderPkHash);
      lastMac1, cookie := None, None;
    }

    /** A new key forgets what was tied to the old one. */
    method SetMac1Key(psk: Bytes)
      modifies this
      ensures View() == GeneratorState(p.hash(p.labelMac1 + psk), old(cookieKey), None, None)
    {
      mac1Key := p.hash(p.labelMac1 + psk);
      lastMac1 := None;
      cookie := None;
    }

    method Process(reply: CookieReply, instant: nat) returns (error: Option<HandshakeError>)
      modifies this`cookie
      ensures match Processed(p, old(View()), reply, instant)
              case Err(e) => error == Some(e) && View() == old(View())
              case Ok(g) => error.None? && View() == g
      ensures error.None? <==>
                && old(lastMac1).Some?
                && p.xopen(old(cookieKey), reply.nonce, old(lastMac1).value, reply.cookie).Some?
    {
      if lastMac1.None? {
        return Some(InvalidState);
      }
      var tau := p.xopen(cookieKey, reply.nonce, lastMac1.value, reply.cookie);
      if tau.None? {
        return Some(DecryptionFailure);
      }
      cookie := Some(Cookie(tau.value, instant));
      error := None;
    }

    method Generate(inner: Bytes, instant: nat) returns (macs: Macs)
      modifies this`cookie, this`lastMac1
      ensures (View(), macs) == Generated(p, old(View()), inner, instant)
    {
      var mac1: Mac := p.mac(mac1Key, inner);
      var mac2: Mac := p.zeroMac;
      if cookie.Some? {
        if instant > cookie.value.birth + COOKIE_UPDATE_INTERVAL {
          cookie := None;
        } else {
          mac2 := p.mac(cookie.value.value, inner + mac1);
        }
      }
      macs := Macs(mac1, mac2);
      lastMac1 := Some(mac1);
    }
  }
}
