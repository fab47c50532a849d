/**
 The two ends of a CxSec session: framing of requests and responses, replay protection, and the
 exchange of any number of requests.
 */
module CxSession {
  import opened Options
  import opened Bytes
  import opened CxBlock
  import opened CxRatchet

  const BLOCK_SECONDS: nat := 30
  const NONCE_SECONDS: nat := 120
  const MAX_NONCES: nat := 200000
  const SERVER_SKEW: nat := 45000
  const CLIENT_SKEW: nat := 60000

  type Hint = h: Text | |h| == 8 witness seq(8, _ => 0)

  /** One end of a session. The counter is a 32-bit word. */
  datatype Peer = Peer(keys: Keys, counter: nat, id: string, hint: Hint, nonces: map<Nonce, int>)

  function Seconds(ms: nat): nat { ms / 1000 }

  function TimeBlock(ms: nat): nat { Seconds(ms) / BLOCK_SECONDS }

  function NextCounter(c: nat): nat { (c + 1) % TWO32 }

  // ---------------------------------------------------------------- framing

  /** `signed` is the part of the body the signature covers. */
  datatype Frame = Frame(hint: Text, nonce: Nonce, sealed: Sealed, signed: Text, sig: Key)

  function UnpackRequest(body: Text): Option<Frame> {
    if |body| < 8 + 16 + 1 + 16 + 32 then None
    else
      var sigStart := |body| - 32;
      var tagStart := sigStart - 16;
      Some(Frame(body[..8], body[8..24], Sealed(body[24..tagStart], body[tagStart..sigStart]), body[..sigStart], body[sigStart..]))
  }

  function UnpackResponse(body: Text): Option<Frame> {
    if |body| < 16 + 16 + 32 then None
    else
      var sigStart := |body| - 32;
      var tagStart := sigStart - 16;
      Some(Frame([], body[..16], Sealed(body[16..tagStart], body[tagStart..sigStart]), body[..sigStart], body[sigStart..]))
  }

  /** Which bodies unpack at all, and that the pieces are the body. */
  lemma UnpackMeans(body: Text)
    ensures UnpackRequest(body).Some? <==> |body| >= 73
    ensures UnpackRequest(body).Some? ==>
              var f := UnpackRequest(body).value;
              && f.hint + f.nonce + f.sealed.ciphertext + f.sealed.tag + f.sig == body && f.signed + f.sig == body
              && |f.hint| == 8 && |f.sealed.tag| == 16
    ensures UnpackResponse(body).Some? <==> |body| >= 64
    ensures UnpackResponse(body).Some? ==>
              var f := UnpackResponse(body).value;
              && f.nonce + f.sealed.ciphertext + f.sealed.tag + f.sig == body && f.signed + f.sig == body
              && f.hint == [] && |f.sealed.tag| == 16
  {}

  lemma UnpackOfPack(hint: Hint, nonce: Nonce, c: Sealed, sig: Key)
    requires |c.tag| == 16 && |c.ciphertext| >= 1
    ensures var signed := hint + nonce + c.ciphertext + c.tag;
            UnpackRequest(signed + sig) == Some(Frame(hint, nonce, c, signed, sig))
    ensures var signed := nonce + c.ciphertext + c.tag;
            UnpackResponse(signed + sig) == Some(Frame([], nonce, c, signed, sig))
  {
    var q := hint + nonce + c.ciphertext + c.tag + sig;
    var t := 24 + |c.ciphertext|;
    assert q[..8] == hint && q[8..24] == nonce && q[24..t] == c.ciphertext && q[t..t + 16] == c.tag && q[t + 16..] == sig;
    assert q[..t + 16] == hint + nonce + c.ciphertext + c.tag;
    var r := nonce + c.ciphertext + c.tag + sig;
    var u := 16 + |c.ciphertext|;
    assert r[..16] == nonce && r[16..u] == c.ciphertext && r[u..u + 16] == c.tag && r[u + 16..] == sig;
    assert r[..u + 16] == nonce + c.ciphertext + c.tag;
  }

  // ---------------------------------------------------------------- the two ends, as functions

  ghost function SealWith(s: Suite, epochKey: Key, id: string, counter: nat, ms: nat, nonce: Nonce,
                          payload: Text, padding: Text): (c: Sealed)
    requires Sound(s) && |padding| < 128
    ensures |c.tag| == 16 && |c.ciphertext| >= 1
  {
    var (pre, post) := s.whiten(epochKey, id);
    Encrypt(s, s.requestKey(epochKey, TimeBlock(ms), counter, nonce), pre, post, nonce, counter, ms, payload, padding)
  }

  function Signed(s: Suite, epochKey: Key, ms: nat, body: Text): Text {
    body + s.sign(s.hmacKey(epochKey, TimeBlock(ms)), body)
  }

  /** The request body the browser sends. */
  ghost function Request(s: Suite, p: Peer, ms: nat, nonce: Nonce, payload: Text, padding: Text): (Peer, Text)
    requires Sound(s) && |padding| < 128
  {
    var keys := Ratcheted(s.ratchet, p.keys, Seconds(ms));
    var c := SealWith(s, keys.current, p.id, p.counter, ms, nonce, payload, padding);
    (p.(keys := keys), Signed(s, keys.current, ms, p.hint + nonce + c.ciphertext + c.tag))
  }

  /** The response body the server sends for the request it decrypted under `counter`. */
  ghost function Response(s: Suite, p: Peer, counter: nat, ms: nat, nonce: Nonce, payload: Text, padding: Text): (Peer, Text)
    requires Sound(s) && |padding| < 128
  {
    var keys := Ratcheted(s.ratchet, p.keys, Seconds(ms));
    var c := SealWith(s, keys.current, p.id, counter, ms, nonce, payload, padding);
    (p.(keys := keys), Signed(s, keys.current, ms, nonce + c.ciphertext + c.tag))
  }

  predicate Verifies(s: Suite, epochKey: Key, block: int, f: Frame) {
    s.sign(s.hmacKey(epochKey, block), f.signed) == f.sig
  }

  /** The current epoch before the previous one, this time block before the one before. */
  function SigningEpoch(s: Suite, keys: Keys, block: int, f: Frame): Option<Key> {
    if Verifies(s, keys.current, block, f) || Verifies(s, keys.current, block - 1, f) then Some(keys.current)
    else if Verifies(s, keys.previous, block, f) || Verifies(s, keys.previous, block - 1, f) then Some(keys.previous)
    else None
  }

  function DecryptFrame(s: Suite, epochKey: Key, id: string, counter: nat, ms: nat, f: Frame, expected: Option<nat>, skew: nat): Opened {
    var (pre, post) := s.whiten(epochKey, id);
    Decrypt(s, s.requestKey(epochKey, TimeBlock(ms), counter, f.nonce), pre, post, f.nonce, f.sealed, expected, ms, skew)
  }

  /** Expired entries are dropped whenever a nonce is presented. */
  function Unexpired(nonces: map<Nonce, int>, seconds: nat): map<Nonce, int> {
    map n | n in nonces && !(seconds > nonces[n]) :: nonces[n]
  }

  predicate NonceFresh(nonces: map<Nonce, int>, n: Nonce, seconds: nat) {
    |Unexpired(nonces, seconds)| < MAX_NONCES && n !in Unexpired(nonces, seconds)
  }

  datatype Delivery = Delivered(payload: Text, counter: nat) | Refused

  ghost function Handle(s: Suite, p: Peer, body: Text, ms: nat): (Peer, Delivery) {
    var frame := UnpackRequest(body);
    if frame.None? || frame.value.hint != p.hint then (p, Refused)
    else
      var f := frame.value;
      var keys := Ratcheted(s.ratchet, p.keys, Seconds(ms));
      var epoch := SigningEpoch(s, keys, TimeBlock(ms), f);
      if epoch.None? then (p.(keys := keys), Refused)
      else
        var live := Unexpired(p.nonces, Seconds(ms));
        if !NonceFresh(p.nonces, f.nonce, Seconds(ms)) then (p.(keys := keys, nonces := live), Refused)
        else
          var used := p.(keys := keys, nonces := live[f.nonce := Seconds(ms) + NONCE_SECONDS]);
          match DecryptFrame(s, epoch.value, p.id, p.counter, ms, f, Some(p.counter), SERVER_SKEW)
          case Rejected(_) => (used, Refused)
          case Opened(payload, counter, _) => (used.(counter := NextCounter(p.counter)), Delivered(payload, counter))
  }

  ghost function Receive(s: Suite, p: Peer, body: Text, ms: nat): (Peer, Delivery) {
    var frame := UnpackResponse(body);
    if frame.None? then (p, Refused)
    else
      var keys := Ratcheted(s.ratchet, p.keys, Seconds(ms));
      var epoch := SigningEpoch(s, keys, TimeBlock(ms), frame.value);
      if epoch.None? then (p.(keys := keys), Refused)
      else
        match DecryptFrame(s, epoch.value, p.id, p.counter, ms, frame.value, None, CLIENT_SKEW)
        case Rejected(_) => (p.(keys := keys), Refused)
        case Opened(payload, counter, _) => (p.(keys := keys, counter := NextCounter(p.counter)), Delivered(payload, counter))
  }

  // ---------------------------------------------------------------- whole exchanges

  /** One request and its response; the four clock readings are sealing and opening at each end. */
  datatype Exchange = Exchange(t1: nat, t2: nat, t3: nat, t4: nat, request: Text, reply: Text,
                               requestNonce: Nonce, replyNonce: Nonce, requestPadding: Text, replyPadding: Text)

  predicate ClockOk(ms: nat) { IsI64(ms) && IsI64(ms - CLIENT_SKEW) && IsI64(ms + CLIENT_SKEW) }

  /** Both messages are opened in the 30-second block they were sealed in. */
  predicate Prompt(x: Exchange) {
    && TimeBlock(x.t1) == TimeBlock(x.t2) && TimeBlock(x.t3) == TimeBlock(x.t4)
    && ClockOk(x.t1) && ClockOk(x.t2) && ClockOk(x.t3) && ClockOk(x.t4)
  }

  predicate Sized(x: Exchange) {
    |x.request| < TWO32 && |x.reply| < TWO32 && |x.requestPadding| < 128 && |x.replyPadding| < 128
  }

  /** The two ends agree on everything but how far the clock has taken each one's ratchet. */
  predicate InSync(ratchet: Key -> Key, start: Keys, c: Peer, sv: Peer, tc: nat, ts: nat) {
    && c.counter == sv.counter < TWO32 && c.id == sv.id && c.hint == sv.hint
    && c.keys == Ratcheted(ratchet, start, tc) && sv.keys == Ratcheted(ratchet, start, ts)
  }

  lemma SameBlockSameKeys(ratchet: Key -> Key, start: Keys, a: nat, b: nat)
    requires a / BLOCK_SECONDS == b / BLOCK_SECONDS
    ensures Ratcheted(ratchet, start, a) == Ratcheted(ratchet, start, b)
  {
    BlockInEpoch(a);
    BlockInEpoch(b);
  }

  lemma BlockInEpoch(a: nat)
    ensures a / EPOCH_SECONDS == a / BLOCK_SECONDS / 2
  {}

  lemma SameBlockInWindow(a: nat, b: nat, skew: nat)
    requires TimeBlock(a) == TimeBlock(b) && skew >= SERVER_SKEW && skew <= CLIENT_SKEW && ClockOk(a) && ClockOk(b)
    ensures InWindow(a, b, skew)
  {
    assert a - b < 30000 && b - a < 30000;
    WindowIsDistance(a, b, skew);
  }

  /** A sealed block opens to its payload at the other end, in the same time block. */
  lemma SealedOpens(s: Suite, epochKey: Key, id: string, counter: nat, sealedAt: nat, openedAt: nat, nonce: Nonce,
                    payload: Text, padding: Text, f: Frame, expected: Option<nat>, skew: nat)
    requires Sound(s) && |padding| < 128 && |payload| < TWO32 && counter < TWO32
    requires TimeBlock(sealedAt) == TimeBlock(openedAt) && ClockOk(sealedAt) && ClockOk(openedAt)
    requires SERVER_SKEW <= skew <= CLIENT_SKEW && (expected.Some? ==> expected.value == counter)
    requires f.nonce == nonce && f.sealed == SealWith(s, epochKey, id, counter, sealedAt, nonce, payload, padding)
    ensures DecryptFrame(s, epochKey, id, counter, openedAt, f, expected, skew) == Opened(payload, counter, sealedAt)
  {
    var (pre, post) := s.whiten(epochKey, id);
    var key := s.requestKey(epochKey, TimeBlock(sealedAt), counter, nonce);
    SameBlockInWindow(openedAt, sealedAt, skew);
    DecryptGivesPayload(s, key, pre, post, nonce, counter, sealedAt, payload, padding, expected, openedAt, skew);
  }

  lemma RequestArrives(s: Suite, start: Keys, c: Peer, sv: Peer, tc: nat, ts: nat, x: Exchange)
    requires Sound(s) && Prompt(x) && Sized(x) && InSync(s.ratchet, start, c, sv, tc, ts)
    requires Seconds(x.t1) >= tc && Seconds(x.t2) >= ts
    requires NonceFresh(sv.nonces, x.requestNonce, Seconds(x.t2))
    ensures var (c', body) := Request(s, c, x.t1, x.requestNonce, x.request, x.requestPadding);
            var (sv', d) := Handle(s, sv, body, x.t2);
            && d == Delivered(x.request, c.counter)
            && c' == c.(keys := Ratcheted(s.ratchet, start, Seconds(x.t1)))
            && sv' == sv.(keys := Ratcheted(s.ratchet, start, Seconds(x.t2)), counter := NextCounter(sv.counter),
                          nonces := Unexpired(sv.nonces, Seconds(x.t2))[x.requestNonce := Seconds(x.t2) + NONCE_SECONDS])
  {
    hide Ratcheted, Encrypt, Decrypt, Unexpired;
    RatchetTwice(s.ratchet, start, tc, Seconds(x.t1));
    RatchetTwice(s.ratchet, start, ts, Seconds(x.t2));
    SameBlockSameKeys(s.ratchet, start, Seconds(x.t1), Seconds(x.t2));
    var keys := Ratcheted(s.ratchet, start, Seconds(x.t1));
    var b := SealWith(s, keys.current, c.id, c.counter, x.t1, x.requestNonce, x.request, x.requestPadding);
    var signed := c.hint + x.requestNonce + b.ciphertext + b.tag;
    var sig := s.sign(s.hmacKey(keys.current, TimeBlock(x.t1)), signed);
    UnpackOfPack(c.hint, x.requestNonce, b, sig);
    var f := Frame(c.hint, x.requestNonce, b, signed, sig);
    assert SigningEpoch(s, keys, TimeBlock(x.t2), f) == Some(keys.current);
    SealedOpens(s, keys.current, c.id, c.counter, x.t1, x.t2, x.requestNonce, x.request, x.requestPadding, f, Some(c.counter), SERVER_SKEW);
  }

  lemma ReplyArrives(s: Suite, start: Keys, c: Peer, sv: Peer, tc: nat, ts: nat, x: Exchange)
    requires Sound(s) && Prompt(x) && Sized(x) && c.counter < TWO32 && c.id == sv.id
    requires c.keys == Ratcheted(s.ratchet, start, tc) && sv.keys == Ratcheted(s.ratchet, start, ts)
    requires Seconds(x.t4) >= tc && Seconds(x.t3) >= ts
    ensures var (sv', body) := Response(s, sv, c.counter, x.t3, x.replyNonce, x.reply, x.replyPadding);
            var (c', d) := Receive(s, c, body, x.t4);
            && d == Delivered(x.reply, c.counter)
            && c' == c.(keys := Ratcheted(s.ratchet, start, Seconds(x.t4)), counter := NextCounter(c.counter))
            && sv' == sv.(keys := Ratcheted(s.ratchet, start, Seconds(x.t3)))
  {
    hide Ratcheted, Encrypt, Decrypt, Unexpired;
    RatchetTwice(s.ratchet, start, tc, Seconds(x.t4));
    RatchetTwice(s.ratchet, start, ts, Seconds(x.t3));
    SameBlockSameKeys(s.ratchet, start, Seconds(x.t3), Seconds(x.t4));
    var keys := Ratcheted(s.ratchet, start, Seconds(x.t3));
    var b := SealWith(s, keys.current, c.id, c.counter, x.t3, x.replyNonce, x.reply, x.replyPadding);
    var signed := x.replyNonce + b.ciphertext + b.tag;
    var sig := s.sign(s.hmacKey(keys.current, TimeBlock(x.t3)), signed);
    UnpackOfPack(c.hint, x.replyNonce, b, sig);
    var f := Frame([], x.replyNonce, b, signed, sig);
    assert SigningEpoch(s, keys, TimeBlock(x.t4), f) == Some(keys.current);
    SealedOpens(s, keys.current, c.id, c.counter, x.t3, x.t4, x.replyNonce, x.reply, x.replyPadding, f, None, CLIENT_SKEW);
  }

  datatype Ends = Ends(client: Peer, server: Peer, received: seq<Text>, replies: seq<Text>)

  /** One exchange: what each end is left with and what reached it. */
  ghost function Exchanged(s: Suite, e: Ends, x: Exchange): Ends
    requires Sound(s) && Sized(x)
  {
    var (c1, request) := Request(s, e.client, x.t1, x.requestNonce, x.request, x.requestPadding);
    match Handle(s, e.server, request, x.t2)
    case (s1, Refused) => Ends(c1, s1, e.received, e.replies)
    case (s1, Delivered(payload, counter)) =>
      var (s2, reply) := Response(s, s1, counter, x.t3, x.replyNonce, x.reply, x.replyPadding);
      match Receive(s, c1, reply, x.t4)
      case (c2, Refused) => Ends(c2, s2, e.received + [payload], e.replies)
      case (c2, Delivered(answer, _)) => Ends(c2, s2, e.received + [payload], e.replies + [answer])
  }

  ghost function Conversation(s: Suite, e: Ends, xs: seq<Exchange>): Ends
    requires Sound(s) && forall x | x in xs :: Sized(x)
    decreases |xs|
  {
    if xs == [] then e else Conversation(s, Exchanged(s, e, xs[0]), xs[1..])
  }

  /** Clocks that do not run backwards, prompt messages, and nonces the server has room for and not seen. */
  ghost predicate Orderly(s: Suite, e: Ends, xs: seq<Exchange>, tc: nat, ts: nat)
    requires Sound(s) && forall x | x in xs :: Sized(x)
    decreases |xs|
  {
    xs == [] ||
    (var x := xs[0];
     && Prompt(x) && tc <= Seconds(x.t1) <= Seconds(x.t4) && ts <= Seconds(x.t2) <= Seconds(x.t3)
     && NonceFresh(e.server.nonces, x.requestNonce, Seconds(x.t2))
     && Orderly(s, Exchanged(s, e, x), xs[1..], Seconds(x.t4), Seconds(x.t3)))
  }

  function Requests(xs: seq<Exchange>): seq<Text> { if xs == [] then [] else [xs[0].request] + Requests(xs[1..]) }

  function Replies(xs: seq<Exchange>): seq<Text> { if xs == [] then [] else [xs[0].reply] + Replies(xs[1..]) }

  lemma OneExchange(s: Suite, start: Keys, e: Ends, x: Exchange, tc: nat, ts: nat)
    requires Sound(s) && Sized(x) && InSync(s.ratchet, start, e.client, e.server, tc, ts)
    requires Prompt(x) && tc <= Seconds(x.t1) <= Seconds(x.t4) && ts <= Seconds(x.t2) <= Seconds(x.t3)
    requires NonceFresh(e.server.nonces, x.requestNonce, Seconds(x.t2))
    ensures var e' := Exchanged(s, e, x);
            && InSync(s.ratchet, start, e'.client, e'.server, Seconds(x.t4), Seconds(x.t3))
            && e'.received == e.received + [x.request] && e'.replies == e.replies + [x.reply]
  {
    RequestArrives(s, start, e.client, e.server, tc, ts, x);
    var (c1, body) := Request(s, e.client, x.t1, x.requestNonce, x.request, x.requestPadding);
    var (s1, _) := Handle(s, e.server, body, x.t2);
    ReplyArrives(s, start, c1, s1, Seconds(x.t1), Seconds(x.t2), x);
  }

  /** Any number of prompt exchanges delivers every request and every reply, byte for byte and in order. */
  lemma {:induction false} ConversationDelivers(s: Suite, start: Keys, e: Ends, xs: seq<Exchange>, tc: nat, ts: nat)
    requires Sound(s) && (forall x | x in xs :: Sized(x))
    requires InSync(s.ratchet, start, e.client, e.server, tc, ts) && Orderly(s, e, xs, tc, ts)
    ensures Conversation(s, e, xs).received == e.received + Requests(xs)
    ensures Conversation(s, e, xs).replies == e.replies + Replies(xs)
    decreases |xs|
  {
    hide Exchanged, Sound, InSync, Prompt, Sized, NonceFresh;
    if xs != [] {
      OneExchange(s, start, e, xs[0], tc, ts);
      var next := Exchanged(s, e, xs[0]);
      assert forall x | x in xs[1..] :: Sized(x);
      ConversationDelivers(s, start, next, xs[1..], Seconds(xs[0].t4), Seconds(xs[0].t3));
      hide Orderly;
      assert next.received + Requests(xs[1..]) == e.received + Requests(xs);
    }
  }

  // ---------------------------------------------------------------- what is let in

  lemma BlocksOf(ms: nat)
    ensures TimeBlock(ms) == ms / 30000 && Seconds(ms) == ms / 1000
  {}

  /**
   A delivered request carries the session's hint, is signed under the current or the previous epoch key for this
   30-second block or the one before, presents a nonce the server did not hold live, with fewer than 200000 live,
   and leaves that nonce remembered for 120 seconds.
   */
  lemma DeliveredMeans(s: Suite, p: Peer, body: Text, ms: nat)
    requires Handle(s, p, body, ms).1.Delivered?
    ensures UnpackRequest(body).Some?
    ensures var f := UnpackRequest(body).value; var keys := Ratcheted(s.ratchet, p.keys, ms / 1000); var after := Handle(s, p, body, ms).0;
            && f.hint == p.hint
            && (exists k, b | k in {keys.current, keys.previous} && b in {ms / 30000, ms / 30000 - 1} :: s.sign(s.hmacKey(k, b), f.signed) == f.sig)
            && (f.nonce in p.nonces ==> p.nonces[f.nonce] < ms / 1000)
            && f.nonce in after.nonces && after.nonces[f.nonce] == ms / 1000 + 120
            && |after.nonces| <= 200000
            && after == p.(keys := keys, counter := (p.counter + 1) % 0x1_0000_0000, nonces := after.nonces)
  {
    BlocksOf(ms);
    hide Ratcheted, DecryptFrame, Decrypt;
    var f := UnpackRequest(body).value;
    var keys := Ratcheted(s.ratchet, p.keys, Seconds(ms));
    assert SigningEpoch(s, keys, TimeBlock(ms), f).Some?;
    var b := ms / 30000;
    assert s.sign(s.hmacKey(keys.current, b), f.signed) == f.sig || s.sign(s.hmacKey(keys.current, b - 1), f.signed) == f.sig
        || s.sign(s.hmacKey(keys.previous, b), f.signed) == f.sig || s.sign(s.hmacKey(keys.previous, b - 1), f.signed) == f.sig;
    var live := Unexpired(p.nonces, Seconds(ms));
    assert Handle(s, p, body, ms).0.nonces == live[f.nonce := Seconds(ms) + 120];
    assert f.nonce !in live;
  }

  /** A signed request uses its nonce up whether or not it can then be opened, and anything refused leaves the counter. */
  lemma NonceIsUsedUp(s: Suite, p: Peer, body: Text, ms: nat)
    requires UnpackRequest(body).Some? && UnpackRequest(body).value.hint == p.hint
    requires SigningEpoch(s, Ratcheted(s.ratchet, p.keys, ms / 1000), ms / 30000, UnpackRequest(body).value).Some?
    ensures var f := UnpackRequest(body).value; var (after, d) := Handle(s, p, body, ms); var live := Unexpired(p.nonces, ms / 1000);
            && after.nonces == (if |live| < 200000 && f.nonce !in live then live[f.nonce := ms / 1000 + 120] else live)
            && (|live| >= 200000 || f.nonce in live ==> d.Refused?)
            && (d.Refused? ==> after.counter == p.counter)
  {
    BlocksOf(ms);
    hide Ratcheted, DecryptFrame, Decrypt, SigningEpoch;
  }

  /** The server opens what it delivers under its own counter and a skew of 45 seconds. */
  lemma DeliveredWithin(s: Suite, p: Peer, body: Text, ms: nat)
    requires Handle(s, p, body, ms).1.Delivered?
    ensures var d := Handle(s, p, body, ms).1; var keys := Ratcheted(s.ratchet, p.keys, ms / 1000);
            exists k, stamp | k in {keys.current, keys.previous} ::
              DecryptFrame(s, k, p.id, p.counter, ms, UnpackRequest(body).value, Some(p.counter), 45000) == Opened(d.payload, d.counter, stamp)
  {
    hide Ratcheted, DecryptFrame, Decrypt;
    var f := UnpackRequest(body).value;
    var keys := Ratcheted(s.ratchet, p.keys, Seconds(ms));
    var k := SigningEpoch(s, keys, TimeBlock(ms), f).value;
    var r := DecryptFrame(s, k, p.id, p.counter, ms, f, Some(p.counter), SERVER_SKEW);
    assert r == Opened(r.payload, r.counter, r.stamp);
  }

  /** The browser takes a response signed under either epoch key, within a skew of 60 seconds and whatever its counter field. */
  lemma ReceivedMeans(s: Suite, p: Peer, body: Text, ms: nat)
    requires Receive(s, p, body, ms).1.Delivered?
    ensures UnpackResponse(body).Some?
    ensures var d := Receive(s, p, body, ms).1; var f := UnpackResponse(body).value; var keys := Ratcheted(s.ratchet, p.keys, ms / 1000);
            && (exists k, b | k in {keys.current, keys.previous} && b in {ms / 30000, ms / 30000 - 1} :: s.sign(s.hmacKey(k, b), f.signed) == f.sig)
            && (exists k, stamp | k in {keys.current, keys.previous} ::
                  DecryptFrame(s, k, p.id, p.counter, ms, f, None, 60000) == Opened(d.payload, d.counter, stamp))
            && Receive(s, p, body, ms).0 == p.(keys := keys, counter := (p.counter + 1) % 0x1_0000_0000)
  {
    BlocksOf(ms);
    hide Ratcheted, DecryptFrame, Decrypt;
    var f := UnpackResponse(body).value;
    var keys := Ratcheted(s.ratchet, p.keys, Seconds(ms));
    var b := ms / 30000;
    var k := SigningEpoch(s, keys, TimeBlock(ms), f).value;
    assert s.sign(s.hmacKey(keys.current, b), f.signed) == f.sig || s.sign(s.hmacKey(keys.current, b - 1), f.signed) == f.sig
        || s.sign(s.hmacKey(keys.previous, b), f.signed) == f.sig || s.sign(s.hmacKey(keys.previous, b - 1), f.signed) == f.sig;
    var r := DecryptFrame(s, k, p.id, p.counter, ms, f, None, CLIENT_SKEW);
    assert r == Opened(r.payload, r.counter, r.stamp);
  }

  // ---------------------------------------------------------------- replay

  datatype Arrival = Arrival(body: Text, ms: nat)

  ghost function HandleAll(s: Suite, p: Peer, arrivals: seq<Arrival>): Peer
    decreases |arrivals|
  {
    if arrivals == [] then p else HandleAll(s, Handle(s, p, arrivals[0].body, arrivals[0].ms).0, arrivals[1..])
  }

  predicate Remembers(p: Peer, n: Nonce, until: int) { n in p.nonces && p.nonces[n] == until }

  lemma StillRemembers(s: Suite, p: Peer, a: Arrival, n: Nonce, until: int)
    requires Remembers(p, n, until) && Seconds(a.ms) <= until
    ensures var (p', d) := Handle(s, p, a.body, a.ms);
            Remembers(p', n, until) && (UnpackRequest(a.body).Some? && UnpackRequest(a.body).value.nonce == n ==> d.Refused?)
  {
    hide Ratcheted, DecryptFrame, SigningEpoch;
    assert n in Unexpired(p.nonces, Seconds(a.ms));
  }

  lemma {:induction false} StillRemembersAll(s: Suite, p: Peer, arrivals: seq<Arrival>, n: Nonce, until: int)
    requires Remembers(p, n, until) && forall a | a in arrivals :: Seconds(a.ms) <= until
    ensures Remembers(HandleAll(s, p, arrivals), n, until)
    decreases |arrivals|
  {
    if arrivals != [] {
      StillRemembers(s, p, arrivals[0], n, until);
      StillRemembersAll(s, Handle(s, p, arrivals[0].body, arrivals[0].ms).0, arrivals[1..], n, until);
    }
  }

  /**
   A delivered request's nonce is refused for the next 120 seconds, whatever other requests arrive in
   between, however the replayed body is otherwise altered.
   */
  lemma ReplayIsRefused(s: Suite, p: Peer, first: Arrival, between: seq<Arrival>, replay: Arrival)
    requires Handle(s, p, first.body, first.ms).1.Delivered?
    requires forall a | a in between + [replay] :: Seconds(a.ms) <= Seconds(first.ms) + NONCE_SECONDS
    requires UnpackRequest(replay.body).Some?
    requires UnpackRequest(replay.body).value.nonce == UnpackRequest(first.body).value.nonce
    ensures Handle(s, HandleAll(s, Handle(s, p, first.body, first.ms).0, between), replay.body, replay.ms).1 == Refused
  {
    var p1 := Handle(s, p, first.body, first.ms).0;
    var n := UnpackRequest(first.body).value.nonce;
    var until := Seconds(first.ms) + NONCE_SECONDS;
    assert replay in between + [replay] && forall a | a in between :: a in between + [replay];
    assert Remembers(p1, n, until);
    StillRemembersAll(s, p1, between, n, until);
    StillRemembers(s, HandleAll(s, p1, between), replay, n, until);
  }

  // ---------------------------------------------------------------- the session objects

  /** Tries the current epoch key, then the previous one, each with this time block and the one before. */
  method VerifyLoop(s: Suite, keys: Keys, block: int, f: Frame) returns (epoch: Option<Key>)
    ensures epoch == SigningEpoch(s, keys, block, f)
    ensures var signs := (k: Key, b: int) => s.sign(s.hmacKey(k, b), f.signed) == f.sig;
            epoch == if signs(keys.current, block) || signs(keys.current, block - 1) then Some(keys.current)
                     else if signs(keys.previous, block) || signs(keys.previous, block - 1) then Some(keys.previous)
                     else None
  {
    epoch := None;
    var epochs := [keys.current, keys.previous];
    var blocks := [block, block - 1];
    var i := 0;
    while i < 2
      invariant 0 <= i <= 2 && epoch == None
      invariant forall a | 0 <= a < i :: !Verifies(s, epochs[a], block, f) && !Verifies(s, epochs[a], block - 1, f)
    {
      var j := 0;
      while j < 2
        invariant 0 <= j <= 2
        invariant forall b | 0 <= b < j :: !Verifies(s, epochs[i], blocks[b], f)
      {
        if s.sign(s.hmacKey(epochs[i], blocks[j]), f.signed) == f.sig {
          assert Verifies(s, epochs[i], blocks[j], f);
          assert i == 1 ==> !Verifies(s, epochs[0], block, f) && !Verifies(s, epochs[0], block - 1, f);
          return Some(epochs[i]);
        }
        j := j + 1;
      }
      assert !Verifies(s, epochs[i], blocks[0], f) && !Verifies(s, epochs[i], blocks[1], f);
      i := i + 1;
    }
    assert !Verifies(s, epochs[0], block, f) && !Verifies(s, epochs[1], block, f);
  }

  method DropExpired(nonces: map<Nonce, int>, seconds: nat) returns (live: map<Nonce, int>)
    ensures live == Unexpired(nonces, seconds)
    ensures forall n :: n in live <==> n in nonces && nonces[n] >= seconds
    ensures forall n | n in live :: live[n] == nonces[n]
  {
    live := nonces;
    var rest := nonces.Keys;
    while rest != {}
      invariant rest <= nonces.Keys
      invariant forall n :: n in live <==> n in nonces && (n in rest || !(seconds > nonces[n]))
      invariant forall n | n in live :: live[n] == nonces[n]
      decreases |rest|
    {
      var n :| n in rest;
      rest := rest - {n};
      if seconds > live[n] {
        live := live - {n};
      }
    }
  }

  class Session {
    const ratchet: Ratchet
    const id: string
    const hint: Hint
    var counter: nat
    var nonces: map<Nonce, int>

    constructor (p: Peer)
      ensures fresh(ratchet) && State() == p
    {
      ratchet := new Ratchet(p.keys);
      id, hint, counter, nonces := p.id, p.hint, p.counter, p.nonces;
    }

    function State(): Peer
      reads this, ratchet
    {
      Peer(ratchet.State(), counter, id, hint, nonces)
    }

    method Seal(s: Suite, epochKey: Key, count: nat, ms: nat, nonce: Nonce, payload: Text, padding: Text) returns (c: Sealed)
      requires Sound(s) && count < TWO32 && |padding| < 128
      ensures c == SealWith(s, epochKey, id, count, ms, nonce, payload, padding)
    {
      var key := s.requestKey(epochKey, TimeBlock(ms), count, nonce);
      var keys := s.whiten(epochKey, id);
      c := EncryptBlock(s, key, keys.0, keys.1, nonce, count, ms, payload, padding);
    }

    method JsEncrypt(s: Suite, ms: nat, nonce: Nonce, payload: Text, padding: Text) returns (body: Text)
      requires Sound(s) && counter < TWO32 && |padding| < 128
      modifies this, ratchet
      ensures (State(), body) == Request(s, old(State()), ms, nonce, payload, padding)
      ensures counter == old(counter) && nonces == old(nonces)
      ensures |body| >= 73 && body[..24] == hint + nonce
      ensures body[|body| - 32..] == s.sign(s.hmacKey(ratchet.epochKey, ms / 30000), body[..|body| - 32])
    {
      ratchet.RatchetIfNeeded(s.ratchet, Seconds(ms));
      var epochKey := ratchet.epochKey;
      var c := Seal(s, epochKey, counter, ms, nonce, payload, padding);
      body := hint + nonce + c.ciphertext + c.tag;
      body := body + s.sign(s.hmacKey(epochKey, TimeBlock(ms)), body);
    }

    method JsDecrypt(s: Suite, body: Text, ms: nat) returns (d: Delivery)
      modifies this, ratchet
      ensures (State(), d) == Receive(s, old(State()), body, ms)
      ensures counter == if d.Delivered? then (old(counter) + 1) % 0x1_0000_0000 else old(counter)
      ensures nonces == old(nonces)
    {
      var frame := UnpackResponse(body);
      if frame.None? {
        return Refused;
      }
      ratchet.RatchetIfNeeded(s.ratchet, Seconds(ms));
      var epoch := VerifyLoop(s, ratchet.State(), TimeBlock(ms), frame.value);
      if epoch.None? {
        return Refused;
      }
      var key := s.requestKey(epoch.value, TimeBlock(ms), counter, frame.value.nonce);
      var keys := s.whiten(epoch.value, id);
      var r := DecryptBlock(s, key, keys.0, keys.1, frame.value.nonce, frame.value.sealed, None, ms, CLIENT_SKEW);
      if r.Rejected? {
        return Refused;
      }
      d := Delivered(r.payload, r.counter);
      counter := NextCounter(counter);
    }

    method HandleRequest(s: Suite, body: Text, ms: nat) returns (d: Delivery)
      modifies this, ratchet
      ensures (State(), d) == Handle(s, old(State()), body, ms)
      ensures counter == if d.Delivered? then (old(counter) + 1) % 0x1_0000_0000 else old(counter)
    {
      hide Ratcheted, Decrypt, Verifies, SealWith;
      var frame := UnpackRequest(body);
      if frame.None? {
        return Refused;
      }
      var f := frame.value;
      if f.hint != hint {
        return Refused;
      }
      ratchet.RatchetIfNeeded(s.ratchet, Seconds(ms));
      var epoch := VerifyLoop(s, ratchet.State(), TimeBlock(ms), f);
      if epoch.None? {
        return Refused;
      }
      var live := DropExpired(nonces, Seconds(ms));
      nonces := live;
      if |nonces| >= MAX_NONCES || f.nonce in nonces {
        return Refused;
      }
      nonces := nonces[f.nonce := Seconds(ms) + NONCE_SECONDS];
      var key := s.requestKey(epoch.value, TimeBlock(ms), counter, f.nonce);
      var keys := s.whiten(epoch.value, id);
      var r := DecryptBlock(s, key, keys.0, keys.1, f.nonce, f.sealed, Some(counter), ms, SERVER_SKEW);
      if r.Rejected? {
        return Refused;
      }
      d := Delivered(r.payload, r.counter);
      counter := NextCounter(counter);
    }

    method Flush(s: Suite, respCounter: nat, ms: nat, nonce: Nonce, payload: Text, padding: Text) returns (body: Text)
      requires Sound(s) && respCounter < TWO32 && |padding| < 128
      modifies ratchet
      ensures (State(), body) == Response(s, old(State()), respCounter, ms, nonce, payload, padding)
      ensures |body| >= 64 && body[..16] == nonce
      ensures body[|body| - 32..] == s.sign(s.hmacKey(ratchet.epochKey, ms / 30000), body[..|body| - 32])
    {
      ratchet.RatchetIfNeeded(s.ratchet, Seconds(ms));
      var epochKey := ratchet.epochKey;
      var c := Seal(s, epochKey, respCounter, ms, nonce, payload, padding);
      body := nonce + c.ciphertext + c.tag;
      body := body + s.sign(s.hmacKey(epochKey, TimeBlock(ms)), body);
    }
  }
}
