/**
 The CxSec block: counter, time stamp and length in front of the payload, random padding behind it,
 whitened with one key before an authenticated encryption and with another after it.
 */
module CxBlock {
  import opened Options
  import opened Bytes

  type Key = k: Text | |k| == 32 witness seq(32, _ => 0)
  type Nonce = n: Text | |n| == 16 witness seq(16, _ => 0)

  /** The primitives, uninterpreted. `open` returns None when authentication fails. */
  datatype Suite = Suite(
    seal: (Key, Text, Text) -> Text,
    open: (Key, Text, Text) -> Option<Text>,
    sign: (Key, Text) -> Key,
    hmacKey: (Key, int) -> Key,
    requestKey: (Key, int, nat, Nonce) -> Key,
    whiten: (Key, string) -> (Key, Key),
    ratchet: Key -> Key)

  /** Opening inverts sealing, and a sealed text is 16 bytes longer than its plain text. */
  ghost predicate Sound(s: Suite) {
    && (forall k, n, p :: s.open(k, n, s.seal(k, n, p)) == Some(p))
    && (forall k, n, p :: |s.seal(k, n, p)| == |p| + 16)
  }

  datatype Error = NotAuthentic | TooShort | CounterMismatch | OutOfWindow | LengthOverflow

  datatype Opened = Opened(payload: Text, counter: nat, stamp: int) | Rejected(error: Error)

  function Inner(counter: nat, stamp: int, payload: Text, padding: Text): Text
    requires |padding| < 128
  {
    Le(counter, 4) + Le(ToU64(stamp), 8) + Le(|payload| % TWO32, 4) + payload + padding + [|padding|]
  }

  /** The difference of two clock readings, in 64-bit arithmetic. */
  function Lag(now: int, stamp: int): int { ToI64(now - stamp) }

  predicate InWindow(now: int, stamp: int, skew: nat) { 0 - skew <= Lag(now, stamp) <= skew }

  /** `expected` is the counter the receiver insists on; the browser side does not check it. */
  function ParseInner(inner: Text, expected: Option<nat>, now: int, skew: nat): Opened {
    if |inner| < 17 then Rejected(TooShort)
    else
      var counter := FromLe(inner[0..4]);
      var stamp := ToI64(FromLe(inner[4..12]));
      var length := FromLe(inner[12..16]);
      if expected.Some? && counter != expected.value then Rejected(CounterMismatch)
      else if !InWindow(now, stamp, skew) then Rejected(OutOfWindow)
      else if 16 + length > |inner| - 1 then Rejected(LengthOverflow)
      else Opened(inner[16..16 + length], counter, stamp)
  }

  /**
   Which blocks are accepted, well formed or not: 17 bytes at least, the expected counter, a stamp within the skew,
   and a length that leaves room for the padding's last byte; and what they then deliver.
   */
  lemma ParseMeans(inner: Text, expected: Option<nat>, now: int, skew: nat)
    ensures var r := ParseInner(inner, expected, now, skew);
            if |inner| < 17 then r == Rejected(TooShort)
            else
              var counter := Word(inner[0], inner[1], inner[2], inner[3]);
              var length := Word(inner[12], inner[13], inner[14], inner[15]);
              var stamp := ToI64(FromLe(inner[4..12]));
              if expected.Some? && expected.value != counter then r == Rejected(CounterMismatch)
              else if !(0 - skew <= ToI64(now - stamp) <= skew) then r == Rejected(OutOfWindow)
              else if 17 + length > |inner| then r == Rejected(LengthOverflow)
              else r == Opened(inner[16..16 + length], counter, stamp)
  {
    if |inner| >= 17 {
      FourBytes(inner[0..4]);
      FourBytes(inner[12..16]);
      hide FromLe, ToI64;
    }
  }

  datatype Sealed = Sealed(ciphertext: Text, tag: Text)

  function Encrypt(s: Suite, key: Key, pre: Key, post: Key, nonce: Nonce, counter: nat, stamp: int,
                   payload: Text, padding: Text): (c: Sealed)
    requires |padding| < 128
    requires |s.seal(key, nonce[..12], XorWithKey(Inner(counter, stamp, payload, padding), pre))| >= 16
    ensures |c.tag| == 16
  {
    var sealed := s.seal(key, nonce[..12], XorWithKey(Inner(counter, stamp, payload, padding), pre));
    Sealed(XorWithKey(sealed[..|sealed| - 16], post), sealed[|sealed| - 16..])
  }

  function Decrypt(s: Suite, key: Key, pre: Key, post: Key, nonce: Nonce, c: Sealed,
                   expected: Option<nat>, now: int, skew: nat): Opened {
    match s.open(key, nonce[..12], XorWithKey(c.ciphertext, post) + c.tag)
    case None => Rejected(NotAuthentic)
    case Some(whitened) => ParseInner(XorWithKey(whitened, pre), expected, now, skew)
  }

  lemma Header(a: Text, b: Text, c: Text, rest: Text)
    requires |a| == 4 && |b| == 8 && |c| == 4
    ensures var s := a + b + c + rest; s[0..4] == a && s[4..12] == b && s[12..16] == c && s[16..] == rest
  {}

  lemma InnerFields(counter: nat, stamp: int, payload: Text, padding: Text)
    requires counter < TWO32 && IsI64(stamp) && |padding| < 128
    ensures var b := Inner(counter, stamp, payload, padding);
            && |b| == 17 + |payload| + |padding|
            && FromLe(b[0..4]) == counter && ToI64(FromLe(b[4..12])) == stamp
            && FromLe(b[12..16]) == |payload| % TWO32 && b[16..] == payload + padding + [|padding|]
  {
    Widths();
    var b := Inner(counter, stamp, payload, padding);
    var n := |payload| % TWO32;
    var rest := payload + padding + [|padding|];
    assert b == Le(counter, 4) + Le(ToU64(stamp), 8) + Le(n, 4) + rest;
    Header(Le(counter, 4), Le(ToU64(stamp), 8), Le(n, 4), rest);
    LeRoundTrip(counter, 4);
    LeRoundTrip(ToU64(stamp), 8);
    LeRoundTrip(n, 4);
    SignRoundTrip(stamp);
  }

  /** What comes out of a well-formed block, for every payload, padding, counter and time stamp. */
  lemma ParseOfInner(counter: nat, stamp: int, payload: Text, padding: Text, expected: Option<nat>, now: int, skew: nat)
    requires counter < TWO32 && IsI64(stamp) && |padding| < 128
    ensures ParseInner(Inner(counter, stamp, payload, padding), expected, now, skew)
         == if expected.Some? && expected.value != counter then Rejected(CounterMismatch)
            else if !InWindow(now, stamp, skew) then Rejected(OutOfWindow)
            else Opened(payload[..|payload| % TWO32], counter, stamp)
  {
    InnerFields(counter, stamp, payload, padding);
    var b := Inner(counter, stamp, payload, padding);
    var n := |payload| % TWO32;
    assert n <= |payload|;
    assert b[16..16 + n] == b[16..][..n];
    assert (payload + padding + [|padding|])[..n] == payload[..n];
  }

  lemma DecryptOfEncrypt(s: Suite, key: Key, pre: Key, post: Key, nonce: Nonce, counter: nat, stamp: int,
                         payload: Text, padding: Text, expected: Option<nat>, now: int, skew: nat)
    requires Sound(s) && |padding| < 128
    ensures Decrypt(s, key, pre, post, nonce, Encrypt(s, key, pre, post, nonce, counter, stamp, payload, padding), expected, now, skew)
         == ParseInner(Inner(counter, stamp, payload, padding), expected, now, skew)
  {
    var inner := Inner(counter, stamp, payload, padding);
    var sealed := s.seal(key, nonce[..12], XorWithKey(inner, pre));
    XorWithKeyTwice(sealed[..|sealed| - 16], post);
    assert sealed[..|sealed| - 16] + sealed[|sealed| - 16..] == sealed;
    XorWithKeyTwice(inner, pre);
  }

  /** With a fresh stamp, a short payload and the right counter, decryption gives back what was encrypted. */
  lemma DecryptGivesPayload(s: Suite, key: Key, pre: Key, post: Key, nonce: Nonce, counter: nat, stamp: int,
                            payload: Text, padding: Text, expected: Option<nat>, now: int, skew: nat)
    requires Sound(s) && counter < TWO32 && IsI64(stamp) && |padding| < 128
    requires InWindow(now, stamp, skew) && |payload| < TWO32 && (expected.Some? ==> expected.value == counter)
    ensures Decrypt(s, key, pre, post, nonce, Encrypt(s, key, pre, post, nonce, counter, stamp, payload, padding), expected, now, skew)
         == Opened(payload, counter, stamp)
  {
    hide *;
    DecryptOfEncrypt(s, key, pre, post, nonce, counter, stamp, payload, padding, expected, now, skew);
    ParseOfInner(counter, stamp, payload, padding, expected, now, skew);
    assert payload[..|payload| % TWO32] == payload;
  }

  /**
   Decryption inverts encryption exactly when the time stamp is within the skew, the payload is shorter than 4 GiB,
   and the counter is the expected one where, as on the server, one is expected. The 32-bit length field wraps, and
   a longer payload comes back cut.
   */
  lemma DecryptInvertsEncrypt(s: Suite, key: Key, pre: Key, post: Key, nonce: Nonce, counter: nat, stamp: int,
                              payload: Text, padding: Text, expected: Option<nat>, now: int, skew: nat)
    requires Sound(s) && counter < TWO32 && IsI64(stamp) && |padding| < 128
    ensures Decrypt(s, key, pre, post, nonce, Encrypt(s, key, pre, post, nonce, counter, stamp, payload, padding), expected, now, skew)
         == Opened(payload, counter, stamp)
       <==> InWindow(now, stamp, skew) && |payload| < TWO32 && (expected.Some? ==> expected.value == counter)
  {
    hide *;
    DecryptOfEncrypt(s, key, pre, post, nonce, counter, stamp, payload, padding, expected, now, skew);
    ParseOfInner(counter, stamp, payload, padding, expected, now, skew);
    if |payload| < TWO32 {
      assert payload[..|payload| % TWO32] == payload;
    } else {
      assert |payload[..|payload| % TWO32]| < |payload|;
    }
  }

  /** The 64-bit subtraction accepts exactly the stamps within the skew, for any clock not near its limits. */
  lemma WindowIsDistance(now: int, stamp: int, skew: nat)
    requires IsI64(stamp) && IsI64(now - skew) && IsI64(now + skew)
    ensures InWindow(now, stamp, skew) <==> 0 - skew <= now - stamp <= skew
  {}

  // ---------------------------------------------------------------- the loops and moving offsets

  method XorLoop(data: Text, key: Text) returns (out: array<Byte>)
    requires key != []
    ensures fresh(out) && out[..] == XorWithKey(data, key)
  {
    out := new Byte[|data|];
    var i := 0;
    while i < |data|
      invariant 0 <= i <= |data|
      invariant forall j | 0 <= j < i :: out[j] == Xor(data[j], key[j % |key|])
    {
      out[i] := Xor(data[i], key[i % |key|]);
      i := i + 1;
    }
  }

  /** Writes `part` at `off` and returns the offset behind it; the rest of the buffer keeps its content. */
  method Put(buf: array<Byte>, off: nat, part: Text) returns (next: nat)
    requires off + |part| <= buf.Length
    modifies buf
    ensures next == off + |part|
    ensures buf[..next] == old(buf[..off]) + part
    ensures buf[next..] == old(buf[next..])
  {
    var i := 0;
    while i < |part|
      invariant 0 <= i <= |part|
      invariant buf[..off + i] == old(buf[..off]) + part[..i]
      invariant forall j | off + i <= j < buf.Length :: buf[j] == old(buf[j])
    {
      buf[off + i] := part[i];
      assert buf[..off + i + 1] == buf[..off + i] + [part[i]];
      assert part[..i + 1] == part[..i] + [part[i]];
      i := i + 1;
    }
    assert part[..i] == part;
    next := off + |part|;
  }

  method BuildInner(counter: nat, stamp: int, payload: Text, padding: Text) returns (inner: array<Byte>)
    requires counter < TWO32 && |padding| < 128
    ensures fresh(inner) && inner[..] == Inner(counter, stamp, payload, padding)
  {
    inner := new Byte[4 + 8 + 4 + |payload| + |padding| + 1];
    var off := 0;
    hide ToU64, Le;
    ghost var a, b, c := Le(counter, 4), Le(ToU64(stamp), 8), Le(|payload| % TWO32, 4);
    assert Inner(counter, stamp, payload, padding) == a + b + c + payload + padding + [|padding|];
    hide Inner;
    off := Put(inner, off, Le(counter, 4));
    assert inner[..off] == a;
    off := Put(inner, off, Le(ToU64(stamp), 8));
    assert inner[..off] == a + b;
    off := Put(inner, off, Le(|payload| % TWO32, 4));
    assert inner[..off] == a + b + c;
    off := Put(inner, off, payload);
    off := Put(inner, off, padding);
    assert inner[..off] == a + b + c + payload + padding;
    inner[off] := |padding|;
    assert inner[..] == inner[..off] + [|padding|];
  }

  method EncryptBlock(s: Suite, key: Key, pre: Key, post: Key, nonce: Nonce, counter: nat, stamp: int,
                      payload: Text, padding: Text) returns (c: Sealed)
    requires counter < TWO32 && |padding| < 128
    requires |s.seal(key, nonce[..12], XorWithKey(Inner(counter, stamp, payload, padding), pre))| >= 16
    ensures c == Encrypt(s, key, pre, post, nonce, counter, stamp, payload, padding)
  {
    var inner := BuildInner(counter, stamp, payload, padding);
    var whitened := XorLoop(inner[..], pre);
    var sealed := s.seal(key, nonce[..12], whitened[..]);
    var ciphertext := XorLoop(sealed[..|sealed| - 16], post);
    c := Sealed(ciphertext[..], sealed[|sealed| - 16..]);
  }

  /** Every slice below is in range for every block that authenticates, well formed or not. */
  method DecryptBlock(s: Suite, key: Key, pre: Key, post: Key, nonce: Nonce, c: Sealed,
                      expected: Option<nat>, now: int, skew: nat) returns (r: Opened)
    ensures r == Decrypt(s, key, pre, post, nonce, c, expected, now, skew)
  {
    var deciphered := XorLoop(c.ciphertext, post);
    var whitened := s.open(key, nonce[..12], deciphered[..] + c.tag);
    if whitened.None? {
      return Rejected(NotAuthentic);
    }
    var buf := XorLoop(whitened.value, pre);
    var inner := buf[..];
    if |inner| < 4 + 8 + 4 + 1 {
      return Rejected(TooShort);
    }
    var off := 0;
    var counter := FromLe(inner[off..off + 4]);
    off := off + 4;
    var stamp := ToI64(FromLe(inner[off..off + 8]));
    off := off + 8;
    var length := FromLe(inner[off..off + 4]);
    off := off + 4;
    if expected.Some? && counter != expected.value {
      return Rejected(CounterMismatch);
    }
    var diff := Lag(now, stamp);
    if diff < 0 - skew || diff > skew {
      return Rejected(OutOfWindow);
    }
    if off + length > |inner| - 1 {
      return Rejected(LengthOverflow);
    }
    return Opened(inner[off..off + length], counter, stamp);
  }
}
