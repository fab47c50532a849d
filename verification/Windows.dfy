/**
 The fixed-window counter both in-memory limiters keep per key: a count and the instant its window
 ends. A hit after that instant opens a new window; a sweeper deletes counters long past it.
 */
module Windows {
  import opened Options

  datatype Counter = Counter(count: int, reset: int)

  /** What one key's counter goes through: a hit of one unit, or a sweep with its grace period. */
  datatype Op = Hit(now: int) | Sweep(now: int, grace: nat)

  function Added(c: Option<Counter>, now: int, window: nat, amount: int): Counter {
    if c.None? || now > c.value.reset then Counter(amount, now + window)
    else Counter(c.value.count + amount, c.value.reset)
  }

  function Swept(c: Option<Counter>, now: int, grace: nat): Option<Counter> {
    if c.Some? && now > c.value.reset + grace then None else c
  }

  function After(c: Option<Counter>, op: Op, window: nat): Option<Counter> {
    match op
    case Hit(now) => Some(Added(c, now, window, 1))
    case Sweep(now, grace) => Swept(c, now, grace)
  }

  /** Clock readings never go back, and none is before `since`. */
  predicate Ordered(ops: seq<Op>, since: int) {
    ops == [] || (ops[0].now >= since && Ordered(ops[1..], ops[0].now))
  }

  function Accepts(c: Option<Counter>, op: Op, window: nat, limit: int): bool {
    op.Hit? && Added(c, op.now, window, 1).count <= limit
  }

  /** How many hits between `lo` and `hi` are accepted. */
  function Accepted(c: Option<Counter>, ops: seq<Op>, window: nat, limit: int, lo: int, hi: int): nat
    decreases |ops|
  {
    if ops == [] then 0
    else
      (if Accepts(c, ops[0], window, limit) && lo <= ops[0].now <= hi then 1 else 0)
      + Accepted(After(c, ops[0], window), ops[1..], window, limit, lo, hi)
  }

  function Room(limit: int, count: int): nat { if limit > count then limit - count else 0 }

  lemma {:induction false} NothingAfter(c: Option<Counter>, ops: seq<Op>, window: nat, limit: int, lo: int, hi: int, since: int)
    requires Ordered(ops, since) && since > hi
    ensures Accepted(c, ops, window, limit, lo, hi) == 0
    decreases |ops|
  {
    if ops != [] {
      NothingAfter(After(c, ops[0], window), ops[1..], window, limit, lo, hi, ops[0].now);
    }
  }

  /** Until its window ends, a counter accepts no more than the room it has left. */
  lemma {:induction false} WithinWindow(c: Counter, ops: seq<Op>, window: nat, limit: int, lo: int, hi: int, since: int)
    requires Ordered(ops, since) && hi <= c.reset
    ensures Accepted(Some(c), ops, window, limit, lo, hi) <= Room(limit, c.count)
    decreases |ops|
  {
    if ops != [] {
      if ops[0].now > hi {
        NothingAfter(Some(c), ops, window, limit, lo, hi, ops[0].now);
      } else {
        WithinWindow(After(Some(c), ops[0], window).value, ops[1..], window, limit, lo, hi, ops[0].now);
      }
    }
  }

  /** A key with no live window accepts at most `limit` hits in any stretch no longer than a window. */
  lemma {:induction false} FromFresh(c: Option<Counter>, ops: seq<Op>, window: nat, limit: int, lo: int, hi: int, since: int)
    requires Ordered(ops, since) && hi <= since + window && limit >= 0
    requires c.Some? ==> c.value.reset < since
    ensures Accepted(c, ops, window, limit, lo, hi) <= limit
    decreases |ops|
  {
    if ops != [] {
      if ops[0].Hit? {
        WithinWindow(Counter(1, ops[0].now + window), ops[1..], window, limit, lo, hi, ops[0].now);
      } else {
        FromFresh(After(c, ops[0], window), ops[1..], window, limit, lo, hi, since);
      }
    }
  }

  /** From inside a window, a stretch reaching into the next one. */
  lemma {:induction false} AcrossBound(c: Counter, ops: seq<Op>, window: nat, limit: int, lo: int, hi: int, since: int)
    requires Ordered(ops, since) && hi <= c.reset + window && limit >= 1
    ensures Accepted(Some(c), ops, window, limit, lo, hi) <= Room(limit, c.count) + limit
    decreases |ops|
  {
    if ops != [] {
      if ops[0].now > c.reset {
        if ops[0].Hit? {
          WithinWindow(Counter(1, ops[0].now + window), ops[1..], window, limit, lo, hi, ops[0].now);
        } else {
          FromFresh(After(Some(c), ops[0], window), ops[1..], window, limit, lo, hi, ops[0].now);
        }
      } else {
        AcrossBound(After(Some(c), ops[0], window).value, ops[1..], window, limit, lo, hi, ops[0].now);
      }
    }
  }

  /** The most hits any stretch of one window's length can see accepted. */
  function Ceiling(limit: int): nat { if limit >= 1 then 2 * limit - 1 else 0 }

  /**
   In any closed stretch of one window's length at most 2 * limit - 1 hits are accepted: two windows
   meet the stretch only if the hit that opened the first one lies before it.
   */
  lemma {:induction false} BurstBound(c: Option<Counter>, ops: seq<Op>, window: nat, limit: int, lo: int, hi: int, since: int)
    requires Ordered(ops, since) && hi <= lo + window
    requires c.Some? ==> c.value.count >= 1
    ensures Accepted(c, ops, window, limit, lo, hi) <= Ceiling(limit)
    decreases |ops|
  {
    if ops != [] {
      var op := ops[0];
      var next := After(c, op, window);
      if limit < 1 {
        BurstBound(next, ops[1..], window, limit, lo, hi, op.now);
      } else if c.Some? && lo <= c.value.reset {
        AcrossBound(c.value, ops, window, limit, lo, hi, since);
      } else if op.Hit? && op.now >= lo {
        FromFreshOrStale(c, ops, window, limit, lo, hi);
      } else {
        BurstBound(next, ops[1..], window, limit, lo, hi, op.now);
      }
    }
  }

  lemma FromFreshOrStale(c: Option<Counter>, ops: seq<Op>, window: nat, limit: int, lo: int, hi: int)
    requires ops != [] && ops[0].Hit? && ops[0].now >= lo && Ordered(ops, ops[0].now)
    requires hi <= lo + window && limit >= 1 && (c.Some? ==> c.value.reset < lo)
    ensures Accepted(c, ops, window, limit, lo, hi) <= limit
  {
    FromFresh(c, ops, window, limit, lo, hi, ops[0].now);
  }

  // ---------------------------------------------------------------- the bound is attained

  function Burst(now: int, n: nat): (ops: seq<Op>)
    ensures |ops| == n
  {
    seq(n, _ => Hit(now))
  }

  lemma {:induction false} BurstAccepted(c: Counter, now: int, n: nat, rest: seq<Op>, window: nat, limit: int, lo: int, hi: int)
    requires now <= c.reset && c.count + n <= limit && lo <= now <= hi
    ensures Accepted(Some(c), Burst(now, n) + rest, window, limit, lo, hi)
         == n + Accepted(Some(Counter(c.count + n, c.reset)), rest, window, limit, lo, hi)
    decreases n
  {
    if n == 0 {
      assert Burst(now, n) + rest == rest;
    } else {
      assert (Burst(now, n) + rest)[1..] == Burst(now, n - 1) + rest;
      BurstAccepted(Counter(c.count + 1, c.reset), now, n - 1, rest, window, limit, lo, hi);
    }
  }

  lemma {:induction false} BurstOrdered(now: int, n: nat, rest: seq<Op>, since: int)
    requires since <= now && Ordered(rest, now)
    ensures Ordered(Burst(now, n) + rest, since)
    decreases n
  {
    if n == 0 {
      assert Burst(now, n) + rest == rest;
    } else {
      assert (Burst(now, n) + rest)[0] == Hit(now) && (Burst(now, n) + rest)[1..] == Burst(now, n - 1) + rest;
      BurstOrdered(now, n - 1, rest, now);
    }
  }

  /** One hit at 0, limit - 1 hits as the window ends, and limit hits one tick later. */
  lemma BurstBoundAttained(window: nat, limit: nat)
    requires window >= 1 && limit >= 1
    ensures var ops := [Hit(0)] + (Burst(window, limit - 1) + (Burst(window + 1, limit) + []));
            Ordered(ops, 0) && Accepted(None, ops, window, limit, window, window + window) == 2 * limit - 1
  {
    var late := Burst(window + 1, limit) + [];
    var mid := Burst(window, limit - 1) + late;
    assert ([Hit(0)] + mid)[1..] == mid;
    BurstOrdered(window + 1, limit, [], window);
    BurstOrdered(window, limit - 1, late, 0);
    BurstAccepted(Counter(1, window), window, limit - 1, late, window, limit, window, window + window);
    assert late[0] == Hit(window + 1) && late[1..] == Burst(window + 1, limit - 1) + [];
    BurstAccepted(Counter(1, 2 * window + 1), window + 1, limit - 1, [], window, limit, window, window + window);
  }

  // ---------------------------------------------------------------- sweeping is invisible

  /** No hit at or after `t` can tell such a counter from an absent one. */
  predicate Dead(c: Option<Counter>, t: int) { c.None? || t > c.value.reset }

  predicate Alike(a: Option<Counter>, b: Option<Counter>, t: int) { a == b || (Dead(a, t) && Dead(b, t)) }

  lemma AlikeHit(a: Option<Counter>, b: Option<Counter>, t: int, now: int, window: nat, amount: int)
    requires Alike(a, b, t) && now >= t
    ensures Added(a, now, window, amount) == Added(b, now, window, amount)
  {}

  lemma AlikeSwept(a: Option<Counter>, b: Option<Counter>, t: int, now: int, grace: nat)
    requires Alike(a, b, t) && now >= t
    ensures Alike(Swept(a, now, grace), b, now)
  {}

  type Table = map<string, Counter>

  function Get(m: Table, key: string): Option<Counter> { if key in m then Some(m[key]) else None }

  ghost predicate AlikeTables(a: Table, b: Table, t: int) {
    forall key :: Alike(Get(a, key), Get(b, key), t)
  }

  function SweepTable(m: Table, now: int, grace: nat): (swept: Table)
    ensures forall key :: Get(swept, key) == Swept(Get(m, key), now, grace)
  {
    map key | key in m && !(now > m[key].reset + grace) :: m[key]
  }
}
