/**
 The fixed-window counter with the clock read as often as the program reads it. The bound of one reading per call
 grows by one, and deleting an ended counter can show.
 */
module ClockReadings {
  import opened Options
  import opened Windows

  /**
   Both limiters read the clock before it looks the counter up, again under the counter's lock, and a third time
   when it reopens the window; `now` is the reading under the lock, by which calls and sweeps are ordered.
   */
  datatype Touch = Hit3(born: int, now: int, again: int) | Clean(now: int, grace: nat)

  function Touched(c: Option<Counter>, t: Touch, window: nat): Option<Counter> {
    match t
    case Clean(now, grace) => Swept(c, now, grace)
    case Hit3(born, now, again) =>
      var found := if c.None? then Counter(0, born + window) else c.value;
      Some(if now > found.reset then Counter(1, again + window) else Counter(found.count + 1, found.reset))
  }

  /** Readings in order, and a sweeper that waits at least a window past a counter's end. */
  predicate Timely(ts: seq<Touch>, window: nat, since: int) {
    ts == [] || (ts[0].now >= since && InStep(ts[0], window) && Timely(ts[1..], window, ts[0].now))
  }

  predicate InStep(t: Touch, window: nat) { if t.Hit3? then t.born <= t.now <= t.again else t.grace >= window }

  /** How many hits between `lo` and `hi` are granted. */
  function Served(c: Option<Counter>, ts: seq<Touch>, window: nat, limit: int, lo: int, hi: int): nat
    decreases |ts|
  {
    if ts == [] then 0
    else
      var next := Touched(c, ts[0], window);
      (if ts[0].Hit3? && lo <= ts[0].now <= hi && next.value.count <= limit then 1 else 0)
      + Served(next, ts[1..], window, limit, lo, hi)
  }

  /** When the three readings agree this is the counter of one reading per call. */
  lemma OneReading(c: Option<Counter>, now: int, window: nat)
    ensures Touched(c, Hit3(now, now, now), window) == Some(Added(c, now, window, 1))
  {}

  lemma {:induction false} ServedNoneAfter(c: Option<Counter>, ts: seq<Touch>, window: nat, limit: int, lo: int, hi: int, since: int)
    requires Timely(ts, window, since) && since > hi
    ensures Served(c, ts, window, limit, lo, hi) == 0
    decreases |ts|
  {
    if ts != [] {
      ServedNoneAfter(Touched(c, ts[0], window), ts[1..], window, limit, lo, hi, ts[0].now);
    }
  }

  lemma {:induction false} ServedWithin(c: Counter, ts: seq<Touch>, window: nat, limit: int, lo: int, hi: int, since: int)
    requires Timely(ts, window, since) && hi <= c.reset
    ensures Served(Some(c), ts, window, limit, lo, hi) <= Room(limit, c.count)
    decreases |ts|
  {
    if ts != [] {
      if ts[0].now > hi {
        ServedNoneAfter(Some(c), ts, window, limit, lo, hi, ts[0].now);
      } else {
        ServedWithin(Touched(Some(c), ts[0], window).value, ts[1..], window, limit, lo, hi, ts[0].now);
      }
    }
  }

  /** From a window that ends no sooner than one window before `hi`, at most what is left of it and one full window. */
  lemma {:induction false} ServedAcross(c: Counter, ts: seq<Touch>, window: nat, limit: int, lo: int, hi: int, since: int)
    requires Timely(ts, window, since) && hi <= c.reset + window && limit >= 1
    ensures Served(Some(c), ts, window, limit, lo, hi) <= Room(limit, c.count) + limit
    decreases |ts|
  {
    if ts != [] {
      if ts[0].now > hi {
        ServedNoneAfter(Some(c), ts, window, limit, lo, hi, ts[0].now);
      } else if ts[0].now > c.reset && ts[0].Hit3? {
        ServedWithin(Counter(1, ts[0].again + window), ts[1..], window, limit, lo, hi, ts[0].now);
      } else {
        ServedAcross(Touched(Some(c), ts[0], window).value, ts[1..], window, limit, lo, hi, ts[0].now);
      }
    }
  }

  /** However far apart a call's readings are, at most 2 * limit hits are granted in a closed stretch one window long. */
  lemma {:induction false} ServedPerStretch(c: Option<Counter>, ts: seq<Touch>, window: nat, limit: int, lo: int, hi: int, since: int)
    requires Timely(ts, window, since) && hi <= lo + window && (c.Some? ==> c.value.count >= 0)
    ensures Served(c, ts, window, limit, lo, hi) <= Room(limit, 0) + Room(limit, 0)
    decreases |ts|
  {
    if ts != [] {
      var next := Touched(c, ts[0], window);
      if limit >= 1 && c.Some? && c.value.reset >= lo {
        ServedAcross(c.value, ts, window, limit, lo, hi, since);
      } else if limit >= 1 && ts[0].Hit3? && ts[0].now >= lo {
        ServedAcross(next.value, ts[1..], window, limit, lo, hi, ts[0].now);
      } else {
        ServedPerStretch(next, ts[1..], window, limit, lo, hi, ts[0].now);
      }
    }
  }

  function Hits(t: Touch, n: nat): (ts: seq<Touch>)
    ensures |ts| == n
  {
    seq(n, _ => t)
  }

  lemma {:induction false} HitsServed(c: Counter, now: int, n: nat, rest: seq<Touch>, window: nat, limit: int, lo: int, hi: int)
    requires now <= c.reset && c.count + n <= limit && lo <= now <= hi
    ensures Served(Some(c), Hits(Hit3(now, now, now), n) + rest, window, limit, lo, hi)
         == n + Served(Some(Counter(c.count + n, c.reset)), rest, window, limit, lo, hi)
    decreases n
  {
    var t := Hit3(now, now, now);
    if n == 0 {
      assert Hits(t, n) + rest == rest;
    } else {
      assert (Hits(t, n) + rest)[0] == t && (Hits(t, n) + rest)[1..] == Hits(t, n - 1) + rest;
      HitsServed(Counter(c.count + 1, c.reset), now, n - 1, rest, window, limit, lo, hi);
    }
  }

  lemma {:induction false} HitsTimely(now: int, n: nat, rest: seq<Touch>, window: nat, since: int)
    requires since <= now && Timely(rest, window, now)
    ensures Timely(Hits(Hit3(now, now, now), n) + rest, window, since)
    decreases n
  {
    var t := Hit3(now, now, now);
    if n == 0 {
      assert Hits(t, n) + rest == rest;
    } else {
      assert (Hits(t, n) + rest)[0] == t && (Hits(t, n) + rest)[1..] == Hits(t, n - 1) + rest;
      HitsTimely(now, n - 1, rest, window, now);
    }
  }

  /** A counter born at 0 and first hit at 1 grants its whole limit inside the stretch, and the next window another. */
  lemma ServedPerStretchAttained(window: nat, limit: nat)
    requires window >= 1 && limit >= 1
    ensures var ts := [Hit3(0, 1, 1)] + (Hits(Hit3(1, 1, 1), limit - 1) + (Hits(Hit3(window + 1, window + 1, window + 1), limit) + []));
            Timely(ts, window, 0) && Served(None, ts, window, limit, 1, window + 1) == 2 * limit
  {
    var late := Hit3(window + 1, window + 1, window + 1);
    var second := Hits(late, limit) + [];
    var first := Hits(Hit3(1, 1, 1), limit - 1) + second;
    var ts := [Hit3(0, 1, 1)] + first;
    assert ts[0] == Hit3(0, 1, 1) && ts[1..] == first;
    HitsTimely(window + 1, limit, [], window, 1);
    HitsTimely(1, limit - 1, second, window, 1);
    HitsServed(Counter(1, window), 1, limit - 1, second, window, limit, 1, window + 1);
    assert second[0] == late && second[1..] == Hits(late, limit - 1) + [];
    HitsServed(Counter(1, window + 1 + window), window + 1, limit - 1, [], window, limit, 1, window + 1);
  }

  // ---------------------------------------------------------------- when a deletion shows

  /** Two counters that grant alike in every continuation, under every limit. */
  ghost predicate GrantAlike(a: Option<Counter>, b: Option<Counter>, window: nat, since: int) {
    forall ts, limit, lo, hi | Timely(ts, window, since) ::
      Served(a, ts, window, limit, lo, hi) == Served(b, ts, window, limit, lo, hi)
  }

  /**
   After a call that finds an ended counter deleted, everything goes on as if it had not been, exactly when the
   call's first and last readings agree or its window was over before it got the lock.
   */
  lemma DeletionShowsIff(c: Counter, t: Touch, window: nat)
    requires t.Hit3? && InStep(t, window) && t.now > c.reset && window >= 1
    ensures GrantAlike(Touched(Some(c), t, window), Touched(None, t, window), window, t.now)
       <==> t.born == t.again || t.now > t.born + window
  {
    var kept, made := Touched(Some(c), t, window), Touched(None, t, window);
    if !(t.born == t.again || t.now > t.born + window) {
      var at := t.born + window + 1;
      var later := Hit3(at, at, at);
      var ts := [later];
      assert ts[1..] == [];
      assert Timely(ts, window, t.now);
      assert Touched(kept, later, window) == Some(Counter(2, t.again + window));
      assert Touched(made, later, window) == Some(Counter(1, at + window));
      ServedOnce(kept, later, window, 1);
      ServedOnce(made, later, window, 1);
      assert Served(kept, ts, window, 1, at, at) == 0 && Served(made, ts, window, 1, at, at) == 1;
    }
  }

  lemma ServedOnce(c: Option<Counter>, t: Touch, window: nat, limit: int)
    requires t.Hit3?
    ensures Served(c, [t], window, limit, t.now, t.now) == if Touched(c, t, window).value.count <= limit then 1 else 0
  {
    assert [t][1..] == [];
    assert Served(Touched(c, t, window), [], window, limit, t.now, t.now) == 0;
  }
}
