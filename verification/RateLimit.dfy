/** The in-memory request limiter: one fixed-window counter per key and a janitor. */
module RateLimit {
  import opened Options
  import opened Windows

  class RateLimiter {
    var limits: Table
    const window: nat

    constructor (length: nat)
      ensures limits == map[] && window == length
    {
      limits := map[];
      window := length;
    }

    method CheckLimit(key: string, limit: int, now: int) returns (ok: bool)
      modifies this
      ensures limits == old(limits)[key := Added(Get(old(limits), key), now, window, 1)]
      ensures ok <==> limits[key].count <= limit
      ensures limits[key] == if key in old(limits) && now <= old(limits)[key].reset
                             then Counter(old(limits)[key].count + 1, old(limits)[key].reset) else Counter(1, now + window)
    {
      if key !in limits {
        limits := limits[key := Counter(0, now + window)];
      }
      var count, reset := limits[key].count, limits[key].reset;
      if now > reset {
        count := 0;
        reset := now + window;
      }
      count := count + 1;
      limits := limits[key := Counter(count, reset)];
      return count <= limit;
    }

    method Cleanup(now: int)
      modifies this
      ensures limits == SweepTable(old(limits), now, window)
      ensures forall k :: k in limits <==> k in old(limits) && now <= old(limits)[k].reset + window
      ensures forall k | k in limits :: limits[k] == old(limits)[k]
    {
      limits := DeleteStale(limits, now, window);
    }
  }

  /** Visits the entries in any order and deletes the stale ones, as ranging over the map does. */
  method DeleteStale(limits: Table, now: int, grace: nat) returns (left: Table)
    ensures left == SweepTable(limits, now, grace)
    ensures forall k :: k in left <==> k in limits && now <= limits[k].reset + grace
    ensures forall k | k in left :: left[k] == limits[k]
  {
    left := limits;
    var rest := limits.Keys;
    while rest != {}
      invariant rest <= limits.Keys
      invariant forall k :: k in left <==> k in limits && (k in rest || !(now > limits[k].reset + grace))
      invariant forall k | k in left :: left[k] == limits[k]
      decreases |rest|
    {
      var k :| k in rest;
      rest := rest - {k};
      if now > left[k].reset + grace {
        left := left - {k};
      }
    }
    assert left.Keys == SweepTable(limits, now, grace).Keys;
  }

  // ---------------------------------------------------------------- runs

  datatype Event = Call(key: string, limit: int, now: int) | Janitor(now: int)

  function Step(m: Table, e: Event, window: nat): Table {
    match e
    case Call(key, _, now) => m[key := Added(Get(m, key), now, window, 1)]
    case Janitor(now) => SweepTable(m, now, window)
  }

  function Answer(m: Table, e: Event, window: nat): bool
    requires e.Call?
  {
    Added(Get(m, e.key), e.now, window, 1).count <= e.limit
  }

  function Answers(m: Table, events: seq<Event>, window: nat): seq<bool>
    decreases |events|
  {
    if events == [] then []
    else (if events[0].Call? then [Answer(m, events[0], window)] else [])
         + Answers(Step(m, events[0], window), events[1..], window)
  }

  predicate InTime(events: seq<Event>, since: int) {
    events == [] || (events[0].now >= since && InTime(events[1..], events[0].now))
  }

  function Calls(events: seq<Event>): seq<Event> {
    if events == [] then [] else (if events[0].Call? then [events[0]] else []) + Calls(events[1..])
  }

  lemma StepAlike(a: Table, b: Table, e: Event, window: nat, t: int)
    requires AlikeTables(a, b, t) && e.now >= t
    ensures AlikeTables(Step(a, e, window), if e.Call? then Step(b, e, window) else b, e.now)
    ensures e.Call? ==> Answer(a, e, window) == Answer(b, e, window)
  {
    var b' := if e.Call? then Step(b, e, window) else b;
    forall key
      ensures Alike(Get(Step(a, e, window), key), Get(b', key), e.now)
    {
      assert Alike(Get(a, key), Get(b, key), t);
      match e {
        case Call(k, _, now) => AlikeHit(Get(a, key), Get(b, key), t, now, window, 1);
        case Janitor(now) => AlikeSwept(Get(a, key), Get(b, key), t, now, window);
      }
    }
    if e.Call? {
      assert Alike(Get(a, e.key), Get(b, e.key), t);
      AlikeHit(Get(a, e.key), Get(b, e.key), t, e.now, window, 1);
    }
  }

  lemma {:induction false} JanitorAlike(a: Table, b: Table, events: seq<Event>, window: nat, t: int)
    requires AlikeTables(a, b, t) && InTime(events, t)
    ensures Answers(a, events, window) == Answers(b, Calls(events), window)
    decreases |events|
  {
    if events != [] {
      var e := events[0];
      StepAlike(a, b, e, window, t);
      JanitorAlike(Step(a, e, window), if e.Call? then Step(b, e, window) else b, events[1..], window, e.now);
      if e.Call? {
        assert Calls(events)[0] == e && Calls(events)[1..] == Calls(events[1..]);
      } else {
        assert Calls(events) == Calls(events[1..]);
      }
    }
  }

  /** Whenever the janitor runs, every caller gets the answer it would have got without it. */
  lemma JanitorIsInvisible(m: Table, events: seq<Event>, window: nat, t: int)
    requires InTime(events, t)
    ensures Answers(m, events, window) == Answers(m, Calls(events), window)
  {
    JanitorAlike(m, m, events, window, t);
  }

  function Granted(m: Table, events: seq<Event>, window: nat, key: string, lo: int, hi: int): nat
    decreases |events|
  {
    if events == [] then 0
    else
      var e := events[0];
      (if e.Call? && e.key == key && lo <= e.now <= hi && Answer(m, e, window) then 1 else 0)
      + Granted(Step(m, e, window), events[1..], window, key, lo, hi)
  }

  predicate SameLimit(events: seq<Event>, key: string, limit: int) {
    forall i | 0 <= i < |events| && events[i].Call? && events[i].key == key :: events[i].limit == limit
  }

  /** What one key's counter goes through. */
  function OpsOf(events: seq<Event>, key: string, window: nat): seq<Op> {
    if events == [] then []
    else
      (match events[0]
       case Call(k, _, now) => if k == key then [Hit(now)] else []
       case Janitor(now) => [Sweep(now, window)])
      + OpsOf(events[1..], key, window)
  }

  lemma {:induction false} OpsInOrder(events: seq<Event>, key: string, window: nat, since: int)
    requires InTime(events, since)
    ensures Ordered(OpsOf(events, key, window), since)
    decreases |events|
  {
    if events != [] {
      OpsInOrder(events[1..], key, window, events[0].now);
      var rest := OpsOf(events[1..], key, window);
      OrderedSooner(rest, events[0].now, since);
      if OpsOf(events, key, window) != rest {
        var op := OpsOf(events, key, window)[0];
        assert ([op] + rest)[1..] == rest;
      }
    }
  }

  lemma OrderedSooner(ops: seq<Op>, since: int, sooner: int)
    requires Ordered(ops, since) && sooner <= since
    ensures Ordered(ops, sooner)
  {}

  lemma {:induction false} GrantedIsAccepted(m: Table, events: seq<Event>, window: nat, key: string, limit: int, lo: int, hi: int)
    requires SameLimit(events, key, limit)
    ensures Granted(m, events, window, key, lo, hi) == Accepted(Get(m, key), OpsOf(events, key, window), window, limit, lo, hi)
    decreases |events|
  {
    if events != [] {
      var e := events[0];
      assert SameLimit(events[1..], key, limit);
      GrantedIsAccepted(Step(m, e, window), events[1..], window, key, limit, lo, hi);
      var rest := OpsOf(events[1..], key, window);
      if e.Janitor? || e.key == key {
        var op := OpsOf(events, key, window)[0];
        assert OpsOf(events, key, window)[1..] == rest;
        assert After(Get(m, key), op, window) == Get(Step(m, e, window), key);
      } else {
        assert OpsOf(events, key, window) == rest;
      }
    }
  }

  /**
   From an empty limiter, any closed stretch of one window's length grants a key at most 2 * limit - 1
   calls, wherever the stretch starts and whatever the other keys and the janitor do.
   */
  lemma GrantsPerStretch(events: seq<Event>, window: nat, key: string, limit: int, lo: int, hi: int, since: int)
    requires InTime(events, since) && SameLimit(events, key, limit) && hi <= lo + window
    ensures Granted(map[], events, window, key, lo, hi) <= Ceiling(limit)
  {
    OpsInOrder(events, key, window, since);
    GrantedIsAccepted(map[], events, window, key, limit, lo, hi);
    BurstBound(None, OpsOf(events, key, window), window, limit, lo, hi, since);
  }

  /** Inside one window: from any state, no more calls are granted up to its end than the room left. */
  lemma GrantsPerWindow(m: Table, events: seq<Event>, window: nat, key: string, limit: int, lo: int, since: int)
    requires InTime(events, since) && SameLimit(events, key, limit) && key in m
    ensures Granted(m, events, window, key, lo, m[key].reset) <= Room(limit, m[key].count)
  {
    OpsInOrder(events, key, window, since);
    GrantedIsAccepted(m, events, window, key, limit, lo, m[key].reset);
    WithinWindow(m[key], OpsOf(events, key, window), window, limit, lo, m[key].reset, since);
  }
}
