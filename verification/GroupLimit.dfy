/**
 Per-group limits on requests per minute, tokens per minute and requests per UTC day, counted in
 memory under string keys, with a sweeper that deletes counters a day past their window.
 */
module GroupLimit {
  import opened Options
  import opened Text
  import opened Windows

  const MINUTE: nat := 60
  const DAY: nat := 86400

  /** A group's limits; zero or less means unlimited. */
  datatype Rates = Rates(rpm: int, tpm: int, rpd: int)

  function DayKey(group: string, now: nat): string { "grpd:" + group + ":" + Itoa(now / DAY) }

  function RpmKey(group: string): string { "grpm:" + group }

  function TpmKey(group: string): string { "gtpm:" + group }

  function AddTo(m: Table, key: string, amount: int, window: nat, now: nat): Table {
    m[key := Added(Get(m, key), now, window, amount)]
  }

  /** A key whose window is over reads as zero. */
  function Peek(m: Table, key: string, now: nat): int {
    if key !in m || now > m[key].reset then 0 else m[key].count
  }

  predicate Unlimited(group: string, r: Rates) { group == "" || (r.rpm <= 0 && r.tpm <= 0 && r.rpd <= 0) }

  function AfterDay(m: Table, group: string, r: Rates, now: nat): Table {
    if r.rpd > 0 then AddTo(m, DayKey(group, now), 1, DAY, now) else m
  }

  predicate PassesDay(m: Table, group: string, r: Rates, now: nat) {
    r.rpd > 0 ==> Added(Get(m, DayKey(group, now)), now, DAY, 1).count <= r.rpd
  }

  function AfterMinute(m: Table, group: string, r: Rates, now: nat): Table {
    if r.rpm > 0 then AddTo(m, RpmKey(group), 1, MINUTE, now) else m
  }

  predicate PassesMinute(m: Table, group: string, r: Rates, now: nat) {
    r.rpm > 0 ==> Added(Get(m, RpmKey(group)), now, MINUTE, 1).count <= r.rpm
  }

  predicate PassesTokens(m: Table, group: string, r: Rates, now: nat) {
    r.tpm > 0 ==> Peek(m, TpmKey(group), now) < r.tpm
  }

  /** The three dimensions in order; a request rejected by one is not counted by the later ones. */
  function Judged(m: Table, group: string, r: Rates, now: nat): (bool, Table) {
    if Unlimited(group, r) then (true, m)
    else
      var day := AfterDay(m, group, r, now);
      if !PassesDay(m, group, r, now) then (false, day)
      else
        var minute := AfterMinute(day, group, r, now);
        (PassesMinute(day, group, r, now) && PassesTokens(minute, group, r, now), minute)
  }

  function Recorded(m: Table, group: string, tokens: int, r: Rates, now: nat): Table {
    if group == "" || tokens <= 0 || r.tpm <= 0 then m else AddTo(m, TpmKey(group), tokens, MINUTE, now)
  }

  class GroupCounters {
    var counters: Table

    constructor ()
      ensures counters == map[]
    {
      counters := map[];
    }

    method AddToWindow(key: string, amount: int, window: nat, now: nat) returns (count: int)
      modifies this
      ensures counters == AddTo(old(counters), key, amount, window, now)
      ensures count == counters[key].count
      ensures count == amount + (if key in old(counters) && now <= old(counters)[key].reset then old(counters)[key].count else 0)
      ensures counters[key].reset == if key in old(counters) && now <= old(counters)[key].reset then old(counters)[key].reset else now + window
      ensures forall k | k != key :: k in counters <==> k in old(counters)
      ensures forall k | k != key && k in counters :: counters[k] == old(counters)[k]
    {
      if key !in counters {
        counters := counters[key := Counter(0, now + window)];
      }
      if now > counters[key].reset {
        counters := counters[key := Counter(0, now + window)];
      }
      counters := counters[key := Counter(counters[key].count + amount, counters[key].reset)];
      return counters[key].count;
    }

    method PeekWindow(key: string, now: nat) returns (v: int)
      ensures v == Peek(counters, key, now)
      ensures v == if key in counters && now <= counters[key].reset then counters[key].count else 0
    {
      if key !in counters {
        return 0;
      }
      if now > counters[key].reset {
        return 0;
      }
      return counters[key].count;
    }

    method GroupRateLimitMiddleware(group: string, r: Rates, now: nat) returns (ok: bool)
      modifies this
      ensures (ok, counters) == Judged(old(counters), group, r, now)
      ensures var day, rpm, tpm := "grpd:" + group + ":" + Itoa(now / 86400), "grpm:" + group, "gtpm:" + group;
              ok <==> group == "" || ((r.rpd > 0 ==> Peek(old(counters), day, now) + 1 <= r.rpd)
                                      && (r.rpm > 0 ==> Peek(old(counters), rpm, now) + 1 <= r.rpm)
                                      && (r.tpm > 0 ==> Peek(old(counters), tpm, now) < r.tpm))
      ensures var day, rpm := "grpd:" + group + ":" + Itoa(now / 86400), "grpm:" + group;
              var passed := r.rpd > 0 ==> Peek(old(counters), day, now) + 1 <= r.rpd;
              && (group != "" && r.rpd > 0 ==> Peek(counters, day, now) == Peek(old(counters), day, now) + 1)
              && (group != "" && r.rpm > 0 ==> Peek(counters, rpm, now) == Peek(old(counters), rpm, now) + (if passed then 1 else 0))
    {
      hide Itoa;
      MinuteKeysDistinct(group, group, now);
      if group == "" {
        return true;
      }
      if r.rpm <= 0 && r.tpm <= 0 && r.rpd <= 0 {
        return true;
      }
      if r.rpd > 0 {
        var n := AddToWindow(DayKey(group, now), 1, DAY, now);
        if n > r.rpd {
          return false;
        }
      }
      if r.rpm > 0 {
        var n := AddToWindow(RpmKey(group), 1, MINUTE, now);
        if n > r.rpm {
          return false;
        }
      }
      if r.tpm > 0 {
        var n := PeekWindow(TpmKey(group), now);
        if n >= r.tpm {
          return false;
        }
      }
      return true;
    }

    method RecordGroupTokens(group: string, tokens: int, r: Rates, now: nat)
      modifies this
      ensures counters == Recorded(old(counters), group, tokens, r, now)
      ensures group != "" && tokens > 0 && r.tpm > 0 ==> Peek(counters, "gtpm:" + group, now) == Peek(old(counters), "gtpm:" + group, now) + tokens
      ensures group == "" || tokens <= 0 || r.tpm <= 0 ==> counters == old(counters)
    {
      if group == "" || tokens <= 0 {
        return;
      }
      if r.tpm <= 0 {
        return;
      }
      var _ := AddToWindow(TpmKey(group), tokens, MINUTE, now);
    }
  }

  // ---------------------------------------------------------------- the keys do not collide

  lemma LastColon(a: string, d: string, b: string, e: string)
    requires a + ":" + d == b + ":" + e
    requires ':' !in d && ':' !in e
    ensures a == b && d == e
  {
    var s := a + ":" + d;
    assert s == b + ":" + e;
    assert s[|a|] == ':' && forall i | |a| < i < |s| :: s[i] == d[i - |a| - 1];
    assert s[|b|] == ':' && forall i | |b| < i < |s| :: s[i] == e[i - |b| - 1];
    assert |a| == |b|;
    assert a == s[..|a|] && b == s[..|b|];
    assert d == s[|a| + 1..] && e == s[|b| + 1..];
  }

  lemma DayKeysDistinct(g: string, t: nat, h: string, u: nat)
    ensures DayKey(g, t) == DayKey(h, u) <==> g == h && t / DAY == u / DAY
  {
    if DayKey(g, t) == DayKey(h, u) {
      var d, e := Itoa(t / DAY), Itoa(u / DAY);
      assert forall c | c in d :: IsDigit(c);
      assert forall c | c in e :: IsDigit(c);
      assert "grpd:" + g + ":" + d == DayKey(g, t);
      LastColon("grpd:" + g, d, "grpd:" + h, e);
      assert ("grpd:" + g)[5..] == g && ("grpd:" + h)[5..] == h;
      DigitsRoundTrip(t / DAY);
      DigitsRoundTrip(u / DAY);
    }
  }

  lemma MinuteKeysDistinct(g: string, h: string, t: nat)
    ensures RpmKey(g) == RpmKey(h) <==> g == h
    ensures TpmKey(g) == TpmKey(h) <==> g == h
    ensures RpmKey(g) != TpmKey(h) && RpmKey(g) != DayKey(h, t) && TpmKey(g) != DayKey(h, t)
  {
    assert RpmKey(g)[5..] == g && RpmKey(h)[5..] == h && TpmKey(g)[5..] == g && TpmKey(h)[5..] == h;
    assert RpmKey(g)[1] == 'r' && TpmKey(h)[1] == 't';
    assert RpmKey(g)[3] == 'm' && TpmKey(g)[3] == 'm' && DayKey(h, t)[3] == 'd';
  }

  // ---------------------------------------------------------------- runs

  datatype Event = Request(group: string, now: nat) | Tokens(group: string, tokens: int, now: nat) | Sweeper(now: nat)

  function Step(m: Table, e: Event, rates: string -> Rates): Table {
    match e
    case Request(g, now) => Judged(m, g, rates(g), now).1
    case Tokens(g, tokens, now) => Recorded(m, g, tokens, rates(g), now)
    case Sweeper(now) => SweepTable(m, now, DAY)
  }

  predicate Admits(m: Table, e: Event, rates: string -> Rates) {
    e.Request? && Judged(m, e.group, rates(e.group), e.now).0
  }

  /** Requests of one group admitted between `lo` and `hi`. */
  function Admitted(m: Table, events: seq<Event>, rates: string -> Rates, group: string, lo: int, hi: int): nat
    decreases |events|
  {
    if events == [] then 0
    else
      var e := events[0];
      (if Admits(m, e, rates) && e.group == group && lo <= e.now <= hi then 1 else 0)
      + Admitted(Step(m, e, rates), events[1..], rates, group, lo, hi)
  }

  predicate InTime(events: seq<Event>, since: int) {
    events == [] || (events[0].now >= since && InTime(events[1..], events[0].now))
  }

  /** What a run does to one key, given whether each event hits it. */
  function OpsFor(m: Table, events: seq<Event>, rates: string -> Rates, hits: (Table, Event) -> bool): seq<Op>
    decreases |events|
  {
    if events == [] then []
    else
      var e := events[0];
      (if e.Sweeper? then [Sweep(e.now, DAY)] else if hits(m, e) then [Hit(e.now)] else [])
      + OpsFor(Step(m, e, rates), events[1..], rates, hits)
  }

  lemma {:induction false} OpsInOrder(m: Table, events: seq<Event>, rates: string -> Rates, hits: (Table, Event) -> bool, since: int)
    requires InTime(events, since)
    ensures Ordered(OpsFor(m, events, rates, hits), since)
    decreases |events|
  {
    if events != [] {
      var e := events[0];
      OpsInOrder(Step(m, e, rates), events[1..], rates, hits, e.now);
      var rest := OpsFor(Step(m, e, rates), events[1..], rates, hits);
      if e.Sweeper? || hits(m, e) {
        assert OpsFor(m, events, rates, hits)[1..] == rest;
      } else {
        assert OpsFor(m, events, rates, hits) == rest;
      }
    }
  }

  // ---------------------------------------------------------------- requests per day

  function HitsDay(group: string, day: nat, r: Rates): (Table, Event) -> bool {
    (m: Table, e: Event) => e.Request? && e.group == group && e.now / DAY == day && group != "" && r.rpd > 0
  }

  lemma DayStep(m: Table, e: Event, rates: string -> Rates, group: string, at: nat)
    requires group != "" && rates(group).rpd > 0
    ensures var key := DayKey(group, at); var hits := HitsDay(group, at / DAY, rates(group));
            && Get(Step(m, e, rates), key)
            == (if e.Sweeper? then Swept(Get(m, key), e.now, DAY)
                else if hits(m, e) then Some(Added(Get(m, key), e.now, DAY, 1)) else Get(m, key))
            && (hits(m, e) && Admits(m, e, rates) ==> Added(Get(m, key), e.now, DAY, 1).count <= rates(group).rpd)
  {
    if !e.Sweeper? {
      DayKeysDistinct(e.group, e.now, group, at);
      MinuteKeysDistinct(e.group, group, at);
    }
  }

  lemma {:induction false} DayAdmitted(m: Table, events: seq<Event>, rates: string -> Rates, group: string, at: nat, lo: int, hi: int)
    requires group != "" && rates(group).rpd > 0
    requires lo == at / DAY * DAY && hi == lo + DAY - 1
    ensures Admitted(m, events, rates, group, lo, hi)
         <= Accepted(Get(m, DayKey(group, at)), OpsFor(m, events, rates, HitsDay(group, at / DAY, rates(group))), DAY, rates(group).rpd, lo, hi)
    decreases |events|
  {
    if events != [] {
      var e := events[0];
      var hits := HitsDay(group, at / DAY, rates(group));
      DayStep(m, e, rates, group, at);
      DayAdmitted(Step(m, e, rates), events[1..], rates, group, at, lo, hi);
      var ops := OpsFor(m, events, rates, hits);
      var rest := OpsFor(Step(m, e, rates), events[1..], rates, hits);
      SameDay(e.now, at);
      if e.Sweeper? || hits(m, e) {
        assert ops[1..] == rest;
      } else {
        assert ops == rest;
      }
    }
  }

  lemma SameDay(t: nat, at: nat)
    ensures at / DAY * DAY <= t <= at / DAY * DAY + DAY - 1 <==> t / DAY == at / DAY
  {}

  /** Before its own day begins nothing touches a day's counter. */
  lemma {:induction false} DayFromStart(m: Table, events: seq<Event>, rates: string -> Rates, group: string, at: nat, since: int)
    requires group != "" && rates(group).rpd > 0
    requires InTime(events, since) && DayKey(group, at) !in m
    ensures Admitted(m, events, rates, group, at / DAY * DAY, at / DAY * DAY + DAY - 1) <= rates(group).rpd
    decreases |events|
  {
    var lo := at / DAY * DAY;
    hide Step, HitsDay, DayKey, Windows.Ordered, Windows.Accepted;
    if events != [] {
      var e := events[0];
      if e.now < lo {
        DayStep(m, e, rates, group, at);
        SameDay(e.now, at);
        DayFromStart(Step(m, e, rates), events[1..], rates, group, at, e.now);
      } else {
        var hits := HitsDay(group, at / DAY, rates(group));
        DayAdmitted(m, events, rates, group, at, lo, lo + DAY - 1);
        assert InTime(events, lo);
        OpsInOrder(m, events, rates, hits, lo);
        FromFresh(None, OpsFor(m, events, rates, hits), DAY, rates(group).rpd, lo, lo + DAY - 1, lo);
      }
    }
  }

  /** Sweeper or not, a group is never admitted more than `rpd` times within one UTC day. */
  lemma AtMostRpdPerDay(events: seq<Event>, rates: string -> Rates, group: string, at: nat, since: int)
    requires group != "" && rates(group).rpd > 0 && InTime(events, since)
    ensures Admitted(map[], events, rates, group, at / DAY * DAY, at / DAY * DAY + DAY - 1) <= rates(group).rpd
  {
    DayFromStart(map[], events, rates, group, at, since);
  }

  // ---------------------------------------------------------------- requests per minute

  function HitsMinute(group: string, r: Rates): (Table, Event) -> bool {
    (m: Table, e: Event) => e.Request? && e.group == group && group != "" && r.rpm > 0 && PassesDay(m, group, r, e.now)
  }

  lemma MinuteStep(m: Table, e: Event, rates: string -> Rates, group: string)
    requires group != "" && rates(group).rpm > 0
    ensures var key := RpmKey(group); var hits := HitsMinute(group, rates(group));
            && Get(Step(m, e, rates), key)
            == (if e.Sweeper? then Swept(Get(m, key), e.now, DAY)
                else if hits(m, e) then Some(Added(Get(m, key), e.now, MINUTE, 1)) else Get(m, key))
            && (Admits(m, e, rates) && e.group == group ==> hits(m, e) && Added(Get(m, key), e.now, MINUTE, 1).count <= rates(group).rpm)
  {
    if !e.Sweeper? {
      MinuteKeysDistinct(group, e.group, e.now);
    }
  }

  lemma {:induction false} MinuteAdmitted(m: Table, events: seq<Event>, rates: string -> Rates, group: string, lo: int, hi: int)
    requires group != "" && rates(group).rpm > 0
    ensures Admitted(m, events, rates, group, lo, hi)
         <= Accepted(Get(m, RpmKey(group)), OpsFor(m, events, rates, HitsMinute(group, rates(group))), MINUTE, rates(group).rpm, lo, hi)
    decreases |events|
  {
    if events != [] {
      var e := events[0];
      var hits := HitsMinute(group, rates(group));
      MinuteStep(m, e, rates, group);
      MinuteAdmitted(Step(m, e, rates), events[1..], rates, group, lo, hi);
      var ops := OpsFor(m, events, rates, hits);
      var rest := OpsFor(Step(m, e, rates), events[1..], rates, hits);
      if e.Sweeper? || hits(m, e) {
        assert ops[1..] == rest;
      } else {
        assert ops == rest;
      }
    }
  }

  /** In any 60 seconds a group is admitted at most 2 * rpm - 1 times. */
  lemma AtMostTwiceRpmPerMinute(events: seq<Event>, rates: string -> Rates, group: string, lo: int, since: int)
    requires group != "" && rates(group).rpm > 0 && InTime(events, since)
    ensures Admitted(map[], events, rates, group, lo, lo + MINUTE) <= 2 * rates(group).rpm - 1
  {
    MinuteAdmitted(map[], events, rates, group, lo, lo + MINUTE);
    var ops := OpsFor(map[], events, rates, HitsMinute(group, rates(group)));
    OpsInOrder(map[], events, rates, HitsMinute(group, rates(group)), since);
    BurstBound(None, ops, MINUTE, rates(group).rpm, lo, lo + MINUTE, since);
  }

  // ---------------------------------------------------------------- tokens per minute

  lemma TokenStep(m: Table, e: Event, rates: string -> Rates, group: string)
    requires group != "" && rates(group).tpm > 0
    requires TpmKey(group) in m && e.now <= m[TpmKey(group)].reset && m[TpmKey(group)].count >= rates(group).tpm
    ensures !(Admits(m, e, rates) && e.group == group)
    ensures var m' := Step(m, e, rates); var key := TpmKey(group);
            key in m' && m'[key].reset == m[key].reset && m'[key].count >= m[key].count
  {
    if !e.Sweeper? {
      MinuteKeysDistinct(e.group, group, e.now);
      MinuteKeysDistinct(group, e.group, e.now);
    } else {
      assert Get(SweepTable(m, e.now, DAY), TpmKey(group)) == Get(m, TpmKey(group));
    }
  }

  // ---------------------------------------------------------------- what the token counter holds

  /** The table after a run from the empty one. */
  function Final(events: seq<Event>, rates: string -> Rates): Table {
    if events == [] then map[]
    else Step(Final(events[..|events| - 1], rates), events[|events| - 1], rates)
  }

  predicate Sequential(events: seq<Event>) { forall i, j | 0 <= i < j < |events| :: events[i].now <= events[j].now }

  predicate Records(e: Event, group: string) { e.Tokens? && e.group == group && e.tokens > 0 }

  /** The record that opened the group's current minute: the first one more than a minute after the one before. */
  function Opening(events: seq<Event>, group: string): (at: Option<nat>)
    ensures at.Some? ==> at.value < |events| && Records(events[at.value], group)
  {
    if events == [] then None
    else
      var n := |events| - 1;
      var before := Opening(events[..n], group);
      if Records(events[n], group) && (before.None? || events[n].now > events[before.value].now + 60) then Some(n) else before
  }

  function TokenSum(events: seq<Event>, group: string): int {
    if events == [] then 0
    else TokenSum(events[..|events| - 1], group) + (if Records(events[|events| - 1], group) then events[|events| - 1].tokens else 0)
  }

  /** The tokens recorded in the minute that is open at `now`. */
  function RecordedIn(events: seq<Event>, group: string, now: int): int {
    var at := Opening(events, group);
    if at.Some? && now <= events[at.value].now + 60 then TokenSum(events[at.value..], group) else 0
  }

  /** The counter is absent, or holds the open minute's tokens; it is only ever deleted after its minute. */
  predicate Tallied(m: Table, events: seq<Event>, group: string) {
    match Opening(events, group)
    case None => TpmKey(group) !in m
    case Some(i) =>
      if TpmKey(group) in m then m[TpmKey(group)] == Counter(TokenSum(events[i..], group), events[i].now + 60)
      else events[|events| - 1].now > events[i].now + 60
  }

  /** What one event does to a group's token counter. */
  lemma TokenEffect(m: Table, e: Event, rates: string -> Rates, group: string)
    requires group != "" && rates(group).tpm > 0
    ensures var c := Get(m, TpmKey(group));
            Get(Step(m, e, rates), TpmKey(group))
            == if e.Sweeper? then Swept(c, e.now, DAY) else if Records(e, group) then Some(Added(c, e.now, 60, e.tokens)) else c
  {
    if !e.Sweeper? {
      MinuteKeysDistinct(e.group, group, e.now);
      MinuteKeysDistinct(group, e.group, e.now);
    }
  }

  lemma TokenSumOne(e: Event, group: string)
    requires Records(e, group)
    ensures TokenSum([e], group) == e.tokens
  {
    assert [e][..0] == [];
  }

  lemma TokenSumNext(events: seq<Event>, i: nat, group: string)
    requires i < |events| - 1
    ensures var n := |events| - 1;
            TokenSum(events[i..], group) == TokenSum(events[..n][i..], group) + (if Records(events[n], group) then events[n].tokens else 0)
  {
    var n := |events| - 1;
    assert events[i..][..n - i] == events[..n][i..];
  }

  lemma {:induction false} FinalTallied(events: seq<Event>, rates: string -> Rates, group: string)
    requires group != "" && rates(group).tpm > 0 && Sequential(events)
    ensures Tallied(Final(events, rates), events, group)
  {
    hide Step, TokenSum, TpmKey;
    if events != [] {
      var n := |events| - 1;
      var before, e := events[..n], events[n];
      assert n > 0 ==> before[n - 1].now <= e.now;
      FinalTallied(before, rates, group);
      TokenEffect(Final(before, rates), e, rates, group);
      var at := Opening(events, group);
      if at == Some(n) {
        assert events[n..] == [e];
        TokenSumOne(e, group);
      } else if at.Some? {
        TokenSumNext(events, at.value, group);
      }
      hide Sequential;
    }
  }

  /** From the empty table, whatever else runs, the counter read at any later moment is the sum of the open minute's tokens. */
  lemma CounterIsRecorded(events: seq<Event>, rates: string -> Rates, group: string, now: nat)
    requires group != "" && rates(group).tpm > 0 && Sequential(events)
    requires forall i | 0 <= i < |events| :: events[i].now <= now
    ensures Peek(Final(events, rates), "gtpm:" + group, now) == RecordedIn(events, group, now)
  {
    FinalTallied(events, rates, group);
    hide Final, TokenSum;
  }

  /** Once the tokens recorded in an open minute reach tpm, nothing is admitted until it ends, whatever comes in between. */
  lemma SpentMinuteShutsOut(before: seq<Event>, after: seq<Event>, rates: string -> Rates, group: string, since: nat, hi: int)
    requires group != "" && rates(group).tpm > 0 && Sequential(before) && InTime(after, since)
    requires forall i | 0 <= i < |before| :: before[i].now <= since
    requires Opening(before, group).Some? && hi <= before[Opening(before, group).value].now + 60
    requires RecordedIn(before, group, since) >= rates(group).tpm
    ensures Admitted(Final(before, rates), after, rates, group, since, hi) == 0
  {
    FinalTallied(before, rates, group);
    CounterIsRecorded(before, rates, group, since);
    SpentWindowShutsOut(Final(before, rates), after, rates, group, since, hi);
  }

  /** Once a token window has recorded `tpm` tokens, the group is shut out until the window ends. */
  lemma {:induction false} SpentWindowShutsOut(m: Table, events: seq<Event>, rates: string -> Rates, group: string, since: int, hi: int)
    requires group != "" && rates(group).tpm > 0 && InTime(events, since)
    requires TpmKey(group) in m && hi <= m[TpmKey(group)].reset && m[TpmKey(group)].count >= rates(group).tpm
    ensures Admitted(m, events, rates, group, since, hi) == 0
    decreases |events|
  {
    if events != [] {
      var e := events[0];
      if e.now <= hi {
        TokenStep(m, e, rates, group);
        SpentWindowShutsOut(Step(m, e, rates), events[1..], rates, group, e.now, hi);
        AdmittedFrom(Step(m, e, rates), events[1..], rates, group, since, e.now, hi);
      } else {
        AdmittedAfter(m, events, rates, group, since, hi, e.now);
      }
    }
  }

  lemma {:induction false} AdmittedFrom(m: Table, events: seq<Event>, rates: string -> Rates, group: string, lo: int, since: int, hi: int)
    requires InTime(events, since) && lo <= since
    ensures Admitted(m, events, rates, group, lo, hi) == Admitted(m, events, rates, group, since, hi)
    decreases |events|
  {
    if events != [] {
      var e := events[0];
      AdmittedFrom(Step(m, e, rates), events[1..], rates, group, lo, e.now, hi);
      AdmittedFrom(Step(m, e, rates), events[1..], rates, group, since, e.now, hi);
    }
  }

  lemma {:induction false} AdmittedAfter(m: Table, events: seq<Event>, rates: string -> Rates, group: string, lo: int, hi: int, since: int)
    requires InTime(events, since) && since > hi
    ensures Admitted(m, events, rates, group, lo, hi) == 0
    decreases |events|
  {
    if events != [] {
      AdmittedAfter(Step(m, events[0], rates), events[1..], rates, group, lo, hi, events[0].now);
    }
  }
}
