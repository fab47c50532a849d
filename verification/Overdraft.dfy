/**
 How far below zero a wallet, a token allowance or a subscription can be driven. The pre-hold is a
 conditional update; settlements and direct deductions are checked at one statement and applied at a
 later, unconditional one.
 */
module Overdraft {
  import opened Options
  import opened Sums
  import opened Ledger
  import opened Settlement

  function Over(x: int): int { if x > 0 then x else 0 }

  function Capped(x: int): int { if x < 0 then x else 0 }

  /** What a wallet settlement takes beyond its hold; a direct deduction holds nothing. */
  function Uncovered(p: Proc): int {
    match p
    case WalletDue(_, hold, cost) => Over(cost - hold)
    case DirectWallet(_, cost) => Over(cost)
    case _ => 0
  }

  ghost function StepExcess(w: World, e: Event, u: int): int {
    if e.Turn? && e.pid in w.procs && w.procs[e.pid].tok.userId == u then Uncovered(w.procs[e.pid]) else 0
  }

  ghost function Excess(w: World, events: seq<Event>, u: int): int
    decreases |events|
  {
    if events == [] then 0 else StepExcess(w, events[0], u) + Excess(Step(w, events[0]), events[1..], u)
  }

  lemma StepFloor(w: World, e: Event, u: int)
    requires Ok(w) && u in w.db.users
    ensures u in Step(w, e).db.users
    ensures Capped(Step(w, e).db.users[u].quota) >= Capped(w.db.users[u].quota) - StepExcess(w, e, u)
  {
    if e.Turn? && e.pid in w.procs {
      assert ProcOk(w.db, w.procs[e.pid]);
    }
  }

  /** A wallet never falls further below zero than what its settlements cost beyond their holds. */
  lemma {:induction false} WalletFloor(w: World, events: seq<Event>, u: int)
    requires Ok(w) && u in w.db.users
    ensures u in Run(w, events).db.users
    ensures Run(w, events).db.users[u].quota >= Capped(w.db.users[u].quota) - Excess(w, events, u)
    decreases |events|
  {
    if events != [] {
      StepKeeps(w, events[0]);
      StepFloor(w, events[0], u);
      WalletFloor(Step(w, events[0]), events[1..], u);
    }
  }

  /** In every run whose wallet settlements cost no more than their holds. */
  ghost predicate Covered(w: World, events: seq<Event>, u: int)
    decreases |events|
  {
    events == [] || (StepExcess(w, events[0], u) == 0 && Covered(Step(w, events[0]), events[1..], u))
  }

  lemma {:induction false} CoveredHasNoExcess(w: World, events: seq<Event>, u: int)
    requires Covered(w, events, u)
    ensures Excess(w, events, u) == 0
    decreases |events|
  {
    if events != [] {
      CoveredHasNoExcess(Step(w, events[0]), events[1..], u);
    }
  }

  lemma CoveredNeverOverdraws(w: World, events: seq<Event>, u: int)
    requires Ok(w) && u in w.db.users && w.db.users[u].quota >= 0 && Covered(w, events, u)
    ensures u in Run(w, events).db.users && Run(w, events).db.users[u].quota >= 0
  {
    CoveredHasNoExcess(w, events, u);
    WalletFloor(w, events, u);
  }

  // ---------------------------------------------------------------- token allowances

  ghost function TokenStepExcess(w: World, e: Event, t: int): int {
    if e.Turn? && e.pid in w.procs && w.procs[e.pid].tok.id == t then Uncovered(w.procs[e.pid]) else 0
  }

  ghost function TokenExcess(w: World, events: seq<Event>, t: int): int
    decreases |events|
  {
    if events == [] then 0 else TokenStepExcess(w, events[0], t) + TokenExcess(Step(w, events[0]), events[1..], t)
  }

  lemma TokenStepFloor(w: World, e: Event, t: int)
    requires Ok(w) && t in w.db.tokens
    ensures t in Step(w, e).db.tokens
    ensures Capped(Step(w, e).db.tokens[t].remain) >= Capped(w.db.tokens[t].remain) - TokenStepExcess(w, e, t)
  {
    if e.Turn? && e.pid in w.procs {
      assert ProcOk(w.db, w.procs[e.pid]);
    }
  }

  lemma {:induction false} TokenFloor(w: World, events: seq<Event>, t: int)
    requires Ok(w) && t in w.db.tokens
    ensures t in Run(w, events).db.tokens
    ensures Run(w, events).db.tokens[t].remain >= Capped(w.db.tokens[t].remain) - TokenExcess(w, events, t)
    decreases |events|
  {
    if events != [] {
      StepKeeps(w, events[0]);
      TokenStepFloor(w, events[0], t);
      TokenFloor(Step(w, events[0]), events[1..], t);
    }
  }

  // ---------------------------------------------------------------- subscription pools

  ghost function PendingCost(s: int): Proc -> int { (p: Proc) => if p.ChargesPool(s) then p.cost else 0 }

  ghost function PendingCount(s: int): Proc -> int { (p: Proc) => if p.ChargesPool(s) then 1 else 0 }

  /** At most `n` settlements stand between their check and their update, each costing at most `most`. */
  ghost predicate Bounded(w: World, s: int, n: nat, most: nat) {
    && Total(w.procs, PendingCount(s)) <= n
    && forall pid | pid in w.procs && w.procs[pid].ChargesPool(s) :: 0 <= w.procs[pid].cost <= most
  }

  ghost predicate BoundedRun(w: World, events: seq<Event>, s: int, n: nat, most: nat)
    decreases |events|
  {
    Bounded(w, s, n, most) && (events != [] ==> BoundedRun(Step(w, events[0]), events[1..], s, n, most))
  }

  /** What the subscription has paid and will have paid once every pending settlement is applied. */
  ghost function Committed(w: World, s: int): int
    requires s in w.db.subs
  {
    w.db.subs[s].used + Total(w.procs, PendingCost(s))
  }

  /** Only a passed check adds to the commitment, and it passed with room for its own cost. */
  lemma AdvanceCommits(db: Db, p: Proc, now: int, outcome: Option<int>, s: int)
    requires ProcOk(db, p) && s in db.subs
    ensures var (db', p') := Advance(db, p, now, outcome);
            && s in db'.subs && db'.subs[s].quota == db.subs[s].quota
            && (db'.subs[s].used + PendingCost(s)(p') == db.subs[s].used + PendingCost(s)(p)
                || (!p.ChargesPool(s) && p'.ChargesPool(s) && db'.subs[s].used + p'.cost <= db.subs[s].quota))
  {}

  lemma PendingOthers(procs: map<int, Proc>, pid: int, s: int, n: nat, most: nat)
    requires pid in procs && procs[pid].ChargesPool(s)
    requires Total(procs, PendingCount(s)) <= n
    requires forall q | q in procs && procs[q].ChargesPool(s) :: 0 <= procs[q].cost <= most
    ensures n >= 1 && Total(procs, PendingCost(s)) - procs[pid].cost <= (n - 1) * most
  {
    var rest := procs - {pid};
    TotalRemove(procs, PendingCount(s), pid);
    TotalRemove(procs, PendingCost(s), pid);
    TotalNonNegative(rest, PendingCount(s));
    TotalAtMost(rest, PendingCost(s), PendingCount(s), most);
    CostOfAtMost(Total(rest, PendingCount(s)), n - 1, most);
  }

  lemma CostOfAtMost(count: int, limit: int, most: nat)
    requires count <= limit
    ensures most * count <= limit * most
  {
    assert most * (limit - count) >= 0;
  }

  lemma StepCommits(w: World, e: Event, s: int, n: nat, most: nat)
    requires Ok(w) && s in w.db.subs && n >= 1
    requires Bounded(Step(w, e), s, n, most)
    requires Committed(w, s) <= w.db.subs[s].quota + (n - 1) * most
    ensures s in Step(w, e).db.subs && Step(w, e).db.subs[s].quota == w.db.subs[s].quota
    ensures Committed(Step(w, e), s) <= w.db.subs[s].quota + (n - 1) * most
  {
    var w' := Step(w, e);
    match e {
      case Turn(pid, now, outcome) =>
        if pid in w.procs {
          var p := w.procs[pid];
          assert ProcOk(w.db, p);
          AdvanceCommits(w.db, p, now, outcome, s);
          TotalWrite(w.procs, PendingCost(s), pid, w'.procs[pid]);
          if !p.ChargesPool(s) && w'.procs[pid].ChargesPool(s) {
            PendingOthers(w'.procs, pid, s, n, most);
          }
        }
      case _ =>
        if w' != w {
          TotalWrite(w.procs, PendingCost(s), e.pid, w'.procs[e.pid]);
        }
    }
  }

  /** Checks that overlap can overdraw a subscription, by at most one full cost per extra settlement. */
  lemma {:induction false} PoolCeiling(w: World, events: seq<Event>, s: int, n: nat, most: nat)
    requires Ok(w) && s in w.db.subs && n >= 1
    requires Committed(w, s) <= w.db.subs[s].quota + (n - 1) * most
    requires BoundedRun(w, events, s, n, most)
    ensures s in Run(w, events).db.subs && Run(w, events).db.subs[s].quota == w.db.subs[s].quota
    ensures Run(w, events).db.subs[s].used <= w.db.subs[s].quota + (n - 1) * most
    decreases |events|
  {
    if events == [] {
      TotalNonNegative(w.procs, PendingCost(s));
    } else {
      StepKeeps(w, events[0]);
      assert BoundedRun(Step(w, events[0]), events[1..], s, n, most);
      StepCommits(w, events[0], s, n, most);
      PoolCeiling(Step(w, events[0]), events[1..], s, n, most);
    }
  }

  /** When no two settlements overlap, a subscription is never overdrawn. */
  lemma AtomicNeverOverdraws(w: World, events: seq<Event>, s: int, most: nat)
    requires Ok(w) && s in w.db.subs && Committed(w, s) <= w.db.subs[s].quota
    requires BoundedRun(w, events, s, 1, most)
    ensures s in Run(w, events).db.subs && Run(w, events).db.subs[s].used <= w.db.subs[s].quota
  {
    PoolCeiling(w, events, s, 1, most);
  }

  // ---------------------------------------------------------------- the bounds are attained

  function Client(): TokenView { TokenView(1, 1, true, 0) }

  // `n` requests of one user charge `cost` each to a pool of `cost`: all checks first, then all updates.

  function Racer(i: int, checked: nat, charged: nat, cost: nat): Proc {
    if i <= charged then Done(Client())
    else if i <= checked then DirectPool(Client(), cost, 1)
    else DirectSubQuery(Client(), cost, false)
  }

  function Racers(n: nat, checked: nat, charged: nat, cost: nat): map<int, Proc> {
    map i: int | 1 <= i <= n :: Racer(i, checked, charged, cost)
  }

  function Repeated(e: LogEntry, n: nat): seq<LogEntry> { seq(n, _ => e) }

  ghost function Race(n: nat, checked: nat, charged: nat, cost: nat): World {
    World(Db(map[1 := User(0, 0, "subscription_only")], map[1 := Token(1, true, 0, 0)],
             map[1 := Subscription(1, ACTIVE, 0, cost, charged * cost)], Repeated(LogEntry(1, cost), charged)),
          Racers(n, checked, charged, cost))
  }

  function TurnsFrom(first: nat, last: nat): seq<Event>
    decreases last - first
  {
    if first >= last then [] else [Turn(first + 1, 0, None)] + TurnsFrom(first + 1, last)
  }

  lemma RaceBounded(n: nat, checked: nat, charged: nat, cost: nat)
    ensures Bounded(Race(n, checked, charged, cost), 1, n, cost)
  {
    var procs := Racers(n, checked, charged, cost);
    AtMostAll(procs, n, PendingCount(1));
  }

  lemma {:induction false} AtMostAll(procs: map<int, Proc>, n: nat, weight: Proc -> int)
    requires forall k | k in procs :: 1 <= k <= n && weight(procs[k]) <= 1
    ensures Total(procs, weight) <= n
  {
    if n in procs {
      TotalRemove(procs, weight, n);
      AtMostAll(procs - {n}, n - 1, weight);
    } else if n > 0 {
      AtMostAll(procs, n - 1, weight);
    }
  }

  lemma CheckTurn(n: nat, checked: nat, cost: nat)
    requires checked < n && cost >= 1
    ensures Step(Race(n, checked, 0, cost), Turn(checked + 1, 0, None)) == Race(n, checked + 1, 0, cost)
  {
    hide FindSub;
    var w := Race(n, checked, 0, cost);
    OnlyPool(w.db, cost);
    assert w.procs[checked + 1 := DirectPool(Client(), cost, 1)] == Racers(n, checked + 1, 0, cost);
  }

  lemma ChargeTurn(n: nat, charged: nat, cost: nat)
    requires charged < n
    ensures Step(Race(n, n, charged, cost), Turn(charged + 1, 0, None)) == Race(n, n, charged + 1, cost)
  {
    var w := Race(n, n, charged, cost);
    assert (charged + 1) * cost == charged * cost + cost;
    assert w.procs[charged + 1 := Done(Client())] == Racers(n, n, charged + 1, cost);
    assert Repeated(LogEntry(1, cost), charged) + [LogEntry(1, cost)] == Repeated(LogEntry(1, cost), charged + 1);
  }

  lemma {:induction false} ChargesRun(n: nat, charged: nat, cost: nat)
    requires charged <= n
    ensures var w := Race(n, n, charged, cost);
            Run(w, TurnsFrom(charged, n)) == Race(n, n, n, cost) && BoundedRun(w, TurnsFrom(charged, n), 1, n, cost)
    decreases n - charged
  {
    hide Race, Step, Bounded;
    RaceBounded(n, n, charged, cost);
    if charged < n {
      ChargeTurn(n, charged, cost);
      ChargesRun(n, charged + 1, cost);
    }
  }

  lemma {:induction false} ChecksRun(n: nat, checked: nat, cost: nat)
    requires checked <= n && cost >= 1
    ensures var w := Race(n, checked, 0, cost); var events := TurnsFrom(checked, n) + TurnsFrom(0, n);
            Run(w, events) == Race(n, n, n, cost) && BoundedRun(w, events, 1, n, cost)
    decreases n - checked
  {
    hide Race, Step, Bounded;
    RaceBounded(n, checked, 0, cost);
    var events := TurnsFrom(checked, n) + TurnsFrom(0, n);
    if checked < n {
      CheckTurn(n, checked, cost);
      ChecksRun(n, checked + 1, cost);
      assert events[0] == Turn(checked + 1, 0, None) && events[1..] == TurnsFrom(checked + 1, n) + TurnsFrom(0, n);
    } else {
      assert events == TurnsFrom(0, n);
      ChargesRun(n, 0, cost);
    }
  }

  /** For every number of overlapping settlements a run that meets the ceiling's conditions reaches the ceiling. */
  lemma PoolCeilingAttained(n: nat, cost: nat)
    requires n >= 1 && cost >= 1
    ensures var w := Race(n, 0, 0, cost); var events := TurnsFrom(0, n) + TurnsFrom(0, n);
            && Ok(w) && Committed(w, 1) <= w.db.subs[1].quota && BoundedRun(w, events, 1, n, cost)
            && 1 in Run(w, events).db.subs && Run(w, events).db.subs[1].used == w.db.subs[1].quota + (n - 1) * cost
  {
    var w := Race(n, 0, 0, cost);
    ChecksRun(n, 0, cost);
    TotalZero(w.procs, PendingCost(1));
    assert n * cost == cost + (n - 1) * cost;
    hide Run, BoundedRun, Total;
  }

  lemma OnlyPool(db: Db, cost: nat)
    requires cost >= 1 && db.subs == map[1 := Subscription(1, ACTIVE, 0, cost, 0)]
    ensures FindSub(db, 1, cost, 0) == Some(1)
  {
    assert EligibleIds(db, 1, 0) == {1};
  }

  // `n` requests of one user whose holds of `hold` have emptied the wallet settle at `cost` each.

  function Settler(i: int, settled: nat, hold: nat, cost: nat): Proc {
    if i <= settled then LogDue(Client(), cost) else WalletDue(Client(), hold, cost)
  }

  ghost function Settling(n: nat, settled: nat, hold: nat, cost: nat): World {
    World(Db(map[1 := User(settled * (hold - cost), settled * cost, "wallet_only")], map[1 := Token(1, true, 0, settled * cost)],
             map[], []),
          map i: int | 1 <= i <= n :: Settler(i, settled, hold, cost))
  }

  lemma SettleTurn(n: nat, settled: nat, hold: nat, cost: nat)
    requires settled < n && cost >= hold
    ensures var w := Settling(n, settled, hold, cost); var e := Turn(settled + 1, 0, None);
            Step(w, e) == Settling(n, settled + 1, hold, cost) && StepExcess(w, e, 1) == cost - hold
  {
    var w := Settling(n, settled, hold, cost);
    assert (settled + 1) * cost == settled * cost + cost;
    assert (settled + 1) * (hold - cost) == settled * (hold - cost) + (hold - cost);
    assert w.procs[settled + 1 := LogDue(Client(), cost)] == Settling(n, settled + 1, hold, cost).procs;
  }

  lemma {:induction false} SettlingRuns(n: nat, settled: nat, hold: nat, cost: nat)
    requires settled <= n && cost >= hold
    ensures var w := Settling(n, settled, hold, cost); var events := TurnsFrom(settled, n);
            Run(w, events) == Settling(n, n, hold, cost) && Excess(w, events, 1) == (n - settled) * (cost - hold)
    decreases n - settled
  {
    hide Settling, Step, StepExcess;
    if settled < n {
      SettleTurn(n, settled, hold, cost);
      SettlingRuns(n, settled + 1, hold, cost);
      assert (n - settled) * (cost - hold) == (n - settled - 1) * (cost - hold) + (cost - hold);
    }
  }

  /** The wallet's floor is reached: any number of settlements dearer than their holds take an emptied wallet exactly there. */
  lemma WalletFloorAttained(n: nat, hold: nat, cost: nat)
    requires cost >= hold
    ensures var w := Settling(n, 0, hold, cost); var events := TurnsFrom(0, n); var end := Run(w, events).db;
            && Ok(w) && 1 in w.db.users && 1 in end.users && Excess(w, events, 1) == n * (cost - hold)
            && end.users[1].quota == Capped(w.db.users[1].quota) - Excess(w, events, 1)
  {
    SettlingRuns(n, 0, hold, cost);
    assert n * (hold - cost) == 0 - n * (cost - hold);
    hide Run, Excess;
  }
}
