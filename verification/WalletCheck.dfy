/**
 When direct deductions can drive a wallet below zero. A user has any number of them in flight, each before its
 check, between check and charge, or done; everybody else's requests run in between. wallet_only and wallet_first
 ask the wallet for its balance and charge it later; subscription_first falls back on the wallet without asking.
 */
module WalletCheck {
  import opened Options
  import opened Sums
  import opened Ledger
  import opened Settlement

  /** The stages of a direct deduction. */
  predicate Deduction(p: Proc) {
    || p.Done? || p.DirectPool?
    || ((p.Direct? || p.DirectWalletQuery? || p.DirectSubQuery? || p.DirectWallet?) && p.cost >= 0)
  }

  ghost predicate OnlyDeductions(w: World, u: int) {
    && u in w.db.users
    && forall pid | pid in w.procs && w.procs[pid].tok.userId == u :: Deduction(w.procs[pid])
  }

  /** No further request of the user arrives. */
  predicate Closed(events: seq<Event>, u: int) {
    forall i | 0 <= i < |events| :: events[i].Turn? || events[i].tok.userId != u
  }

  /** The deduction will ask the wallet whether it holds the cost. */
  predicate Asks(p: Proc, pref: Preference) { p.DirectWalletQuery? || (p.Direct? && ChecksBalance(pref)) }

  /** The deduction will charge the wallet unasked when no subscription pays. */
  predicate FallsBack(p: Proc, pref: Preference) {
    (p.DirectSubQuery? && p.walletElse) || (p.Direct? && pref == SubscriptionFirst)
  }

  /** The deduction may still charge a wallet that never holds more than `q`. */
  predicate MayCharge(p: Proc, u: int, q: int, pref: Preference) {
    p.tok.userId == u && ((Asks(p, pref) && p.cost <= q) || FallsBack(p, pref) || p.DirectWallet?)
  }

  function MayCost(p: Proc, u: int, q: int, pref: Preference): int { if MayCharge(p, u, q, pref) then p.cost else 0 }

  /** A cost whose check has passed. */
  function Passed(p: Proc, u: int): int { if p.tok.userId == u && p.DirectWallet? then p.cost else 0 }

  ghost function Exposed(u: int, q: int, pref: Preference): Proc -> int { (p: Proc) => MayCost(p, u, q, pref) }

  ghost function Due(u: int): Proc -> int { (p: Proc) => Passed(p, u) }

  /** Everything the user's deductions in flight may still take from a wallet of the present balance. */
  ghost function Exposure(w: World, u: int): int
    requires u in w.db.users
  {
    Total(w.procs, Exposed(u, w.db.users[u].quota, PreferenceOf(w.db, u)))
  }

  /** The part of it that no subscription can pay instead. */
  ghost function AskedFor(u: int, q: int, pref: Preference): Proc -> int {
    (p: Proc) => if FallsBack(p, pref) then 0 else MayCost(p, u, q, pref)
  }

  ghost function AskedExposure(w: World, u: int): int
    requires u in w.db.users
  {
    Total(w.procs, AskedFor(u, w.db.users[u].quota, PreferenceOf(w.db, u)))
  }

  // ---------------------------------------------------------------- enough balance for all

  lemma AdvanceOwn(db: Db, p: Proc, now: int, outcome: Option<int>, u: int, q: int)
    requires ProcOk(db, p) && p.tok.userId == u && Deduction(p) && db.users[u].quota <= q
    ensures var (db', p') := Advance(db, p, now, outcome); var pref := PreferenceOf(db, u);
            && p'.tok == p.tok && Deduction(p') && u in db'.users && PreferenceOf(db', u) == pref
            && db'.users[u].quota <= db.users[u].quota
            && db'.users[u].quota - MayCost(p', u, q, pref) >= db.users[u].quota - MayCost(p, u, q, pref)
  {
    hide FindSub;
  }

  lemma AdvanceOther(db: Db, p: Proc, now: int, outcome: Option<int>, u: int)
    requires ProcOk(db, p) && p.tok.userId != u && u in db.users
    ensures var (db', p') := Advance(db, p, now, outcome); p'.tok == p.tok && u in db'.users && db'.users[u] == db.users[u]
  {}

  ghost predicate Safe(w: World, u: int, q: int) {
    Ok(w) && OnlyDeductions(w, u) && Total(w.procs, Exposed(u, q, PreferenceOf(w.db, u))) <= w.db.users[u].quota <= q
  }

  lemma StepSafe(w: World, e: Event, u: int, q: int)
    requires Safe(w, u, q) && (e.Turn? || e.tok.userId != u)
    ensures Safe(Step(w, e), u, q)
  {
    StepKeeps(w, e);
    if e.Turn? && e.pid in w.procs {
      TurnSafe(w, e.pid, e.now, e.outcome, u, q);
    } else if Step(w, e) != w {
      TotalWrite(w.procs, Exposed(u, q, PreferenceOf(w.db, u)), e.pid, Step(w, e).procs[e.pid]);
      hide Ok, Deduction, Total, SameRows;
    }
  }

  lemma TurnSafe(w: World, pid: int, now: int, outcome: Option<int>, u: int, q: int)
    requires Safe(w, u, q) && pid in w.procs && Ok(Step(w, Turn(pid, now, outcome)))
    ensures Safe(Step(w, Turn(pid, now, outcome)), u, q)
  {
    var p := w.procs[pid];
    assert ProcOk(w.db, p);
    var (db', p') := Advance(w.db, p, now, outcome);
    hide Advance, Deduction, Ok, MayCharge, Total, ProcOk;
    if p.tok.userId == u {
      AdvanceOwn(w.db, p, now, outcome, u, q);
    } else {
      AdvanceOther(w.db, p, now, outcome, u);
    }
    TotalWrite(w.procs, Exposed(u, q, PreferenceOf(w.db, u)), pid, p');
  }

  lemma {:induction false} RunSafe(w: World, events: seq<Event>, u: int, q: int)
    requires Safe(w, u, q) && Closed(events, u)
    ensures Safe(Run(w, events), u, q)
    decreases |events|
  {
    if events != [] {
      assert events[0].Turn? || events[0].tok.userId != u;
      StepSafe(w, events[0], u, q);
      RunSafe(Step(w, events[0]), events[1..], u, q);
    }
  }

  // ---------------------------------------------------------------- all checks, then all charges

  lemma {:induction false} RunAppend(w: World, a: seq<Event>, b: seq<Event>)
    ensures Run(w, a + b) == Run(Run(w, a), b)
    decreases |a|
  {
    if a == [] {
      assert a + b == b;
    } else {
      assert (a + b)[0] == a[0] && (a + b)[1..] == a[1..] + b;
      RunAppend(Step(w, a[0]), a[1..], b);
    }
  }

  lemma RunOne(w: World, e: Event)
    ensures Run(w, [e]) == Step(w, e)
  {
    assert [e][1..] == [];
    assert Run(Step(w, e), []) == Step(w, e);
  }

  function Charging(p: Proc): Proc
    requires p.Direct? || p.DirectWalletQuery? || p.DirectSubQuery? || p.DirectWallet?
  {
    DirectWallet(p.tok, p.cost)
  }

  /** At `t` no subscription of the user is eligible. */
  ghost predicate NoPoolAt(db: Db, u: int, t: int) { forall id | id in db.subs :: !Eligible(db.subs[id], u, t) }

  lemma NoneFound(db: Db, u: int, t: int, cost: int)
    requires NoPoolAt(db, u, t)
    ensures FindSub(db, u, cost, t).None?
  {}

  /** One step of a deduction that may charge the wallet, as long as it is not past its check. */
  lemma AskTurn(w: World, u: int, pid: int, t: int)
    requires u in w.db.users && pid in w.procs
    requires MayCharge(w.procs[pid], u, w.db.users[u].quota, PreferenceOf(w.db, u)) && !w.procs[pid].DirectWallet?
    requires FallsBack(w.procs[pid], PreferenceOf(w.db, u)) ==> NoPoolAt(w.db, u, t)
    ensures var p := w.procs[pid]; var w1 := Step(w, Turn(pid, t, None)); var p1 := w1.procs[pid];
            && w1 == w.(procs := w.procs[pid := p1])
            && (if p.Direct? then (p1.DirectWalletQuery? || p1.DirectSubQuery?) && p1.tok == p.tok && p1.cost == p.cost
                                  && MayCharge(p1, u, w.db.users[u].quota, PreferenceOf(w.db, u))
                                  && (FallsBack(p1, PreferenceOf(w.db, u)) ==> FallsBack(p, PreferenceOf(w.db, u)))
                else p1 == Charging(p))
  {
    if FallsBack(w.procs[pid], PreferenceOf(w.db, u)) {
      NoneFound(w.db, u, t, w.procs[pid].cost);
    }
    hide FindSub, NoPoolAt;
  }

  /** One deduction runs until it is due. */
  lemma AskOne(w: World, u: int, pid: int, t: int) returns (events: seq<Event>)
    requires u in w.db.users && pid in w.procs
    requires MayCharge(w.procs[pid], u, w.db.users[u].quota, PreferenceOf(w.db, u))
    requires FallsBack(w.procs[pid], PreferenceOf(w.db, u)) ==> NoPoolAt(w.db, u, t)
    ensures Closed(events, u) && Run(w, events) == w.(procs := w.procs[pid := Charging(w.procs[pid])])
  {
    hide NoPoolAt, Step;
    var e := Turn(pid, t, None);
    if w.procs[pid].DirectWallet? {
      events := [];
      assert w.procs[pid := Charging(w.procs[pid])] == w.procs;
    } else if w.procs[pid].Direct? {
      AskTurn(w, u, pid, t);
      var w1 := Step(w, e);
      AskTurn(w1, u, pid, t);
      assert w1.procs[pid := Charging(w.procs[pid])] == w.procs[pid := Charging(w.procs[pid])];
      events := [e] + [e];
      RunAppend(w, [e], [e]);
      RunOne(w, e);
      RunOne(w1, e);
    } else {
      AskTurn(w, u, pid, t);
      events := [e];
      RunOne(w, e);
    }
  }

  ghost predicate Chargeable(w: World, u: int, t: int, ids: set<int>) {
    && u in w.db.users
    && forall pid | pid in ids ::
         && pid in w.procs && MayCharge(w.procs[pid], u, w.db.users[u].quota, PreferenceOf(w.db, u))
         && (FallsBack(w.procs[pid], PreferenceOf(w.db, u)) ==> NoPoolAt(w.db, u, t))
  }

  function AfterCheck(procs: map<int, Proc>, ids: set<int>): map<int, Proc> {
    map pid | pid in procs ::
      if pid in ids && (procs[pid].Direct? || procs[pid].DirectWalletQuery? || procs[pid].DirectSubQuery?) then Charging(procs[pid])
      else procs[pid]
  }

  lemma {:induction false} AskAll(w: World, u: int, t: int, ids: set<int>) returns (events: seq<Event>)
    requires Chargeable(w, u, t, ids)
    ensures Closed(events, u) && Run(w, events) == w.(procs := AfterCheck(w.procs, ids))
    decreases |ids|
  {
    hide NoPoolAt;
    if ids == {} {
      events := [];
      assert AfterCheck(w.procs, ids) == w.procs;
    } else {
      var pid := Pick(ids);
      var first := AskOne(w, u, pid, t);
      var w1 := w.(procs := w.procs[pid := Charging(w.procs[pid])]);
      var rest := AskAll(w1, u, t, ids - {pid});
      RunAppend(w, first, rest);
      assert AfterCheck(w1.procs, ids - {pid}) == AfterCheck(w.procs, ids);
      events := first + rest;
    }
  }

  ghost function Charged(w: World, u: int): set<int> {
    set pid | pid in w.procs && w.procs[pid].tok.userId == u && w.procs[pid].DirectWallet?
  }

  lemma ChargeOne(w: World, u: int, pid: int)
    requires u in w.db.users && pid in Charged(w, u)
    ensures var w1 := Step(w, Turn(pid, 0, None));
            && w1.procs == w.procs[pid := Done(w.procs[pid].tok)] && u in w1.db.users
            && w1.db.users[u].quota == w.db.users[u].quota - w.procs[pid].cost
            && Charged(w1, u) == Charged(w, u) - {pid}
            && Total(w1.procs, Due(u)) == Total(w.procs, Due(u)) - w.procs[pid].cost
  {
    TotalWrite(w.procs, Due(u), pid, Done(w.procs[pid].tok));
    hide Total;
  }

  lemma NothingDue(w: World, u: int)
    requires Charged(w, u) == {}
    ensures Total(w.procs, Due(u)) == 0
  {
    forall pid | pid in w.procs
      ensures Passed(w.procs[pid], u) == 0
    {
      assert pid !in Charged(w, u);
    }
    TotalZero(w.procs, Due(u));
  }

  lemma {:induction false} ChargeAll(w: World, u: int, ids: set<int>) returns (events: seq<Event>)
    requires u in w.db.users && ids == Charged(w, u)
    ensures Closed(events, u) && Balance(Run(w, events).db, u) == w.db.users[u].quota - Total(w.procs, Due(u))
    decreases |ids|
  {
    hide Step, Charged, Total, Due, Closed;
    if ids == {} {
      events := [];
      NothingDue(w, u);
      NoEvents(w, u);
    } else {
      var pid := Pick(ids);
      var e := Turn(pid, 0, None);
      ChargeOne(w, u, pid);
      var w1 := Step(w, e);
      var rest := ChargeAll(w1, u, ids - {pid});
      events := Before(w, e, rest, u);
    }
  }

  lemma NoEvents(w: World, u: int)
    ensures Closed([], u) && Run(w, []) == w
  {}

  lemma Before(w: World, e: Event, rest: seq<Event>, u: int) returns (events: seq<Event>)
    requires e.Turn? && Closed(rest, u)
    ensures Closed(events, u) && Run(w, events) == Run(Step(w, e), rest)
  {
    events := [e] + rest;
    RunOne(w, e);
    RunAppend(w, [e], rest);
  }

  // ---------------------------------------------------------------- the exact condition

  ghost predicate NeverOverdrawn(w: World, u: int) {
    forall events | Closed(events, u) :: Balance(Run(w, events).db, u) >= 0
  }

  /** Either no deduction falls back on the wallet unasked, or a moment comes at which no subscription could pay instead. */
  ghost predicate WalletMustDo(w: World, u: int) {
    || (forall pid | pid in w.procs && w.procs[pid].tok.userId == u :: !FallsBack(w.procs[pid], PreferenceOf(w.db, u)))
    || exists t :: NoPoolAt(w.db, u, t)
  }

  /** Whatever the preference and the subscriptions: a balance that covers the exposure never goes negative. */
  lemma CoveredExposureIsSafe(w: World, u: int)
    requires Ok(w) && OnlyDeductions(w, u) && Exposure(w, u) <= w.db.users[u].quota
    ensures NeverOverdrawn(w, u)
  {
    var q := w.db.users[u].quota;
    forall events | Closed(events, u)
      ensures Balance(Run(w, events).db, u) >= 0
    {
      RunSafe(w, events, u, q);
      var w' := Run(w, events);
      TotalNonNegative(w'.procs, Exposed(u, q, PreferenceOf(w'.db, u)));
    }
  }

  /**
   Every interleaving keeps the wallet nonnegative if and only if the balance covers, together, the checks already
   passed, the deductions that fit it one by one and will ask, and all that fall back on it unasked.
   */
  lemma ChecksSufficeIff(w: World, u: int)
    requires Ok(w) && OnlyDeductions(w, u) && WalletMustDo(w, u)
    ensures NeverOverdrawn(w, u) <==> Exposure(w, u) <= w.db.users[u].quota
  {
    if Exposure(w, u) <= w.db.users[u].quota {
      CoveredExposureIsSafe(w, u);
    }
    if NeverOverdrawn(w, u) {
      var events := ChecksThenCharges(w, u);
      assert Balance(Run(w, events).db, u) >= 0;
    }
  }

  /** All checks first, then all charges: the wallet ends at its balance minus the whole exposure. */
  lemma ChecksThenCharges(w: World, u: int) returns (events: seq<Event>)
    requires u in w.db.users && WalletMustDo(w, u)
    ensures Closed(events, u) && Balance(Run(w, events).db, u) == w.db.users[u].quota - Exposure(w, u)
  {
    var q, pref := w.db.users[u].quota, PreferenceOf(w.db, u);
    var t := if exists t :: NoPoolAt(w.db, u, t) then var t :| NoPoolAt(w.db, u, t); t else 0;
    hide NoPoolAt;
    var ids := set pid | pid in w.procs && MayCharge(w.procs[pid], u, q, pref);
    forall pid | pid in w.procs
      ensures MayCost(w.procs[pid], u, q, pref) == Passed(AfterCheck(w.procs, ids)[pid], u)
    {
      assert pid in ids <==> MayCharge(w.procs[pid], u, q, pref);
    }
    events := AllThenCharge(w, u, t, ids, Exposed(u, q, pref));
  }

  /** The same with the deductions that fall back left where they are, which needs nothing of the subscriptions. */
  lemma AsksThenCharges(w: World, u: int) returns (events: seq<Event>)
    requires u in w.db.users
    ensures Closed(events, u) && Balance(Run(w, events).db, u) == w.db.users[u].quota - AskedExposure(w, u)
  {
    var q, pref := w.db.users[u].quota, PreferenceOf(w.db, u);
    var ids := set pid | pid in w.procs && MayCharge(w.procs[pid], u, q, pref) && !FallsBack(w.procs[pid], pref);
    forall pid | pid in w.procs
      ensures AskedFor(u, q, pref)(w.procs[pid]) == Passed(AfterCheck(w.procs, ids)[pid], u)
    {
      assert pid in ids <==> MayCharge(w.procs[pid], u, q, pref) && !FallsBack(w.procs[pid], pref);
    }
    events := AllThenCharge(w, u, 0, ids, AskedFor(u, q, pref));
  }

  lemma AllThenCharge(w: World, u: int, t: int, ids: set<int>, weight: Proc -> int) returns (events: seq<Event>)
    requires Chargeable(w, u, t, ids)
    requires forall pid | pid in w.procs :: weight(w.procs[pid]) == Passed(AfterCheck(w.procs, ids)[pid], u)
    ensures Closed(events, u) && Balance(Run(w, events).db, u) == w.db.users[u].quota - Total(w.procs, weight)
  {
    var asks := AskAll(w, u, t, ids);
    var w1 := w.(procs := AfterCheck(w.procs, ids));
    TotalSame(w.procs, w1.procs, weight, Due(u));
    var charges := ChargeAll(w1, u, Charged(w1, u));
    RunAppend(w, asks, charges);
    events := asks + charges;
  }

  /** Whatever the subscriptions, no wallet is safe whose balance does not cover what is passed and what asks. */
  lemma AskedExposureIsNeeded(w: World, u: int)
    requires u in w.db.users && NeverOverdrawn(w, u)
    ensures AskedExposure(w, u) <= w.db.users[u].quota
  {
    var events := AsksThenCharges(w, u);
    assert Balance(Run(w, events).db, u) >= 0;
  }

  /** Such a moment comes exactly when no active subscription of the user with a quota lasts for ever. */
  lemma PoolsLapseIff(db: Db, u: int)
    ensures (exists t :: NoPoolAt(db, u, t))
       <==> forall id | id in db.subs && db.subs[id].userId == u && db.subs[id].status == ACTIVE && db.subs[id].quota > 0 ::
              db.subs[id].expiredAt != 0
  {
    if forall id | id in db.subs && db.subs[id].userId == u && db.subs[id].status == ACTIVE && db.subs[id].quota > 0 :: db.subs[id].expiredAt != 0 {
      var ends := set id | id in db.subs :: db.subs[id].expiredAt;
      var t := if ends == {} then 0 else Largest(ends);
      forall id | id in db.subs
        ensures db.subs[id].expiredAt <= t
      {
        assert db.subs[id].expiredAt in ends;
      }
      assert NoPoolAt(db, u, t);
    }
    if t :| NoPoolAt(db, u, t) {
      forall id | id in db.subs && db.subs[id].userId == u && db.subs[id].status == ACTIVE && db.subs[id].quota > 0
        ensures db.subs[id].expiredAt != 0
      {
        assert !Eligible(db.subs[id], u, t);
      }
    }
  }
}
