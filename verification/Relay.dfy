/**
 The relay's billing skeleton: pre-hold, try the channels in order, settle once or refund. The
 upstream exchange of each channel is an arbitrary `Attempt`.
 */
module Relay {
  import opened Options
  import opened Ledger
  import opened Settlement

  /** How the attempt on one channel goes; `cost` is the price of the usage the adapter reports, if any. */
  datatype Attempt =
    | CopyFails | SanitizeFails | Blocked | ConvertFails | SendFails
    | Answer(status: int, readable: bool, disables: bool, cost: Option<int>)

  datatype Action = Hold | Try(channel: nat) | Settle(cost: int) | Refund

  /** The relay goes on to the next channel exactly after these attempts. */
  predicate Retried(a: Attempt) {
    match a
    case Blocked => false
    case Answer(status, readable, disables, _) =>
      status >= 400 && (!readable || status == 429 || status >= 500 || disables)
    case _ => true
  }

  /** The price to settle when this attempt ends the loop. */
  function PriceOf(a: Attempt): Option<int> {
    if a.Answer? && a.status < 400 then a.cost else None
  }

  function FirstFinal(attempts: seq<Attempt>): (k: nat)
    ensures k <= |attempts|
    ensures forall i | 0 <= i < k :: Retried(attempts[i])
    ensures k < |attempts| ==> !Retried(attempts[k])
  {
    if attempts == [] || !Retried(attempts[0]) then 0 else 1 + FirstFinal(attempts[1..])
  }

  function Outcome(attempts: seq<Attempt>): Option<int> {
    var k := FirstFinal(attempts);
    if k < |attempts| then PriceOf(attempts[k]) else None
  }

  function Tries(n: nat): (s: seq<Action>)
    ensures |s| == n && forall i | 0 <= i < n :: s[i] == Try(i)
  {
    seq(n, i requires 0 <= i < n => Try(i))
  }

  /** What the relay does once its pre-hold has succeeded. */
  function Script(attempts: seq<Attempt>): seq<Action> {
    var k := FirstFinal(attempts);
    [Hold] + Tries(if k < |attempts| then k + 1 else k)
    + [match Outcome(attempts) case Some(cost) => Settle(cost) case None => Refund]
  }

  ghost function FinalTables(db: Db, tok: TokenView, amount: int, attempts: seq<Attempt>, now: int): Db {
    if !(tok.unlimited || tok.remain >= amount) || !HoldAllowed(db, tok, amount) then db
    else
      match Outcome(attempts)
      case Some(cost) => HeldCharge(HoldTx(db, tok, amount), tok, amount, cost, now)
      case None => RefundTx(HoldTx(db, tok, amount), tok, amount)
  }

  method Serve(ledger: Billing, tok: TokenView, amount: int, attempts: seq<Attempt>, now: int)
    returns (done: seq<Action>)
    requires amount >= 1
    modifies ledger
    ensures done == if (tok.unlimited || tok.remain >= amount) && HoldAllowed(old(ledger.Tables()), tok, amount)
                    then Script(attempts) else []
    ensures ledger.Tables() == FinalTables(old(ledger.Tables()), tok, amount, attempts, now)
  {
    hide HoldTx, RefundTx, HeldCharge, HoldAllowed;
    var held := ledger.PreConsumeQuota(tok, amount);
    if held.None? {
      return [];
    }
    done := [Hold];
    var billingSettled := false;
    var i := 0;
    ghost var heldTables := ledger.Tables();
    while i < |attempts|
      invariant 0 <= i <= |attempts|
      invariant forall j | 0 <= j < i :: Retried(attempts[j])
      invariant done == [Hold] + Tries(i)
      invariant !billingSettled && ledger.Tables() == heldTables
    {
      done := done + [Try(i)];
      assert done == [Hold] + Tries(i + 1);
      var a := attempts[i];
      match a {
        case CopyFails => i := i + 1; continue;
        case SanitizeFails => i := i + 1; continue;
        case Blocked => break;
        case ConvertFails => i := i + 1; continue;
        case SendFails => i := i + 1; continue;
        case Answer(status, readable, disables, cost) =>
          if status >= 400 {
            if !readable {
              i := i + 1;
              continue;
            }
            var shouldRetry := status == 429 || status >= 500 || disables;
            if shouldRetry {
              i := i + 1;
              continue;
            }
            break;
          }
          if cost.Some? {
            ledger.RecordConsumeWithBilling(tok, held.value, cost.value, now);
            billingSettled := true;
            done := done + [Settle(cost.value)];
          }
          break;
      }
    }
    FirstFinalIs(attempts, i);
    if !billingSettled {
      ledger.RefundQuota(tok, held.value);
      done := done + [Refund];
    }
  }

  lemma {:induction false} FirstFinalIs(attempts: seq<Attempt>, k: nat)
    requires k <= |attempts|
    requires forall i | 0 <= i < k :: Retried(attempts[i])
    requires k < |attempts| ==> !Retried(attempts[k])
    ensures FirstFinal(attempts) == k
  {
    if attempts != [] && Retried(attempts[0]) {
      FirstFinalIs(attempts[1..], k - 1);
    }
  }

  // ---------------------------------------------------------------- what the script guarantees

  /**
   Which channels are tried and why the loop stops, in terms of the upstream's answers: everything but a refusal by
   policy and a readable client error that neither asks to slow down nor disables the channel moves on, and an answer
   below 400 settles what it reports.
   */
  lemma ScriptStops(attempts: seq<Attempt>)
    ensures var s := Script(attempts); var n := |s| - 2;
            && 0 <= n <= |attempts|
            && (forall i | 0 <= i < n - 1 ::
                  attempts[i] in {CopyFails, SanitizeFails, ConvertFails, SendFails}
                  || (attempts[i].Answer? && attempts[i].status >= 400
                      && (!attempts[i].readable || attempts[i].status == 429 || attempts[i].status >= 500 || attempts[i].disables)))
            && (n < |attempts| ==>
                  && n >= 1
                  && (attempts[n - 1] == Blocked
                      || (attempts[n - 1].Answer?
                          && (attempts[n - 1].status < 400
                              || (attempts[n - 1].readable && attempts[n - 1].status != 429 && attempts[n - 1].status < 500
                                  && !attempts[n - 1].disables)))))
            && (forall cost :: s[n + 1] == Settle(cost) <==>
                  n >= 1 && attempts[n - 1].Answer? && attempts[n - 1].status < 400 && attempts[n - 1].cost == Some(cost))
  {
    ScriptResolvesOnce(attempts);
    var s := Script(attempts);
    var n := |s| - 2;
    var k := FirstFinal(attempts);
    assert n == if k < |attempts| then k + 1 else k;
    forall i | 0 <= i < n - 1
      ensures Retried(attempts[i])
    {}
  }

  function Resolves(a: Action): nat { if a.Settle? || a.Refund? then 1 else 0 }

  function Resolutions(s: seq<Action>): nat {
    if s == [] then 0 else Resolves(s[0]) + Resolutions(s[1..])
  }

  lemma {:induction false} ResolutionsAppend(s: seq<Action>, t: seq<Action>)
    ensures Resolutions(s + t) == Resolutions(s) + Resolutions(t)
  {
    if s == [] {
      assert s + t == t;
    } else {
      assert (s + t)[1..] == s[1..] + t;
      ResolutionsAppend(s[1..], t);
    }
  }

  lemma {:induction false} TriesResolveNothing(s: seq<Action>)
    requires forall i | 0 <= i < |s| :: s[i].Try?
    ensures Resolutions(s) == 0
  {
    if s != [] {
      TriesResolveNothing(s[1..]);
    }
  }

  /**
   Every hold is resolved exactly once, by the last action; channels are tried in list order, each at
   most once, none after an attempt that is not retried; the price is settled exactly when the last
   channel tried answered below 400 and reported its usage.
   */
  lemma ScriptResolvesOnce(attempts: seq<Attempt>)
    ensures var s := Script(attempts); var n := |s| - 2;
            && Resolutions(s) == 1 && s[0] == Hold && (s[n + 1].Settle? || s[n + 1].Refund?)
            && 0 <= n <= |attempts| && (forall i | 0 <= i < n :: s[i + 1] == Try(i))
            && (forall i | 0 <= i < n - 1 :: Retried(attempts[i]))
            && (n < |attempts| ==> n >= 1 && !Retried(attempts[n - 1]))
            && (s[n + 1].Settle? <==> n >= 1 && PriceOf(attempts[n - 1]).Some?)
            && (s[n + 1].Settle? ==> PriceOf(attempts[n - 1]) == Some(s[n + 1].cost))
  {
    var k := FirstFinal(attempts);
    var n := if k < |attempts| then k + 1 else k;
    var last := Script(attempts)[n + 1];
    assert Script(attempts) == [Hold] + (Tries(n) + [last]);
    ResolutionsAppend([Hold], Tries(n) + [last]);
    ResolutionsAppend(Tries(n), [last]);
    TriesResolveNothing(Tries(n));
    assert [Hold][1..] == [] && [last][1..] == [];
    assert k == |attempts| && n >= 1 ==> Retried(attempts[n - 1]);
  }

  /** A refund restores the tables, and a settlement leaves nothing of its hold behind. */
  lemma HoldLeavesNoTrace(db: Db, tok: TokenView, amount: int, cost: int, now: int)
    requires HoldAllowed(db, tok, amount)
    ensures RefundTx(HoldTx(db, tok, amount), tok, amount) == db
    ensures HeldCharge(HoldTx(db, tok, amount), tok, amount, cost, now) == HeldCharge(db, tok, 0, cost, now)
  {
    var h := HoldTx(db, tok, amount);
    RefundAfterHold(db, tok, amount);
    SettleAfterHold(db, tok, amount, cost);
    assert h.subs == db.subs && EligibleIds(h, tok.userId, now) == EligibleIds(db, tok.userId, now);
    assert FindSub(h, tok.userId, cost, now) == FindSub(db, tok.userId, cost, now);
    var z := RefundTx(db, tok, 0);
    assert z.users == db.users;
    assert z.tokens == db.tokens;
  }

  lemma RefundAfterHold(db: Db, tok: TokenView, amount: int)
    requires HoldAllowed(db, tok, amount)
    ensures RefundTx(HoldTx(db, tok, amount), tok, amount) == db
  {
    var r := RefundTx(HoldTx(db, tok, amount), tok, amount);
    assert r.users == db.users;
    assert r.tokens == db.tokens;
  }

  lemma SettleAfterHold(db: Db, tok: TokenView, amount: int, cost: int)
    requires HoldAllowed(db, tok, amount)
    ensures SettleTx(HoldTx(db, tok, amount), tok, amount, cost) == SettleTx(db, tok, 0, cost)
  {
    var a := SettleTx(HoldTx(db, tok, amount), tok, amount, cost);
    var b := SettleTx(db, tok, 0, cost);
    assert a.users == b.users;
    assert a.tokens == b.tokens;
  }

  /** Served alone, a request either leaves the tables as they were or is charged its price once. */
  lemma ServedAloneChargesOnce(db: Db, tok: TokenView, amount: int, attempts: seq<Attempt>, now: int)
    ensures var end := FinalTables(db, tok, amount, attempts, now);
            end == db || (Outcome(attempts).Some? && end == HeldCharge(db, tok, 0, Outcome(attempts).value, now))
  {
    if HoldAllowed(db, tok, amount) {
      HoldLeavesNoTrace(db, tok, amount, if Outcome(attempts).Some? then Outcome(attempts).value else 0, now);
    }
  }

  // ---------------------------------------------------------------- the relay is one process of the protocol

  /** `turns` consecutive statements of one request. */
  ghost function Solo(db: Db, p: Proc, now: int, outcome: Option<int>, turns: nat): (Db, Proc)
    decreases turns
  {
    if turns == 0 then (db, p)
    else
      var (db', p') := Advance(db, p, now, outcome);
      Solo(db', p', now, outcome, turns - 1)
  }

  function Alone(pid: int, now: int, outcome: Option<int>, turns: nat): (s: seq<Event>)
    ensures |s| == turns && forall i | 0 <= i < turns :: s[i] == Turn(pid, now, outcome)
  {
    seq(turns, _ => Turn(pid, now, outcome))
  }

  lemma {:induction false} AloneIsSolo(w: World, pid: int, now: int, outcome: Option<int>, turns: nat)
    requires pid in w.procs
    ensures var w' := Run(w, Alone(pid, now, outcome, turns));
            var (db, p) := Solo(w.db, w.procs[pid], now, outcome, turns);
            w'.db == db && pid in w'.procs && w'.procs[pid] == p
    decreases turns
  {
    if turns > 0 {
      assert Alone(pid, now, outcome, turns)[1..] == Alone(pid, now, outcome, turns - 1);
      AloneIsSolo(Step(w, Turn(pid, now, outcome)), pid, now, outcome, turns - 1);
    }
  }

  lemma SoloTwo(db: Db, p: Proc, now: int, outcome: Option<int>, turns: nat)
    requires turns >= 2
    ensures var (db1, p1) := Advance(db, p, now, outcome);
            var (db2, p2) := Advance(db1, p1, now, outcome);
            Solo(db, p, now, outcome, turns) == Solo(db2, p2, now, outcome, turns - 2)
  {}

  lemma {:induction false} SoloDone(db: Db, tok: TokenView, now: int, outcome: Option<int>, turns: nat)
    ensures Solo(db, Done(tok), now, outcome, turns) == (db, Done(tok))
  {
    if turns > 0 {
      SoloDone(db, tok, now, outcome, turns - 1);
    }
  }

  lemma SoloWallet(db: Db, tok: TokenView, hold: int, cost: int, now: int, outcome: Option<int>, turns: nat)
    requires turns >= 2
    ensures Solo(db, WalletDue(tok, hold, cost), now, outcome, turns)
         == (AppendLog(SettleTx(db, tok, hold, cost), tok.userId, cost), Done(tok))
  {
    SoloTwo(db, WalletDue(tok, hold, cost), now, outcome, turns);
    SoloDone(AppendLog(SettleTx(db, tok, hold, cost), tok.userId, cost), tok, now, outcome, turns - 2);
  }

  lemma SoloPoolOrWallet(db: Db, tok: TokenView, hold: int, cost: int, now: int, outcome: Option<int>, turns: nat)
    requires turns >= 4
    ensures Solo(db, SubQuery(tok, hold, cost), now, outcome, turns)
         == (match FindSub(db, tok.userId, cost, now)
             case Some(s) => AppendLog(ChargeSub(RefundTx(db, tok, hold), s, cost), tok.userId, cost)
             case None => AppendLog(SettleTx(db, tok, hold, cost), tok.userId, cost),
             Done(tok))
  {
    match FindSub(db, tok.userId, cost, now) {
      case Some(s) =>
        SoloTwo(db, SubQuery(tok, hold, cost), now, outcome, turns);
        SoloTwo(RefundTx(db, tok, hold), ChargeDue(tok, cost, s), now, outcome, turns - 2);
        SoloDone(AppendLog(ChargeSub(RefundTx(db, tok, hold), s, cost), tok.userId, cost), tok, now, outcome, turns - 4);
      case None =>
        SoloWallet(db, tok, hold, cost, now, outcome, turns - 1);
    }
  }

  lemma SoloSettles(db: Db, tok: TokenView, hold: int, cost: int, now: int, outcome: Option<int>, turns: nat)
    requires turns >= 6
    ensures Solo(db, Priced(tok, hold, cost), now, outcome, turns) == (HeldCharge(db, tok, hold, cost, now), Done(tok))
  {
    match PreferenceOf(db, tok.userId) {
      case WalletOnly => SoloWallet(db, tok, hold, cost, now, outcome, turns - 1);
      case WalletFirst =>
        SoloTwo(db, Priced(tok, hold, cost), now, outcome, turns);
        if Balance(db, tok.userId) + hold >= cost {
          SoloWallet(db, tok, hold, cost, now, outcome, turns - 2);
        } else {
          SoloPoolOrWallet(db, tok, hold, cost, now, outcome, turns - 2);
        }
      case _ => SoloPoolOrWallet(db, tok, hold, cost, now, outcome, turns - 1);
    }
  }

  lemma SoloServes(db: Db, tok: TokenView, amount: int, now: int, attempts: seq<Attempt>)
    requires amount >= 1
    ensures Solo(db, Arrived(tok, amount), now, Outcome(attempts), 9)
         == (FinalTables(db, tok, amount, attempts, now), Done(tok))
  {
    var out := Outcome(attempts);
    var start := Arrived(tok, amount);
    SoloTwo(db, start, now, out, 9);
    if !(tok.unlimited || tok.remain >= amount) || !HoldAllowed(db, tok, amount) {
      SoloDone(db, tok, now, out, 7);
      SoloDone(db, tok, now, out, 8);
    } else {
      var h := HoldTx(db, tok, amount);
      match out {
        case Some(cost) => SoloSettles(h, tok, amount, cost, now, out, 6);
        case None =>
          SoloTwo(h, Held(tok, amount), now, out, 7);
          SoloDone(RefundTx(h, tok, amount), tok, now, out, 5);
      }
    }
  }

  /** Serving one request alone is one schedule of the interleaved protocol, down to the last table row. */
  lemma ServeIsOneSchedule(w: World, pid: int, now: int, attempts: seq<Attempt>)
    requires pid in w.procs && w.procs[pid].Arrived? && w.procs[pid].amount >= 1
    ensures var p := w.procs[pid];
            var w' := Run(w, Alone(pid, now, Outcome(attempts), 9));
            w'.db == FinalTables(w.db, p.tok, p.amount, attempts, now) && pid in w'.procs && w'.procs[pid] == Done(p.tok)
  {
    AloneIsSolo(w, pid, now, Outcome(attempts), 9);
    SoloServes(w.db, w.procs[pid].tok, w.procs[pid].amount, now, attempts);
  }

  /** An authenticated request takes its hold in two turns exactly when its token and its user's wallet allow it. */
  lemma ArrivedTakesHold(w: World, pid: int, now: int)
    requires pid in w.procs && w.procs[pid].Arrived? && w.procs[pid].amount >= 1
    ensures var tok, amount := w.procs[pid].tok, w.procs[pid].amount;
            var w' := Run(w, Alone(pid, now, None, 2));
            && pid in w'.procs
            && (w'.procs[pid] == Held(tok, amount) <==>
                  && tok.userId in w.db.users && w.db.users[tok.userId].quota >= amount
                  && (tok.unlimited || (tok.remain >= amount && tok.id in w.db.tokens && w.db.tokens[tok.id].remain >= amount)))
            && (w'.procs[pid] == Held(tok, amount) || w'.procs[pid] == Done(tok))
            && (w'.procs[pid] == Done(tok) ==> w'.db == w.db)
  {
    AloneIsSolo(w, pid, now, None, 2);
    SoloTwo(w.db, w.procs[pid], now, None, 2);
  }

  lemma SoloDirectPool(db: Db, tok: TokenView, cost: int, walletElse: bool, now: int, outcome: Option<int>, turns: nat)
    requires turns >= 2
    ensures Solo(db, DirectSubQuery(tok, cost, walletElse), now, outcome, turns)
         == (match FindSub(db, tok.userId, cost, now)
             case Some(s) => AppendLog(ChargeSub(db, s, cost), tok.userId, cost)
             case None => if walletElse then AppendLog(SettleTx(db, tok, 0, cost), tok.userId, cost) else db,
             Done(tok))
  {
    SoloTwo(db, DirectSubQuery(tok, cost, walletElse), now, outcome, turns);
    hide FindSub, AppendLog, ChargeSub, SettleTx;
    match FindSub(db, tok.userId, cost, now) {
      case Some(s) => SoloDone(AppendLog(ChargeSub(db, s, cost), tok.userId, cost), tok, now, outcome, turns - 2);
      case None =>
        if walletElse {
          SoloDone(AppendLog(SettleTx(db, tok, 0, cost), tok.userId, cost), tok, now, outcome, turns - 2);
        } else {
          SoloDone(db, tok, now, outcome, turns - 2);
        }
    }
  }

  lemma SoloDirectWallet(db: Db, tok: TokenView, cost: int, poolElse: bool, now: int, outcome: Option<int>)
    ensures Solo(db, DirectWalletQuery(tok, cost, poolElse), now, outcome, 3)
         == (if Balance(db, tok.userId) >= cost then AppendLog(SettleTx(db, tok, 0, cost), tok.userId, cost)
             else if !poolElse then db
             else match FindSub(db, tok.userId, cost, now)
                  case Some(s) => AppendLog(ChargeSub(db, s, cost), tok.userId, cost)
                  case None => db,
             Done(tok))
  {
    SoloTwo(db, DirectWalletQuery(tok, cost, poolElse), now, outcome, 3);
    SoloDirectPool(db, tok, cost, false, now, outcome, 2);
    SoloDone(AppendLog(SettleTx(db, tok, 0, cost), tok.userId, cost), tok, now, outcome, 1);
    SoloDone(db, tok, now, outcome, 2);
    hide FindSub, AppendLog, ChargeSub, SettleTx;
  }

  lemma SoloDirect(db: Db, tok: TokenView, cost: int, now: int, outcome: Option<int>)
    ensures Solo(db, Direct(tok, cost), now, outcome, 4) == (DirectCharge(db, tok, cost, now), Done(tok))
  {
    hide FindSub, AppendLog, ChargeSub, SettleTx;
    match PreferenceOf(db, tok.userId) {
      case SubscriptionOnly => SoloDirectPool(db, tok, cost, false, now, outcome, 3);
      case SubscriptionFirst => SoloDirectPool(db, tok, cost, true, now, outcome, 3);
      case WalletOnly => SoloDirectWallet(db, tok, cost, false, now, outcome);
      case WalletFirst => SoloDirectWallet(db, tok, cost, true, now, outcome);
    }
  }

  /** Recording a direct charge is one schedule of the interleaved protocol as well. */
  lemma DirectIsOneSchedule(w: World, pid: int, now: int)
    requires pid in w.procs && w.procs[pid].Direct?
    ensures var p := w.procs[pid]; var w' := Run(w, Alone(pid, now, None, 4));
            w'.db == DirectCharge(w.db, p.tok, p.cost, now) && pid in w'.procs && w'.procs[pid] == Done(p.tok)
  {
    AloneIsSolo(w, pid, now, None, 4);
    SoloDirect(w.db, w.procs[pid].tok, w.procs[pid].cost, now, None);
  }

  // ---------------------------------------------------------------- resolved once under any interleaving

  predicate Holding(p: Proc) {
    p.Held? || p.Failing? || p.Priced? || p.WalletQuery? || p.SubQuery? || p.WalletDue? || p.RefundDue?
  }

  ghost function HoldsTaken(w: World, events: seq<Event>, pid: int): nat
    decreases |events|
  {
    if events == [] then 0
    else
      (if events[0].Turn? && events[0].pid == pid && pid in w.procs && w.procs[pid].Checked?
          && HoldAllowed(w.db, w.procs[pid].tok, w.procs[pid].amount) then 1 else 0)
      + HoldsTaken(Step(w, events[0]), events[1..], pid)
  }

  /** Wallet settlements and refunds executed for one request. */
  ghost function HoldsResolved(w: World, events: seq<Event>, pid: int): nat
    decreases |events|
  {
    if events == [] then 0
    else
      (if events[0].Turn? && events[0].pid == pid && pid in w.procs
          && (w.procs[pid].WalletDue? || w.procs[pid].RefundDue? || w.procs[pid].Failing?) then 1 else 0)
      + HoldsResolved(Step(w, events[0]), events[1..], pid)
  }

  function Flag(b: bool): nat { if b then 1 else 0 }

  lemma {:induction false} HoldsBalance(w: World, events: seq<Event>, pid: int)
    requires pid in w.procs
    ensures pid in Run(w, events).procs
    ensures Flag(Holding(w.procs[pid])) + HoldsTaken(w, events, pid)
         == HoldsResolved(w, events, pid) + Flag(Holding(Run(w, events).procs[pid]))
    ensures HoldsTaken(w, events, pid) <= Flag(w.procs[pid].Arrived? || w.procs[pid].Checked?)
    decreases |events|
  {
    if events != [] {
      HoldsBalance(Step(w, events[0]), events[1..], pid);
    }
  }

  /** However requests interleave, a finished request resolved its hold exactly once, if it took one. */
  lemma FinishedResolvedOnce(w: World, events: seq<Event>, pid: int)
    requires pid in w.procs && w.procs[pid].Arrived?
    requires pid in Run(w, events).procs && Run(w, events).procs[pid].Done?
    ensures HoldsResolved(w, events, pid) == HoldsTaken(w, events, pid) <= 1
  {
    HoldsBalance(w, events, pid);
  }
}
