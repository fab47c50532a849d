/**
 Billing as a concurrent protocol. A request is a process whose program counter stands between two
 database statements; a run interleaves any number of processes, one statement at a time.
 */
module Settlement {
  import opened Options
  import opened Sums
  import opened Ledger

  /** The next statement of a request. `hold` is what the request has pre-held, `cost` its price. */
  datatype Proc =
    | Arrived(tok: TokenView, amount: int)
    | Checked(tok: TokenView, amount: int)
    | Held(tok: TokenView, hold: int)
    | Failing(tok: TokenView, hold: int)
    | Priced(tok: TokenView, hold: int, cost: int)
    | WalletQuery(tok: TokenView, hold: int, cost: int)
    | SubQuery(tok: TokenView, hold: int, cost: int)
    | WalletDue(tok: TokenView, hold: int, cost: int)
    | RefundDue(tok: TokenView, hold: int, cost: int, sub: int)
    | ChargeDue(tok: TokenView, cost: int, sub: int)
    | LogDue(tok: TokenView, cost: int)
    | Direct(tok: TokenView, cost: int)
    | DirectWalletQuery(tok: TokenView, cost: int, poolElse: bool)
    | DirectSubQuery(tok: TokenView, cost: int, walletElse: bool)
    | DirectWallet(tok: TokenView, cost: int)
    | DirectPool(tok: TokenView, cost: int, sub: int)
    | Done(tok: TokenView)
  {
    function Outstanding(): int {
      if Held? || Failing? || Priced? || WalletQuery? || SubQuery? || WalletDue? || RefundDue? then hold else 0
    }

    predicate ChargesPool(s: int) {
      (RefundDue? || ChargeDue? || DirectPool?) && sub == s
    }
  }

  datatype World = World(db: Db, procs: map<int, Proc>)

  /** `outcome` is the price of a successful upstream call; `now` is the clock a statement reads. */
  datatype Event =
    | Arrive(pid: int, tok: TokenView, amount: int)
    | ArriveDirect(pid: int, tok: TokenView, cost: int)
    | Turn(pid: int, now: int, outcome: Option<int>)

  /** An authenticated token: its row and its user's row exist and agree with what the request carries. */
  predicate Known(db: Db, tok: TokenView) {
    && tok.id in db.tokens && tok.userId in db.users
    && db.tokens[tok.id].userId == tok.userId && db.tokens[tok.id].unlimited == tok.unlimited
  }

  ghost function Advance(db: Db, p: Proc, now: int, outcome: Option<int>): (Db, Proc) {
    match p
    case Arrived(tok, amount) =>
      if (!tok.unlimited && tok.remain < amount) || Balance(db, tok.userId) < amount
      then (db, Done(tok)) else (db, Checked(tok, amount))
    case Checked(tok, amount) =>
      if HoldAllowed(db, tok, amount) then (HoldTx(db, tok, amount), Held(tok, amount)) else (db, Done(tok))
    case Held(tok, hold) =>
      (db, if outcome.None? then Failing(tok, hold) else Priced(tok, hold, outcome.value))
    case Failing(tok, hold) => (RefundTx(db, tok, hold), Done(tok))
    case Priced(tok, hold, cost) =>
      (db, match PreferenceOf(db, tok.userId)
           case WalletOnly => WalletDue(tok, hold, cost)
           case WalletFirst => WalletQuery(tok, hold, cost)
           case _ => SubQuery(tok, hold, cost))
    case WalletQuery(tok, hold, cost) =>
      (db, if Balance(db, tok.userId) + hold >= cost then WalletDue(tok, hold, cost) else SubQuery(tok, hold, cost))
    case SubQuery(tok, hold, cost) =>
      (db, match FindSub(db, tok.userId, cost, now)
           case Some(s) => RefundDue(tok, hold, cost, s)
           case None => WalletDue(tok, hold, cost))
    case WalletDue(tok, hold, cost) => (SettleTx(db, tok, hold, cost), LogDue(tok, cost))
    case RefundDue(tok, hold, cost, s) => (RefundTx(db, tok, hold), ChargeDue(tok, cost, s))
    case ChargeDue(tok, cost, s) => (ChargeSub(db, s, cost), LogDue(tok, cost))
    case LogDue(tok, cost) => (AppendLog(db, tok.userId, cost), Done(tok))
    case Direct(tok, cost) =>
      (db, match PreferenceOf(db, tok.userId)
           case WalletOnly => DirectWalletQuery(tok, cost, false)
           case WalletFirst => DirectWalletQuery(tok, cost, true)
           case SubscriptionOnly => DirectSubQuery(tok, cost, false)
           case SubscriptionFirst => DirectSubQuery(tok, cost, true))
    case DirectWalletQuery(tok, cost, poolElse) =>
      (db, if Balance(db, tok.userId) >= cost then DirectWallet(tok, cost)
           else if poolElse then DirectSubQuery(tok, cost, false) else Done(tok))
    case DirectSubQuery(tok, cost, walletElse) =>
      (db, match FindSub(db, tok.userId, cost, now)
           case Some(s) => DirectPool(tok, cost, s)
           case None => if walletElse then DirectWallet(tok, cost) else Done(tok))
    case DirectWallet(tok, cost) => (AppendLog(SettleTx(db, tok, 0, cost), tok.userId, cost), Done(tok))
    case DirectPool(tok, cost, s) => (AppendLog(ChargeSub(db, s, cost), tok.userId, cost), Done(tok))
    case Done(_) => (db, p)
  }

  ghost function Step(w: World, e: Event): World {
    match e
    case Arrive(pid, tok, amount) =>
      if pid in w.procs || amount < 1 || !Known(w.db, tok) then w
      else w.(procs := w.procs[pid := Arrived(tok, amount)])
    case ArriveDirect(pid, tok, cost) =>
      if pid in w.procs || !Known(w.db, tok) then w
      else w.(procs := w.procs[pid := Direct(tok, cost)])
    case Turn(pid, now, outcome) =>
      if pid !in w.procs then w
      else
        var (db, p) := Advance(w.db, w.procs[pid], now, outcome);
        World(db, w.procs[pid := p])
  }

  ghost function Run(w: World, events: seq<Event>): World
    decreases |events|
  {
    if events == [] then w else Run(Step(w, events[0]), events[1..])
  }

  /** A request enters with the token it was authenticated with, its amount or its cost, under an id not yet in use. */
  lemma RequestEnters(w: World, pid: int, tok: TokenView, amount: int)
    requires pid !in w.procs && tok.id in w.db.tokens && tok.userId in w.db.users
    requires w.db.tokens[tok.id].userId == tok.userId && w.db.tokens[tok.id].unlimited == tok.unlimited
    ensures amount >= 1 ==> Step(w, Arrive(pid, tok, amount)) == World(w.db, w.procs[pid := Arrived(tok, amount)])
    ensures Step(w, ArriveDirect(pid, tok, amount)) == World(w.db, w.procs[pid := Direct(tok, amount)])
  {}

  // ---------------------------------------------------------------- what every statement keeps

  predicate ProcOk(db: Db, p: Proc) {
    && Known(db, p.tok) && p.Outstanding() >= 0
    && ((p.Arrived? || p.Checked?) ==> p.amount >= 1)
    && ((p.RefundDue? || p.ChargeDue? || p.DirectPool?) ==> p.sub in db.subs && db.subs[p.sub].userId == p.tok.userId)
  }

  ghost predicate Ok(w: World) {
    forall pid | pid in w.procs :: ProcOk(w.db, w.procs[pid])
  }

  /** Rows come and go only outside the protocol, and the protocol never touches these columns. */
  ghost predicate SameRows(a: Db, b: Db) {
    && a.users.Keys == b.users.Keys && a.tokens.Keys == b.tokens.Keys && a.subs.Keys == b.subs.Keys
    && (forall t | t in a.tokens :: a.tokens[t].userId == b.tokens[t].userId && a.tokens[t].unlimited == b.tokens[t].unlimited)
    && (forall s | s in a.subs :: a.subs[s].userId == b.subs[s].userId && a.subs[s].quota == b.subs[s].quota)
  }

  lemma AdvanceKeepsRows(db: Db, p: Proc, now: int, outcome: Option<int>)
    requires ProcOk(db, p)
    ensures SameRows(db, Advance(db, p, now, outcome).0)
  {
    hide FindSub, PreferenceOf, Balance;
  }

  lemma AdvanceKeeps(db: Db, p: Proc, now: int, outcome: Option<int>)
    requires ProcOk(db, p)
    ensures var (db', p') := Advance(db, p, now, outcome); SameRows(db, db') && ProcOk(db', p') && p'.tok == p.tok
  {
    hide FindSub, PreferenceOf, Balance, HoldTx, SettleTx, RefundTx, ChargeSub, AppendLog;
    AdvanceKeepsRows(db, p, now, outcome);
  }

  lemma StepKeeps(w: World, e: Event)
    requires Ok(w)
    ensures Ok(Step(w, e)) && SameRows(w.db, Step(w, e).db)
  {
    if e.Turn? && e.pid in w.procs {
      AdvanceKeeps(w.db, w.procs[e.pid], e.now, e.outcome);
      forall pid | pid in w.procs && pid != e.pid
        ensures ProcOk(Step(w, e).db, w.procs[pid])
      {
        assert ProcOk(w.db, w.procs[pid]);
      }
    }
  }

  // ---------------------------------------------------------------- conservation

  ghost function HeldByUser(u: int): Proc -> int { (p: Proc) => if p.tok.userId == u then p.Outstanding() else 0 }

  ghost function HeldByToken(t: int): Proc -> int { (p: Proc) => if p.tok.id == t then p.Outstanding() else 0 }

  ghost function Unlogged(u: int): Proc -> int { (p: Proc) => if p.LogDue? && p.tok.userId == u then p.cost else 0 }

  ghost function UsedByToken(u: int): Token -> int { (t: Token) => if t.userId == u then t.used else 0 }

  ghost function UsedOfPool(u: int): Subscription -> int { (s: Subscription) => if s.userId == u then s.used else 0 }

  ghost function Logged(logs: seq<LogEntry>, u: int): int {
    if logs == [] then 0
    else Logged(logs[..|logs| - 1], u) + (if logs[|logs| - 1].userId == u then logs[|logs| - 1].quota else 0)
  }

  /** A user's quota, what was used of it, and what in-flight requests hold of it. */
  ghost function UserTotal(w: World, u: int): int
    requires u in w.db.users
  {
    w.db.users[u].quota + w.db.users[u].used + Total(w.procs, HeldByUser(u))
  }

  ghost function TokenTotal(w: World, t: int): int
    requires t in w.db.tokens
  {
    w.db.tokens[t].remain + w.db.tokens[t].used + Total(w.procs, HeldByToken(t))
  }

  /** What the user's wallet paid beyond what its tokens recorded. */
  ghost function TokenGap(w: World, u: int): int
    requires u in w.db.users
  {
    w.db.users[u].used - Total(w.db.tokens, UsedByToken(u))
  }

  /** What wallet and subscriptions paid beyond what is logged or about to be logged. */
  ghost function LogGap(w: World, u: int): int
    requires u in w.db.users
  {
    w.db.users[u].used + Total(w.db.subs, UsedOfPool(u)) - Logged(w.db.logs, u) - Total(w.procs, Unlogged(u))
  }

  ghost predicate SameLedger(w: World, w': World) {
    && SameRows(w.db, w'.db)
    && (forall u | u in w.db.users :: UserTotal(w', u) == UserTotal(w, u))
    && (forall t | t in w.db.tokens && !w.db.tokens[t].unlimited :: TokenTotal(w', t) == TokenTotal(w, t))
    && (forall t | t in w.db.tokens && w.db.tokens[t].unlimited :: w'.db.tokens[t].remain == w.db.tokens[t].remain)
    && (forall u | u in w.db.users :: TokenGap(w', u) == TokenGap(w, u))
    && (forall u | u in w.db.users :: LogGap(w', u) == LogGap(w, u))
  }

  lemma LoggedAppend(logs: seq<LogEntry>, e: LogEntry, u: int)
    ensures Logged(logs + [e], u) == Logged(logs, u) + (if e.userId == u then e.quota else 0)
  {
    assert (logs + [e])[..|logs|] == logs;
  }

  /** One statement moves a user's quota, usage and the statement's own hold so that their sum stays. */
  lemma AdvanceUser(db: Db, p: Proc, now: int, outcome: Option<int>, u: int)
    requires ProcOk(db, p) && u in db.users
    ensures var (db', p') := Advance(db, p, now, outcome);
            && u in db'.users && p'.tok == p.tok
            && db'.users[u].quota + db'.users[u].used + HeldByUser(u)(p')
            == db.users[u].quota + db.users[u].used + HeldByUser(u)(p)
  {
    hide FindSub, PreferenceOf, Balance;
  }

  lemma AdvanceToken(db: Db, p: Proc, now: int, outcome: Option<int>, t: int)
    requires ProcOk(db, p) && t in db.tokens
    ensures var (db', p') := Advance(db, p, now, outcome);
            && t in db'.tokens
            && (db.tokens[t].unlimited ==> db'.tokens[t].remain == db.tokens[t].remain)
            && (!db.tokens[t].unlimited ==>
                  db'.tokens[t].remain + db'.tokens[t].used + HeldByToken(t)(p')
                  == db.tokens[t].remain + db.tokens[t].used + HeldByToken(t)(p))
  {
    hide FindSub, PreferenceOf, Balance;
  }

  lemma AddToTokenUse(db: Db, id: int, dRemain: int, dUsed: int, u: int)
    ensures Total(AddToToken(db, id, dRemain, dUsed).tokens, UsedByToken(u))
         == Total(db.tokens, UsedByToken(u)) + (if id in db.tokens && db.tokens[id].userId == u then dUsed else 0)
  {
    if id in db.tokens {
      var t := db.tokens[id];
      TotalWrite(db.tokens, UsedByToken(u), id, t.(remain := t.remain + dRemain, used := t.used + dUsed));
    }
  }

  lemma ChargeSubUse(db: Db, id: int, cost: int, u: int)
    ensures Total(ChargeSub(db, id, cost).subs, UsedOfPool(u))
         == Total(db.subs, UsedOfPool(u)) + (if id in db.subs && db.subs[id].userId == u then cost else 0)
  {
    if id in db.subs {
      TotalWrite(db.subs, UsedOfPool(u), id, db.subs[id].(used := db.subs[id].used + cost));
    }
  }

  lemma AdvanceTokenGap(db: Db, p: Proc, now: int, outcome: Option<int>, u: int)
    requires ProcOk(db, p) && u in db.users
    ensures var db' := Advance(db, p, now, outcome).0;
            && u in db'.users
            && db'.users[u].used - Total(db'.tokens, UsedByToken(u)) == db.users[u].used - Total(db.tokens, UsedByToken(u))
  {
    hide FindSub, PreferenceOf, Balance, Total;
    match p {
      case Checked(tok, amount) => AddToTokenUse(AddToUser(db, tok.userId, -amount, 0), tok.id, -amount, 0, u);
      case Failing(tok, hold) => AddToTokenUse(AddToUser(db, tok.userId, hold, 0), tok.id, hold, 0, u);
      case RefundDue(tok, hold, cost, s) => AddToTokenUse(AddToUser(db, tok.userId, hold, 0), tok.id, hold, 0, u);
      case WalletDue(tok, hold, cost) =>
        AddToTokenUse(AddToUser(db, tok.userId, hold - cost, cost), tok.id, if tok.unlimited then 0 else hold - cost, cost, u);
      case DirectWallet(tok, cost) =>
        AddToTokenUse(AddToUser(db, tok.userId, 0 - cost, cost), tok.id, if tok.unlimited then 0 else 0 - cost, cost, u);
      case _ =>
    }
  }

  lemma AdvanceLogGap(db: Db, p: Proc, now: int, outcome: Option<int>, u: int)
    requires ProcOk(db, p) && u in db.users
    ensures var (db', p') := Advance(db, p, now, outcome);
            && u in db'.users && p'.tok == p.tok
            && db'.users[u].used + Total(db'.subs, UsedOfPool(u)) - Logged(db'.logs, u) - Unlogged(u)(p')
            == db.users[u].used + Total(db.subs, UsedOfPool(u)) - Logged(db.logs, u) - Unlogged(u)(p)
  {
    hide FindSub, PreferenceOf, Balance, Total, Logged;
    match p {
      case ChargeDue(tok, cost, s) => ChargeSubUse(db, s, cost, u);
      case LogDue(tok, cost) => LoggedAppend(db.logs, LogEntry(tok.userId, cost), u);
      case DirectWallet(tok, cost) => LoggedAppend(db.logs, LogEntry(tok.userId, cost), u);
      case DirectPool(tok, cost, s) =>
        ChargeSubUse(db, s, cost, u);
        LoggedAppend(db.logs, LogEntry(tok.userId, cost), u);
      case _ =>
    }
  }

  lemma TurnUser(w: World, pid: int, now: int, outcome: Option<int>, u: int)
    requires pid in w.procs && ProcOk(w.db, w.procs[pid]) && u in w.db.users
    ensures var w' := Step(w, Turn(pid, now, outcome));
            && u in w'.db.users && UserTotal(w', u) == UserTotal(w, u)
            && TokenGap(w', u) == TokenGap(w, u) && LogGap(w', u) == LogGap(w, u)
  {
    var p := w.procs[pid];
    var (db', p') := Advance(w.db, p, now, outcome);
    AdvanceUser(w.db, p, now, outcome, u);
    AdvanceTokenGap(w.db, p, now, outcome, u);
    AdvanceLogGap(w.db, p, now, outcome, u);
    TotalWrite(w.procs, HeldByUser(u), pid, p');
    TotalWrite(w.procs, Unlogged(u), pid, p');
  }

  lemma TurnToken(w: World, pid: int, now: int, outcome: Option<int>, t: int)
    requires pid in w.procs && ProcOk(w.db, w.procs[pid]) && t in w.db.tokens
    ensures var w' := Step(w, Turn(pid, now, outcome));
            && t in w'.db.tokens
            && (w.db.tokens[t].unlimited ==> w'.db.tokens[t].remain == w.db.tokens[t].remain)
            && (!w.db.tokens[t].unlimited ==> TokenTotal(w', t) == TokenTotal(w, t))
  {
    var p := w.procs[pid];
    var (db', p') := Advance(w.db, p, now, outcome);
    AdvanceToken(w.db, p, now, outcome, t);
    TotalWrite(w.procs, HeldByToken(t), pid, p');
  }

  /** A request that has just arrived holds nothing and owes no log entry. */
  lemma ArriveUser(w: World, pid: int, p: Proc, u: int)
    requires pid !in w.procs && (p.Arrived? || p.Direct?) && u in w.db.users
    ensures var w' := w.(procs := w.procs[pid := p]);
            UserTotal(w', u) == UserTotal(w, u) && LogGap(w', u) == LogGap(w, u)
  {
    TotalWrite(w.procs, HeldByUser(u), pid, p);
    TotalWrite(w.procs, Unlogged(u), pid, p);
  }

  lemma ArriveConserves(w: World, pid: int, p: Proc)
    requires pid !in w.procs && (p.Arrived? || p.Direct?)
    ensures SameLedger(w, w.(procs := w.procs[pid := p]))
  {
    forall u | u in w.db.users
      ensures UserTotal(w.(procs := w.procs[pid := p]), u) == UserTotal(w, u)
           && LogGap(w.(procs := w.procs[pid := p]), u) == LogGap(w, u)
    {
      ArriveUser(w, pid, p, u);
    }
    forall t | t in w.db.tokens
      ensures TokenTotal(w.(procs := w.procs[pid := p]), t) == TokenTotal(w, t)
    {
      TotalWrite(w.procs, HeldByToken(t), pid, p);
    }
  }

  lemma TurnConserves(w: World, pid: int, now: int, outcome: Option<int>)
    requires Ok(w) && pid in w.procs
    ensures SameLedger(w, Step(w, Turn(pid, now, outcome)))
  {
    var w' := Step(w, Turn(pid, now, outcome));
    assert ProcOk(w.db, w.procs[pid]);
    AdvanceKeeps(w.db, w.procs[pid], now, outcome);
    forall u | u in w.db.users
      ensures UserTotal(w', u) == UserTotal(w, u) && TokenGap(w', u) == TokenGap(w, u) && LogGap(w', u) == LogGap(w, u)
    {
      TurnUser(w, pid, now, outcome, u);
    }
    forall t | t in w.db.tokens
      ensures w.db.tokens[t].unlimited ==> w'.db.tokens[t].remain == w.db.tokens[t].remain
      ensures !w.db.tokens[t].unlimited ==> TokenTotal(w', t) == TokenTotal(w, t)
    {
      TurnToken(w, pid, now, outcome, t);
    }
  }

  lemma StepConserves(w: World, e: Event)
    requires Ok(w)
    ensures SameLedger(w, Step(w, e))
  {
    match e {
      case Turn(pid, now, outcome) =>
        if pid in w.procs {
          TurnConserves(w, pid, now, outcome);
        }
      case Arrive(pid, tok, amount) =>
        if pid !in w.procs {
          ArriveConserves(w, pid, Arrived(tok, amount));
        }
      case ArriveDirect(pid, tok, cost) =>
        if pid !in w.procs {
          ArriveConserves(w, pid, Direct(tok, cost));
        }
    }
  }

  /** Conservation over every interleaving of every number of requests, users, tokens and subscriptions. */
  lemma {:induction false} RunConserves(w: World, events: seq<Event>)
    requires Ok(w)
    ensures SameLedger(w, Run(w, events)) && Ok(Run(w, events))
    decreases |events|
  {
    if events != [] {
      StepKeeps(w, events[0]);
      StepConserves(w, events[0]);
      RunConserves(Step(w, events[0]), events[1..]);
    }
  }
}
