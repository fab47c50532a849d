/**
 The quota tables and the transactions that move quota between a user's wallet, a token's
 allowance, a pre-hold and a subscription. Every UPDATE statement and every transaction is one
 function on the tables; the class `Billing` runs the same statements in the program's order.
 */
module Ledger {
  import opened Options
  import opened Sums

  datatype Preference = SubscriptionFirst | WalletFirst | SubscriptionOnly | WalletOnly

  datatype User = User(quota: int, used: int, preference: string)
  datatype Token = Token(userId: int, unlimited: bool, remain: int, used: int)
  datatype Subscription = Subscription(userId: int, status: int, expiredAt: int, quota: int, used: int)
  datatype LogEntry = LogEntry(userId: int, quota: int)

  datatype Db = Db(users: map<int, User>, tokens: map<int, Token>,
                   subs: map<int, Subscription>, logs: seq<LogEntry>)

  /** The token record a request carries; `remain` was read when the request was authenticated. */
  datatype TokenView = TokenView(id: int, userId: int, unlimited: bool, remain: int)

  const ACTIVE := 1

  // ---------------------------------------------------------------- single UPDATE statements

  /** UPDATE users SET quota = quota + dQuota, used_quota = used_quota + dUsed WHERE id = id */
  function AddToUser(db: Db, id: int, dQuota: int, dUsed: int): Db {
    if id in db.users then
      var u := db.users[id];
      db.(users := db.users[id := u.(quota := u.quota + dQuota, used := u.used + dUsed)])
    else db
  }

  /** UPDATE tokens SET remain_quota = remain_quota + dRemain, used_quota = used_quota + dUsed WHERE id = id */
  function AddToToken(db: Db, id: int, dRemain: int, dUsed: int): Db {
    if id in db.tokens then
      var t := db.tokens[id];
      db.(tokens := db.tokens[id := t.(remain := t.remain + dRemain, used := t.used + dUsed)])
    else db
  }

  /** UPDATE user_subscriptions SET used_quota = used_quota + cost WHERE id = id */
  function ChargeSub(db: Db, id: int, cost: int): Db {
    if id in db.subs then
      var s := db.subs[id];
      db.(subs := db.subs[id := s.(used := s.used + cost)])
    else db
  }

  function AppendLog(db: Db, userId: int, cost: int): Db {
    db.(logs := db.logs + [LogEntry(userId, cost)])
  }

  // ---------------------------------------------------------------- reads

  function Balance(db: Db, userId: int): int {
    if userId in db.users then db.users[userId].quota else 0
  }

  function NormalizePreference(column: string): Preference {
    if column == "wallet_first" then WalletFirst
    else if column == "subscription_only" then SubscriptionOnly
    else if column == "wallet_only" then WalletOnly
    else SubscriptionFirst
  }

  function PreferenceOf(db: Db, userId: int): Preference {
    if userId in db.users then NormalizePreference(db.users[userId].preference) else SubscriptionFirst
  }

  predicate Eligible(s: Subscription, userId: int, now: int) {
    s.userId == userId && s.status == ACTIVE && (s.expiredAt == 0 || s.expiredAt > now) && s.quota > 0
  }

  function EligibleIds(db: Db, userId: int, now: int): set<int> {
    set id | id in db.subs && Eligible(db.subs[id], userId, now)
  }

  /** The eligible subscription with the largest id. */
  predicate Newest(db: Db, userId: int, now: int, top: int) {
    && top in db.subs && Eligible(db.subs[top], userId, now)
    && forall id | id in db.subs && Eligible(db.subs[id], userId, now) :: id <= top
  }

  predicate HasRoom(s: Subscription, cost: int) { s.used + cost <= s.quota }

  /** Only the newest eligible subscription is considered; it must have room for the whole cost. */
  ghost function FindSub(db: Db, userId: int, cost: int, now: int): (found: Option<int>)
    ensures found.Some? ==> Newest(db, userId, now, found.value) && HasRoom(db.subs[found.value], cost)
    ensures found.None? ==> forall top | Newest(db, userId, now, top) :: !HasRoom(db.subs[top], cost)
  {
    var ids := EligibleIds(db, userId, now);
    assert forall id :: id in db.subs && Eligible(db.subs[id], userId, now) ==> id in ids;
    if ids == {} then None
    else
      var top := Largest(ids);
      assert forall other | Newest(db, userId, now, other) :: other in ids && other == top;
      if db.subs[top].used + cost <= db.subs[top].quota then Some(top) else None
  }

  // ---------------------------------------------------------------- transactions

  predicate HoldAllowed(db: Db, tok: TokenView, amount: int) {
    && tok.userId in db.users && db.users[tok.userId].quota >= amount
    && (tok.unlimited || (tok.id in db.tokens && db.tokens[tok.id].remain >= amount))
  }

  /** Both conditional updates, or neither when one of them finds no row. */
  function HoldTx(db: Db, tok: TokenView, amount: int): Db {
    if !HoldAllowed(db, tok, amount) then db
    else if tok.unlimited then AddToUser(db, tok.userId, -amount, 0)
    else AddToToken(AddToUser(db, tok.userId, -amount, 0), tok.id, -amount, 0)
  }

  /** A wallet settlement replaces a hold of `hold` by a consumption of `cost`. */
  function SettleTx(db: Db, tok: TokenView, hold: int, cost: int): Db {
    AddToToken(AddToUser(db, tok.userId, hold - cost, cost), tok.id, if tok.unlimited then 0 else hold - cost, cost)
  }

  function RefundTx(db: Db, tok: TokenView, hold: int): Db {
    var afterUser := AddToUser(db, tok.userId, hold, 0);
    if tok.unlimited then afterUser else AddToToken(afterUser, tok.id, hold, 0)
  }

  // ---------------------------------------------------------------- choosing who pays

  datatype Source = Wallet | Pool(sub: int) | Refused

  ghost function PoolOr(found: Option<int>, otherwise: Source): Source {
    if found.Some? then Pool(found.value) else otherwise
  }

  /** Who pays for a request that was not pre-held. */
  ghost function DirectSource(db: Db, userId: int, cost: int, now: int): Source {
    match PreferenceOf(db, userId)
    case WalletOnly => if Balance(db, userId) < cost then Refused else Wallet
    case SubscriptionOnly => PoolOr(FindSub(db, userId, cost, now), Refused)
    case WalletFirst =>
      if Balance(db, userId) >= cost then Wallet else PoolOr(FindSub(db, userId, cost, now), Refused)
    case SubscriptionFirst => PoolOr(FindSub(db, userId, cost, now), Wallet)
  }

  /** Who pays for a pre-held request. */
  ghost function HeldSource(db: Db, userId: int, hold: int, cost: int, now: int): Source {
    match PreferenceOf(db, userId)
    case WalletOnly => Wallet
    case WalletFirst =>
      if Balance(db, userId) + hold >= cost then Wallet else PoolOr(FindSub(db, userId, cost, now), Wallet)
    case _ => PoolOr(FindSub(db, userId, cost, now), Wallet)
  }

  /** The sources a preference allows at all, and whether the wallet is asked for its balance first. */
  predicate AllowsWallet(p: Preference) { p != SubscriptionOnly }

  predicate AllowsPool(p: Preference) { p != WalletOnly }

  predicate ChecksBalance(p: Preference) { p == WalletOnly || p == WalletFirst }

  predicate WalletCan(db: Db, userId: int, cost: int) {
    AllowsWallet(PreferenceOf(db, userId)) && (ChecksBalance(PreferenceOf(db, userId)) ==> Balance(db, userId) >= cost)
  }

  ghost predicate PoolCan(db: Db, userId: int, cost: int, now: int) {
    AllowsPool(PreferenceOf(db, userId)) && FindSub(db, userId, cost, now).Some?
  }

  /**
   What the preference means for a request that was not pre-held: it is refused exactly when no source the
   preference allows can pay, a source pays only if it can, and between two that can the preference decides.
   */
  lemma PreferenceDecides(db: Db, userId: int, cost: int, now: int)
    ensures var source := DirectSource(db, userId, cost, now);
            var wallet, pool := WalletCan(db, userId, cost), PoolCan(db, userId, cost, now);
            && (source.Refused? <==> !wallet && !pool)
            && (source.Wallet? ==> wallet) && (source.Pool? ==> pool && Newest(db, userId, now, source.sub))
            && (wallet && pool ==> (source.Wallet? <==> PreferenceOf(db, userId) == WalletFirst))
  {}

  /**
   And for a pre-held request, which is never refused: a subscription pays exactly when the preference allows
   it, one has room, and no wallet_first balance covers the cost together with the hold.
   */
  lemma PreferenceDecidesHeld(db: Db, userId: int, hold: int, cost: int, now: int)
    ensures var source := HeldSource(db, userId, hold, cost, now);
            var covered := PreferenceOf(db, userId) == WalletFirst && Balance(db, userId) + hold >= cost;
            !source.Refused? && (source.Pool? <==> PoolCan(db, userId, cost, now) && !covered)
  {}

  ghost function DirectCharge(db: Db, tok: TokenView, cost: int, now: int): Db {
    match DirectSource(db, tok.userId, cost, now)
    case Wallet => AppendLog(SettleTx(db, tok, 0, cost), tok.userId, cost)
    case Pool(s) => AppendLog(ChargeSub(db, s, cost), tok.userId, cost)
    case Refused => db
  }

  ghost function HeldCharge(db: Db, tok: TokenView, hold: int, cost: int, now: int): Db {
    match HeldSource(db, tok.userId, hold, cost, now)
    case Pool(s) => AppendLog(ChargeSub(RefundTx(db, tok, hold), s, cost), tok.userId, cost)
    case _ => AppendLog(SettleTx(db, tok, hold, cost), tok.userId, cost)
  }

  // ---------------------------------------------------------------- the program's own statements

  class Billing {
    var users: map<int, User>
    var tokens: map<int, Token>
    var subs: map<int, Subscription>
    var logs: seq<LogEntry>

    function Tables(): Db
      reads this
    {
      Db(users, tokens, subs, logs)
    }

    method UpdateUser(id: int, dQuota: int, dUsed: int)
      modifies this`users
      ensures Tables() == AddToUser(old(Tables()), id, dQuota, dUsed)
      ensures users == if id in old(users)
                       then old(users)[id := old(users)[id].(quota := old(users)[id].quota + dQuota, used := old(users)[id].used + dUsed)]
                       else old(users)
    {
      if id in users {
        var u := users[id];
        users := users[id := User(u.quota + dQuota, u.used + dUsed, u.preference)];
      }
    }

    method UpdateToken(id: int, dRemain: int, dUsed: int)
      modifies this`tokens
      ensures Tables() == AddToToken(old(Tables()), id, dRemain, dUsed)
      ensures tokens == if id in old(tokens)
                        then old(tokens)[id := old(tokens)[id].(remain := old(tokens)[id].remain + dRemain, used := old(tokens)[id].used + dUsed)]
                        else old(tokens)
    {
      if id in tokens {
        var t := tokens[id];
        tokens := tokens[id := Token(t.userId, t.unlimited, t.remain + dRemain, t.used + dUsed)];
      }
    }

    method EnqueueLog(userId: int, cost: int)
      modifies this`logs
      ensures Tables() == AppendLog(old(Tables()), userId, cost) && logs == old(logs) + [LogEntry(userId, cost)]
    {
      logs := logs + [LogEntry(userId, cost)];
    }

    method UpdateSub(id: int, cost: int)
      modifies this`subs
      ensures Tables() == ChargeSub(old(Tables()), id, cost)
      ensures subs == if id in old(subs) then old(subs)[id := old(subs)[id].(used := old(subs)[id].used + cost)] else old(subs)
    {
      if id in subs {
        subs := subs[id := subs[id].(used := subs[id].used + cost)];
      }
    }

    /** The advisory checks first, then the transaction, rolled back when the token has run dry. */
    method PreConsumeQuota(tok: TokenView, amount: int) returns (held: Option<int>)
      requires amount >= 1
      modifies this`users, this`tokens
      ensures held == if (tok.unlimited || tok.remain >= amount) && HoldAllowed(old(Tables()), tok, amount)
                      then Some(amount) else None
      ensures Tables() == if held.Some? then HoldTx(old(Tables()), tok, amount) else old(Tables())
      ensures held.Some? <==>
                && tok.userId in old(users) && old(users)[tok.userId].quota >= amount
                && (tok.unlimited || (tok.remain >= amount && tok.id in old(tokens) && old(tokens)[tok.id].remain >= amount))
      ensures held.Some? ==>
                && held.value == amount
                && users == old(users)[tok.userId := old(users)[tok.userId].(quota := old(users)[tok.userId].quota - amount)]
                && tokens == if tok.unlimited then old(tokens)
                             else old(tokens)[tok.id := old(tokens)[tok.id].(remain := old(tokens)[tok.id].remain - amount)]
      ensures held.None? ==> users == old(users) && tokens == old(tokens)
    {
      if !tok.unlimited && tok.remain < amount {
        return None;
      }
      var seen := if tok.userId in users then users[tok.userId].quota else 0;
      if seen < amount {
        return None;
      }
      var before := users;
      if tok.userId !in users || users[tok.userId].quota < amount {
        return None;
      }
      UpdateUser(tok.userId, -amount, 0);
      if !tok.unlimited {
        if tok.id !in tokens || tokens[tok.id].remain < amount {
          users := before;
          return None;
        }
        UpdateToken(tok.id, -amount, 0);
      }
      return Some(amount);
    }

    /** Three branches on the sign of the difference, one meaning. */
    method PostConsumeQuota(tok: TokenView, hold: int, cost: int) returns (delta: int)
      modifies this`users, this`tokens
      ensures delta == cost - hold
      ensures Tables() == SettleTx(old(Tables()), tok, hold, cost)
      ensures users == if tok.userId in old(users)
                       then var u := old(users)[tok.userId]; old(users)[tok.userId := u.(quota := u.quota + hold - cost, used := u.used + cost)]
                       else old(users)
      ensures tokens == if tok.id in old(tokens)
                        then var t := old(tokens)[tok.id];
                             old(tokens)[tok.id := t.(remain := if tok.unlimited then t.remain else t.remain + hold - cost, used := t.used + cost)]
                        else old(tokens)
    {
      delta := cost - hold;
      if delta > 0 {
        UpdateUser(tok.userId, -delta, cost);
        if !tok.unlimited {
          UpdateToken(tok.id, -delta, cost);
        } else {
          UpdateToken(tok.id, 0, cost);
        }
      } else if delta < 0 {
        var back := -delta;
        UpdateUser(tok.userId, back, cost);
        if !tok.unlimited {
          UpdateToken(tok.id, back, cost);
        } else {
          UpdateToken(tok.id, 0, cost);
        }
      } else {
        UpdateUser(tok.userId, 0, cost);
        UpdateToken(tok.id, 0, cost);
      }
    }

    method RefundQuota(tok: TokenView, hold: int)
      modifies this`users, this`tokens
      ensures Tables() == RefundTx(old(Tables()), tok, hold)
      ensures users == if tok.userId in old(users)
                       then var u := old(users)[tok.userId]; old(users)[tok.userId := u.(quota := u.quota + hold)] else old(users)
      ensures tokens == if tok.id in old(tokens) && !tok.unlimited
                        then var t := old(tokens)[tok.id]; old(tokens)[tok.id := t.(remain := t.remain + hold)] else old(tokens)
    {
      UpdateUser(tok.userId, hold, 0);
      if !tok.unlimited {
        UpdateToken(tok.id, hold, 0);
      }
    }

    method DeductFromWallet(tok: TokenView, cost: int)
      modifies this`users, this`tokens
      ensures Tables() == SettleTx(old(Tables()), tok, 0, cost)
      ensures users == if tok.userId in old(users)
                       then var u := old(users)[tok.userId]; old(users)[tok.userId := u.(quota := u.quota - cost, used := u.used + cost)]
                       else old(users)
      ensures tokens == if tok.id in old(tokens)
                        then var t := old(tokens)[tok.id];
                             old(tokens)[tok.id := t.(remain := if tok.unlimited then t.remain else t.remain - cost, used := t.used + cost)]
                        else old(tokens)
    {
      UpdateUser(tok.userId, -cost, cost);
      if !tok.unlimited {
        UpdateToken(tok.id, -cost, cost);
      } else {
        UpdateToken(tok.id, 0, cost);
      }
    }

    method HasActiveSubscriptionQuota(userId: int, cost: int, now: int) returns (found: Option<int>)
      ensures found == FindSub(Tables(), userId, cost, now)
      ensures found.Some? ==>
                && found.value in subs && subs[found.value].userId == userId && subs[found.value].status == 1
                && (subs[found.value].expiredAt == 0 || subs[found.value].expiredAt > now)
                && 0 < subs[found.value].quota && subs[found.value].used + cost <= subs[found.value].quota
      ensures found.Some? ==>
                forall id | id in subs && subs[id].userId == userId && subs[id].status == 1
                            && (subs[id].expiredAt == 0 || subs[id].expiredAt > now) && subs[id].quota > 0 :: id <= found.value
      ensures found.None? ==>
                forall id | id in subs && subs[id].userId == userId && subs[id].status == 1
                            && (subs[id].expiredAt == 0 || subs[id].expiredAt > now) && subs[id].quota > 0 ::
                  subs[id].used + cost > subs[id].quota
                  || exists newer :: newer in subs && newer > id && subs[newer].userId == userId && subs[newer].status == 1
                                     && (subs[newer].expiredAt == 0 || subs[newer].expiredAt > now) && subs[newer].quota > 0
    {
      var ids := set id | id in subs && Eligible(subs[id], userId, now);
      if ids == {} {
        return None;
      }
      ghost var largest := Largest(ids);
      var top :| top in ids && forall x | x in ids :: x <= top;
      assert forall id :: id in subs && Eligible(subs[id], userId, now) ==> id in ids;
      hide Newest, EligibleIds;
      if subs[top].used + cost <= subs[top].quota {
        return Some(top);
      }
      return None;
    }

    method GetUserBillingPreference(userId: int) returns (p: Preference)
      ensures p == PreferenceOf(Tables(), userId)
      ensures p.WalletOnly? <==> userId in users && users[userId].preference == "wallet_only"
      ensures p.WalletFirst? <==> userId in users && users[userId].preference == "wallet_first"
      ensures p.SubscriptionOnly? <==> userId in users && users[userId].preference == "subscription_only"
    {
      if userId !in users {
        return SubscriptionFirst;
      }
      p := NormalizePreference(users[userId].preference);
    }

    /** Settlement of a request that was not pre-held; false means the transaction failed. */
    method DeductFromPrioritySource(tok: TokenView, cost: int, now: int) returns (ok: bool)
      modifies this`users, this`tokens, this`subs
      ensures ok == !DirectSource(old(Tables()), tok.userId, cost, now).Refused?
      ensures Tables() == match DirectSource(old(Tables()), tok.userId, cost, now)
                          case Wallet => SettleTx(old(Tables()), tok, 0, cost)
                          case Pool(s) => ChargeSub(old(Tables()), s, cost)
                          case Refused => old(Tables())
    {
      var priority := GetUserBillingPreference(tok.userId);
      match priority {
        case WalletOnly =>
          var balance := if tok.userId in users then users[tok.userId].quota else 0;
          if balance < cost {
            return false;
          }
          DeductFromWallet(tok, cost);
          return true;
        case SubscriptionOnly =>
          var sub := HasActiveSubscriptionQuota(tok.userId, cost, now);
          if sub.Some? {
            UpdateSub(sub.value, cost);
            return true;
          }
          return false;
        case WalletFirst =>
          var balance := if tok.userId in users then users[tok.userId].quota else 0;
          if balance >= cost {
            DeductFromWallet(tok, cost);
            return true;
          }
          var sub := HasActiveSubscriptionQuota(tok.userId, cost, now);
          if sub.Some? {
            UpdateSub(sub.value, cost);
            return true;
          }
          return false;
        case SubscriptionFirst =>
          var sub := HasActiveSubscriptionQuota(tok.userId, cost, now);
          if sub.Some? {
            UpdateSub(sub.value, cost);
            return true;
          }
          DeductFromWallet(tok, cost);
          return true;
      }
    }

    method RecordConsumeLog(tok: TokenView, cost: int, now: int)
      modifies this
      ensures Tables() == DirectCharge(old(Tables()), tok, cost, now)
    {
      var ok := DeductFromPrioritySource(tok, cost, now);
      if ok {
        EnqueueLog(tok.userId, cost);
      }
    }

    method RecordConsumeWithBilling(tok: TokenView, hold: int, cost: int, now: int)
      modifies this
      ensures Tables() == HeldCharge(old(Tables()), tok, hold, cost, now)
    {
      var priority := GetUserBillingPreference(tok.userId);
      match priority {
        case WalletOnly =>
          var _ := PostConsumeQuota(tok, hold, cost);
          EnqueueLog(tok.userId, cost);
        case WalletFirst =>
          var balance := if tok.userId in users then users[tok.userId].quota else 0;
          if balance + hold >= cost {
            var _ := PostConsumeQuota(tok, hold, cost);
            EnqueueLog(tok.userId, cost);
            return;
          }
          SettleFromPoolElseWallet(tok, hold, cost, now);
        case _ =>
          SettleFromPoolElseWallet(tok, hold, cost, now);
      }
    }

    /** The tail shared by subscription_only, wallet_first and subscription_first. */
    method SettleFromPoolElseWallet(tok: TokenView, hold: int, cost: int, now: int)
      modifies this
      ensures Tables() == match FindSub(old(Tables()), tok.userId, cost, now)
                          case Some(s) => AppendLog(ChargeSub(RefundTx(old(Tables()), tok, hold), s, cost), tok.userId, cost)
                          case None => AppendLog(SettleTx(old(Tables()), tok, hold, cost), tok.userId, cost)
    {
      var sub := HasActiveSubscriptionQuota(tok.userId, cost, now);
      if sub.Some? {
        RefundQuota(tok, hold);
        UpdateSub(sub.value, cost);
      } else {
        var _ := PostConsumeQuota(tok, hold, cost);
      }
      EnqueueLog(tok.userId, cost);
    }
  }
}
