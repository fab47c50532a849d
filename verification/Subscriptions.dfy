/**
 Subscriptions that move their owner into a plan's group: activation saves the group it replaces,
 expiry, cancellation and deletion put the saved group back.
 */
module Subscriptions {
  import opened Options
  import opened Sums

  const PENDING := 0
  const ACTIVE := 1
  const EXPIRED := 2
  const CANCELLED := 3

  const SECONDS_PER_DAY := 86400

  datatype Plan = Plan(kind: string, groupName: string, durationDays: int, quota: int)

  datatype Subscription = Subscription(userId: int, planId: int, status: int, originalGroup: string,
                                       quota: int, used: int, startedAt: int, expiredAt: int)

  /** `groups` is the group column of the user table. */
  datatype Db = Db(groups: map<int, string>, plans: map<int, Plan>, subs: map<int, Subscription>)

  predicate MovesGroup(p: Plan) { p.kind == "group" || p.kind == "combo" }

  predicate AddsQuota(p: Plan) { p.kind == "quota" || p.kind == "combo" }

  function GroupOf(db: Db, userId: int): string { if userId in db.groups then db.groups[userId] else "" }

  function SetGroup(db: Db, userId: int, g: string): Db {
    if userId in db.groups then db.(groups := db.groups[userId := g]) else db
  }

  function PutSub(db: Db, id: int, s: Subscription): Db { db.(subs := db.subs[id := s]) }

  /** The activating transaction takes effect only on a pending subscription whose plan exists. */
  predicate Activates(db: Db, id: int) {
    id in db.subs && db.subs[id].status == PENDING && db.subs[id].planId in db.plans
  }

  function Activated(s: Subscription, p: Plan, group: string, now: int): Subscription {
    s.(status := ACTIVE, startedAt := now,
       expiredAt := if p.durationDays > 0 then now + p.durationDays * SECONDS_PER_DAY else 0,
       originalGroup := if MovesGroup(p) && p.groupName != "" then group else s.originalGroup,
       quota := if AddsQuota(p) && p.quota > 0 then p.quota else s.quota)
  }

  function ActivateTx(db: Db, id: int, now: int): Db {
    if !Activates(db, id) then db
    else
      var s := db.subs[id];
      var p := db.plans[s.planId];
      var moved := if MovesGroup(p) && p.groupName != "" then SetGroup(db, s.userId, p.groupName) else db;
      PutSub(moved, id, Activated(s, p, GroupOf(db, s.userId), now))
  }

  /** Whether ending this subscription puts a saved group back. */
  predicate Restores(plans: map<int, Plan>, s: Subscription) {
    s.planId in plans && MovesGroup(plans[s.planId]) && s.originalGroup != ""
  }

  function RestoreGroup(db: Db, s: Subscription): Db {
    if Restores(db.plans, s) then SetGroup(db, s.userId, s.originalGroup) else db
  }

  function SetExpired(db: Db, id: int): Db {
    if id in db.subs then PutSub(db, id, db.subs[id].(status := EXPIRED)) else db
  }

  function CancelTx(db: Db, id: int, now: int): Db {
    if id !in db.subs || db.subs[id].status == CANCELLED || db.subs[id].status == EXPIRED then db
    else PutSub(RestoreGroup(db, db.subs[id]), id, db.subs[id].(status := CANCELLED, expiredAt := now))
  }

  function DeleteTx(db: Db, id: int): Db {
    if id !in db.subs then db
    else
      var back := if db.subs[id].status == ACTIVE then RestoreGroup(db, db.subs[id]) else db;
      back.(subs := back.subs - {id})
  }

  predicate Due(s: Subscription, now: int) { s.status == ACTIVE && s.expiredAt > 0 && s.expiredAt <= now }

  /** What the sweep does to one subscription it has read. */
  function ExpireRead(db: Db, id: int, s: Subscription): Db { RestoreGroup(SetExpired(db, id), s) }

  function ExpireInTurn(db: Db, read: seq<(int, Subscription)>): Db
    decreases |read|
  {
    if read == [] then db else ExpireInTurn(ExpireRead(db, read[0].0, read[0].1), read[1..])
  }

  class Store {
    var groups: map<int, string>
    var plans: map<int, Plan>
    var subs: map<int, Subscription>

    function Tables(): Db
      reads this
    {
      Db(groups, plans, subs)
    }

    method UpdateGroup(userId: int, g: string)
      modifies this`groups
      ensures Tables() == SetGroup(old(Tables()), userId, g)
    {
      if userId in groups {
        groups := groups[userId := g];
      }
    }

    /** The status moves first and only from pending; a missing plan rolls it back. */
    method ActivateSubscription(id: int, now: int) returns (ok: bool)
      modifies this`groups, this`subs
      ensures Tables() == ActivateTx(old(Tables()), id, now)
      ensures !ok <==> id in old(subs) && old(subs)[id].status == PENDING && old(subs)[id].planId !in plans
      ensures id in old(subs) && old(subs)[id].status == 0 && ok ==>
                var was := old(subs)[id]; var plan := plans[was.planId];
                var moves := (plan.kind == "group" || plan.kind == "combo") && plan.groupName != "";
                && id in subs && subs == old(subs)[id := subs[id]]
                && subs[id].status == 1 && subs[id].startedAt == now && subs[id].userId == was.userId && subs[id].planId == was.planId
                && subs[id].used == was.used
                && subs[id].expiredAt == (if plan.durationDays > 0 then now + 86400 * plan.durationDays else 0)
                && subs[id].quota == (if (plan.kind == "quota" || plan.kind == "combo") && plan.quota > 0 then plan.quota else was.quota)
                && subs[id].originalGroup
                   == (if moves then (if was.userId in old(groups) then old(groups)[was.userId] else "") else was.originalGroup)
                && groups == if moves && was.userId in old(groups) then old(groups)[was.userId := plan.groupName] else old(groups)
      ensures !(id in old(subs) && old(subs)[id].status == 0 && ok) ==> subs == old(subs) && groups == old(groups)
    {
      if id !in subs || subs[id].status != PENDING {
        return true;
      }
      var before := subs;
      subs := subs[id := subs[id].(status := ACTIVE)];
      var s := subs[id];
      if s.planId !in plans {
        subs := before;
        return false;
      }
      var plan := plans[s.planId];
      var expiredAt := 0;
      if plan.durationDays > 0 {
        expiredAt := now + plan.durationDays * SECONDS_PER_DAY;
      }
      var updated := s.(startedAt := now, expiredAt := expiredAt);
      if plan.kind == "group" || plan.kind == "combo" {
        if plan.groupName != "" {
          var group := if s.userId in groups then groups[s.userId] else "";
          updated := updated.(originalGroup := group);
          UpdateGroup(s.userId, plan.groupName);
        }
      }
      if plan.kind == "quota" || plan.kind == "combo" {
        if plan.quota > 0 {
          updated := updated.(quota := plan.quota);
        }
      }
      subs := subs[id := updated];
      return true;
    }

    method AdminBindSubscription(userId: int, planId: int, id: int, now: int) returns (ok: bool)
      requires id !in subs
      modifies this`groups, this`subs
      ensures ok <==> userId in old(groups) && planId in plans
      ensures Tables() == if ok then ActivateTx(PutSub(old(Tables()), id, Subscription(userId, planId, PENDING, "", 0, 0, 0, 0)), id, now)
                          else old(Tables())
    {
      if userId !in groups {
        return false;
      }
      if planId !in plans {
        return false;
      }
      subs := subs[id := Subscription(userId, planId, PENDING, "", 0, 0, 0, 0)];
      ok := ActivateSubscription(id, now);
    }

    method AdminInvalidateUserSubscription(id: int, now: int) returns (ok: bool)
      modifies this`groups, this`subs
      ensures ok <==> id in old(subs)
      ensures Tables() == CancelTx(old(Tables()), id, now)
      ensures id in old(subs) && old(subs)[id].status != 3 && old(subs)[id].status != 2 ==>
                var was := old(subs)[id];
                && subs == old(subs)[id := was.(status := 3, expiredAt := now)]
                && groups == if was.userId in old(groups) && was.planId in plans && was.originalGroup != ""
                                && (plans[was.planId].kind == "group" || plans[was.planId].kind == "combo")
                             then old(groups)[was.userId := was.originalGroup] else old(groups)
      ensures !(id in old(subs) && old(subs)[id].status != 3 && old(subs)[id].status != 2) ==> subs == old(subs) && groups == old(groups)
    {
      if id !in subs {
        return false;
      }
      var s := subs[id];
      if s.status == CANCELLED || s.status == EXPIRED {
        return true;
      }
      if s.planId in plans && (plans[s.planId].kind == "group" || plans[s.planId].kind == "combo") && s.originalGroup != "" {
        UpdateGroup(s.userId, s.originalGroup);
      }
      subs := subs[id := s.(status := CANCELLED, expiredAt := now)];
      return true;
    }

    method AdminDeleteUserSubscription(id: int) returns (ok: bool)
      modifies this`groups, this`subs
      ensures ok <==> id in old(subs)
      ensures Tables() == DeleteTx(old(Tables()), id)
      ensures subs == old(subs) - {id}
      ensures groups == if id in old(subs) && old(subs)[id].status == 1 && old(subs)[id].userId in old(groups)
                           && old(subs)[id].planId in plans && old(subs)[id].originalGroup != ""
                           && (plans[old(subs)[id].planId].kind == "group" || plans[old(subs)[id].planId].kind == "combo")
                        then old(groups)[old(subs)[id].userId := old(subs)[id].originalGroup] else old(groups)
    {
      if id !in subs {
        return false;
      }
      var s := subs[id];
      if s.status == ACTIVE && s.planId in plans && (plans[s.planId].kind == "group" || plans[s.planId].kind == "combo") && s.originalGroup != "" {
        UpdateGroup(s.userId, s.originalGroup);
      }
      subs := subs - {id};
      return true;
    }

    /** Reads the due subscriptions, in any order, then handles them one by one. */
    method ExpireSubscriptions(now: int) returns (ghost read: seq<(int, Subscription)>)
      modifies this`groups, this`subs
      ensures forall i | 0 <= i < |read| :: read[i].0 in old(subs) && read[i].1 == old(subs)[read[i].0] && Due(read[i].1, now)
      ensures forall id | id in old(subs) && Due(old(subs)[id], now) :: (id, old(subs)[id]) in read
      ensures Tables() == ExpireInTurn(old(Tables()), read)
      ensures forall id :: id in subs <==> id in old(subs)
      ensures forall id | id in subs ::
                var s := old(subs)[id];
                subs[id] == if s.status == 1 && s.expiredAt > 0 && s.expiredAt <= now then s.(status := 2) else s
    {
      var found := ReadDue(subs, now);
      read := found;
      ghost var after := ExpireInTurn(Tables(), found).subs;
      forall id
        ensures id in after <==> id in subs
        ensures id in subs ==> after[id] == if Due(subs[id], now) then subs[id].(status := EXPIRED) else subs[id]
      {
        ExpiredInTurn(Tables(), found, id);
        if id in subs && Due(subs[id], now) {
          assert (id, subs[id]) in found;
        }
      }
      var i := 0;
      assert found[0..] == found;
      while i < |found|
        invariant 0 <= i <= |found|
        invariant ExpireInTurn(Tables(), found[i..]) == ExpireInTurn(old(Tables()), found)
      {
        var (id, s) := found[i];
        assert found[i..][1..] == found[i + 1..];
        if id in subs {
          subs := subs[id := subs[id].(status := EXPIRED)];
        }
        if s.planId in plans && (plans[s.planId].kind == "group" || plans[s.planId].kind == "combo") && s.originalGroup != "" {
          UpdateGroup(s.userId, s.originalGroup);
        }
        i := i + 1;
      }
    }
  }

  /** The sweep has read the row. */
  predicate Reads(read: seq<(int, Subscription)>, id: int) { exists i :: 0 <= i < |read| && read[i].0 == id }

  lemma ReadsHead(row: (int, Subscription), read: seq<(int, Subscription)>, id: int)
    ensures Reads([row] + read, id) <==> row.0 == id || Reads(read, id)
  {
    if row.0 == id {
      assert ([row] + read)[0].0 == id;
    }
    if i :| 0 <= i < |read| && read[i].0 == id {
      assert ([row] + read)[i + 1].0 == id;
    }
  }

  /** A sweep marks exactly the rows it has read, and no row else. */
  lemma {:induction false} ExpiredInTurn(db: Db, read: seq<(int, Subscription)>, id: int)
    ensures var after := ExpireInTurn(db, read);
            && (id in after.subs <==> id in db.subs) && after.plans == db.plans
            && (id in db.subs ==> after.subs[id] == if Reads(read, id) then db.subs[id].(status := EXPIRED) else db.subs[id])
    decreases |read|
  {
    if read != [] {
      ExpiredInTurn(ExpireRead(db, read[0].0, read[0].1), read[1..], id);
      ReadsHead(read[0], read[1..], id);
      assert read == [read[0]] + read[1..];
      hide Reads;
    }
  }

  method ReadDue(subs: map<int, Subscription>, now: int) returns (read: seq<(int, Subscription)>)
    ensures forall i | 0 <= i < |read| :: read[i].0 in subs && read[i].1 == subs[read[i].0] && Due(read[i].1, now)
    ensures forall id | id in subs && Due(subs[id], now) :: (id, subs[id]) in read
  {
    read := [];
    var rest := set id | id in subs && Due(subs[id], now);
    while rest != {}
      invariant forall id | id in rest :: id in subs && Due(subs[id], now)
      invariant forall i | 0 <= i < |read| :: read[i].0 in subs && read[i].1 == subs[read[i].0] && Due(read[i].1, now)
      invariant forall id | id in subs && Due(subs[id], now) && id !in rest :: (id, subs[id]) in read
      decreases |rest|
    {
      ghost var some := Pick(rest);
      var id :| id in rest;
      rest := rest - {id};
      read := read + [(id, subs[id])];
    }
  }

  // ---------------------------------------------------------------- interleavings

  /** A sweep between its statements: what it read and has not finished, and whether the head is marked. */
  datatype Sweep = Sweep(read: seq<(int, Subscription)>, marked: bool)

  /** `issued` holds every id the subscription table ever handed out. */
  datatype World = World(db: Db, sweeps: map<int, Sweep>, issued: set<int>)

  datatype Event =
    | Create(id: int, userId: int, planId: int)
    | Activate(id: int, now: int)
    | Cancel(id: int, now: int)
    | Delete(id: int)
    | SweepRead(pid: int, ids: seq<int>, now: int)
    | SweepTurn(pid: int)

  function ReadsOf(db: Db, ids: seq<int>, now: int): seq<(int, Subscription)> {
    if ids == [] then []
    else (if ids[0] in db.subs && Due(db.subs[ids[0]], now) then [(ids[0], db.subs[ids[0]])] else []) + ReadsOf(db, ids[1..], now)
  }

  function Step(w: World, e: Event): World {
    match e
    case Create(id, userId, planId) =>
      if id in w.issued then w
      else w.(db := PutSub(w.db, id, Subscription(userId, planId, PENDING, "", 0, 0, 0, 0)), issued := w.issued + {id})
    case Activate(id, now) => w.(db := ActivateTx(w.db, id, now))
    case Cancel(id, now) => w.(db := CancelTx(w.db, id, now))
    case Delete(id) => w.(db := DeleteTx(w.db, id))
    case SweepRead(pid, ids, now) =>
      if pid in w.sweeps then w else w.(sweeps := w.sweeps[pid := Sweep(ReadsOf(w.db, ids, now), false)])
    case SweepTurn(pid) =>
      if pid !in w.sweeps || w.sweeps[pid].read == [] then w
      else
        var sw := w.sweeps[pid];
        var (id, s) := sw.read[0];
        if !sw.marked then w.(db := SetExpired(w.db, id), sweeps := w.sweeps[pid := Sweep(sw.read, true)])
        else w.(db := RestoreGroup(w.db, s), sweeps := w.sweeps[pid := Sweep(sw.read[1..], false)])
  }

  function Run(w: World, events: seq<Event>): World
    decreases |events|
  {
    if events == [] then w else Run(Step(w, events[0]), events[1..])
  }

  /** Pending, then active, then ended. */
  function Rank(status: int): int { if status == PENDING then 0 else if status == ACTIVE then 1 else 2 }

  predicate Sound(w: World) { forall id | id in w.db.subs :: id in w.issued }

  lemma StepRank(w: World, e: Event, id: int)
    requires Sound(w)
    ensures Sound(Step(w, e)) && w.issued <= Step(w, e).issued
    ensures id in w.db.subs && id in Step(w, e).db.subs ==> Rank(Step(w, e).db.subs[id].status) >= Rank(w.db.subs[id].status)
    ensures id in w.issued && id !in w.db.subs ==> id !in Step(w, e).db.subs
    ensures id in w.db.subs && e.Activate? && e.id == id && Activates(w.db, id) ==> Rank(Step(w, e).db.subs[id].status) == 1
  {}

  /** Under any interleaving a subscription's status only moves forward, and a deleted one never returns. */
  lemma {:induction false} StatusOnlyAdvances(w: World, events: seq<Event>, id: int)
    requires Sound(w) && id in w.issued
    ensures id !in w.db.subs ==> id !in Run(w, events).db.subs
    ensures id in w.db.subs && id in Run(w, events).db.subs ==>
              Rank(Run(w, events).db.subs[id].status) >= Rank(w.db.subs[id].status)
    decreases |events|
  {
    hide Step;
    if events != [] {
      StepRank(w, events[0], id);
      StatusOnlyAdvances(Step(w, events[0]), events[1..], id);
    }
  }

  /** How often activating takes effect on one subscription. */
  function Activations(w: World, events: seq<Event>, id: int): nat
    decreases |events|
  {
    if events == [] then 0
    else (if events[0].Activate? && events[0].id == id && Activates(w.db, id) then 1 else 0)
         + Activations(Step(w, events[0]), events[1..], id)
  }

  predicate StillPending(w: World, id: int) {
    id !in w.issued || (id in w.db.subs && w.db.subs[id].status == PENDING)
  }

  /** However many payment notices and administrators race to activate it, it takes effect at most once. */
  lemma {:induction false} ActivatedAtMostOnce(w: World, events: seq<Event>, id: int)
    requires Sound(w)
    ensures Activations(w, events, id) <= if StillPending(w, id) then 1 else 0
    decreases |events|
  {
    hide Step;
    if events != [] {
      StepRank(w, events[0], id);
      ActivatedAtMostOnce(Step(w, events[0]), events[1..], id);
    }
  }

  // ---------------------------------------------------------------- how long an activation lasts

  lemma StepKeepsActive(w: World, e: Event, id: int)
    requires Sound(w) && id in w.db.subs && w.db.subs[id].status == ACTIVE
    requires id in Step(w, e).db.subs && Step(w, e).db.subs[id].status == ACTIVE
    ensures Step(w, e).db.subs[id] == w.db.subs[id]
  {}

  lemma PlansStay(w: World, e: Event)
    ensures Step(w, e).db.plans == w.db.plans
  {}

  /** As long as a subscription is active its row does not change, whatever else runs. */
  lemma {:induction false} ActiveRowStays(w: World, events: seq<Event>, id: int)
    requires Sound(w) && id in w.db.subs && w.db.subs[id].status == ACTIVE
    requires id in Run(w, events).db.subs && Run(w, events).db.subs[id].status == ACTIVE
    ensures Run(w, events).db.subs[id] == w.db.subs[id]
    decreases |events|
  {
    hide Step;
    if events != [] {
      StepRank(w, events[0], id);
      StatusOnlyAdvances(Step(w, events[0]), events[1..], id);
      StepKeepsActive(w, events[0], id);
      ActiveRowStays(Step(w, events[0]), events[1..], id);
    }
  }

  lemma {:induction false} ReadsAreDue(db: Db, ids: seq<int>, now: int, id: int)
    ensures Reads(ReadsOf(db, ids, now), id)
       <==> id in ids && id in db.subs && db.subs[id].status == 1 && 0 < db.subs[id].expiredAt <= now
  {
    if ids != [] {
      ReadsAreDue(db, ids[1..], now, id);
      var rest := ReadsOf(db, ids[1..], now);
      if ids[0] in db.subs && Due(db.subs[ids[0]], now) {
        ReadsHead((ids[0], db.subs[ids[0]]), rest, id);
      } else {
        assert [] + rest == rest;
      }
      hide Reads;
    }
  }

  /**
   A subscription activated at `t` and, after anything else has run, still active: a sweep at `n` that comes across
   it expires it exactly when its plan has days and `n` is that many days of 86400 seconds after `t` or later.
   */
  lemma ExpiresAfterItsDays(w: World, id: int, t: nat, events: seq<Event>, ids: seq<int>, n: int)
    requires Sound(w) && Activates(w.db, id)
    requires var later := Run(Step(w, Activate(id, t)), events).db; id in later.subs && later.subs[id].status == 1
    ensures var days := w.db.plans[w.db.subs[id].planId].durationDays;
            var later := Run(Step(w, Activate(id, t)), events).db;
            var swept := ExpireInTurn(later, ReadsOf(later, ids, n));
            id in swept.subs && (swept.subs[id].status == 2 <==> id in ids && days > 0 && n >= t + 86400 * days)
  {
    var w1 := Step(w, Activate(id, t));
    StepRank(w, Activate(id, t), id);
    assert w1.db.subs[id].status == ACTIVE;
    ActiveRowStays(w1, events, id);
    var later := Run(w1, events).db;
    ReadsAreDue(later, ids, n, id);
    ExpiredInTurn(later, ReadsOf(later, ids, n), id);
    hide Reads, ReadsOf, ExpireInTurn;
  }

  // ---------------------------------------------------------------- giving the group back

  /** Operations that each run to their end; an expiry acts on what it has just read. */
  datatype Op = Begin(id: int, now: int) | Cancelled(id: int, now: int) | Deleted(id: int) | Expired(id: int, now: int)

  function Apply(db: Db, op: Op): Db {
    match op
    case Begin(id, now) => ActivateTx(db, id, now)
    case Cancelled(id, now) => CancelTx(db, id, now)
    case Deleted(id) => DeleteTx(db, id)
    case Expired(id, now) => if id in db.subs && Due(db.subs[id], now) then ExpireRead(db, id, db.subs[id]) else db
  }

  /** A plan that puts its subscriber into a group of its own. */
  predicate Grouping(db: Db, s: Subscription) {
    s.planId in db.plans && MovesGroup(db.plans[s.planId]) && db.plans[s.planId].groupName != ""
  }

  predicate Holds(db: Db, u: int, id: int) {
    id in db.subs && db.subs[id].userId == u && db.subs[id].status == ACTIVE && Grouping(db, db.subs[id])
  }

  function PlanGroup(db: Db, id: int): string {
    if id in db.subs && Grouping(db, db.subs[id]) then db.plans[db.subs[id].planId].groupName else ""
  }

  predicate EndsNow(db: Db, op: Op) {
    !op.Begin? && (op.Expired? ==> op.id in db.subs && Due(db.subs[op.id], op.now))
  }

  /** The user's group subscriptions in order of activation; None when one ends that is not the latest. */
  function Stacked(db: Db, u: int, op: Op, stack: seq<int>): Option<seq<int>> {
    if op.Begin? then
      Some(if Activates(db, op.id) && db.subs[op.id].userId == u && Grouping(db, db.subs[op.id]) then stack + [op.id] else stack)
    else if EndsNow(db, op) && Holds(db, u, op.id) then
      if stack != [] && stack[|stack| - 1] == op.id then Some(stack[..|stack| - 1]) else None
    else Some(stack)
  }

  /** The group below position `i` of the stack. */
  function Below(db: Db, stack: seq<int>, i: nat, initial: string): string
    requires i <= |stack|
  {
    if i == 0 then initial else PlanGroup(db, stack[i - 1])
  }

  predicate Link(db: Db, u: int, stack: seq<int>, i: nat, initial: string)
    requires i < |stack|
  {
    Holds(db, u, stack[i]) && db.subs[stack[i]].originalGroup == Below(db, stack, i, initial) != ""
  }

  /** A subscription whose end would move the user's group. */
  predicate Pending(db: Db, u: int, id: int) {
    && id in db.subs && db.subs[id].userId == u && Restores(db.plans, db.subs[id])
    && db.subs[id].status != CANCELLED && db.subs[id].status != EXPIRED
  }

  /** Each stacked subscription saved the group of the one below it, the lowest the initial group. */
  predicate Chained(db: Db, u: int, stack: seq<int>, initial: string) {
    && u in db.groups && initial != ""
    && (forall i | 0 <= i < |stack| :: Link(db, u, stack, i, initial))
    && (forall i, j | 0 <= i < j < |stack| :: stack[i] != stack[j])
    && db.groups[u] == Below(db, stack, |stack|, initial)
    && (forall id | id in db.subs && Pending(db, u, id) :: id in stack)
  }

  /** Changing one subscription leaves the links of the others as they are. */
  lemma LinksKept(db: Db, db': Db, u: int, touched: int, stack: seq<int>, kept: nat, initial: string)
    requires kept <= |stack| && db'.plans == db.plans
    requires forall i | 0 <= i < |stack| :: Link(db, u, stack, i, initial)
    requires forall k | k in db.subs && k != touched :: k in db'.subs && db'.subs[k] == db.subs[k]
    requires forall i | 0 <= i < kept :: stack[i] != touched
    ensures forall i | 0 <= i < kept :: Link(db', u, stack, i, initial)
    ensures forall i | 0 <= i <= kept :: Below(db', stack, i, initial) == Below(db, stack, i, initial)
  {
    forall i | 0 <= i <= kept
      ensures Below(db', stack, i, initial) == Below(db, stack, i, initial)
    {
      if i > 0 {
        assert Link(db, u, stack, i - 1, initial) && stack[i - 1] != touched;
      }
    }
    forall i | 0 <= i < kept
      ensures Link(db', u, stack, i, initial)
    {
      assert Link(db, u, stack, i, initial) && stack[i] != touched;
    }
  }

  lemma PushKeepsChain(db: Db, u: int, id: int, now: int, stack: seq<int>, initial: string)
    requires Chained(db, u, stack, initial) && Activates(db, id) && db.subs[id].userId == u && Grouping(db, db.subs[id])
    ensures Chained(ActivateTx(db, id, now), u, stack + [id], initial)
  {
    hide Restores;
    var db' := ActivateTx(db, id, now);
    var stack' := stack + [id];
    NotStacked(db, u, id, stack, initial);
    LinksKept(db, db', u, id, stack, |stack|, initial);
    forall i | 0 <= i < |stack'|
      ensures Link(db', u, stack', i, initial)
    {
      if i < |stack| {
        assert Link(db', u, stack, i, initial) && Below(db', stack', i, initial) == Below(db', stack, i, initial);
      } else {
        assert Below(db', stack', i, initial) == Below(db, stack, i, initial) == db.groups[u];
        BelowIsNamed(db, u, stack, initial);
      }
    }
    forall k | k in db'.subs && Pending(db', u, k)
      ensures k in stack'
    {
      assert k == id || Pending(db, u, k);
    }
  }

  lemma BelowIsNamed(db: Db, u: int, stack: seq<int>, initial: string)
    requires Chained(db, u, stack, initial)
    ensures Below(db, stack, |stack|, initial) != ""
  {
    if stack != [] {
      assert Link(db, u, stack, |stack| - 1, initial);
    }
  }

  lemma NotStacked(db: Db, u: int, id: int, stack: seq<int>, initial: string)
    requires Chained(db, u, stack, initial) && !Holds(db, u, id)
    ensures id !in stack
  {
    forall i | 0 <= i < |stack|
      ensures stack[i] != id
    {
      assert Link(db, u, stack, i, initial);
    }
  }

  lemma BeginKeepsChain(db: Db, u: int, id: int, now: int, stack: seq<int>, initial: string)
    requires Chained(db, u, stack, initial)
    ensures Chained(ActivateTx(db, id, now), u, Stacked(db, u, Begin(id, now), stack).value, initial)
  {
    if Activates(db, id) {
      if db.subs[id].userId == u && Grouping(db, db.subs[id]) {
        PushKeepsChain(db, u, id, now, stack, initial);
      } else {
        var db' := ActivateTx(db, id, now);
        NotStacked(db, u, id, stack, initial);
        LinksKept(db, db', u, id, stack, |stack|, initial);
        forall k | k in db'.subs && Pending(db', u, k)
          ensures k in stack
        {
          assert Pending(db, u, k);
        }
      }
    }
  }

  lemma PopKeepsChain(db: Db, u: int, op: Op, stack: seq<int>, initial: string)
    requires Chained(db, u, stack, initial) && EndsNow(db, op) && stack != [] && stack[|stack| - 1] == op.id
    ensures Chained(Apply(db, op), u, stack[..|stack| - 1], initial)
  {
    var db' := Apply(db, op);
    var n := |stack| - 1;
    var stack' := stack[..n];
    assert Link(db, u, stack, n, initial);
    assert db'.groups[u] == Below(db, stack, n, initial);
    LinksKept(db, db', u, op.id, stack, n, initial);
    forall i | 0 <= i < n
      ensures Link(db', u, stack', i, initial)
    {
      assert Link(db', u, stack, i, initial) && Below(db', stack', i, initial) == Below(db', stack, i, initial);
    }
    assert Below(db', stack', n, initial) == Below(db', stack, n, initial);
    forall k | k in db'.subs && Pending(db', u, k)
      ensures k in stack'
    {
      assert k != op.id && Pending(db, u, k);
      var i :| 0 <= i < |stack| && stack[i] == k;
      assert stack'[i] == k;
    }
  }

  lemma EndElsewhereKeepsChain(db: Db, u: int, op: Op, stack: seq<int>, initial: string)
    requires !op.Begin? && Chained(db, u, stack, initial) && !(EndsNow(db, op) && Holds(db, u, op.id))
    ensures Chained(Apply(db, op), u, stack, initial)
  {
    var db' := Apply(db, op);
    if EndsNow(db, op) && op.id in db.subs {
      NotStacked(db, u, op.id, stack, initial);
      assert !Pending(db, u, op.id);
      assert db'.groups[u] == db.groups[u];
      LinksKept(db, db', u, op.id, stack, |stack|, initial);
      forall k | k in db'.subs && Pending(db', u, k)
        ensures k in stack
      {
        assert Pending(db, u, k);
      }
    }
  }

  lemma EndKeepsChain(db: Db, u: int, op: Op, stack: seq<int>, initial: string)
    requires !op.Begin? && Chained(db, u, stack, initial) && Stacked(db, u, op, stack).Some?
    ensures Chained(Apply(db, op), u, Stacked(db, u, op, stack).value, initial)
  {
    hide Chained, Apply, Holds, EndsNow;
    if EndsNow(db, op) && Holds(db, u, op.id) {
      PopKeepsChain(db, u, op, stack, initial);
    } else {
      EndElsewhereKeepsChain(db, u, op, stack, initial);
    }
  }

  function StackAfter(db: Db, u: int, ops: seq<Op>, stack: seq<int>): Option<seq<int>>
    decreases |ops|
  {
    if ops == [] then Some(stack)
    else
      match Stacked(db, u, ops[0], stack)
      case None => None
      case Some(next) => StackAfter(Apply(db, ops[0]), u, ops[1..], next)
  }

  function ApplyAll(db: Db, ops: seq<Op>): Db
    decreases |ops|
  {
    if ops == [] then db else ApplyAll(Apply(db, ops[0]), ops[1..])
  }

  lemma {:induction false} ChainKept(db: Db, u: int, ops: seq<Op>, stack: seq<int>, initial: string)
    requires Chained(db, u, stack, initial) && StackAfter(db, u, ops, stack).Some?
    ensures Chained(ApplyAll(db, ops), u, StackAfter(db, u, ops, stack).value, initial)
    decreases |ops|
  {
    hide Chained;
    if ops != [] {
      if ops[0].Begin? {
        BeginKeepsChain(db, u, ops[0].id, ops[0].now, stack, initial);
      } else {
        EndKeepsChain(db, u, ops[0], stack, initial);
      }
      ChainKept(Apply(db, ops[0]), u, ops[1..], Stacked(db, u, ops[0], stack).value, initial);
    }
  }

  /**
   When a user's group subscriptions end latest first, the user is in the latest one's group throughout
   and back in the initial group once all have ended, whatever happens to everybody else's.
   */
  lemma LatestFirstRestores(db: Db, u: int, ops: seq<Op>, initial: string)
    requires Chained(db, u, [], initial) && StackAfter(db, u, ops, []) == Some([])
    ensures GroupOf(ApplyAll(db, ops), u) == initial
  {
    ChainKept(db, u, ops, [], initial);
  }
}
