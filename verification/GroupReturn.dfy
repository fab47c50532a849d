/**
 Which group a user is left in when group subscriptions do not end latest first, and when an expiry sweep,
 whose reading and two statements per row other operations can come between, acts on an old reading.
 */
module GroupReturn {
  import opened Options
  import opened Subscriptions

  // ---------------------------------------------------------------- ending in any order

  /** The operation puts the user into a plan's group. */
  predicate Begins(db: Db, u: int, op: Op) {
    op.Begin? && Activates(db, op.id) && db.subs[op.id].userId == u && Grouping(db, db.subs[op.id])
  }

  /** The operation ends a subscription that has a group of the user to give back. */
  predicate Ends(db: Db, u: int, op: Op) { EndsNow(db, op) && Pending(db, u, op.id) }

  predicate NoneBegins(db: Db, u: int, ops: seq<Op>)
    decreases |ops|
  {
    ops == [] || (!Begins(db, u, ops[0]) && NoneBegins(Apply(db, ops[0]), u, ops[1..]))
  }

  function LastEnded(db: Db, u: int, ops: seq<Op>): Option<int>
    decreases |ops|
  {
    if ops == [] then None
    else
      var later := LastEnded(Apply(db, ops[0]), u, ops[1..]);
      if later.None? && Ends(db, u, ops[0]) then Some(ops[0].id) else later
  }

  /** Every subscription that still has a group to give back is active and as it was in `base`. */
  predicate Left(base: Db, db: Db, u: int) {
    && db.plans == base.plans && u in db.groups
    && forall id | id in db.subs && Pending(db, u, id) ::
         id in base.subs && Pending(base, u, id) && db.subs[id] == base.subs[id] && db.subs[id].status == ACTIVE
  }

  lemma EndGivesBack(base: Db, db: Db, u: int, op: Op)
    requires Left(base, db, u) && !Begins(db, u, op)
    ensures Left(base, Apply(db, op), u)
    ensures Ends(db, u, op) ==> Pending(base, u, op.id) && GroupOf(Apply(db, op), u) == base.subs[op.id].originalGroup
    ensures !Ends(db, u, op) ==> GroupOf(Apply(db, op), u) == GroupOf(db, u)
  {
    var db' := Apply(db, op);
    forall id | id in db'.subs && Pending(db', u, id)
      ensures id in db.subs && Pending(db, u, id) && db'.subs[id] == db.subs[id]
    {}
  }

  lemma {:induction false} LastEndedDecides(base: Db, db: Db, u: int, ops: seq<Op>)
    requires Left(base, db, u) && NoneBegins(db, u, ops)
    ensures match LastEnded(db, u, ops)
            case None => GroupOf(ApplyAll(db, ops), u) == GroupOf(db, u)
            case Some(id) => Pending(base, u, id) && GroupOf(ApplyAll(db, ops), u) == base.subs[id].originalGroup
    decreases |ops|
  {
    hide Left, Ends, Begins, Apply, Pending;
    if ops != [] {
      EndGivesBack(base, db, u, ops[0]);
      LastEndedDecides(base, Apply(db, ops[0]), u, ops[1..]);
    }
  }

  /**
   For every stack of group subscriptions and every order in which any of them end, by cancellation, deletion
   or expiry and with anything else in between but a new one: the one ended last decides, and the user is back
   exactly when the group below it in the stack is the initial one.
   */
  lemma AnyOrderRestoresIff(db: Db, u: int, ops: seq<Op>, stack: seq<int>, k: nat, initial: string)
    requires Chained(db, u, stack, initial) && NoneBegins(db, u, ops)
    requires k < |stack| && LastEnded(db, u, ops) == Some(stack[k])
    ensures GroupOf(ApplyAll(db, ops), u) == Below(db, stack, k, initial)
    ensures GroupOf(ApplyAll(db, ops), u) == initial <==> Below(db, stack, k, initial) == initial
  {
    ChainIsLeft(db, u, stack, initial);
    LastEndedDecides(db, db, u, ops);
    assert Link(db, u, stack, k, initial);
  }

  /** Only stacked subscriptions can be the last to end, and while none has the user stays put. */
  lemma LastEndedIsStacked(db: Db, u: int, ops: seq<Op>, stack: seq<int>, initial: string)
    requires Chained(db, u, stack, initial) && NoneBegins(db, u, ops)
    ensures LastEnded(db, u, ops).Some? ==> LastEnded(db, u, ops).value in stack
    ensures LastEnded(db, u, ops).None? ==> GroupOf(ApplyAll(db, ops), u) == Below(db, stack, |stack|, initial)
  {
    ChainIsLeft(db, u, stack, initial);
    LastEndedDecides(db, db, u, ops);
  }

  lemma ChainIsLeft(db: Db, u: int, stack: seq<int>, initial: string)
    requires Chained(db, u, stack, initial)
    ensures Left(db, db, u)
  {
    forall id | id in db.subs && Pending(db, u, id)
      ensures db.subs[id].status == ACTIVE
    {
      var i :| 0 <= i < |stack| && stack[i] == id;
      assert Link(db, u, stack, i, initial);
    }
  }

  // ---------------------------------------------------------------- sweeps that others come between

  /** A row that matters to the user's group. */
  predicate Live(db: Db, u: int, id: int) { id in db.subs && (Holds(db, u, id) || Pending(db, u, id)) }

  /** Two states that agree on the user's group and on every row that matters to it. */
  ghost predicate SameLives(a: Db, b: Db, u: int) {
    && a.plans == b.plans && u in a.groups && u in b.groups && a.groups[u] == b.groups[u]
    && forall id :: (Live(a, u, id) <==> Live(b, u, id)) && (Live(a, u, id) ==> a.subs[id] == b.subs[id])
  }

  /** The event neither begins nor ends a group subscription of the user, nor is half of an expiry of one. */
  predicate Quiet(w: World, u: int, e: Event) {
    match e
    case Create(_, _, _) => true
    case Activate(id, _) =>
      Activates(w.db, id) ==> !Live(w.db, u, id) && !(w.db.subs[id].userId == u && Grouping(w.db, w.db.subs[id]))
    case Cancel(id, _) => !Live(w.db, u, id)
    case Delete(id) => !Live(w.db, u, id)
    case SweepRead(_, _, _) => true
    case SweepTurn(pid) =>
      pid in w.sweeps && w.sweeps[pid].read != [] ==>
        if w.sweeps[pid].marked then !Hits(w.db, u, w.sweeps[pid].read[0].1) else !Live(w.db, u, w.sweeps[pid].read[0].0)
  }

  /** Ending the row as it was read writes the user's group. */
  predicate Hits(db: Db, u: int, s: Subscription) { s.userId == u && Restores(db.plans, s) }

  lemma QuietKeepsLives(w: World, u: int, e: Event)
    requires Sound(w) && u in w.db.groups && Quiet(w, u, e)
    ensures SameLives(w.db, Step(w, e).db, u)
  {}

  lemma ExpiredAlike(a: Db, b: Db, u: int, id: int)
    requires SameLives(a, b, u)
    ensures SameLives(SetExpired(a, id), SetExpired(b, id), u)
  {
    var a', b' := SetExpired(a, id), SetExpired(b, id);
    forall k
      ensures Live(a', u, k) <==> k != id && Live(a, u, k)
      ensures Live(b', u, k) <==> k != id && Live(b, u, k)
    {}
  }

  lemma RestoredAlike(a: Db, b: Db, u: int, s: Subscription)
    requires SameLives(a, b, u)
    ensures SameLives(RestoreGroup(a, s), RestoreGroup(b, s), u)
  {
    forall k
      ensures Live(RestoreGroup(a, s), u, k) <==> Live(a, u, k)
      ensures Live(RestoreGroup(b, s), u, k) <==> Live(b, u, k)
    {}
  }

  lemma {:induction false} ExpiringAlike(a: Db, b: Db, u: int, read: seq<(int, Subscription)>)
    requires SameLives(a, b, u)
    ensures SameLives(ExpireInTurn(a, read), ExpireInTurn(b, read), u)
    decreases |read|
  {
    hide SameLives, SetExpired, RestoreGroup;
    if read != [] {
      var (id, s) := read[0];
      ExpiredAlike(a, b, u, id);
      RestoredAlike(SetExpired(a, id), SetExpired(b, id), u, s);
      ExpiringAlike(ExpireRead(a, id, s), ExpireRead(b, id, s), u, read[1..]);
    }
  }

  /** What a sweep would leave if it ran to its end from here without interruption. */
  function Finish(db: Db, sw: Sweep): Db {
    if sw.read == [] then db
    else if sw.marked then ExpireInTurn(RestoreGroup(db, sw.read[0].1), sw.read[1..])
    else ExpireInTurn(db, sw.read)
  }

  lemma FinishAlike(a: Db, b: Db, u: int, sw: Sweep)
    requires SameLives(a, b, u)
    ensures SameLives(Finish(a, sw), Finish(b, sw), u)
  {
    hide SameLives, RestoreGroup;
    if sw.read != [] && sw.marked {
      RestoredAlike(a, b, u, sw.read[0].1);
      ExpiringAlike(RestoreGroup(a, sw.read[0].1), RestoreGroup(b, sw.read[0].1), u, sw.read[1..]);
    } else if sw.read != [] {
      ExpiringAlike(a, b, u, sw.read);
    }
  }

  lemma OwnTurn(w: World, pid: int)
    requires pid in w.sweeps
    ensures var w' := Step(w, SweepTurn(pid)); pid in w'.sweeps && Finish(w'.db, w'.sweeps[pid]) == Finish(w.db, w.sweeps[pid])
  {
    hide SetExpired, RestoreGroup;
  }

  /** Between the statements of sweep `pid` only events that are quiet for the user. */
  predicate Undisturbed(w: World, u: int, pid: int, events: seq<Event>)
    decreases |events|
  {
    events == [] || ((events[0] == SweepTurn(pid) || Quiet(w, u, events[0])) && Undisturbed(Step(w, events[0]), u, pid, events[1..]))
  }

  lemma SameThrough(a: Db, b: Db, c: Db, u: int)
    requires SameLives(a, b, u) && SameLives(b, c, u)
    ensures SameLives(a, c, u)
  {
    hide Live;
  }

  lemma TurnKeepsUser(w: World, pid: int, u: int)
    requires u in w.db.groups
    ensures u in Step(w, SweepTurn(pid)).db.groups && SameLives(w.db, w.db, u)
  {}

  lemma SweepsStay(w: World, e: Event, pid: int)
    requires pid in w.sweeps
    ensures pid in Step(w, e).sweeps && (e != SweepTurn(pid) ==> Step(w, e).sweeps[pid] == w.sweeps[pid])
  {}

  /**
   A sweep of any rows, with anything quiet for the user between its reading and its statements, will leave the
   user's group and every row that matters to it as if the rest had run at once.
   */
  lemma {:induction false} UndisturbedIsAtomic(w: World, u: int, pid: int, events: seq<Event>)
    requires Sound(w) && u in w.db.groups && pid in w.sweeps && Undisturbed(w, u, pid, events)
    ensures var w' := Run(w, events);
            pid in w'.sweeps && SameLives(Finish(w.db, w.sweeps[pid]), Finish(w'.db, w'.sweeps[pid]), u)
    decreases |events|
  {
    hide SameLives, Step, Quiet, Finish, Sound;
    TurnKeepsUser(w, pid, u);
    if events == [] {
      FinishAlike(w.db, w.db, u, w.sweeps[pid]);
    } else {
      var e := events[0];
      var w1 := Step(w, e);
      StepRank(w, e, 0);
      SweepsStay(w, e, pid);
      if e == SweepTurn(pid) {
        OwnTurn(w, pid);
      } else {
        QuietKeepsLives(w, u, e);
        FinishAlike(w.db, w1.db, u, w.sweeps[pid]);
        UserStays(w.db, w1.db, u);
      }
      UndisturbedIsAtomic(w1, u, pid, events[1..]);
      var w' := Run(w1, events[1..]);
      if e != SweepTurn(pid) {
        SameThrough(Finish(w.db, w.sweeps[pid]), Finish(w1.db, w1.sweeps[pid]), Finish(w'.db, w'.sweeps[pid]), u);
      }
    }
  }

  lemma UserStays(a: Db, b: Db, u: int)
    requires SameLives(a, b, u)
    ensures u in b.groups
  {}

  lemma ChainTransfers(a: Db, b: Db, u: int, stack: seq<int>, initial: string)
    requires SameLives(a, b, u) && Chained(a, u, stack, initial)
    ensures Chained(b, u, stack, initial)
  {
    forall i | 0 <= i < |stack|
      ensures Live(a, u, stack[i]) && b.subs[stack[i]] == a.subs[stack[i]] && Live(b, u, stack[i])
    {
      assert Link(a, u, stack, i, initial);
    }
    forall i | 0 <= i <= |stack|
      ensures Below(b, stack, i, initial) == Below(a, stack, i, initial)
    {}
    forall i | 0 <= i < |stack|
      ensures Link(b, u, stack, i, initial)
    {
      assert Link(a, u, stack, i, initial);
    }
    forall id | id in b.subs && Pending(b, u, id)
      ensures id in stack
    {
      assert Live(b, u, id) && Pending(a, u, id);
    }
  }

  /** So an expiry that nobody disturbs ends where an uninterrupted one would, and keeps the chain. */
  lemma UndisturbedSweepKeepsChain(w: World, u: int, pid: int, id: int, now: int, events: seq<Event>, stack: seq<int>, initial: string)
    requires Sound(w) && Chained(w.db, u, stack, initial) && Undisturbed(w, u, pid, events)
    requires id in w.db.subs && Due(w.db.subs[id], now) && Stacked(w.db, u, Expired(id, now), stack).Some?
    requires pid in w.sweeps && w.sweeps[pid] == Sweep([(id, w.db.subs[id])], false)
    requires pid in Run(w, events).sweeps && Run(w, events).sweeps[pid].read == []
    ensures SameLives(ExpireRead(w.db, id, w.db.subs[id]), Run(w, events).db, u)
    ensures Chained(Run(w, events).db, u, Stacked(w.db, u, Expired(id, now), stack).value, initial)
  {
    UndisturbedIsAtomic(w, u, pid, events);
    EndKeepsChain(w.db, u, Expired(id, now), stack, initial);
    var expired := ExpireRead(w.db, id, w.db.subs[id]);
    assert w.sweeps[pid].read[1..] == [];
    assert ExpireInTurn(expired, []) == expired;
    assert Finish(w.db, w.sweeps[pid]) == expired;
    ChainTransfers(expired, Run(w, events).db, u, Stacked(w.db, u, Expired(id, now), stack).value, initial);
  }

  // ---------------------------------------------------------------- what a late restore takes away

  /** A restore takes a user out of the group of a subscription it holds exactly when the saved group is another one. */
  lemma RestoreTakesGroupIff(w: World, u: int, pid: int, held: int)
    requires pid in w.sweeps && w.sweeps[pid].marked && w.sweeps[pid].read != []
    requires u in w.db.groups && Holds(w.db, u, held) && GroupOf(w.db, u) == PlanGroup(w.db, held)
    ensures var s := w.sweeps[pid].read[0].1; var after := Step(w, SweepTurn(pid)).db;
            Holds(after, u, held)
            && (GroupOf(after, u) != PlanGroup(after, held) <==> Hits(w.db, u, s) && s.originalGroup != PlanGroup(w.db, held))
  {}

  /** Whatever happened since the sweep's reading: its restore keeps a chain exactly when it writes the group the user is in. */
  lemma RestoreKeepsChainIff(w: World, u: int, pid: int, stack: seq<int>, initial: string)
    requires pid in w.sweeps && w.sweeps[pid].marked && w.sweeps[pid].read != [] && Chained(w.db, u, stack, initial)
    ensures Chained(Step(w, SweepTurn(pid)).db, u, stack, initial)
       <==> (Hits(w.db, u, w.sweeps[pid].read[0].1) ==> w.sweeps[pid].read[0].1.originalGroup == Below(w.db, stack, |stack|, initial))
  {
    var s := w.sweeps[pid].read[0].1;
    var after := Step(w, SweepTurn(pid)).db;
    assert after == RestoreGroup(w.db, s);
    assert forall i | 0 <= i <= |stack| :: Below(after, stack, i, initial) == Below(w.db, stack, i, initial);
    if GroupOf(after, u) == GroupOf(w.db, u) {
      assert SameLives(w.db, after, u) by {
        assert forall k :: Live(after, u, k) <==> Live(w.db, u, k);
      }
      ChainTransfers(w.db, after, u, stack, initial);
    }
  }

  function StaleRun(pid: int, id: int, later: int, now: int): seq<Event> {
    [SweepRead(pid, [id], now), Cancel(id, now), Activate(later, now), SweepTurn(pid), SweepTurn(pid)]
  }

  /**
   A row that is due is read, cancelled and replaced by a new group subscription before the sweep writes: the
   user ends in the group the old row saved, so the new group is lost unless the two are the same.
   */
  lemma StaleSweepTakesGroup(w: World, u: int, pid: int, id: int, later: int, now: int)
    requires pid !in w.sweeps && u in w.db.groups && id != later
    requires id in w.db.subs && Due(w.db.subs[id], now) && Hits(w.db, u, w.db.subs[id])
    requires Activates(w.db, later) && w.db.subs[later].userId == u && Grouping(w.db, w.db.subs[later])
    ensures var after := Run(w, StaleRun(pid, id, later, now)).db;
            && Holds(after, u, later) && GroupOf(after, u) == w.db.subs[id].originalGroup
            && (GroupOf(after, u) == PlanGroup(after, later) <==> w.db.subs[id].originalGroup == PlanGroup(w.db, later))
  {
    var s := w.db.subs[id];
    var w1 := Step(w, SweepRead(pid, [id], now));
    assert ReadsOf(w.db, [id], now) == [(id, s)] by {
      assert [id][1..] == [];
    }
    assert w1.sweeps[pid] == Sweep([(id, s)], false);
    var w2 := Step(w1, Cancel(id, now));
    var w3 := Step(w2, Activate(later, now));
    assert w3.sweeps == w1.sweeps && Holds(w3.db, u, later) && GroupOf(w3.db, u) == PlanGroup(w3.db, later);
    var w4 := Step(w3, SweepTurn(pid));
    assert w4.sweeps[pid] == Sweep([(id, s)], true) && Holds(w4.db, u, later);
    RunFive(w, SweepRead(pid, [id], now), Cancel(id, now), Activate(later, now), SweepTurn(pid), SweepTurn(pid));
    RestoreTakesGroupIff(w4, u, pid, later);
  }

  lemma RunFive(w: World, a: Event, b: Event, c: Event, d: Event, e: Event)
    ensures Run(w, [a, b, c, d, e]) == Step(Step(Step(Step(Step(w, a), b), c), d), e)
  {
    hide Step;
    assert [a, b, c, d, e][1..] == [b, c, d, e] && [b, c, d, e][1..] == [c, d, e] && [c, d, e][1..] == [d, e];
    assert [d, e][1..] == [e] && [e][1..] == [];
    var w4 := Step(Step(Step(Step(w, a), b), c), d);
    assert Run(Step(w4, e), []) == Step(w4, e);
    assert Run(w4, [e]) == Step(w4, e);
    assert Run(Step(Step(Step(w, a), b), c), [d, e]) == Run(w4, [e]);
    assert Run(Step(Step(w, a), b), [c, d, e]) == Run(w4, [e]);
    assert Run(Step(w, a), [b, c, d, e]) == Run(w4, [e]);
  }
}
