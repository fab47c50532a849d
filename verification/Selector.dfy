/**
 Choosing the channels to try for a request: the ability index yields the candidates of a group, a
 stable sort and a weighted shuffle within each priority order them, groups are tried in turn, and a
 cached affinity moves one channel to the front of three parallel slices.
 */
module Selector {
  import opened Options
  import opened Sums
  import opened Abilities

  /** A channel carries the priority and weight its ability row was indexed with. */
  datatype Candidate = Candidate(channel: Channel, model: string)

  // ---------------------------------------------------------------- the weighted shuffle

  function TotalWeight(s: seq<Candidate>): int {
    if s == [] then 0 else TotalWeight(s[..|s| - 1]) + s[|s| - 1].channel.weight
  }

  /** The first position whose running total of weights exceeds the target. */
  function Drawn(s: seq<Candidate>, target: int): (i: nat)
    requires 0 <= target < TotalWeight(s)
    ensures i < |s| && target < TotalWeight(s[..i + 1])
    ensures forall j | 0 <= j <= i :: TotalWeight(s[..j]) <= target
  {
    assert PrefixWeight(s, |s|) == TotalWeight(s) by {
      assert s[..|s|] == s;
    }
    var i := DrawnFrom(s, target, 0);
    assert forall j | 0 <= j <= i :: TotalWeight(s[..j]) == PrefixWeight(s, j);
    i
  }

  function PrefixWeight(s: seq<Candidate>, j: nat): int
    requires j <= |s|
  {
    TotalWeight(s[..j])
  }

  function DrawnFrom(s: seq<Candidate>, target: int, from: nat): (i: nat)
    requires from <= |s| && target < PrefixWeight(s, |s|)
    requires forall j | 0 <= j <= from :: PrefixWeight(s, j) <= target
    ensures from <= i < |s| && target < PrefixWeight(s, i + 1)
    ensures forall j | 0 <= j <= i :: PrefixWeight(s, j) <= target
    decreases |s| - from
  {
    hide PrefixWeight, TotalWeight;
    assert PrefixWeight(s, from) <= target;
    if target < PrefixWeight(s, from + 1) then from else DrawnFrom(s, target, from + 1)
  }

  function Dropped<T>(s: seq<T>, i: nat): (r: seq<T>)
    requires i < |s|
    ensures |r| == |s| - 1
  {
    s[..i] + s[i + 1..]
  }

  /** `draw` supplies the random numbers, one per round. */
  function Shuffled(s: seq<Candidate>, draw: nat -> nat, round: nat): seq<Candidate>
    decreases |s|
  {
    if s == [] || TotalWeight(s) <= 0 then s
    else
      var i := Drawn(s, draw(round) % TotalWeight(s));
      [s[i]] + Shuffled(Dropped(s, i), draw, round + 1)
  }

  predicate NonNegative(s: seq<Candidate>) { forall i | 0 <= i < |s| :: s[i].channel.weight >= 0 }

  lemma {:induction false} WeightsMonotone(s: seq<Candidate>, i: nat, j: nat)
    requires NonNegative(s) && i <= j <= |s|
    ensures TotalWeight(s[..i]) <= TotalWeight(s[..j])
    decreases j
  {
    if i < j {
      WeightsMonotone(s, i, j - 1);
      assert s[..j][..j - 1] == s[..j - 1];
    }
  }

  /** A position is drawn by exactly as many of the targets 0 .. total - 1 as its weight. */
  lemma DrawnExactly(s: seq<Candidate>, target: int, i: nat)
    requires NonNegative(s) && 0 <= target < TotalWeight(s) && i < |s|
    ensures Drawn(s, target) == i <==> TotalWeight(s[..i]) <= target < TotalWeight(s[..i]) + s[i].channel.weight
  {
    assert s[..i + 1][..i] == s[..i];
    var d := Drawn(s, target);
    if d < i {
      WeightsMonotone(s, d + 1, i);
    } else if i < d {
      WeightsMonotone(s, i + 1, d);
    }
  }

  lemma {:induction false} ShuffledPermutes(s: seq<Candidate>, draw: nat -> nat, round: nat)
    ensures multiset(Shuffled(s, draw, round)) == multiset(s)
    decreases |s|
  {
    hide TotalWeight, Dropped, Drawn;
    if s != [] && TotalWeight(s) > 0 {
      var i := Drawn(s, draw(round) % TotalWeight(s));
      var rest := Shuffled(Dropped(s, i), draw, round + 1);
      ShuffledPermutes(Dropped(s, i), draw, round + 1);
      DroppedMultiset(s, i);
      assert Shuffled(s, draw, round) == [s[i]] + rest;
    }
  }

  /** The sum of the weights, from the front. */
  function WeightSum(s: seq<Candidate>): int { if s == [] then 0 else s[0].channel.weight + WeightSum(s[1..]) }

  lemma {:induction false} TotalIsSum(s: seq<Candidate>)
    ensures TotalWeight(s) == WeightSum(s)
  {
    if s != [] {
      TotalIsSum(s[1..]);
      TotalFront(s);
    }
  }

  lemma {:induction false} TotalFront(s: seq<Candidate>)
    requires s != []
    ensures TotalWeight(s) == s[0].channel.weight + TotalWeight(s[1..])
  {
    if |s| == 1 {
      assert s[1..] == [] && s[..0] == [];
    } else {
      TotalFront(s[..|s| - 1]);
      assert s[..|s| - 1][1..] == s[1..][..|s| - 2];
    }
  }

  /**
   How the draws decide: each round takes the candidate in whose stretch of the summed weights the drawn number,
   reduced by the sum, lies; the rest is shuffled by the following draws, and without weight it stays as it is.
   */
  lemma ShuffledByDraw(s: seq<Candidate>, draw: nat -> nat, round: nat, i: nat)
    requires NonNegative(s) && WeightSum(s) > 0 && i < |s|
    requires var target := draw(round) % WeightSum(s); WeightSum(s[..i]) <= target < WeightSum(s[..i]) + s[i].channel.weight
    ensures Shuffled(s, draw, round) == [s[i]] + Shuffled(s[..i] + s[i + 1..], draw, round + 1)
  {
    TotalIsSum(s);
    TotalIsSum(s[..i]);
    DrawnExactly(s, draw(round) % TotalWeight(s), i);
  }

  lemma ShuffledWithoutWeight(s: seq<Candidate>, draw: nat -> nat, round: nat)
    requires WeightSum(s) <= 0
    ensures Shuffled(s, draw, round) == s
  {
    TotalIsSum(s);
  }

  /** Each run of one priority is shuffled by its own draws, and the runs keep their places. */
  lemma ArrangedByRuns(run: seq<Candidate>, rest: seq<Candidate>, draw: nat -> nat -> nat, bucket: nat)
    requires run != [] && forall i | 0 <= i < |run| :: run[i].channel.priority == run[0].channel.priority
    requires rest != [] ==> rest[0].channel.priority != run[0].channel.priority
    ensures Arranged(run + rest, draw, bucket) == Shuffled(run, draw(bucket), 0) + Arranged(rest, draw, bucket + 1)
  {
    FlushStep(run, rest, draw, bucket);
  }

  lemma DroppedMultiset<T>(s: seq<T>, i: nat)
    requires i < |s|
    ensures multiset(s) == multiset{s[i]} + multiset(Dropped(s, i))
  {
    assert s == s[..i] + [s[i]] + s[i + 1..];
  }

  predicate WeightlessLast(s: seq<Candidate>) {
    forall i, j | 0 <= i < j < |s| && s[i].channel.weight == 0 :: s[j].channel.weight == 0
  }

  lemma {:induction false} NoWeightLeft(s: seq<Candidate>)
    requires NonNegative(s) && TotalWeight(s) <= 0
    ensures forall i | 0 <= i < |s| :: s[i].channel.weight == 0
  {
    forall i | 0 <= i < |s|
      ensures s[i].channel.weight == 0
    {
      WeightsMonotone(s, 0, i);
      WeightsMonotone(s, i + 1, |s|);
      assert s[..|s|] == s && s[..0] == [] && s[..i + 1][..i] == s[..i];
    }
  }

  /** With no negative weight, everything with weight comes before everything without. */
  lemma {:induction false} ShuffledWeightlessLast(s: seq<Candidate>, draw: nat -> nat, round: nat)
    requires NonNegative(s)
    ensures WeightlessLast(Shuffled(s, draw, round))
    decreases |s|
  {
    if s == [] {
    } else if TotalWeight(s) <= 0 {
      NoWeightLeft(s);
    } else {
      var i := Drawn(s, draw(round) % TotalWeight(s));
      assert s[..i + 1][..i] == s[..i];
      ShuffledWeightlessLast(Dropped(s, i), draw, round + 1);
    }
  }

  /** Removes from the working slice by shifting its tail one place down. */
  method WeightedShuffle(candidates: seq<Candidate>, draw: nat -> nat) returns (result: seq<Candidate>)
    ensures result == Shuffled(candidates, draw, 0)
  {
    hide TotalWeight, Drawn, Dropped, Shuffled;
    if |candidates| <= 1 {
      Singleton(candidates, draw);
      return candidates;
    }
    result := [];
    var temp := new Candidate[|candidates|](i requires 0 <= i < |candidates| => candidates[i]);
    var len := |candidates|;
    var round := 0;
    assert temp[..len] == candidates;
    while len > 0
      invariant 0 <= len <= temp.Length
      invariant result + Shuffled(temp[..len], draw, round) == Shuffled(candidates, draw, 0)
      decreases len
    {
      ghost var s := temp[..len];
      ShuffledStep(result, s, draw, round);
      var totalWeight := SumWeights(temp, len);
      if totalWeight <= 0 {
        result := result + temp[..len];
        return;
      }
      var target := draw(round) % totalWeight;
      var i := FindDrawn(temp, len, target);
      result := result + [temp[i]];
      RemoveAt(temp, len, i);
      len := len - 1;
      round := round + 1;
    }
    ShuffledNothing(draw, round);
  }

  lemma ShuffledNothing(draw: nat -> nat, round: nat)
    ensures Shuffled([], draw, round) == []
  {}

  lemma ShuffledStep(done: seq<Candidate>, s: seq<Candidate>, draw: nat -> nat, round: nat)
    requires s != []
    ensures TotalWeight(s) <= 0 ==> Shuffled(s, draw, round) == s
    ensures TotalWeight(s) > 0 ==>
              var i := Drawn(s, draw(round) % TotalWeight(s));
              done + Shuffled(s, draw, round) == done + [s[i]] + Shuffled(Dropped(s, i), draw, round + 1)
  {}

  method RemoveAt(temp: array<Candidate>, len: nat, i: nat)
    requires i < len <= temp.Length
    modifies temp
    ensures temp[..len - 1] == Dropped(old(temp[..len]), i)
  {
    forall k | i <= k < len - 1 {
      temp[k] := temp[k + 1];
    }
  }

  lemma Singleton(s: seq<Candidate>, draw: nat -> nat)
    requires |s| <= 1
    ensures Shuffled(s, draw, 0) == s
  {
    if |s| == 1 && TotalWeight(s) > 0 {
      assert Dropped(s, 0) == [];
    }
  }

  method SumWeights(temp: array<Candidate>, len: nat) returns (total: int)
    requires len <= temp.Length
    ensures total == TotalWeight(temp[..len])
  {
    total := 0;
    var i := 0;
    while i < len
      invariant 0 <= i <= len && total == TotalWeight(temp[..i])
    {
      assert temp[..i + 1][..i] == temp[..i];
      total := total + temp[i].channel.weight;
      i := i + 1;
    }
  }

  method FindDrawn(temp: array<Candidate>, len: nat, target: int) returns (i: nat)
    requires len <= temp.Length && 0 <= target < TotalWeight(temp[..len])
    ensures i < len && i == Drawn(temp[..len], target)
  {
    ghost var s := temp[..len];
    var current := 0;
    i := 0;
    while true
      invariant 0 <= i < len || (i == len && current == TotalWeight(s))
      invariant current == TotalWeight(s[..i])
      invariant forall j | 0 <= j <= i :: TotalWeight(s[..j]) <= target
      decreases len - i
    {
      assert s[..len] == s;
      assert s[..i + 1][..i] == s[..i];
      current := current + temp[i].channel.weight;
      if target < current {
        DrawnUnique(s, target, i);
        return;
      }
      i := i + 1;
    }
  }

  lemma DrawnUnique(s: seq<Candidate>, target: int, i: nat)
    requires 0 <= target < TotalWeight(s) && i < |s| && target < TotalWeight(s[..i + 1])
    requires forall j | 0 <= j <= i :: TotalWeight(s[..j]) <= target
    ensures Drawn(s, target) == i
  {
    hide TotalWeight;
    var d := Drawn(s, target);
    assert target < TotalWeight(s[..d + 1]);
  }

  // ---------------------------------------------------------------- the stable sort

  function Priority(c: Candidate): int { c.channel.priority }

  predicate Descending(s: seq<Candidate>) { forall i, j | 0 <= i < j < |s| :: Priority(s[i]) >= Priority(s[j]) }

  function Insert(c: Candidate, s: seq<Candidate>): seq<Candidate> {
    if s == [] || Priority(c) >= Priority(s[0]) then [c] + s else [s[0]] + Insert(c, s[1..])
  }

  /** `sort.SliceStable` by decreasing priority. */
  function Sorted(s: seq<Candidate>): seq<Candidate> { if s == [] then [] else Insert(s[0], Sorted(s[1..])) }

  function OfPriority(s: seq<Candidate>, p: int): seq<Candidate> {
    if s == [] then [] else (if Priority(s[0]) == p then [s[0]] else []) + OfPriority(s[1..], p)
  }

  lemma {:induction false} InsertMembers(c: Candidate, s: seq<Candidate>)
    ensures multiset(Insert(c, s)) == multiset{c} + multiset(s)
    ensures forall i | 0 <= i < |Insert(c, s)| :: Insert(c, s)[i] == c || Insert(c, s)[i] in s
  {
    if s != [] && Priority(c) < Priority(s[0]) {
      InsertMembers(c, s[1..]);
      assert s == [s[0]] + s[1..];
    }
  }

  lemma {:induction false} InsertOrders(c: Candidate, s: seq<Candidate>)
    requires Descending(s)
    ensures Descending(Insert(c, s))
  {
    if s != [] && Priority(c) < Priority(s[0]) {
      var rest := Insert(c, s[1..]);
      InsertOrders(c, s[1..]);
      InsertMembers(c, s[1..]);
      forall i | 0 <= i < |rest|
        ensures Priority(s[0]) >= Priority(rest[i])
      {
        assert rest[i] == c || rest[i] in s[1..];
      }
    }
  }

  lemma OfPriorityCons(c: Candidate, s: seq<Candidate>, p: int)
    ensures OfPriority([c] + s, p) == (if Priority(c) == p then [c] else []) + OfPriority(s, p)
  {
    assert ([c] + s)[1..] == s;
  }

  lemma {:induction false} InsertStable(c: Candidate, s: seq<Candidate>, p: int)
    ensures OfPriority(Insert(c, s), p) == (if Priority(c) == p then [c] else []) + OfPriority(s, p)
  {
    hide OfPriority;
    OfPriorityCons(c, s, p);
    if s != [] && Priority(c) < Priority(s[0]) {
      InsertStable(c, s[1..], p);
      OfPriorityCons(s[0], Insert(c, s[1..]), p);
      OfPriorityCons(s[0], s[1..], p);
      assert s == [s[0]] + s[1..];
      assert Priority(c) == p ==> [] + OfPriority(s[1..], p) == OfPriority(s[1..], p);
    }
  }

  /** The sort permutes, orders, and keeps the order of candidates of equal priority. */
  lemma {:induction false} SortedSpec(s: seq<Candidate>, p: int)
    ensures Descending(Sorted(s)) && multiset(Sorted(s)) == multiset(s)
    ensures OfPriority(Sorted(s), p) == OfPriority(s, p)
  {
    if s != [] {
      SortedSpec(s[1..], p);
      InsertOrders(s[0], Sorted(s[1..]));
      InsertMembers(s[0], Sorted(s[1..]));
      InsertStable(s[0], Sorted(s[1..]), p);
      assert s == [s[0]] + s[1..];
    }
  }

  lemma OfPriorityMembers(s: seq<Candidate>, p: int)
    ensures forall c :: c in OfPriority(s, p) <==> c in s && Priority(c) == p
  {}

  lemma NoneMissing(a: seq<Candidate>, b: seq<Candidate>)
    requires a != [] && forall p :: OfPriority(a, p) == OfPriority(b, p)
    ensures b != []
  {
    OfPriorityMembers(a, Priority(a[0]));
    OfPriorityMembers(b, Priority(a[0]));
    assert a[0] in OfPriority(b, Priority(a[0]));
  }

  lemma SamePrefix<T>(head: seq<T>, a: seq<T>, b: seq<T>)
    requires head + a == head + b
    ensures a == b
  {
    assert a == (head + a)[|head|..] && b == (head + b)[|head|..];
  }

  /** Two descending lists with the same candidates of each priority, in the same order, are the same list. */
  lemma {:induction false} DescendingUnique(a: seq<Candidate>, b: seq<Candidate>)
    requires Descending(a) && Descending(b) && forall p :: OfPriority(a, p) == OfPriority(b, p)
    ensures a == b
  {
    if a != [] {
      NoneMissing(a, b);
    }
    if b != [] {
      NoneMissing(b, a);
    }
    if a != [] && b != [] {
      var p, q := Priority(a[0]), Priority(b[0]);
      OfPriorityMembers(a, p);
      OfPriorityMembers(b, p);
      OfPriorityMembers(a, q);
      OfPriorityMembers(b, q);
      assert a[0] in OfPriority(b, p) && b[0] in OfPriority(a, q);
      assert p == q && OfPriority(a, p)[0] == a[0] && OfPriority(b, p)[0] == b[0];
      hide OfPriority;
      forall r
        ensures OfPriority(a[1..], r) == OfPriority(b[1..], r)
      {
        OfPriorityCons(a[0], a[1..], r);
        OfPriorityCons(b[0], b[1..], r);
        assert a == [a[0]] + a[1..] && b == [b[0]] + b[1..];
        var head := if p == r then [a[0]] else [];
        SamePrefix(head, OfPriority(a[1..], r), OfPriority(b[1..], r));
      }
      DescendingUnique(a[1..], b[1..]);
    }
  }

  /** Nothing but the stable sort orders the candidates and keeps the order within each priority. */
  lemma SortedIsOnly(s: seq<Candidate>, t: seq<Candidate>)
    requires Descending(t) && forall p :: OfPriority(t, p) == OfPriority(s, p)
    ensures t == Sorted(s)
  {
    forall p
      ensures OfPriority(Sorted(s), p) == OfPriority(s, p)
    {
      SortedSpec(s, p);
    }
    SortedSpec(s, 0);
    DescendingUnique(t, Sorted(s));
  }

  // ---------------------------------------------------------------- priority buckets

  function RunLength(s: seq<Candidate>): (n: nat)
    requires s != []
    ensures 1 <= n <= |s|
    ensures forall i | 0 <= i < n :: Priority(s[i]) == Priority(s[0])
    ensures n < |s| ==> Priority(s[n]) != Priority(s[0])
  {
    if |s| > 1 && Priority(s[1]) == Priority(s[0]) then
      var n := RunLength(s[1..]);
      assert forall i | 1 <= i < n + 1 :: s[i] == s[1..][i - 1];
      n + 1
    else 1
  }

  /** Shuffles each run of equal priority with its own random numbers. */
  function Arranged(s: seq<Candidate>, draw: nat -> nat -> nat, bucket: nat): seq<Candidate>
    decreases |s|
  {
    if s == [] then []
    else
      var n := RunLength(s);
      Shuffled(s[..n], draw(bucket), 0) + Arranged(s[n..], draw, bucket + 1)
  }

  predicate Ordered(s: seq<Candidate>) {
    && Descending(s)
    && (NonNegative(s) ==>
          forall i, j | 0 <= i < j < |s| && Priority(s[i]) == Priority(s[j]) && s[i].channel.weight == 0 :: s[j].channel.weight == 0)
  }

  lemma FromMultiset(a: seq<Candidate>, b: seq<Candidate>)
    requires multiset(a) == multiset(b)
    ensures |a| == |b| && (forall x :: x in a <==> x in b) && (NonNegative(a) <==> NonNegative(b))
  {
    assert |multiset(a)| == |a| && |multiset(b)| == |b|;
    assert forall x :: x in a <==> x in multiset(a);
    assert forall x :: x in b <==> x in multiset(b);
    if NonNegative(b) {
      assert forall x | x in b :: x.channel.weight >= 0;
    }
    if NonNegative(a) {
      assert forall x | x in a :: x.channel.weight >= 0;
    }
  }

  lemma {:induction false} ArrangedPermutes(s: seq<Candidate>, draw: nat -> nat -> nat, bucket: nat)
    ensures multiset(Arranged(s, draw, bucket)) == multiset(s)
    decreases |s|
  {
    hide Shuffled;
    if s != [] {
      var n := RunLength(s);
      assert s == s[..n] + s[n..];
      ShuffledPermutes(s[..n], draw(bucket), 0);
      ArrangedPermutes(s[n..], draw, bucket + 1);
    }
  }

  /** Descending priority, and no candidate with weight behind one without weight of its own priority. */
  lemma {:induction false} ArrangedOrders(s: seq<Candidate>, draw: nat -> nat -> nat, bucket: nat)
    requires Descending(s)
    ensures Ordered(Arranged(s, draw, bucket))
    decreases |s|
  {
    hide Shuffled, WeightlessLast, Ordered, NonNegative;
    if s == [] {
      NothingOrdered();
    } else {
      var n := RunLength(s);
      var a, b := Shuffled(s[..n], draw(bucket), 0), Arranged(s[n..], draw, bucket + 1);
      assert s == s[..n] + s[n..];
      ShuffledPermutes(s[..n], draw(bucket), 0);
      ArrangedPermutes(s[n..], draw, bucket + 1);
      ArrangedOrders(s[n..], draw, bucket + 1);
      FromMultiset(a, s[..n]);
      FromMultiset(b, s[n..]);
      FromMultiset(a + b, s);
      if NonNegative(s) {
        NonNegativePrefix(s[..n], s[n..]);
        ShuffledWeightlessLast(s[..n], draw(bucket), 0);
      }
      RunsJoin(a, b, Priority(s[0]));
    }
  }

  lemma NonNegativePrefix(a: seq<Candidate>, b: seq<Candidate>)
    requires NonNegative(a + b)
    ensures NonNegative(a)
  {
    forall i | 0 <= i < |a|
      ensures a[i].channel.weight >= 0
    {
      assert (a + b)[i] == a[i];
    }
  }

  lemma NothingOrdered()
    ensures Ordered([])
  {}

  lemma RunsJoin(a: seq<Candidate>, b: seq<Candidate>, p: int)
    requires forall x | x in a :: Priority(x) == p
    requires Ordered(b) && forall x | x in b :: Priority(x) < p
    requires NonNegative(a + b) ==> WeightlessLast(a)
    ensures Ordered(a + b)
  {
    var s := a + b;
    forall i | 0 <= i < |s|
      ensures i < |a| ==> s[i] in a
      ensures i >= |a| ==> s[i] in b && s[i] == b[i - |a|]
    {}
    if NonNegative(s) {
      forall i | 0 <= i < |b|
        ensures b[i].channel.weight >= 0
      {
        assert s[|a| + i] == b[i];
      }
    }
  }

  lemma {:induction false} RunLengthIs(s: seq<Candidate>, n: nat)
    requires 1 <= n <= |s| && forall i | 0 <= i < n :: Priority(s[i]) == Priority(s[0])
    requires n < |s| ==> Priority(s[n]) != Priority(s[0])
    ensures RunLength(s) == n
  {
    if n > 1 {
      RunLengthIs(s[1..], n - 1);
    }
  }

  lemma FlushStep(bucket: seq<Candidate>, rest: seq<Candidate>, draw: nat -> nat -> nat, b: nat)
    requires bucket != [] && forall i | 0 <= i < |bucket| :: Priority(bucket[i]) == Priority(bucket[0])
    requires rest != [] ==> Priority(rest[0]) != Priority(bucket[0])
    ensures Arranged(bucket + rest, draw, b) == Shuffled(bucket, draw(b), 0) + Arranged(rest, draw, b + 1)
  {
    var s := bucket + rest;
    RunLengthIs(s, |bucket|);
    assert s[..|bucket|] == bucket && s[|bucket|..] == rest;
  }

  /** Collects runs of equal priority in one reused bucket and flushes it when the priority changes. */
  method ArrangeBuckets(candidates: seq<Candidate>, draw: nat -> nat -> nat) returns (out: seq<Candidate>)
    ensures out == Arranged(candidates, draw, 0)
  {
    hide Shuffled, Arranged;
    out := [];
    if candidates == [] {
      ArrangedNothing(draw, 0);
      return;
    }
    var bucket: seq<Candidate> := [];
    var b := 0;
    var currentPriority := candidates[0].channel.priority;
    var i := 0;
    assert bucket + candidates[i..] == candidates;
    while i < |candidates|
      invariant 0 <= i <= |candidates| && (i == 0 || bucket != [])
      invariant forall j | 0 <= j < |bucket| :: Priority(bucket[j]) == currentPriority
      invariant i == 0 ==> bucket == [] && currentPriority == Priority(candidates[0])
      invariant out + Arranged(bucket + candidates[i..], draw, b) == Arranged(candidates, draw, 0)
    {
      var c := candidates[i];
      assert candidates[i..] == [c] + candidates[i + 1..];
      if c.channel.priority != currentPriority {
        FlushStep(bucket, candidates[i..], draw, b);
        var shuffled := WeightedShuffle(bucket, draw(b));
        assert out + (shuffled + Arranged(candidates[i..], draw, b + 1)) == out + shuffled + Arranged(candidates[i..], draw, b + 1);
        out := out + shuffled;
        bucket := [];
        b := b + 1;
        currentPriority := c.channel.priority;
        assert [] + candidates[i..] == candidates[i..];
      }
      assert bucket + candidates[i..] == bucket + [c] + candidates[i + 1..];
      bucket := bucket + [c];
      i := i + 1;
    }
    assert candidates[i..] == [];
    FlushStep(bucket, [], draw, b);
    ArrangedNothing(draw, b + 1);
    var shuffled := WeightedShuffle(bucket, draw(b));
    assert bucket + [] == bucket && shuffled + [] == shuffled;
    out := out + shuffled;
  }

  lemma ArrangedNothing(draw: nat -> nat -> nat, b: nat)
    ensures Arranged([], draw, b) == []
  {}

  // ---------------------------------------------------------------- the candidates of one group

  /** What the index and the active channels give for a group and a model. */
  ghost function Selectable(channels: map<int, Channel>, abilities: Index, group: string, model: string, allowed: Option<set<int>>): set<int> {
    set id | id in channels && channels[id].status == ACTIVE && (group, model, id) in abilities
             && abilities[(group, model, id)].enabled && (allowed.None? || id in allowed.value)
  }

  /** What reading every channel would give. */
  function Scanned(channels: map<int, Channel>, group: string, model: string, allowed: Option<set<int>>): set<int> {
    set id | id in channels && channels[id].status == ACTIVE && Serves(channels[id], group, model)
             && (allowed.None? || id in allowed.value)
  }

  function MappedModel(ch: Channel, model: string): string {
    if ch.mapping.Decoded? && model in ch.mapping.targets then ch.mapping.targets[model] else model
  }

  function CandidateOf(ch: Channel, row: Row, model: string): Candidate {
    Candidate(ch.(priority := row.priority, weight := row.weight), MappedModel(ch, model))
  }

  predicate DistinctIds(s: seq<Candidate>) {
    forall i, j | 0 <= i < j < |s| :: s[i].channel.id != s[j].channel.id
  }

  /** Every selectable channel exactly once, in some order. */
  ghost predicate Lists(cands: seq<Candidate>, channels: map<int, Channel>, abilities: Index, group: string, model: string, allowed: Option<set<int>>) {
    && DistinctIds(cands)
    && (forall i | 0 <= i < |cands| :: cands[i].channel.id in Selectable(channels, abilities, group, model, allowed))
    && (forall id | id in Selectable(channels, abilities, group, model, allowed) ::
          CandidateOf(channels[id], abilities[(group, model, id)], model) in cands)
  }

  /** An active, allowed channel at its enabled row's priority and weight, with its mapping's name for the model if it has one. */
  predicate IsCandidate(c: Candidate, ch: Channel, row: Row, model: string, allowed: Option<set<int>>) {
    && ch.status == 1 && row.enabled && (allowed.None? || ch.id in allowed.value)
    && c.channel == ch.(priority := row.priority, weight := row.weight)
    && c.model == if ch.mapping.Decoded? && model in ch.mapping.targets then ch.mapping.targets[model] else model
  }

  /** The order in which rows come back from the database is arbitrary. */
  method ListCandidates(channels: map<int, Channel>, abilities: Index, group: string, model: string, allowed: Option<set<int>>)
    returns (cands: seq<Candidate>)
    requires forall id | id in channels :: channels[id].id == id
    ensures Lists(cands, channels, abilities, group, model, allowed)
  {
    var rows := set k | k in abilities && k.0 == group && k.1 == model && abilities[k].enabled :: k.2;
    var channelIds := set id | id in rows && (allowed.None? || id in allowed.value);
    var rest := set id | id in channels && id in channelIds && channels[id].status == ACTIVE;
    EnabledRows(abilities, group, model, rows);
    cands := [];
    while rest != {}
      invariant rest <= Selectable(channels, abilities, group, model, allowed)
      invariant DistinctIds(cands)
      invariant forall i | 0 <= i < |cands| :: cands[i].channel.id !in rest && cands[i].channel.id in Selectable(channels, abilities, group, model, allowed)
      invariant forall id | id in Selectable(channels, abilities, group, model, allowed) && id !in rest ::
                  CandidateOf(channels[id], abilities[(group, model, id)], model) in cands
      decreases |rest|
    {
      ghost var some := Pick(rest);
      var id :| id in rest;
      rest := rest - {id};
      var ch := channels[id];
      var mappedModel := model;
      if ch.mapping.Decoded? {
        if model in ch.mapping.targets {
          mappedModel := ch.mapping.targets[model];
        }
      }
      var row := abilities[(group, model, id)];
      cands := cands + [Candidate(ch.(priority := row.priority, weight := row.weight), mappedModel)];
    }
  }

  /** What a listing holds, in terms of the rows: the active and allowed channels with an enabled row, each once, and nothing else. */
  lemma ListsMeans(cands: seq<Candidate>, channels: map<int, Channel>, abilities: Index, group: string, model: string, allowed: Option<set<int>>)
    requires Lists(cands, channels, abilities, group, model, allowed) && forall id | id in channels :: channels[id].id == id
    ensures forall i | 0 <= i < |cands| ::
              && cands[i].channel.id in channels && (group, model, cands[i].channel.id) in abilities
              && IsCandidate(cands[i], channels[cands[i].channel.id], abilities[(group, model, cands[i].channel.id)], model, allowed)
    ensures forall id | id in channels && channels[id].status == 1 && (group, model, id) in abilities
                        && abilities[(group, model, id)].enabled && (allowed.None? || id in allowed.value) ::
              exists i :: 0 <= i < |cands| && cands[i].channel.id == id
    ensures forall i, j | 0 <= i < j < |cands| :: cands[i].channel.id != cands[j].channel.id
  {
    forall id | id in Selectable(channels, abilities, group, model, allowed)
      ensures exists i :: 0 <= i < |cands| && cands[i].channel.id == id && cands[i] == CandidateOf(channels[id], abilities[(group, model, id)], model)
    {
      var c := CandidateOf(channels[id], abilities[(group, model, id)], model);
      var i :| 0 <= i < |cands| && cands[i] == c;
    }
    forall i | 0 <= i < |cands|
      ensures cands[i].channel.id in Selectable(channels, abilities, group, model, allowed)
      ensures cands[i] == CandidateOf(channels[cands[i].channel.id], abilities[(group, model, cands[i].channel.id)], model)
    {
      var id := cands[i].channel.id;
      var j :| 0 <= j < |cands| && cands[j].channel.id == id && cands[j] == CandidateOf(channels[id], abilities[(group, model, id)], model);
      assert DistinctIds(cands) ==> i == j;
    }
  }

  lemma EnabledRows(abilities: Index, group: string, model: string, rows: set<int>)
    requires rows == set k | k in abilities && k.0 == group && k.1 == model && abilities[k].enabled :: k.2
    ensures forall id :: id in rows <==> (group, model, id) in abilities && abilities[(group, model, id)].enabled
  {
    forall id | (group, model, id) in abilities && abilities[(group, model, id)].enabled
      ensures id in rows
    {
      var k := (group, model, id);
      assert k in abilities && k.2 == id;
    }
  }

  predicate Listed(abilities: Index, channels: map<int, Channel>, group: string, model: string, id: int) {
    id in channels && (group, model, id) in abilities && abilities[(group, model, id)] == RowOf(channels[id])
  }

  /** Looking up the index never finds a channel a scan would not, nor a stale row, and misses none whose pairs do not collide. */
  lemma LookupIsSound(abilities: Index, channels: map<int, Channel>, group: string, model: string, allowed: Option<set<int>>)
    requires Tracks(abilities, channels)
    ensures forall id | id in Selectable(channels, abilities, group, model, allowed) ::
              id in Scanned(channels, group, model, allowed) && Listed(abilities, channels, group, model, id)
    ensures forall id | id in Scanned(channels, group, model, allowed) && CollisionFree(channels[id]) ::
              id in Selectable(channels, abilities, group, model, allowed)
  {
    hide Serves, CollisionFree;
    var found, scanned := Selectable(channels, abilities, group, model, allowed), Scanned(channels, group, model, allowed);
    forall id | id in found
      ensures id in scanned
      ensures Listed(abilities, channels, group, model, id)
    {
      assert TracksAt(abilities, Lookup(channels, id), id);
    }
    forall id | id in scanned && CollisionFree(channels[id])
      ensures id in found
    {
      assert TracksAt(abilities, Lookup(channels, id), id);
    }
  }

  ghost predicate FindsAll(abilities: Index, channels: map<int, Channel>) {
    forall group, model :: Selectable(channels, abilities, group, model, None) == Scanned(channels, group, model, None)
  }

  /** For every group and model the index finds exactly what a full scan would, if and only if no active channel's pairs collide. */
  lemma IndexFindsWhatScanFinds(abilities: Index, channels: map<int, Channel>)
    requires Tracks(abilities, channels)
    ensures FindsAll(abilities, channels) <==> forall id | id in channels && channels[id].status == ACTIVE :: CollisionFree(channels[id])
  {
    hide Serves, CollisionFree;
    if FindsAll(abilities, channels) {
      forall id | id in channels && channels[id].status == ACTIVE
        ensures CollisionFree(channels[id])
      {
        assert TracksAt(abilities, Lookup(channels, id), id);
        forall g, m | Serves(channels[id], g, m)
          ensures (g, m, id) in abilities
        {
          assert id in Scanned(channels, g, m, None);
          assert id in Selectable(channels, abilities, g, m, None);
        }
      }
    }
    if forall id | id in channels && channels[id].status == ACTIVE :: CollisionFree(channels[id]) {
      forall group, model
        ensures Selectable(channels, abilities, group, model, None) == Scanned(channels, group, model, None)
      {
        LookupIsSound(abilities, channels, group, model, None);
        forall id | id in channels
          ensures id in Selectable(channels, abilities, group, model, None) <==> id in Scanned(channels, group, model, None)
        {
          assert channels[id].status == ACTIVE ==> CollisionFree(channels[id]);
        }
      }
    }
  }

  /** The listed candidates are scanned channels exactly as their rows stand, each once; none is missing unless its pairs collide. */
  lemma ListingIsScan(cands: seq<Candidate>, abilities: Index, channels: map<int, Channel>, group: string, model: string, allowed: Option<set<int>>)
    requires Tracks(abilities, channels) && (forall id | id in channels :: channels[id].id == id)
    requires Lists(cands, channels, abilities, group, model, allowed)
    ensures forall i | 0 <= i < |cands| :: cands[i].channel.id in Scanned(channels, group, model, allowed)
              && cands[i] == Unchanged(channels[cands[i].channel.id], model)
    ensures forall id | id in Scanned(channels, group, model, allowed) && CollisionFree(channels[id]) ::
              Unchanged(channels[id], model) in cands
  {
    hide Serves, MappedModel, Selectable, Scanned, CollisionFree, Tracks;
    LookupIsSound(abilities, channels, group, model, allowed);
    forall id | id in Selectable(channels, abilities, group, model, allowed)
      ensures exists i :: 0 <= i < |cands| && cands[i].channel.id == id && cands[i] == Unchanged(channels[id], model)
    {
      var c := CandidateOf(channels[id], abilities[(group, model, id)], model);
      assert c in cands && c == Unchanged(channels[id], model);
    }
    forall i | 0 <= i < |cands|
      ensures cands[i] == Unchanged(channels[cands[i].channel.id], model)
    {
      var id := cands[i].channel.id;
      assert id in Selectable(channels, abilities, group, model, allowed);
      var j :| 0 <= j < |cands| && cands[j].channel.id == id && cands[j] == Unchanged(channels[id], model);
      assert DistinctIds(cands) ==> i == j;
    }
  }

  /** A candidate exactly as its channel row stands. */
  function Unchanged(ch: Channel, model: string): Candidate { Candidate(ch, MappedModel(ch, model)) }

  function ChannelsOf(s: seq<Candidate>): (r: seq<Channel>)
    ensures |r| == |s|
  {
    seq(|s|, i requires 0 <= i < |s| => s[i].channel)
  }

  function ModelsOf(s: seq<Candidate>): (r: seq<string>)
    ensures |r| == |s|
  {
    seq(|s|, i requires 0 <= i < |s| => s[i].model)
  }

  /** A listing sorted by priority and shuffled within each priority. */
  function InOrder(listing: seq<Candidate>, draw: nat -> nat -> nat): seq<Candidate> { Arranged(Sorted(listing), draw, 0) }

  ghost predicate Chosen(chosen: seq<Channel>, models: seq<string>, channels: map<int, Channel>, abilities: Index,
                         group: string, model: string, allowed: Option<set<int>>, draw: nat -> nat -> nat) {
    exists listing ::
      Lists(listing, channels, abilities, group, model, allowed)
      && chosen == ChannelsOf(InOrder(listing, draw)) && models == ModelsOf(InOrder(listing, draw))
  }

  method SelectForGroup(channels: map<int, Channel>, abilities: Index, group: string, model: string, allowed: Option<set<int>>,
                        draw: nat -> nat -> nat)
    returns (chosen: seq<Channel>, models: seq<string>)
    requires forall id | id in channels :: channels[id].id == id
    ensures Chosen(chosen, models, channels, abilities, group, model, allowed, draw)
  {
    hide Shuffled, Arranged, Sorted, Lists, ChannelsOf, ModelsOf;
    var cands := ListCandidates(channels, abilities, group, model, allowed);
    var sorted := Sorted(cands);
    var arranged := ArrangeBuckets(sorted, draw);
    assert arranged == InOrder(cands, draw);
    return ChannelsOf(arranged), ModelsOf(arranged);
  }

  /** Whatever the draws: every selectable channel once with its mapped model beside it, priorities descending, weightless last. */
  lemma ChosenIsListedInOrder(chosen: seq<Channel>, models: seq<string>, channels: map<int, Channel>, abilities: Index,
                              group: string, model: string, allowed: Option<set<int>>, draw: nat -> nat -> nat)
    requires Chosen(chosen, models, channels, abilities, group, model, allowed, draw)
    ensures exists order :: Lists(order, channels, abilities, group, model, allowed) && Ordered(order)
                            && chosen == ChannelsOf(order) && models == ModelsOf(order)
  {
    hide Shuffled, Arranged, Sorted, Ordered, Lists, ChannelsOf, ModelsOf;
    var listing :| Lists(listing, channels, abilities, group, model, allowed)
      && chosen == ChannelsOf(InOrder(listing, draw)) && models == ModelsOf(InOrder(listing, draw));
    SortedSpec(listing, 0);
    ArrangedPermutes(Sorted(listing), draw, 0);
    ArrangedOrders(Sorted(listing), draw, 0);
    ListsPermuted(listing, InOrder(listing, draw), channels, abilities, group, model, allowed);
  }

  lemma ListsPermuted(a: seq<Candidate>, b: seq<Candidate>, channels: map<int, Channel>, abilities: Index,
                      group: string, model: string, allowed: Option<set<int>>)
    requires Lists(a, channels, abilities, group, model, allowed) && multiset(a) == multiset(b)
    ensures Lists(b, channels, abilities, group, model, allowed)
  {
    hide Selectable, CandidateOf, DistinctIds;
    DistinctPermuted(a, b);
    SameMembers(a, b);
  }

  lemma SameMembers(a: seq<Candidate>, b: seq<Candidate>)
    requires multiset(a) == multiset(b)
    ensures forall x | x in a :: x in b
    ensures forall i | 0 <= i < |b| :: exists j :: 0 <= j < |a| && a[j] == b[i]
  {
    FromMultiset(a, b);
    forall i | 0 <= i < |b|
      ensures exists j :: 0 <= j < |a| && a[j] == b[i]
    {
      assert b[i] in b && b[i] in a;
    }
  }

  lemma DistinctPermuted(a: seq<Candidate>, b: seq<Candidate>)
    requires DistinctIds(a) && multiset(a) == multiset(b)
    ensures DistinctIds(b)
  {
    FromMultiset(a, b);
    forall i, j | 0 <= i < j < |b|
      ensures b[i].channel.id != b[j].channel.id
    {
      assert b[i] in b && b[j] in b && b[i] in a && b[j] in a;
      var k :| 0 <= k < |a| && a[k] == b[i];
      var l :| 0 <= l < |a| && a[l] == b[j];
      if k == l {
        TwiceInMultiset(b, i, j);
        OnceInMultiset(a, b[i]);
      }
    }
  }

  lemma TwiceInMultiset(s: seq<Candidate>, i: nat, j: nat)
    requires i < j < |s| && s[i] == s[j]
    ensures multiset(s)[s[i]] >= 2
  {
    assert s == s[..j] + [s[j]] + s[j + 1..];
    assert s[..j][i] == s[i];
  }

  lemma {:induction false} OnceInMultiset(s: seq<Candidate>, c: Candidate)
    requires DistinctIds(s)
    ensures multiset(s)[c] <= 1
    decreases |s|
  {
    if s != [] {
      OnceInMultiset(s[1..], c);
      assert s == [s[0]] + s[1..];
    }
  }

  // ---------------------------------------------------------------- groups in turn

  /** One entry of the three parallel result slices. */
  datatype Choice = Choice(channel: Option<Channel>, model: string, group: string)

  /** A group's own selection. */
  datatype Selection = Selection(channels: seq<Channel>, models: seq<string>)

  predicate Parallel(sel: Selection) { |sel.channels| == |sel.models| }

  function Choices(sel: Selection, group: string): (r: seq<Choice>)
    requires Parallel(sel)
    ensures |r| == |sel.channels|
  {
    seq(|sel.channels|, i requires 0 <= i < |sel.channels| => Choice(Some(sel.channels[i]), sel.models[i], group))
  }

  /** All groups' choices one after the other, or only those of the first group that has any. */
  function Gathered(groups: seq<string>, pick: string -> Selection, across: bool): seq<Choice>
    requires forall g :: Parallel(pick(g))
  {
    if groups == [] then []
    else
      var here := Choices(pick(groups[0]), groups[0]);
      if here != [] && !across then here else here + Gathered(groups[1..], pick, across)
  }

  function Zip(channels: seq<Option<Channel>>, models: seq<string>, groups: seq<string>): (r: seq<Choice>)
    requires |channels| == |models| == |groups|
    ensures |r| == |channels|
  {
    seq(|channels|, i requires 0 <= i < |channels| => Choice(channels[i], models[i], groups[i]))
  }

  /** The groups to try: the requested one, or the user's automatic groups. */
  function ToTry(usingGroup: string, autoGroups: seq<string>): seq<string> {
    if usingGroup == "auto" then autoGroups else [usingGroup]
  }

  method SelectChannel(usingGroup: string, autoGroups: seq<string>, crossGroupRetry: bool, pick: string -> Selection)
    returns (ok: bool, channels: seq<Option<Channel>>, models: seq<string>, groups: seq<string>)
    requires forall g :: Parallel(pick(g))
    ensures |channels| == |models| == |groups|
    ensures var all := Gathered(ToTry(usingGroup, autoGroups), pick, usingGroup == "auto" && crossGroupRetry);
            ok == (all != []) && Zip(channels, models, groups) == all
    ensures forall i | 0 <= i < |groups| :: if usingGroup == "auto" then groups[i] in autoGroups else groups[i] == usingGroup
  {
    channels, models, groups := [], [], [];
    if usingGroup == "auto" && |autoGroups| == 0 {
      return false, channels, models, groups;
    }
    var toTry := if usingGroup == "auto" then autoGroups else [usingGroup];
    ghost var across := usingGroup == "auto" && crossGroupRetry;
    assert toTry == ToTry(usingGroup, autoGroups);
    hide Gathered, Choices, Zip, Wrapped, Repeated, ToTry, Parallel;
    var i := 0;
    ZipNothing();
    assert toTry[i..] == toTry && [] + Gathered(toTry, pick, across) == Gathered(toTry, pick, across);
    while i < |toTry|
      invariant 0 <= i <= |toTry| && |channels| == |models| == |groups|
      invariant channels == [] || across
      invariant forall j | 0 <= j < |groups| :: groups[j] in toTry
      invariant Zip(channels, models, groups) + Gathered(toTry[i..], pick, across) == Gathered(toTry, pick, across)
    {
      var g := toTry[i];
      var sel := pick(g);
      assert toTry[i..][1..] == toTry[i + 1..];
      GatheredStep(Zip(channels, models, groups), toTry[i..], pick, across);
      if |sel.channels| != 0 {
        ZipAppend(channels, models, groups, sel, g);
        channels := channels + Wrapped(sel.channels);
        models := models + sel.models;
        groups := groups + Repeated(g, |sel.channels|);
        if usingGroup != "auto" || !crossGroupRetry {
          return true, channels, models, groups;
        }
      } else {
        assert Choices(sel, g) == [];
        assert Zip(channels, models, groups) + [] == Zip(channels, models, groups);
      }
      i := i + 1;
    }
    GatheredNothing(pick, across);
    assert toTry[i..] == [] && Zip(channels, models, groups) + [] == Zip(channels, models, groups);
    ok := |channels| != 0;
  }

  function Repeated(g: string, n: nat): (r: seq<string>)
    ensures |r| == n && forall i | 0 <= i < n :: r[i] == g
  {
    seq(n, _ => g)
  }

  lemma ZipNothing()
    ensures Zip([], [], []) == []
  {}

  lemma GatheredNothing(pick: string -> Selection, across: bool)
    requires forall g :: Parallel(pick(g))
    ensures Gathered([], pick, across) == []
  {}

  lemma ZipAppend(channels: seq<Option<Channel>>, models: seq<string>, groups: seq<string>, sel: Selection, g: string)
    requires |channels| == |models| == |groups| && Parallel(sel)
    ensures Zip(channels + Wrapped(sel.channels), models + sel.models, groups + Repeated(g, |sel.channels|))
         == Zip(channels, models, groups) + Choices(sel, g)
  {}

  lemma GatheredStep(before: seq<Choice>, groups: seq<string>, pick: string -> Selection, across: bool)
    requires (forall g :: Parallel(pick(g))) && groups != []
    ensures before + Gathered(groups, pick, across)
         == if Choices(pick(groups[0]), groups[0]) != [] && !across then before + Choices(pick(groups[0]), groups[0])
            else before + Choices(pick(groups[0]), groups[0]) + Gathered(groups[1..], pick, across)
  {}

  function Wrapped(s: seq<Channel>): (r: seq<Option<Channel>>)
    ensures |r| == |s|
  {
    seq(|s|, i requires 0 <= i < |s| => Some(s[i]))
  }

  /** Every choice is one its own group selected, with the model mapped for it, and groups come in the order tried. */
  lemma {:induction false} ChoicesStayTogether(groups: seq<string>, pick: string -> Selection, across: bool, k: nat)
    requires (forall g :: Parallel(pick(g))) && k < |Gathered(groups, pick, across)|
    ensures var c := Gathered(groups, pick, across)[k];
            && c.group in groups
            && exists i :: 0 <= i < |pick(c.group).channels| && c == Choice(Some(pick(c.group).channels[i]), pick(c.group).models[i], c.group)
  {
    var here := Choices(pick(groups[0]), groups[0]);
    if k < |here| {
      assert Gathered(groups, pick, across)[k] == here[k];
    } else {
      ChoicesStayTogether(groups[1..], pick, across, k - |here|);
    }
  }

  // ---------------------------------------------------------------- automatic groups

  function Usable(auto: seq<string>, usable: set<string>): seq<string> {
    if auto == [] then []
    else Usable(auto[..|auto| - 1], usable) + (if auto[|auto| - 1] in usable then [auto[|auto| - 1]] else [])
  }

  function Described(stored: string -> string, name: string, fallback: string): string {
    if stored(name) == "" then fallback else stored(name)
  }

  /** Public groups, the user's own group, and the groups it unlocks; the first source to name a group describes it. */
  method GetUserUsableGroups(publicGroups: map<string, string>, userGroup: string, grants: seq<string>, stored: string -> string)
    returns (usable: map<string, string>)
    ensures usable.Keys == publicGroups.Keys + (if userGroup == "" then {} else {userGroup} + set g | g in grants)
    ensures forall g | g in publicGroups :: usable[g] == publicGroups[g]
    ensures userGroup != "" && userGroup !in publicGroups ==>
              usable[userGroup] == if stored(userGroup) != "" then stored(userGroup) else "用户分组"
    ensures forall g | userGroup != "" && g in grants && g !in publicGroups && g != userGroup ::
              usable[g] == if stored(g) != "" then stored(g) else "特殊分组"
  {
    usable := publicGroups;
    if userGroup == "" {
      return;
    }
    if userGroup !in usable {
      usable := usable[userGroup := Described(stored, userGroup, "用户分组")];
    }
    var i := 0;
    while i < |grants|
      invariant 0 <= i <= |grants|
      invariant usable.Keys == publicGroups.Keys + {userGroup} + set g | g in grants[..i]
      invariant forall g | g in publicGroups :: usable[g] == publicGroups[g]
      invariant userGroup !in publicGroups ==> usable[userGroup] == if stored(userGroup) != "" then stored(userGroup) else "用户分组"
      invariant forall g | g in grants[..i] && g !in publicGroups && g != userGroup ::
                  usable[g] == if stored(g) != "" then stored(g) else "特殊分组"
    {
      assert grants[..i + 1] == grants[..i] + [grants[i]];
      if grants[i] !in usable {
        usable := usable[grants[i] := Described(stored, grants[i], "特殊分组")];
      }
      i := i + 1;
    }
    assert grants[..i] == grants;
  }

  method GetUserAutoGroup(auto: seq<string>, usable: map<string, string>) returns (result: seq<string>)
    ensures result == Usable(auto, usable.Keys)
  {
    result := [];
    var i := 0;
    while i < |auto|
      invariant 0 <= i <= |auto| && result == Usable(auto[..i], usable.Keys)
    {
      assert auto[..i + 1][..i] == auto[..i];
      if auto[i] in usable {
        result := result + [auto[i]];
      }
      i := i + 1;
    }
    assert auto[..i] == auto;
  }

  /** Where each kept group stands in the configured list. */
  function KeptAt(auto: seq<string>, usable: set<string>): (at: seq<nat>)
    ensures forall i | 0 <= i < |at| :: at[i] < |auto|
  {
    if auto == [] then []
    else
      var n := |auto| - 1;
      KeptAt(auto[..n], usable) + (if auto[n] in usable then [n] else [])
  }

  lemma {:induction false} KeptAtOrdered(auto: seq<string>, usable: set<string>)
    ensures var at := KeptAt(auto, usable);
            && |at| == |Usable(auto, usable)|
            && (forall i | 0 <= i < |at| :: Usable(auto, usable)[i] == auto[at[i]])
            && (forall i, j | 0 <= i < j < |at| :: at[i] < at[j])
  {
    if auto != [] {
      var n := |auto| - 1;
      KeptAtOrdered(auto[..n], usable);
      assert forall i | 0 <= i < |KeptAt(auto[..n], usable)| :: auto[..n][KeptAt(auto[..n], usable)[i]] == auto[KeptAt(auto[..n], usable)[i]];
    }
  }

  lemma {:induction false} KeptAtComplete(auto: seq<string>, usable: set<string>, k: nat)
    requires k < |auto|
    ensures k in KeptAt(auto, usable) <==> auto[k] in usable
  {
    var n := |auto| - 1;
    var before := KeptAt(auto[..n], usable);
    assert forall i | 0 <= i < |before| :: before[i] < n;
    if k < n {
      KeptAtComplete(auto[..n], usable, k);
      assert auto[..n][k] == auto[k];
    }
  }

  /** The automatic groups are the configured ones the user may use, all of them, in configured order. */
  lemma AutoGroupsInOrder(auto: seq<string>, usable: set<string>)
    ensures var at := KeptAt(auto, usable); var kept := Usable(auto, usable);
            && |at| == |kept| && (forall i | 0 <= i < |at| :: kept[i] == auto[at[i]])
            && (forall i, j | 0 <= i < j < |at| :: at[i] < at[j])
            && (forall k | 0 <= k < |auto| :: k in at <==> auto[k] in usable)
  {
    KeptAtOrdered(auto, usable);
    forall k | 0 <= k < |auto|
      ensures k in KeptAt(auto, usable) <==> auto[k] in usable
    {
      KeptAtComplete(auto, usable, k);
    }
  }

  // ---------------------------------------------------------------- channel affinity

  predicate Matches(c: Choice, channelId: int) { c.channel.Some? && c.channel.value.id == channelId }

  function FirstMatch(s: seq<Choice>, channelId: int): (i: nat)
    ensures i <= |s| && (forall j | 0 <= j < i :: !Matches(s[j], channelId)) && (i < |s| ==> Matches(s[i], channelId))
  {
    if s == [] || Matches(s[0], channelId) then 0 else 1 + FirstMatch(s[1..], channelId)
  }

  function Favoured(s: seq<Choice>, channelId: int): seq<Choice> {
    var i := FirstMatch(s, channelId);
    if channelId > 0 && i < |s| then [s[i]] + Dropped(s, i) else s
  }

  method PrioritizeAffinityChannel(channels: seq<Option<Channel>>, models: seq<string>, groups: seq<string>, channelId: int)
    returns (newChannels: seq<Option<Channel>>, newModels: seq<string>, newGroups: seq<string>)
    ensures |channels| == |models| == |groups| ==>
              |newChannels| == |newModels| == |newGroups| && Zip(newChannels, newModels, newGroups) == Favoured(Zip(channels, models, groups), channelId)
    ensures !(|channels| == |models| == |groups|) ==> (newChannels, newModels, newGroups) == (channels, models, groups)
  {
    if channelId <= 0 || |channels| <= 1 || |channels| != |models| || |channels| != |groups| {
      if |channels| == |models| == |groups| {
        assert |channels| == 1 && FirstMatch(Zip(channels, models, groups), channelId) == 0 ==>
          [Zip(channels, models, groups)[0]] + Dropped(Zip(channels, models, groups), 0) == Zip(channels, models, groups);
      }
      return channels, models, groups;
    }
    ghost var all := Zip(channels, models, groups);
    var idx := FindChannel(channels, channelId);
    MatchIs(all, channelId, if idx >= 0 then idx else |all|);
    if idx <= 0 {
      assert idx == 0 ==> [all[0]] + Dropped(all, 0) == all;
      return channels, models, groups;
    }
    newChannels, newModels, newGroups := MoveToFront(channels, models, groups, idx);
  }

  method FindChannel(channels: seq<Option<Channel>>, channelId: int) returns (idx: int)
    ensures -1 <= idx < |channels|
    ensures forall j | 0 <= j < (if idx >= 0 then idx else |channels|) :: !(channels[j].Some? && channels[j].value.id == channelId)
    ensures idx >= 0 ==> channels[idx].Some? && channels[idx].value.id == channelId
  {
    idx := -1;
    var i := 0;
    while i < |channels|
      invariant 0 <= i <= |channels|
      invariant forall j | 0 <= j < i :: !(channels[j].Some? && channels[j].value.id == channelId)
    {
      if channels[i].Some? && channels[i].value.id == channelId {
        return i;
      }
      i := i + 1;
    }
  }

  method MoveToFront(channels: seq<Option<Channel>>, models: seq<string>, groups: seq<string>, idx: nat)
    returns (newChannels: seq<Option<Channel>>, newModels: seq<string>, newGroups: seq<string>)
    requires idx < |channels| == |models| == |groups|
    ensures |newChannels| == |newModels| == |newGroups|
    ensures var all := Zip(channels, models, groups); Zip(newChannels, newModels, newGroups) == [all[idx]] + Dropped(all, idx)
  {
    hide Passed;
    ghost var all := Zip(channels, models, groups);
    newChannels, newModels, newGroups := [channels[idx]], [models[idx]], [groups[idx]];
    PassedEnds(all, idx);
    assert Zip(newChannels, newModels, newGroups) == [all[idx]];
    var i := 0;
    while i < |channels|
      invariant 0 <= i <= |channels|
      invariant |newChannels| == |newModels| == |newGroups|
      invariant Zip(newChannels, newModels, newGroups) == [all[idx]] + Passed(all, idx, i)
    {
      PassedStep(all, idx, i);
      if i != idx {
        ghost var before := Zip(newChannels, newModels, newGroups);
        newChannels := newChannels + [channels[i]];
        newModels := newModels + [models[i]];
        newGroups := newGroups + [groups[i]];
        assert Zip(newChannels, newModels, newGroups) == before + [all[i]];
      }
      i := i + 1;
    }
  }

  lemma PassedEnds(s: seq<Choice>, idx: nat)
    requires idx < |s|
    ensures Passed(s, idx, 0) == [] && Passed(s, idx, |s|) == Dropped(s, idx)
  {}

  function Passed(s: seq<Choice>, idx: nat, i: nat): seq<Choice>
    requires idx < |s| && i <= |s|
  {
    if i <= idx then s[..i] else s[..idx] + s[idx + 1..i]
  }

  lemma PassedStep(s: seq<Choice>, idx: nat, i: nat)
    requires idx < |s| && i < |s|
    ensures Passed(s, idx, i + 1) == Passed(s, idx, i) + (if i == idx then [] else [s[i]])
  {}

  lemma MatchIs(s: seq<Choice>, channelId: int, i: nat)
    requires i <= |s| && (forall j | 0 <= j < i :: !Matches(s[j], channelId)) && (i < |s| ==> Matches(s[i], channelId))
    ensures FirstMatch(s, channelId) == i
  {
    var f := FirstMatch(s, channelId);
    assert f < |s| ==> Matches(s[f], channelId);
  }

  /** Position `i` holds the first choice of the channel. */
  predicate FirstAt(s: seq<Choice>, channelId: int, i: nat) {
    i < |s| && Matches(s[i], channelId) && forall j | 0 <= j < i :: !Matches(s[j], channelId)
  }

  /** The affinity step moves the first match, whole, to the head: nothing is lost, and the others keep their order. */
  lemma FavouredPermutes(s: seq<Choice>, channelId: int)
    ensures multiset(Favoured(s, channelId)) == multiset(s)
    ensures forall i: nat | channelId > 0 && FirstAt(s, channelId, i) :: Favoured(s, channelId) == [s[i]] + s[..i] + s[i + 1..]
    ensures channelId > 0 && (exists c :: c in s && Matches(c, channelId)) ==> exists i: nat :: FirstAt(s, channelId, i)
    ensures !(channelId > 0 && (exists c :: c in s && Matches(c, channelId))) ==> Favoured(s, channelId) == s
  {
    var i := FirstMatch(s, channelId);
    if i < |s| {
      assert FirstAt(s, channelId, i);
      assert s == s[..i] + [s[i]] + s[i + 1..];
      assert [s[i]] + Dropped(s, i) == [s[i]] + s[..i] + s[i + 1..];
    }
    forall k: nat | FirstAt(s, channelId, k)
      ensures k == i
    {
      MatchIs(s, channelId, k);
    }
  }
}
