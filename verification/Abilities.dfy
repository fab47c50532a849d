/**
 The ability table: an index from group and model to the channels that serve them, kept beside the
 channel table by every channel operation instead of scanning the channels on each request.
 */
module Abilities {
  import opened Options
  import opened Sums
  import opened Text

  const ACTIVE := 1
  const DISABLED := 2
  const AUTO_DISABLED := 3

  /** The model_mapping column: empty, white space, some text that is no JSON object of strings, or the decoded object. */
  datatype Mapping = Empty | Blank | Undecodable | Decoded(targets: map<string, string>)

  datatype Channel = Channel(id: int, name: string, key: string, group: string, models: string, mapping: Mapping,
                             priority: int, weight: int, status: int, tags: string)

  datatype Ability = Ability(group: string, model: string, channelId: int, enabled: bool, priority: int, weight: int)

  datatype Row = Row(enabled: bool, priority: int, weight: int)

  type Index = map<(string, string, int), Row>

  function SplitTrim(csv: string): seq<string> { TrimAll(Split(csv, ',')) }

  function Groups(ch: Channel): seq<string> {
    if SplitTrim(ch.group) == [] then ["default"] else SplitTrim(ch.group)
  }

  function Models(ch: Channel): set<string> {
    (set m | m in SplitTrim(ch.models))
    + (if ch.mapping.Decoded? then set k | k in ch.mapping.targets && Trim(k) != "" :: Trim(k) else {})
  }

  function RowOf(ch: Channel): Row { Row(ch.status == ACTIVE, ch.priority, ch.weight) }

  function AbilityOf(ch: Channel, g: string, m: string): Ability {
    Ability(g, m, ch.id, ch.status == ACTIVE, ch.priority, ch.weight)
  }

  function SeenKey(g: string, m: string): string { g + "|" + m }

  predicate Serves(ch: Channel, g: string, m: string) { g in Groups(ch) && m in Models(ch) }

  /** What building may return: served pairs only, one per seen-key, and every seen-key present. */
  ghost predicate Built(ch: Channel, rows: seq<Ability>) {
    && (forall i | 0 <= i < |rows| :: Serves(ch, rows[i].group, rows[i].model) && rows[i] == AbilityOf(ch, rows[i].group, rows[i].model))
    && (forall i, j | 0 <= i < j < |rows| :: SeenKey(rows[i].group, rows[i].model) != SeenKey(rows[j].group, rows[j].model))
    && (forall g, m | Serves(ch, g, m) :: exists i :: 0 <= i < |rows| && SeenKey(rows[i].group, rows[i].model) == SeenKey(g, m))
  }

  ghost predicate Complete(ch: Channel, rows: seq<Ability>) {
    forall g, m | Serves(ch, g, m) :: AbilityOf(ch, g, m) in rows
  }

  /** No two served pairs share a seen-key. */
  ghost predicate CollisionFree(ch: Channel) {
    forall g, m, h, n | Serves(ch, g, m) && Serves(ch, h, n) && SeenKey(g, m) == SeenKey(h, n) :: g == h && m == n
  }

  /** The rows so far and the keys seen so far. */
  ghost predicate Partial(ch: Channel, rows: seq<Ability>, seen: set<string>) {
    && (forall i | 0 <= i < |rows| :: Serves(ch, rows[i].group, rows[i].model) && rows[i] == AbilityOf(ch, rows[i].group, rows[i].model))
    && (forall i, j | 0 <= i < j < |rows| :: SeenKey(rows[i].group, rows[i].model) != SeenKey(rows[j].group, rows[j].model))
    && (forall i | 0 <= i < |rows| :: SeenKey(rows[i].group, rows[i].model) in seen)
    && (forall k | k in seen :: exists i :: 0 <= i < |rows| && SeenKey(rows[i].group, rows[i].model) == k)
  }

  lemma PartialEmpty(ch: Channel)
    ensures Partial(ch, [], {})
  {}

  lemma PartialGrows(ch: Channel, rows: seq<Ability>, seen: set<string>, g: string, m: string)
    requires Partial(ch, rows, seen) && Serves(ch, g, m) && SeenKey(g, m) !in seen
    ensures Partial(ch, rows + [AbilityOf(ch, g, m)], seen + {SeenKey(g, m)})
  {
    hide Serves;
    var a := AbilityOf(ch, g, m);
    var grown := rows + [a];
    forall i, j | 0 <= i < j < |grown|
      ensures SeenKey(grown[i].group, grown[i].model) != SeenKey(grown[j].group, grown[j].model)
    {
      assert grown[i] == rows[i] && (j < |rows| ==> grown[j] == rows[j]);
    }
    forall k | k in seen + {SeenKey(g, m)}
      ensures exists i :: 0 <= i < |grown| && SeenKey(grown[i].group, grown[i].model) == k
    {
      if k in seen {
        var i :| 0 <= i < |rows| && SeenKey(rows[i].group, rows[i].model) == k;
        assert grown[i] == rows[i];
      } else {
        assert grown[|rows|] == a;
      }
    }
  }

  /** Visits the models in any order and the groups in list order. */
  method BuildAbilities(ch: Channel) returns (rows: seq<Ability>)
    ensures Built(ch, rows)
  {
    hide Models, Groups, Partial, SeenKey;
    var groups := Groups(ch);
    rows := [];
    var seen: set<string> := {};
    var rest := Models(ch);
    PartialEmpty(ch);
    while rest != {}
      invariant rest <= Models(ch) && Partial(ch, rows, seen)
      invariant forall g, m | g in groups && m in Models(ch) && m !in rest :: SeenKey(g, m) in seen
      decreases |rest|
    {
      var m :| m in rest;
      var gi := 0;
      while gi < |groups|
        invariant 0 <= gi <= |groups| && Partial(ch, rows, seen)
        invariant forall g, n | g in groups && n in Models(ch) && n !in rest :: SeenKey(g, n) in seen
        invariant forall j | 0 <= j < gi :: SeenKey(groups[j], m) in seen
      {
        var g := groups[gi];
        var key := SeenKey(g, m);
        if key !in seen {
          PartialGrows(ch, rows, seen, g, m);
          seen := seen + {key};
          rows := rows + [AbilityOf(ch, g, m)];
        }
        gi := gi + 1;
      }
      rest := rest - {m};
    }
    PartialIsBuilt(ch, rows, seen);
  }

  lemma PartialIsBuilt(ch: Channel, rows: seq<Ability>, seen: set<string>)
    requires Partial(ch, rows, seen)
    requires forall g, m | g in Groups(ch) && m in Models(ch) :: SeenKey(g, m) in seen
    ensures Built(ch, rows)
  {
    hide Models, Groups, SeenKey;
  }

  /** What a built row holds, and that no two rows share the deduplication key. */
  lemma BuiltMeans(ch: Channel, rows: seq<Ability>)
    requires Built(ch, rows)
    ensures forall i | 0 <= i < |rows| ::
              && Serves(ch, rows[i].group, rows[i].model)
              && rows[i].channelId == ch.id && (rows[i].enabled <==> ch.status == 1)
              && rows[i].priority == ch.priority && rows[i].weight == ch.weight
    ensures forall i, j | 0 <= i < j < |rows| :: rows[i].group + "|" + rows[i].model != rows[j].group + "|" + rows[j].model
    ensures forall g, m | Serves(ch, g, m) :: exists i :: 0 <= i < |rows| && rows[i].group + "|" + rows[i].model == g + "|" + m
  {
    hide Serves;
    forall g, m | Serves(ch, g, m)
      ensures exists i :: 0 <= i < |rows| && rows[i].group + "|" + rows[i].model == g + "|" + m
    {
      var i :| 0 <= i < |rows| && SeenKey(rows[i].group, rows[i].model) == SeenKey(g, m);
    }
    forall i, j | 0 <= i < j < |rows|
      ensures rows[i].group + "|" + rows[i].model != rows[j].group + "|" + rows[j].model
    {
      assert SeenKey(rows[i].group, rows[i].model) != SeenKey(rows[j].group, rows[j].model);
    }
  }

  /** An index entry is its channel's state: enabled while the channel is active, at its priority and weight. */
  lemma EntriesMean(abilities: Index, channels: map<int, Channel>, g: string, m: string, id: int)
    requires Tracks(abilities, channels) && (g, m, id) in abilities
    ensures id in channels && Serves(channels[id], g, m)
    ensures abilities[(g, m, id)] == Row(channels[id].status == 1, channels[id].priority, channels[id].weight)
  {
    hide Serves, CollisionFree;
    assert TracksAt(abilities, Lookup(channels, id), id);
  }

  /** Some part of a comma-separated column, trimmed, is this name. */
  predicate NamedIn(csv: string, name: string) { name != "" && exists part :: part in Split(csv, ',') && Trim(part) == name }

  lemma {:induction false} TrimAllMembers(parts: seq<string>, name: string)
    ensures name in TrimAll(parts) <==> name != "" && exists part :: part in parts && Trim(part) == name
  {
    if parts != [] {
      TrimAllMembers(parts[1..], name);
      assert forall part :: part in parts <==> part == parts[0] || part in parts[1..];
    }
  }

  /**
   What a channel serves, by its columns: the groups it names, or "default" if it names none; and the models it
   names or its mapping has keys for.
   */
  lemma ServesMeans(ch: Channel, g: string, m: string)
    ensures Serves(ch, g, m) <==>
              && (NamedIn(ch.group, g) || (g == "default" && forall name :: !NamedIn(ch.group, name)))
              && (NamedIn(ch.models, m) || (ch.mapping.Decoded? && m != "" && exists k :: k in ch.mapping.targets && Trim(k) == m))
  {
    forall name
      ensures name in SplitTrim(ch.group) <==> NamedIn(ch.group, name)
    {
      TrimAllMembers(Split(ch.group, ','), name);
    }
    TrimAllMembers(Split(ch.models, ','), m);
    assert m in SplitTrim(ch.models) <==> NamedIn(ch.models, m);
    if SplitTrim(ch.group) != [] {
      assert SplitTrim(ch.group)[0] in SplitTrim(ch.group);
    }
    hide SplitTrim, NamedIn, Trim;
  }

  /** Whatever the order, every served pair gets its ability exactly when no two pairs share a seen-key. */
  lemma CompleteIffCollisionFree(ch: Channel, rows: seq<Ability>)
    requires Built(ch, rows)
    ensures Complete(ch, rows) <==> CollisionFree(ch)
  {
    if Complete(ch, rows) {
      forall g, m, h, n | Serves(ch, g, m) && Serves(ch, h, n) && SeenKey(g, m) == SeenKey(h, n)
        ensures g == h && m == n
      {
        var i :| 0 <= i < |rows| && rows[i] == AbilityOf(ch, g, m);
        var j :| 0 <= j < |rows| && rows[j] == AbilityOf(ch, h, n);
        assert SeenKey(rows[i].group, rows[i].model) == SeenKey(rows[j].group, rows[j].model);
        assert i == j;
      }
    }
    if CollisionFree(ch) {
      forall g, m | Serves(ch, g, m)
        ensures AbilityOf(ch, g, m) in rows
      {
        var i :| 0 <= i < |rows| && SeenKey(rows[i].group, rows[i].model) == SeenKey(g, m);
        assert rows[i] == AbilityOf(ch, g, m);
      }
    }
  }

  lemma FirstBar(g: string, m: string, h: string, n: string)
    requires SeenKey(g, m) == SeenKey(h, n) && '|' !in g && '|' !in h
    ensures g == h && m == n
  {
    var s := SeenKey(g, m);
    assert s == SeenKey(h, n);
    assert s[|g|] == '|' && forall i | 0 <= i < |g| :: s[i] == g[i];
    assert s[|h|] == '|' && forall i | 0 <= i < |h| :: s[i] == h[i];
    assert |g| == |h|;
    assert g == s[..|g|] && h == s[..|h|] && m == s[|g| + 1..] && n == s[|h| + 1..];
  }

  lemma NoBarNoCollision(ch: Channel)
    requires forall g | g in Groups(ch) :: '|' !in g
    ensures CollisionFree(ch)
  {
    forall g, m, h, n | Serves(ch, g, m) && Serves(ch, h, n) && SeenKey(g, m) == SeenKey(h, n)
      ensures g == h && m == n
    {
      FirstBar(g, m, h, n);
    }
  }

  function BarChannel(): Channel { Channel(1, "n", "k", "a,a|", "b,|b", Empty, 0, 0, ACTIVE, "") }

  lemma BarChannelServes()
    ensures Serves(BarChannel(), "a", "|b") && Serves(BarChannel(), "a|", "b")
  {
    hide Split, TrimAll, Trim;
    PairSplits("a", "a|");
    PairSplits("b", "|b");
    assert BarChannel().group == "a" + [','] + "a|" && BarChannel().models == "b" + [','] + "|b";
    assert "a" in Groups(BarChannel()) && "a|" in Groups(BarChannel());
    assert "|b" in SplitTrim(BarChannel().models) && "b" in SplitTrim(BarChannel().models);
  }

  lemma PairSplits(a: string, b: string)
    requires ',' !in a && ',' !in b && a != "" && b != "" && Trimmed(a) && Trimmed(b)
    ensures SplitTrim(a + [','] + b) == [a, b]
  {
    SplitPiece(a, b, ',');
    SplitWhole(b, ',');
    TrimAllSpec([a, b]);
  }

  /** Groups "a" and "a|" with models "|b" and "b": two served pairs, one seen-key, one ability lost. */
  lemma BarLosesAnAbility(rows: seq<Ability>)
    requires Built(BarChannel(), rows)
    ensures !Complete(BarChannel(), rows)
  {
    hide Serves, Complete, Built;
    BarChannelServes();
    assert SeenKey("a", "|b") == "a||b" == SeenKey("a|", "b");
    CompleteIffCollisionFree(BarChannel(), rows);
  }

  // ---------------------------------------------------------------- the index beside the channel table

  /** The abilities table holds exactly the served triples, each with its channel's current state. */
  ghost predicate Indexes(abilities: Index, channels: map<int, Channel>) {
    && (forall g, m, id :: (g, m, id) in abilities <==> id in channels && Serves(channels[id], g, m))
    && (forall g, m, id | (g, m, id) in abilities :: abilities[(g, m, id)] == RowOf(channels[id]))
  }

  ghost predicate Keyed(channels: map<int, Channel>) {
    forall id | id in channels :: channels[id].id == id
  }

  function Lookup(channels: map<int, Channel>, id: int): Option<Channel> {
    if id in channels then Some(channels[id]) else None
  }

  ghost predicate FullAt(abilities: Index, ch: Channel, id: int) {
    forall g, m | Serves(ch, g, m) :: (g, m, id) in abilities
  }

  /** One channel's part of the table: nothing but served pairs with current rows, and all of them unless its pairs collide. */
  ghost predicate TracksAt(abilities: Index, c: Option<Channel>, id: int) {
    && (forall g, m | (g, m, id) in abilities :: c.Some? && Serves(c.value, g, m) && abilities[(g, m, id)] == RowOf(c.value))
    && (c.Some? ==> (FullAt(abilities, c.value, id) <==> CollisionFree(c.value)))
  }

  ghost predicate Tracks(abilities: Index, channels: map<int, Channel>) {
    forall id :: TracksAt(abilities, Lookup(channels, id), id)
  }

  /** A table that tracks the channels indexes them exactly when no channel's pairs collide. */
  lemma ExactIffCollisionFree(abilities: Index, channels: map<int, Channel>)
    requires Tracks(abilities, channels)
    ensures Indexes(abilities, channels) <==> forall id | id in channels :: CollisionFree(channels[id])
  {
    hide Serves, CollisionFree;
    if Indexes(abilities, channels) {
      forall id | id in channels
        ensures CollisionFree(channels[id])
      {
        assert TracksAt(abilities, Lookup(channels, id), id);
      }
    }
    if forall id | id in channels :: CollisionFree(channels[id]) {
      forall g, m, id
        ensures (g, m, id) in abilities <==> id in channels && Serves(channels[id], g, m)
        ensures (g, m, id) in abilities ==> abilities[(g, m, id)] == RowOf(channels[id])
      {
        assert TracksAt(abilities, Lookup(channels, id), id);
      }
    }
  }

  /** Tracking one channel depends on nothing but that channel's entries. */
  lemma SameSlice(a: Index, b: Index, c: Option<Channel>, id: int)
    requires TracksAt(a, c, id)
    requires forall g, m :: (g, m, id) in a <==> (g, m, id) in b
    requires forall g, m | (g, m, id) in a :: a[(g, m, id)] == b[(g, m, id)]
    ensures TracksAt(b, c, id)
  {
    hide Serves, CollisionFree;
  }

  /** INSERT ... ON CONFLICT DO NOTHING. */
  method InsertAll(abilities: Index, rows: seq<Ability>) returns (out: Index)
    ensures forall k | k in abilities :: k in out && out[k] == abilities[k]
    ensures forall i | 0 <= i < |rows| :: KeyOf(rows[i]) in out
    ensures forall k | k in out && k !in abilities :: exists i :: 0 <= i < |rows| && KeyOf(rows[i]) == k && out[k] == Payload(rows[i])
  {
    out := abilities;
    var i := 0;
    while i < |rows|
      invariant 0 <= i <= |rows|
      invariant forall k | k in abilities :: k in out && out[k] == abilities[k]
      invariant forall j | 0 <= j < i :: KeyOf(rows[j]) in out
      invariant forall k | k in out && k !in abilities :: exists j :: 0 <= j < i && KeyOf(rows[j]) == k && out[k] == Payload(rows[j])
    {
      if KeyOf(rows[i]) !in out {
        out := out[KeyOf(rows[i]) := Payload(rows[i])];
      }
      i := i + 1;
    }
  }

  function KeyOf(a: Ability): (string, string, int) { (a.group, a.model, a.channelId) }

  function Payload(a: Ability): Row { Row(a.enabled, a.priority, a.weight) }

  /** DELETE FROM abilities WHERE channel_id IN ids. */
  function Purge(abilities: Index, ids: set<int>): (out: Index)
    ensures forall k :: k in out <==> k in abilities && k.2 !in ids
    ensures forall k | k in out :: out[k] == abilities[k]
  {
    map k | k in abilities && k.2 !in ids :: abilities[k]
  }

  /** UPDATE abilities SET enabled = on WHERE channel_id IN ids. */
  function Switch(abilities: Index, ids: set<int>, on: bool): (out: Index)
    ensures out.Keys == abilities.Keys
    ensures forall k | k in out :: out[k] == if k.2 in ids then abilities[k].(enabled := on) else abilities[k]
  {
    map k | k in abilities :: if k.2 in ids then abilities[k].(enabled := on) else abilities[k]
  }

  /** What inserting a channel's freshly built rows may leave behind. */
  ghost predicate Planted(before: Index, after: Index, ch: Channel, rows: seq<Ability>) {
    && Built(ch, rows)
    && (forall k | k in before :: k in after && after[k] == before[k])
    && (forall i | 0 <= i < |rows| :: KeyOf(rows[i]) in after)
    && (forall k | k in after && k !in before :: exists i :: 0 <= i < |rows| && KeyOf(rows[i]) == k && after[k] == Payload(rows[i]))
  }

  /** Planting one channel's abilities where it had none makes the table track that channel too. */
  lemma Replanted(purged: Index, out: Index, ch: Channel, rows: seq<Ability>, others: map<int, Channel>)
    requires ch.id !in others && Tracks(purged, others) && Planted(purged, out, ch, rows)
    ensures Tracks(out, others[ch.id := ch])
  {
    hide Serves, CollisionFree, SeenKey, Built, TracksAt;
    var all := others[ch.id := ch];
    forall id
      ensures TracksAt(out, Lookup(all, id), id)
    {
      assert TracksAt(purged, Lookup(others, id), id);
      if id == ch.id {
        NoEntries(purged, id);
        OwnEntries(purged, out, ch, rows);
      } else {
        forall g, m
          ensures (g, m, id) in out <==> (g, m, id) in purged
          ensures (g, m, id) in purged ==> out[(g, m, id)] == purged[(g, m, id)]
        {
          OtherEntry(purged, out, ch, rows, g, m, id);
        }
        SameSlice(purged, out, Lookup(others, id), id);
      }
    }
  }

  lemma NoEntries(abilities: Index, id: int)
    requires TracksAt(abilities, None, id)
    ensures forall g, m :: (g, m, id) !in abilities
  {}

  lemma OwnEntries(purged: Index, out: Index, ch: Channel, rows: seq<Ability>)
    requires (forall g, m :: (g, m, ch.id) !in purged) && Planted(purged, out, ch, rows)
    ensures TracksAt(out, Some(ch), ch.id)
  {
    hide Serves, CollisionFree, SeenKey;
    CompleteIffCollisionFree(ch, rows);
    forall g, m
      ensures (g, m, ch.id) in out <==> AbilityOf(ch, g, m) in rows
      ensures (g, m, ch.id) in out ==> Serves(ch, g, m) && out[(g, m, ch.id)] == RowOf(ch)
    {
      OwnEntry(purged, out, ch, rows, g, m);
    }
    hide Built, Planted, AbilityOf;
  }

  lemma OwnEntry(purged: Index, out: Index, ch: Channel, rows: seq<Ability>, g: string, m: string)
    requires (g, m, ch.id) !in purged && Planted(purged, out, ch, rows)
    ensures (g, m, ch.id) in out <==> AbilityOf(ch, g, m) in rows
    ensures (g, m, ch.id) in out ==> Serves(ch, g, m) && out[(g, m, ch.id)] == RowOf(ch)
  {
    hide Serves, SeenKey;
    var k := (g, m, ch.id);
    if AbilityOf(ch, g, m) in rows {
      var i :| 0 <= i < |rows| && rows[i] == AbilityOf(ch, g, m);
      assert KeyOf(rows[i]) == k;
    }
    if k in out {
      var i :| 0 <= i < |rows| && KeyOf(rows[i]) == k && out[k] == Payload(rows[i]);
      assert rows[i] == AbilityOf(ch, g, m);
    }
  }

  lemma OtherEntry(purged: Index, out: Index, ch: Channel, rows: seq<Ability>, g: string, m: string, id: int)
    requires id != ch.id && Planted(purged, out, ch, rows)
    ensures (g, m, id) in out <==> (g, m, id) in purged
    ensures (g, m, id) in purged ==> out[(g, m, id)] == purged[(g, m, id)]
  {
    hide Serves, SeenKey;
    assert forall i | 0 <= i < |rows| :: KeyOf(rows[i]).2 == ch.id;
  }

  lemma NothingTracked()
    ensures Tracks(map[], map[])
  {}

  lemma PurgedTracks(abilities: Index, channels: map<int, Channel>, ids: set<int>)
    requires Tracks(abilities, channels)
    ensures Tracks(Purge(abilities, ids), channels - ids)
  {
    hide Serves, CollisionFree, TracksAt;
    forall id
      ensures TracksAt(Purge(abilities, ids), Lookup(channels - ids, id), id)
    {
      assert TracksAt(abilities, Lookup(channels, id), id);
      if id in ids {
        NothingAt(Purge(abilities, ids), id);
      } else {
        SameSlice(abilities, Purge(abilities, ids), Lookup(channels, id), id);
      }
    }
  }

  lemma NothingAt(abilities: Index, id: int)
    requires forall g, m :: (g, m, id) !in abilities
    ensures TracksAt(abilities, None, id)
  {}

  /** The index is a function of the channels: however it was maintained, it is what a rebuild would give. */
  lemma IndexIsUnique(a: Index, b: Index, channels: map<int, Channel>)
    requires Indexes(a, channels) && Indexes(b, channels)
    ensures a == b
  {
    hide Serves;
    forall k | k in a
      ensures k in b && a[k] == b[k]
    {
      SameEntry(a, b, channels, k.0, k.1, k.2);
    }
    forall k | k in b
      ensures k in a
    {
      SameEntry(b, a, channels, k.0, k.1, k.2);
    }
    assert a.Keys == b.Keys;
  }

  lemma SameEntry(a: Index, b: Index, channels: map<int, Channel>, g: string, m: string, id: int)
    requires Indexes(a, channels) && Indexes(b, channels) && (g, m, id) in a
    ensures (g, m, id) in b && a[(g, m, id)] == b[(g, m, id)]
  {
    hide Serves;
  }

  /** Fields an update request leaves at their zero value keep their stored value. */
  function Merged(stored: Channel, p: Channel): Channel {
    Channel(stored.id,
            if p.name == "" then stored.name else p.name,
            if p.key == "" then stored.key else p.key,
            if p.group == "" then stored.group else p.group,
            if p.models == "" then stored.models else p.models,
            if p.mapping == Empty then stored.mapping else p.mapping,
            if p.priority == 0 then stored.priority else p.priority,
            if p.weight == 0 then stored.weight else p.weight,
            if p.status == 0 then stored.status else p.status,
            if p.tags == "" then stored.tags else p.tags)
  }

  function Tagged(channels: map<int, Channel>, like: string -> bool): set<int> {
    set id | id in channels && like(channels[id].tags)
  }

  function WithStatus(channels: map<int, Channel>, ids: set<int>, status: int): map<int, Channel> {
    map id | id in channels :: if id in ids then channels[id].(status := status) else channels[id]
  }

  /** The optional fields of a bulk edit by tag. */
  datatype Edit = Edit(newTag: Option<string>, priority: Option<int>, weight: Option<int>, mapping: Option<Mapping>, models: Option<string>)

  function Edited(ch: Channel, e: Edit): Channel {
    ch.(tags := if e.newTag.Some? then Trim(e.newTag.value) else ch.tags,
        priority := if e.priority.Some? then e.priority.value else ch.priority,
        weight := if e.weight.Some? then e.weight.value else ch.weight,
        mapping := if e.mapping.Some? then e.mapping.value else ch.mapping,
        models := if e.models.Some? then Trim(e.models.value) else ch.models)
  }

  function EditedAll(channels: map<int, Channel>, ids: set<int>, e: Edit): map<int, Channel> {
    map id | id in channels :: if id in ids then Edited(channels[id], e) else channels[id]
  }

  /** Two states of a channel the index cannot tell apart. */
  ghost predicate SameEntries(a: Channel, b: Channel) {
    && (forall g, m :: Serves(a, g, m) <==> Serves(b, g, m))
    && ((exists g, m :: Serves(a, g, m)) ==> RowOf(a) == RowOf(b))
  }

  ghost function Except(channels: map<int, Channel>, rest: set<int>): map<int, Channel> {
    map id | id in channels && id !in rest :: channels[id]
  }

  lemma ExceptGrows(channels: map<int, Channel>, rest: set<int>)
    ensures rest == {} ==> Except(channels, rest) == channels
    ensures rest == channels.Keys ==> Except(channels, rest) == map[]
    ensures forall id | id in rest && id in channels ::
              id !in Except(channels, rest) && Except(channels, rest - {id}) == Except(channels, rest)[id := channels[id]]
  {}

  class Catalog {
    var channels: map<int, Channel>
    var abilities: Index

    ghost predicate Valid()
      reads this
    {
      Keyed(channels) && Tracks(abilities, channels)
    }

    ghost predicate Exact()
      reads this
    {
      Indexes(abilities, channels)
    }

    method AddAbilities(ch: Channel) returns (ghost rows: seq<Ability>)
      modifies this`abilities
      ensures Planted(old(abilities), abilities, ch, rows)
    {
      hide Built;
      var built := BuildAbilities(ch);
      var grown := InsertAll(abilities, built);
      abilities := grown;
      rows := built;
    }

    /** Adds back one channel's entries to an index that lacks exactly those. */
    method Plant(ch: Channel, ghost others: map<int, Channel>)
      requires ch.id !in others && Tracks(abilities, others)
      modifies this`abilities
      ensures Tracks(abilities, others[ch.id := ch])
    {
      hide Tracks, CollisionFree, Planted;
      ghost var before := abilities;
      ghost var rows := AddAbilities(ch);
      Replanted(before, abilities, ch, rows, others);
    }

    /** Clears one channel's abilities and grows them again from its current row. */
    method UpdateAbilities(ch: Channel, ghost described: map<int, Channel>)
      requires Tracks(abilities, described)
      modifies this`abilities
      ensures Tracks(abilities, described[ch.id := ch])
    {
      hide Tracks, CollisionFree;
      PurgedTracks(abilities, described, {ch.id});
      abilities := Purge(abilities, {ch.id});
      Plant(ch, described - {ch.id});
      assert (described - {ch.id})[ch.id := ch] == described[ch.id := ch];
    }

    /** Empties the table and plants every channel again, in any order. */
    method FixAllAbilities()
      requires Keyed(channels)
      modifies this`abilities
      ensures Valid()
    {
      hide Tracks, CollisionFree, Except;
      abilities := map[];
      NothingTracked();
      var all := channels;
      var rest := all.Keys;
      ExceptGrows(all, rest);
      while rest != {}
        invariant rest <= all.Keys && Keyed(all)
        invariant Tracks(abilities, Except(all, rest))
        decreases |rest|
      {
        ghost var some := Pick(rest);
        var id :| id in rest;
        ExceptGrows(all, rest);
        Plant(all[id], Except(all, rest));
        rest := rest - {id};
      }
      ExceptGrows(all, rest);
    }

    method AddChannel(ch: Channel) returns (ok: bool)
      requires Valid()
      modifies this
      ensures Valid()
      ensures ok <==> ch.name != "" && ch.key != "" && ch.id !in old(channels)
      ensures channels == if ok then old(channels)[ch.id := ch] else old(channels)
    {
      hide Tracks, CollisionFree;
      if ch.name == "" || ch.key == "" {
        return false;
      }
      if ch.id in channels {
        return false;
      }
      Plant(ch, channels);
      channels := channels[ch.id := ch];
      return true;
    }

    method UpdateChannel(patch: Channel)
      requires Valid()
      modifies this
      ensures Valid()
      ensures channels == if patch.id != 0 && patch.id in old(channels)
                          then old(channels)[patch.id := Merged(old(channels)[patch.id], patch)] else old(channels)
      ensures patch.id != 0 && patch.id in old(channels) ==>
                var was, now := old(channels)[patch.id], channels[patch.id];
                && now.id == was.id
                && now.name == (if patch.name != "" then patch.name else was.name)
                && now.key == (if patch.key != "" then patch.key else was.key)
                && now.group == (if patch.group != "" then patch.group else was.group)
                && now.models == (if patch.models != "" then patch.models else was.models)
                && now.mapping == (if patch.mapping.Empty? then was.mapping else patch.mapping)
                && now.priority == (if patch.priority != 0 then patch.priority else was.priority)
                && now.weight == (if patch.weight != 0 then patch.weight else was.weight)
                && now.status == (if patch.status != 0 then patch.status else was.status)
                && now.tags == (if patch.tags != "" then patch.tags else was.tags)
    {
      hide Tracks, CollisionFree;
      if patch.id == 0 {
        return;
      }
      ghost var described := channels;
      if patch.id in channels {
        channels := channels[patch.id := Merged(channels[patch.id], patch)];
      }
      if patch.id in channels {
        UpdateAbilities(channels[patch.id], described);
      }
    }

    method DeleteChannel(id: int)
      requires Valid()
      modifies this
      ensures Valid() && channels == old(channels) - {id}
    {
      hide Tracks, CollisionFree;
      PurgedTracks(abilities, channels, {id});
      channels := channels - {id};
      abilities := Purge(abilities, {id});
    }

    method DeleteDisabledChannel()
      requires Valid()
      modifies this
      ensures Valid()
      ensures channels == map id | id in old(channels) && old(channels)[id].status != 2 && old(channels)[id].status != 3 :: old(channels)[id]
    {
      hide Tracks, CollisionFree;
      var ids := set id | id in channels && (channels[id].status == DISABLED || channels[id].status == AUTO_DISABLED);
      PurgedTracks(abilities, channels, ids);
      channels := channels - ids;
      if |ids| > 0 {
        abilities := Purge(abilities, ids);
      } else {
        assert channels - ids == channels;
        assert Purge(abilities, ids) == abilities;
      }
    }

    /** DisableTagChannels and EnableTagChannels; `like` is the tag filter, applied to the tags column. */
    method SetTagChannels(like: string -> bool, status: int)
      requires Valid() && (status == DISABLED || status == ACTIVE)
      modifies this
      ensures Valid() && channels == WithStatus(old(channels), Tagged(old(channels), like), status)
      ensures forall id :: id in channels <==> id in old(channels)
      ensures forall id | id in channels ::
                channels[id] == if like(old(channels)[id].tags) then old(channels)[id].(status := status) else old(channels)[id]
    {
      hide Tracks, CollisionFree;
      var ids := Tagged(channels, like);
      SwitchedTracks(abilities, channels, ids, status);
      channels := WithStatus(channels, ids, status);
      if |ids| > 0 {
        abilities := Switch(abilities, ids, status == ACTIVE);
      } else {
        assert Switch(abilities, ids, status == ACTIVE) == abilities;
      }
    }

    /**
     EditTagChannels: edits every tagged channel, then re-plants the channels the filter finds afterwards.
     With a new tag that the filter does not match it re-plants none of them, and an exact index stays exact
     only if the edit is harmless to every tagged channel.
     */
    method EditTagChannels(like: string -> bool, e: Edit) returns (ok: bool)
      requires Valid()
      modifies this
      ensures ok <==> e != Edit(None, None, None, None, None)
      ensures channels == if ok then EditedAll(old(channels), Tagged(old(channels), like), e) else old(channels)
      ensures forall id :: id in channels <==> id in old(channels)
      ensures forall id | id in channels ::
                var was, now := old(channels)[id], channels[id];
                if !ok || !like(was.tags) then now == was
                else
                  && now == was.(tags := now.tags, priority := now.priority, weight := now.weight, mapping := now.mapping, models := now.models)
                  && now.tags == (if e.newTag.Some? then Trim(e.newTag.value) else was.tags)
                  && now.priority == (if e.priority.Some? then e.priority.value else was.priority)
                  && now.weight == (if e.weight.Some? then e.weight.value else was.weight)
                  && now.mapping == (if e.mapping.Some? then e.mapping.value else was.mapping)
                  && now.models == (if e.models.Some? then Trim(e.models.value) else was.models)
      ensures !ok || e.newTag.None? || like(Trim(e.newTag.value)) ==> Valid()
      ensures ok && e.newTag.Some? && !like(Trim(e.newTag.value)) ==> abilities == old(abilities)
      ensures ok && e.newTag.Some? && !like(Trim(e.newTag.value)) && old(Exact()) ==>
                (Exact() <==> forall id | id in Tagged(old(channels), like) :: Harmless(old(channels)[id], e))
    {
      hide Tracks, Indexes, CollisionFree, Serves, Trim, SameEntries, Harmless;
      if e == Edit(None, None, None, None, None) {
        return false;
      }
      ghost var before := channels;
      var ids := Tagged(channels, like);
      channels := EditedAll(channels, ids, e);
      assert forall id | id in channels :: channels[id].id == id;
      var affected := Tagged(channels, like);
      Replant(affected, before);
      if e.newTag.None? || like(Trim(e.newTag.value)) {
        assert affected == ids;
        assert Replaced(before, channels, affected) == channels;
      } else {
        assert affected == {};
        if Indexes(abilities, before) {
          StaleIffDifferent(abilities, before, channels);
          SameTwice(before, channels, ids);
          forall id | id in ids
            ensures SameEntries(before[id], channels[id]) <==> Harmless(before[id], e)
          {
            HarmlessIff(before[id], e);
          }
        }
      }
      return true;
    }

    /** Updates the abilities of each affected channel in turn. */
    method Replant(affected: set<int>, ghost described: map<int, Channel>)
      requires Tracks(abilities, described) && Keyed(channels) && affected <= channels.Keys == described.Keys
      modifies this`abilities
      ensures Tracks(abilities, Replaced(described, channels, affected))
      ensures affected == {} ==> abilities == old(abilities)
    {
      hide Tracks, CollisionFree;
      var all := channels;
      var rest := affected;
      assert Replaced(described, all, affected - rest) == described;
      while rest != {}
        invariant rest <= affected && Keyed(all)
        invariant Tracks(abilities, Replaced(described, all, affected - rest))
        invariant affected == {} ==> abilities == old(abilities)
        decreases |rest|
      {
        ghost var some := Pick(rest);
        var id :| id in rest;
        UpdateAbilities(all[id], Replaced(described, all, affected - rest));
        assert Replaced(described, all, affected - rest)[id := all[id]] == Replaced(described, all, affected - (rest - {id}));
        rest := rest - {id};
      }
      assert affected - rest == affected;
    }
  }

  ghost function Replaced(channels: map<int, Channel>, newer: map<int, Channel>, ids: set<int>): map<int, Channel>
    requires ids <= newer.Keys
  {
    map id | id in channels :: if id in ids then newer[id] else channels[id]
  }

  /** An index of one channel table is an index of another exactly when no channel's entries differ. */
  lemma StaleIffDifferent(abilities: Index, before: map<int, Channel>, after: map<int, Channel>)
    requires Indexes(abilities, before) && before.Keys == after.Keys
    ensures Indexes(abilities, after) <==> forall id | id in before :: SameEntries(before[id], after[id])
  {
    hide Serves;
    if Indexes(abilities, after) {
      forall id | id in before
        ensures SameEntries(before[id], after[id])
      {
        forall g, m
          ensures Serves(before[id], g, m) <==> Serves(after[id], g, m)
          ensures Serves(before[id], g, m) ==> RowOf(before[id]) == RowOf(after[id])
        {
          assert (g, m, id) in abilities <==> Serves(before[id], g, m);
          assert (g, m, id) in abilities <==> Serves(after[id], g, m);
        }
      }
    }
    if forall id | id in before :: SameEntries(before[id], after[id]) {
      forall g, m, id
        ensures (g, m, id) in abilities <==> id in after && Serves(after[id], g, m)
        ensures (g, m, id) in abilities ==> abilities[(g, m, id)] == RowOf(after[id])
      {
        if id in before {
          assert SameEntries(before[id], after[id]);
        }
      }
    }
  }

  /** The edit leaves the served models alone and, if there are any, names no new priority or weight. */
  predicate Harmless(ch: Channel, e: Edit) {
    && Models(Edited(ch, e)) == Models(ch)
    && (Models(ch) != {} ==> (e.priority.Some? ==> e.priority.value == ch.priority) && (e.weight.Some? ==> e.weight.value == ch.weight))
  }

  lemma HarmlessIff(ch: Channel, e: Edit)
    ensures SameEntries(ch, Edited(ch, e)) <==> Harmless(ch, e)
  {
    var after := Edited(ch, e);
    hide SplitTrim, Models;
    var g := Groups(ch)[0];
    assert g in Groups(ch) && Groups(after) == Groups(ch);
    hide Groups;
    if SameEntries(ch, after) {
      forall m
        ensures m in Models(ch) <==> m in Models(after)
      {
        assert Serves(ch, g, m) <==> Serves(after, g, m);
      }
      forall m | m in Models(ch)
        ensures RowOf(ch) == RowOf(after)
      {
        assert Serves(ch, g, m);
      }
    }
  }

  /** A retag alone is harmless to every channel; a new priority or weight is, exactly when the channel serves no model. */
  lemma RetagIsHarmless(ch: Channel, e: Edit)
    requires e.mapping.None? && e.models.None?
    ensures e.priority.None? && e.weight.None? ==> Harmless(ch, e)
    ensures (e.priority.Some? && e.priority.value != ch.priority) || (e.weight.Some? && e.weight.value != ch.weight) ==>
              (Harmless(ch, e) <==> Models(ch) == {})
  {
    assert Models(Edited(ch, e)) == Models(ch);
    hide Models;
  }

  lemma SameTwice(before: map<int, Channel>, after: map<int, Channel>, ids: set<int>)
    requires before.Keys == after.Keys && ids <= before.Keys
    requires forall id | id in before && id !in ids :: after[id] == before[id]
    ensures (forall id | id in before :: SameEntries(before[id], after[id])) <==> (forall id | id in ids :: SameEntries(before[id], after[id]))
  {
    hide Serves;
  }

  lemma StatusKeepsCollisionFree(ch: Channel, status: int)
    ensures CollisionFree(ch.(status := status)) <==> CollisionFree(ch)
  {
    hide SeenKey;
    assert forall g, m :: Serves(ch.(status := status), g, m) <==> Serves(ch, g, m);
  }

  lemma SwitchedTracks(abilities: Index, channels: map<int, Channel>, ids: set<int>, status: int)
    requires Tracks(abilities, channels) && Keyed(channels) && ids <= channels.Keys
    ensures Tracks(Switch(abilities, ids, status == ACTIVE), WithStatus(channels, ids, status))
    ensures Keyed(WithStatus(channels, ids, status))
  {
    hide CollisionFree, Serves, TracksAt;
    var after := WithStatus(channels, ids, status);
    forall id
      ensures TracksAt(Switch(abilities, ids, status == ACTIVE), Lookup(after, id), id)
    {
      assert TracksAt(abilities, Lookup(channels, id), id);
      if id in ids {
        SwitchedAt(abilities, channels[id], ids, status, id);
      } else {
        SameSlice(abilities, Switch(abilities, ids, status == ACTIVE), Lookup(channels, id), id);
      }
    }
  }

  lemma SwitchedAt(abilities: Index, ch: Channel, ids: set<int>, status: int, id: int)
    requires TracksAt(abilities, Some(ch), id) && id in ids
    ensures TracksAt(Switch(abilities, ids, status == ACTIVE), Some(ch.(status := status)), id)
  {
    hide CollisionFree, Serves;
    StatusKeepsCollisionFree(ch, status);
    forall g, m
      ensures Serves(ch.(status := status), g, m) <==> Serves(ch, g, m)
    {
      StatusServesAlike(ch, status, g, m);
    }
  }

  lemma StatusServesAlike(ch: Channel, status: int, g: string, m: string)
    ensures Serves(ch.(status := status), g, m) <==> Serves(ch, g, m)
  {}
}
