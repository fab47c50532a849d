/**
 The whole way from a request to the channels it tries: each group's own selection from the ability index,
 the groups in turn, and the cached affinity on top.
 */
module Routing {
  import opened Options
  import opened Abilities
  import opened Selector

  /** Each group's channels are some selection for that group, with its own random draws. */
  ghost predicate Picks(pick: string -> Selection, channels: map<int, Channel>, abilities: Index, model: string,
                        allowed: string -> Option<set<int>>, draw: string -> nat -> nat -> nat) {
    forall g :: Parallel(pick(g)) && Chosen(pick(g).channels, pick(g).models, channels, abilities, g, model, allowed(g), draw(g))
  }

  predicate Routed(c: Choice, channels: map<int, Channel>, model: string, allowed: string -> Option<set<int>>, groups: seq<string>) {
    && c.group in groups && c.channel.Some?
    && OneRouted(c.channel.value, c.model, channels, c.group, model, allowed(c.group))
  }

  /** Nonincreasing priority, and with nonnegative weights none with weight behind one without, within a priority. */
  predicate InOrderOf(s: seq<Channel>) {
    && (forall i, j | 0 <= i < j < |s| :: s[i].priority >= s[j].priority)
    && ((forall i | 0 <= i < |s| :: s[i].weight >= 0) ==>
          forall i, j | 0 <= i < j < |s| && s[i].priority == s[j].priority && s[i].weight == 0 :: s[j].weight == 0)
  }

  lemma OrderedChannels(order: seq<Candidate>)
    requires Ordered(order)
    ensures InOrderOf(ChannelsOf(order))
  {
    var s := ChannelsOf(order);
    assert forall i | 0 <= i < |s| :: s[i] == order[i].channel;
  }

  /**
   An active and allowed channel that serves the group and the model, exactly as its row stands, beside the name its
   mapping holds for the model, or the model's own name where it holds none.
   */
  predicate OneRouted(ch: Channel, m: string, channels: map<int, Channel>, g: string, model: string, allowed: Option<set<int>>) {
    && ch.id in channels && ch == channels[ch.id] && ch.status == 1 && (allowed.None? || ch.id in allowed.value)
    && Serves(ch, g, model)
    && m == if ch.mapping.Decoded? && model in ch.mapping.targets then ch.mapping.targets[model] else model
  }

  lemma OrderIsRouted(order: seq<Candidate>, g: string, channels: map<int, Channel>, abilities: Index, model: string, allowed: Option<set<int>>)
    requires Tracks(abilities, channels) && forall id | id in channels :: channels[id].id == id
    requires Lists(order, channels, abilities, g, model, allowed)
    ensures forall i | 0 <= i < |order| :: OneRouted(order[i].channel, order[i].model, channels, g, model, allowed)
    ensures DistinctIds(order)
    ensures forall id | id in channels && id in Scanned(channels, g, model, allowed) && CollisionFree(channels[id]) ::
              exists i :: 0 <= i < |order| && order[i].channel.id == id
  {
    ListingIsScan(order, abilities, channels, g, model, allowed);
    hide Tracks, CollisionFree, Selectable, CandidateOf, Serves;
    forall i | 0 <= i < |order|
      ensures OneRouted(order[i].channel, order[i].model, channels, g, model, allowed)
    {
      assert order[i] == Unchanged(channels[order[i].channel.id], model);
    }
    hide Scanned, MappedModel;
    forall id | id in channels && id in Scanned(channels, g, model, allowed) && CollisionFree(channels[id])
      ensures exists i :: 0 <= i < |order| && order[i].channel.id == id
    {
      var i :| 0 <= i < |order| && order[i] == Unchanged(channels[id], model);
    }
  }

  lemma GroupIsRouted(g: string, sel: Selection, channels: map<int, Channel>, abilities: Index, model: string,
                      allowed: Option<set<int>>, draw: nat -> nat -> nat)
    requires Tracks(abilities, channels) && forall id | id in channels :: channels[id].id == id
    requires Parallel(sel) && Chosen(sel.channels, sel.models, channels, abilities, g, model, allowed, draw)
    ensures InOrderOf(sel.channels)
    ensures forall i | 0 <= i < |sel.channels| :: OneRouted(sel.channels[i], sel.models[i], channels, g, model, allowed)
    ensures forall i, j | 0 <= i < j < |sel.channels| :: sel.channels[i].id != sel.channels[j].id
    ensures forall id | id in channels && id in Scanned(channels, g, model, allowed) && CollisionFree(channels[id]) ::
              exists i :: 0 <= i < |sel.channels| && sel.channels[i].id == id
  {
    hide Tracks, Scanned, CollisionFree, Chosen, OneRouted, InOrderOf, Lists, Ordered;
    ChosenIsListedInOrder(sel.channels, sel.models, channels, abilities, g, model, allowed, draw);
    var order: seq<Candidate> :| Lists(order, channels, abilities, g, model, allowed) && Ordered(order)
      && sel.channels == ChannelsOf(order) && sel.models == ModelsOf(order);
    OrderedChannels(order);
    OrderIsRouted(order, g, channels, abilities, model, allowed);
    assert forall i | 0 <= i < |order| :: sel.channels[i] == order[i].channel && sel.models[i] == order[i].model;
  }

  /** The groups whose choices are gathered. */
  function Tried(groups: seq<string>, pick: string -> Selection, across: bool): seq<string> {
    if groups == [] then []
    else if pick(groups[0]).channels == [] then Tried(groups[1..], pick, across)
    else if across then [groups[0]] + Tried(groups[1..], pick, across)
    else [groups[0]]
  }

  function Joined(groups: seq<string>, pick: string -> Selection): seq<Choice>
    requires forall g :: Parallel(pick(g))
  {
    if groups == [] then [] else Choices(pick(groups[0]), groups[0]) + Joined(groups[1..], pick)
  }

  /** The groups' choices come one whole block after the other, in the order of the groups. */
  lemma {:induction false} GatheredInBlocks(groups: seq<string>, pick: string -> Selection, across: bool)
    requires forall g :: Parallel(pick(g))
    ensures Gathered(groups, pick, across) == Joined(Tried(groups, pick, across), pick)
    ensures forall g | g in Tried(groups, pick, across) :: g in groups && pick(g).channels != []
    ensures !across ==> |Tried(groups, pick, across)| <= 1
  {
    if groups != [] {
      GatheredInBlocks(groups[1..], pick, across);
      var g := groups[0];
      if pick(g).channels == [] {
        assert Choices(pick(g), g) == [];
      } else {
        assert |Choices(pick(g), g)| > 0;
        var tail := if across then Tried(groups[1..], pick, across) else [];
        assert ([g] + tail)[1..] == tail;
      }
    }
  }

  lemma {:induction false} JoinedMembers(groups: seq<string>, pick: string -> Selection)
    requires forall g :: Parallel(pick(g))
    ensures forall c | c in Joined(groups, pick) :: c.group in groups && c in Choices(pick(c.group), c.group)
    ensures forall g, c | g in groups && c in Choices(pick(g), g) :: c in Joined(groups, pick)
  {
    if groups != [] {
      JoinedMembers(groups[1..], pick);
      assert forall c | c in Choices(pick(groups[0]), groups[0]) :: c.group == groups[0];
    }
  }

  ghost predicate Offers(s: seq<Choice>, g: string, id: int) {
    exists c :: c in s && c.group == g && c.channel.Some? && c.channel.value.id == id
  }

  /**
   Over the whole way, before and after affinity, for any draws: every choice is a channel a scan of its group
   finds, as its row stands and with its mapped model; every tried group's channels come as one block in order of
   priority; and no scanned channel of a tried group is missing unless its pairs collide.
   */
  lemma RequestIsRouted(groups: seq<string>, pick: string -> Selection, across: bool, channelId: int,
                        channels: map<int, Channel>, abilities: Index, model: string,
                        allowed: string -> Option<set<int>>, draw: string -> nat -> nat -> nat)
    requires Tracks(abilities, channels) && forall id | id in channels :: channels[id].id == id
    requires Picks(pick, channels, abilities, model, allowed, draw)
    ensures var all := Gathered(groups, pick, across); var tried := Tried(groups, pick, across);
            && all == Joined(tried, pick)
            && (forall g | g in tried :: InOrderOf(pick(g).channels))
            && (forall c | c in all :: Routed(c, channels, model, allowed, groups))
            && (forall c | c in Favoured(all, channelId) :: Routed(c, channels, model, allowed, groups))
            && (forall g, id | g in tried && id in channels && id in Scanned(channels, g, model, allowed(g)) && CollisionFree(channels[id]) ::
                  Offers(all, g, id) && Offers(Favoured(all, channelId), g, id))
  {
    assert forall g :: Parallel(pick(g));
    hide Tracks, Scanned, CollisionFree, InOrderOf, Gathered, Favoured, Joined, Tried, Routed, Offers, Picks;
    var all, tried := Gathered(groups, pick, across), Tried(groups, pick, across);
    GatheredInBlocks(groups, pick, across);
    FavouredPermutes(all, channelId);
    SameChoices(all, Favoured(all, channelId));
    forall g | g in tried
      ensures InOrderOf(pick(g).channels)
    {
      GroupInOrder(g, pick, channels, abilities, model, allowed, draw);
    }
    forall c | c in all
      ensures Routed(c, channels, model, allowed, groups)
    {
      ChoiceIsRouted(c, groups, tried, pick, channels, abilities, model, allowed, draw);
    }
    forall g, id | g in tried && id in channels && id in Scanned(channels, g, model, allowed(g)) && CollisionFree(channels[id])
      ensures Offers(all, g, id) && Offers(Favoured(all, channelId), g, id)
    {
      GroupOffers(g, id, tried, pick, channels, abilities, model, allowed, draw);
      OfferedAlike(all, Favoured(all, channelId), g, id);
    }
  }

  lemma GroupInOrder(g: string, pick: string -> Selection, channels: map<int, Channel>, abilities: Index, model: string,
                     allowed: string -> Option<set<int>>, draw: string -> nat -> nat -> nat)
    requires Tracks(abilities, channels) && forall id | id in channels :: channels[id].id == id
    requires Picks(pick, channels, abilities, model, allowed, draw)
    ensures InOrderOf(pick(g).channels)
  {
    hide Tracks, Scanned, CollisionFree, InOrderOf, Chosen, OneRouted;
    GroupIsRouted(g, pick(g), channels, abilities, model, allowed(g), draw(g));
  }

  lemma ChoiceIsRouted(c: Choice, groups: seq<string>, tried: seq<string>, pick: string -> Selection, channels: map<int, Channel>,
                       abilities: Index, model: string, allowed: string -> Option<set<int>>, draw: string -> nat -> nat -> nat)
    requires Tracks(abilities, channels) && forall id | id in channels :: channels[id].id == id
    requires Picks(pick, channels, abilities, model, allowed, draw)
    requires c in Joined(tried, pick) && forall g | g in tried :: g in groups
    ensures Routed(c, channels, model, allowed, groups)
  {
    JoinedMembers(tried, pick);
    hide Tracks, Scanned, CollisionFree, InOrderOf, Chosen, OneRouted, Joined;
    var g := c.group;
    GroupIsRouted(g, pick(g), channels, abilities, model, allowed(g), draw(g));
  }

  lemma GroupOffers(g: string, id: int, tried: seq<string>, pick: string -> Selection, channels: map<int, Channel>,
                    abilities: Index, model: string, allowed: string -> Option<set<int>>, draw: string -> nat -> nat -> nat)
    requires Tracks(abilities, channels) && forall id | id in channels :: channels[id].id == id
    requires Picks(pick, channels, abilities, model, allowed, draw) && g in tried
    requires id in channels && id in Scanned(channels, g, model, allowed(g)) && CollisionFree(channels[id])
    ensures Offers(Joined(tried, pick), g, id)
  {
    JoinedMembers(tried, pick);
    hide Tracks, Scanned, CollisionFree, InOrderOf, Chosen, OneRouted, Joined;
    GroupIsRouted(g, pick(g), channels, abilities, model, allowed(g), draw(g));
    var i :| 0 <= i < |pick(g).channels| && pick(g).channels[i].id == id;
    var c := Choices(pick(g), g)[i];
    assert c in Choices(pick(g), g);
  }

  lemma OfferedAlike(a: seq<Choice>, b: seq<Choice>, g: string, id: int)
    requires Offers(a, g, id) && forall c :: c in a <==> c in b
    ensures Offers(b, g, id)
  {}

  lemma SameChoices(a: seq<Choice>, b: seq<Choice>)
    requires multiset(a) == multiset(b)
    ensures forall c :: c in a <==> c in b
  {
    assert forall c :: c in a <==> c in multiset(a);
    assert forall c :: c in b <==> c in multiset(b);
  }

  /** `affinity` is the cached channel of this rule, group and token, if there is one. */
  method SelectChannelWithAffinity(usingGroup: string, autoGroups: seq<string>, crossGroupRetry: bool,
                                   pick: string -> Selection, affinity: Option<int>)
    returns (ok: bool, channels: seq<Option<Channel>>, models: seq<string>, groups: seq<string>)
    requires forall g :: Parallel(pick(g))
    ensures |channels| == |models| == |groups|
    ensures var all := Gathered(ToTry(usingGroup, autoGroups), pick, usingGroup == "auto" && crossGroupRetry);
            ok == (all != [])
            && Zip(channels, models, groups) == if ok && affinity.Some? then Favoured(all, affinity.value) else all
  {
    ok, channels, models, groups := SelectChannel(usingGroup, autoGroups, crossGroupRetry, pick);
    if !ok || affinity.None? {
      return;
    }
    channels, models, groups := PrioritizeAffinityChannel(channels, models, groups, affinity.value);
  }
}
