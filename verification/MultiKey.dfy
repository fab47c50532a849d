/**
 A channel's key list: a newline-joined string and three index-keyed sparse maps in the channel row,
 re-indexed by hand on every deletion. It refines a plain sequence of key records.
 */
module MultiKey {
  import opened Options
  import opened Text

  /** A JSON object column with string keys; None is a blank or undecodable column. */
  type Raw<V> = Option<map<string, V>>

  datatype Columns = Columns(key: string, status: Raw<int>, time: Raw<int>, reason: Raw<string>)

  /** The decoded working copy of the columns. */
  datatype State = State(keys: seq<string>, status: map<int, int>, time: map<int, int>, reason: map<int, string>)

  /** One key as the status listing shows it. */
  datatype Record = Record(key: string, status: int, time: int, reason: string)

  const ENABLED := 1
  const MANUAL := 2
  const AUTO := 3

  // ---------------------------------------------------------------- decoding and encoding

  function Lines(s: string): seq<string> { TrimAll(Split(UnixLines(s), '\n')) }

  /** Two spellings of one index, such as "1" and "+1", make the decoded value depend on map order. */
  predicate Unambiguous<V>(raw: Raw<V>) {
    raw.Some? ==> forall j, k | j in raw.value && k in raw.value && Atoi(j).Some? && Atoi(j) == Atoi(k) :: j == k
  }

  /** What decoding may return: each index that some key spells, with the value of one of its spellings. */
  ghost predicate Decodes<V>(raw: Raw<V>, m: map<int, V>) {
    if raw.None? then m == map[]
    else
      && (forall k | k in raw.value && Atoi(k).Some? :: Atoi(k).value in m)
      && (forall i | i in m :: exists k :: k in raw.value && Atoi(k) == Some(i) && m[i] == raw.value[k])
  }

  function Encode<V>(m: map<int, V>): Raw<V>
    requires InRange(m)
  {
    EncodeKeys(m);
    Some(map k | k in (set i | i in m :: Itoa(i)) :: m[Atoi(k).value])
  }

  predicate InRange<V>(m: map<int, V>) { forall i | i in m :: MIN_INT <= i <= MAX_INT }

  lemma EncodeKeys<V>(m: map<int, V>)
    requires InRange(m)
    ensures forall i | i in m :: Atoi(Itoa(i)) == Some(i)
  {
    forall i | i in m
      ensures Atoi(Itoa(i)) == Some(i)
    {
      ItoaRoundTrip(i);
    }
  }

  /** Decoding an encoded map gives the map back, whatever order the decoder visits the entries in. */
  lemma EncodeDecodes<V>(m: map<int, V>, d: map<int, V>)
    requires InRange(m)
    ensures Unambiguous(Encode(m))
    ensures Decodes(Encode(m), d) <==> d == m
  {
    hide Atoi, Itoa, InRange;
    EncodeKeys(m);
    var raw := Encode(m);
    forall k | k in raw.value
      ensures exists i :: i in m && k == Itoa(i) && Atoi(k) == Some(i) && raw.value[k] == m[i]
    {
      var i :| i in m && k == Itoa(i);
    }
    forall i | i in m
      ensures Itoa(i) in raw.value && raw.value[Itoa(i)] == m[i]
    {}
    if Decodes(raw, d) {
      forall i | i in m
        ensures i in d
      {
        assert Atoi(Itoa(i)).value in d;
      }
      forall i | i in d
        ensures i in m && d[i] == m[i]
      {
        var k :| k in raw.value && Atoi(k) == Some(i) && d[i] == raw.value[k];
        assert raw.value[k] == m[i];
      }
    }
  }

  lemma DecodesUnique<V>(raw: Raw<V>, a: map<int, V>, b: map<int, V>)
    requires Unambiguous(raw) && Decodes(raw, a) && Decodes(raw, b)
    ensures a == b
  {
    if raw.Some? {
      forall i | i in a
        ensures i in b && a[i] == b[i]
      {
        var k :| k in raw.value && Atoi(k) == Some(i) && a[i] == raw.value[k];
        assert Atoi(k).value in b;
      }
      forall i | i in b
        ensures i in a
      {
        var k :| k in raw.value && Atoi(k) == Some(i) && b[i] == raw.value[k];
        assert Atoi(k).value in a;
      }
      assert a.Keys == b.Keys;
    }
  }

  /** Ranges over the entries in any order, as Go does over a map. */
  method ParseMap<V>(raw: Raw<V>) returns (m: map<int, V>)
    ensures Decodes(raw, m)
  {
    m := map[];
    if raw.None? {
      return;
    }
    var rest := raw.value.Keys;
    while rest != {}
      invariant rest <= raw.value.Keys
      invariant forall k | k in raw.value && k !in rest && Atoi(k).Some? :: Atoi(k).value in m
      invariant forall i | i in m :: exists k :: k in raw.value && Atoi(k) == Some(i) && m[i] == raw.value[k]
      decreases |rest|
    {
      var k :| k in rest;
      rest := rest - {k};
      var idx := Atoi(k);
      if idx.Some? {
        m := m[idx.value := raw.value[k]];
      }
    }
  }

  method SplitLinesNonEmpty(s: string) returns (items: seq<string>)
    ensures items == Lines(s)
  {
    items := [];
    var parts := Split(UnixLines(s), '\n');
    var i := 0;
    while i < |parts|
      invariant 0 <= i <= |parts|
      invariant items == TrimAll(parts[..i])
    {
      var k := Trim(parts[i]);
      if k != "" {
        items := items + [k];
      }
      TrimAllAppend(parts[..i], parts[i]);
      assert parts[..i + 1] == parts[..i] + [parts[i]];
      i := i + 1;
    }
    assert parts[..i] == parts;
  }

  predicate GoodKey(k: string) { k != "" && Trimmed(k) && '\n' !in k }

  predicate GoodKeys(keys: seq<string>) { forall k | k in keys :: GoodKey(k) }

  lemma LinesAreGood(s: string)
    ensures GoodKeys(Lines(s))
  {
    SplitParts(UnixLines(s), '\n');
    TrimAllSpec(Split(UnixLines(s), '\n'));
  }

  lemma {:induction false} JoinedHasNoCrLf(keys: seq<string>)
    requires GoodKeys(keys)
    ensures NoCrLf(Join(keys, '\n'))
  {
    if |keys| >= 1 {
      assert GoodKey(keys[0]);
    }
    if |keys| >= 2 {
      JoinedHasNoCrLf(keys[1..]);
      var k := keys[0];
      var rest := Join(keys[1..], '\n');
      assert k[|k| - 1] != '\r';
      var s := k + ['\n'] + rest;
      forall i | 0 <= i < |s| - 1
        ensures !(s[i] == '\r' && s[i + 1] == '\n')
      {
        if i < |k| {
          assert s[i] == k[i];
        } else if i > |k| {
          assert s[i] == rest[i - |k| - 1] && s[i + 1] == rest[i - |k|];
        }
      }
    }
  }

  /** For trimmed, non-blank keys, storing and reloading is the identity exactly when no key has a line feed. */
  lemma StoredKeysReload(keys: seq<string>)
    requires forall k | k in keys :: k != "" && Trimmed(k)
    ensures Lines(Join(keys, '\n')) == keys <==> forall k | k in keys :: '\n' !in k
  {
    LinesAreGood(Join(keys, '\n'));
    if forall k | k in keys :: '\n' !in k {
      JoinedHasNoCrLf(keys);
      UnixLinesSame(Join(keys, '\n'));
      if keys == [] {
        assert TrimAll([""]) == [];
      } else {
        SplitJoin(keys, '\n');
        TrimAllSpec(keys);
      }
    }
  }

  /** Reading a key column, storing it and reading it again changes nothing, for every column. */
  lemma ReloadIsStable(s: string)
    ensures Lines(Join(Lines(s), '\n')) == Lines(s)
  {
    LinesAreGood(s);
    StoredKeysReload(Lines(s));
  }

  /** A key list with anything in it is never read back as empty, even when its keys contain line feeds. */
  lemma StoredKeysNeverVanish(keys: seq<string>)
    requires keys != [] && forall k | k in keys :: k != "" && Trimmed(k)
    ensures Lines(Join(keys, '\n')) != []
  {
    assert keys[0] in keys;
    var c := keys[0][0];
    var s := Join(keys, '\n');
    JoinKeeps(keys, '\n', keys[0], c);
    UnixLinesKeep(s, c);
    SplitKeeps(UnixLines(s), '\n', c);
    var p :| p in Split(UnixLines(s), '\n') && c in p;
    TrimKeeps(p, c);
    TrimAllKeeps(Split(UnixLines(s), '\n'), p);
  }

  // ---------------------------------------------------------------- the record view

  function StatusAt(st: State, i: int): int { if i in st.status then st.status[i] else ENABLED }

  function RecordAt(st: State, i: nat): Record
    requires i < |st.keys|
  {
    var status := StatusAt(st, i);
    Record(st.keys[i], status,
           if status != ENABLED && i in st.time then st.time[i] else 0,
           if status != ENABLED && i in st.reason then st.reason[i] else "")
  }

  function RecordsOf(st: State): (rs: seq<Record>)
    ensures |rs| == |st.keys| && forall i | 0 <= i < |rs| :: rs[i] == RecordAt(st, i)
  {
    seq(|st.keys|, i requires 0 <= i < |st.keys| => RecordAt(st, i))
  }

  /** Every map is keyed by positions of the key list only. */
  predicate Tight(st: State) {
    && (forall i | i in st.status :: 0 <= i < |st.keys|)
    && (forall i | i in st.time :: 0 <= i < |st.keys|)
    && (forall i | i in st.reason :: 0 <= i < |st.keys|)
  }

  predicate Encodable(st: State) { InRange(st.status) && InRange(st.time) && InRange(st.reason) }

  function Saved(st: State): Columns
    requires Encodable(st)
  {
    Columns(Join(st.keys, '\n'), Encode(st.status), Encode(st.time), Encode(st.reason))
  }

  ghost predicate Loads(c: Columns, st: State) {
    st.keys == Lines(c.key) && Decodes(c.status, st.status) && Decodes(c.time, st.time) && Decodes(c.reason, st.reason)
  }

  predicate Legible(c: Columns) { Unambiguous(c.status) && Unambiguous(c.time) && Unambiguous(c.reason) }

  /** A saved working copy loads back as itself, with its keys re-read from the joined string. */
  lemma SavedLoads(st: State, st': State)
    requires Encodable(st)
    ensures Legible(Saved(st))
    ensures Loads(Saved(st), st') <==> st' == st.(keys := Lines(Join(st.keys, '\n')))
  {
    EncodeDecodes(st.status, st'.status);
    EncodeDecodes(st.time, st'.time);
    EncodeDecodes(st.reason, st'.reason);
  }

  // ---------------------------------------------------------------- record operations

  function FreshRecords(keys: seq<string>): (rs: seq<Record>)
    ensures |rs| == |keys|
  {
    seq(|keys|, i requires 0 <= i < |keys| => Record(keys[i], ENABLED, 0, ""))
  }

  function KeysOf(rs: seq<Record>): (keys: seq<string>)
    ensures |keys| == |rs|
  {
    seq(|rs|, i requires 0 <= i < |rs| => rs[i].key)
  }

  lemma KeysOfRecords(st: State)
    ensures KeysOf(RecordsOf(st)) == st.keys
  {}

  lemma FreshMeans(rs: seq<Record>, keys: seq<string>)
    requires |rs| == |keys| && forall i | 0 <= i < |rs| :: rs[i].key == keys[i]
    ensures forall i | 0 <= i < |rs| :: FreshRecords(keys)[i] == Record(rs[i].key, 1, 0, "")
  {}

  function Without(rs: seq<Record>, i: nat): seq<Record>
    requires i < |rs|
  {
    rs[..i] + rs[i + 1..]
  }

  function Disabled(r: Record, now: int): Record {
    if r.status == ENABLED then Record(r.key, MANUAL, now, "manual") else r
  }

  function DisabledAll(rs: seq<Record>, now: int): (out: seq<Record>)
    ensures |out| == |rs|
  {
    seq(|rs|, i requires 0 <= i < |rs| => Disabled(rs[i], now))
  }

  function Surviving(rs: seq<Record>): seq<Record> {
    if rs == [] then []
    else Surviving(rs[..|rs| - 1]) + (if rs[|rs| - 1].status == AUTO then [] else [rs[|rs| - 1]])
  }

  /** The positions of the survivors. */
  function SurvivorsAt(rs: seq<Record>): seq<nat> {
    if rs == [] then []
    else SurvivorsAt(rs[..|rs| - 1]) + (if rs[|rs| - 1].status == AUTO then [] else [|rs| - 1])
  }

  predicate InOrderBelow(at: seq<nat>, n: nat) {
    (forall i | 0 <= i < |at| :: at[i] < n) && (forall i, j | 0 <= i < j < |at| :: at[i] < at[j])
  }

  /** Exactly the records that are not automatically disabled survive, each once and in their order. */
  lemma {:induction false} SurvivingSpec(rs: seq<Record>)
    ensures var at := SurvivorsAt(rs);
            && InOrderBelow(at, |rs|) && |at| == |Surviving(rs)|
            && (forall i | 0 <= i < |at| :: at[i] < |rs| && Surviving(rs)[i] == rs[at[i]])
            && (forall k: nat | k < |rs| :: k in at <==> rs[k].status != AUTO)
  {
    if rs != [] {
      SurvivingSpec(rs[..|rs| - 1]);
      var before, last := SurvivorsAt(rs[..|rs| - 1]), |rs| - 1;
      forall k: nat | k < |rs|
        ensures k in SurvivorsAt(rs) <==> rs[k].status != AUTO
      {
        if k < last {
          assert k in before <==> rs[..last][k].status != AUTO;
        } else {
          assert k !in before;
        }
      }
    }
  }

  lemma {:induction false} SurvivingCount(rs: seq<Record>)
    ensures |rs| - |Surviving(rs)| == CountStatus(rs, AUTO)
  {
    if rs != [] {
      SurvivingCount(rs[..|rs| - 1]);
    }
  }

  function CountStatus(rs: seq<Record>, status: int): nat {
    if rs == [] then 0
    else CountStatus(rs[..|rs| - 1], status) + (if rs[|rs| - 1].status == status then 1 else 0)
  }

  // ---------------------------------------------------------------- the channel row and its actions

  ghost function Decode<V>(raw: Raw<V>): (m: map<int, V>)
    ensures Decodes(raw, m)
  {
    if raw.None? then map[]
    else
      map i | i in (set k | k in raw.value && Atoi(k).Some? :: Atoi(k).value)
        :: (var k :| k in raw.value && Atoi(k) == Some(i); raw.value[k])
  }

  ghost function Loaded(c: Columns): (st: State)
    ensures Loads(c, st)
  {
    State(Lines(c.key), Decode(c.status), Decode(c.time), Decode(c.reason))
  }

  lemma LoadsIsLoaded(c: Columns, st: State)
    requires Legible(c) && Loads(c, st)
    ensures st == Loaded(c)
  {
    DecodesUnique(c.status, st.status, Decode(c.status));
    DecodesUnique(c.time, st.time, Decode(c.time));
    DecodesUnique(c.reason, st.reason, Decode(c.reason));
  }

  lemma DecodedInRange<V>(raw: Raw<V>, m: map<int, V>)
    requires Decodes(raw, m)
    ensures InRange(m)
  {}

  /** With good keys nothing changes between storing a working copy and loading it in the next request. */
  lemma SaveThenLoad(st: State)
    requires Encodable(st) && GoodKeys(st.keys)
    ensures Legible(Saved(st)) && Loaded(Saved(st)) == st
  {
    StoredKeysReload(st.keys);
    SavedLoads(st, Loaded(Saved(st)));
  }

  // ---------------------------------------------------------------- the working copy, step by step

  method TrimKeys(keys: seq<string>) returns (kept: seq<string>)
    ensures kept == TrimAll(keys)
  {
    kept := [];
    var i := 0;
    while i < |keys|
      invariant 0 <= i <= |keys| && kept == TrimAll(keys[..i])
    {
      var k := Trim(keys[i]);
      if k != "" {
        kept := kept + [k];
      }
      TrimAllAppend(keys[..i], keys[i]);
      assert keys[..i + 1] == keys[..i] + [keys[i]];
      i := i + 1;
    }
    assert keys[..i] == keys;
  }

  function Mark(st: State, i: int, now: int): State {
    st.(status := st.status[i := MANUAL], time := st.time[i := now], reason := st.reason[i := "manual"])
  }

  function Clear(st: State, i: int): State {
    st.(status := st.status - {i}, time := st.time - {i}, reason := st.reason - {i})
  }

  lemma MarkRecords(st: State, i: nat, now: int)
    requires i < |st.keys|
    ensures RecordsOf(Mark(st, i, now)) == RecordsOf(st)[i := Record(st.keys[i], MANUAL, now, "manual")]
    ensures Mark(st, i, now).keys == st.keys && (Tight(st) ==> Tight(Mark(st, i, now)))
    ensures Encodable(st) && |st.keys| <= MAX_INT ==> Encodable(Mark(st, i, now))
  {}

  lemma ClearRecords(st: State, i: nat)
    requires i < |st.keys|
    ensures RecordsOf(Clear(st, i)) == RecordsOf(st)[i := Record(st.keys[i], ENABLED, 0, "")]
    ensures Tight(st) ==> Tight(Clear(st, i))
  {}

  lemma ClearedRecords(keys: seq<string>)
    ensures Tight(State(keys, map[], map[], map[])) && RecordsOf(State(keys, map[], map[], map[])) == FreshRecords(keys)
  {}

  /** The first `i` elements without the one at `idx`. */
  function Skipping<T>(s: seq<T>, idx: nat, i: nat): seq<T>
    requires idx < |s| && i <= |s|
  {
    if i <= idx then s[..i] else s[..idx] + s[idx + 1..i]
  }

  lemma SkippingStep<T>(s: seq<T>, idx: nat, i: nat)
    requires idx < |s| && i < |s|
    ensures Skipping(s, idx, i + 1) == if i == idx then Skipping(s, idx, i) else Skipping(s, idx, i) + [s[i]]
  {}

  lemma SkippingEnds<T>(s: seq<T>, idx: nat)
    requires idx < |s|
    ensures Skipping(s, idx, 0) == [] && Skipping(s, idx, |s|) == s[..idx] + s[idx + 1..]
  {}

  /** The working copy with one more key and its entries at the new last position. */
  function Extended(st: State, key: string, status: int, time: Option<int>, reason: Option<string>): State {
    var n := |st.keys|;
    State(st.keys + [key],
          if status != ENABLED then st.status[n := status] else st.status,
          if time.Some? then st.time[n := time.value] else st.time,
          if reason.Some? then st.reason[n := reason.value] else st.reason)
  }

  lemma ExtendedRecords(st: State, key: string, status: int, time: Option<int>, reason: Option<string>)
    requires Tight(st)
    ensures Tight(Extended(st, key, status, time, reason))
    ensures RecordsOf(Extended(st, key, status, time, reason))
         == RecordsOf(st) + [Record(key, status,
                                    if status != ENABLED && time.Some? then time.value else 0,
                                    if status != ENABLED && reason.Some? then reason.value else "")]
  {
    var next := Extended(st, key, status, time, reason);
    forall i | 0 <= i < |st.keys|
      ensures RecordAt(next, i) == RecordAt(st, i)
    {}
  }

  function Entry<V>(m: map<int, V>, i: int): Option<V> { if i in m then Some(m[i]) else None }

  /** The working copy rebuilt from the first `i` positions without `idx`, and what it shows. */
  function Rebuilt(st: State, idx: nat, i: nat): State
    requires i <= |st.keys|
  {
    if i == 0 then State([], map[], map[], map[])
    else if i - 1 == idx then Rebuilt(st, idx, i - 1)
    else Extended(Rebuilt(st, idx, i - 1), st.keys[i - 1], StatusAt(st, i - 1), Entry(st.time, i - 1), Entry(st.reason, i - 1))
  }

  lemma {:induction false} RebuiltSpec(st: State, idx: nat, i: nat)
    requires idx < |st.keys| && i <= |st.keys|
    ensures Tight(Rebuilt(st, idx, i)) && Rebuilt(st, idx, i).keys == Skipping(st.keys, idx, i)
    ensures RecordsOf(Rebuilt(st, idx, i)) == Skipping(RecordsOf(st), idx, i)
  {
    if i == 0 {
      ClearedRecords([]);
      assert RecordsOf(Rebuilt(st, idx, 0)) == [];
    } else {
      var j := i - 1;
      RebuiltSpec(st, idx, j);
      SkippingStep(RecordsOf(st), idx, j);
      SkippingStep(st.keys, idx, j);
      RebuiltNext(st, idx, j);
      hide Rebuilt, RecordsOf, RecordAt, Tight, Skipping;
      if j == idx {
        assert Rebuilt(st, idx, i).keys == Rebuilt(st, idx, j).keys;
      }
    }
  }

  lemma RebuiltNext(st: State, idx: nat, i: nat)
    requires i < |st.keys| && Tight(Rebuilt(st, idx, i))
    ensures Tight(Rebuilt(st, idx, i + 1))
    ensures Rebuilt(st, idx, i + 1).keys == Rebuilt(st, idx, i).keys + (if i == idx then [] else [st.keys[i]])
    ensures RecordsOf(Rebuilt(st, idx, i + 1))
         == RecordsOf(Rebuilt(st, idx, i)) + (if i == idx then [] else [RecordsOf(st)[i]])
  {
    hide RecordsOf, Tight;
    ExtendedRecords(Rebuilt(st, idx, i), st.keys[i], StatusAt(st, i), Entry(st.time, i), Entry(st.reason, i));
  }

  /** Rebuilds the list and the three maps without one position, renumbering as it goes. */
  method DropKey(st: State, idx: nat) returns (next: State)
    requires idx < |st.keys|
    ensures next.keys == st.keys[..idx] + st.keys[idx + 1..]
    ensures RecordsOf(next) == Without(RecordsOf(st), idx)
    ensures Tight(next)
  {
    hide RecordsOf, Tight;
    var keys: seq<string>, status: map<int, int>, time: map<int, int>, reason: map<int, string> := [], map[], map[], map[];
    var ni, i := 0, 0;
    while i < |st.keys|
      invariant 0 <= i <= |st.keys| && ni == |keys|
      invariant State(keys, status, time, reason) == Rebuilt(st, idx, i)
    {
      if i != idx {
        keys := keys + [st.keys[i]];
        if i in st.status && st.status[i] != 1 {
          status := status[ni := st.status[i]];
        }
        if i in st.time {
          time := time[ni := st.time[i]];
        }
        if i in st.reason {
          reason := reason[ni := st.reason[i]];
        }
        ni := ni + 1;
      }
      i := i + 1;
    }
    next := State(keys, status, time, reason);
    RebuiltSpec(st, idx, i);
    SkippingEnds(RecordsOf(st), idx);
    SkippingEnds(st.keys, idx);
  }

  /** Keeps every key that is not automatically disabled. */
  method DropAutoDisabled(st: State) returns (next: State, deleted: nat)
    ensures RecordsOf(next) == Surviving(RecordsOf(st))
    ensures deleted == CountStatus(RecordsOf(st), AUTO)
    ensures Tight(next) && forall k | k in next.keys :: k in st.keys
  {
    var keys: seq<string>, status: map<int, int>, time: map<int, int>, reason: map<int, string> := [], map[], map[], map[];
    deleted := 0;
    var ni, i := 0, 0;
    ghost var rs := RecordsOf(st);
    while i < |st.keys|
      invariant 0 <= i <= |st.keys| && ni == |keys|
      invariant Tight(State(keys, status, time, reason))
      invariant RecordsOf(State(keys, status, time, reason)) == Surviving(rs[..i])
      invariant deleted == CountStatus(rs[..i], AUTO)
      invariant forall k | k in keys :: k in st.keys
    {
      assert rs[..i + 1][..i] == rs[..i] && rs[..i + 1][i] == RecordAt(st, i);
      var s := if i in st.status then st.status[i] else 1;
      if s == 3 {
        deleted := deleted + 1;
      } else {
        ghost var before := State(keys, status, time, reason);
        keys := keys + [st.keys[i]];
        if s != 1 {
          status := status[ni := s];
          if i in st.time {
            time := time[ni := st.time[i]];
          }
          if i in st.reason {
            reason := reason[ni := st.reason[i]];
          }
        }
        ghost var kept := s != 1;
        ghost var since, why := if kept then Entry(st.time, i) else None, if kept then Entry(st.reason, i) else None;
        ExtendedRecords(before, st.keys[i], s, since, why);
        assert State(keys, status, time, reason) == Extended(before, st.keys[i], s, since, why);
        ni := ni + 1;
      }
      i := i + 1;
    }
    assert rs[..i] == rs;
    next := State(keys, status, time, reason);
  }

  lemma DisabledAllMeans(rs: seq<Record>, now: int)
    ensures |DisabledAll(rs, now)| == |rs|
    ensures forall i | 0 <= i < |rs| :: DisabledAll(rs, now)[i] == if rs[i].status == 1 then Record(rs[i].key, 2, now, "manual") else rs[i]
  {}

  lemma DisabledStep(rs: seq<Record>, i: nat, now: int)
    requires i < |rs|
    ensures DisabledAll(rs[..i + 1], now) + rs[i + 1..] == (DisabledAll(rs[..i], now) + rs[i..])[i := Disabled(rs[i], now)]
    ensures rs[i].status != ENABLED ==> DisabledAll(rs[..i + 1], now) + rs[i + 1..] == DisabledAll(rs[..i], now) + rs[i..]
  {}

  /** The working copy after the first `i` positions of the disabling loop. */
  function MarkFirst(st: State, i: nat, now: int): State {
    if i == 0 then st
    else
      var prev := MarkFirst(st, i - 1, now);
      if StatusAt(prev, i - 1) == ENABLED then Mark(prev, i - 1, now) else prev
  }

  lemma {:induction false} MarkFirstSpec(st: State, i: nat, now: int)
    requires Encodable(st) && i <= |st.keys| <= MAX_INT
    ensures MarkFirst(st, i, now).keys == st.keys && DisabledUpTo(MarkFirst(st, i, now), RecordsOf(st), i, now)
    ensures Encodable(MarkFirst(st, i, now)) && (Tight(st) ==> Tight(MarkFirst(st, i, now)))
  {
    hide RecordAt, DisabledUpTo, InRange;
    if i == 0 {
      DisabledStart(st, now);
    } else {
      MarkFirstSpec(st, i - 1, now);
      DisabledNext(MarkFirst(st, i - 1, now), RecordsOf(st), i - 1, now);
      MarkRecords(MarkFirst(st, i - 1, now), i - 1, now);
    }
  }

  /** Marks every enabled key; keys already disabled keep their status, time and reason. */
  method DisableEach(st: State, now: int) returns (next: State, count: nat)
    requires Encodable(st) && |st.keys| <= MAX_INT
    ensures next.keys == st.keys && RecordsOf(next) == DisabledAll(RecordsOf(st), now)
    ensures count == CountStatus(RecordsOf(st), ENABLED)
    ensures Encodable(next) && (Tight(st) ==> Tight(next))
  {
    next := st;
    count := 0;
    var i := 0;
    ghost var rs := RecordsOf(st);
    while i < |st.keys|
      invariant 0 <= i <= |st.keys| && next == MarkFirst(st, i, now)
      invariant count == CountStatus(rs[..i], ENABLED)
    {
      MarkFirstSpec(st, i, now);
      DisabledNext(next, rs, i, now);
      CountStep(rs, i, ENABLED);
      if (if i in next.status then next.status[i] else 1) == 1 {
        next := Mark(next, i, now);
        count := count + 1;
      }
      i := i + 1;
    }
    MarkFirstSpec(st, i, now);
    assert rs[..i] == rs;
  }

  ghost predicate DisabledUpTo(st: State, rs: seq<Record>, i: nat, now: int) {
    i <= |rs| && RecordsOf(st) == DisabledAll(rs[..i], now) + rs[i..]
  }

  lemma DisabledStart(st: State, now: int)
    ensures DisabledUpTo(st, RecordsOf(st), 0, now)
  {
    assert RecordsOf(st)[..0] == [] && RecordsOf(st)[0..] == RecordsOf(st);
  }

  lemma DisabledNext(st: State, rs: seq<Record>, i: nat, now: int)
    requires DisabledUpTo(st, rs, i, now) && i < |rs|
    ensures i < |st.keys| && StatusAt(st, i) == rs[i].status
    ensures rs[i].status == ENABLED ==> DisabledUpTo(Mark(st, i, now), rs, i + 1, now)
    ensures rs[i].status != ENABLED ==> DisabledUpTo(st, rs, i + 1, now)
  {
    assert |RecordsOf(st)| == |rs| && RecordsOf(st)[i] == rs[i];
    DisabledStep(rs, i, now);
    MarkRecords(st, i, now);
  }

  lemma CountStep(rs: seq<Record>, i: nat, status: int)
    requires i < |rs|
    ensures CountStatus(rs[..i + 1], status) == CountStatus(rs[..i], status) + (if rs[i].status == status then 1 else 0)
  {
    assert rs[..i + 1][..i] == rs[..i];
  }

  // ---------------------------------------------------------------- the paged status listing

  datatype KeyStatus = KeyStatus(index: int, status: int, time: int, reason: string, preview: string)

  function Preview(k: string): string { if |k| > 10 then k[..10] + "..." else k }

  function Listing(rs: seq<Record>): (items: seq<KeyStatus>)
    ensures |items| == |rs|
  {
    seq(|rs|, i requires 0 <= i < |rs| => KeyStatus(i, rs[i].status, rs[i].time, rs[i].reason, Preview(rs[i].key)))
  }

  function Matching(items: seq<KeyStatus>, filter: Option<int>): seq<KeyStatus> {
    if items == [] then []
    else
      Matching(items[..|items| - 1], filter)
      + (if filter.None? || items[|items| - 1].status == filter.value then [items[|items| - 1]] else [])
  }

  lemma {:induction false} NoFilter(items: seq<KeyStatus>)
    ensures Matching(items, None) == items
  {
    if items != [] {
      NoFilter(items[..|items| - 1]);
      assert items == items[..|items| - 1] + [items[|items| - 1]];
    }
  }

  /** What the listing shows of each record. */
  lemma ListingMeans(st: State, i: nat)
    requires i < |st.keys|
    ensures var item := Listing(RecordsOf(st))[i]; var status := if i in st.status then st.status[i] else 1;
            && item.index == i && item.status == status
            && item.time == (if status != 1 && i in st.time then st.time[i] else 0)
            && item.reason == (if status != 1 && i in st.reason then st.reason[i] else "")
            && item.preview == (if |st.keys[i]| > 10 then st.keys[i][..10] + "..." else st.keys[i])
            && RecordsOf(st)[i] == Record(st.keys[i], status, item.time, item.reason)
  {}

  /** The positions of the items a filter keeps. */
  function MatchesAt(items: seq<KeyStatus>, filter: Option<int>): seq<nat> {
    if items == [] then []
    else
      var n := |items| - 1;
      MatchesAt(items[..n], filter) + (if filter.None? || items[n].status == filter.value then [n] else [])
  }

  lemma {:induction false} MatchesInOrder(items: seq<KeyStatus>, filter: Option<int>)
    ensures var at := MatchesAt(items, filter); var kept := Matching(items, filter);
            InOrderBelow(at, |items|) && |at| == |kept| && forall i | 0 <= i < |at| :: at[i] < |items| && kept[i] == items[at[i]]
  {
    if items != [] {
      var n := |items| - 1;
      MatchesInOrder(items[..n], filter);
      var before, kept := MatchesAt(items[..n], filter), Matching(items[..n], filter);
      forall i | 0 <= i < |before|
        ensures before[i] < n && kept[i] == items[before[i]]
      {}
    }
  }

  lemma {:induction false} MatchesComplete(items: seq<KeyStatus>, filter: Option<int>, k: nat)
    requires k < |items|
    ensures k in MatchesAt(items, filter) <==> filter.None? || items[k].status == filter.value
  {
    var n := |items| - 1;
    MatchesInOrder(items[..n], filter);
    assert forall j | j in MatchesAt(items[..n], filter) :: j < n;
    if k < n {
      MatchesComplete(items[..n], filter, k);
    }
  }

  /** Exactly the items with the status asked for are kept, all of them without one, each once and in order. */
  lemma MatchingSpec(items: seq<KeyStatus>, filter: Option<int>)
    ensures var at := MatchesAt(items, filter); var kept := Matching(items, filter);
            && InOrderBelow(at, |items|) && |at| == |kept| && (forall i | 0 <= i < |at| :: at[i] < |items| && kept[i] == items[at[i]])
            && (forall k: nat | k < |items| :: k in at <==> filter.None? || items[k].status == filter.value)
  {
    MatchesInOrder(items, filter);
    forall k: nat | k < |items|
      ensures k in MatchesAt(items, filter) <==> filter.None? || items[k].status == filter.value
    {
      MatchesComplete(items, filter, k);
    }
  }

  /** The counts shown are the numbers of records with each status. */
  lemma {:induction false} CountIsCardinality(rs: seq<Record>, status: int)
    ensures CountStatus(rs, status) == |set i | 0 <= i < |rs| && rs[i].status == status|
  {
    var all := set i | 0 <= i < |rs| && rs[i].status == status;
    if rs == [] {
      assert all == {};
    } else {
      var n := |rs| - 1;
      CountIsCardinality(rs[..n], status);
      var before := set i | 0 <= i < |rs[..n]| && rs[..n][i].status == status;
      assert all == before + (if rs[n].status == status then {n} else {});
    }
  }

  function PageSize(requested: int): (size: int)
    ensures 1 <= size <= 200
  {
    if requested <= 0 then 50 else if requested > 200 then 200 else requested
  }

  function TotalPages(total: nat, size: int): (n: int)
    requires size >= 1
    ensures n >= 1
  {
    var n := (total + size - 1) / size;
    if n == 0 then 1 else n
  }

  function PageNumber(requested: int, totalPages: int): (p: int)
    requires totalPages >= 1
    ensures 1 <= p <= totalPages
  {
    var p := if requested <= 0 then 1 else requested;
    if p > totalPages then totalPages else p
  }

  function PageOf<T>(items: seq<T>, page: int, size: int): seq<T>
    requires size >= 1 && page >= 1
  {
    PageStart(page, size);
    var start := (page - 1) * size;
    var end := if start + size > |items| then |items| else start + size;
    if start < |items| then items[start..end] else []
  }

  lemma PageStart(page: int, size: int)
    requires size >= 1 && page >= 1
    ensures (page - 1) * size >= 0
  {}

  function Pages<T>(items: seq<T>, size: int, count: nat): seq<T>
    requires size >= 1
  {
    if count == 0 then [] else Pages(items, size, count - 1) + PageOf(items, count, size)
  }

  lemma {:induction false} PagesPrefix<T>(items: seq<T>, size: int, count: nat)
    requires size >= 1
    ensures count * size >= 0
    ensures Pages(items, size, count) == items[..if count * size > |items| then |items| else count * size]
  {
    if count > 0 {
      PagesPrefix(items, size, count - 1);
      var before := (count - 1) * size;
      assert count * size == before + size;
      assert PageOf(items, count, size) == if before < |items| then items[before..if before + size > |items| then |items| else before + size] else [];
    }
  }

  /** Pages 1 to total_pages put together are exactly the filtered list, in order. */
  lemma PagesCoverListing<T>(items: seq<T>, size: int)
    requires size >= 1
    ensures Pages(items, size, TotalPages(|items|, size)) == items
  {
    var n := TotalPages(|items|, size);
    PagesPrefix(items, size, n);
    PagesReach(|items|, size);
    assert items[..|items|] == items;
  }

  lemma PagesReach(total: nat, size: int)
    requires size >= 1
    ensures TotalPages(total, size) * size >= total
  {
    var a := total + size - 1;
    DivisionRest(a, size);
  }

  lemma PagesNeeded(total: nat, size: int)
    requires size >= 1
    ensures TotalPages(total, size) > 1 ==> (TotalPages(total, size) - 1) * size < total
  {
    var a := total + size - 1;
    DivisionFloor(a, size);
    assert (a / size - 1) * size == a / size * size - size;
  }

  lemma DivisionFloor(a: int, size: int)
    requires size >= 1
    ensures a / size * size <= a
  {
    assert a == size * (a / size) + a % size;
  }

  lemma DivisionRest(a: int, size: int)
    requires size >= 1
    ensures a / size * size > a - size
  {
    assert a == size * (a / size) + a % size;
  }

  class KeyStore {
    var columns: Columns

    ghost predicate Valid()
      reads this
    {
      Legible(columns) && |Lines(columns.key)| <= MAX_INT
    }

    /** The records the stored columns show. */
    ghost function Records(): seq<Record>
      reads this
    {
      RecordsOf(Loaded(columns))
    }

    ghost predicate WellIndexed()
      reads this
    {
      Tight(Loaded(columns))
    }

    method Load() returns (st: State)
      requires Valid()
      ensures st == Loaded(columns) && Encodable(st) && GoodKeys(st.keys) && |st.keys| <= MAX_INT
    {
      var keys := SplitLinesNonEmpty(columns.key);
      var status := ParseMap(columns.status);
      var time := ParseMap(columns.time);
      var reason := ParseMap(columns.reason);
      st := State(keys, status, time, reason);
      LoadsIsLoaded(columns, st);
      DecodedInRange(columns.status, status);
      DecodedInRange(columns.time, time);
      DecodedInRange(columns.reason, reason);
      LinesAreGood(columns.key);
    }

    method SaveState(st: State)
      requires Encodable(st) && GoodKeys(st.keys) && |st.keys| <= MAX_INT
      modifies this
      ensures Valid() && columns == Saved(st) && Loaded(columns) == st
    {
      columns := Saved(st);
      SaveThenLoad(st);
    }

    method Set(keys: seq<string>) returns (ok: bool)
      requires |Lines(Join(TrimAll(keys), '\n'))| <= MAX_INT
      modifies this
      ensures ok <==> TrimAll(keys) != []
      ensures ok ==> Valid() && WellIndexed() && Records() == FreshRecords(Lines(Join(TrimAll(keys), '\n')))
      ensures ok ==> Records() != [] && forall i | 0 <= i < |Records()| :: Records()[i] == Record(Records()[i].key, 1, 0, "")
      ensures !ok ==> columns == old(columns)
    {
      var kept := TrimKeys(keys);
      if |kept| == 0 {
        return false;
      }
      var st := State(kept, map[], map[], map[]);
      columns := Saved(st);
      SavedLoads(st, Loaded(columns));
      ClearedRecords(Lines(Join(kept, '\n')));
      TrimAllSpec(keys);
      StoredKeysNeverVanish(kept);
      return true;
    }

    method DisableKey(index: Option<int>, now: int) returns (ok: bool)
      requires Valid()
      modifies this
      ensures Valid() && (old(WellIndexed()) ==> WellIndexed())
      ensures ok <==> index.Some? && 0 <= index.value < |old(Records())|
      ensures ok ==> var i := index.value; Records() == old(Records())[i := Record(old(Records())[i].key, 2, now, "manual")]
      ensures !ok ==> columns == old(columns)
      ensures old(Records()) != [] ==> Records() != []
    {
      var st := Load();
      if index.None? || index.value < 0 || index.value >= |st.keys| {
        return false;
      }
      var i := index.value;
      MarkRecords(st, i, now);
      assert RecordsOf(st)[i].key == st.keys[i];
      hide RecordsOf, RecordAt, Mark, Tight, Encodable, GoodKeys, Loaded, Saved;
      SaveState(Mark(st, i, now));
      return true;
    }

    method EnableKey(index: Option<int>) returns (ok: bool)
      requires Valid()
      modifies this
      ensures Valid() && (old(WellIndexed()) ==> WellIndexed())
      ensures ok <==> index.Some? && 0 <= index.value < |old(Records())|
      ensures ok ==> var i := index.value; Records() == old(Records())[i := Record(old(Records())[i].key, 1, 0, "")]
      ensures !ok ==> columns == old(columns)
      ensures old(Records()) != [] ==> Records() != []
    {
      var st := Load();
      if index.None? || index.value < 0 || index.value >= |st.keys| {
        return false;
      }
      var i := index.value;
      ClearRecords(st, i);
      SaveState(Clear(st, i));
      return true;
    }

    method DeleteKey(index: Option<int>) returns (ok: bool)
      requires Valid()
      modifies this
      ensures Valid() && (ok ==> WellIndexed())
      ensures ok <==> index.Some? && 0 <= index.value < |old(Records())| && |old(Records())| > 1
      ensures ok ==> Records() == Without(old(Records()), index.value)
      ensures ok ==> Records() == old(Records())[..index.value] + old(Records())[index.value + 1..]
      ensures !ok ==> columns == old(columns)
      ensures old(Records()) != [] ==> Records() != []
    {
      var st := Load();
      if index.None? || index.value < 0 || index.value >= |st.keys| {
        return false;
      }
      if |st.keys| <= 1 {
        return false;
      }
      var next := DropKey(st, index.value);
      SaveState(next);
      return true;
    }

    method EnableAllKeys()
      requires Valid()
      modifies this
      ensures Valid() && WellIndexed()
      ensures Records() == FreshRecords(KeysOf(old(Records())))
      ensures |Records()| == |old(Records())|
      ensures forall i | 0 <= i < |Records()| :: Records()[i] == Record(old(Records())[i].key, 1, 0, "")
      ensures old(Records()) != [] ==> Records() != []
    {
      var st := Load();
      ClearedRecords(st.keys);
      FreshMeans(RecordsOf(st), st.keys);
      KeysOfRecords(st);
      hide Tight, FreshRecords, RecordsOf, KeysOf, GoodKeys, Encodable, Loaded;
      SaveState(State(st.keys, map[], map[], map[]));
    }

    method DisableAllKeys(now: int) returns (ok: bool)
      requires Valid()
      modifies this
      ensures Valid() && (old(WellIndexed()) ==> WellIndexed())
      ensures ok <==> CountStatus(old(Records()), ENABLED) > 0
      ensures ok ==> Records() == DisabledAll(old(Records()), now)
      ensures ok ==> |Records()| == |old(Records())| && forall i | 0 <= i < |Records()| ::
                       Records()[i] == if old(Records())[i].status == 1 then Record(old(Records())[i].key, 2, now, "manual") else old(Records())[i]
      ensures !ok ==> columns == old(columns)
      ensures old(Records()) != [] ==> Records() != []
    {
      var st := Load();
      var next, disabledCount := DisableEach(st, now);
      DisabledAllMeans(RecordsOf(st), now);
      hide DisabledAll, RecordsOf, CountStatus, Tight;
      if disabledCount == 0 {
        return false;
      }
      SaveState(next);
      return true;
    }

    method DeleteDisabledKeys() returns (ok: bool, deleted: nat)
      requires Valid()
      modifies this
      ensures Valid() && (ok ==> WellIndexed())
      ensures deleted == CountStatus(old(Records()), AUTO)
      ensures ok <==> deleted > 0 && Surviving(old(Records())) != []
      ensures ok ==> Records() == Surviving(old(Records()))
      ensures !ok ==> columns == old(columns)
      ensures old(Records()) != [] ==> Records() != []
    {
      var st := Load();
      var next;
      next, deleted := DropAutoDisabled(st);
      SurvivingCount(RecordsOf(st));
      if deleted == 0 {
        return false, deleted;
      }
      if |next.keys| == 0 {
        return false, deleted;
      }
      SaveState(next);
      return true, deleted;
    }

    method GetKeyStatus(requestedPage: int, requestedSize: int, filter: Option<int>)
      returns (data: seq<KeyStatus>, total: nat, page: int, pageSize: int, totalPages: int, enabled: nat, manual: nat, auto: nat)
      requires Valid()
      ensures total == |Matching(Listing(Records()), filter)|
      ensures pageSize == PageSize(requestedSize) && totalPages == TotalPages(total, pageSize)
      ensures pageSize == (if requestedSize <= 0 then 50 else if requestedSize > 200 then 200 else requestedSize)
      ensures IsPage(Matching(Listing(Records()), filter), data, if requestedPage <= 0 then 1 else requestedPage, page, totalPages, pageSize)
      ensures page == PageNumber(requestedPage, totalPages)
      ensures data == PageOf(Matching(Listing(Records()), filter), page, pageSize)
      ensures enabled == CountStatus(Records(), 1) && manual == CountStatus(Records(), 2)
      ensures auto == CountStatus(Records(), 3)
    {
      page := requestedPage;
      pageSize := requestedSize;
      if page <= 0 {
        page := 1;
      }
      if pageSize <= 0 {
        pageSize := 50;
      }
      if pageSize > 200 {
        pageSize := 200;
      }
      var st := Load();
      var all: seq<KeyStatus>;
      all, enabled, manual, auto := ListKeys(st);
      var filtered := FilterKeys(all, filter);
      total := |filtered|;
      data, page, totalPages := TakePage(filtered, page, pageSize);
    }
  }

  /** Enough pages and no more, the page asked for or the last one, and its stretch of the items. */
  predicate IsPage<T(==)>(items: seq<T>, data: seq<T>, wanted: int, page: int, totalPages: int, size: int) {
    && totalPages >= 1 && totalPages * size >= |items| && (totalPages > 1 ==> (totalPages - 1) * size < |items|)
    && page == (if wanted > totalPages then totalPages else wanted)
    && var start := (page - 1) * size;
       && start >= 0
       && |data| == (if |items| - start <= 0 then 0 else if |items| - start < size then |items| - start else size)
       && forall i | 0 <= i < |data| :: start + i < |items| && data[i] == items[start + i]
  }

  lemma PageIs<T>(items: seq<T>, wanted: int, size: int)
    requires wanted >= 1 && size >= 1
    ensures var totalPages := TotalPages(|items|, size); var page := PageNumber(wanted, totalPages);
            IsPage(items, PageOf(items, page, size), wanted, page, totalPages, size)
  {
    PagesReach(|items|, size);
    PagesNeeded(|items|, size);
    var totalPages := TotalPages(|items|, size);
    var page := PageNumber(wanted, totalPages);
    PageStart(page, size);
    hide TotalPages;
  }

  method TakePage<T>(items: seq<T>, wanted: int, size: int) returns (data: seq<T>, page: int, totalPages: int)
    requires wanted >= 1 && size >= 1
    ensures totalPages == TotalPages(|items|, size) && page == PageNumber(wanted, totalPages)
    ensures data == PageOf(items, page, size)
    ensures IsPage(items, data, wanted, page, totalPages, size)
  {
    var total := |items|;
    page := wanted;
    totalPages := (total + size - 1) / size;
    if totalPages == 0 {
      totalPages := 1;
    }
    assert totalPages == TotalPages(total, size);
    if page > totalPages {
      page := totalPages;
    }
    PageStart(page, size);
    var start := (page - 1) * size;
    var end := start + size;
    if end > total {
      end := total;
    }
    data := [];
    if start < total {
      data := items[start..end];
    }
    PageIs(items, wanted, size);
  }

  method ListKeys(st: State) returns (all: seq<KeyStatus>, enabled: nat, manual: nat, auto: nat)
    ensures all == Listing(RecordsOf(st))
    ensures enabled == CountStatus(RecordsOf(st), ENABLED) && manual == CountStatus(RecordsOf(st), MANUAL)
    ensures auto == CountStatus(RecordsOf(st), AUTO)
  {
    all, enabled, manual, auto := [], 0, 0, 0;
    ghost var rs := RecordsOf(st);
    var i := 0;
    while i < |st.keys|
      invariant 0 <= i <= |st.keys|
      invariant all == Listing(rs[..i])
      invariant enabled == CountStatus(rs[..i], ENABLED) && manual == CountStatus(rs[..i], MANUAL)
      invariant auto == CountStatus(rs[..i], AUTO)
    {
      CountStep(rs, i, ENABLED);
      CountStep(rs, i, MANUAL);
      CountStep(rs, i, AUTO);
      var s := if i in st.status then st.status[i] else 1;
      match s {
        case 1 => enabled := enabled + 1;
        case 2 => manual := manual + 1;
        case 3 => auto := auto + 1;
        case _ =>
      }
      var k := st.keys[i];
      var preview := if |k| > 10 then k[..10] + "..." else k;
      var time, reason := 0, "";
      if s != 1 {
        if i in st.time {
          time := st.time[i];
        }
        if i in st.reason {
          reason := st.reason[i];
        }
      }
      all := all + [KeyStatus(i, s, time, reason, preview)];
      i := i + 1;
    }
    assert rs[..i] == rs;
  }

  method FilterKeys(all: seq<KeyStatus>, filter: Option<int>) returns (filtered: seq<KeyStatus>)
    ensures filtered == Matching(all, filter)
  {
    if filter.None? {
      NoFilter(all);
      return all;
    }
    filtered := [];
    var i := 0;
    while i < |all|
      invariant 0 <= i <= |all| && filtered == Matching(all[..i], filter)
    {
      assert all[..i + 1][..i] == all[..i];
      if all[i].status == filter.value {
        filtered := filtered + [all[i]];
      }
      i := i + 1;
    }
    assert all[..i] == all;
  }
}
