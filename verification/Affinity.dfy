/** Cache keys of channel affinity: three free-form parts made safe, joined by colons, and read back. */
module Affinity {
  import opened Options
  import opened Text

  const NAMESPACE := "channel_affinity"

  /** `strings.ReplaceAll` for one character. */
  function ReplaceChar(s: string, from: char, to: char): (r: string)
    ensures |r| == |s| && forall i | 0 <= i < |s| :: r[i] == if s[i] == from then to else s[i]
  {
    seq(|s|, i requires 0 <= i < |s| => if s[i] == from then to else s[i])
  }

  function Sanitize(v: string): string {
    var t := Trim(v);
    if t == "" then "_" else ReplaceChar(t, ':', '_')
  }

  datatype Parts = Parts(rule: string, group: string, fingerprint: string)

  function Safe(p: Parts): Parts { Parts(Sanitize(p.rule), Sanitize(p.group), Sanitize(p.fingerprint)) }

  function BuildKey(p: Parts): string {
    NAMESPACE + ":" + Sanitize(p.rule) + ":" + Sanitize(p.group) + ":" + Sanitize(p.fingerprint)
  }

  function ParseKey(key: string): Option<Parts> {
    var parts := Split(key, ':');
    if |parts| != 4 || parts[0] != NAMESPACE then None else Some(Parts(parts[1], parts[2], parts[3]))
  }

  lemma SanitizeSpec(v: string)
    ensures Sanitize(v) != "" && ':' !in Sanitize(v) && Trimmed(Sanitize(v))
    ensures Sanitize(v) == v <==> v != "" && Trimmed(v) && ':' !in v
  {
    TrimSpec(v);
    NotBlank();
    hide IsSpace, Trim;
    var t, r := Trim(v), Sanitize(v);
    if t != "" {
      assert r[0] == t[0] || r[0] == '_';
      assert r[|r| - 1] == t[|r| - 1] || r[|r| - 1] == '_';
      if ':' !in t {
        assert r == t;
      }
    }
  }

  /** What sanitising does: white space around the part goes, each colon becomes an underscore, a blank part is one underscore. */
  lemma SanitizeMeans(v: string)
    ensures Sanitize(v) == "_" || |Sanitize(v)| == |Trim(v)|
    ensures Trim(v) == "" ==> Sanitize(v) == "_"
    ensures forall i | 0 <= i < |Trim(v)| :: i < |Sanitize(v)| && Sanitize(v)[i] == if Trim(v)[i] == ':' then '_' else Trim(v)[i]
  {
    hide Trim;
  }

  /** The key of parts that need no sanitising, spelled out. */
  lemma CleanKey(p: Parts)
    requires Safe(p) == p
    ensures BuildKey(p) == "channel_affinity:" + p.rule + ":" + p.group + ":" + p.fingerprint
  {
    hide Sanitize;
    assert NAMESPACE + ":" == "channel_affinity:";
  }

  lemma NotBlank()
    ensures !IsSpace('_')
  {}

  /** Sanitising parts that were already sanitised, as clearing the cache does, changes nothing. */
  lemma SafeTwice(p: Parts)
    ensures Safe(Safe(p)) == Safe(p) && BuildKey(Safe(p)) == BuildKey(p)
  {
    SanitizeSpec(p.rule);
    SanitizeSpec(p.group);
    SanitizeSpec(p.fingerprint);
    SanitizeSpec(Sanitize(p.rule));
    SanitizeSpec(Sanitize(p.group));
    SanitizeSpec(Sanitize(p.fingerprint));
    hide Sanitize;
  }

  lemma SplitFour(a: string, b: string, c: string, d: string)
    requires ':' !in a && ':' !in b && ':' !in c && ':' !in d
    ensures Split(a + ":" + b + ":" + c + ":" + d, ':') == [a, b, c, d]
  {
    hide Split;
    var cd := c + [':'] + d;
    var bcd := b + [':'] + cd;
    SplitWhole(d, ':');
    SplitPiece(c, d, ':');
    SplitPiece(b, cd, ':');
    SplitPiece(a, bcd, ':');
    assert a + ":" + b + ":" + c + ":" + d == a + [':'] + bcd;
  }

  /** Reading a built key gives the sanitised parts back, whatever the parts were. */
  lemma ParseOfBuild(p: Parts)
    ensures ParseKey(BuildKey(p)) == Some(Safe(p))
  {
    SanitizeSpec(p.rule);
    SanitizeSpec(p.group);
    SanitizeSpec(p.fingerprint);
    hide Sanitize;
    SplitFour(NAMESPACE, Sanitize(p.rule), Sanitize(p.group), Sanitize(p.fingerprint));
    hide Split;
  }

  /** Two requests share an affinity entry exactly when their sanitised parts agree. */
  lemma EntriesShared(p: Parts, q: Parts)
    ensures BuildKey(p) == BuildKey(q) <==> Safe(p) == Safe(q)
  {
    ParseOfBuild(p);
    ParseOfBuild(q);
  }

  /** Every key that parses is its own parts joined again. */
  lemma BuildOfParse(key: string)
    requires ParseKey(key).Some?
    ensures var p := ParseKey(key).value; key == NAMESPACE + ":" + p.rule + ":" + p.group + ":" + p.fingerprint
    ensures var p := ParseKey(key).value; BuildKey(p) == key <==> Safe(p) == p
  {
    var parts := Split(key, ':');
    var p := ParseKey(key).value;
    SplitParts(key, ':');
    assert parts == [NAMESPACE, p.rule, p.group, p.fingerprint];
    JoinFour(NAMESPACE, p.rule, p.group, p.fingerprint);
    hide Split, Join, Sanitize;
    if BuildKey(p) == key {
      ParseOfBuild(p);
    }
  }

  lemma JoinFour(a: string, b: string, c: string, d: string)
    ensures Join([a, b, c, d], ':') == a + ":" + b + ":" + c + ":" + d
  {
    assert [a, b, c, d][1..] == [b, c, d] && [b, c, d][1..] == [c, d] && [c, d][1..] == [d];
    assert Join([c, d], ':') == c + ":" + d;
    assert Join([b, c, d], ':') == b + ":" + (c + ":" + d);
  }
}
