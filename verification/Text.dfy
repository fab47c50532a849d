/** The string primitives the program takes from Go's `strings` and `strconv` packages. */
module Text {
  import opened Options

  /** The white space `strings.TrimSpace` removes. */
  predicate IsSpace(c: char) {
    || c == '\t' || c == '\n' || c == '\U{0B}' || c == '\U{0C}' || c == '\r' || c == ' '
    || c == '\U{85}' || c == '\U{A0}' || c == '\U{1680}' || '\U{2000}' <= c <= '\U{200A}'
    || c == '\U{2028}' || c == '\U{2029}' || c == '\U{202F}' || c == '\U{205F}' || c == '\U{3000}'
  }

  function TrimLeft(s: string): string {
    if s != "" && IsSpace(s[0]) then TrimLeft(s[1..]) else s
  }

  function TrimRight(s: string): string {
    if s != "" && IsSpace(s[|s| - 1]) then TrimRight(s[..|s| - 1]) else s
  }

  function Trim(s: string): string { TrimRight(TrimLeft(s)) }

  predicate Trimmed(s: string) { s != "" ==> !IsSpace(s[0]) && !IsSpace(s[|s| - 1]) }

  predicate Blank(s: string) { forall c | c in s :: IsSpace(c) }

  lemma BlankJoin(a: string, b: string)
    requires Blank(a) && Blank(b)
    ensures Blank(a + b)
  {}

  lemma {:induction false} TrimLeftSpec(s: string)
    ensures TrimLeft(s) != "" ==> !IsSpace(TrimLeft(s)[0])
    ensures exists a :: Blank(a) && s == a + TrimLeft(s)
  {
    hide IsSpace;
    if s != "" && IsSpace(s[0]) {
      TrimLeftSpec(s[1..]);
      var first, back := [s[0]], s[1..];
      var a :| Blank(a) && back == a + TrimLeft(back);
      BlankJoin(first, a);
      assert s == first + back == (first + a) + TrimLeft(back);
      assert TrimLeft(s) == TrimLeft(back);
    } else {
      assert Blank("") && s == "" + s;
    }
  }

  lemma {:induction false} TrimRightSpec(s: string)
    ensures TrimRight(s) != "" ==> !IsSpace(TrimRight(s)[|TrimRight(s)| - 1])
    ensures exists b :: Blank(b) && s == TrimRight(s) + b
  {
    hide IsSpace;
    if s != "" && IsSpace(s[|s| - 1]) {
      TrimRightSpec(s[..|s| - 1]);
      var front, last := s[..|s| - 1], [s[|s| - 1]];
      var b :| Blank(b) && front == TrimRight(front) + b;
      BlankJoin(b, last);
      assert s == front + last == TrimRight(front) + (b + last);
      assert TrimRight(s) == TrimRight(front);
    } else {
      assert Blank("") && s == s + "";
    }
  }

  /** Trimming yields a stretch of the string with no white space at either end, and only white space is lost. */
  lemma TrimSpec(s: string)
    ensures Trimmed(Trim(s))
    ensures Trimmed(s) ==> Trim(s) == s
    ensures exists a, b :: Blank(a) && Blank(b) && s == a + Trim(s) + b
    ensures forall c | c in Trim(s) :: c in s
  {
    hide IsSpace;
    var l := TrimLeft(s);
    TrimLeftSpec(s);
    TrimRightSpec(l);
    var a :| Blank(a) && s == a + l;
    var b :| Blank(b) && l == TrimRight(l) + b;
    assert s == a + Trim(s) + b;
    assert Trim(s) != "" ==> l[0] == Trim(s)[0];
  }

  lemma TrimKeeps(s: string, c: char)
    requires c in s && !IsSpace(c)
    ensures c in Trim(s)
  {
    hide IsSpace;
    TrimSpec(s);
    var a, b :| Blank(a) && Blank(b) && s == a + Trim(s) + b;
  }

  // ---------------------------------------------------------------- splitting and joining

  function Split(s: string, sep: char): (parts: seq<string>)
    ensures |parts| >= 1
  {
    if s == "" then [""]
    else
      var rest := Split(s[1..], sep);
      if s[0] == sep then [""] + rest else [[s[0]] + rest[0]] + rest[1..]
  }

  function Join(parts: seq<string>, sep: char): string {
    if |parts| == 0 then ""
    else if |parts| == 1 then parts[0]
    else parts[0] + [sep] + Join(parts[1..], sep)
  }

  lemma {:induction false} SplitParts(s: string, sep: char)
    ensures forall p | p in Split(s, sep) :: sep !in p
    ensures Join(Split(s, sep), sep) == s
  {
    if s != "" {
      SplitParts(s[1..], sep);
      var rest := Split(s[1..], sep);
      assert s == [s[0]] + s[1..];
      if s[0] != sep {
        assert rest == [rest[0]] + rest[1..];
        assert Split(s, sep)[1..] == rest[1..];
      } else {
        assert Split(s, sep)[1..] == rest;
      }
    }
  }

  lemma {:induction false} SplitPiece(a: string, s: string, sep: char)
    requires sep !in a
    ensures Split(a + [sep] + s, sep) == [a] + Split(s, sep)
  {
    var t := a + [sep] + s;
    if a == "" {
      assert t[1..] == s;
    } else {
      assert t[1..] == a[1..] + [sep] + s;
      SplitPiece(a[1..], s, sep);
      assert a == [a[0]] + a[1..];
    }
  }

  lemma {:induction false} SplitWhole(a: string, sep: char)
    requires sep !in a
    ensures Split(a, sep) == [a]
  {
    if a != "" {
      SplitWhole(a[1..], sep);
      assert a == [a[0]] + a[1..];
    }
  }

  lemma {:induction false} SplitJoin(parts: seq<string>, sep: char)
    requires |parts| >= 1 && forall p | p in parts :: sep !in p
    ensures Split(Join(parts, sep), sep) == parts
  {
    if |parts| == 1 {
      SplitWhole(parts[0], sep);
    } else {
      SplitJoin(parts[1..], sep);
      SplitPiece(parts[0], Join(parts[1..], sep), sep);
    }
  }

  /** Trim every part and drop the blank ones. */
  function TrimAll(parts: seq<string>): seq<string> {
    if parts == [] then []
    else (if Trim(parts[0]) != "" then [Trim(parts[0])] else []) + TrimAll(parts[1..])
  }

  lemma {:induction false} TrimAllAppend(parts: seq<string>, p: string)
    ensures TrimAll(parts + [p]) == TrimAll(parts) + (if Trim(p) != "" then [Trim(p)] else [])
  {
    if parts == [] {
      assert [p][1..] == [];
    } else {
      assert (parts + [p])[1..] == parts[1..] + [p];
      TrimAllAppend(parts[1..], p);
    }
  }

  lemma {:induction false} TrimAllSpec(parts: seq<string>)
    ensures forall k | k in TrimAll(parts) :: k != "" && Trimmed(k)
    ensures forall k, c | k in TrimAll(parts) && c in k :: exists p :: p in parts && c in p
    ensures (forall p | p in parts :: p != "" && Trimmed(p)) ==> TrimAll(parts) == parts
  {
    if parts != [] {
      TrimSpec(parts[0]);
      TrimAllSpec(parts[1..]);
      forall k, c | k in TrimAll(parts) && c in k
        ensures exists p :: p in parts && c in p
      {
        if k in TrimAll(parts[1..]) {
          var p :| p in parts[1..] && c in p;
          assert p in parts;
        } else {
          assert c in parts[0] && parts[0] in parts;
        }
      }
      if forall p | p in parts :: p != "" && Trimmed(p) {
        assert parts[0] in parts && forall p | p in parts[1..] :: p in parts;
        assert parts == [parts[0]] + parts[1..];
      }
    }
  }

  // What is not white space survives every step from a joined list to its trimmed lines.

  lemma {:induction false} JoinKeeps(parts: seq<string>, sep: char, p: string, c: char)
    requires p in parts && c in p
    ensures c in Join(parts, sep)
  {
    if |parts| >= 2 && p != parts[0] {
      JoinKeeps(parts[1..], sep, p, c);
    }
  }

  lemma {:induction false} SplitKeeps(s: string, sep: char, c: char)
    requires c in s && c != sep
    ensures exists p :: p in Split(s, sep) && c in p
  {
    var rest := Split(s[1..], sep);
    if s[0] == c {
      assert c in Split(s, sep)[0];
    } else {
      SplitKeeps(s[1..], sep, c);
      var p :| p in rest && c in p;
      var i :| 0 <= i < |rest| && rest[i] == p;
      if s[0] == sep {
        assert Split(s, sep)[i + 1] == p;
      } else {
        assert c in Split(s, sep)[i];
      }
    }
  }

  lemma {:induction false} UnixLinesKeep(s: string, c: char)
    requires c in s && c != '\r'
    ensures c in UnixLines(s)
  {
    if |s| >= 2 && s[0] == '\r' && s[1] == '\n' {
      if c != '\n' {
        UnixLinesKeep(s[2..], c);
      }
    } else if s[0] != c {
      UnixLinesKeep(s[1..], c);
    }
  }

  lemma {:induction false} TrimAllKeeps(parts: seq<string>, p: string)
    requires p in parts && Trim(p) != ""
    ensures Trim(p) in TrimAll(parts)
  {
    if p != parts[0] {
      TrimAllKeeps(parts[1..], p);
    }
  }

  /** Replaces every carriage return followed by a line feed by the line feed alone. */
  function UnixLines(s: string): string {
    if |s| >= 2 && s[0] == '\r' && s[1] == '\n' then ['\n'] + UnixLines(s[2..])
    else if s == "" then ""
    else [s[0]] + UnixLines(s[1..])
  }

  /** What follows a carriage return and a line feed is read as following the line feed. */
  lemma {:induction false} UnixLinesBreak(a: string, b: string)
    requires '\r' !in a
    ensures UnixLines(a + "\r\n" + b) == a + "\n" + UnixLines(b)
  {
    var s := a + "\r\n" + b;
    if a == "" {
      assert s[2..] == b;
    } else {
      assert s[1..] == a[1..] + "\r\n" + b;
      UnixLinesBreak(a[1..], b);
      assert a == [a[0]] + a[1..];
    }
  }

  predicate NoCrLf(s: string) {
    forall i | 0 <= i < |s| - 1 :: !(s[i] == '\r' && s[i + 1] == '\n')
  }

  lemma {:induction false} UnixLinesSame(s: string)
    requires NoCrLf(s)
    ensures UnixLines(s) == s
  {
    if s != "" {
      assert NoCrLf(s[1..]) by {
        forall i | 0 <= i < |s[1..]| - 1
          ensures !(s[1..][i] == '\r' && s[1..][i + 1] == '\n')
        {
          assert !(s[i + 1] == '\r' && s[i + 2] == '\n');
        }
      }
      UnixLinesSame(s[1..]);
    }
  }

  // ---------------------------------------------------------------- decimal integers

  const MIN_INT := -0x8000_0000_0000_0000
  const MAX_INT := 0x7FFF_FFFF_FFFF_FFFF

  function DigitChar(d: nat): char
    requires d < 10
  {
    '0' + (d as char)
  }

  predicate IsDigit(c: char) { '0' <= c <= '9' }

  function Digits(n: nat): (s: string)
    ensures s != "" && forall c | c in s :: IsDigit(c)
  {
    if n < 10 then [DigitChar(n)] else Digits(n / 10) + [DigitChar(n % 10)]
  }

  function DigitsValue(s: string): nat
    requires forall c | c in s :: IsDigit(c)
  {
    if s == "" then 0
    else
      assert IsDigit(s[|s| - 1]);
      10 * DigitsValue(s[..|s| - 1]) + (s[|s| - 1] as int - '0' as int)
  }

  function Itoa(n: int): string { if n < 0 then "-" + Digits(-n) else Digits(n) }

  /** Optional sign, at least one digit, nothing else, and a value that fits 64 bits. */
  function Atoi(s: string): Option<int> {
    var negative := s != "" && s[0] == '-';
    var digits := if s != "" && (s[0] == '-' || s[0] == '+') then s[1..] else s;
    if digits == "" || !(forall c | c in digits :: IsDigit(c)) then None
    else
      var value: int := DigitsValue(digits);
      var n := if negative then -value else value;
      if MIN_INT <= n <= MAX_INT then Some(n) else None
  }

  lemma {:induction false} DigitsRoundTrip(n: nat)
    ensures DigitsValue(Digits(n)) == n
  {
    if n < 10 {
      assert [DigitChar(n)][..0] == "";
    } else {
      DigitsRoundTrip(n / 10);
      assert Digits(n)[..|Digits(n)| - 1] == Digits(n / 10);
    }
  }

  /** What counts as an index: an optional sign before digits only, leading zeros included, in the range of 64 bits. */
  lemma AtoiMeans(sign: string, digits: string)
    requires sign in {"", "+", "-"} && digits != "" && forall c | c in digits :: '0' <= c <= '9'
    ensures var value: int := DigitsValue(digits); var n := if sign == "-" then -value else value;
            Atoi(sign + digits) == if -0x8000_0000_0000_0000 <= n <= 0x7FFF_FFFF_FFFF_FFFF then Some(n) else None
  {
    var s := sign + digits;
    assert digits[0] in digits;
    if sign == "" {
      assert s == digits;
    } else {
      assert s[0] == sign[0] && s[1..] == digits;
    }
  }

  lemma AtoiRejects(s: string, i: nat)
    requires s == "" || (i < |s| && !('0' <= s[i] <= '9') && (i > 0 || (s[0] != '+' && s[0] != '-') || |s| == 1))
    ensures Atoi(s).None?
  {
    if s != "" && (s[0] == '-' || s[0] == '+') {
      var rest := s[1..];
      if i > 0 {
        assert rest[i - 1] in rest && !IsDigit(rest[i - 1]);
      }
    } else if s != "" {
      assert s[i] in s && !IsDigit(s[i]);
    }
  }

  /** Digits are read in base ten, the last one first. */
  lemma DigitsValueMeans(s: string, d: nat)
    requires d < 10 && forall c | c in s :: IsDigit(c)
    ensures DigitsValue("") == 0 && DigitsValue(s + [DigitChar(d)]) == 10 * DigitsValue(s) + d
    ensures DigitChar(d) == "0123456789"[d]
  {
    assert (s + [DigitChar(d)])[..|s|] == s;
  }

  /** White space as the Unicode standard's property of that name lists it. */
  lemma SpacesAre(c: char)
    ensures IsSpace(c) <==> c in "\t\n\U{0B}\U{0C}\r \U{85}\U{A0}\U{1680}\U{2000}\U{2001}\U{2002}\U{2003}\U{2004}\U{2005}\U{2006}\U{2007}\U{2008}\U{2009}\U{200A}\U{2028}\U{2029}\U{202F}\U{205F}\U{3000}"
  {}

  /** No sign but a minus, and no leading zero. */
  lemma {:induction false} ItoaIsPlain(n: nat)
    ensures Itoa(n) == Digits(n) && (forall c | c in Digits(n) :: '0' <= c <= '9') && (Digits(n)[0] == '0' <==> n == 0)
    ensures n > 0 ==> Itoa(-(n as int)) == "-" + Digits(n)
  {
    if n >= 10 {
      ItoaIsPlain(n / 10);
    }
  }

  lemma ItoaRoundTrip(n: int)
    requires MIN_INT <= n <= MAX_INT
    ensures Atoi(Itoa(n)) == Some(n)
  {
    var d := Digits(if n < 0 then -n else n);
    DigitsRoundTrip(if n < 0 then -n else n);
    assert IsDigit(d[0]);
    if n < 0 {
      assert Itoa(n)[1..] == d;
    }
  }
}
