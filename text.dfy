/**
  The pieces of Go's `strings` and `strconv` packages the core relies on,
  stated over `seq<char>`: whitespace trimming and field splitting with
  `unicode.IsSpace`, separator splitting, byte search, prefix and suffix
  tests, ASCII lower-casing and the decimal rendering used by `%d`.
*/
module Text {
  import opened Wrappers

  /** `unicode.IsSpace`: the Latin-1 spaces and the Unicode White_Space
      characters; no printable ASCII character is one of them. */
  predicate IsSpace(c: char)
    ensures IsSpace(c) ==> !('!' <= c <= '~')
  {
    || c == ' ' || c == '\t' || c == '\n' || c == '\r' || c == '\U{000B}' || c == '\U{000C}'
    || c == '\U{0085}' || c == '\U{00A0}' || c == '\U{1680}'
    || ('\U{2000}' <= c <= '\U{200A}')
    || c == '\U{2028}' || c == '\U{2029}' || c == '\U{202F}' || c == '\U{205F}' || c == '\U{3000}'
  }

  predicate NoSpace(s: string) {
    forall i :: 0 <= i < |s| ==> !IsSpace(s[i])
  }

  predicate AllSpace(s: string) {
    forall i :: 0 <= i < |s| ==> IsSpace(s[i])
  }

  predicate HasPrefix(s: string, p: string) {
    |p| <= |s| && s[..|p|] == p
  }

  predicate HasSuffix(s: string, p: string)
    ensures HasSuffix(s, p) ==> |p| <= |s| && s == s[..|s| - |p|] + p
  {
    |p| <= |s| && s[|s| - |p|..] == p
  }

  /** `strings.TrimSuffix`: drops `p` once if `s` ends with it. */
  function TrimSuffix(s: string, p: string): (r: string)
    ensures HasSuffix(s, p) ==> r + p == s
    ensures !HasSuffix(s, p) ==> r == s
  {
    if HasSuffix(s, p) then s[..|s| - |p|] else s
  }

  /** Leading whitespace removed. */
  function TrimLeft(s: string): (r: string)
    ensures |r| <= |s|
    ensures r == [] || !IsSpace(r[0])
  {
    if |s| > 0 && IsSpace(s[0]) then TrimLeft(s[1..]) else s
  }

  /** TrimLeft drops a run of whitespace and stops at the first other character. */
  lemma {:induction false} TrimLeftShape(s: string) returns (k: nat)
    ensures k <= |s| && TrimLeft(s) == s[k..]
    ensures forall i :: 0 <= i < k ==> IsSpace(s[i])
    decreases |s|
  {
    if |s| > 0 && IsSpace(s[0]) {
      var k1 := TrimLeftShape(s[1..]);
      k := k1 + 1;
      assert s[k..] == s[1..][k1..];
      forall i | 0 < i < k
        ensures IsSpace(s[i])
      {
        assert s[i] == s[1..][i - 1];
      }
    } else {
      k := 0;
    }
  }

  /** Trailing whitespace removed. */
  function TrimRight(s: string): (r: string)
    ensures |r| <= |s|
    ensures r == [] || !IsSpace(r[|r| - 1])
  {
    if |s| > 0 && IsSpace(s[|s| - 1]) then TrimRight(s[..|s| - 1]) else s
  }

  lemma {:induction false} TrimRightShape(s: string) returns (k: nat)
    ensures k <= |s| && TrimRight(s) == s[..k]
    ensures forall i :: k <= i < |s| ==> IsSpace(s[i])
    decreases |s|
  {
    if |s| > 0 && IsSpace(s[|s| - 1]) {
      var p := s[..|s| - 1];
      k := TrimRightShape(p);
      assert s[..k] == p[..k];
      forall i | k <= i < |s| - 1
        ensures IsSpace(s[i])
      {
        assert s[i] == p[i];
      }
    } else {
      k := |s|;
      assert s[..k] == s;
    }
  }

  /** `strings.TrimSpace`. */
  function TrimSpace(s: string): (r: string)
    ensures |r| <= |s|
  {
    TrimRight(TrimLeft(s))
  }

  /** What TrimSpace keeps is a slice of `s` that neither starts nor ends with
      whitespace, and everything it drops on either side is whitespace. */
  lemma TrimSpaceShape(s: string) returns (i: nat, j: nat)
    ensures i <= j <= |s| && TrimSpace(s) == s[i..j]
    ensures forall x :: 0 <= x < i || j <= x < |s| ==> IsSpace(s[x])
    ensures i < j ==> !IsSpace(s[i]) && !IsSpace(s[j - 1])
  {
    i := TrimLeftShape(s);
    var l := s[i..];
    var k := TrimRightShape(l);
    j := i + k;
    assert l[..k] == s[i..j];
    forall x | j <= x < |s|
      ensures IsSpace(s[x])
    {
      assert s[x] == l[x - i];
    }
    if i < j {
      assert s[i] == l[0];
      assert s[j - 1] == TrimSpace(s)[k - 1];
    }
  }

  lemma TrimSpaceEmpty(s: string)
    ensures TrimSpace(s) == [] <==> AllSpace(s)
  {
    var i, j := TrimSpaceShape(s);
  }

  /** Trimming twice changes nothing more. */
  lemma TrimSpaceIdempotent(s: string)
    ensures TrimSpace(TrimSpace(s)) == TrimSpace(s)
  {
    var t := TrimSpace(s);
    var i, j := TrimSpaceShape(s);
    var i2, j2 := TrimSpaceShape(t);
    if t != [] {
      assert t[0] == s[i] && t[|t| - 1] == s[j - 1];
    }
    assert t[i2..j2] == t;
  }

  /** A string is its own trimming exactly when it neither starts nor ends with whitespace. */
  lemma TrimmedEnds(s: string)
    ensures TrimSpace(s) == s <==> (s == [] || (!IsSpace(s[0]) && !IsSpace(s[|s| - 1])))
  {
    var i, j := TrimSpaceShape(s);
    if s != [] && !IsSpace(s[0]) && !IsSpace(s[|s| - 1]) {
      assert i == 0;
      assert j == |s|;
    }
  }

  lemma TrimSpaceNoSpace(s: string)
    requires NoSpace(s)
    ensures TrimSpace(s) == s
  {
    TrimmedEnds(s);
  }

  /** Number of leading non-space characters. */
  function WordLength(s: string): (n: nat)
    ensures n <= |s|
    ensures |s| > 0 && !IsSpace(s[0]) ==> n > 0
  {
    if |s| == 0 || IsSpace(s[0]) then 0 else WordLength(s[1..]) + 1
  }

  lemma {:induction false} WordLengthShape(s: string)
    ensures NoSpace(s[..WordLength(s)])
    ensures WordLength(s) < |s| ==> IsSpace(s[WordLength(s)])
  {
    if |s| > 0 && !IsSpace(s[0]) {
      WordLengthShape(s[1..]);
      var n := WordLength(s);
      assert s[..n] == [s[0]] + s[1..][..n - 1];
      if n < |s| { assert s[n] == s[1..][n - 1]; }
    }
  }

  /** `strings.Fields`: the maximal runs of non-space characters, in order. */
  function Fields(s: string): (r: seq<string>)
    ensures |r| <= |s|
    decreases |s|
  {
    var t := TrimLeft(s);
    if t == [] then []
    else
      var n := WordLength(t);
      [t[..n]] + Fields(t[n..])
  }

  /** Every field is a non-empty run without whitespace. */
  lemma {:induction false} FieldsAreWords(s: string)
    ensures forall w :: w in Fields(s) ==> w != [] && NoSpace(w)
    decreases |s|
  {
    var t := TrimLeft(s);
    if t != [] {
      var n := WordLength(t);
      WordLengthShape(t);
      FieldsAreWords(t[n..]);
      assert Fields(s) == [t[..n]] + Fields(t[n..]);
    }
  }

  /** The characters of `s` that are not whitespace, in order. */
  function Visible(s: string): string {
    if s == [] then [] else (if IsSpace(s[0]) then [] else [s[0]]) + Visible(s[1..])
  }

  function Concat(parts: seq<string>): string {
    if parts == [] then [] else parts[0] + Concat(parts[1..])
  }

  lemma {:induction false} VisibleAppend(a: string, b: string)
    ensures Visible(a + b) == Visible(a) + Visible(b)
  {
    if a != [] {
      assert (a + b)[0] == a[0] && (a + b)[1..] == a[1..] + b;
      VisibleAppend(a[1..], b);
      assert Visible(a + b) == (if IsSpace(a[0]) then [] else [a[0]]) + Visible(a[1..] + b);
    } else {
      assert a + b == b;
    }
  }

  lemma {:induction false} VisibleOfSpaces(s: string)
    requires AllSpace(s)
    ensures Visible(s) == []
  {
    if s != [] { VisibleOfSpaces(s[1..]); }
  }

  lemma {:induction false} VisibleOfNoSpace(s: string)
    requires NoSpace(s)
    ensures Visible(s) == s
  {
    if s != [] { VisibleOfNoSpace(s[1..]); }
  }

  lemma VisibleTrimLeft(s: string)
    ensures Visible(s) == Visible(TrimLeft(s))
  {
    var k := TrimLeftShape(s);
    assert s == s[..k] + s[k..];
    VisibleAppend(s[..k], s[k..]);
    VisibleOfSpaces(s[..k]);
  }

  lemma ConcatCons(w: string, rest: seq<string>)
    ensures Concat([w] + rest) == w + Concat(rest)
  {
    assert ([w] + rest)[1..] == rest;
  }

  /** Splitting into fields loses exactly the whitespace: gluing the fields gives back every other character. */
  lemma {:induction false} FieldsKeepVisible(s: string)
    ensures Concat(Fields(s)) == Visible(s)
    decreases |s|
  {
    VisibleTrimLeft(s);
    var t := TrimLeft(s);
    if t != [] {
      var n := WordLength(t);
      var w, u := t[..n], t[n..];
      assert t == w + u;
      VisibleAppend(w, u);
      WordLengthShape(t);
      VisibleOfNoSpace(w);
      FieldsKeepVisible(u);
      assert Fields(s) == [w] + Fields(u);
      ConcatCons(w, Fields(u));
    }
  }

  lemma VisibleTrimRight(s: string)
    ensures Visible(s) == Visible(TrimRight(s))
  {
    var k := TrimRightShape(s);
    assert s == s[..k] + s[k..];
    VisibleAppend(s[..k], s[k..]);
    forall i | 0 <= i < |s[k..]|
      ensures IsSpace(s[k..][i])
    {
      assert s[k..][i] == s[k + i];
    }
    VisibleOfSpaces(s[k..]);
  }

  /** Trimming drops only whitespace. */
  lemma VisibleTrimSpace(s: string)
    ensures Visible(TrimSpace(s)) == Visible(s)
  {
    VisibleTrimLeft(s);
    VisibleTrimRight(TrimLeft(s));
  }

  lemma {:induction false} WordLengthNoSpace(w: string)
    requires NoSpace(w)
    ensures WordLength(w) == |w|
  {
    if w != [] {
      assert forall i :: 0 <= i < |w[1..]| ==> w[1..][i] == w[i + 1];
      WordLengthNoSpace(w[1..]);
    }
  }

  /** A single word is its own only field. */
  lemma FieldsOfWord(w: string)
    requires w != [] && NoSpace(w)
    ensures Fields(w) == [w]
  {
    assert TrimLeft(w) == w;
    WordLengthNoSpace(w);
    assert w[..|w|] == w && w[|w|..] == [];
  }

  /** A word followed by whitespace is as long as the word. */
  lemma {:induction false} WordLengthBeforeSpace(w: string, c: char, rest: string)
    requires NoSpace(w) && IsSpace(c)
    ensures WordLength(w + [c] + rest) == |w|
    decreases |w|
  {
    if w == [] {
      assert (w + [c] + rest)[0] == c;
    } else {
      assert (w + [c] + rest)[1..] == w[1..] + [c] + rest;
      WordLengthBeforeSpace(w[1..], c, rest);
    }
  }

  /** Fields looks only at what follows the leading whitespace. */
  lemma FieldsSkipsSpace(c: char, rest: string)
    requires IsSpace(c)
    ensures Fields([c] + rest) == Fields(rest)
  {
    assert ([c] + rest)[1..] == rest;
    assert TrimLeft([c] + rest) == TrimLeft(rest);
  }

  /** A word, whitespace and the rest: the word is the first field, and the rest gives the others. */
  lemma FieldsCons(w: string, c: char, rest: string)
    requires w != [] && NoSpace(w) && IsSpace(c)
    ensures Fields(w + [c] + rest) == [w] + Fields(rest)
  {
    var t := w + [c] + rest;
    assert t[0] == w[0];
    assert TrimLeft(t) == t;
    WordLengthBeforeSpace(w, c, rest);
    assert t[..|w|] == w && t[|w|..] == [c] + rest;
    FieldsSkipsSpace(c, rest);
  }

  /** Words joined by single spaces split back into the same words. */
  lemma {:induction false} FieldsJoin(ws: seq<string>)
    requires |ws| >= 1
    requires forall i :: 0 <= i < |ws| ==> ws[i] != [] && NoSpace(ws[i])
    ensures Fields(Join(ws, ' ')) == ws
  {
    if |ws| == 1 {
      FieldsOfWord(ws[0]);
    } else {
      FieldsJoin(ws[1..]);
      FieldsCons(ws[0], ' ', Join(ws[1..], ' '));
      assert ws == [ws[0]] + ws[1..];
    }
  }

  /** Words joined by spaces neither start nor end with whitespace. */
  lemma {:induction false} JoinTrimmed(ws: seq<string>)
    requires |ws| >= 1
    requires forall i :: 0 <= i < |ws| ==> ws[i] != [] && NoSpace(ws[i])
    ensures TrimSpace(Join(ws, ' ')) == Join(ws, ' ')
    ensures Join(ws, ' ')[0] == ws[0][0]
    ensures !IsSpace(Join(ws, ' ')[|Join(ws, ' ')| - 1])
  {
    if |ws| > 1 {
      JoinTrimmed(ws[1..]);
      var j := Join(ws[1..], ' ');
      assert Join(ws, ' ') == ws[0] + [' '] + j;
      assert Join(ws, ' ')[|Join(ws, ' ')| - 1] == j[|j| - 1];
    }
    TrimmedEnds(Join(ws, ' '));
  }

  lemma FieldsEmpty(s: string)
    ensures Fields(s) == [] <==> AllSpace(s)
  {
    var k := TrimLeftShape(s);
    if AllSpace(s) && k < |s| {
      assert IsSpace(s[k]);
    }
  }

  /** `strings.IndexByte`: the first position holding `c`. */
  function IndexByte(s: string, c: char): (r: Option<nat>)
    ensures r.Some? ==> r.value < |s| && s[r.value] == c && c !in s[..r.value]
    ensures r.None? ==> c !in s
  {
    if |s| == 0 then None
    else if s[0] == c then Some(0)
    else
      match IndexByte(s[1..], c)
      case None => None
      case Some(i) =>
        assert s[..i + 1] == [s[0]] + s[1..][..i];
        Some(i + 1)
  }

  /** `strings.LastIndexByte`: the last position holding `c`. */
  function LastIndexByte(s: string, c: char): (r: Option<nat>)
    ensures r.Some? ==> r.value < |s| && s[r.value] == c && c !in s[r.value + 1..]
    ensures r.None? ==> c !in s
  {
    if |s| == 0 then None
    else if s[|s| - 1] == c then Some(|s| - 1)
    else
      var r := LastIndexByte(s[..|s| - 1], c);
      assert r.Some? ==> s[r.value + 1..] == s[..|s| - 1][r.value + 1..] + [s[|s| - 1]];
      assert r.None? ==> s == s[..|s| - 1] + [s[|s| - 1]];
      r
  }

  /** `strings.Split` with a one-character separator. */
  function Split(s: string, sep: char): (r: seq<string>)
    ensures |r| >= 1
    ensures forall i :: 0 <= i < |r| ==> sep !in r[i]
    decreases |s|
  {
    match IndexByte(s, sep)
    case None => [s]
    case Some(i) => [s[..i]] + Split(s[i + 1..], sep)
  }

  /** `strings.Join` with a one-character separator. */
  function Join(parts: seq<string>, sep: char): (r: string)
    requires |parts| >= 1
    ensures |parts[0]| <= |r| && r[..|parts[0]|] == parts[0]
    ensures |parts| > 1 ==> |parts[0]| < |r| && r[|parts[0]|] == sep
  {
    if |parts| == 1 then parts[0] else parts[0] + [sep] + Join(parts[1..], sep)
  }

  lemma {:induction false} JoinSplit(s: string, sep: char)
    ensures Join(Split(s, sep), sep) == s
    decreases |s|
  {
    match IndexByte(s, sep)
    case None =>
    case Some(i) =>
      var rest := Split(s[i + 1..], sep);
      var parts := [s[..i]] + rest;
      assert Split(s, sep) == parts;
      assert parts[1..] == rest;
      assert Join(parts, sep) == s[..i] + [sep] + Join(rest, sep);
      JoinSplit(s[i + 1..], sep);
      assert s == s[..i] + [sep] + s[i + 1..];
  }

  lemma {:induction false} SplitJoin(parts: seq<string>, sep: char)
    requires |parts| >= 1
    requires forall i :: 0 <= i < |parts| ==> sep !in parts[i]
    ensures Split(Join(parts, sep), sep) == parts
  {
    if |parts| > 1 {
      SplitAfter(parts[0], sep, Join(parts[1..], sep));
      SplitJoin(parts[1..], sep);
      assert parts == [parts[0]] + parts[1..];
    } else {
      assert parts == [parts[0]];
    }
  }

  /** Splitting at the first separator: the part before it, then the split of the rest. */
  lemma SplitAfter(a: string, sep: char, b: string)
    requires sep !in a
    ensures Split(a + [sep] + b, sep) == [a] + Split(b, sep)
  {
    var s := a + [sep] + b;
    assert s[|a|] == sep;
    assert s[..|a|] == a;
    assert s[|a| + 1..] == b;
  }

  /** ASCII case folding of one character. */
  function LowerChar(c: char): (r: char)
    ensures 'A' <= c <= 'Z' ==> r as int == c as int + 32
    ensures !('A' <= c <= 'Z') ==> r == c
  {
    if 'A' <= c <= 'Z' then (c as int + 32) as char else c
  }

  /** `strings.ToLower`, restricted to the ASCII letters. */
  function ToLower(s: string): (r: string)
    ensures |r| == |s| && forall i :: 0 <= i < |s| ==> r[i] == LowerChar(s[i])
  {
    if s == [] then [] else [LowerChar(s[0])] + ToLower(s[1..])
  }

  lemma ToLowerIdempotent(s: string)
    ensures ToLower(ToLower(s)) == ToLower(s)
  {
  }

  // ---- decimal numbers ----

  predicate IsDigit(c: char) { '0' <= c <= '9' }

  predicate AllDigits(s: string) { forall i :: 0 <= i < |s| ==> IsDigit(s[i]) }

  function DigitValue(c: char): nat
    requires IsDigit(c)
  {
    c as int - '0' as int
  }

  function DigitChar(d: nat): (c: char)
    requires d < 10
    ensures IsDigit(c) && DigitValue(c) == d
  {
    ('0' as int + d) as char
  }

  /** The value of a run of decimal digits, most significant first. */
  function DigitsValue(s: string): nat
    requires AllDigits(s)
  {
    if s == [] then 0 else DigitsValue(s[..|s| - 1]) * 10 + DigitValue(s[|s| - 1])
  }

  /** Canonical decimal digits: no leading zero unless the number is zero. */
  predicate Canonical(s: string) {
    |s| >= 1 && AllDigits(s) && (|s| > 1 ==> s[0] != '0')
  }

  /** Decimal rendering of a natural number (`%d`, `strconv.Itoa`). */
  function NatToString(n: nat): (r: string)
    ensures Canonical(r)
  {
    if n < 10 then [DigitChar(n)]
    else
      var p := NatToString(n / 10);
      assert (p + [DigitChar(n % 10)])[0] == p[0];
      p + [DigitChar(n % 10)]
  }

  /** Decimal rendering of an integer, with a leading '-' when negative. */
  function IntToString(i: int): (r: string)
    ensures r != [] && (r[0] == '-' <==> i < 0)
  {
    if i < 0 then "-" + NatToString(-i) else NatToString(i)
  }

  lemma {:induction false} NatToStringValue(n: nat)
    ensures DigitsValue(NatToString(n)) == n
  {
    if n >= 10 {
      var p := NatToString(n / 10);
      var s := p + [DigitChar(n % 10)];
      assert s[..|s| - 1] == p;
      NatToStringValue(n / 10);
    }
  }

  lemma {:induction false} LeadingDigitPositive(s: string)
    requires Canonical(s) && s[0] != '0'
    ensures DigitsValue(s) >= 1
  {
    if |s| > 1 {
      var p := s[..|s| - 1];
      assert p[0] == s[0];
      LeadingDigitPositive(p);
    }
  }

  /** Canonical digit strings are exactly the renderings of natural numbers. */
  lemma {:induction false} CanonicalIsRendering(s: string)
    requires Canonical(s)
    ensures NatToString(DigitsValue(s)) == s
  {
    if |s| > 1 {
      var p := s[..|s| - 1];
      assert p[0] == s[0];
      assert Canonical(p);
      LeadingDigitPositive(p);
      var v := DigitsValue(s);
      assert v / 10 == DigitsValue(p) && v % 10 == DigitValue(s[|s| - 1]);
      CanonicalIsRendering(p);
      assert s == p + [s[|s| - 1]];
    }
  }

  /** Strict decimal parsing: an optional '-' and canonical digits, "-0" refused. */
  function ParseCanonicalInt(s: string): Option<int> {
    if |s| >= 2 && s[0] == '-' && Canonical(s[1..]) && s[1] != '0' then Some(0 - DigitsValue(s[1..]) as int)
    else if Canonical(s) then Some(DigitsValue(s))
    else None
  }

  /** The strict parser reads back every rendering, and only renderings. */
  lemma IntToStringRoundTrip(i: int)
    ensures ParseCanonicalInt(IntToString(i)) == Some(i)
  {
    if i < 0 {
      var d := NatToString(-i);
      var s := "-" + d;
      assert s[1..] == d;
      NatToStringValue(-i);
      NatToStringLeading(-i);
      assert ParseCanonicalInt(s) == Some(0 - DigitsValue(d));
    } else {
      var s := NatToString(i);
      assert IsDigit(s[0]);
      NatToStringValue(i);
      assert ParseCanonicalInt(s) == Some(DigitsValue(s));
    }
  }

  /** A positive number's rendering does not start with '0'. */
  lemma {:induction false} NatToStringLeading(n: nat)
    requires n >= 1
    ensures NatToString(n)[0] != '0'
  {
    if n >= 10 {
      NatToStringLeading(n / 10);
    }
  }

  lemma ParseCanonicalIntIsRendering(s: string, i: int)
    requires ParseCanonicalInt(s) == Some(i)
    ensures s == IntToString(i)
  {
    if |s| >= 2 && s[0] == '-' && Canonical(s[1..]) && s[1] != '0' {
      CanonicalIsRendering(s[1..]);
      LeadingDigitPositive(s[1..]);
      assert s == "-" + s[1..];
    } else {
      CanonicalIsRendering(s);
    }
  }

  lemma IntToStringInjective(i: int, j: int)
    requires IntToString(i) == IntToString(j)
    ensures i == j
  {
    IntToStringRoundTrip(i);
    IntToStringRoundTrip(j);
  }

  lemma IntToStringNoColon(i: int)
    ensures ':' !in IntToString(i) && '@' !in IntToString(i)
  {
    var s := IntToString(i);
    var d := NatToString(if i < 0 then -i else i);
    assert forall k :: 0 <= k < |d| ==> IsDigit(d[k]);
  }

  /** A non-negative rendering has digits only, so no '-'. */
  lemma NatRenderingNoDash(n: int)
    requires n >= 0
    ensures '-' !in IntToString(n)
  {
    var d := NatToString(n);
    assert forall k :: 0 <= k < |d| ==> IsDigit(d[k]);
  }
}
