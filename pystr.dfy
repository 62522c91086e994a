/** The Python string primitives the bot's routing and parsing rely on:
    `str.startswith`, `str.strip(chars)` (which strips a character SET), `str.strip()`,
    `str.split(sep)` with a one-character separator, and `int(str)` in base 10. */
module PyStr {
  import opened Wrappers

  /** `str.startswith(prefix)`, compared character by character; every string starts with
      the empty string. */
  predicate StartsWith(s: string, prefix: string) {
    |prefix| == 0 || (|s| > 0 && s[0] == prefix[0] && StartsWith(s[1..], prefix[1..]))
  }

  /** `s.startswith(p)` holds exactly when `p` is the slice `s[:len(p)]`. */
  lemma {:induction false} StartsWithIsSlicePrefix(s: string, p: string)
    ensures StartsWith(s, p) <==> |p| <= |s| && s[..|p|] == p
  {
    if |p| > 0 && |s| > 0 {
      StartsWithIsSlicePrefix(s[1..], p[1..]);
      if |p| <= |s| {
        assert s[..|p|] == [s[0]] + s[1..][..|p| - 1];
        assert p == [p[0]] + p[1..];
      }
    }
  }

  /** Starting with a string implies starting with each of its prefixes. */
  lemma {:induction false} StartsWithTransitive(s: string, p: string, q: string)
    requires StartsWith(s, p) && StartsWith(p, q)
    ensures StartsWith(s, q)
  {
    if |q| > 0 {
      StartsWithTransitive(s[1..], p[1..], q[1..]);
    }
  }

  /** Neither of `p` and `a` is a prefix of the other: they differ at a position both have. */
  predicate Clashes(p: string, a: string) {
    |p| > 0 && |a| > 0 && (p[0] != a[0] || Clashes(p[1..], a[1..]))
  }

  /** A string that starts with `p` does not start with a string that clashes with `p`. */
  lemma {:induction false} ClashExcludes(s: string, p: string, a: string)
    requires StartsWith(s, p) && Clashes(p, a)
    ensures !StartsWith(s, a)
  {
    if p[0] == a[0] {
      ClashExcludes(s[1..], p[1..], a[1..]);
    }
  }

  /** No string starts with two non-empty strings whose first characters differ. */
  lemma StartsWithDistinctHeads(s: string, p: string, q: string)
    requires |p| > 0 && |q| > 0 && p[0] != q[0]
    requires StartsWith(s, p)
    ensures !StartsWith(s, q)
  {
  }

  /** The characters `str.isspace()` accepts, which `str.strip()` with no argument removes. */
  predicate IsSpace(c: char) {
    || ('\t' <= c <= '\r')
    || ('\U{1C}' <= c <= '\U{1F}')
    || c == ' '
    || c == '\U{85}'
    || c == '\U{A0}'
    || c == '\U{1680}'
    || ('\U{2000}' <= c <= '\U{200A}')
    || c == '\U{2028}'
    || c == '\U{2029}'
    || c == '\U{202F}'
    || c == '\U{205F}'
    || c == '\U{3000}'
  }

  /** Length of the longest prefix of `s` whose characters all satisfy `drop`. */
  function LeftCut(s: string, drop: char -> bool): (i: nat)
    ensures i <= |s|
    ensures forall k | 0 <= k < i :: drop(s[k])
    ensures i < |s| ==> !drop(s[i])
  {
    if |s| == 0 || !drop(s[0]) then 0 else 1 + LeftCut(s[1..], drop)
  }

  /** Start of the longest suffix of `s` whose characters all satisfy `drop`. */
  function RightCut(s: string, drop: char -> bool): (j: nat)
    ensures j <= |s|
    ensures forall k | j <= k < |s| :: drop(s[k])
    ensures 0 < j ==> !drop(s[j - 1])
  {
    if |s| == 0 || !drop(s[|s| - 1]) then |s| else RightCut(s[..|s| - 1], drop)
  }

  /** The slice bounds `[lo, hi)` that `strip` keeps: everything outside them is dropped,
      and the kept slice neither starts nor ends with a dropped character. */
  function StripBounds(s: string, drop: char -> bool): (b: (nat, nat))
    ensures b.0 <= b.1 <= |s|
    ensures forall k | 0 <= k < b.0 :: drop(s[k])
    ensures forall k | b.1 <= k < |s| :: drop(s[k])
    ensures b.0 < b.1 ==> !drop(s[b.0]) && !drop(s[b.1 - 1])
  {
    var lo := LeftCut(s, drop);
    var hi := lo + RightCut(s[lo..], drop);
    (lo, hi)
  }

  function StripWith(s: string, drop: char -> bool): string {
    var b := StripBounds(s, drop);
    s[b.0..b.1]
  }

  /** `s.strip(chars)`: removes from both ends every character that occurs ANYWHERE in
      `chars`, not the literal string `chars`. */
  function StripChars(s: string, chars: string): string {
    StripWith(s, InSet(chars))
  }

  /** Membership in the characters of `chars`, as a predicate on characters. */
  function InSet(chars: string): char -> bool {
    c => c in chars
  }

  /** `s.strip()`: removes surrounding whitespace. */
  function Strip(s: string): string {
    StripWith(s, IsSpace)
  }

  /** The bounds of `strip` are the only ones with dropped characters outside and kept
      characters at both ends. */
  lemma StripBoundsAre(s: string, drop: char -> bool, lo: nat, hi: nat)
    requires lo < hi <= |s|
    requires forall k | 0 <= k < lo :: drop(s[k])
    requires forall k | hi <= k < |s| :: drop(s[k])
    requires !drop(s[lo]) && !drop(s[hi - 1])
    ensures StripBounds(s, drop) == (lo, hi)
  {
    var b := StripBounds(s, drop);
    assert b.0 <= lo && lo < b.1;
    assert b.0 == lo;
    assert b.1 == hi;
  }

  /** A text made only of dropped characters strips to nothing. */
  lemma StripAllDropped(s: string, drop: char -> bool)
    requires forall k | 0 <= k < |s| :: drop(s[k])
    ensures StripWith(s, drop) == []
  {
    var b := StripBounds(s, drop);
    assert b.0 == b.1;
  }

  /** Stripping a set of characters from a text made of those characters followed by a
      text that neither starts nor ends with one of them leaves exactly the latter. */
  lemma StripCharsAfterPrefix(prefix: string, rest: string, chars: string)
    requires forall k | 0 <= k < |prefix| :: prefix[k] in chars
    requires rest != [] && rest[0] !in chars && rest[|rest| - 1] !in chars
    ensures StripChars(prefix + rest, chars) == rest
  {
    var s := prefix + rest;
    forall k | 0 <= k < |prefix|
      ensures InSet(chars)(s[k])
    {
      assert s[k] == prefix[k];
    }
    assert s[|prefix|] == rest[0] && s[|s| - 1] == rest[|rest| - 1];
    StripBoundsAre(s, InSet(chars), |prefix|, |s|);
    assert s[|prefix|..|s|] == rest;
  }

  /** A string that neither starts nor ends with a dropped character is kept whole. */
  lemma StripKeepsClean(s: string, drop: char -> bool)
    requires s != [] ==> !drop(s[0]) && !drop(s[|s| - 1])
    ensures StripWith(s, drop) == s
  {
    var b := StripBounds(s, drop);
    if s != [] {
      assert b.0 == 0;
      assert b.1 == |s|;
    }
  }

  /** `strip` is idempotent: stripping twice removes nothing more. */
  lemma StripIdempotent(s: string, drop: char -> bool)
    ensures StripWith(StripWith(s, drop), drop) == StripWith(s, drop)
  {
    var b := StripBounds(s, drop);
    var t := s[b.0..b.1];
    if t != [] {
      assert t[0] == s[b.0] && t[|t| - 1] == s[b.1 - 1];
    }
    StripKeepsClean(t, drop);
  }

  /** Position of the first `c` in `s`, or `|s|` when there is none. */
  function Find(s: string, c: char): (k: nat)
    ensures k <= |s|
    ensures forall i | 0 <= i < k :: s[i] != c
    ensures k < |s| ==> s[k] == c
  {
    if |s| == 0 then 0 else if s[0] == c then 0 else 1 + Find(s[1..], c)
  }

  /** `s.split(sep)` for a one-character separator: never empty, adjacent separators give
      empty pieces, and `"".split(sep) == [""]`. */
  function Split(s: string, sep: char): (parts: seq<string>)
    ensures |parts| >= 1
    ensures forall i | 0 <= i < |parts| :: sep !in parts[i]
    decreases |s|
  {
    var k := Find(s, sep);
    if k == |s| then [s] else [s[..k]] + Split(s[k + 1..], sep)
  }

  /** `sep.join(parts)`. */
  function Join(parts: seq<string>, sep: char): string
    requires |parts| >= 1
  {
    if |parts| == 1 then parts[0] else parts[0] + [sep] + Join(parts[1..], sep)
  }

  /** Joining the pieces puts the string back together. */
  lemma {:induction false} JoinSplit(s: string, sep: char)
    ensures Join(Split(s, sep), sep) == s
    decreases |s|
  {
    var k := Find(s, sep);
    if k < |s| {
      JoinSplit(s[k + 1..], sep);
      assert s == s[..k] + [sep] + s[k + 1..];
    }
  }

  /** Splitting a join of separator-free pieces gives back the pieces. */
  lemma {:induction false} SplitJoin(parts: seq<string>, sep: char)
    requires |parts| >= 1
    requires forall i | 0 <= i < |parts| :: sep !in parts[i]
    ensures Split(Join(parts, sep), sep) == parts
  {
    if |parts| > 1 {
      var rest := Join(parts[1..], sep);
      assert sep !in parts[0];
      SplitAfterPiece(parts[0], rest, sep);
      SplitJoin(parts[1..], sep);
      assert parts == [parts[0]] + parts[1..];
    } else {
      StringWithoutSepIsOnePiece(parts[0], sep);
    }
  }

  /** A separator-free piece followed by the separator splits off as the first part. */
  lemma SplitAfterPiece(p: string, rest: string, sep: char)
    requires sep !in p
    ensures Split(p + [sep] + rest, sep) == [p] + Split(rest, sep)
  {
    var s := p + [sep] + rest;
    FindAfterPiece(p, rest, sep);
    assert s[..|p|] == p;
    assert s[|p| + 1..] == rest;
  }

  lemma {:induction false} FindAfterPiece(p: string, rest: string, sep: char)
    requires sep !in p
    ensures Find(p + [sep] + rest, sep) == |p|
  {
    var s := p + [sep] + rest;
    if |p| > 0 {
      assert p[0] in p;
      assert s[1..] == p[1..] + [sep] + rest;
      FindAfterPiece(p[1..], rest, sep);
    }
  }

  /** A string with exactly one separator, at position `k`, splits into the two pieces around
      it. */
  lemma SplitTwoWords(s: string, k: nat)
    requires k < |s| && s[k] == ' '
    requires forall i | 0 <= i < |s| && i != k :: s[i] != ' '
    ensures Split(s, ' ') == [s[..k], s[k + 1..]]
  {
    assert Find(s, ' ') == k;
    assert ' ' !in s[k + 1..];
    StringWithoutSepIsOnePiece(s[k + 1..], ' ');
  }

  lemma StringWithoutSepIsOnePiece(s: string, sep: char)
    requires sep !in s
    ensures Split(s, sep) == [s]
  {
  }

  // ---------------------------------------------------------------------------
  // Decimal numerals

  predicate IsDigit(c: char) { '0' <= c <= '9' }

  function DigitValue(c: char): nat
    requires IsDigit(c)
  {
    (c as int) - ('0' as int)
  }

  function DigitChar(d: nat): (c: char)
    requires d < 10
    ensures IsDigit(c) && DigitValue(c) == d
  {
    ('0' as int + d) as char
  }

  /** The body Python's `int()` accepts after the sign: ASCII digits, with single
      underscores allowed only between two digits. */
  predicate IsNumeral(s: string) {
    && |s| >= 1
    && IsDigit(s[0])
    && IsDigit(s[|s| - 1])
    && (forall i | 0 <= i < |s| :: IsDigit(s[i]) || s[i] == '_')
    && (forall i | 0 <= i < |s| - 1 :: s[i] == '_' ==> s[i + 1] != '_')
  }

  /** The value of a numeral, underscores ignored. */
  function NumeralValue(s: string): nat
    requires forall i | 0 <= i < |s| :: IsDigit(s[i]) || s[i] == '_'
  {
    if |s| == 0 then 0
    else if s[|s| - 1] == '_' then NumeralValue(s[..|s| - 1])
    else 10 * NumeralValue(s[..|s| - 1]) + DigitValue(s[|s| - 1])
  }

  /** `int(s)` in base 10: surrounding whitespace allowed, an optional sign, then a numeral;
      anything else is the `ValueError` case, here `None`. */
  function ParseInt(s: string): Option<int>
  {
    var t := Strip(s);
    if |t| >= 1 && (t[0] == '-' || t[0] == '+') then
      if IsNumeral(t[1..]) then
        var v: int := NumeralValue(t[1..]);
        Some(if t[0] == '-' then -v else v)
      else None
    else if IsNumeral(t) then Some(NumeralValue(t))
    else None
  }

  /** `str(n)` for a natural number. */
  function NatToString(n: nat): (s: string)
    ensures |s| >= 1
    ensures forall i | 0 <= i < |s| :: IsDigit(s[i])
  {
    if n < 10 then [DigitChar(n)] else NatToString(n / 10) + [DigitChar(n % 10)]
  }

  /** `str(n)` for any integer. */
  function IntToString(n: int): string {
    if n < 0 then "-" + NatToString(-n) else NatToString(n)
  }

  lemma {:induction false} NumeralOfNatToString(n: nat)
    ensures IsNumeral(NatToString(n))
    ensures NumeralValue(NatToString(n)) == n
  {
    var s := NatToString(n);
    if n >= 10 {
      NumeralOfNatToString(n / 10);
      assert s[..|s| - 1] == NatToString(n / 10);
    }
  }

  lemma DigitIsNotSpace(c: char)
    requires IsDigit(c) || c == '-'
    ensures !IsSpace(c)
  {
  }

  /** `int(str(n)) == n`: the decimal rendering parses back to the same number. */
  lemma ParseIntToString(n: int)
    ensures ParseInt(IntToString(n)) == Some(n)
  {
    var m := if n < 0 then -n else n;
    var body := NatToString(m);
    NumeralOfNatToString(m);
    var s := IntToString(n);
    assert s == (if n < 0 then "-" else "") + body;
    assert s[|s| - 1] == body[|body| - 1];
    DigitIsNotSpace(s[0]);
    DigitIsNotSpace(s[|s| - 1]);
    StripKeepsClean(s, IsSpace);
    assert Strip(s) == s;
    if n < 0 {
      assert s[1..] == body;
      assert s[0] == '-';
    } else {
      assert s == body && m == n;
      assert IsDigit(s[0]) && s[0] != '-' && s[0] != '+';
      assert ParseInt(s) == Some(NumeralValue(s));
    }
  }

  /** Distinct numbers render differently. */
  lemma IntToStringInjective(a: int, b: int)
    requires IntToString(a) == IntToString(b)
    ensures a == b
  {
    ParseIntToString(a);
    ParseIntToString(b);
  }
}
