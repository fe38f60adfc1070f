/**
 * The Python `str` operations the application relies on, with CPython's
 * semantics for the inputs that can reach them.  Case mapping is ASCII only
 * and integer parsing accepts ASCII digits only (see README.md).
 */
module PyStr {
  import opened Wrappers

  // ---------------------------------------------------------------------
  // Counting and splitting
  // ---------------------------------------------------------------------

  /** Number of occurrences of `c` in `s`. */
  function Occurrences(s: string, c: char): nat
  {
    if s == [] then 0 else (if s[0] == c then 1 else 0) + Occurrences(s[1..], c)
  }

  lemma {:induction false} OccurrencesAppend(a: string, b: string, c: char)
    ensures Occurrences(a + b, c) == Occurrences(a, c) + Occurrences(b, c)
  {
    if a == [] {
      assert a + b == b;
    } else {
      assert (a + b)[1..] == a[1..] + b;
      OccurrencesAppend(a[1..], b, c);
    }
  }

  /** Python's `s.split(sep)` for a one-character separator. */
  function Split(s: string, sep: char): (parts: seq<string>)
    ensures |parts| >= 1
  {
    if s == [] then [""]
    else
      var rest := Split(s[1..], sep);
      if s[0] == sep then [""] + rest
      else [[s[0]] + rest[0]] + rest[1..]
  }

  /** One more part than there are separators. */
  lemma {:induction false} SplitCount(s: string, sep: char)
    ensures |Split(s, sep)| == 1 + Occurrences(s, sep)
    decreases |s|
  {
    if s != [] {
      SplitCount(s[1..], sep);
    }
  }

  /** No part holds the separator. */
  lemma {:induction false} SplitPartsLackSeparator(s: string, sep: char)
    ensures forall i :: 0 <= i < |Split(s, sep)| ==> sep !in Split(s, sep)[i]
    decreases |s|
  {
    if s != [] {
      SplitPartsLackSeparator(s[1..], sep);
      var rest := Split(s[1..], sep);
      if s[0] != sep {
        assert sep !in [s[0]] + rest[0];
        assert forall i :: 1 <= i < |Split(s, sep)| ==> Split(s, sep)[i] == rest[i];
      }
    }
  }

  /** Python's `s.split(sep)[-1]`. */
  function LastSegment(s: string, sep: char): string
  {
    var parts := Split(s, sep);
    parts[|parts| - 1]
  }

  /** A string without the separator splits into itself alone. */
  lemma {:induction false} SplitWithoutSeparator(s: string, sep: char)
    requires sep !in s
    ensures Split(s, sep) == [s]
  {
    if s != [] {
      assert sep !in s[1..] by {
        forall k | 0 <= k < |s[1..]| ensures s[1..][k] != sep { assert s[1..][k] == s[k + 1]; }
      }
      SplitWithoutSeparator(s[1..], sep);
      assert [s[0]] + s[1..] == s;
    }
  }

  /** `split` on a string given by its first character and the rest. */
  lemma SplitCons(c: char, t: string, sep: char)
    ensures Split([c] + t, sep)
            == if c == sep then [""] + Split(t, sep) else [[c] + Split(t, sep)[0]] + Split(t, sep)[1..]
  {
    assert ([c] + t)[0] == c;
    assert ([c] + t)[1..] == t;
  }

  /** The split of `[c] + u`, given the split of `u` as `ra + rb`, is the split of `[c]` glued to `ra`, then `rb`. */
  lemma GlueFirst(c: char, sep: char, ra: seq<string>, rb: seq<string>, whole: seq<string>, front: seq<string>)
    requires |ra| >= 1
    requires whole == if c == sep then [""] + (ra + rb) else [[c] + (ra + rb)[0]] + (ra + rb)[1..]
    requires front == if c == sep then [""] + ra else [[c] + ra[0]] + ra[1..]
    ensures whole == front + rb
  {
    assert (ra + rb)[0] == ra[0];
    assert (ra + rb)[1..] == ra[1..] + rb;
  }

  /** Splitting distributes over a separator that joins two strings. */
  lemma {:induction false} SplitAroundSeparator(a: string, b: string, sep: char)
    ensures Split(a + [sep] + b, sep) == Split(a, sep) + Split(b, sep)
    decreases |a|
  {
    if a == [] {
      assert a + [sep] + b == [sep] + b;
      SplitCons(sep, b, sep);
    } else {
      var c, t := a[0], a[1..];
      var u := t + [sep] + b;
      assert a == [c] + t;
      assert a + [sep] + b == [c] + u;
      SplitAroundSeparator(t, b, sep);
      SplitCons(c, u, sep);
      SplitCons(c, t, sep);
      GlueFirst(c, sep, Split(t, sep), Split(b, sep), Split([c] + u, sep), Split([c] + t, sep));
    }
  }

  /** The last `sep`-segment of `head + [sep] + tail` is `tail` when `tail` has no `sep`. */
  lemma LastSegmentAfterSeparator(head: string, tail: string, sep: char)
    requires sep !in tail
    ensures LastSegment(head + [sep] + tail, sep) == tail
    ensures |Split(head + [sep] + tail, sep)| == Occurrences(head, sep) + 2
  {
    SplitAroundSeparator(head, tail, sep);
    SplitWithoutSeparator(tail, sep);
    SplitCount(head, sep);
  }

  /** Python's `sep.join(parts)`. */
  function Join(parts: seq<string>, sep: string): string
  {
    if |parts| == 0 then ""
    else if |parts| == 1 then parts[0]
    else Join(parts[..|parts| - 1], sep) + sep + parts[|parts| - 1]
  }

  /** Splitting a join on its one-character separator gives the parts back. */
  lemma {:induction false} SplitJoin(parts: seq<string>, sep: char)
    requires |parts| >= 1
    requires forall i :: 0 <= i < |parts| ==> sep !in parts[i]
    ensures Split(Join(parts, [sep]), sep) == parts
  {
    if |parts| == 1 {
      SplitWithoutSeparator(parts[0], sep);
    } else {
      var init := parts[..|parts| - 1];
      var last := parts[|parts| - 1];
      SplitJoin(init, sep);
      SplitAroundSeparator(Join(init, [sep]), last, sep);
      SplitWithoutSeparator(last, sep);
      assert init + [last] == parts;
    }
  }

  // ---------------------------------------------------------------------
  // Substrings, replacement, case
  // ---------------------------------------------------------------------

  /** `p` occurs in `s` at index `i`. */
  predicate OccursAt(s: string, p: string, i: nat)
  {
    i + |p| <= |s| && s[i..i + |p|] == p
  }

  /** Python's `p in s`. */
  predicate Contains(s: string, p: string)
    decreases |s|
  {
    p <= s || (s != [] && Contains(s[1..], p))
  }

  /** An occurrence one further along in `s` is an occurrence in its tail. */
  lemma OccursAtShift(s: string, p: string, i: nat)
    requires s != []
    ensures OccursAt(s, p, i + 1) <==> OccursAt(s[1..], p, i)
  {
    if i + 1 + |p| <= |s| {
      assert s[1..][i..i + |p|] == s[i + 1..i + 1 + |p|];
    }
  }

  /** `p in s` holds exactly when `p` occurs at some index of `s`. */
  lemma {:induction false} ContainsIff(s: string, p: string)
    ensures Contains(s, p) <==> exists i: nat :: OccursAt(s, p, i)
    decreases |s|
  {
    if p <= s {
      assert OccursAt(s, p, 0);
    } else if s == [] {
      forall i: nat ensures !OccursAt(s, p, i) {
        assert OccursAt(s, p, i) ==> p == [];
      }
    } else {
      ContainsIff(s[1..], p);
      assert !OccursAt(s, p, 0);
      if Contains(s[1..], p) {
        var i: nat :| OccursAt(s[1..], p, i);
        OccursAtShift(s, p, i);
      } else {
        forall i: nat ensures !OccursAt(s, p, i) {
          if i > 0 {
            OccursAtShift(s, p, i - 1);
          }
        }
      }
    }
  }

  /** The middle piece of a three-part concatenation is found at its offset. */
  lemma MiddleSlice(a: string, b: string, c: string)
    ensures (a + b + c)[|a|..|a| + |b|] == b
  {
  }

  /** Python's `s.replace(p, "")`: every non-overlapping occurrence, left to right. */
  function RemoveAll(s: string, p: string): string
    decreases |s|
  {
    if p == [] then s
    else if |s| < |p| then s
    else if s[..|p|] == p then RemoveAll(s[|p|..], p)
    else [s[0]] + RemoveAll(s[1..], p)
  }

  /** A character that `str(i)` can produce. */
  predicate NumeralChar(c: char)
  {
    '0' <= c <= '9' || c == '-'
  }

  /** Removing a pattern that starts with a non-numeral leaves a numeral prefix alone. */
  lemma {:induction false} RemoveAllSkipsNumeral(d: string, e: string, p: string)
    requires forall k :: 0 <= k < |d| ==> NumeralChar(d[k])
    requires p != [] && !NumeralChar(p[0])
    ensures RemoveAll(d + e, p) == d + RemoveAll(e, p)
    decreases |d|
  {
    if d == [] {
      assert d + e == e;
    } else {
      var s := d + e;
      if |s| < |p| {
        assert |e| < |p|;
      } else {
        assert s[..|p|][0] == d[0];
        assert s[1..] == d[1..] + e;
        RemoveAllSkipsNumeral(d[1..], e, p);
        assert [d[0]] + d[1..] == d;
      }
    }
  }

  /** A leading occurrence of the pattern is removed. */
  lemma RemoveAllLeading(p: string, e: string)
    requires p != []
    ensures RemoveAll(p + e, p) == RemoveAll(e, p)
  {
    assert (p + e)[..|p|] == p;
    assert (p + e)[|p|..] == e;
  }

  /** A string no longer than the pattern, and different from it, has nothing to remove. */
  lemma {:induction false} RemoveAllAbsent(s: string, p: string)
    requires |s| <= |p| && s != p
    ensures RemoveAll(s, p) == s
    decreases |s|
  {
    if p != [] && |s| >= |p| {
      assert s[..|p|] == s;
    }
    if p != [] && |s| >= |p| && s != [] {
      RemoveAllAbsent(s[1..], p);
      assert [s[0]] + s[1..] == s;
    }
  }

  function LowerChar(c: char): char
  {
    if 'A' <= c <= 'Z' then (c as int + 32) as char else c
  }

  /** Python's `s.lower()` on ASCII letters. */
  function AsciiLower(s: string): (r: string)
    ensures |r| == |s|
    ensures forall i :: 0 <= i < |s| ==> r[i] == LowerChar(s[i])
  {
    if s == [] then [] else [LowerChar(s[0])] + AsciiLower(s[1..])
  }

  // ---------------------------------------------------------------------
  // Whitespace
  // ---------------------------------------------------------------------

  /** Python's `c.isspace()`: the characters that `str.strip()` removes. */
  predicate IsSpace(c: char)
  {
    var n := c as int;
    (9 <= n <= 13) || (28 <= n <= 32) || n == 0x85 || n == 0xA0 || n == 0x1680
    || (0x2000 <= n <= 0x200A) || n == 0x2028 || n == 0x2029 || n == 0x202F
    || n == 0x205F || n == 0x3000
  }

  /** Python's `s.lstrip()`. */
  function StripLeft(s: string): (r: string)
    ensures |r| <= |s| && r == s[|s| - |r|..]
    ensures forall k :: 0 <= k < |s| - |r| ==> IsSpace(s[k])
    ensures r != [] ==> !IsSpace(r[0])
  {
    if s != [] && IsSpace(s[0]) then
      var r := StripLeft(s[1..]);
      assert s[1..][|s| - 1 - |r|..] == s[|s| - |r|..];
      r
    else s
  }

  /** Python's `s.rstrip()`. */
  function StripRight(s: string): (r: string)
    ensures |r| <= |s| && r == s[..|r|]
    ensures forall k :: |r| <= k < |s| ==> IsSpace(s[k])
    ensures r != [] ==> !IsSpace(r[|r| - 1])
  {
    if s != [] && IsSpace(s[|s| - 1]) then
      var r := StripRight(s[..|s| - 1]);
      assert s[..|s| - 1][..|r|] == s[..|r|];
      r
    else s
  }

  /** Python's `s.strip()`. */
  function Strip(s: string): (r: string)
    ensures |r| <= |s|
    ensures r != [] ==> !IsSpace(r[0]) && !IsSpace(r[|r| - 1])
    ensures r == [] <==> forall k :: 0 <= k < |s| ==> IsSpace(s[k])
    ensures s != [] && !IsSpace(s[0]) && !IsSpace(s[|s| - 1]) ==> r == s
  {
    var l := StripLeft(s);
    var r := StripRight(l);
    assert r != [] ==> r[0] == l[0];
    assert l == [] ==> r == [];
    assert l != [] ==> r != [] by {
      if l != [] {
        assert !IsSpace(l[0]);
      }
    }
    assert l == [] ==> forall k :: 0 <= k < |s| ==> IsSpace(s[k]);
    r
  }

  /** Stripping a string ending in a newline drops it when nothing else is at the edges. */
  lemma StripTrailingNewline(text: string)
    requires text != [] && !IsSpace(text[0]) && !IsSpace(text[|text| - 1])
    ensures Strip(text + "\n") == text
  {
    var s := text + "\n";
    assert StripLeft(s) == s;
    assert s[..|s| - 1] == text;
    assert StripRight(s) == StripRight(text) == text;
  }

  // ---------------------------------------------------------------------
  // Integers as text
  // ---------------------------------------------------------------------

  predicate IsDigit(c: char)
  {
    '0' <= c <= '9'
  }

  /** A non-empty run of ASCII digits. */
  predicate IsDecimal(d: string)
  {
    |d| >= 1 && forall k :: 0 <= k < |d| ==> IsDigit(d[k])
  }

  function DigitChar(d: int): char
    requires 0 <= d < 10
  {
    (48 + d) as char
  }

  /** The number a run of decimal digits denotes (most significant first). */
  function DigitsValue(d: string): int
  {
    if d == [] then 0 else DigitsValue(d[..|d| - 1]) * 10 + (d[|d| - 1] as int - 48)
  }

  function Pow10(k: nat): nat
  {
    if k == 0 then 1 else 10 * Pow10(k - 1)
  }

  /** Python's `str(n)` for `n >= 0`. */
  function NatToString(n: nat): (r: string)
    ensures IsDecimal(r) && DigitsValue(r) == n
  {
    if n < 10 then [DigitChar(n)]
    else
      var init := NatToString(n / 10);
      assert (init + [DigitChar(n % 10)])[..|init|] == init;
      init + [DigitChar(n % 10)]
  }

  lemma {:induction false} NatToStringWidth(n: nat, k: nat)
    requires 1 <= k && n < Pow10(k)
    ensures |NatToString(n)| <= k
  {
    if n >= 10 {
      assert k >= 2;
      NatToStringWidth(n / 10, k - 1);
    }
  }

  /** Python's `str(i)`. */
  function IntToString(i: int): string
  {
    if i < 0 then "-" + NatToString(-i) else NatToString(i)
  }

  lemma IntToStringNumeral(i: int)
    ensures forall k :: 0 <= k < |IntToString(i)| ==> NumeralChar(IntToString(i)[k])
  {
    var d := NatToString(if i < 0 then -i else i);
    if i < 0 {
      forall k | 0 <= k < |IntToString(i)| ensures NumeralChar(IntToString(i)[k]) {
        if k > 0 { assert IntToString(i)[k] == d[k - 1]; }
      }
    }
  }

  /** Python's `int(t)` on text without surrounding whitespace: an optional sign and ASCII digits. */
  function ParseSigned(t: string): Option<int>
  {
    if t != [] && (t[0] == '-' || t[0] == '+') then
      if IsDecimal(t[1..]) then
        Some(if t[0] == '-' then -DigitsValue(t[1..]) else DigitsValue(t[1..]))
      else None
    else if IsDecimal(t) then Some(DigitsValue(t))
    else None
  }

  /**
   * Python's `int(s)` restricted to what this model admits: surrounding
   * whitespace, an optional sign and a non-empty run of ASCII digits.
   */
  function ParseInt(s: string): Option<int>
  {
    ParseSigned(Strip(s))
  }

  lemma NumeralNotSpace(c: char)
    requires NumeralChar(c)
    ensures !IsSpace(c)
  {
  }

  /** `int(u)` for a run of decimal digits `u`. */
  lemma ParseIntDecimal(u: string)
    requires IsDecimal(u)
    ensures ParseInt(u) == Some(DigitsValue(u))
  {
    NumeralNotSpace(u[0]);
    NumeralNotSpace(u[|u| - 1]);
    assert Strip(u) == u;
    assert IsDigit(u[0]);
  }

  lemma StripNegativeDecimal(u: string)
    requires IsDecimal(u)
    ensures Strip("-" + u) == "-" + u
  {
    var t := "-" + u;
    assert t[0] == '-';
    NumeralNotSpace(t[0]);
    NumeralNotSpace(u[|u| - 1]);
    assert t[|t| - 1] == u[|u| - 1];
  }

  lemma ParseSignedNegativeDecimal(u: string)
    requires IsDecimal(u)
    ensures ParseSigned("-" + u) == Some(-DigitsValue(u))
  {
    var t := "-" + u;
    assert t[1..] == u;
  }

  /** `int("-" + u)` for a run of decimal digits `u`. */
  lemma ParseIntNegativeDecimal(u: string)
    requires IsDecimal(u)
    ensures ParseInt("-" + u) == Some(-DigitsValue(u))
  {
    StripNegativeDecimal(u);
    ParseSignedNegativeDecimal(u);
  }

  /** `int(str(i)) == i`. */
  lemma ParseIntToString(i: int)
    ensures ParseInt(IntToString(i)) == Some(i)
  {
    if i < 0 {
      ParseIntNegativeDecimal(NatToString(-i));
    } else {
      ParseIntDecimal(NatToString(i));
    }
  }

  /** Leading zeros do not change the value of a digit run. */
  lemma {:induction false} LeadingZerosValue(z: string, d: string)
    requires forall k :: 0 <= k < |z| ==> z[k] == '0'
    ensures DigitsValue(z + d) == DigitsValue(d)
    decreases |d|, |z|
  {
    if d == [] {
      assert z + d == z;
      if z != [] {
        LeadingZerosValue(z[..|z| - 1], []);
        assert z[..|z| - 1] + [] == z[..|z| - 1];
      }
    } else {
      var init := d[..|d| - 1];
      assert (z + d)[..|z + d| - 1] == z + init;
      LeadingZerosValue(z, init);
    }
  }

  function Zeros(n: int): (r: string)
    ensures |r| == (if n < 0 then 0 else n)
    ensures forall k :: 0 <= k < |r| ==> r[k] == '0'
  {
    if n <= 0 then "" else seq(n, _ => '0')
  }

  /** Python's `format(i, "0" + str(width))`: sign-aware padding with zeros. */
  function FormatZeroPadded(i: int, width: nat): string
  {
    var sign := if i < 0 then "-" else "";
    var digits := NatToString(if i < 0 then -i else i);
    sign + Zeros(width - |sign| - |digits|) + digits
  }

  /** Shape of `format(i, "0w")`: every character a digit or the sign, and at least `width` long. */
  lemma FormatZeroPaddedShape(i: int, width: nat)
    ensures |FormatZeroPadded(i, width)| >= width && |FormatZeroPadded(i, width)| >= 1
    ensures forall k :: 0 <= k < |FormatZeroPadded(i, width)| ==> NumeralChar(FormatZeroPadded(i, width)[k])
    ensures 0 <= i < Pow10(width) && width >= 1 ==> |FormatZeroPadded(i, width)| == width
  {
    var sign := if i < 0 then "-" else "";
    var digits := NatToString(if i < 0 then -i else i);
    var z := Zeros(width - |sign| - |digits|);
    var t := sign + z + digits;
    forall k | 0 <= k < |t| ensures NumeralChar(t[k]) {
      if k < |sign| { assert t[k] == '-'; }
      else if k < |sign| + |z| { assert t[k] == z[k - |sign|]; }
      else { assert t[k] == digits[k - |sign| - |z|]; }
    }
    if 0 <= i < Pow10(width) && width >= 1 {
      NatToStringWidth(i, width);
    }
  }

  lemma ZeroPaddedDecimal(z: string, digits: string)
    requires forall k :: 0 <= k < |z| ==> z[k] == '0'
    requires IsDecimal(digits)
    ensures IsDecimal(z + digits) && DigitsValue(z + digits) == DigitsValue(digits)
  {
    LeadingZerosValue(z, digits);
    var u := z + digits;
    forall k | 0 <= k < |u| ensures IsDigit(u[k]) {
      if k < |z| { assert u[k] == z[k]; } else { assert u[k] == digits[k - |z|]; }
    }
  }

  /** The digits of `format(i, "0w")` after the sign: zeros followed by `str(abs(i))`. */
  function PaddedDigits(i: int, width: nat): (u: string)
    ensures IsDecimal(u) && DigitsValue(u) == (if i < 0 then -i else i)
  {
    var sign := if i < 0 then "-" else "";
    var digits := NatToString(if i < 0 then -i else i);
    var z := Zeros(width - |sign| - |digits|);
    ZeroPaddedDecimal(z, digits);
    z + digits
  }

  lemma FormatZeroPaddedParts(i: int, width: nat)
    ensures FormatZeroPadded(i, width) == (if i < 0 then "-" else "") + PaddedDigits(i, width)
  {
  }

  /** `int(format(i, "0w")) == i`. */
  lemma ParseIntFormatZeroPadded(i: int, width: nat)
    ensures ParseInt(FormatZeroPadded(i, width)) == Some(i)
  {
    FormatZeroPaddedParts(i, width);
    var u := PaddedDigits(i, width);
    if i < 0 {
      ParseIntNegativeDecimal(u);
    } else {
      assert "" + u == u;
      ParseIntDecimal(u);
    }
  }
}
