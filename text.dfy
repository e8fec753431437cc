/**
 * String operations the interface relies on, written out on `seq<char>`:
 * JavaScript's `trim`, `toLowerCase`, `startsWith`, `includes`,
 * `Array.prototype.join("\n")` and the decimal rendering of an integer in a
 * template literal.
 */
module Text {

  /** The characters JavaScript's `String.prototype.trim` removes:
      WhiteSpace and LineTerminator in ECMAScript. */
  predicate IsSpace(c: char)
  {
    c == ' ' || c == '\t' || c == '\n' || c == '\r' || c == '\U{B}' || c == '\U{C}'
    || c == '\U{A0}' || c == '\U{1680}' || ('\U{2000}' <= c <= '\U{200A}')
    || c == '\U{2028}' || c == '\U{2029}' || c == '\U{202F}' || c == '\U{205F}'
    || c == '\U{3000}' || c == '\U{FEFF}'
  }

  predicate AllSpace(s: string)
  {
    forall i :: 0 <= i < |s| ==> IsSpace(s[i])
  }

  /** `s` neither begins nor ends with a space character. */
  predicate Trimmed(s: string)
  {
    s == [] || (!IsSpace(s[0]) && !IsSpace(s[|s| - 1]))
  }

  /** The index of the first non-space character at or after `i`, or `|s|`. */
  function SkipSpaces(s: string, i: nat): (j: nat)
    requires i <= |s|
    ensures i <= j <= |s|
    ensures forall k :: i <= k < j ==> IsSpace(s[k])
    ensures j < |s| ==> !IsSpace(s[j])
    decreases |s| - i
  {
    if i < |s| && IsSpace(s[i]) then SkipSpaces(s, i + 1) else i
  }

  /** The end of `s[..j]` once its trailing space characters are dropped. */
  function SkipSpacesBack(s: string, j: nat): (i: nat)
    requires j <= |s|
    ensures i <= j
    ensures forall k :: i <= k < j ==> IsSpace(s[k])
    ensures i > 0 ==> !IsSpace(s[i - 1])
  {
    if j > 0 && IsSpace(s[j - 1]) then SkipSpacesBack(s, j - 1) else j
  }

  /** JavaScript's `trim`. */
  function Trim(s: string): string
  {
    var a := SkipSpaces(s, 0);
    var b := SkipSpacesBack(s, |s|);
    if a < b then s[a..b] else ""
  }

  lemma {:induction false} SkipSpacesAt(s: string, i: nat, j: nat)
    requires i <= j <= |s|
    requires forall k :: i <= k < j ==> IsSpace(s[k])
    requires j == |s| || !IsSpace(s[j])
    ensures SkipSpaces(s, i) == j
    decreases j - i
  {
    if i < j {
      SkipSpacesAt(s, i + 1, j);
    }
  }

  lemma {:induction false} SkipSpacesBackAt(s: string, i: nat, j: nat)
    requires i <= j <= |s|
    requires forall k :: i <= k < j ==> IsSpace(s[k])
    requires i == 0 || !IsSpace(s[i - 1])
    ensures SkipSpacesBack(s, j) == i
    decreases j - i
  {
    if i < j {
      SkipSpacesBackAt(s, i, j - 1);
    }
  }

  /** `s` is `core` with only space characters before index `a` and after
      `core`. */
  predicate PaddedAt(s: string, core: string, a: int)
  {
    0 <= a <= |s| - |core| && s[a..a + |core|] == core
    && AllSpace(s[..a]) && AllSpace(s[a + |core|..])
  }

  /** `Trim(s)` is trimmed at both ends and `s` is it wrapped in space
      characters. */
  lemma TrimShape(s: string)
    ensures Trimmed(Trim(s))
    ensures PaddedAt(s, Trim(s), SkipSpaces(s, 0))
  {
    var a := SkipSpaces(s, 0);
    var b := SkipSpacesBack(s, |s|);
    if a < |s| {
      assert a < b;
    }
  }

  lemma AllSpaceConcat(a: string, b: string)
    requires AllSpace(a) && AllSpace(b)
    ensures AllSpace(a + b)
  {
  }

  /** Trimming recovers the core of any string padded with spaces: the
      characterisation of `Trim` by its inputs. */
  lemma TrimOfPadded(lead: string, core: string, trail: string)
    requires AllSpace(lead) && AllSpace(trail) && Trimmed(core)
    ensures Trim(lead + core + trail) == core
  {
    var s := lead + core + trail;
    if core == [] {
      SkipSpacesAt(s, 0, |s|);
    } else {
      var a, b := |lead|, |lead| + |core|;
      assert s[a] == core[0] && s[b - 1] == core[|core| - 1];
      SkipSpacesAt(s, 0, a);
      SkipSpacesBackAt(s, b, |s|);
      assert s[a..b] == core;
    }
  }

  /** Trimming twice changes nothing beyond trimming once. */
  lemma TrimIdempotent(s: string)
    ensures Trim(Trim(s)) == Trim(s)
  {
    TrimShape(s);
    TrimOfPadded([], Trim(s), []);
    assert [] + Trim(s) + [] == Trim(s);
  }

  /** JavaScript's `toLowerCase` on one character, for the ASCII letters. */
  function LowerChar(c: char): (r: char)
    ensures 'A' <= c <= 'Z' ==> 'a' <= r <= 'z' && r as int == c as int + 32
    ensures !('A' <= c <= 'Z') ==> r == c
  {
    if 'A' <= c <= 'Z' then (c as int + 32) as char else c
  }

  /** JavaScript's `toLowerCase`, for the ASCII letters. */
  function Lower(s: string): (r: string)
    ensures |r| == |s|
  {
    if s == [] then [] else [LowerChar(s[0])] + Lower(s[1..])
  }

  /** `Lower` maps each character on its own. */
  lemma {:induction false} LowerAt(s: string, i: nat)
    requires i < |s|
    ensures Lower(s)[i] == LowerChar(s[i])
  {
    if i > 0 {
      LowerAt(s[1..], i - 1);
    }
  }

  lemma {:induction false} LowerIdempotent(s: string)
    ensures Lower(Lower(s)) == Lower(s)
  {
    if s != [] {
      LowerIdempotent(s[1..]);
    }
  }

  /** Trimming ignores any extra padding. */
  lemma TrimIgnoresPadding(lead: string, s: string, trail: string)
    requires AllSpace(lead) && AllSpace(trail)
    ensures Trim(lead + s + trail) == Trim(s)
  {
    var l, t := TrimSplit(s);
    var core := Trim(s);
    assert lead + s + trail == (lead + l) + core + (t + trail);
    AllSpaceConcat(lead, l);
    AllSpaceConcat(t, trail);
    TrimOfPadded(lead + l, core, t + trail);
  }

  /** The space characters `Trim(s)` drops on either side. */
  lemma TrimSplit(s: string) returns (l: string, t: string)
    ensures s == l + Trim(s) + t
    ensures AllSpace(l) && AllSpace(t) && Trimmed(Trim(s))
  {
    var a := SkipSpaces(s, 0);
    TrimShape(s);
    l, t := s[..a], s[a + |Trim(s)|..];
    assert s == l + Trim(s) + t;
  }

  lemma {:induction false} LowerConcat3(a: string, b: string, c: string)
    ensures Lower(a + b + c) == Lower(a) + Lower(b) + Lower(c)
  {
    var s := a + b + c;
    var t := Lower(a) + Lower(b) + Lower(c);
    forall i | 0 <= i < |s| ensures Lower(s)[i] == t[i] {
      LowerAt(s, i);
      if i < |a| {
        LowerAt(a, i);
      } else if i < |a| + |b| {
        LowerAt(b, i - |a|);
      } else {
        LowerAt(c, i - |a| - |b|);
      }
    }
  }

  /** Lower-casing leaves space characters alone. */
  lemma {:induction false} LowerOfSpaces(s: string)
    requires AllSpace(s)
    ensures Lower(s) == s
  {
    if s != [] {
      LowerOfSpaces(s[1..]);
    }
  }

  /** Only the lower-cased, trimmed form of a padded string matters. */
  lemma NormaliseIgnoresPadding(lead: string, s: string, trail: string)
    requires AllSpace(lead) && AllSpace(trail)
    ensures Trim(Lower(lead + s + trail)) == Trim(Lower(s))
  {
    LowerConcat3(lead, s, trail);
    LowerOfSpaces(lead);
    LowerOfSpaces(trail);
    TrimIgnoresPadding(lead, Lower(s), trail);
  }

  /** JavaScript's `includes`: `sub` occurs somewhere in `s`. */
  function Contains(s: string, sub: string): (b: bool)
    ensures b <==> exists i :: OccursAt(s, sub, i)
    decreases |s|
  {
    if sub <= s then
      assert OccursAt(s, sub, 0);
      true
    else if s == [] then
      false
    else
      var b := Contains(s[1..], sub);
      assert b ==> exists i :: OccursAt(s, sub, i) by {
        if b {
          var j :| OccursAt(s[1..], sub, j);
          assert s[j + 1..j + 1 + |sub|] == s[1..][j..j + |sub|];
          assert OccursAt(s, sub, j + 1);
        }
      }
      assert (exists i :: OccursAt(s, sub, i)) ==> b by {
        if exists i :: OccursAt(s, sub, i) {
          var i :| OccursAt(s, sub, i);
          if i != 0 {
            assert s[1..][i - 1..i - 1 + |sub|] == s[i..i + |sub|];
            assert OccursAt(s[1..], sub, i - 1);
          }
        }
      }
      b
  }

  /** `sub` occurs in `s` starting at index `i`. */
  predicate OccursAt(s: string, sub: string, i: int)
  {
    0 <= i <= |s| - |sub| && s[i..i + |sub|] == sub
  }

  /** The middle of a concatenation occurs in it, right after the first part. */
  lemma OccursBetween(a: string, b: string, c: string)
    ensures OccursAt(a + b + c, b, |a|)
    ensures Contains(a + b + c, b)
  {
    assert (a + b + c)[|a|..|a| + |b|] == b;
    assert OccursAt(a + b + c, b, |a|);
  }

  /** JavaScript's `Array.prototype.join("\n")`. */
  function JoinLines(xs: seq<string>): string
  {
    if xs == [] then "" else if |xs| == 1 then xs[0] else xs[0] + "\n" + JoinLines(xs[1..])
  }

  predicate NoNewline(s: string)
  {
    forall i :: 0 <= i < |s| ==> s[i] != '\n'
  }

  /** Splits on "\n", the inverse of `JoinLines` on non-empty lists of
      lines without newlines. */
  function SplitLines(s: string): (r: seq<string>)
    ensures |r| >= 1
    decreases |s|
  {
    if s == [] then [""]
    else if s[0] == '\n' then [""] + SplitLines(s[1..])
    else var rest := SplitLines(s[1..]); [[s[0]] + rest[0]] + rest[1..]
  }

  lemma {:induction false} SplitSingleLine(a: string)
    requires NoNewline(a)
    ensures SplitLines(a) == [a]
  {
    if a != [] {
      SplitSingleLine(a[1..]);
      assert [a[0]] + a[1..] == a;
    }
  }

  lemma {:induction false} SplitAfterLine(a: string, b: string)
    requires NoNewline(a)
    ensures SplitLines(a + "\n" + b) == [a] + SplitLines(b)
  {
    if a == [] {
      assert a + "\n" + b == "\n" + b;
      assert ("\n" + b)[1..] == b;
    } else {
      var s := a + "\n" + b;
      assert s[1..] == a[1..] + "\n" + b;
      SplitAfterLine(a[1..], b);
      assert [a[0]] + a[1..] == a;
    }
  }

  /** Joining and splitting again gives back the lines. */
  lemma {:induction false} SplitJoinLines(xs: seq<string>)
    requires xs != []
    requires forall k :: 0 <= k < |xs| ==> NoNewline(xs[k])
    ensures SplitLines(JoinLines(xs)) == xs
  {
    if |xs| == 1 {
      SplitSingleLine(xs[0]);
    } else {
      SplitAfterLine(xs[0], JoinLines(xs[1..]));
      SplitJoinLines(xs[1..]);
    }
  }

  predicate IsDigit(c: char)
  {
    '0' <= c <= '9'
  }

  function DigitChar(d: nat): (c: char)
    requires d < 10
    ensures IsDigit(c) && c as int - '0' as int == d
  {
    (d + '0' as int) as char
  }

  /** The decimal digits of `n`, most significant first, without leading
      zeros: what a template literal prints for a non-negative integer. */
  function NatToDecimal(n: nat): (r: string)
    ensures |r| >= 1
    ensures forall i :: 0 <= i < |r| ==> IsDigit(r[i])
    ensures |r| > 1 ==> r[0] != '0'
  {
    if n < 10 then [DigitChar(n)] else NatToDecimal(n / 10) + [DigitChar(n % 10)]
  }

  /** What a template literal prints for an integer of magnitude below
      10^21; from there JavaScript switches to exponent notation, which no
      count, severity or age on the page reaches. */
  function IntToDecimal(n: int): string
  {
    if n < 0 then "-" + NatToDecimal(-n) else NatToDecimal(n)
  }

  predicate AllDigits(s: string)
  {
    forall i :: 0 <= i < |s| ==> IsDigit(s[i])
  }

  /** The value of a string of decimal digits. */
  function DigitsValue(s: string): nat
    requires AllDigits(s)
  {
    if s == [] then 0
    else
      assert IsDigit(s[|s| - 1]);
      DigitsValue(s[..|s| - 1]) * 10 + (s[|s| - 1] as int - '0' as int)
  }

  /** Reading the printed digits back gives the number. */
  lemma {:induction false} NatToDecimalRoundTrip(n: nat)
    ensures AllDigits(NatToDecimal(n)) && DigitsValue(NatToDecimal(n)) == n
  {
    if n >= 10 {
      var r := NatToDecimal(n);
      NatToDecimalRoundTrip(n / 10);
      assert r[..|r| - 1] == NatToDecimal(n / 10);
    }
  }

  /** Digits, optionally after a minus sign. */
  predicate IsDecimal(s: string)
  {
    if s != [] && s[0] == '-' then AllDigits(s[1..]) else AllDigits(s)
  }

  /** The value of a decimal numeral: the inverse of `IntToDecimal`. */
  function ReadDecimal(s: string): int
    requires IsDecimal(s)
  {
    if s != [] && s[0] == '-' then -(DigitsValue(s[1..]) as int) else DigitsValue(s)
  }

  lemma IntToDecimalRoundTrip(n: int)
    ensures IsDecimal(IntToDecimal(n)) && ReadDecimal(IntToDecimal(n)) == n
  {
    var r := IntToDecimal(n);
    if n < 0 {
      assert r[1..] == NatToDecimal(-n);
      NatToDecimalRoundTrip(-n);
    } else {
      assert IsDigit(r[0]);
      NatToDecimalRoundTrip(n);
    }
  }

  /** Different numbers print differently. */
  lemma IntToDecimalInjective(m: int, n: int)
    requires IntToDecimal(m) == IntToDecimal(n)
    ensures m == n
  {
    IntToDecimalRoundTrip(m);
    IntToDecimalRoundTrip(n);
  }
}
