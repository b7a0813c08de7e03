/** Character classes and string operations shared by the model: lower-casing as the
    JavaScript and Go runtimes do it on the characters that matter here, Go's
    `strings.TrimSpace`, `strings.Split` and `strings.ReplaceAll` on one character,
    substring containment, and decimal printing and reading of natural numbers. */
module Text {

  // ----- lower case -----

  /** ASCII lower case: the part of `String.prototype.toLowerCase` this model keeps. */
  function LowerChar(c: char): char {
    if 'A' <= c <= 'Z' then (c as int + 32) as char else c
  }

  /** `toLowerCase()` on ASCII: same length, no upper-case letter left, each upper-case
      letter replaced by its lower-case partner 32 code points on, all else kept. */
  function Lower(s: string): (r: string)
    ensures |r| == |s|
    ensures forall i :: 0 <= i < |r| ==> !('A' <= r[i] <= 'Z')
    ensures forall i :: 0 <= i < |s| && 'A' <= s[i] <= 'Z' ==> r[i] as int == s[i] as int + 32
    ensures forall i :: 0 <= i < |s| && !('A' <= s[i] <= 'Z') ==> r[i] == s[i]
  {
    seq(|s|, i requires 0 <= i < |s| => LowerChar(s[i]))
  }

  /** Go's `unicode.ToLower` on ASCII letters and on the two non-ASCII runes whose simple
      lower case is an ASCII letter (U+0130 to `i`, U+212A KELVIN SIGN to `k`), so that a
      comparison of a lowered string with an ASCII word is exact. */
  function GoLowerChar(c: char): char {
    if 'A' <= c <= 'Z' then (c as int + 32) as char
    else if c == '\U{130}' then 'i'
    else if c == '\U{212A}' then 'k'
    else c
  }

  function GoLower(s: string): string {
    seq(|s|, i requires 0 <= i < |s| => GoLowerChar(s[i]))
  }

  /** `strings.ToLower` on the characters above: same length, no ASCII upper-case letter,
      U+0130 or U+212A left, each ASCII upper-case letter moved 32 code points on, and
      every other character kept. */
  lemma GoLowerLowers(s: string)
    ensures |GoLower(s)| == |s|
    ensures forall i :: 0 <= i < |s| ==>
      var c := GoLower(s)[i]; !('A' <= c <= 'Z') && c != '\U{130}' && c != '\U{212A}'
    ensures forall i :: 0 <= i < |s| && 'A' <= s[i] <= 'Z' ==> GoLower(s)[i] as int == s[i] as int + 32
    ensures forall i :: 0 <= i < |s| && !('A' <= s[i] <= 'Z') && s[i] != '\U{130}' && s[i] != '\U{212A}' ==> GoLower(s)[i] == s[i]
  {
  }

  lemma GoLowerIdempotent(s: string)
    ensures GoLower(GoLower(s)) == GoLower(s)
  {
  }

  lemma LowerIdempotent(s: string)
    ensures Lower(Lower(s)) == Lower(s)
  {
  }

  // ----- white space -----

  /** Go's `unicode.IsSpace`: the Unicode White_Space characters. */
  predicate IsGoSpace(c: char) {
    c == ' ' || ('\t' <= c <= '\r') || c == '\U{85}' || c == '\U{A0}' || c == '\U{1680}'
    || ('\U{2000}' <= c <= '\U{200A}') || c == '\U{2028}' || c == '\U{2029}'
    || c == '\U{202F}' || c == '\U{205F}' || c == '\U{3000}'
  }

  predicate AllGoSpace(s: string) {
    forall i :: 0 <= i < |s| ==> IsGoSpace(s[i])
  }

  function TrimLeft(s: string): (r: string)
    ensures |r| <= |s| && r == s[|s| - |r|..]
    ensures forall i :: 0 <= i < |s| - |r| ==> IsGoSpace(s[i])
    ensures r == [] || !IsGoSpace(r[0])
    decreases |s|
  {
    if |s| > 0 && IsGoSpace(s[0]) then TrimLeft(s[1..]) else s
  }

  function TrimRight(s: string): (r: string)
    ensures |r| <= |s| && r == s[..|r|]
    ensures forall i :: |r| <= i < |s| ==> IsGoSpace(s[i])
    ensures r == [] || !IsGoSpace(r[|r| - 1])
    decreases |s|
  {
    if |s| > 0 && IsGoSpace(s[|s| - 1]) then TrimRight(s[..|s| - 1]) else s
  }

  /** `r` is the slice of `s` at offset `i`, with only white space before and after it. */
  predicate TrimmedAt(s: string, r: string, i: int) {
    0 <= i && i + |r| <= |s| && r == s[i..i + |r|]
    && AllGoSpace(s[..i]) && AllGoSpace(s[i + |r|..])
  }

  /** Go's `strings.TrimSpace`: the result neither starts nor ends with white space, and
      it is empty exactly when `s` is all white space. */
  function TrimSpace(s: string): (r: string)
    ensures r == [] || (!IsGoSpace(r[0]) && !IsGoSpace(r[|r| - 1]))
    ensures r == [] <==> AllGoSpace(s)
  {
    var l := TrimLeft(s);
    var r := TrimRight(l);
    assert forall i :: |s| - |l| <= i < |s| ==> s[i] == l[i - (|s| - |l|)];
    r
  }

  /** Trimming only cuts white space off the ends: the result is a slice of `s` with
      nothing but white space before and after it. */
  lemma TrimSpaceSlice(s: string) returns (i: nat)
    ensures TrimmedAt(s, TrimSpace(s), i)
  {
    var l := TrimLeft(s);
    var r := TrimRight(l);
    i := |s| - |l|;
    assert l == s[i..];
    assert r == s[i..i + |r|];
    assert AllGoSpace(s[..i]) by {
      forall k | 0 <= k < i ensures IsGoSpace(s[..i][k]) {
        assert s[..i][k] == s[k];
      }
    }
    var j := i + |r|;
    assert AllGoSpace(s[j..]) by {
      forall k | 0 <= k < |s| - j ensures IsGoSpace(s[j..][k]) {
        assert s[j..][k] == l[|r| + k];
      }
    }
  }

  // ----- replacing one character -----

  /** `strings.ReplaceAll(s, string(from), string(to))` for one-character strings. */
  function ReplaceChar(s: string, from: char, to: char): (r: string)
    ensures |r| == |s|
    ensures forall i :: 0 <= i < |s| && s[i] == from ==> r[i] == to
    ensures forall i :: 0 <= i < |s| && s[i] != from ==> r[i] == s[i]
    ensures from != to ==> from !in r
  {
    seq(|s|, i requires 0 <= i < |s| => if s[i] == from then to else s[i])
  }

  // ----- substrings -----

  /** `sub` occurs somewhere in `s` (`strings.Contains`, `String.prototype.includes`). */
  predicate Contains(s: string, sub: string)
    decreases |s|
  {
    sub <= s || (|s| > 0 && Contains(s[1..], sub))
  }

  /** An occurrence at offset `i` is an occurrence. */
  lemma {:induction false} ContainsAt(s: string, sub: string, i: nat)
    requires i + |sub| <= |s| && s[i..i + |sub|] == sub
    ensures Contains(s, sub)
    decreases i
  {
    if i > 0 {
      assert s[1..][i - 1..i - 1 + |sub|] == s[i..i + |sub|];
      ContainsAt(s[1..], sub, i - 1);
    }
  }

  /** Every occurrence has an offset. */
  lemma {:induction false} ContainsOffset(s: string, sub: string) returns (i: nat)
    requires Contains(s, sub)
    ensures i + |sub| <= |s| && s[i..i + |sub|] == sub
    decreases |s|
  {
    if sub <= s {
      i := 0;
    } else {
      var j := ContainsOffset(s[1..], sub);
      assert s[1..][j..j + |sub|] == s[j + 1..j + 1 + |sub|];
      i := j + 1;
    }
  }

  /** A substring of a substring is a substring. */
  lemma ContainsTransitive(a: string, b: string, c: string)
    requires Contains(b, a) && Contains(c, b)
    ensures Contains(c, a)
  {
    var i := ContainsOffset(b, a);
    var j := ContainsOffset(c, b);
    forall k | 0 <= k < |a| ensures c[j + i + k] == a[k] {
      assert c[j..j + |b|][i + k] == c[j + i + k];
      assert b[i..i + |a|][k] == b[i + k];
    }
    assert c[j + i..j + i + |a|] == a;
    ContainsAt(c, a, j + i);
  }

  /** Lower-casing both sides keeps an occurrence. */
  lemma LowerKeepsContains(s: string, sub: string)
    requires Contains(s, sub)
    ensures Contains(Lower(s), Lower(sub))
  {
    var i := ContainsOffset(s, sub);
    assert Lower(s)[i..i + |sub|] == Lower(sub);
    ContainsAt(Lower(s), Lower(sub), i);
  }

  // ----- subsequences -----

  /** `a` is `b` with some elements left out, the rest in their order. */
  predicate IsSubsequence<T(==)>(a: seq<T>, b: seq<T>)
    decreases |b|
  {
    if a == [] then true
    else if b == [] then false
    else (a[0] == b[0] && IsSubsequence(a[1..], b[1..])) || IsSubsequence(a, b[1..])
  }

  /** Skipping the first element of `b` keeps a subsequence a subsequence. */
  lemma SubsequenceOfTail<T>(a: seq<T>, b: seq<T>)
    requires b != [] && IsSubsequence(a, b[1..])
    ensures IsSubsequence(a, b)
  {
  }

  // ----- splitting on one character -----

  /** The index of the first `c` in `s`. */
  function IndexOf(s: string, c: char): (i: nat)
    requires c in s
    ensures i < |s| && s[i] == c && c !in s[..i]
  {
    if s[0] == c then 0 else 1 + IndexOf(s[1..], c)
  }

  /** Go's `strings.Split(s, string(sep))`: the pieces between the separators, one more
      piece than there are separators, so the empty string gives one empty piece. */
  function Split(s: string, sep: char): (parts: seq<string>)
    ensures |parts| >= 1
    ensures forall k :: 0 <= k < |parts| ==> sep !in parts[k]
    decreases |s|
  {
    if sep !in s then [s]
    else
      var i := IndexOf(s, sep);
      [s[..i]] + Split(s[i + 1..], sep)
  }

  function Join(parts: seq<string>, sep: char): string
    requires |parts| >= 1
  {
    if |parts| == 1 then parts[0] else parts[0] + [sep] + Join(parts[1..], sep)
  }

  /** Splitting loses nothing: joining the pieces with the separator gives `s` back. */
  lemma {:induction false} SplitJoin(s: string, sep: char)
    ensures Join(Split(s, sep), sep) == s
    decreases |s|
  {
    if sep in s {
      var i := IndexOf(s, sep);
      SplitJoin(s[i + 1..], sep);
      assert s == s[..i] + [sep] + s[i + 1..];
    }
  }

  // ----- decimal numbers -----

  predicate IsDigit(c: char) { '0' <= c <= '9' }

  predicate AllDigits(s: string) {
    forall i :: 0 <= i < |s| ==> IsDigit(s[i])
  }

  /** What the HTML attribute `pattern="[0-9]{n}"` accepts: exactly `n` decimal digits. */
  predicate DigitPattern(s: string, n: nat) {
    |s| == n && AllDigits(s)
  }

  function DigitChar(d: nat): (c: char)
    requires d < 10
    ensures IsDigit(c)
  {
    ('0' as int + d) as char
  }

  function DigitValue(c: char): nat
    requires IsDigit(c)
  {
    c as int - '0' as int
  }

  /** The value of a string of decimal digits, most significant first. */
  function DigitsValue(s: string): nat
    requires AllDigits(s)
    decreases |s|
  {
    if s == [] then 0 else DigitsValue(s[..|s| - 1]) * 10 + DigitValue(s[|s| - 1])
  }

  /** The decimal form of `n` without leading zeros, as JavaScript prints a number in a
      template string. */
  function NatToString(n: nat): (s: string)
    ensures |s| >= 1 && AllDigits(s)
    ensures s[0] == '0' ==> n == 0
    decreases n
  {
    if n < 10 then [DigitChar(n)] else NatToString(n / 10) + [DigitChar(n % 10)]
  }

  /** Printing then reading a number gives the number back. */
  lemma {:induction false} NatToStringValue(n: nat)
    ensures DigitsValue(NatToString(n)) == n
    decreases n
  {
    if n >= 10 {
      NatToStringValue(n / 10);
      var s := NatToString(n);
      assert s[..|s| - 1] == NatToString(n / 10);
    }
  }

  lemma NatToStringInjective(m: nat, n: nat)
    requires NatToString(m) == NatToString(n)
    ensures m == n
  {
    NatToStringValue(m);
    NatToStringValue(n);
  }

  /** A number below 10^k has at most k digits. */
  lemma {:induction false} NatToStringWidth(n: nat, k: nat)
    requires k >= 1 && n < Pow10(k)
    ensures |NatToString(n)| <= k
    decreases k
  {
    if n >= 10 {
      assert n / 10 < Pow10(k - 1);
      NatToStringWidth(n / 10, k - 1);
    }
  }

  function Pow10(k: nat): (p: nat)
    ensures p >= 1
  {
    if k == 0 then 1 else 10 * Pow10(k - 1)
  }

  /** Leading zeros do not change a value. */
  lemma {:induction false} LeadingZeros(z: string, s: string)
    requires forall i :: 0 <= i < |z| ==> z[i] == '0'
    requires AllDigits(s)
    ensures AllDigits(z + s) && DigitsValue(z + s) == DigitsValue(s)
    decreases |s|
  {
    assert AllDigits(z);
    if s == [] {
      assert z + s == z;
      AllZeros(z);
    } else {
      var t := z + s;
      assert t[..|t| - 1] == z + s[..|s| - 1];
      LeadingZeros(z, s[..|s| - 1]);
    }
  }

  lemma {:induction false} AllZeros(z: string)
    requires forall i :: 0 <= i < |z| ==> z[i] == '0'
    ensures AllDigits(z) && DigitsValue(z) == 0
    decreases |z|
  {
    if z != [] {
      AllZeros(z[..|z| - 1]);
    }
  }

  /** `c` repeated `n` times. */
  function Repeat(c: char, n: nat): (r: string)
    ensures |r| == n && forall i :: 0 <= i < n ==> r[i] == c
  {
    if n == 0 then [] else [c] + Repeat(c, n - 1)
  }

  // ----- byte length -----

  /** The number of bytes of `c` in UTF-8, as Go's `len` counts a string. */
  function Utf8Width(c: char): nat {
    if c as int < 0x80 then 1
    else if c as int < 0x800 then 2
    else if c as int < 0x1_0000 then 3
    else 4
  }

  function Utf8Length(s: string): nat
    decreases |s|
  {
    if s == [] then 0 else Utf8Width(s[0]) + Utf8Length(s[1..])
  }

  /** A string is at least as many bytes long as it has characters. */
  lemma {:induction false} Utf8LengthAtLeast(s: string)
    ensures Utf8Length(s) >= |s|
    decreases |s|
  {
    if s != [] {
      Utf8LengthAtLeast(s[1..]);
    }
  }

  /** Exactly the empty string and the one-character ASCII strings are under two bytes. */
  lemma Utf8Short(s: string)
    ensures Utf8Length(s) < 2 <==> s == [] || (|s| == 1 && s[0] as int < 0x80)
  {
    if |s| >= 2 {
      Utf8LengthAtLeast(s[1..]);
      Utf8LengthAtLeast(s[2..]);
    }
  }
}
