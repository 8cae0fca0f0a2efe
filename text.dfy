/**
 * Character classes and string scanning used by the council's text handling:
 * the whitespace set of Python's `str.isspace` (which is also what `\s` matches
 * in a `str` regular expression), the Unicode decimal digits `\d` matches, the
 * ASCII capitals of `[A-Z]`, first-occurrence search and `str.strip`.
 */
module Text {
  import opened Wrappers

  /** Python's `str.isspace`, which is also the character class `\s` for `str` patterns. */
  predicate IsSpace(c: char) {
    ('\t' <= c <= '\r') || ('\U{1C}' <= c <= ' ') || c == '\U{85}' || c == '\U{A0}'
    || c == '\U{1680}' || ('\U{2000}' <= c <= '\U{200A}') || c == '\U{2028}' || c == '\U{2029}'
    || c == '\U{202F}' || c == '\U{205F}' || c == '\U{3000}'
  }

  /** The number of blocks of ten decimal digits past ASCII (Unicode general category Nd, Unicode 15.0). */
  const DigitBlocks: nat := 67

  /**
   * The code point of the zero of the `k`-th block of decimal digits past ASCII:
   * Arabic-Indic, Devanagari, ..., fullwidth, mathematical and the others, in
   * code point order. The first is U+0660.
   */
  function DigitZero(k: nat): int
    requires k < DigitBlocks
  {
    match k
    case 0 => 0x660
    case 1 => 0x6F0
    case 2 => 0x7C0
    case 3 => 0x966
    case 4 => 0x9E6
    case 5 => 0xA66
    case 6 => 0xAE6
    case 7 => 0xB66
    case 8 => 0xBE6
    case 9 => 0xC66
    case 10 => 0xCE6
    case 11 => 0xD66
    case 12 => 0xDE6
    case 13 => 0xE50
    case 14 => 0xED0
    case 15 => 0xF20
    case 16 => 0x1040
    case 17 => 0x1090
    case 18 => 0x17E0
    case 19 => 0x1810
    case 20 => 0x1946
    case 21 => 0x19D0
    case 22 => 0x1A80
    case 23 => 0x1A90
    case 24 => 0x1B50
    case 25 => 0x1BB0
    case 26 => 0x1C40
    case 27 => 0x1C50
    case 28 => 0xA620
    case 29 => 0xA8D0
    case 30 => 0xA900
    case 31 => 0xA9D0
    case 32 => 0xA9F0
    case 33 => 0xAA50
    case 34 => 0xABF0
    case 35 => 0xFF10
    case 36 => 0x104A0
    case 37 => 0x10D30
    case 38 => 0x11066
    case 39 => 0x110F0
    case 40 => 0x11136
    case 41 => 0x111D0
    case 42 => 0x112F0
    case 43 => 0x11450
    case 44 => 0x114D0
    case 45 => 0x11650
    case 46 => 0x116C0
    case 47 => 0x11730
    case 48 => 0x118E0
    case 49 => 0x11950
    case 50 => 0x11C50
    case 51 => 0x11D50
    case 52 => 0x11DA0
    case 53 => 0x11F50
    case 54 => 0x16A60
    case 55 => 0x16AC0
    case 56 => 0x16B50
    case 57 => 0x1D7CE
    case 58 => 0x1D7D8
    case 59 => 0x1D7E2
    case 60 => 0x1D7EC
    case 61 => 0x1D7F6
    case 62 => 0x1E140
    case 63 => 0x1E2F0
    case 64 => 0x1E4F0
    case 65 => 0x1E950
    case _ => 0x1FBF0
  }

  /** `n` lies in one of the blocks of decimal digits numbered `k` and up. */
  predicate InDigitBlocks(n: int, k: nat)
    requires k <= DigitBlocks
    decreases DigitBlocks - k
  {
    k < DigitBlocks && (DigitZero(k) <= n < DigitZero(k) + 10 || InDigitBlocks(n, k + 1))
  }

  /** Python's `\d` for `str` patterns: any Unicode decimal digit, not just `0`-`9`. */
  predicate IsDigit(c: char) {
    ('0' <= c <= '9') || (c as int >= 0x660 && InDigitBlocks(c as int, 0))
  }

  /** Arabic-Indic two, fullwidth two and mathematical bold two are digits; no ASCII character but `0`-`9` is. */
  lemma UnicodeDigits()
    ensures IsDigit('\U{662}') && IsDigit('\U{FF12}') && IsDigit('\U{1D7D0}')
    ensures forall c: char :: c < '\U{80}' ==> (IsDigit(c) <==> '0' <= c <= '9')
  {
    InBlockAt(0xFF12, 0, 35);
    InBlockAt(0x1D7D0, 0, 57);
  }

  /** A code point in the block numbered `i` lies in the blocks numbered `k` and up, for `k <= i`. */
  lemma {:induction false} InBlockAt(n: int, k: nat, i: nat)
    requires k <= i < DigitBlocks && DigitZero(i) <= n < DigitZero(i) + 10
    decreases i - k
    ensures InDigitBlocks(n, k)
  {
    if k < i {
      InBlockAt(n, k + 1, i);
    }
  }

  /** The regular-expression class `[A-Z]`. */
  predicate IsUpper(c: char) { 'A' <= c <= 'Z' }

  /** `pat` occurs in `s` starting at index `i`. */
  predicate OccursAt(s: string, pat: string, i: nat) {
    i + |pat| <= |s| && s[i..i + |pat|] == pat
  }

  /** `pat` occurs somewhere in `s` (Python's `pat in s`). */
  predicate Contains(s: string, pat: string) {
    exists i: nat :: i <= |s| && OccursAt(s, pat, i)
  }

  /** An occurrence that lies inside a part of `text` is an occurrence in that part, and conversely. */
  lemma OccursInPart(text: string, from: nat, part: string, pat: string, j: nat)
    requires from + |part| <= |text| && text[from..from + |part|] == part
    requires from <= j && j + |pat| <= from + |part|
    ensures OccursAt(text, pat, j) <==> OccursAt(part, pat, j - from)
  {
    var a := j - from;
    var x, y := part[a..a + |pat|], text[j..j + |pat|];
    forall k | 0 <= k < |x| ensures x[k] == y[k] {
      assert part[a + k] == text[from..from + |part|][a + k];
    }
    assert x == y;
  }

  /** Index of the first occurrence of `pat` in `s` at or after `from` (Python's `s.find(pat, from)`). */
  function IndexOf(s: string, pat: string, from: nat): (r: Option<nat>)
    requires |pat| > 0
    decreases |s| - from
    ensures r.Some? ==> from <= r.value && OccursAt(s, pat, r.value)
    ensures r.Some? ==> forall j :: from <= j < r.value ==> !OccursAt(s, pat, j)
    ensures r.None? ==> forall j: nat :: from <= j ==> !OccursAt(s, pat, j)
  {
    if from + |pat| > |s| then None
    else if s[from..from + |pat|] == pat then Some(from)
    else IndexOf(s, pat, from + 1)
  }

  /** First-occurrence search from the start finds an occurrence exactly when there is one. */
  lemma IndexOfFindsContained(s: string, pat: string)
    requires |pat| > 0
    ensures IndexOf(s, pat, 0).Some? <==> Contains(s, pat)
  {
    if IndexOf(s, pat, 0).Some? {
      assert OccursAt(s, pat, IndexOf(s, pat, 0).value);
    }
  }

  /** Number of leading characters of `s` that satisfy `p`. */
  function LeadingCount(s: string, p: char -> bool): (n: nat)
    ensures n <= |s|
    ensures forall k :: 0 <= k < n ==> p(s[k])
    ensures n == |s| || !p(s[n])
  {
    if s == [] || !p(s[0]) then 0 else 1 + LeadingCount(s[1..], p)
  }

  /** Number of trailing characters of `s` that satisfy `p`. */
  function TrailingCount(s: string, p: char -> bool): (n: nat)
    ensures n <= |s|
    ensures forall k :: |s| - n <= k < |s| ==> p(s[k])
    ensures n == |s| || !p(s[|s| - 1 - n])
  {
    if s == [] || !p(s[|s| - 1]) then 0 else 1 + TrailingCount(s[..|s| - 1], p)
  }

  /** Python's `s.strip(chars)`: removes the longest prefix and the longest suffix made of characters satisfying `p`. */
  function Strip(s: string, p: char -> bool): string {
    var rest := s[LeadingCount(s, p)..];
    rest[..|rest| - TrailingCount(rest, p)]
  }

  /** A text whose first and last characters do not satisfy `p` is left as it is. */
  lemma StripUnchanged(s: string, p: char -> bool)
    requires s != [] ==> !p(s[0]) && !p(s[|s| - 1])
    ensures Strip(s, p) == s
  {
    assert LeadingCount(s, p) == 0;
    assert s[0..] == s;
    assert TrailingCount(s, p) == 0;
  }

  /**
   * The stripped text is the piece of `s` right after the leading run, it neither
   * starts nor ends with a character satisfying `p`, and everything removed
   * after it satisfies `p` (what is removed before it is the leading run).
   */
  lemma StripSpec(s: string, p: char -> bool)
    ensures var a := LeadingCount(s, p);
            var r := Strip(s, p);
            OccursAt(s, r, a)
            && (r != [] ==> !p(r[0]) && !p(r[|r| - 1]))
            && forall k :: a + |r| <= k < |s| ==> p(s[k])
  {
    var a := LeadingCount(s, p);
    var rest := s[a..];
    var b := TrailingCount(rest, p);
    var r := Strip(s, p);
    assert r == rest[..|rest| - b];
    assert s[a..a + |r|] == r;
    forall k | a + |r| <= k < |s| ensures p(s[k]) {
      assert s[k] == rest[k - a];
    }
    if r != [] {
      assert r[0] == rest[0] == s[a];
      assert r[|r| - 1] == rest[|rest| - 1 - b];
    }
  }
}
