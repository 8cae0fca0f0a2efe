/**
 * Extraction of a peer's ranking from its free-text evaluation
 * (`parse_ranking_from_text`). The two regular expressions the source uses,
 * `Response [A-Z]` and `\d+\.\s*Response [A-Z]`, are written out as a
 * matcher (`MatchEnd`) and Python's `re.findall` as a left-to-right scan for
 * leftmost, non-overlapping matches (`FindAll`).
 */
module RankingParser {
  import opened Wrappers
  import opened Text

  /** The marker that opens the ranking section. */
  const Marker: string := "FINAL RANKING:"

  const LabelPrefix: string := "Response "

  /** Every label is "Response " followed by one capital letter. */
  const LabelLength: nat := 10

  /** `Response [A-Z]` matches `s` at index `i`. */
  predicate LabelAt(s: string, i: nat) {
    i + LabelLength <= |s| && OccursAt(s, LabelPrefix, i) && IsUpper(s[i + |LabelPrefix|])
  }

  predicate IsLabel(l: string) {
    |l| == LabelLength && LabelAt(l, 0)
  }

  /** A label starts with `R`, so no label starts at a digit, a period or whitespace. */
  lemma NoLabelWithoutR(s: string, i: nat)
    requires i < |s| && s[i] != 'R'
    ensures !LabelAt(s, i)
  {
    if i + |LabelPrefix| <= |s| {
      assert s[i..i + |LabelPrefix|][0] == s[i];
    }
  }

  /** The ten characters at a label position form a label. */
  lemma LabelAtIsLabel(s: string, i: nat)
    requires LabelAt(s, i)
    ensures IsLabel(s[i..i + LabelLength])
  {
    var l := s[i..i + LabelLength];
    assert l[..|LabelPrefix|] == s[i..i + |LabelPrefix|];
  }

  /** End of the maximal run of digits starting at `i` (greedy `\d+`, `\d*`). */
  function DigitsEnd(s: string, i: nat): (j: nat)
    requires i <= |s|
    decreases |s| - i
    ensures i <= j <= |s|
    ensures forall k :: i <= k < j ==> IsDigit(s[k])
    ensures j == |s| || !IsDigit(s[j])
  {
    if i == |s| || !IsDigit(s[i]) then i else DigitsEnd(s, i + 1)
  }

  /** End of the maximal run of whitespace starting at `i` (greedy `\s*`). */
  function SpacesEnd(s: string, i: nat): (j: nat)
    requires i <= |s|
    decreases |s| - i
    ensures i <= j <= |s|
    ensures forall k :: i <= k < j ==> IsSpace(s[k])
    ensures j == |s| || !IsSpace(s[j])
  {
    if i == |s| || !IsSpace(s[i]) then i else SpacesEnd(s, i + 1)
  }

  /** The two patterns of the parser. */
  datatype Pattern =
    | AnyLabel       // Response [A-Z]
    | NumberedLabel  // \d+\.\s*Response [A-Z]

  /**
   * End of the match of `p` that starts at index `i`, if there is one. The greedy
   * runs never need to give characters back: a shorter digit run would leave a
   * digit where the period must be, and a shorter whitespace run would leave a
   * space where the `R` must be. Every match ends with a label, and in a numbered
   * match nothing before that final label can start one (which is why the source's
   * `re.search(r'Response [A-Z]', m)` yields the last ten characters).
   */
  function MatchEnd(p: Pattern, s: string, i: nat): (r: Option<nat>)
    ensures r.Some? ==> i + LabelLength <= r.value <= |s| && LabelAt(s, r.value - LabelLength)
    ensures r.Some? ==> forall k :: i <= k < r.value - LabelLength ==> !LabelAt(s, k)
    ensures p == AnyLabel ==> (r.Some? <==> LabelAt(s, i)) && (r.Some? ==> r.value == i + LabelLength)
  {
    match p
    case AnyLabel => if LabelAt(s, i) then Some(i + LabelLength) else None
    case NumberedLabel => NumberedEnd(s, i)
  }

  /** `\d+\.\s*Response [A-Z]` at index `i`. */
  function NumberedEnd(s: string, i: nat): (r: Option<nat>)
    ensures r.Some? ==> i + LabelLength <= r.value <= |s| && LabelAt(s, r.value - LabelLength)
    ensures r.Some? ==> forall k :: i <= k < r.value - LabelLength ==> !LabelAt(s, k)
    ensures r.Some? ==>
      IsDigit(s[i]) && s[DigitsEnd(s, i)] == '.' && SpacesEnd(s, DigitsEnd(s, i) + 1) == r.value - LabelLength
  {
    if i < |s| && IsDigit(s[i]) then
      var d := DigitsEnd(s, i);
      if d < |s| && s[d] == '.' then
        var w := SpacesEnd(s, d + 1);
        if LabelAt(s, w) then
          NoLabelBefore(s, i, d, w);
          Some(w + LabelLength)
        else None
      else None
    else None
  }

  /** No label starts among the digits, the period and the whitespace in front of a numbered label. */
  lemma NoLabelBefore(s: string, i: nat, d: nat, w: nat)
    requires i <= d < w <= |s| && s[d] == '.'
    requires forall k :: i <= k < d ==> IsDigit(s[k])
    requires forall k :: d < k < w ==> IsSpace(s[k])
    ensures forall k :: i <= k < w ==> !LabelAt(s, k)
  {
    forall k | i <= k < w ensures !LabelAt(s, k) {
      assert k < d ==> IsDigit(s[k]);
      assert k > d ==> IsSpace(s[k]);
      NoLabelWithoutR(s, k);
    }
  }

  /** A numbered entry may be numbered with any decimal digits: "٢. Response B" (Arabic-Indic two) is a match. */
  lemma UnicodeNumberedEntry()
    ensures NumberedEnd("\U{662}. Response B", 0) == Some(13)
  {
    var s := "\U{662}. Response B";
    assert s[0] == '\U{662}' && s[1] == '.';
    assert DigitsEnd(s, 1) == 1;
    assert SpacesEnd(s, 3) == 3;
    assert s[3..3 + |LabelPrefix|] == LabelPrefix;
  }

  /** Some match of `p` starts at index `j`. */
  predicate MatchesAt(p: Pattern, s: string, j: nat) {
    MatchEnd(p, s, j).Some?
  }

  /** A match found by the scan: `s[start..end]`. */
  datatype Span = Span(start: nat, end: nat)

  /** `span` is a match of `p` in `s`. */
  predicate IsMatch(p: Pattern, s: string, span: Span) {
    MatchEnd(p, s, span.start) == Some(span.end)
  }

  /** Index `j` lies inside one of the spans. */
  predicate Covered(spans: seq<Span>, j: nat) {
    exists k :: 0 <= k < |spans| && spans[k].start <= j < spans[k].end
  }

  /**
   * `re.findall(p, s[i..])`: scanning left to right, a match is taken at the first
   * index where one starts and the scan resumes at its end. The spans are matches
   * of `p` (`FindAllOrdered` adds that they come in order without overlapping,
   * `FindAllComplete` that none is skipped).
   */
  function FindAll(p: Pattern, s: string, i: nat): (r: seq<Span>)
    requires i <= |s|
    decreases |s| - i
    ensures forall k :: 0 <= k < |r| ==> i <= r[k].start && IsMatch(p, s, r[k])
  {
    if i == |s| then []
    else
      match MatchEnd(p, s, i)
      case Some(e) => [Span(i, e)] + FindAll(p, s, e)
      case None => FindAll(p, s, i + 1)
  }

  /** The scan steps over an index where no match starts. */
  lemma FindAllSkip(p: Pattern, s: string, i: nat)
    requires i < |s| && MatchEnd(p, s, i) == None
    ensures FindAll(p, s, i) == FindAll(p, s, i + 1)
  {
  }

  /** The scan takes the match that starts at `i` and resumes at its end. */
  lemma FindAllTake(p: Pattern, s: string, i: nat, e: nat)
    requires i < |s| && MatchEnd(p, s, i) == Some(e)
    ensures e <= |s| && FindAll(p, s, i) == [Span(i, e)] + FindAll(p, s, e)
  {
  }

  /** The spans come in order and do not overlap. */
  predicate Ordered(spans: seq<Span>) {
    forall a, b :: 0 <= a < b < |spans| ==> spans[a].end <= spans[b].start
  }

  lemma OrderedCons(sp: Span, rest: seq<Span>)
    requires Ordered(rest) && forall k :: 0 <= k < |rest| ==> sp.end <= rest[k].start
    ensures Ordered([sp] + rest)
  {
    var r := [sp] + rest;
    forall a, b | 0 <= a < b < |r| ensures r[a].end <= r[b].start {
      assert r[b] == rest[b - 1];
      if a > 0 {
        assert r[a] == rest[a - 1];
      }
    }
  }

  /** The matches found come in order and do not overlap. */
  lemma {:induction false} FindAllOrdered(p: Pattern, s: string, i: nat)
    requires i <= |s|
    decreases |s| - i
    ensures Ordered(FindAll(p, s, i))
  {
    if i < |s| {
      match MatchEnd(p, s, i)
      case Some(e) =>
        FindAllTake(p, s, i, e);
        FindAllOrdered(p, s, e);
        OrderedCons(Span(i, e), FindAll(p, s, e));
      case None =>
        FindAllSkip(p, s, i);
        FindAllOrdered(p, s, i + 1);
    }
  }

  /** A span in front keeps every index covered, and covers its own. */
  lemma CoveredCons(sp: Span, rest: seq<Span>, j: nat)
    requires sp.start <= j < sp.end || Covered(rest, j)
    ensures Covered([sp] + rest, j)
  {
    var r := [sp] + rest;
    if sp.start <= j < sp.end {
      assert r[0] == sp;
    } else {
      var k :| 0 <= k < |rest| && rest[k].start <= j < rest[k].end;
      assert r[k + 1] == rest[k];
    }
  }

  /** Every index of `s[i..]` where a match starts lies inside one of the spans found. */
  lemma {:induction false} FindAllComplete(p: Pattern, s: string, i: nat, j: nat)
    requires i <= j <= |s| && MatchesAt(p, s, j)
    decreases |s| - i
    ensures Covered(FindAll(p, s, i), j)
  {
    if i == |s| {
      assert false;
    } else {
      match MatchEnd(p, s, i)
      case Some(e) =>
        FindAllTake(p, s, i, e);
        if e <= j {
          FindAllComplete(p, s, e, j);
        }
        CoveredCons(Span(i, e), FindAll(p, s, e), j);
      case None =>
        FindAllSkip(p, s, i);
        FindAllComplete(p, s, i + 1, j);
    }
  }

  /** The label each span ends with. */
  function LabelsOf(s: string, spans: seq<Span>): (r: seq<string>)
    requires forall k :: 0 <= k < |spans| ==> LabelLength <= spans[k].end <= |s|
    ensures |r| == |spans|
    ensures forall k :: 0 <= k < |r| ==> r[k] == s[spans[k].end - LabelLength..spans[k].end]
  {
    seq(|spans|, k requires 0 <= k < |spans| => s[spans[k].end - LabelLength..spans[k].end])
  }

  lemma LabelsOfCons(s: string, sp: Span, rest: seq<Span>, l: string, more: seq<string>)
    requires LabelLength <= sp.end <= |s| && s[sp.end - LabelLength..sp.end] == l
    requires forall k :: 0 <= k < |rest| ==> LabelLength <= rest[k].end <= |s|
    requires LabelsOf(s, rest) == more
    ensures LabelsOf(s, [sp] + rest) == [l] + more
  {
    var all := [sp] + rest;
    assert forall k :: 0 < k < |all| ==> all[k] == rest[k - 1];
  }

  /** A match ends with a label. */
  lemma MatchLabel(p: Pattern, s: string, sp: Span)
    requires IsMatch(p, s, sp)
    ensures LabelLength <= sp.end <= |s| && IsLabel(s[sp.end - LabelLength..sp.end])
  {
    LabelAtIsLabel(s, sp.end - LabelLength);
  }

  /** Every match ends with a label. */
  lemma MatchLabels(p: Pattern, s: string, spans: seq<Span>)
    requires forall k :: 0 <= k < |spans| ==> IsMatch(p, s, spans[k])
    ensures forall k :: 0 <= k < |spans| ==>
      LabelLength <= spans[k].end <= |s| && IsLabel(s[spans[k].end - LabelLength..spans[k].end])
  {
    forall k | 0 <= k < |spans|
      ensures LabelLength <= spans[k].end <= |s| && IsLabel(s[spans[k].end - LabelLength..spans[k].end])
    {
      MatchLabel(p, s, spans[k]);
    }
  }

  /** The labels of all matches of `p` in `s`, in order of appearance. */
  function FindLabels(p: Pattern, s: string): (r: seq<string>)
    ensures forall k :: 0 <= k < |r| ==> IsLabel(r[k])
  {
    var spans := FindAll(p, s, 0);
    MatchLabels(p, s, spans);
    LabelsOf(s, spans)
  }

  /**
   * `j` is where `re.search(r'Response [A-Z]', m)` finds its label inside the
   * match `m` = `s[sp.start..sp.end]`: a label lies at `j` within the match and
   * none starts earlier in it.
   */
  predicate FirstLabelIn(s: string, sp: Span, j: nat) {
    sp.start <= j && j + LabelLength <= sp.end && LabelAt(s, j)
    && forall i :: sp.start <= i < j ==> !LabelAt(s, i)
  }

  /** `re.search(r'Response [A-Z]', m)` in the match `m` = `s[sp.start..sp.end]` finds `l`. */
  ghost predicate SearchFinds(s: string, sp: Span, l: string) {
    exists j: nat :: FirstLabelIn(s, sp, j) && l == s[j..j + LabelLength]
  }

  /**
   * `[re.search(r'Response [A-Z]', m).group() for m in re.findall(p, s)]`: one
   * label per match, in order, each the first label inside its match.
   */
  lemma FindLabelsSearch(p: Pattern, s: string)
    ensures |FindLabels(p, s)| == |FindAll(p, s, 0)|
    ensures forall k :: 0 <= k < |FindLabels(p, s)| ==> SearchFinds(s, FindAll(p, s, 0)[k], FindLabels(p, s)[k])
  {
    var spans, r := FindAll(p, s, 0), FindLabels(p, s);
    MatchLabels(p, s, spans);
    assert r == LabelsOf(s, spans);
    forall k | 0 <= k < |r| ensures SearchFinds(s, spans[k], r[k]) {
      MatchSearch(p, s, spans[k]);
    }
  }

  /** In a match, the first label is the one it ends with. */
  lemma MatchSearch(p: Pattern, s: string, sp: Span)
    requires IsMatch(p, s, sp)
    ensures LabelLength <= sp.end <= |s| && SearchFinds(s, sp, s[sp.end - LabelLength..sp.end])
  {
    var j := sp.end - LabelLength;
    assert FirstLabelIn(s, sp, j);
  }

  /**
   * What `text.split(Marker)[1]` is: the text after the first marker, up to the
   * next marker or the end.
   */
  function SectionAfter(text: string, start: nat): (r: string)
    requires start <= |text|
    ensures !Contains(r, Marker)
  {
    match IndexOf(text, Marker, start)
    case None =>
      var r := text[start..];
      PartOccurrences(text, start, r);
      r
    case Some(q) =>
      var r := text[start..q];
      PartOccurrences(text, start, r);
      r
  }

  /** An occurrence of the marker in a piece of `text` that starts at `from` is one in `text`. */
  lemma PartOccurrences(text: string, from: nat, part: string)
    requires from + |part| <= |text| && text[from..from + |part|] == part
    ensures forall j: nat :: j <= |part| && OccursAt(part, Marker, j) ==> OccursAt(text, Marker, from + j)
  {
    forall j: nat | j <= |part| && OccursAt(part, Marker, j) ensures OccursAt(text, Marker, from + j) {
      OccursInPart(text, from, part, Marker, from + j);
    }
  }

  /** Inside the section: the numbered list if it has any entry, otherwise every label. */
  function ParseSection(section: string): (r: seq<string>)
    ensures forall k :: 0 <= k < |r| ==> IsLabel(r[k])
  {
    var numbered := FindLabels(NumberedLabel, section);
    if numbered != [] then numbered else FindLabels(AnyLabel, section)
  }

  /**
   * `parse_ranking_from_text`. With the marker, only the text between its first
   * occurrence and its second (or the end) is scanned; without it, the whole text.
   * The result may hold duplicates and need not name every response.
   */
  function ParseRanking(text: string): (r: seq<string>)
    ensures forall k :: 0 <= k < |r| ==> IsLabel(r[k])
  {
    match IndexOf(text, Marker, 0)
    case None => FindLabels(AnyLabel, text)
    case Some(p) => ParseSection(SectionAfter(text, p + |Marker|))
  }

  // ---------------------------------------------------------------------------
  // Where the scanned section starts and ends

  /** An occurrence of the marker starts with `F`. */
  lemma MarkerStartsWithF(text: string, q: nat)
    requires OccursAt(text, Marker, q)
    ensures text[q] == 'F'
  {
    assert text[q..q + |Marker|][0] == text[q];
  }

  /** Inside an occurrence of the marker, past its first character, there is no `F`. */
  lemma MarkerInnerChars(text: string, j: nat, q: nat)
    requires OccursAt(text, Marker, j) && j < q < j + |Marker|
    ensures text[q] != 'F'
  {
    assert text[j..j + |Marker|][q - j] == text[q];
  }

  /**
   * Searching from `from`, when `text[from..]` starts with a marker-free `pre`
   * followed by the marker, the first marker found is the one right after `pre`.
   */
  lemma {:induction false} FirstMarkerAfter(text: string, from: nat, pre: string)
    requires from + |pre| <= |text| && text[from..from + |pre|] == pre
    requires !Contains(pre, Marker) && OccursAt(text, Marker, from + |pre|)
    ensures IndexOf(text, Marker, from) == Some(from + |pre|)
  {
    var q := from + |pre|;
    forall j | from <= j < q ensures !OccursAt(text, Marker, j) {
      if OccursAt(text, Marker, j) {
        if j + |Marker| <= q {
          OccursInPart(text, from, pre, Marker, j);
        } else {
          MarkerInnerChars(text, j, q);
          MarkerStartsWithF(text, q);
        }
      }
    }
  }

  /** Searching from `from` finds nothing when `text[from..]` is free of the marker. */
  lemma NoMarkerAfter(text: string, from: nat)
    requires from <= |text| && !Contains(text[from..], Marker)
    ensures IndexOf(text, Marker, from) == None
  {
    var r := IndexOf(text, Marker, from);
    if r.Some? {
      var t := text[from..];
      assert text[from..from + |t|] == t;
      OccursInPart(text, from, t, Marker, r.value);
    }
  }

  /** Marker first at `p` and next at `q`: the section is what lies between. */
  lemma ParseBetween(text: string, p: nat, q: nat)
    requires IndexOf(text, Marker, 0) == Some(p)
    requires p + |Marker| <= |text| && IndexOf(text, Marker, p + |Marker|) == Some(q)
    ensures ParseRanking(text) == ParseSection(text[p + |Marker|..q])
  {
    assert SectionAfter(text, p + |Marker|) == text[p + |Marker|..q];
  }

  /** Marker first at `p` and never again: the section is the rest of the text. */
  lemma ParseAfter(text: string, p: nat)
    requires IndexOf(text, Marker, 0) == Some(p)
    requires p + |Marker| <= |text| && IndexOf(text, Marker, p + |Marker|) == None
    ensures ParseRanking(text) == ParseSection(text[p + |Marker|..])
  {
    assert SectionAfter(text, p + |Marker|) == text[p + |Marker|..];
  }

  /**
   * With the marker once, the section parsed is everything after it.
   */
  lemma OneMarker(pre: string, post: string)
    requires !Contains(pre, Marker) && !Contains(post, Marker)
    ensures ParseRanking(pre + Marker + post) == ParseSection(post)
  {
    var text := pre + Marker + post;
    assert text[0..|pre|] == pre;
    assert text[|pre|..|pre| + |Marker|] == Marker;
    FirstMarkerAfter(text, 0, pre);
    var start := |pre| + |Marker|;
    assert text[start..] == post;
    NoMarkerAfter(text, start);
    ParseAfter(text, |pre|);
  }

  /**
   * With the marker twice or more, only the text between the first and the second
   * marker is parsed: whatever follows the second marker is ignored, because the
   * source keeps element 1 of `text.split(Marker)`.
   */
  lemma SecondMarkerEndsSection(pre: string, mid: string, post: string)
    requires !Contains(pre, Marker) && !Contains(mid, Marker)
    ensures ParseRanking(pre + Marker + mid + Marker + post) == ParseSection(mid)
  {
    var text := pre + Marker + mid + Marker + post;
    var start := |pre| + |Marker|;
    var second := start + |mid|;
    assert IndexOf(text, Marker, 0) == Some(|pre|) && IndexOf(text, Marker, start) == Some(second)
        && text[start..second] == mid by {
      assert text[..|pre|] == pre;
      assert text[|pre|..start] == Marker;
      FirstMarkerAfter(text, 0, pre);
      assert text[start..second] == mid;
      assert text[second..second + |Marker|] == Marker;
      FirstMarkerAfter(text, start, mid);
    }
    ParseBetween(text, |pre|, second);
  }

  // ---------------------------------------------------------------------------
  // The requested format parses back to the ranking it lists

  /** Decimal digits of `n`, as `str(n)`. */
  function Decimal(n: nat): (r: string)
    ensures |r| > 0 && forall k :: 0 <= k < |r| ==> IsDigit(r[k])
  {
    var d := ['0' + (n % 10) as char];
    if n < 10 then d else Decimal(n / 10) + d
  }

  /** The line "\n<n>. <label>". */
  function Line(n: nat, l: string): string {
    "\n" + Decimal(n) + ". " + l
  }

  /** The lines "\n1. Response C", "\n2. Response A", ... numbered from `n`. */
  function RankingLines(labels: seq<string>, n: nat): string
    decreases |labels|
  {
    if labels == [] then "" else Line(n, labels[0]) + RankingLines(labels[1..], n + 1)
  }

  /** The ranking section in the format the ranking prompt asks for. */
  function FormatRanking(labels: seq<string>): string {
    Marker + RankingLines(labels, 1)
  }

  /** The greedy digit run ends exactly where the digits do. */
  lemma {:induction false} DigitsEndAt(s: string, a: nat, b: nat)
    requires a <= b <= |s|
    requires forall k :: a <= k < b ==> IsDigit(s[k])
    requires b == |s| || !IsDigit(s[b])
    decreases b - a
    ensures DigitsEnd(s, a) == b
  {
    if a < b { DigitsEndAt(s, a + 1, b); }
  }

  predicate NoColon(s: string) {
    forall k :: 0 <= k < |s| ==> s[k] != ':'
  }

  lemma {:induction false} RankingLinesHaveNoColon(labels: seq<string>, n: nat)
    requires forall k :: 0 <= k < |labels| ==> IsLabel(labels[k])
    decreases |labels|
    ensures NoColon(RankingLines(labels, n))
  {
    if labels != [] {
      RankingLinesHaveNoColon(labels[1..], n + 1);
      var l := labels[0];
      assert l[..|LabelPrefix|] == LabelPrefix;
      assert forall k :: 0 <= k < |LabelPrefix| ==> l[k] == LabelPrefix[k];
      var d := Decimal(n);
      var line := "\n" + d + ". " + l;
      assert forall k :: 0 <= k < |line| ==> line[k] != ':' by {
        forall k | 0 <= k < |line| ensures line[k] != ':' {
          if 1 <= k < 1 + |d| { assert line[k] == d[k - 1]; }
          else if 1 + |d| + 2 <= k { assert line[k] == l[k - 1 - |d| - 2]; }
        }
      }
      assert RankingLines(labels, n) == line + RankingLines(labels[1..], n + 1);
    }
  }

  /** A text without colons cannot contain the marker, which ends with one. */
  lemma NoColonNoMarker(s: string)
    requires NoColon(s)
    ensures !Contains(s, Marker)
  {
    forall j: nat | j <= |s| ensures !OccursAt(s, Marker, j) {
      if j + |Marker| <= |s| {
        assert s[j..j + |Marker|][|Marker| - 1] == s[j + |Marker| - 1] != ':';
      }
    }
  }

  /** The characters of a piece of `s`. */
  lemma SliceChars(s: string, i: nat, t: string)
    requires i + |t| <= |s| && s[i..i + |t|] == t
    ensures forall k :: 0 <= k < |t| ==> s[i + k] == t[k]
  {
    forall k | 0 <= k < |t| ensures s[i + k] == t[k] {
      assert s[i..i + |t|][k] == s[i + k];
    }
  }

  /** The characters of a requested line "\nk. Response X" at index `i`. */
  lemma LineChars(s: string, i: nat, d: string, l: string)
    requires |d| > 0 && (forall k :: 0 <= k < |d| ==> IsDigit(d[k])) && IsLabel(l)
    requires i + 1 + |d| + 2 + |l| <= |s| && s[i..i + 1 + |d| + 2 + |l|] == "\n" + d + ". " + l
    ensures s[i] == '\n' && s[i + 1 + |d|] == '.' && s[i + 1 + |d| + 1] == ' '
    ensures forall k :: i + 1 <= k < i + 1 + |d| ==> IsDigit(s[k])
    ensures s[i + 1 + |d| + 2..i + 1 + |d| + 2 + |l|] == l
  {
    var line := "\n" + d + ". " + l;
    var a, w := i + 1, i + 1 + |d| + 2;
    SliceChars(s, i, line);
    assert s[i + 0] == line[0];
    assert s[i + (1 + |d|)] == line[1 + |d|];
    assert s[i + (2 + |d|)] == line[2 + |d|];
    forall k | a <= k < a + |d| ensures IsDigit(s[k]) {
      assert s[i + (k - i)] == line[k - i] == d[k - a];
    }
    forall k | 0 <= k < |l| ensures s[w..w + |l|][k] == l[k] {
      assert s[i + (3 + |d| + k)] == line[3 + |d| + k] == l[k];
    }
  }

  /** Digits, a period, whitespace and a label: a numbered match. */
  lemma NumberedAt(s: string, a: nat, dot: nat, w: nat)
    requires a < dot < |s| && DigitsEnd(s, a) == dot && s[dot] == '.' && SpacesEnd(s, dot + 1) == w && LabelAt(s, w)
    ensures NumberedEnd(s, a) == Some(w + LabelLength)
  {
  }

  /** One requested line "\nk. Response X" at index `i`: no match at its newline, one match after it. */
  lemma LineMatches(s: string, i: nat, d: string, l: string)
    requires |d| > 0 && (forall k :: 0 <= k < |d| ==> IsDigit(d[k])) && IsLabel(l)
    requires i + 1 + |d| + 2 + |l| <= |s| && s[i..i + 1 + |d| + 2 + |l|] == "\n" + d + ". " + l
    ensures MatchEnd(NumberedLabel, s, i) == None
    ensures MatchEnd(NumberedLabel, s, i + 1) == Some(i + 1 + |d| + 2 + |l|)
    ensures s[i + 1 + |d| + 2..i + 1 + |d| + 2 + |l|] == l
  {
    LineChars(s, i, d, l);
    var a, dot := i + 1, i + 1 + |d|;
    var w := dot + 2;
    DigitsEndAt(s, a, dot);
    var lw := s[w..w + |l|];
    assert lw[..|LabelPrefix|] == l[..|LabelPrefix|] == LabelPrefix;
    assert s[w..w + |LabelPrefix|] == lw[..|LabelPrefix|];
    assert s[w] == lw[0] == 'R';
    assert s[w + |LabelPrefix|] == lw[|LabelPrefix|];
    assert SpacesEnd(s, dot + 1) == w;
    NumberedAt(s, a, dot, w);
  }

  /**
   * The scan skips the newline of a requested line and takes the match after it,
   * which ends with the line's label.
   */
  lemma LineStep(s: string, i: nat, next: nat, d: string, l: string)
    requires |d| > 0 && (forall k :: 0 <= k < |d| ==> IsDigit(d[k])) && IsLabel(l)
    requires next == i + 1 + |d| + 2 + |l| && next <= |s| && s[i..next] == "\n" + d + ". " + l
    ensures FindAll(NumberedLabel, s, i) == [Span(i + 1, next)] + FindAll(NumberedLabel, s, next)
    ensures LabelLength <= next && s[next - LabelLength..next] == l
  {
    LineMatches(s, i, d, l);
    FindAllSkip(NumberedLabel, s, i);
    FindAllTake(NumberedLabel, s, i + 1, next);
  }

  /** The scan over a requested line at `i` takes one span, which ends with the line's label. */
  lemma LineSpan(s: string, i: nat, next: nat, n: nat, l: string)
    requires IsLabel(l) && next == i + |Line(n, l)|
    requires next <= |s| && s[i..next] == Line(n, l)
    ensures FindAll(NumberedLabel, s, i) == [Span(i + 1, next)] + FindAll(NumberedLabel, s, next)
    ensures LabelLength <= next && s[next - LabelLength..next] == l
  {
    var d := Decimal(n);
    assert Line(n, l) == "\n" + d + ". " + l;
    LineStep(s, i, next, d, l);
  }

  /** One step of the scan over the requested lines: the line's label, then the rest. */
  lemma ScanLine(s: string, i: nat, next: nat, n: nat, l: string, more: seq<string>)
    requires IsLabel(l) && next == i + |Line(n, l)|
    requires next <= |s| && s[i..next] == Line(n, l)
    requires LabelsOf(s, FindAll(NumberedLabel, s, next)) == more
    ensures LabelsOf(s, FindAll(NumberedLabel, s, i)) == [l] + more
  {
    LineSpan(s, i, next, n, l);
    LabelsOfCons(s, Span(i + 1, next), FindAll(NumberedLabel, s, next), l, more);
  }

  /** The first requested line and the lines after it. */
  lemma SplitLines(s: string, i: nat, labels: seq<string>, n: nat)
    requires i <= |s| && s[i..] == RankingLines(labels, n) && labels != []
    ensures i + |Line(n, labels[0])| <= |s|
    ensures s[i..i + |Line(n, labels[0])|] == Line(n, labels[0])
    ensures s[i + |Line(n, labels[0])|..] == RankingLines(labels[1..], n + 1)
  {
    var line := Line(n, labels[0]);
    var next := i + |line|;
    assert s[i..] == line + RankingLines(labels[1..], n + 1);
    assert s[i..next] == s[i..][..|line|];
    assert s[next..] == s[i..][|line|..];
  }

  /** Scanning the numbered lines from index `i` yields exactly the listed labels. */
  lemma {:induction false} NumberedLinesScan(s: string, i: nat, labels: seq<string>, n: nat)
    requires i <= |s| && s[i..] == RankingLines(labels, n)
    requires forall k :: 0 <= k < |labels| ==> IsLabel(labels[k])
    decreases |labels|
    ensures LabelsOf(s, FindAll(NumberedLabel, s, i)) == labels
  {
    if labels == [] {
      assert |s[i..]| == 0;
    } else {
      var l, rest := labels[0], labels[1..];
      assert [l] + rest == labels;
      assert IsLabel(l);
      var next := i + |Line(n, l)|;
      SplitLines(s, i, labels, n);
      NumberedLinesScan(s, next, rest, n + 1);
      ScanLine(s, i, next, n, l, rest);
    }
  }

  /**
   * Round trip: an evaluation that does not mention the marker, followed by a
   * ranking in the requested format ("FINAL RANKING:" and one "k. Response X"
   * line per entry), parses back to exactly the labels listed, in order,
   * duplicates included, whatever the evaluation says about the responses.
   */
  lemma FormattedRankingRoundTrip(evaluation: string, labels: seq<string>)
    requires !Contains(evaluation, Marker)
    requires forall k :: 0 <= k < |labels| ==> IsLabel(labels[k])
    ensures ParseRanking(evaluation + FormatRanking(labels)) == labels
  {
    var lines := RankingLines(labels, 1);
    RankingLinesHaveNoColon(labels, 1);
    NoColonNoMarker(lines);
    assert evaluation + FormatRanking(labels) == evaluation + Marker + lines;
    OneMarker(evaluation, lines);
    NumberedLinesScan(lines, 0, labels, 1);
    assert lines[0..] == lines;
    if labels == [] {
      assert lines == [];
    }
  }
}
