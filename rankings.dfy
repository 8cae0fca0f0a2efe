/**
 * Stage 3 (`stage3_collect_rankings`): the stage-1 answers are anonymised as
 * "Response A", "Response B", ... in stage-1 order, every member is asked to rank
 * them, and each answer's ranking is parsed.
 */
module Rankings {
  import opened Wrappers
  import opened Text
  import opened Roster
  import opened Stage1
  import opened RankingParser

  /** Labels are built with `chr(65 + i)`, which has to be a Unicode scalar value below the surrogates. */
  const MaxResponses: nat := 0xD800 - 65

  /** The label of the `i`-th stage-1 answer: "Response " followed by `chr(65 + i)`. */
  function LabelFor(i: nat): string
    requires i < MaxResponses
  {
    LabelPrefix + [(65 + i) as char]
  }

  /** Different answers get different labels. */
  lemma LabelsDistinct(i: nat, j: nat)
    requires i < MaxResponses && j < MaxResponses && i != j
    ensures LabelFor(i) != LabelFor(j)
  {
    assert LabelFor(i)[9] != LabelFor(j)[9];
  }

  /**
   * Only the first 26 labels are labels the parser can return: from the 27th on,
   * `chr(65 + i)` is past `Z`, and that answer can never be ranked.
   */
  lemma LabelParsable(i: nat)
    requires i < MaxResponses
    ensures IsLabel(LabelFor(i)) <==> i < 26
  {
    var l := LabelFor(i);
    assert l[..|LabelPrefix|] == LabelPrefix;
    assert l[|LabelPrefix|] == (65 + i) as char;
  }

  /** `label_to_member`, in insertion order: label to member name. */
  type LabelMap = seq<(string, string)>

  /**
   * The label map of the stage-1 results: the `i`-th result gets `LabelFor(i)` and
   * is known by its member's name; there is one key per result and no key twice.
   */
  function LabelMapOf(results: seq<Stage1Result>): (lm: LabelMap)
    requires |results| <= MaxResponses
    ensures |lm| == |results|
    ensures forall i :: 0 <= i < |lm| ==> lm[i] == (LabelFor(i), results[i].memberName)
    ensures forall i, j :: 0 <= i < j < |lm| ==> lm[i].0 != lm[j].0
  {
    var lm := seq(|results|, i requires 0 <= i < |results| => (LabelFor(i), results[i].memberName));
    assert forall i, j :: 0 <= i < j < |lm| ==> lm[i].0 != lm[j].0 by {
      forall i, j | 0 <= i < j < |lm| ensures lm[i].0 != lm[j].0 {
        LabelsDistinct(i, j);
      }
    }
    lm
  }

  /** `label in label_to_member` and `label_to_member[label]`. */
  function Lookup(lm: LabelMap, key: string): (r: Option<string>)
    decreases |lm|
    ensures r.Some? <==> exists i :: 0 <= i < |lm| && lm[i].0 == key
    ensures r.Some? ==> exists i :: 0 <= i < |lm| && lm[i] == (key, r.value)
  {
    if lm == [] then None
    else if lm[0].0 == key then Some(lm[0].1)
    else
      var r := Lookup(lm[1..], key);
      assert forall i :: 1 <= i < |lm| ==> lm[i] == lm[1..][i - 1];
      r
  }

  /** Looking a label up in the label map finds the member it was given to, and nothing for other labels. */
  lemma {:induction false} LookupLabel(results: seq<Stage1Result>, i: nat)
    requires |results| <= MaxResponses && i < MaxResponses
    ensures Lookup(LabelMapOf(results), LabelFor(i))
         == if i < |results| then Some(results[i].memberName) else None
  {
    var lm := LabelMapOf(results);
    var r := Lookup(lm, LabelFor(i));
    if r.Some? {
      var k :| 0 <= k < |lm| && lm[k] == (LabelFor(i), r.value);
      if k != i {
        LabelsDistinct(k, i);
      }
    }
  }

  // ---------------------------------------------------------------------------
  // Collecting the rankings

  /** One member's stage-3 answer: the full text and the labels parsed from it. */
  datatype Stage3Result = Stage3Result(
    memberId: string,
    memberName: string,
    model: string,
    ranking: string,
    parsedRanking: seq<string>)

  /** The text a ranking is read from: a null content reads as the empty text. */
  function RankingText(resp: Response): string {
    resp.content.GetOr("")
  }

  function RankingOf(m: Member, resp: Response): Stage3Result {
    var text := RankingText(resp);
    Stage3Result(m.id, m.name, m.model, text, ParseRanking(text))
  }

  /** The result a member's answer contributes: its parsed ranking, or nothing when the call failed. */
  function RankedAnswer(m: Member, answer: Option<Response>): seq<Stage3Result> {
    match answer
    case Some(resp) => [RankingOf(m, resp)]
    case None => []
  }

  /** The rankings of the members `roster[..n]` whose call succeeded, in roster order. */
  function RankingsFrom(roster: seq<Member>, answers: seq<Option<Response>>, n: nat): (r: seq<Stage3Result>)
    requires |answers| == |roster| && n <= |roster|
    ensures |r| <= n
  {
    if n == 0 then []
    else
      RankingsFrom(roster, answers, n - 1) + RankedAnswer(roster[n - 1], answers[n - 1])
  }

  /**
   * `stage3_collect_rankings`, given one answer per member in roster order:
   * keeps the successful ones and parses each answer's ranking.
   */
  method Stage3Collect(roster: seq<Member>, answers: seq<Option<Response>>) returns (results: seq<Stage3Result>)
    requires |answers| == |roster|
    ensures results == RankingsFrom(roster, answers, |roster|)
  {
    results := [];
    for k := 0 to |roster|
      invariant results == RankingsFrom(roster, answers, k)
    {
      var response := answers[k];
      if response.Some? {
        results := results + [RankingOf(roster[k], response.value)];
      }
      assert results == RankingsFrom(roster, answers, k) + RankedAnswer(roster[k], response);
    }
  }

  /**
   * The collection as written: `"FINAL RANKING:" in full_text` raises `TypeError`
   * when a successful answer's content is null, and the whole stage fails.
   */
  function RankingsAsWritten(roster: seq<Member>, answers: seq<Option<Response>>, n: nat): Option<seq<Stage3Result>>
    requires |answers| == |roster| && n <= |roster|
  {
    if n == 0 then Some([])
    else
      match RankingsAsWritten(roster, answers, n - 1)
      case None => None
      case Some(prev) =>
        match answers[n - 1]
        case None => Some(prev)
        case Some(resp) => if resp.content.None? then None else Some(prev + [RankingOf(roster[n - 1], resp)])
  }

  /** When the as-written stage does not fail, it collects what the corrected stage does. */
  lemma {:induction false} RankingsAsWrittenAgrees(roster: seq<Member>, answers: seq<Option<Response>>, n: nat)
    requires |answers| == |roster| && n <= |roster|
    ensures RankingsAsWritten(roster, answers, n).Some? ==>
      RankingsAsWritten(roster, answers, n).value == RankingsFrom(roster, answers, n)
  {
    if n > 0 {
      RankingsAsWrittenAgrees(roster, answers, n - 1);
    }
  }

  /** Member `k`'s call succeeded, but its message has a null content. */
  predicate NullContent(answers: seq<Option<Response>>, k: nat)
    requires k < |answers|
  {
    answers[k].Some? && answers[k].value.content.None?
  }

  /**
   * The as-written stage fails exactly when some member's call succeeded with a
   * null content: the first such answer raises, and every other answer is fine.
   */
  lemma {:induction false} RankingsAsWrittenFails(roster: seq<Member>, answers: seq<Option<Response>>, n: nat)
    requires |answers| == |roster| && n <= |roster|
    ensures RankingsAsWritten(roster, answers, n).None? <==> exists k :: 0 <= k < n && NullContent(answers, k)
  {
    if n > 0 {
      var before := exists k :: 0 <= k < n - 1 && NullContent(answers, k);
      var now := exists k :: 0 <= k < n && NullContent(answers, k);
      assert now <==> before || NullContent(answers, n - 1) by {
        if before {
          var k :| 0 <= k < n - 1 && NullContent(answers, k);
          assert 0 <= k < n && NullContent(answers, k);
        }
        if now && !NullContent(answers, n - 1) {
          var k :| 0 <= k < n && NullContent(answers, k);
          assert k < n - 1;
        }
      }
      RankingsAsWrittenFails(roster, answers, n - 1);
      assert RankingsAsWritten(roster, answers, n).None?
        <==> RankingsAsWritten(roster, answers, n - 1).None? || NullContent(answers, n - 1);
    }
  }

  /** The indices below `n` of the members whose call succeeded, in increasing (roster) order. */
  function Answered(answers: seq<Option<Response>>, n: nat): (ks: seq<nat>)
    requires n <= |answers|
    ensures forall a, b :: 0 <= a < b < |ks| ==> ks[a] < ks[b]
    ensures forall t :: 0 <= t < |ks| ==> ks[t] < n && answers[ks[t]].Some?
    ensures forall k :: 0 <= k < n && answers[k].Some? ==> k in ks
  {
    if n == 0 then []
    else Answered(answers, n - 1) + (if answers[n - 1].Some? then [n - 1] else [])
  }

  /** `rs[t]` is the parsed ranking of member `ks[t]`, for every `t`. */
  predicate RankingsOfAnswered(roster: seq<Member>, answers: seq<Option<Response>>, ks: seq<nat>, rs: seq<Stage3Result>)
    requires |answers| == |roster|
  {
    |rs| == |ks| &&
    forall t :: 0 <= t < |ks| ==>
      ks[t] < |roster| && answers[ks[t]].Some? && rs[t] == RankingOf(roster[ks[t]], answers[ks[t]].value)
  }

  /**
   * Stage 3 holds one result per member whose call succeeded, in roster order,
   * and that result is the member's parsed ranking; failed calls leave nothing.
   */
  lemma {:induction false} RankingsExactly(roster: seq<Member>, answers: seq<Option<Response>>, n: nat)
    requires |answers| == |roster| && n <= |roster|
    ensures RankingsOfAnswered(roster, answers, Answered(answers, n), RankingsFrom(roster, answers, n))
  {
    if n > 0 {
      RankingsExactly(roster, answers, n - 1);
      var prev, ks := RankingsFrom(roster, answers, n - 1), Answered(answers, n - 1);
      var rs, ks' := RankingsFrom(roster, answers, n), Answered(answers, n);
      if answers[n - 1].Some? {
        assert rs == prev + [RankingOf(roster[n - 1], answers[n - 1].value)];
        assert ks' == ks + [n - 1];
        forall t | 0 <= t < |ks'|
          ensures ks'[t] < |roster| && answers[ks'[t]].Some? && rs[t] == RankingOf(roster[ks'[t]], answers[ks'[t]].value)
        {
          if t < |ks| {
            assert ks'[t] == ks[t] && rs[t] == prev[t];
          }
        }
      } else {
        assert rs == prev;
        assert ks' == ks;
      }
    }
  }

  /** An empty text has no ranking. */
  lemma EmptyTextHasNoRanking()
    ensures ParseRanking("") == []
  {
    assert IndexOf("", Marker, 0) == None;
    assert FindAll(AnyLabel, "", 0) == [];
  }

  /**
   * A member whose ranking call succeeds with null content: as written, stage 3
   * fails; with the content read as the empty text, the member's ranking is
   * recorded, with nothing parsed from it.
   */
  lemma NullRankingContent(m: Member)
    ensures RankingsAsWritten([m], [Some(Response(None, []))], 1) == None
    ensures RankingsFrom([m], [Some(Response(None, []))], 1) == [Stage3Result(m.id, m.name, m.model, "", [])]
  {
    EmptyTextHasNoRanking();
  }
}
