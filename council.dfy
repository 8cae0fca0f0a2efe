/**
 * The whole council (`run_full_council`) and the conversation title
 * (`generate_conversation_title`). Every model call is an input: the answers of
 * stage 1 and stage 3 one per member in roster order, the collaboration turns an
 * oracle, the chairman's and the title model's answer one each.
 */
module Council {
  import opened Wrappers
  import opened Text
  import opened Roster
  import opened Stage1
  import opened Collaboration
  import opened Rankings
  import opened Aggregation
  import opened Synthesis

  /** `run_full_council` asks for two collaboration rounds. */
  const MaxRounds: int := 2

  const ErrorModel: string := "error"
  const NoResponses: string := "All models failed to respond. Please try again."

  /** `{"label_to_model": ..., "aggregate_rankings": ...}`. */
  datatype Metadata = Metadata(labelMap: LabelMap, aggregate: seq<AggregateRanking>)

  /** The five results of a run; metadata `None` is the empty dict of a run that stopped after stage 1. */
  datatype CouncilResult = CouncilResult(
    stage1: seq<Stage1Result>,
    stage2: seq<LogEntry>,
    stage3: seq<Stage3Result>,
    stage4: Synthesis,
    metadata: Option<Metadata>)

  /** The answers of every model call of a run (`None`: the call failed). */
  datatype Answers = Answers(
    stage1: seq<Option<Response>>,
    stage2: Oracle,
    stage3: seq<Option<Response>>,
    chairman: Option<Response>)

  /** What a run promises: stop with an error when no member answered, else all four stages. */
  function FullCouncil(roster: seq<Member>, answers: Answers): CouncilResult
    requires |answers.stage1| == |roster| && |answers.stage3| == |roster| && |roster| <= MaxResponses
  {
    var s1 := Successes(roster, answers.stage1, |roster|);
    if s1 == [] then
      CouncilResult([], [], [], Synthesis(ErrorModel, Some(NoResponses)), None)
    else
      var s3 := RankingsFrom(roster, answers.stage3, |roster|);
      var lm := LabelMapOf(s1);
      CouncilResult(s1, Collaborate(roster, answers.stage2, MaxRounds), s3, Stage4Result(answers.chairman),
                    Some(Metadata(lm, AggregateRankings(s3, lm))))
  }

  /** `run_full_council`: the stages one after the other. */
  method RunFullCouncil(roster: seq<Member>, answers: Answers) returns (r: CouncilResult)
    requires |answers.stage1| == |roster| && |answers.stage3| == |roster| && |roster| <= MaxResponses
    ensures r == FullCouncil(roster, answers)
  {
    var stage1 := Stage1Collect(roster, answers.stage1);
    if stage1 == [] {
      return CouncilResult([], [], [], Synthesis(ErrorModel, Some(NoResponses)), None);
    }
    var stage2 := Stage2Collaboration(roster, answers.stage2, MaxRounds);
    var stage3 := Stage3Collect(roster, answers.stage3);
    var labelMap := LabelMapOf(stage1);
    var aggregate := CalculateAggregateRankings(stage3, labelMap);
    var stage4 := Stage4Result(answers.chairman);
    r := CouncilResult(stage1, stage2, stage3, stage4, Some(Metadata(labelMap, aggregate)));
  }

  /**
   * A run stops after stage 1, with the error result and nothing else, exactly
   * when every member's stage-1 call failed.
   */
  lemma ShortCircuit(roster: seq<Member>, answers: Answers)
    requires |answers.stage1| == |roster| && |answers.stage3| == |roster| && |roster| <= MaxResponses
    ensures var r := FullCouncil(roster, answers);
            r.metadata.None? <==> forall k :: 0 <= k < |roster| ==> answers.stage1[k].None?
    ensures var r := FullCouncil(roster, answers);
            r.metadata.None? ==> r == CouncilResult([], [], [], Synthesis(ErrorModel, Some(NoResponses)), None)
  {
    AllFailed(roster, answers.stage1, |roster|);
  }

  /**
   * The aggregate of a complete run ranks only members whose stage-1 call
   * succeeded, and is sorted by average position.
   */
  lemma AggregateOfRun(roster: seq<Member>, answers: Answers)
    requires |answers.stage1| == |roster| && |answers.stage3| == |roster| && |roster| <= MaxResponses
    ensures var r := FullCouncil(roster, answers);
            r.metadata.Some? ==>
              SortedByRank(r.metadata.value.aggregate)
              && forall e :: e in r.metadata.value.aggregate ==>
                   exists k :: 0 <= k < |roster| && answers.stage1[k].Some? && roster[k].name == e.member
  {
    var s1 := Successes(roster, answers.stage1, |roster|);
    if s1 != [] {
      var s3 := RankingsFrom(roster, answers.stage3, |roster|);
      var lm := LabelMapOf(s1);
      AggregateSorted(s3, lm);
      AggregateLabelled(s3, lm);
      SuccessesExactly(roster, answers.stage1, |roster|);
      forall e | e in AggregateRankings(s3, lm)
        ensures exists k :: 0 <= k < |roster| && answers.stage1[k].Some? && roster[k].name == e.member
      {
        var i :| 0 <= i < |lm| && lm[i].1 == e.member;
        assert s1[i] in s1;
        var k :| 0 <= k < |roster| && answers.stage1[k].Some? && s1[i] == ResultOf(roster[k], answers.stage1[k].value);
      }
    }
  }

  // ---------------------------------------------------------------------------
  // The conversation title

  const DefaultTitle: string := "New Conversation"
  const TitleLimit: nat := 50

  predicate IsQuote(c: char) {
    c == '"' || c == '\''
  }

  /** The title text with surrounding whitespace, then surrounding quotes, removed. */
  function Trimmed(raw: string): string {
    Strip(Strip(raw, IsSpace), IsQuote)
  }

  /** The cleanup of `generate_conversation_title`: trim, then cut anything over 50 characters to 47 and "...". */
  function CleanTitle(raw: string): (t: string)
    ensures |t| <= TitleLimit
  {
    var s := Trimmed(raw);
    if |s| > TitleLimit then s[..47] + "..." else s
  }

  lemma OccursWithin(a: string, b: string, c: string, i: nat, j: nat)
    requires OccursAt(a, b, i) && OccursAt(b, c, j)
    ensures OccursAt(a, c, i + j)
  {
    forall k | 0 <= k < |c| ensures a[i + j + k] == c[k] {
      assert c[k] == b[j + k] == a[i + j + k];
    }
    assert a[i + j..i + j + |c|] == c;
  }

  /**
   * The trimmed text is a piece of the model's text that neither starts nor
   * ends with a quote.
   */
  lemma TrimmedPiece(raw: string)
    ensures Contains(raw, Trimmed(raw))
    ensures var s := Trimmed(raw); s != [] ==> !IsQuote(s[0]) && !IsQuote(s[|s| - 1])
  {
    var inner := Strip(raw, IsSpace);
    StripSpec(raw, IsSpace);
    StripSpec(inner, IsQuote);
    var i := LeadingCount(raw, IsSpace) + LeadingCount(inner, IsQuote);
    OccursWithin(raw, inner, Trimmed(raw), LeadingCount(raw, IsSpace), LeadingCount(inner, IsQuote));
    assert i <= |raw|;
  }

  /** A title that fits is the trimmed text; one that does not keeps its first 47 characters and ends in "...". */
  lemma CleanTitleCut(raw: string)
    ensures var s := Trimmed(raw);
            var t := CleanTitle(raw);
            (|s| <= TitleLimit ==> t == s)
            && (|s| > TitleLimit ==> |t| == TitleLimit && t[..47] == s[..47] && t[47..] == "...")
  {
  }

  /** The title, given the title model's answer; a null content counts as no title, as a missing one does. */
  function Title(answer: Option<Response>): string {
    match answer
    case None => DefaultTitle
    case Some(resp) => CleanTitle(resp.content.GetOr(DefaultTitle))
  }

  /** The title as written: a null content reaches `.strip()` and raises `AttributeError` (`None`). */
  function TitleAsWritten(answer: Option<Response>): (r: Option<string>)
    ensures r.Some? ==> r.value == Title(answer)
  {
    match answer
    case None => Some(DefaultTitle)
    case Some(resp) => if resp.content.None? then None else Some(CleanTitle(resp.content.value))
  }

  /** Every title is at most 50 characters, and a failed call gives the default title. */
  lemma TitleBound(answer: Option<Response>)
    ensures |Title(answer)| <= TitleLimit
    ensures answer.None? ==> Title(answer) == DefaultTitle
  {
  }

  /** A title answer with null content: as written the call raises; the corrected title is the default. */
  lemma NullTitleContent()
    ensures TitleAsWritten(Some(Response(None, []))) == None
    ensures Title(Some(Response(None, []))) == DefaultTitle
  {
    assert DefaultTitle[0] == 'N' && DefaultTitle[|DefaultTitle| - 1] == 'n';
    StripUnchanged(DefaultTitle, IsSpace);
    StripUnchanged(DefaultTitle, IsQuote);
  }
}
