/**
 * Stage 1 (`stage1_collect_responses`): every member is asked the question; the
 * members whose call failed are left out, the others keep roster order.
 */
module Stage1 {
  import opened Wrappers
  import opened Tools
  import opened Roster

  /** One member's stage-1 answer. `response` is the content, which may be JSON null. */
  datatype Stage1Result = Stage1Result(
    memberId: string,
    memberName: string,
    model: string,
    role: string,
    response: Option<string>)

  /** The result recorded for member `m` answering `resp`. */
  function ResultOf(m: Member, resp: Response): Stage1Result {
    Stage1Result(m.id, m.name, m.model, m.role, resp.content)
  }

  /** The results of the members `roster[..n]` whose call succeeded, in roster order. */
  function Successes(roster: seq<Member>, answers: seq<Option<Response>>, n: nat): (r: seq<Stage1Result>)
    requires |answers| == |roster| && n <= |roster|
    ensures |r| <= n
  {
    if n == 0 then []
    else
      Successes(roster, answers, n - 1)
      + (match answers[n - 1] case Some(resp) => [ResultOf(roster[n - 1], resp)] case None => [])
  }

  /**
   * `stage1_collect_responses`, given one answer per member in roster order
   * (`None` for a failed call): keeps the successful ones.
   */
  method Stage1Collect(roster: seq<Member>, answers: seq<Option<Response>>) returns (results: seq<Stage1Result>)
    requires |answers| == |roster|
    ensures results == Successes(roster, answers, |roster|)
  {
    results := [];
    for k := 0 to |roster|
      invariant results == Successes(roster, answers, k)
    {
      var response := answers[k];
      if response.Some? {
        var member := roster[k];
        results := results + [Stage1Result(member.id, member.name, member.model, member.role, response.value.content)];
      }
    }
  }

  /**
   * A result is kept exactly when it is the answer of a member whose call
   * succeeded, and there is one per such member.
   */
  lemma {:induction false} SuccessesExactly(roster: seq<Member>, answers: seq<Option<Response>>, n: nat)
    requires |answers| == |roster| && n <= |roster|
    ensures |Successes(roster, answers, n)| == |set k | 0 <= k < n && answers[k].Some?|
    ensures forall x :: x in Successes(roster, answers, n) <==>
      exists k :: 0 <= k < n && answers[k].Some? && x == ResultOf(roster[k], answers[k].value)
  {
    if n > 0 {
      SuccessesExactly(roster, answers, n - 1);
      var prev := Successes(roster, answers, n - 1);
      var tail := match answers[n - 1] case Some(resp) => [ResultOf(roster[n - 1], resp)] case None => [];
      assert Successes(roster, answers, n) == prev + tail;
      forall x ensures x in prev + tail <==>
        exists k :: 0 <= k < n && answers[k].Some? && x == ResultOf(roster[k], answers[k].value)
      {
        if answers[n - 1].Some? && x == ResultOf(roster[n - 1], answers[n - 1].value) {
          assert x in tail;
        }
      }
      var before := set k | 0 <= k < n - 1 && answers[k].Some?;
      var now := set k | 0 <= k < n && answers[k].Some?;
      if answers[n - 1].Some? {
        assert now == before + {n - 1};
      } else {
        assert now == before;
      }
    }
  }

  /** With every call failed nothing is kept (the case `run_full_council` stops on). */
  lemma {:induction false} AllFailed(roster: seq<Member>, answers: seq<Option<Response>>, n: nat)
    requires |answers| == |roster| && n <= |roster|
    ensures Successes(roster, answers, n) == [] <==> forall k :: 0 <= k < n ==> answers[k].None?
  {
    if n > 0 {
      AllFailed(roster, answers, n - 1);
    }
  }
}
