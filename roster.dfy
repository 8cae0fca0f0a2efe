/**
 * The council's members and what a model call returns. Model calls themselves
 * are not modelled: wherever the orchestrator queries a model, the model takes
 * the answer as an input (`None` when the call failed).
 */
module Roster {
  import opened Wrappers
  import opened Tools

  /** One entry of `COUNCIL_MEMBERS`: its key (`id`) and its configuration. */
  datatype Member = Member(
    id: string,
    name: string,
    model: string,
    personality: string,
    traits: seq<string>,
    role: string)

  /**
   * One tool call of a response. `arguments` is the result of decoding the
   * call's JSON text: `None` when `json.loads` raised `JSONDecodeError`.
   */
  datatype ToolCall = ToolCall(id: string, name: string, arguments: Option<Arguments>)

  /** A successful model call: `content` may be JSON null; a missing or null tool-call list is empty. */
  datatype Response = Response(content: Option<string>, toolCalls: seq<ToolCall>)

  /** The members' keys are distinct, as the keys of a dict are. */
  predicate DistinctIds(roster: seq<Member>) {
    forall a, b :: 0 <= a < b < |roster| ==> roster[a].id != roster[b].id
  }

  /** The configured roster, in the dict's insertion order. */
  const Council: seq<Member> := [
    Member("alice", "Alice", "qwen/qwen3-1.7b", "analytical and methodical",
      ["logical", "detail-oriented", "skeptical"], "Analyst - breaks down problems systematically"),
    Member("bob", "Bob", "qwen/qwen3-1.7b", "creative and enthusiastic",
      ["imaginative", "optimistic", "spontaneous"], "Innovator - generates creative solutions"),
    Member("charlie", "Charlie", "qwen/qwen3-1.7b", "diplomatic and balanced",
      ["empathetic", "fair-minded", "collaborative"], "Coordinator - synthesizes different perspectives")
  ]

  const ChairmanModel: string := "qwen/qwen3-1.7b"
}
