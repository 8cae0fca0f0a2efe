/**
 * Stage 2 of the council (`stage2_collaboration`): rounds in which every member,
 * in roster order, answers with optional tool calls, followed by the delivery of
 * the queued messages at the end of the round.
 *
 * The functions below are the specification: a round is the members' turns one
 * after the other, then the drain of the queue, message by message. The method
 * `Stage2Collaboration` is the loop of the source, with the queue as an object
 * shared with the `ToolExecutor`, and is proved to produce the log of
 * `Collaborate`. The model call of a turn is an input (`Oracle`).
 */
module Collaboration {
  import opened Wrappers
  import opened Tools
  import opened Roster

  /** One record of a member's conversation history. */
  datatype Record =
    | Delivered(from: string, message: ArgValue)                        // role "user": "Message from <from>: <message>"
    | AssistantTurn(content: Option<string>, toolCalls: seq<ToolCall>)  // role "assistant", with all the response's tool calls
    | ToolOutput(toolCallId: string, result: ToolResult)                // role "tool"

  /** One executed tool call, as logged. */
  datatype ToolLog = ToolLog(tool: string, arguments: Arguments, result: ToolResult)

  /** One entry of the collaboration log. */
  datatype LogEntry =
    | TurnEntry(round: nat, memberId: string, memberName: string, content: Option<string>, toolCalls: seq<ToolLog>)
    | DeliveryEntry(round: nat, from: string, to: ArgValue, message: ArgValue)

  /**
   * The model call of a turn, given the round (counted from 0, which decides the
   * opening user message), the member (its model and system prompt) and the
   * member's history so far. `None` is a failed call.
   */
  type Oracle = (nat, Member, seq<Record>) -> Option<Response>

  /** `json.loads` of the call's arguments, with `{}` when decoding fails. */
  function DecodeArguments(a: Option<Arguments>): Arguments {
    a.GetOr(Object(map[]))
  }

  /** What the executor reports for one tool call of `caller`. */
  function CallOutcome(caller: Member, call: ToolCall): Outcome {
    Dispatch(caller.name, call.name, DecodeArguments(call.arguments))
  }

  // ---------------------------------------------------------------------------
  // The tool calls of one response

  /** The caller's history, the queue and the turn's tool-call log while the calls are executed. */
  datatype CallState = CallState(history: seq<Record>, queue: seq<Message>, logs: seq<ToolLog>)

  /** The messages that the calls `calls[i..]` of `caller` queue, in call order. */
  function SentBy(caller: Member, calls: seq<ToolCall>, i: nat): (r: seq<Message>)
    requires i <= |calls|
    decreases |calls| - i
    ensures |r| <= |calls| - i
    ensures forall k :: 0 <= k < |r| ==> r[k].from == caller.name
  {
    if i == |calls| then []
    else
      var call := calls[i];
      DispatchSpec(caller.name, call.name, DecodeArguments(call.arguments));
      CallOutcome(caller, call).sent + SentBy(caller, calls, i + 1)
  }

  /** The two records each call `resp.toolCalls[i..]` leaves in its caller's history, in call order. */
  function RecordsOf(caller: Member, resp: Response, i: nat): (r: seq<Record>)
    requires i <= |resp.toolCalls|
    decreases |resp.toolCalls| - i
    ensures |r| == 2 * (|resp.toolCalls| - i)
    ensures forall k :: 0 <= k < |r| ==> !r[k].Delivered?
  {
    if i == |resp.toolCalls| then []
    else
      var call := resp.toolCalls[i];
      [AssistantTurn(resp.content, resp.toolCalls), ToolOutput(call.id, CallOutcome(caller, call).result)]
      + RecordsOf(caller, resp, i + 1)
  }

  /** The log entries of the calls `resp.toolCalls[i..]`, in call order. */
  function LogsOf(caller: Member, resp: Response, i: nat): (r: seq<ToolLog>)
    requires i <= |resp.toolCalls|
    decreases |resp.toolCalls| - i
    ensures |r| == |resp.toolCalls| - i
  {
    if i == |resp.toolCalls| then []
    else
      var call := resp.toolCalls[i];
      [ToolLog(call.name, DecodeArguments(call.arguments), CallOutcome(caller, call).result)]
      + LogsOf(caller, resp, i + 1)
  }

  /**
   * Executing the tool calls `resp.toolCalls[i..]` one by one. The caller's
   * history grows by exactly their records, the turn's log by exactly their
   * entries and the queue by exactly their messages.
   */
  function CallsFrom(caller: Member, resp: Response, cs: CallState, i: nat): (r: CallState)
    requires i <= |resp.toolCalls|
    decreases |resp.toolCalls| - i
    ensures r.history == cs.history + RecordsOf(caller, resp, i)
    ensures r.logs == cs.logs + LogsOf(caller, resp, i)
    ensures r.queue == cs.queue + SentBy(caller, resp.toolCalls, i)
  {
    if i == |resp.toolCalls| then cs
    else
      var next := CallStep(caller, resp, cs, i);
      var call := resp.toolCalls[i];
      var o := CallOutcome(caller, call);
      AppendAssoc(cs.history, [AssistantTurn(resp.content, resp.toolCalls), ToolOutput(call.id, o.result)],
                  RecordsOf(caller, resp, i + 1));
      AppendAssoc(cs.logs, [ToolLog(call.name, DecodeArguments(call.arguments), o.result)], LogsOf(caller, resp, i + 1));
      AppendAssoc(cs.queue, o.sent, SentBy(caller, resp.toolCalls, i + 1));
      CallsFrom(caller, resp, next, i + 1)
  }

  /**
   * Call `i`: the assistant message carrying all of the response's tool calls and
   * the call's result go to the history, the call to the log, its message to the queue.
   */
  function CallStep(caller: Member, resp: Response, cs: CallState, i: nat): CallState
    requires i < |resp.toolCalls|
  {
    var call := resp.toolCalls[i];
    var args := DecodeArguments(call.arguments);
    var o := CallOutcome(caller, call);
    CallState(
      cs.history + [AssistantTurn(resp.content, resp.toolCalls), ToolOutput(call.id, o.result)],
      cs.queue + o.sent,
      cs.logs + [ToolLog(call.name, args, o.result)])
  }

  /**
   * Every call leaves exactly two records, in call order: the assistant message
   * with the response's content and tool calls, then the call's own result.
   */
  lemma {:induction false} CallRecords(caller: Member, resp: Response, i: nat, k: nat)
    requires i <= k < |resp.toolCalls|
    decreases k - i
    ensures var r := RecordsOf(caller, resp, i);
      r[2 * (k - i)] == AssistantTurn(resp.content, resp.toolCalls)
      && r[2 * (k - i) + 1] == ToolOutput(resp.toolCalls[k].id, CallOutcome(caller, resp.toolCalls[k]).result)
  {
    if k > i {
      CallRecords(caller, resp, i + 1, k);
      var r, rest := RecordsOf(caller, resp, i), RecordsOf(caller, resp, i + 1);
      assert r[2 * (k - i)] == rest[2 * (k - (i + 1))];
      assert r[2 * (k - i) + 1] == rest[2 * (k - (i + 1)) + 1];
    }
  }

  /** Every call is logged, in call order, with its decoded arguments and its result. */
  lemma {:induction false} CallLogs(caller: Member, resp: Response, i: nat, k: nat)
    requires i <= k < |resp.toolCalls|
    decreases k - i
    ensures LogsOf(caller, resp, i)[k - i]
         == ToolLog(resp.toolCalls[k].name, DecodeArguments(resp.toolCalls[k].arguments),
                    CallOutcome(caller, resp.toolCalls[k]).result)
  {
    if k > i {
      CallLogs(caller, resp, i + 1, k);
      assert LogsOf(caller, resp, i)[k - i] == LogsOf(caller, resp, i + 1)[k - (i + 1)];
    }
  }

  // ---------------------------------------------------------------------------
  // Turns

  /** The loop's state: each member's history by member id, the queue's contents, the log. */
  datatype State = State(histories: map<string, seq<Record>>, queue: seq<Message>, log: seq<LogEntry>)

  /** Every member of the roster has a history. */
  predicate HasHistories(roster: seq<Member>, histories: map<string, seq<Record>>) {
    forall k :: 0 <= k < |roster| ==> roster[k].id in histories
  }

  /**
   * One member's turn, given the model's answer. A failed call changes nothing.
   * An answer runs its tool calls against the member's own history, may queue
   * messages, and adds exactly one turn entry to the log; no other history changes.
   */
  function Turn(st: State, round: nat, m: Member, answer: Option<Response>): (s: State)
    requires m.id in st.histories
    ensures s.histories.Keys == st.histories.Keys
    ensures forall id :: id in st.histories && id != m.id ==> s.histories[id] == st.histories[id]
    ensures answer.None? ==> s == st
    ensures answer.Some? ==>
      var h, calls := st.histories[m.id], answer.value.toolCalls;
      |s.histories[m.id]| == |h| + 2 * |calls| && s.histories[m.id][..|h|] == h
      && s.queue == st.queue + SentBy(m, calls, 0)
      && |s.log| == |st.log| + 1 && s.log[..|st.log|] == st.log
      && var e := s.log[|st.log|];
      e.TurnEntry? && e.round == round + 1 && e.memberId == m.id && e.memberName == m.name
      && e.content == answer.value.content && e.toolCalls == LogsOf(m, answer.value, 0)
  {
    match answer
    case None => st
    case Some(resp) =>
      var cs := CallsFrom(m, resp, CallState(st.histories[m.id], st.queue, []), 0);
      var entry := TurnEntry(round + 1, m.id, m.name, resp.content, cs.logs);
      assert (st.log + [entry])[..|st.log|] == st.log;
      State(st.histories[m.id := cs.history], cs.queue, st.log + [entry])
  }

  /** The turns of `roster[j..]` in roster order, each member seeing its history as it stands. */
  function TurnsFrom(roster: seq<Member>, ask: Oracle, round: nat, st: State, j: nat): (s: State)
    requires j <= |roster| && HasHistories(roster, st.histories)
    decreases |roster| - j
    ensures s.histories.Keys == st.histories.Keys
  {
    if j == |roster| then st
    else
      var m := roster[j];
      TurnsFrom(roster, ask, round, Turn(st, round, m, ask(round, m, st.histories[m.id])), j + 1)
  }

  // ---------------------------------------------------------------------------
  // Delivery

  /** `to` is the name of `m`: the source compares the configured name with the message's `to`. */
  predicate Named(m: Member, to: ArgValue) {
    to == Str(m.name)
  }

  /** Index of the first member of `roster[k..]` named `to`. */
  function FirstNamed(roster: seq<Member>, to: ArgValue, k: nat): (r: Option<nat>)
    requires k <= |roster|
    decreases |roster| - k
    ensures r.Some? ==> k <= r.value < |roster| && Named(roster[r.value], to)
    ensures r.Some? ==> forall j :: k <= j < r.value ==> !Named(roster[j], to)
    ensures r.None? ==> forall j :: k <= j < |roster| ==> !Named(roster[j], to)
  {
    if k == |roster| then None
    else if Named(roster[k], to) then Some(k)
    else FirstNamed(roster, to, k + 1)
  }

  /** The id of the first member named `to`, if any (`recipient_id`). */
  function Recipient(roster: seq<Member>, to: ArgValue): Option<string> {
    match FirstNamed(roster, to, 0)
    case Some(k) => Some(roster[k].id)
    case None => None
  }

  /** A message is delivered when some member has its `to` as name and the first such has a truthy id. */
  predicate Deliverable(roster: seq<Member>, msg: Message) {
    var r := Recipient(roster, msg.to);
    r.Some? && r.value != []
  }

  /**
   * One message popped from the queue: a deliverable message adds one record to
   * its recipient's history and one delivery entry, tagged with the round, to the
   * log; any other message changes nothing.
   */
  function Deliver(roster: seq<Member>, round: nat, st: State, msg: Message): (s: State)
    requires HasHistories(roster, st.histories)
    ensures s.histories.Keys == st.histories.Keys && s.queue == st.queue
    ensures !Deliverable(roster, msg) ==> s == st
    ensures Deliverable(roster, msg) ==>
      var id := Recipient(roster, msg.to).value;
      s.histories == st.histories[id := st.histories[id] + [Delivered(msg.from, msg.message)]]
      && s.log == st.log + [DeliveryEntry(round + 1, msg.from, msg.to, msg.message)]
  {
    match FirstNamed(roster, msg.to, 0)
    case None => st
    case Some(k) =>
      var id := roster[k].id;
      if id == [] then st
      else
        State(st.histories[id := st.histories[id] + [Delivered(msg.from, msg.message)]],
              st.queue,
              st.log + [DeliveryEntry(round + 1, msg.from, msg.to, msg.message)])
  }

  /** `while message_queue`: pops and delivers every queued message, first in, first out. */
  function Drain(roster: seq<Member>, round: nat, st: State): (s: State)
    requires HasHistories(roster, st.histories)
    decreases |st.queue|
    ensures s.queue == [] && s.histories.Keys == st.histories.Keys
  {
    if st.queue == [] then st
    else Drain(roster, round, Deliver(roster, round, st.(queue := st.queue[1..]), st.queue[0]))
  }

  // ---------------------------------------------------------------------------
  // Rounds

  /** One round: every member's turn, then the delivery of everything queued. */
  function Round(roster: seq<Member>, ask: Oracle, round: nat, st: State): (s: State)
    requires HasHistories(roster, st.histories)
    ensures s.queue == [] && s.histories.Keys == st.histories.Keys
  {
    Drain(roster, round, TurnsFrom(roster, ask, round, st, 0))
  }

  /** Rounds `round`, `round + 1`, ... up to `maxRounds - 1` (`range(max_rounds)`). */
  function RoundsFrom(roster: seq<Member>, ask: Oracle, maxRounds: int, round: nat, st: State): (s: State)
    requires HasHistories(roster, st.histories)
    decreases maxRounds - round
    ensures s.histories.Keys == st.histories.Keys
  {
    if round >= maxRounds then st
    else RoundsFrom(roster, ask, maxRounds, round + 1, Round(roster, ask, round, st))
  }

  /** The members' ids. */
  function Ids(roster: seq<Member>): set<string> {
    set k | 0 <= k < |roster| :: roster[k].id
  }

  /** Every member starts with an empty history, the queue and the log empty. */
  function Initial(roster: seq<Member>): (st: State)
    ensures HasHistories(roster, st.histories)
  {
    State(map id | id in Ids(roster) :: [], [], [])
  }

  /** The collaboration log after `maxRounds` rounds. */
  function Collaborate(roster: seq<Member>, ask: Oracle, maxRounds: int): seq<LogEntry> {
    RoundsFrom(roster, ask, maxRounds, 0, Initial(roster)).log
  }

  // ---------------------------------------------------------------------------
  // What turns and deliveries do to the log, the queue and the histories

  /** The turns of a round only append turn entries, at most one per member, tagged with the round. */
  lemma {:induction false} TurnsLog(roster: seq<Member>, ask: Oracle, round: nat, st: State, j: nat)
    requires j <= |roster| && HasHistories(roster, st.histories)
    decreases |roster| - j
    ensures var s := TurnsFrom(roster, ask, round, st, j);
      |st.log| <= |s.log| <= |st.log| + (|roster| - j) && s.log[..|st.log|] == st.log
      && forall k :: |st.log| <= k < |s.log| ==> s.log[k].TurnEntry? && s.log[k].round == round + 1
  {
    if j < |roster| {
      var m := roster[j];
      var next := Turn(st, round, m, ask(round, m, st.histories[m.id]));
      TurnsLog(roster, ask, round, next, j + 1);
      var s := TurnsFrom(roster, ask, round, next, j + 1);
      assert s.log[..|next.log|][..|st.log|] == s.log[..|st.log|];
      forall k | |st.log| <= k < |s.log| ensures s.log[k].TurnEntry? && s.log[k].round == round + 1 {
        if k < |next.log| {
          assert s.log[k] == s.log[..|next.log|][k];
        }
      }
    }
  }

  /** `name` is the name of some member. */
  predicate IsMemberName(roster: seq<Member>, name: string) {
    exists j :: 0 <= j < |roster| && roster[j].name == name
  }

  /** The turns of a round only append to the queue, and every message they queue comes from a member. */
  lemma {:induction false} TurnsQueue(roster: seq<Member>, ask: Oracle, round: nat, st: State, j: nat)
    requires j <= |roster| && HasHistories(roster, st.histories)
    decreases |roster| - j
    ensures var s := TurnsFrom(roster, ask, round, st, j);
      |st.queue| <= |s.queue| && s.queue[..|st.queue|] == st.queue
      && forall k :: |st.queue| <= k < |s.queue| ==> IsMemberName(roster, s.queue[k].from)
  {
    if j < |roster| {
      var m := roster[j];
      var next := Turn(st, round, m, ask(round, m, st.histories[m.id]));
      TurnsQueue(roster, ask, round, next, j + 1);
      var s := TurnsFrom(roster, ask, round, next, j + 1);
      assert s.queue[..|next.queue|][..|st.queue|] == s.queue[..|st.queue|];
      forall k | |st.queue| <= k < |s.queue| ensures IsMemberName(roster, s.queue[k].from) {
        if k < |next.queue| {
          assert s.queue[k] == next.queue[k];
          var sent := next.queue[|st.queue|..];
          assert next.queue[k] == sent[k - |st.queue|];
          assert roster[j].name == m.name;
        }
      }
    }
  }

  /** `after` extends `before` with records none of which is a delivered message. */
  predicate GrewWithoutDeliveries(before: seq<Record>, after: seq<Record>) {
    |before| <= |after| && after[..|before|] == before
    && forall k :: |before| <= k < |after| ==> !after[k].Delivered?
  }

  /**
   * During the turns no message reaches anyone: every history only grows, by the
   * assistant and tool records of its own member's calls.
   */
  lemma {:induction false} TurnsDeliverNothing(roster: seq<Member>, ask: Oracle, round: nat, st: State, j: nat)
    requires j <= |roster| && HasHistories(roster, st.histories)
    decreases |roster| - j
    ensures var s := TurnsFrom(roster, ask, round, st, j);
      forall id :: id in st.histories ==> GrewWithoutDeliveries(st.histories[id], s.histories[id])
  {
    if j < |roster| {
      var m := roster[j];
      var answer := ask(round, m, st.histories[m.id]);
      var next := Turn(st, round, m, answer);
      TurnsDeliverNothing(roster, ask, round, next, j + 1);
      var s := TurnsFrom(roster, ask, round, next, j + 1);
      forall id | id in st.histories ensures GrewWithoutDeliveries(st.histories[id], s.histories[id]) {
        TurnGrowsWithoutDeliveries(st, round, m, answer, id);
        GrewTransitive(st.histories[id], next.histories[id], s.histories[id]);
      }
    }
  }

  lemma TurnGrowsWithoutDeliveries(st: State, round: nat, m: Member, answer: Option<Response>, id: string)
    requires m.id in st.histories && id in st.histories
    ensures GrewWithoutDeliveries(st.histories[id], Turn(st, round, m, answer).histories[id])
  {
    if answer.Some? && id == m.id {
      var h := st.histories[m.id];
      var after := Turn(st, round, m, answer).histories[m.id];
      var added := RecordsOf(m, answer.value, 0);
      assert after == h + added;
      assert after[..|h|] == h;
      forall k | |h| <= k < |after| ensures !after[k].Delivered? {
        assert after[k] == added[k - |h|];
      }
    }
  }

  lemma GrewTransitive(a: seq<Record>, b: seq<Record>, c: seq<Record>)
    requires GrewWithoutDeliveries(a, b) && GrewWithoutDeliveries(b, c)
    ensures GrewWithoutDeliveries(a, c)
  {
    assert c[..|b|][..|a|] == c[..|a|];
    forall k | |a| <= k < |c| ensures !c[k].Delivered? {
      if k < |b| {
        assert c[k] == c[..|b|][k];
      }
    }
  }

  /** The delivery entry of a message. */
  function DeliveryOf(round: nat, msg: Message): LogEntry {
    DeliveryEntry(round + 1, msg.from, msg.to, msg.message)
  }

  /** The delivery entries of the deliverable messages among `msgs`, in queue order. */
  function Deliveries(roster: seq<Member>, round: nat, msgs: seq<Message>): (r: seq<LogEntry>)
    ensures |r| <= |msgs|
    ensures forall k :: 0 <= k < |r| ==> r[k].DeliveryEntry? && r[k].round == round + 1
  {
    if msgs == [] then []
    else (if Deliverable(roster, msgs[0]) then [DeliveryOf(round, msgs[0])] else [])
         + Deliveries(roster, round, msgs[1..])
  }

  /**
   * Draining appends to the log exactly one delivery entry per deliverable message,
   * first in, first out; undeliverable messages leave no trace.
   */
  lemma {:induction false} DrainLog(roster: seq<Member>, round: nat, st: State)
    requires HasHistories(roster, st.histories)
    decreases |st.queue|
    ensures Drain(roster, round, st).log == st.log + Deliveries(roster, round, st.queue)
  {
    if st.queue != [] {
      var msg := st.queue[0];
      var next := Deliver(roster, round, st.(queue := st.queue[1..]), msg);
      DrainLog(roster, round, next);
      var here := if Deliverable(roster, msg) then [DeliveryOf(round, msg)] else [];
      assert next.log == st.log + here && next.queue == st.queue[1..];
      assert Deliveries(roster, round, st.queue) == here + Deliveries(roster, round, st.queue[1..]);
      AppendAssoc(st.log, here, Deliveries(roster, round, st.queue[1..]));
    }
  }

  /** The records that the messages among `msgs` addressed to member `id` leave in its history, in queue order. */
  function Inbox(roster: seq<Member>, id: string, msgs: seq<Message>): (r: seq<Record>)
    ensures |r| <= |msgs|
    ensures forall k :: 0 <= k < |r| ==> r[k].Delivered?
  {
    if msgs == [] then []
    else (if Deliverable(roster, msgs[0]) && Recipient(roster, msgs[0].to) == Some(id)
          then [Delivered(msgs[0].from, msgs[0].message)] else [])
         + Inbox(roster, id, msgs[1..])
  }

  /** Draining gives every member exactly the messages addressed to it, in queue order, after its history. */
  lemma {:induction false} DrainHistories(roster: seq<Member>, round: nat, st: State, id: string)
    requires HasHistories(roster, st.histories) && id in st.histories
    decreases |st.queue|
    ensures Drain(roster, round, st).histories[id] == st.histories[id] + Inbox(roster, id, st.queue)
  {
    if st.queue != [] {
      var msg := st.queue[0];
      var next := Deliver(roster, round, st.(queue := st.queue[1..]), msg);
      DrainHistories(roster, round, next, id);
      var here := if Deliverable(roster, msg) && Recipient(roster, msg.to) == Some(id)
                  then [Delivered(msg.from, msg.message)] else [];
      assert next.histories[id] == st.histories[id] + here && next.queue == st.queue[1..];
      assert Inbox(roster, id, st.queue) == here + Inbox(roster, id, st.queue[1..]);
      AppendAssoc(st.histories[id], here, Inbox(roster, id, st.queue[1..]));
    }
  }

  /**
   * A round appends its entries after the earlier ones, all tagged with the round,
   * the turn entries first and the deliveries after them: a message sent in a round
   * reaches its recipient only once every member has had its turn.
   */
  lemma RoundLog(roster: seq<Member>, ask: Oracle, round: nat, st: State)
    requires HasHistories(roster, st.histories)
    ensures var s := Round(roster, ask, round, st);
      |st.log| <= |s.log| && s.log[..|st.log|] == st.log
      && (forall k :: |st.log| <= k < |s.log| ==> s.log[k].round == round + 1)
      && forall a, b :: |st.log| <= a < b < |s.log| && s.log[b].TurnEntry? ==> s.log[a].TurnEntry?
  {
    var t := TurnsFrom(roster, ask, round, st, 0);
    TurnsLog(roster, ask, round, st, 0);
    DrainLog(roster, round, t);
    var s := Round(roster, ask, round, st);
    var d := Deliveries(roster, round, t.queue);
    assert s.log == t.log + d;
    assert s.log[..|t.log|] == t.log;
    assert s.log[..|st.log|] == t.log[..|st.log|];
    forall k | |st.log| <= k < |s.log| ensures s.log[k].round == round + 1 {
      if k >= |t.log| {
        assert s.log[k] == d[k - |t.log|];
      }
    }
  }

  /** Entries tagged with rounds 1 to `upTo`, in non-decreasing order of round. */
  predicate RoundsInOrder(log: seq<LogEntry>, upTo: int) {
    (forall k :: 0 <= k < |log| ==> 1 <= log[k].round <= upTo)
    && forall a, b :: 0 <= a < b < |log| ==> log[a].round <= log[b].round
  }

  lemma {:induction false} RoundsFromInOrder(roster: seq<Member>, ask: Oracle, maxRounds: int, round: nat, st: State)
    requires HasHistories(roster, st.histories) && RoundsInOrder(st.log, round)
    decreases maxRounds - round
    ensures RoundsInOrder(RoundsFrom(roster, ask, maxRounds, round, st).log, if round < maxRounds then maxRounds else round)
  {
    if round < maxRounds {
      var next := Round(roster, ask, round, st);
      RoundLog(roster, ask, round, st);
      assert RoundsInOrder(next.log, round + 1) by {
        forall k | 0 <= k < |st.log| ensures next.log[k] == st.log[k] {
          assert next.log[..|st.log|][k] == next.log[k];
        }
      }
      RoundsFromInOrder(roster, ask, maxRounds, round + 1, next);
    }
  }

  /**
   * The whole log: every entry belongs to one of the rounds 1 to `maxRounds`, and
   * the rounds follow one another.
   */
  lemma CollaborationRounds(roster: seq<Member>, ask: Oracle, maxRounds: int)
    ensures RoundsInOrder(Collaborate(roster, ask, maxRounds), maxRounds)
  {
    RoundsFromInOrder(roster, ask, maxRounds, 0, Initial(roster));
  }

  // ---------------------------------------------------------------------------
  // The loop of the source

  /** `recipient_id`: scans the roster for the first member whose name is the message's `to`. */
  method FindRecipient(roster: seq<Member>, to: ArgValue) returns (recipient: Option<string>)
    ensures recipient == Recipient(roster, to)
  {
    var k := 0;
    while k < |roster|
      invariant k <= |roster|
      invariant FirstNamed(roster, to, k) == FirstNamed(roster, to, 0)
    {
      if Named(roster[k], to) {
        return Some(roster[k].id);
      }
      k := k + 1;
    }
    return None;
  }

  /**
   * The tool calls of one response, in order, through the executor: the caller's
   * history, the shared queue and the turn's tool log end as `CallsFrom` says.
   */
  method RunToolCalls(executor: ToolExecutor, m: Member, resp: Response, history0: seq<Record>)
    returns (history: seq<Record>, toolLogs: seq<ToolLog>)
    modifies executor.queue
    ensures var cs := CallsFrom(m, resp, CallState(history0, old(executor.queue.items), []), 0);
            history == cs.history && executor.queue.items == cs.queue && toolLogs == cs.logs
  {
    ghost var before := CallState(history0, executor.queue.items, []);
    history := history0;
    toolLogs := [];
    for c := 0 to |resp.toolCalls|
      invariant CallsFrom(m, resp, CallState(history, executor.queue.items, toolLogs), c)
             == CallsFrom(m, resp, before, 0)
    {
      var call := resp.toolCalls[c];
      var args := DecodeArguments(call.arguments);
      var result := executor.Execute(m.name, call.name, args);
      toolLogs := toolLogs + [ToolLog(call.name, args, result)];
      history := history + [AssistantTurn(resp.content, resp.toolCalls), ToolOutput(call.id, result)];
    }
  }

  /** The members' turns of one round, in roster order; histories, queue and log end as `TurnsFrom` says. */
  method RunTurns(roster: seq<Member>, ask: Oracle, round: nat, executor: ToolExecutor,
                  histories0: map<string, seq<Record>>, log0: seq<LogEntry>)
    returns (histories: map<string, seq<Record>>, log: seq<LogEntry>)
    requires HasHistories(roster, histories0)
    modifies executor.queue
    ensures TurnsFrom(roster, ask, round, State(histories0, old(executor.queue.items), log0), 0)
         == State(histories, executor.queue.items, log)
  {
    histories, log := histories0, log0;
    ghost var start := State(histories0, executor.queue.items, log0);
    for j := 0 to |roster|
      invariant HasHistories(roster, histories)
      invariant TurnsFrom(roster, ask, round, State(histories, executor.queue.items, log), j)
             == TurnsFrom(roster, ask, round, start, 0)
    {
      var m := roster[j];
      var answer := ask(round, m, histories[m.id]);
      if answer.Some? {
        var resp := answer.value;
        var history, toolLogs := RunToolCalls(executor, m, resp, histories[m.id]);
        histories := histories[m.id := history];
        log := log + [TurnEntry(round + 1, m.id, m.name, resp.content, toolLogs)];
      }
    }
  }

  /** `while message_queue`: pops every queued message and delivers it; histories and log end as `Drain` says. */
  method DeliverQueued(roster: seq<Member>, round: nat, queue: MessageQueue,
                       histories0: map<string, seq<Record>>, log0: seq<LogEntry>)
    returns (histories: map<string, seq<Record>>, log: seq<LogEntry>)
    requires HasHistories(roster, histories0)
    modifies queue
    ensures queue.items == []
    ensures Drain(roster, round, State(histories0, old(queue.items), log0)) == State(histories, [], log)
  {
    histories, log := histories0, log0;
    ghost var start := State(histories0, queue.items, log0);
    while queue.items != []
      invariant HasHistories(roster, histories)
      invariant Drain(roster, round, State(histories, queue.items, log)) == Drain(roster, round, start)
      decreases |queue.items|
    {
      var msg := queue.PopFront();
      var recipient := FindRecipient(roster, msg.to);
      if recipient.Some? && recipient.value != [] {
        var id := recipient.value;
        histories := histories[id := histories[id] + [Delivered(msg.from, msg.message)]];
        log := log + [DeliveryEntry(round + 1, msg.from, msg.to, msg.message)];
      }
    }
  }

  /**
   * `stage2_collaboration`: `maxRounds` rounds over the whole roster with a queue
   * shared with the tool executor; the log it returns is `Collaborate`'s.
   */
  method Stage2Collaboration(roster: seq<Member>, ask: Oracle, maxRounds: int) returns (log: seq<LogEntry>)
    ensures log == Collaborate(roster, ask, maxRounds)
  {
    var queue := new MessageQueue();
    var executor := new ToolExecutor(queue);
    var histories := Initial(roster).histories;
    log := [];
    var round: nat := 0;
    while round < maxRounds
      invariant HasHistories(roster, histories) && queue.items == [] && executor.queue == queue
      invariant RoundsFrom(roster, ask, maxRounds, round, State(histories, [], log)).log
             == Collaborate(roster, ask, maxRounds)
      decreases maxRounds - round
    {
      histories, log := RunTurns(roster, ask, round, executor, histories, log);
      histories, log := DeliverQueued(roster, round, queue, histories, log);
      round := round + 1;
    }
  }
}
