# LLM council orchestrator: a verified model of its deterministic core

The LLM council answers a question in four stages:

1. Every council member answers the question.
2. The members collaborate. They take turns in rounds, and each turn may call the `send_message` tool. Messages are queued and delivered at the end of each round.
3. Every member ranks the anonymised stage-1 answers ("Response A", "Response B", ...) in free text. The rankings are parsed and aggregated into average positions.
4. A chairman model writes the final synthesis from a prompt built out of the three stages.

A separate call gives each conversation a short title.

This project models in Dafny everything in that pipeline that does not talk to a model. Each model call becomes an input: an optional response (`None` for a failed call) per member, per turn, or for the chairman or title call. Given those answers the orchestrator is deterministic and sequential.

The modules follow the program:

| Module | Models |
|---|---|
| `Text` | Python's `str.isspace` class (which `\s` matches), the Unicode decimal digits `\d` matches, substring search and `str.strip` |
| `RankingParser` | `parse_ranking_from_text`. The two fixed regular expressions and `re.findall` are written out as scanners. |
| `Tools` | `ToolExecutor` (backend/tools.py) as a class sharing a `MessageQueue` object with the collaboration loop |
| `Roster` | The members and what a model call returns |
| `Stage1` | Stage-1 collection |
| `Collaboration` | `stage2_collaboration`. It is specified by functions (turn, delivery, drain, round) and implemented by methods over the shared queue, proved equal to the functions. |
| `Rankings` | The label map and stage-3 collection |
| `Aggregation` | `calculate_aggregate_rankings`. The method's loops fill a position map; the result is specified by a function; sortedness, stability, bounds and counts are proved about that function. |
| `Synthesis` | The stage-2 narrative of the chairman's prompt, and the chairman fallback |
| `Council` | `run_full_council` and the title cleanup of `generate_conversation_title` |

## Model

| member | source | states |
|---|---|---|
| Text.IndexOf | backend/council.py:385-387 | The first occurrence of the marker at or after `from`: an occurrence, with none before it; `None` only when there is none at all |
| Text.IndexOfFindsContained | backend/council.py:385 | A search from the start finds something exactly when the text contains the pattern (`"FINAL RANKING:" in text`) |
| Text.StripSpec | backend/council.py:479-482 | `strip` removes the leading run, then the trailing run, of stripped characters. The result is the piece of the text right after the leading run, neither its first nor its last character is strippable, and everything removed after it is strippable. |
| Text.UnicodeDigits | backend/council.py:392 | `\d` on a `str` matches any Unicode decimal digit, such as Arabic-Indic ٢ or fullwidth ２. Among ASCII characters it matches exactly `0`-`9`. |
| RankingParser.DigitsEnd | backend/council.py:392 | The greedy `\d+` run over Unicode decimal digits: every character before the end is a digit and the character at the end is not |
| RankingParser.SpacesEnd | backend/council.py:392 | The greedy `\s*` run: every character before the end is whitespace and the character at the end is not |
| RankingParser.MatchEnd | backend/council.py:392-398 | A match of either pattern ends with a label, and no label starts earlier inside it. `Response [A-Z]` matches at `i` exactly when a label starts there, and then ends 10 characters later. |
| RankingParser.NumberedEnd | backend/council.py:392-395 | A match of `\d+\.\s*Response [A-Z]` is digits, a period, whitespace and one label. The label is the only one inside the match, so `re.search` on the match returns its last ten characters. |
| RankingParser.UnicodeNumberedEntry | backend/council.py:392 | "٢. Response B", numbered with an Arabic-Indic digit, is a numbered match, as in Python |
| RankingParser.FindAll | backend/council.py:392-402 | `re.findall`: every span found is a match of the pattern, starting at or after the scan's start |
| RankingParser.FindAllOrdered | backend/council.py:392-402 | The matches found are in text order and do not overlap |
| RankingParser.FindAllComplete | backend/council.py:392-402 | No match is missed: every index where a match starts lies inside a found span |
| RankingParser.FindLabelsSearch | backend/council.py:392-395 | `re.search(r'Response [A-Z]', m)` over the matches: exactly one label per match, in match order. Each is the label at the first index inside its match where a label lies. |
| RankingParser.FindLabels | backend/council.py:395-402 | Every element returned is "Response " followed by one capital letter |
| RankingParser.SectionAfter | backend/council.py:387-389 | `split(marker)[1]`: the text after the first marker, up to the next marker. It never contains the marker. |
| RankingParser.ParseSection | backend/council.py:392-399 | Inside the section, the numbered matches' labels if there are any, otherwise every label; all elements are labels |
| RankingParser.ParseRanking | backend/council.py:372-403 | `parse_ranking_from_text`: only labels are returned, in either branch |
| RankingParser.ParseBetween | backend/council.py:385-389 | With the marker first at `p` and next at `q`, exactly the text between them is parsed |
| RankingParser.ParseAfter | backend/council.py:385-389 | With the marker only once, at `p`, exactly the text after it is parsed |
| RankingParser.OneMarker | backend/council.py:385-399 | For any `pre + marker + post` whose parts are free of the marker, the result is the section parse of `post` |
| RankingParser.SecondMarkerEndsSection | backend/council.py:387-389 | With a second marker, whatever follows it is ignored: the result is the section parse of the text between the first two markers |
| RankingParser.Decimal | backend/council.py:252 | The list number `str(n)` is a non-empty string of digits |
| RankingParser.FormattedRankingRoundTrip | backend/council.py:244-262 | Round trip. An answer in the format the ranking prompt demands parses back to exactly the listed labels, in order, duplicates included. The format is an evaluation free of the marker, then "FINAL RANKING:" and lines "k. Response X". This holds whatever the evaluation says about the responses. |
| Rankings.LabelsDistinct | backend/council.py:221-227 | Different stage-1 indices get different labels `"Response " + chr(65 + i)` |
| Rankings.LabelParsable | backend/council.py:221 | A label can be produced by the parser exactly when `i < 26`; from the 27th answer on, `chr(65 + i)` is past `Z` and that answer is never ranked |
| Rankings.LabelMapOf | backend/council.py:221-227 | `label_to_member`: one key per stage-1 result; the `i`-th key is `LabelFor(i)` and maps to that result's member name; no key occurs twice |
| Rankings.Lookup | backend/council.py:432-433 | A key is found exactly when the map has it, and the name found is the one stored with it |
| Rankings.LookupLabel | backend/council.py:224-227 | Looking up the `i`-th label gives the `i`-th result's member name, and looking up a label past the results gives nothing |
| Rankings.RankingsFrom | backend/council.py:274-286 | At most one ranking per member of `roster[..n]` |
| Rankings.Answered | backend/council.py:275-276 | The indices of the members whose call succeeded, each once, in increasing order |
| Rankings.RankingsExactly | backend/council.py:274-286 | Stage 3 holds exactly one result per member whose call succeeded, in roster order: the `t`-th result is that member's parsed ranking. Failed calls leave nothing. |
| Rankings.Stage3Collect | backend/council.py:274-288 | The collection loop yields `RankingsFrom`: each successful answer with its parsed ranking, in roster order |
| Rankings.RankingsAsWrittenFails | backend/council.py:276-279 | As written, the whole stage fails exactly when some member's call succeeded with a null content |
| Rankings.RankingsAsWrittenAgrees | backend/council.py:274-286 | When the as-written stage does not fail, its result is the corrected `RankingsFrom`'s |
| Rankings.EmptyTextHasNoRanking | backend/council.py:401-403 | An empty text parses to no labels |
| Rankings.NullRankingContent | backend/council.py:278-279 | A null-content ranking answer: the stage fails as written, and the corrected stage records the member with an empty text and no labels |
| Stage1.Successes | backend/council.py:28-39 | At most one result per member of `roster[..n]`, the failed calls being left out |
| Stage1.Stage1Collect | backend/council.py:28-41 | The collection loop yields `Successes` |
| Stage1.SuccessesExactly | backend/council.py:29-39 | There is one result per member whose call succeeded, and a result is kept exactly when it is such a member's answer |
| Stage1.AllFailed | backend/council.py:29-30 | Nothing is kept exactly when every call failed |
| Aggregation.Resolved | backend/council.py:431-434 | At most one observation per parsed label, each at a 1-based position within the ranking |
| Aggregation.ResolvedExactly | backend/council.py:431-434 | An observation `(m, p)` is recorded exactly when the `p`-th parsed label is in the label map and maps to `m`. Unknown labels are skipped and duplicates are kept. |
| Aggregation.PositionsOf | backend/council.py:434 | A member has no more positions than there are observations |
| Aggregation.FirstSeenSpec | backend/council.py:423-438 | The dict's key order: it lists every observed member, and only those, each once |
| Aggregation.PositionsObserved | backend/council.py:438-439 | A member has positions exactly when some resolvable label names it |
| Aggregation.AverageRank | backend/council.py:440-443 | `round(sum / count, 2)` in hundredths: within half a hundredth of the exact average |
| Aggregation.Entries | backend/council.py:437-445 | At most one entry per name |
| Aggregation.InsertPerm | backend/council.py:448 | Inserting adds exactly `x` to the entries (as a multiset) |
| Aggregation.InsertSorted | backend/council.py:448 | Inserting into a sorted list keeps it sorted by average |
| Aggregation.InsertStable | backend/council.py:448 | Inserting puts `x` first among the entries of its average and does not reorder any entries of equal average |
| Aggregation.SortPerm | backend/council.py:448 | The sort is a permutation of its input |
| Aggregation.SortSorted | backend/council.py:448 | The sorted list is in non-decreasing order of average |
| Aggregation.SortStable | backend/council.py:448 | Stability: for every average, the entries with that average keep their input order |
| Aggregation.RecordRanking | backend/council.py:431-434 | The inner loop over one parsed ranking extends the first-seen order and the position map exactly as the ranking's observations do |
| Aggregation.RecordRankings | backend/council.py:425-434 | After the outer loop, the key order is the first-seen order of all observations, and each member's list holds exactly its positions |
| Aggregation.BuildEntries | backend/council.py:437-445 | The second loop builds one entry per tracked member with positions, in key order |
| Aggregation.CalculateAggregateRankings | backend/council.py:406-450 | The method returns `AggregateRankings` |
| Aggregation.AggregateSorted | backend/council.py:447-448 | The aggregate is sorted by average position, best first |
| Aggregation.AggregateTies | backend/council.py:448 | Members with equal averages appear in the order in which they were first ranked |
| Aggregation.EntriesMembers | backend/council.py:438-445 | Each entry is its member's count and average, for a listed name with positions; every such name has an entry |
| Aggregation.EntriesDistinct | backend/council.py:438 | Distinct names give entries for distinct members |
| Aggregation.InsertDistinct | backend/council.py:448 | Inserting a new member keeps the members distinct |
| Aggregation.SortDistinct | backend/council.py:448 | Sorting keeps the members distinct |
| Aggregation.SortSameEntries | backend/council.py:448 | Sorting neither adds nor drops an entry |
| Aggregation.AggregateEntries | backend/council.py:437-445 | Each entry of the aggregate is its member's number of positions and their rounded average |
| Aggregation.AggregateHas | backend/council.py:431-445 | A member is in the aggregate exactly when some ranking names it through a known label, so members with no position are dropped |
| Aggregation.AggregateDistinct | backend/council.py:438-445 | No member has two entries |
| Aggregation.SumBounds | backend/council.py:440 | A sum of positions between 1 and `hi` lies between the count and `count * hi` |
| Aggregation.AverageBounds | backend/council.py:440-443 | An average of positions between 1 and `hi` rounds to between 1.00 and `hi`.00 |
| Aggregation.EntryBounds | backend/council.py:440-444 | An entry is counted at least once and its average lies between 1.00 and `hi`.00 |
| Aggregation.ObservationsBounded | backend/council.py:425-434 | Every recorded position lies between 1 and the length of the longest parsed ranking |
| Aggregation.AggregateBounds | backend/council.py:437-445 | Every member in the aggregate was counted at least once, and its average lies between 1 and the length of the longest parsed ranking |
| Aggregation.TotalCountAppend | backend/council.py:444 | The counts of two lists add up |
| Aggregation.SortTotal | backend/council.py:448 | Sorting keeps the total count |
| Aggregation.InsertTotal | backend/council.py:448 | Inserting adds the inserted entry's count to the total |
| Aggregation.EntriesTotal | backend/council.py:437-445 | Over the first-seen members, the counts add up to the number of observations |
| Aggregation.AggregateTotal | backend/council.py:425-444 | The `rankings_count` values add up to the number of resolvable labels across all rankings |
| Aggregation.ResolvedLabelled | backend/council.py:432-434 | Every member recorded from a ranking is a name the label map stores |
| Aggregation.ObservationsLabelled | backend/council.py:425-434 | Every member recorded from any ranking is a name the label map stores |
| Aggregation.AggregateLabelled | backend/council.py:432-445 | Only members some label stands for are ranked |
| Tools.SendOutcomeSpec | backend/tools.py:23-42 | `_send_message`. A message is queued exactly when both fields are present and truthy; it is from the caller, with the given `to` and message, and is acknowledged as sent with the same from/to. Otherwise the result is the "Missing required fields" error and nothing is queued. |
| Tools.DispatchSpec | backend/tools.py:13-21 | `execute`. An unknown tool gives "Unknown tool" and queues nothing. Non-object arguments give "Tool execution failed" with the `AttributeError` text. A message is queued exactly when `SendsMessage` holds, and the result is `Sent` exactly then. |
| Tools.MessageQueue.constructor | backend/council.py:64 | The queue starts empty |
| Tools.MessageQueue.Append | backend/tools.py:36 | `append`: the message goes at the end, and earlier entries are untouched |
| Tools.MessageQueue.PopFront | backend/council.py:178 | `pop(0)`: the first message is removed and returned, and the rest keep their order |
| Tools.ToolExecutor.constructor | backend/tools.py:10-11 | The executor holds the queue it was given, the same object |
| Tools.ToolExecutor.Execute | backend/tools.py:13-21 | The result is `Dispatch`'s, and the shared queue grows by exactly `Dispatch`'s messages, at its end |
| Tools.ToolExecutor.SendMessage | backend/tools.py:23-42 | The result is `SendOutcome`'s, and the shared queue grows by exactly its message, if any |
| Collaboration.SentBy | backend/council.py:145-153 | The calls queue at most one message each, all from the calling member |
| Collaboration.RecordsOf | backend/council.py:163-172 | Each call adds exactly two records, none of them a delivered message |
| Collaboration.LogsOf | backend/council.py:146-160 | Each call adds exactly one log entry |
| Collaboration.CallsFrom | backend/council.py:145-172 | Running the calls appends exactly their records to the caller's history, after what was there. It appends exactly their log entries to the turn's log, and exactly their messages to the queue, in call order. |
| Collaboration.CallRecords | backend/council.py:163-172 | Call `k` leaves, at positions `2k` and `2k+1` of the records added to the history, the assistant record with the response's content and all its tool calls, then that call's tool result |
| Collaboration.CallLogs | backend/council.py:146-160 | Call `k` is logged at position `k` with its name, its decoded arguments (`{}` when decoding failed) and its result |
| Collaboration.Turn | backend/council.py:130-174 | A failed call changes nothing. An answer adds exactly one turn entry (round + 1, the member, the content, one log per call) and two records per call to its own member's history only. It queues exactly its calls' messages. |
| Collaboration.TurnsFrom | backend/council.py:107-174 | The turns keep the set of members with histories |
| Collaboration.FirstNamed | backend/council.py:182-185 | The first member whose name equals the message's `to`, or none if no member has that name |
| Collaboration.Deliver | backend/council.py:187-201 | A deliverable message adds one "Message from" record to its recipient's history and one delivery entry tagged round + 1. Any other message changes nothing. |
| Collaboration.Drain | backend/council.py:177-201 | The drain empties the queue and keeps the set of histories |
| Collaboration.Round | backend/council.py:105-201 | A round ends with the queue empty |
| Collaboration.RoundsFrom | backend/council.py:105 | The rounds keep the set of histories |
| Collaboration.Initial | backend/council.py:89 | Every member starts with a history |
| Collaboration.TurnsLog | backend/council.py:130-174 | The turns only append turn entries, at most one per member, tagged with the round |
| Collaboration.TurnsQueue | backend/council.py:145-153 | The turns only append to the queue, and everything they queue comes from a member |
| Collaboration.TurnsDeliverNothing | backend/council.py:130-177 | During the turns no message reaches anyone. Each history only grows, and only by records of its own member's calls. |
| Collaboration.TurnGrowsWithoutDeliveries | backend/council.py:163-172 | One turn grows a history only by assistant and tool records |
| Collaboration.Deliveries | backend/council.py:195-201 | At most one delivery entry per message, each tagged round + 1 |
| Collaboration.DrainLog | backend/council.py:177-201 | Draining appends exactly one delivery entry per deliverable message, first in, first out. Undeliverable messages leave no trace. |
| Collaboration.Inbox | backend/council.py:189-192 | Only "Message from" records reach a member through delivery |
| Collaboration.DrainHistories | backend/council.py:177-192 | After the drain, each member's history is its old history followed by the messages addressed to it, in queue order |
| Collaboration.RoundLog | backend/council.py:105-201 | A round appends after the earlier entries, all tagged with the round, turn entries before deliveries. So a message sent in a round reaches its recipient only after every member's turn. |
| Collaboration.RoundsFromInOrder | backend/council.py:105-201 | The rounds keep the log tagged with rounds in non-decreasing order |
| Collaboration.CollaborationRounds | backend/council.py:105-203 | Every entry of the whole log belongs to one of the rounds 1 to `maxRounds`, in order of round |
| Collaboration.FindRecipient | backend/council.py:181-185 | The roster scan returns the id of the first member with that name, or nothing |
| Collaboration.RunToolCalls | backend/council.py:143-172 | The calls run through the executor leave history, shared queue and tool log as `CallsFrom` says |
| Collaboration.RunTurns | backend/council.py:107-174 | The turns of one round leave histories, shared queue and log as `TurnsFrom` says |
| Collaboration.DeliverQueued | backend/council.py:177-201 | `while message_queue` empties the queue and leaves histories and log as `Drain` says |
| Collaboration.Stage2Collaboration | backend/council.py:64-203 | The loop with the queue shared by the executor returns the log of `Collaborate` |
| Synthesis.NarrativeLines | backend/council.py:319-323 | At most one line per log entry |
| Synthesis.Stage2Summary | backend/council.py:316-326 | The summary loop yields `Stage2Text` |
| Synthesis.NarrativeCount | backend/council.py:319-323 | There is exactly one line per delivery entry and per turn with truthy content |
| Synthesis.NarrativeMembers | backend/council.py:319-323 | A line is present exactly when some such entry renders to it ("from → to: message" or "name: content") |
| Synthesis.NarrativeOrder | backend/council.py:319-323 | The lines keep the order of the log |
| Synthesis.Stage2TextEmpty | backend/council.py:316-326 | The stage-2 section is empty exactly when no entry gives a line, for example when the log is empty |
| Synthesis.Stage4Result | backend/council.py:359-369 | The chairman's model is always named. A failed call gives the fallback text; otherwise the answer's content is passed through. |
| Council.RunFullCouncil | backend/council.py:491-534 | The stages run in order and give `FullCouncil`. Its stage 3 is the corrected `RankingsFrom`, so a run that the source aborts with `TypeError` (a null-content ranking answer) returns a result here. |
| Council.ShortCircuit | backend/council.py:504-509 | The run stops after stage 1 exactly when every stage-1 call failed, and then returns the error result with empty stages and no metadata |
| Council.AggregateOfRun | backend/council.py:515-518 | The aggregate of a full run is sorted and ranks only members whose stage-1 call succeeded |
| Council.CleanTitle | backend/council.py:479-488 | A title is at most 50 characters |
| Council.TrimmedPiece | backend/council.py:479-482 | The trimmed title is a piece of the model's text that neither starts nor ends with a quote |
| Council.CleanTitleCut | backend/council.py:484-486 | A trimmed text of at most 50 characters is the title. A longer one keeps its first 47 characters followed by "...", 50 in all. |
| Council.TitleAsWritten | backend/council.py:479 | As written, a null content raises. When it does not raise, the title is the corrected `Title`. |
| Council.TitleBound | backend/council.py:473-488 | Every title is at most 50 characters, and a failed call gives "New Conversation" |
| Council.NullTitleContent | backend/council.py:479 | For a null-content answer, the code as written raises and the corrected title is "New Conversation" |

## Left out

- Model calls, HTTP, JSON decoding of responses, `asyncio.gather` fan-out and concurrency (backend/openrouter.py) are not modelled. Every call is an input: the answers of stages 1 and 3 as one optional response per member in roster order, each collaboration turn as an oracle of the round, the member and its history, and one answer each for the chairman and the title.
- Prompt prose: the f-string templates of every prompt are not modelled. Only the structure of the stage-2 narrative is stated, with the arrow kept as the characters the source contains.
- JSON text: tool arguments are taken as already decoded (`{}` when decoding fails), and tool results are tagged values, not their JSON serialisation. A non-string JSON value is abstracted to its truthiness and its `str()` text.
- Aggregation.AverageRank: the average is the exact quotient rounded half to even to hundredths. Python divides and rounds in binary floating point, so an average whose decimal tie is not exactly representable (e.g. 2.675) may round the other way in the source. The sort key is the rounded average, as in the source.
- Rankings.LabelMapOf: requires at most 55231 stage-1 results (`MaxResponses`), so that every `chr(65 + i)` is a Dafny `char` below the surrogate range. Python has no such limit, but the configured roster has three members. `Council.RunFullCouncil` carries the same bound on the roster.
- A delivered message's history record keeps the sender and the message value instead of the rendered "Message from X: ..." text.
- backend/config.py is used only as the constant roster table `Roster.Council`, which is not used in any proof; the model is proved for every roster.
- Exceptions in the stage-2 tool-call loop are not modelled. A tool call without `function`, `name` or `id` raises `KeyError` (backend/council.py:146, 170). A non-string `arguments` value raises `TypeError`, which `except json.JSONDecodeError` does not catch (backend/council.py:148-150). Either would abort stage 2 and the run. In the model a tool call always has a name, an id and arguments that are already decoded, so these raises cannot happen.
- Text.IsDigit: the decimal digits are those of Unicode 15.0. A Python built on another Unicode version matches the digits of its own version under `\d`.
- The empty metadata dict of a run that stops after stage 1 is `None` in the model.
- The stage-1 and stage-3 texts of the chairman's prompt, and `str(response)` for a non-dict response, are not modelled (the response is always a dict in this program).

## Findings

| source | as written | input that shows it | evidently intended | confidence | as-written member | corrected member |
|---|---|---|---|---|---|---|
| backend/council.py:278-279 | `response.get('content', '')` returns `None` when the model's message has `"content": null`, and `"FINAL RANKING:" in None` raises `TypeError`, so all of stage 3 fails | a member whose ranking call succeeds with null content (e.g. a response that only has tool calls) | the missing ranking text reads as the empty text, and the member's ranking is recorded with no labels | not executed | Rankings.NullRankingContent | Rankings.RankingsFrom |
| backend/council.py:479 | `response.get('content', 'New Conversation')` returns `None` for a null content, and `.strip()` raises `AttributeError` | a title answer with `"content": null` | a null content falls back to "New Conversation", as a failed call does | not executed | Council.NullTitleContent | Council.Title |
