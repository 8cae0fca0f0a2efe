/**
 * Stage 4 (`stage4_synthesize_final`): the chairman is shown a prompt built from
 * the three stages and answers with the final synthesis. Of the prompt, only the
 * stage-2 part has structure worth stating: one line per delivered message and
 * one per turn that said something, in log order, under a header, and nothing at
 * all when there is no such line. The rest of the prompt is fixed prose around
 * the answers and is not modelled.
 */
module Synthesis {
  import opened Wrappers
  import opened Tools
  import opened Roster
  import opened Collaboration

  /** The arrow of a delivery line: the UTF-8 bytes of U+2192 read as Windows-1252 ("â†’"). */
  const Arrow: string := "\U{E2}\U{2020}\U{2019}"

  const Stage2Header: string := "\n\nSTAGE 2 - Collaboration:\n"

  /** How an f-string renders an argument value: the string itself, or `str()` of another JSON value. */
  function Render(v: ArgValue): string {
    match v
    case Str(s) => s
    case NonString(_, text) => text
  }

  /** Whether a log entry gives a line: every delivery does, a turn only when its content is truthy. */
  predicate Narrated(e: LogEntry) {
    e.DeliveryEntry? || (e.content.Some? && e.content.value != [])
  }

  /** The line of a narrated entry: "from → to: message", or "name: content". */
  function LineOf(e: LogEntry): string
    requires Narrated(e)
  {
    match e
    case DeliveryEntry(_, from, to, message) => from + " " + Arrow + " " + Render(to) + ": " + Render(message)
    case TurnEntry(_, _, name, content, _) => name + ": " + content.value
  }

  /** The lines of the entries `log[..n]`, in log order. */
  function NarrativeLines(log: seq<LogEntry>, n: nat): (r: seq<string>)
    requires n <= |log|
    ensures |r| <= n
  {
    if n == 0 then []
    else NarrativeLines(log, n - 1) + (if Narrated(log[n - 1]) then [LineOf(log[n - 1])] else [])
  }

  /** `"\n".join(lines)`. */
  function JoinLines(lines: seq<string>): string {
    if lines == [] then ""
    else if |lines| == 1 then lines[0]
    else JoinLines(lines[..|lines| - 1]) + "\n" + lines[|lines| - 1]
  }

  /** The stage-2 part of the chairman's prompt. */
  function Stage2Text(log: seq<LogEntry>): string {
    var lines := NarrativeLines(log, |log|);
    if lines == [] then "" else Stage2Header + JoinLines(lines)
  }

  /** The stage-2 summary of `stage4_synthesize_final`, built line by line. */
  method Stage2Summary(log: seq<LogEntry>) returns (text: string)
    ensures text == Stage2Text(log)
  {
    text := "";
    if log != [] {
      var messages: seq<string> := [];
      for k := 0 to |log|
        invariant messages == NarrativeLines(log, k)
      {
        var entry := log[k];
        if entry.DeliveryEntry? {
          messages := messages + [entry.from + " " + Arrow + " " + Render(entry.to) + ": " + Render(entry.message)];
        } else if entry.content.Some? && entry.content.value != [] {
          messages := messages + [entry.memberName + ": " + entry.content.value];
        }
      }
      if messages != [] {
        text := Stage2Header + JoinLines(messages);
      }
    }
  }

  /** There is one line per narrated entry. */
  lemma {:induction false} NarrativeCount(log: seq<LogEntry>, n: nat)
    requires n <= |log|
    ensures |NarrativeLines(log, n)| == |set k | 0 <= k < n && Narrated(log[k])|
  {
    if n > 0 {
      NarrativeCount(log, n - 1);
      var before := set k | 0 <= k < n - 1 && Narrated(log[k]);
      var now := set k | 0 <= k < n && Narrated(log[k]);
      if Narrated(log[n - 1]) {
        assert now == before + {n - 1};
      } else {
        assert now == before;
      }
    }
  }

  /** A line is there exactly when some narrated entry renders to it. */
  lemma {:induction false} NarrativeMembers(log: seq<LogEntry>, n: nat, x: string)
    requires n <= |log|
    ensures x in NarrativeLines(log, n) <==> exists k :: 0 <= k < n && Narrated(log[k]) && x == LineOf(log[k])
  {
    if n > 0 {
      NarrativeMembers(log, n - 1, x);
      if Narrated(log[n - 1]) && x == LineOf(log[n - 1]) {
        assert x in NarrativeLines(log, n);
      }
    }
  }

  /** The lines keep the order of the log: the `a`-th narrated entry gives the `a`-th line. */
  lemma {:induction false} NarrativeOrder(log: seq<LogEntry>, n: nat, k: nat)
    requires k < n <= |log| && Narrated(log[k])
    ensures var lines := NarrativeLines(log, n);
            var a := |NarrativeLines(log, k)|;
            a < |lines| && lines[a] == LineOf(log[k])
  {
    if n - 1 == k {
    } else {
      NarrativeOrder(log, n - 1, k);
    }
  }

  /** The stage-2 text is empty exactly when no entry is narrated, for an empty log in particular. */
  lemma Stage2TextEmpty(log: seq<LogEntry>)
    ensures Stage2Text(log) == [] <==> forall k :: 0 <= k < |log| ==> !Narrated(log[k])
  {
    var n := |log|;
    NarrativeCount(log, n);
    var narrated := set k | 0 <= k < n && Narrated(log[k]);
    if exists k :: 0 <= k < n && Narrated(log[k]) {
      var k :| 0 <= k < n && Narrated(log[k]);
      assert k in narrated;
    } else {
      assert narrated == {};
    }
  }

  /** What `stage4_synthesize_final` returns. `response` is the chairman's content, which may be JSON null. */
  datatype Synthesis = Synthesis(model: string, response: Option<string>)

  const SynthesisFallback: string := "Error: Unable to generate final synthesis."

  /** The chairman's result, given its answer: the fallback when the call failed. */
  function Stage4Result(answer: Option<Response>): (r: Synthesis)
    ensures r.model == ChairmanModel
    ensures answer.None? ==> r.response == Some(SynthesisFallback)
    ensures answer.Some? ==> r.response == answer.value.content
  {
    match answer
    case None => Synthesis(ChairmanModel, Some(SynthesisFallback))
    case Some(resp) => Synthesis(ChairmanModel, resp.content)
  }
}
