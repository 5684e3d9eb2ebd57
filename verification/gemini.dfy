/**
 * Prompt construction and token estimate of `generateResponse` (src/lib/server/gemini.js).
 * The model call itself is foreign: its reply text is an input.
 */
module Gemini {
  import opened Wrappers

  /** One entry of the conversation history sent by the client. */
  datatype Turn = Turn(role: string, content: string)

  /** How many of the most recent turns are kept as context. */
  const ContextWindow: nat := 10

  /** `history.slice(-10)`: the last ten turns, or all of them when there are fewer. */
  function LastTurns(history: seq<Turn>): (r: seq<Turn>)
    ensures |r| == if |history| < ContextWindow then |history| else ContextWindow
    ensures r == history[|history| - |r|..]
  {
    if |history| <= ContextWindow then history else history[|history| - ContextWindow..]
  }

  /** One turn rendered as `role: content`. */
  function Render(t: Turn): string {
    t.role + ": " + t.content
  }

  function RenderAll(turns: seq<Turn>): seq<string> {
    seq(|turns|, i requires 0 <= i < |turns| => Render(turns[i]))
  }

  /** `Array.prototype.join(sep)`. */
  function Join(parts: seq<string>, sep: string): string {
    if |parts| == 0 then ""
    else if |parts| == 1 then parts[0]
    else parts[0] + sep + Join(parts[1..], sep)
  }

  /** Reference reading of the context: every line followed by a newline. */
  function Lines(lines: seq<string>): string {
    if lines == [] then "" else lines[0] + "\n" + Lines(lines[1..])
  }

  /** The conversation context that precedes the new prompt. */
  function BuildContext(history: seq<Turn>): (r: string)
    ensures history == [] <==> r == ""
    ensures r != "" ==> r[|r| - 1] == '\n'
  {
    if |history| > 0 then Join(RenderAll(LastTurns(history)), "\n") + "\n" else ""
  }

  /** The text sent to the model: the context, then `User: ` and the new prompt. */
  function FullPrompt(prompt: string, history: seq<Turn>): (r: string)
    ensures |r| >= |prompt| + 6
    ensures r[..|r| - |prompt| - 6] == BuildContext(history)
    ensures r[|r| - |prompt| - 6..] == "User: " + prompt
  {
    var context, turn := BuildContext(history), "User: " + prompt;
    assert (context + turn)[..|context|] == context;
    assert (context + turn)[|context|..] == turn;
    context + turn
  }

  /** `Math.ceil((fullPrompt.length + text.length) / 4)`. */
  function EstimateTokens(fullPrompt: string, text: string): (r: nat)
    ensures 4 * r >= |fullPrompt| + |text|
    ensures 4 * r < |fullPrompt| + |text| + 4
  {
    (|fullPrompt| + |text| + 3) / 4
  }

  /** What `generateResponse` returns to the chat route. */
  datatype Generation = Generation(response: string, tokensUsed: nat)

  /**
   * `generateResponse(prompt, history)` given the model's reply; `None` stands for a failed model call,
   * which the function turns into a thrown error.
   */
  function Generate(prompt: string, history: seq<Turn>, modelReply: Option<string>): (r: Option<Generation>)
    ensures r.Some? <==> modelReply.Some?
    ensures r.Some? ==> r.value.response == modelReply.value && r.value.tokensUsed >= 2
    ensures r.Some? ==> 4 * r.value.tokensUsed >= |FullPrompt(prompt, history)| + |modelReply.value|
    ensures r.Some? ==> r.value.tokensUsed == EstimateTokens(FullPrompt(prompt, history), modelReply.value)
  {
    match modelReply
    case None => None
    case Some(text) =>
      EstimateAtLeastTwo(prompt, history, text);
      Some(Generation(text, EstimateTokens(FullPrompt(prompt, history), text)))
  }

  // ---------------------------------------------------------------------------
  // Properties of the context and the estimate
  // ---------------------------------------------------------------------------

  /** Joining with newlines and then appending one more newline terminates every line. */
  lemma {:induction false} JoinThenNewline(lines: seq<string>)
    requires |lines| > 0
    ensures Join(lines, "\n") + "\n" == Lines(lines)
  {
    if |lines| > 1 {
      JoinThenNewline(lines[1..]);
      calc {
        Join(lines, "\n") + "\n";
        lines[0] + "\n" + (Join(lines[1..], "\n") + "\n");
        lines[0] + "\n" + Lines(lines[1..]);
      }
    }
  }

  /** A non-empty run of terminated lines ends with a newline. */
  lemma {:induction false} LinesEndWithNewline(lines: seq<string>)
    requires |lines| > 0
    ensures |Lines(lines)| > 0 && Lines(lines)[|Lines(lines)| - 1] == '\n'
  {
    if |lines| > 1 {
      LinesEndWithNewline(lines[1..]);
    }
  }

  /** The context is the last (at most ten) turns, each as `role: content` followed by a newline. */
  lemma ContextIsRenderedLines(history: seq<Turn>)
    ensures BuildContext(history) == Lines(RenderAll(LastTurns(history)))
    ensures |history| > 0 ==>
              |BuildContext(history)| > 0 && BuildContext(history)[|BuildContext(history)| - 1] == '\n'
  {
    if |history| > 0 {
      JoinThenNewline(RenderAll(LastTurns(history)));
      LinesEndWithNewline(RenderAll(LastTurns(history)));
    }
  }

  /** Turns older than the last ten never reach the model. */
  lemma ContextIgnoresOlderTurns(older: seq<Turn>, recent: seq<Turn>, prompt: string)
    requires |recent| >= ContextWindow
    ensures BuildContext(older + recent) == BuildContext(recent)
    ensures FullPrompt(prompt, older + recent) == FullPrompt(prompt, recent)
  {
    var all := older + recent;
    assert all[|all| - ContextWindow..] == recent[|recent| - ContextWindow..];
    assert LastTurns(all) == LastTurns(recent);
  }

  /** With no history the model sees exactly `User: ` and the prompt. */
  lemma EmptyHistoryPrompt(prompt: string)
    ensures FullPrompt(prompt, []) == "User: " + prompt
  {
  }

  /** The estimate is never below two: the prompt always carries the six characters `User: `. */
  lemma EstimateAtLeastTwo(prompt: string, history: seq<Turn>, text: string)
    ensures EstimateTokens(FullPrompt(prompt, history), text) >= 2
  {
  }
}
