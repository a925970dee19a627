/** The neutral conversation between the loop and a model provider. */
module History {
  import opened Basics
  import opened AgentTools

  datatype Block =
    | Text(text: string)
    | ToolUse(call: ToolCall)
    | ToolResult(id: string, reply: Reply)

  datatype Message = User(content: seq<Block>) | Assistant(content: seq<Block>)

  /** One model turn: text, empty when there is none, and the tools it wants run. */
  datatype Turn = Turn(text: string, calls: seq<ToolCall>)

  /** The n-th completion, given the history so far; none when the provider raises. */
  type Provider = (nat, seq<Message>) -> Option<Turn>

  function Uses(calls: seq<ToolCall>): (blocks: seq<Block>)
    ensures |blocks| == |calls| && forall k | 0 <= k < |calls| :: blocks[k] == ToolUse(calls[k])
  {
    seq(|calls|, k requires 0 <= k < |calls| => ToolUse(calls[k]))
  }

  function TurnMessage(turn: Turn): Message {
    Assistant((if turn.text != "" then [Text(turn.text)] else []) + Uses(turn.calls))
  }

  /** The calls an assistant message makes. */
  function CallsOf(content: seq<Block>): seq<ToolCall> {
    if content == [] then []
    else (if content[0].ToolUse? then [content[0].call] else []) + CallsOf(content[1..])
  }

  /** `results` answers `calls` one by one: same ids, same order, nothing else. */
  predicate Answers(results: seq<Block>, calls: seq<ToolCall>) {
    && |results| == |calls|
    && forall k | 0 <= k < |calls| :: results[k].ToolResult? && results[k].id == calls[k].id
  }

  predicate NoResults(content: seq<Block>) {
    forall k | 0 <= k < |content| :: !content[k].ToolResult?
  }

  /**
   The user's prompt, then assistant and user in turn; every later user message answers all the
   calls of the assistant message before it.
   */
  predicate WellFormed(prompt: string, h: seq<Message>) {
    && h != [] && h[0] == User([Text(prompt)])
    && (forall i | 0 <= i < |h| :: if i % 2 == 0 then h[i].User? else h[i].Assistant? && NoResults(h[i].content))
    && forall i | 1 < i < |h| && i % 2 == 0 ::
         CallsOf(h[i - 1].content) != [] && Answers(h[i].content, CallsOf(h[i - 1].content))
  }

  lemma {:induction false} CallsOfUses(calls: seq<ToolCall>)
    ensures CallsOf(Uses(calls)) == calls
    decreases |calls|
  {
    if calls != [] {
      assert Uses(calls)[1..] == Uses(calls[1..]);
      CallsOfUses(calls[1..]);
    }
  }

  lemma CallsOfTurn(turn: Turn)
    ensures CallsOf(TurnMessage(turn).content) == turn.calls
  {
    CallsOfUses(turn.calls);
    if turn.text != "" {
      assert TurnMessage(turn).content[1..] == Uses(turn.calls);
    } else {
      assert TurnMessage(turn).content == Uses(turn.calls);
    }
  }
}
