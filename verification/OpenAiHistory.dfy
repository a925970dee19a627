/** Translating the neutral history for an OpenAI-compatible chat API. */
module OpenAiHistory {
  import opened Basics
  import T = Text
  import opened AgentTools
  import opened History
  import opened CompileGate
  import opened RepairLoop
  import RepairSafety

  datatype Chat =
    | UserChat(said: string)
    | AssistantChat(text: Option<string>, calls: seq<ToolCall>)
    | ToolChat(id: string, content: Note)

  function TextsOf(content: seq<Block>): seq<string> {
    if content == [] then []
    else (if content[0].Text? then [content[0].text] else []) + TextsOf(content[1..])
  }

  function ResultsOf(content: seq<Block>): seq<Chat> {
    if content == [] then []
    else
      (if content[0].ToolResult? then [ToolChat(content[0].id, content[0].reply.note)] else []) + ResultsOf(content[1..])
  }

  /** `"\n".join(text_parts) or None` */
  function AssistantText(content: seq<Block>): Option<string> {
    if T.JoinLines(TextsOf(content)) == "" then None else Some(T.JoinLines(TextsOf(content)))
  }

  /** `_to_openai` */
  function Translate(m: Message): seq<Chat> {
    var texts := TextsOf(m.content);
    match m
    case Assistant(content) => [AssistantChat(AssistantText(content), CallsOf(content))]
    case User(content) =>
      (if texts != [] then [UserChat(T.JoinLines(texts))] else []) + ResultsOf(content)
  }

  function TranslateAll(h: seq<Message>): seq<Chat> {
    if h == [] then [] else Translate(h[0]) + TranslateAll(h[1..])
  }

  lemma {:induction false} SnocTexts(content: seq<Block>, b: Block)
    ensures TextsOf(content + [b]) == TextsOf(content) + if b.Text? then [b.text] else []
  {
    if content == [] {
      assert [] + [b] == [b];
    } else {
      SnocTexts(content[1..], b);
      assert (content + [b])[1..] == content[1..] + [b];
    }
  }

  lemma {:induction false} SnocCalls(content: seq<Block>, b: Block)
    ensures CallsOf(content + [b]) == CallsOf(content) + if b.ToolUse? then [b.call] else []
  {
    if content == [] {
      assert [] + [b] == [b];
    } else {
      SnocCalls(content[1..], b);
      assert (content + [b])[1..] == content[1..] + [b];
    }
  }

  lemma {:induction false} SnocResults(content: seq<Block>, b: Block)
    ensures ResultsOf(content + [b]) == ResultsOf(content) + if b.ToolResult? then [ToolChat(b.id, b.reply.note)] else []
  {
    if content == [] {
      assert [] + [b] == [b];
    } else {
      SnocResults(content[1..], b);
      assert (content + [b])[1..] == content[1..] + [b];
    }
  }

  /** The translation as it runs: one pass sorts the blocks into texts, calls and results. */
  method ToOpenAi(m: Message) returns (out: seq<Chat>)
    ensures out == Translate(m)
  {
    var textParts: seq<string> := [];
    var toolCalls: seq<ToolCall> := [];
    var toolResults: seq<Chat> := [];
    for i := 0 to |m.content|
      invariant textParts == TextsOf(m.content[..i])
      invariant toolCalls == CallsOf(m.content[..i])
      invariant toolResults == ResultsOf(m.content[..i])
    {
      var block := m.content[i];
      assert m.content[..i + 1] == m.content[..i] + [block];
      SnocTexts(m.content[..i], block);
      SnocCalls(m.content[..i], block);
      SnocResults(m.content[..i], block);
      match block {
        case Text(text) => textParts := textParts + [text];
        case ToolUse(call) => toolCalls := toolCalls + [call];
        case ToolResult(id, reply) => toolResults := toolResults + [ToolChat(id, reply.note)];
      }
    }
    assert m.content[..|m.content|] == m.content;
    out := [];
    if m.Assistant? {
      var text := T.JoinLines(textParts);
      out := out + [AssistantChat(if text == "" then None else Some(text), toolCalls)];
    } else {
      if textParts != [] { out := out + [UserChat(T.JoinLines(textParts))]; }
      out := out + toolResults;
    }
  }

  // --- the API's rule ---

  /** `answers` starts with one tool message per call, ids in order. */
  predicate StartsWithAnswers(chat: seq<Chat>, calls: seq<ToolCall>) {
    && |calls| <= |chat|
    && forall k | 0 <= k < |calls| :: chat[k].ToolChat? && chat[k].id == calls[k].id
  }

  /**
   An assistant message that makes calls is followed at once by their answers, unless it comes
   last; a tool message stands nowhere else.
   */
  predicate ChatOk(chat: seq<Chat>) {
    if chat == [] then true
    else
      match chat[0]
      case UserChat(_) => ChatOk(chat[1..])
      case ToolChat(_, _) => false
      case AssistantChat(_, calls) =>
        |chat| == 1 || (StartsWithAnswers(chat[1..], calls) && ChatOk(chat[1 + |calls|..]))
  }

  function ChatCalls(chat: seq<Chat>): seq<ToolCall> {
    if chat == [] then []
    else (if chat[0].AssistantChat? then chat[0].calls else []) + ChatCalls(chat[1..])
  }

  function ChatAnswers(chat: seq<Chat>): seq<Chat> {
    if chat == [] then []
    else (if chat[0].ToolChat? then [chat[0]] else []) + ChatAnswers(chat[1..])
  }

  function AllCalls(h: seq<Message>): seq<ToolCall> {
    if h == [] then [] else CallsOf(h[0].content) + AllCalls(h[1..])
  }

  function AllAnswers(h: seq<Message>): seq<Chat> {
    if h == [] then [] else ResultsOf(h[0].content) + AllAnswers(h[1..])
  }

  lemma {:induction false} OnlyResults(content: seq<Block>)
    requires forall k | 0 <= k < |content| :: content[k].ToolResult?
    ensures TextsOf(content) == [] && CallsOf(content) == []
    ensures |ResultsOf(content)| == |content|
    ensures forall k | 0 <= k < |content| :: ResultsOf(content)[k] == ToolChat(content[k].id, content[k].reply.note)
  {
    if content != [] { OnlyResults(content[1..]); }
  }

  lemma {:induction false} AnswersSkipped(answers: seq<Chat>, rest: seq<Chat>)
    requires forall k | 0 <= k < |answers| :: answers[k].ToolChat?
    ensures ChatCalls(answers + rest) == ChatCalls(rest)
    ensures ChatAnswers(answers + rest) == answers + ChatAnswers(rest)
  {
    if answers == [] {
      assert answers + rest == rest;
    } else {
      assert (answers + rest)[1..] == answers[1..] + rest;
      AnswersSkipped(answers[1..], rest);
    }
  }

  lemma {:induction false} AnswersFollow(results: seq<Chat>, rest: seq<Chat>, calls: seq<ToolCall>, text: Option<string>)
    requires StartsWithAnswers(results, calls) && |results| == |calls| && ChatOk(rest)
    ensures ChatOk([AssistantChat(text, calls)] + (results + rest))
  {
    var chat := [AssistantChat(text, calls)] + (results + rest);
    assert chat[1..] == results + rest;
    assert chat[1 + |calls|..] == rest;
  }

  lemma {:induction false} TakesOff(text: Option<string>, calls: seq<ToolCall>, rest: seq<Chat>)
    ensures ChatCalls([AssistantChat(text, calls)] + rest) == calls + ChatCalls(rest)
    ensures ChatAnswers([AssistantChat(text, calls)] + rest) == ChatAnswers(rest)
  {
    assert ([AssistantChat(text, calls)] + rest)[1..] == rest;
  }

  lemma {:induction false} NothingAnswered(content: seq<Block>)
    requires NoResults(content)
    ensures ResultsOf(content) == []
  {
    if content != [] { NothingAnswered(content[1..]); }
  }

  /** One assistant message and its answers, in front of an accepted chat. */
  lemma {:induction false} Exchange(text: Option<string>, calls: seq<ToolCall>, results: seq<Chat>, rest: seq<Chat>)
    requires StartsWithAnswers(results, calls) && |results| == |calls| && ChatOk(rest)
    ensures var chat := [AssistantChat(text, calls)] + (results + rest);
            && ChatOk(chat)
            && ChatCalls(chat) == calls + ChatCalls(rest)
            && ChatAnswers(chat) == results + ChatAnswers(rest)
  {
    AnswersFollow(results, rest, calls, text);
    TakesOff(text, calls, results + rest);
    hide ChatOk, ChatCalls, ChatAnswers;
    AnswersSkipped(results, rest);
  }

  lemma {:induction false} ExchangeMessages(h: seq<Message>)
    requires |h| >= 2 && h[0].Assistant? && h[1].User?
    requires NoResults(h[0].content) && Answers(h[1].content, CallsOf(h[0].content))
    ensures var (text, calls) := (AssistantText(h[0].content), CallsOf(h[0].content));
            var results := ResultsOf(h[1].content);
            && TranslateAll(h) == [AssistantChat(text, calls)] + (results + TranslateAll(h[2..]))
            && StartsWithAnswers(results, calls) && |results| == |calls|
            && AllCalls(h) == calls + AllCalls(h[2..])
            && AllAnswers(h) == results + AllAnswers(h[2..])
  {
    NothingAnswered(h[0].content);
    OnlyResults(h[1].content);
    assert h[1..][1..] == h[2..] && h[1..][0] == h[1];
    assert Translate(h[1]) == ResultsOf(h[1].content);
    assert TranslateAll(h[1..]) == Translate(h[1]) + TranslateAll(h[2..]);
    assert AllCalls(h[1..]) == AllCalls(h[2..]);
    assert AllAnswers(h[1..]) == ResultsOf(h[1].content) + AllAnswers(h[2..]);
  }

  lemma ExchangeAt(prompt: string, h: seq<Message>, i: nat)
    requires WellFormed(prompt, h) && i + 1 < |h| && i % 2 == 1
    ensures var (text, calls) := (AssistantText(h[i].content), CallsOf(h[i].content));
            var results := ResultsOf(h[i + 1].content);
            && TranslateAll(h[i..]) == [AssistantChat(text, calls)] + (results + TranslateAll(h[i + 2..]))
            && StartsWithAnswers(results, calls) && |results| == |calls|
            && AllCalls(h[i..]) == calls + AllCalls(h[i + 2..])
            && AllAnswers(h[i..]) == results + AllAnswers(h[i + 2..])
  {
    assert h[i..][2..] == h[i + 2..];
    assert h[i..][0] == h[i] && h[i..][1] == h[i + 1];
    assert (i + 1) % 2 == 0 && h[i + 1 - 1] == h[i];
    hide WellFormed, TranslateAll, AllCalls, AllAnswers, ResultsOf, CallsOf;
    ExchangeMessages(h[i..]);
  }

  /** From an assistant message on. */
  lemma {:induction false} FromAssistant(prompt: string, h: seq<Message>, i: nat)
    requires WellFormed(prompt, h) && i <= |h| && i % 2 == 1
    ensures ChatOk(TranslateAll(h[i..]))
    ensures ChatCalls(TranslateAll(h[i..])) == AllCalls(h[i..])
    ensures ChatAnswers(TranslateAll(h[i..])) == AllAnswers(h[i..])
    decreases |h| - i
  {
    hide WellFormed, TranslateAll, AllCalls, AllAnswers, CallsOf, ResultsOf, StartsWithAnswers, ChatOk, ChatCalls, ChatAnswers;
    if i == |h| {
      Nothing(h[i..]);
    } else if i + 1 == |h| {
      LastAssistant(prompt, h);
    } else {
      FromAssistant(prompt, h, i + 2);
      ExchangeAt(prompt, h, i);
      Exchange(AssistantText(h[i].content), CallsOf(h[i].content), ResultsOf(h[i + 1].content), TranslateAll(h[i + 2..]));
    }
  }

  lemma {:induction false} Nothing(h: seq<Message>)
    requires h == []
    ensures ChatOk(TranslateAll(h)) && ChatCalls(TranslateAll(h)) == AllCalls(h) && ChatAnswers(TranslateAll(h)) == AllAnswers(h)
  {
  }

  lemma LastAssistant(prompt: string, h: seq<Message>)
    requires WellFormed(prompt, h) && |h| % 2 == 0
    ensures var last := h[|h| - 1..];
            && ChatOk(TranslateAll(last)) && ChatCalls(TranslateAll(last)) == AllCalls(last)
            && ChatAnswers(TranslateAll(last)) == AllAnswers(last)
  {
    var last := h[|h| - 1..];
    NothingAnswered(h[|h| - 1].content);
    assert last[1..] == [];
    assert TranslateAll(last) == Translate(last[0]);
  }

  lemma {:induction false} ThePrompt(prompt: string)
    ensures var content := [Text(prompt)]; CallsOf(content) == [] && ResultsOf(content) == []
    ensures Translate(User([Text(prompt)])) == [UserChat(prompt)]
  {
    assert [Text(prompt)][1..] == [];
    assert TextsOf([Text(prompt)]) == [prompt];
  }

  lemma {:induction false} PromptFirst(prompt: string, h: seq<Message>)
    requires WellFormed(prompt, h)
    ensures TranslateAll(h) == [UserChat(prompt)] + TranslateAll(h[1..])
    ensures AllCalls(h) == AllCalls(h[1..]) && AllAnswers(h) == AllAnswers(h[1..])
  {
    ThePrompt(prompt);
    hide Translate, CallsOf, ResultsOf;
  }

  lemma {:induction false} PromptTaken(prompt: string, rest: seq<Chat>)
    ensures ChatOk([UserChat(prompt)] + rest) == ChatOk(rest)
    ensures ChatCalls([UserChat(prompt)] + rest) == ChatCalls(rest)
    ensures ChatAnswers([UserChat(prompt)] + rest) == ChatAnswers(rest)
  {
    assert ([UserChat(prompt)] + rest)[1..] == rest;
  }

  /** What the assistant said, message by message. */
  function ChatTexts(chat: seq<Chat>): seq<string> {
    if chat == [] then []
    else (if chat[0].AssistantChat? then [chat[0].text.GetOr("")] else []) + ChatTexts(chat[1..])
  }

  function AllTexts(h: seq<Message>): seq<string> {
    if h == [] then []
    else (if h[0].Assistant? then [T.JoinLines(TextsOf(h[0].content))] else []) + AllTexts(h[1..])
  }

  lemma {:induction false} TextsConcat(a: seq<Chat>, b: seq<Chat>)
    ensures ChatTexts(a + b) == ChatTexts(a) + ChatTexts(b)
    decreases |a|
  {
    if a == [] {
      assert a + b == b;
    } else {
      assert (a + b)[0] == a[0] && (a + b)[1..] == a[1..] + b;
      TextsConcat(a[1..], b);
    }
  }

  lemma {:induction false} ResultsSayNothing(content: seq<Block>)
    ensures ChatTexts(ResultsOf(content)) == []
  {
    if content != [] {
      ResultsSayNothing(content[1..]);
      var first := if content[0].ToolResult? then [ToolChat(content[0].id, content[0].reply.note)] else [];
      TextsConcat(first, ResultsOf(content[1..]));
      if first != [] { assert first[1..] == []; }
    }
  }

  /** What the assistant says is kept, in any history at all. */
  lemma {:induction false} TextsAreKept(h: seq<Message>)
    ensures ChatTexts(TranslateAll(h)) == AllTexts(h)
  {
    if h != [] {
      TextsAreKept(h[1..]);
      TextsConcat(Translate(h[0]), TranslateAll(h[1..]));
      match h[0]
      case Assistant(content) =>
        assert Translate(h[0])[1..] == [];
      case User(content) =>
        var said := if TextsOf(content) != [] then [UserChat(T.JoinLines(TextsOf(content)))] else [];
        TextsConcat(said, ResultsOf(content));
        ResultsSayNothing(content);
        if said != [] { assert said[1..] == []; }
    }
  }

  /** A turn's message holds the turn's text, so the chat says what the turn said. */
  lemma {:induction false} TurnIsSaid(turn: Turn)
    ensures Translate(TurnMessage(turn)) == [AssistantChat(if turn.text != "" then Some(turn.text) else None, turn.calls)]
  {
    CallsOfTurn(turn);
    var said := if turn.text != "" then [Text(turn.text)] else [];
    NoTexts(Uses(turn.calls));
    var content := said + Uses(turn.calls);
    if said != [] {
      assert content[0] == Text(turn.text) && content[1..] == Uses(turn.calls);
      assert TextsOf(content) == [turn.text];
    } else {
      assert content == Uses(turn.calls);
      assert TextsOf(content) == [];
    }
    assert TurnMessage(turn) == Assistant(content);
  }

  lemma {:induction false} NoTexts(content: seq<Block>)
    requires forall k | 0 <= k < |content| :: !content[k].Text?
    ensures TextsOf(content) == []
    decreases |content|
  {
    if content != [] { NoTexts(content[1..]); }
  }

  /** A well-formed history becomes a chat the API accepts, with every call, answer, id and their order; only the error flags are dropped. */
  lemma {:induction false} TranslationIsWellFormed(prompt: string, h: seq<Message>)
    requires WellFormed(prompt, h)
    ensures TranslateAll(h) == [UserChat(prompt)] + TranslateAll(h[1..])
    ensures ChatOk(TranslateAll(h))
    ensures ChatCalls(TranslateAll(h)) == AllCalls(h)
    ensures ChatAnswers(TranslateAll(h)) == AllAnswers(h)
    ensures ChatTexts(TranslateAll(h)) == AllTexts(h)
  {
    TextsAreKept(h);
    FromAssistant(prompt, h, 1);
    PromptFirst(prompt, h);
    hide *;
    PromptTaken(prompt, TranslateAll(h[1..]));
  }

  /** So every chat the repair loop has an OpenAI-compatible model complete is one the API accepts. */
  lemma {:induction false} EveryChatIsAccepted(job: Job, provider: Provider, max: nat, ctx: Ctx, h: seq<Message>)
    requires Completion(h) in RunRepair(job, provider, max, ctx).0.effects
    ensures ChatOk(TranslateAll(h)) && ChatCalls(TranslateAll(h)) == AllCalls(h) && ChatAnswers(TranslateAll(h)) == AllAnswers(h)
  {
    RepairSafety.HistoryIsWellFormed(job, provider, max, ctx);
    TranslationIsWellFormed(job.prompt, h);
  }
}
