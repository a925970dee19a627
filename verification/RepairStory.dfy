/** What a run's conversation and transcript tell of it: they are the dialogue, and the run can be replayed from them. */
module RepairStory {
  import opened Basics
  import opened AgentTools
  import opened History
  import opened CompileGate
  import opened RepairLoop
  import RepairSafety

  // --- the conversation is the dialogue with the provider ---

  /** The message says what the turn said: its text, if any, then its calls, and nothing else. */
  predicate Tells(m: Message, turn: Turn) {
    && m.Assistant? && CallsOf(m.content) == turn.calls
    && (turn.text == "" ==> |m.content| == |turn.calls|)
    && (turn.text != "" ==> |m.content| == |turn.calls| + 1 && m.content[0] == Text(turn.text))
  }

  /** The n-th assistant message tells what the provider answered, the n-th time, to everything before it. */
  ghost predicate Dialogue(provider: Provider, h: seq<Message>) {
    forall n: nat | 2 * n + 1 < |h| ::
      provider(n, h[..2 * n + 1]).Some? && Tells(h[2 * n + 1], provider(n, h[..2 * n + 1]).value)
  }

  predicate IsPrefix(h: seq<Message>, all: seq<Message>) {
    |h| <= |all| && all[..|h|] == h
  }

  lemma TurnIsTold(turn: Turn)
    ensures Tells(TurnMessage(turn), turn)
  {
    CallsOfTurn(turn);
  }

  lemma DialogueGrows(provider: Provider, h: seq<Message>, n: nat, turn: Turn, more: seq<Message>)
    requires Dialogue(provider, h) && |h| == 2 * n + 1 && provider(n, h) == Some(turn) && |more| <= 1
    ensures Dialogue(provider, h + [TurnMessage(turn)] + more)
  {
    var all := h + [TurnMessage(turn)] + more;
    TurnIsTold(turn);
    forall m: nat | 2 * m + 1 < |all|
      ensures provider(m, all[..2 * m + 1]).Some? && Tells(all[2 * m + 1], provider(m, all[..2 * m + 1]).value)
    {
      if m < n {
        assert all[..2 * m + 1] == h[..2 * m + 1] && all[2 * m + 1] == h[2 * m + 1];
      } else {
        assert m == n && all[..2 * n + 1] == h;
      }
    }
  }

  ghost predicate AskedWithin(effects: seq<Effect>, all: seq<Message>) {
    forall h :: Completion(h) in effects ==> IsPrefix(h, all)
  }

  lemma PrefixGrows(effects: seq<Effect>, h: seq<Message>, more: seq<Message>)
    requires AskedWithin(effects, h)
    ensures AskedWithin(effects, h + more)
  {
    forall g | Completion(g) in effects ensures IsPrefix(g, h + more) { assert (h + more)[..|g|] == h[..|g|]; }
  }

  lemma {:induction false} DraftIsDialogue(job: Job, provider: Provider, max: nat, n: nat, st: State)
    requires Dialogue(provider, st.messages) && |st.messages| == 2 * n + 1 && AskedWithin(st.effects, st.messages)
    ensures var st' := Draft(job, provider, max, n, st).0;
            && Dialogue(provider, st'.messages) && IsPrefix(st.messages, st'.messages)
            && AskedWithin(st'.effects, st'.messages)
    decreases max - n
  {
    hide Dialogue, AskedWithin, Called, CallAll, TurnMessage;
    var h := st.messages;
    var asked := st.(effects := st.effects + [Completion(h)]);
    AskedNow(st.effects, h);
    if n < max && provider(n, h).Some? {
      var turn := provider(n, h).value;
      var heard := Heard(asked, turn);
      DialogueGrows(provider, h, n, turn, []);
      PrefixGrows(asked.effects, h, [TurnMessage(turn)]);
      assert h + [TurnMessage(turn)] + [] == heard.messages;
      assert heard.messages[..|h|] == h;
      if turn.calls != [] {
        var next := CallAll(job.env, heard, turn.calls, []);
        var results := RepairSafety.CallsAnswered(job.env, heard, turn.calls, []);
        DialogueGrows(provider, h, n, turn, [User([] + results)]);
        PrefixGrows(asked.effects, heard.messages, [User([] + results)]);
        SameAsked(heard.effects, next.effects, next.messages);
        DraftIsDialogue(job, provider, max, n + 1, next);
        assert h == next.messages[..|h|];
      }
    }
  }

  lemma AskedNow(effects: seq<Effect>, h: seq<Message>)
    requires AskedWithin(effects, h)
    ensures AskedWithin(effects + [Completion(h)], h)
  {
  }

  lemma SameAsked(effects: seq<Effect>, effects': seq<Effect>, all: seq<Message>)
    requires AskedWithin(effects, all) && forall h :: Completion(h) in effects' <==> Completion(h) in effects
    ensures AskedWithin(effects', all)
  {
  }

  /**
   Every run's conversation is the dialogue: its assistant messages are the provider's answers, each to what
   stood before it, and every history the provider was asked with is a beginning of that one conversation.
   */
  lemma ConversationIsTheDialogue(job: Job, provider: Provider, max: nat, ctx: Ctx)
    ensures var st := RunRepair(job, provider, max, ctx).0;
            && Dialogue(provider, st.messages)
            && st.messages != [] && st.messages[0] == User([Text(job.prompt)])
            && forall h :: Completion(h) in st.effects ==> IsPrefix(h, st.messages)
  {
    var start := Opening(job, ctx);
    assert Dialogue(provider, start.messages);
    DraftIsDialogue(job, provider, max, 0, start);
    hide Draft, Finish, Dialogue;
    RepairSafety.FinishAsksNothing(job, Draft(job, provider, max, 0, start).0);
  }

  // --- the transcript replays the run ---

  /** What the tools reply to the calls, one after the other. */
  function Replies(env: Env, ctx: Ctx, calls: seq<ToolCall>): seq<Reply> {
    if calls == [] then []
    else
      var before := calls[..|calls| - 1];
      Replies(env, ctx, before) + [Dispatch(env, After(env, ctx, before), calls[|calls| - 1]).1]
  }

  function RepliesIn(lines: seq<Line>): seq<Reply> {
    if lines == [] then []
    else RepliesIn(lines[..|lines| - 1]) + if lines[|lines| - 1].Got? then [lines[|lines| - 1].reply] else []
  }

  /** The text of the last thing the agent said, or none. */
  function LastSaid(lines: seq<Line>): string {
    if lines == [] then ""
    else if lines[|lines| - 1].Said? then lines[|lines| - 1].text
    else LastSaid(lines[..|lines| - 1])
  }

  lemma {:induction false} AfterOneMore(env: Env, ctx: Ctx, calls: seq<ToolCall>, call: ToolCall)
    ensures After(env, ctx, calls + [call]) == Dispatch(env, After(env, ctx, calls), call).0
    decreases |calls|
  {
    hide Dispatch;
    if calls == [] {
      assert (calls + [call])[1..] == [];
      assert After(env, ctx, [call]) == After(env, Dispatch(env, ctx, call).0, []);
    } else {
      assert (calls + [call])[1..] == calls[1..] + [call];
      AfterOneMore(env, Dispatch(env, ctx, calls[0]).0, calls[1..], call);
    }
  }

  lemma {:induction false} LineAdded(lines: seq<Line>, line: Line)
    ensures RepliesIn(lines + [line]) == RepliesIn(lines) + if line.Got? then [line.reply] else []
    ensures LastSaid(lines + [line]) == if line.Said? then line.text else LastSaid(lines)
  {
    assert (lines + [line])[..|lines|] == lines;
  }

  lemma {:induction false} ReplyAdded(env: Env, ctx: Ctx, calls: seq<ToolCall>, call: ToolCall)
    ensures Replies(env, ctx, calls + [call]) == Replies(env, ctx, calls) + [Dispatch(env, After(env, ctx, calls), call).1]
  {
    assert (calls + [call])[..|calls|] == calls;
  }

  /** So far the context and the replies are those of the calls in the transcript, and the last text is the last said. */
  predicate Replayed(env: Env, ctx: Ctx, st: State) {
    var calls := RepairSafety.CallsIn(st.lines);
    && st.ctx == After(env, ctx, calls)
    && RepliesIn(st.lines) == Replies(env, ctx, calls)
    && st.lastText == LastSaid(st.lines)
  }

  lemma CalledReplayed(env: Env, ctx: Ctx, st: State, call: ToolCall)
    requires Replayed(env, ctx, st)
    ensures Replayed(env, ctx, Called(env, st, call).0)
  {
    var calls := RepairSafety.CallsIn(st.lines);
    var reply := Dispatch(env, st.ctx, call).1;
    hide Dispatch, RepairSafety.CallsIn, LastSaid, RepliesIn, Replies;
    AfterOneMore(env, ctx, calls, call);
    ReplyAdded(env, ctx, calls, call);
    RepairSafety.CallNoted(st.lines, st.effects, call);
    LineAdded(st.lines, Calling(call));
    RepairSafety.QuietLine(st.lines + [Calling(call)], Got(reply));
    LineAdded(st.lines + [Calling(call)], Got(reply));
    assert st.lines + [Calling(call), Got(reply)] == (st.lines + [Calling(call)]) + [Got(reply)];
  }

  lemma {:induction false} CallAllReplayed(env: Env, ctx: Ctx, st: State, calls: seq<ToolCall>, results: seq<Block>)
    requires Replayed(env, ctx, st)
    ensures Replayed(env, ctx, CallAll(env, st, calls, results))
    decreases |calls|
  {
    if calls != [] {
      var (st', reply) := Called(env, st, calls[0]);
      CalledReplayed(env, ctx, st, calls[0]);
      hide Replayed, Called;
      CallAllReplayed(env, ctx, st', calls[1..], results + [ToolResult(calls[0].id, reply)]);
    }
  }

  lemma HeardReplayed(env: Env, ctx: Ctx, st: State, turn: Turn)
    requires Replayed(env, ctx, st)
    ensures var asked := st.(effects := st.effects + [Completion(st.messages)]);
            Replayed(env, ctx, asked) && Replayed(env, ctx, Heard(asked, turn))
  {
    hide After, Replies, RepairSafety.CallsIn, RepliesIn, LastSaid;
    RepairSafety.QuietLine(st.lines, Said(turn.text));
    LineAdded(st.lines, Said(turn.text));
    assert st.lines + [] == st.lines;
  }

  lemma {:induction false} DraftReplayed(job: Job, provider: Provider, max: nat, n: nat, ctx: Ctx, st: State)
    requires Replayed(job.env, ctx, st)
    ensures Replayed(job.env, ctx, Draft(job, provider, max, n, st).0)
    decreases max - n
  {
    if n < max {
      var asked := st.(effects := st.effects + [Completion(st.messages)]);
      var answer := provider(n, st.messages);
      HeardReplayed(job.env, ctx, st, answer.GetOr(Turn("", [])));
      hide Replayed, CallAll;
      if answer.Some? && answer.value.calls != [] {
        var heard := Heard(asked, answer.value);
        CallAllReplayed(job.env, ctx, heard, answer.value.calls, []);
        DraftReplayed(job, provider, max, n + 1, ctx, CallAll(job.env, heard, answer.value.calls, []));
      }
    }
  }

  /** What is written below the draft in the transcript. */
  lemma ClosingLines(lines: seq<Line>, result: Result)
    ensures RepairSafety.CallsIn(lines + Closing(result)) == RepairSafety.CallsIn(lines)
    ensures RepliesIn(lines + Closing(result)) == RepliesIn(lines)
    ensures LastSaid(lines + Closing(result)) == LastSaid(lines)
  {
    assert lines + [] == lines;
    RepairSafety.QuietLine(lines, ProdActionAdvised);
    RepairSafety.QuietLine(lines, Suppressed);
    LineAdded(lines, ProdActionAdvised);
    LineAdded(lines, Suppressed);
  }

  lemma GateLine(lines: seq<Line>, select: string)
    ensures RepairSafety.CallsIn(lines + [GateRun(select)]) == RepairSafety.CallsIn(lines)
    ensures RepliesIn(lines + [GateRun(select)]) == RepliesIn(lines)
    ensures LastSaid(lines + [GateRun(select)]) == LastSaid(lines)
  {
    RepairSafety.QuietLine(lines, GateRun(select));
    LineAdded(lines, GateRun(select));
  }

  lemma FinishSpeaksOn(job: Job, st: State)
    ensures var st' := Finish(job, st).0;
            && RepairSafety.CallsIn(st'.lines) == RepairSafety.CallsIn(st.lines)
            && RepliesIn(st'.lines) == RepliesIn(st.lines)
            && LastSaid(st'.lines) == LastSaid(st.lines)
            && st'.lastText == st.lastText && st'.ctx.copy == st.ctx.copy
  {
    hide RepairSafety.CallsIn, RepliesIn, LastSaid, Closing, Gate;
    match Conclude(job, st.ctx, st.lastText, st.edits)
    case Settled(result) => ClosingLines(st.lines, result);
    case Unverified(diff, explanation) =>
      if job.env.sandbox.Some? {
        var select := job.env.modelSelect.GetOr("");
        var (ctx, run) := VerifyCurrent(job.env, st.ctx, select);
        GateLine(st.lines, select);
        if run.Some? {
          ClosingLines(st.lines + [GateRun(select)], Gate(job, ctx.copy, run.value, diff, explanation, st.edits));
        }
      }
  }

  /**
   A run can be replayed from its transcript: making the calls it lists, in order, from the start leaves the
   working copy the run ended with, and gets the replies it shows.
   */
  lemma TranscriptReplays(job: Job, provider: Provider, max: nat, ctx: Ctx)
    ensures var st := RunRepair(job, provider, max, ctx).0;
            var calls := RepairSafety.CallsIn(st.lines);
            && st.ctx.copy == After(job.env, ctx, calls).copy
            && RepliesIn(st.lines) == Replies(job.env, ctx, calls)
            && st.lastText == LastSaid(st.lines)
  {
    var start := Opening(job, ctx);
    assert Replayed(job.env, ctx, start);
    DraftReplayed(job, provider, max, 0, ctx, start);
    var (st, ok) := Draft(job, provider, max, 0, start);
    hide Draft, Finish, RepairSafety.CallsIn, RepliesIn, LastSaid, After, Replies;
    if ok { FinishSpeaksOn(job, st); }
  }
}
