/** The bounded repair loop: draft with tools, then verify and gate. */
module RepairLoop {
  import opened Basics
  import opened Diffing
  import opened WorkingCopy
  import opened AgentTools
  import opened ToolContext
  import opened History
  import opened CompileGate

  /** A line of the hand-written transcript. */
  datatype Line =
    | Said(text: string)
    | Calling(call: ToolCall)
    | Got(reply: Reply)
    | GateRun(select: string)
    | ProdActionAdvised
    | Suppressed

  /** A call the loop makes to the outside. */
  datatype Effect = Completion(history: seq<Message>) | Tool(call: ToolCall) | Verification(select: string)

  /** The loop's variables, and every outside call made so far. */
  datatype State = State(
    messages: seq<Message>,
    lastText: string,
    edits: nat,
    ctx: Ctx,
    lines: seq<Line>,
    effects: seq<Effect>)

  function Opening(job: Job, ctx: Ctx): State {
    State([User([Text(job.prompt)])], "", 0, ctx, [], [])
  }

  /** The loop hears one turn. */
  function Heard(st: State, turn: Turn): State {
    st.(messages := st.messages + [TurnMessage(turn)],
        lastText := if turn.text != "" then turn.text else st.lastText,
        lines := st.lines + if turn.text != "" then [Said(turn.text)] else [])
  }

  /** It runs one call. */
  function Called(env: Env, st: State, call: ToolCall): (State, Reply) {
    var (ctx, reply) := Dispatch(env, st.ctx, call);
    (st.(edits := if call.name == "edit_file" then st.edits + 1 else st.edits,
         ctx := ctx,
         lines := st.lines + [Calling(call), Got(reply)],
         effects := st.effects + [Tool(call)]),
     reply)
  }

  /** The rest of a turn's calls; the answers go into the history together. */
  function CallAll(env: Env, st: State, calls: seq<ToolCall>, results: seq<Block>): State
    decreases |calls|
  {
    if calls == [] then st.(messages := st.messages + [User(results)])
    else
      var (st', reply) := Called(env, st, calls[0]);
      CallAll(env, st', calls[1..], results + [ToolResult(calls[0].id, reply)])
  }

  /** Turns from the n-th on; false when the provider raised. */
  function Draft(job: Job, provider: Provider, max: nat, n: nat, st: State): (State, bool)
    decreases max - n
  {
    if n >= max then (st, true)
    else
      var asked := st.(effects := st.effects + [Completion(st.messages)]);
      match provider(n, st.messages)
      case None => (asked, false)
      case Some(turn) =>
        var heard := Heard(asked, turn);
        if turn.calls == [] then (heard, true)
        else Draft(job, provider, max, n + 1, CallAll(job.env, heard, turn.calls, []))
  }

  /** Sandbox run and gate on a draft that no cached run covers; no result when the sandbox raises. */
  function Verify(job: Job, st: State, diff: string, explanation: string): (State, Option<Result>)
    requires job.env.sandbox.Some?
  {
    var select := job.env.modelSelect.GetOr("");
    var asked := st.(effects := st.effects + [Verification(select)]);
    match VerifyCurrent(job.env, st.ctx, select)
    case (ctx, None) => (asked.(ctx := ctx), None)
    case (ctx, Some(run)) =>
      var result := Gate(job, ctx.copy, run, diff, explanation, st.edits);
      (asked.(ctx := ctx, lines := st.lines + [GateRun(select)] + Closing(result)), Some(result))
  }

  /** The transcript's last line, where there is one. */
  function Closing(result: Result): seq<Line> {
    if result.outcome.NeedsProdAction? then [ProdActionAdvised]
    else if result.outcome.NoFix? && result.evidence.Some? then [Suppressed]
    else []
  }

  function Finish(job: Job, st: State): (State, Option<Result>) {
    match Conclude(job, st.ctx, st.lastText, st.edits)
    case Settled(result) => (st.(lines := st.lines + Closing(result)), Some(result))
    case Unverified(diff, explanation) => Verify(job, st, diff, explanation)
  }

  /** `run_repair`; no result when a call raised. */
  function RunRepair(job: Job, provider: Provider, max: nat, ctx: Ctx): (State, Option<Result>) {
    var (st, ok) := Draft(job, provider, max, 0, Opening(job, ctx));
    if ok then Finish(job, st) else (st, None)
  }

  // --- the loop as it runs ---

  class Repair {
    const job: Job
    const ctx: AgentContext
    var messages: seq<Message>
    var lastText: string
    var edits: nat
    var lines: seq<Line>
    ghost var effects: seq<Effect>

    ghost predicate Valid()
      reads this, ctx, ctx.working
    {
      ctx.Valid() && ctx.env == job.env
    }

    ghost function Model(): State
      reads this, ctx, ctx.working
      requires Valid()
    {
      State(messages, lastText, edits, ctx.Model(), lines, effects)
    }

    constructor (job: Job, ctx: AgentContext)
      requires ctx.Valid() && ctx.env == job.env
      ensures Valid() && Model() == Opening(job, ctx.Model()) && this.job == job && this.ctx == ctx
    {
      this.job, this.ctx := job, ctx;
      messages, lastText, edits, lines, effects := [User([Text(job.prompt)])], "", 0, [], [];
    }

    method CallTool(call: ToolCall) returns (reply: Reply)
      requires Valid()
      modifies this, ctx, ctx.working
      ensures Valid() && (Model(), reply) == Called(job.env, old(Model()), call)
      ensures messages == old(messages)
    {
      if call.name == "edit_file" { edits := edits + 1; }
      reply := ctx.Dispatch(call);
      effects := effects + [Tool(call)];
      assert lines + [Calling(call)] + [Got(reply)] == lines + [Calling(call), Got(reply)];
      lines := lines + [Calling(call)] + [Got(reply)];
    }

    /** One turn's tool calls, in order. */
    method CallTools(calls: seq<ToolCall>)
      requires Valid()
      modifies this, ctx, ctx.working
      ensures Valid() && Model() == CallAll(job.env, old(Model()), calls, [])
    {
      hide Called;
      var results: seq<Block> := [];
      assert calls[0..] == calls;
      for i := 0 to |calls|
        invariant Valid()
        invariant CallAll(job.env, Model(), calls[i..], results) == CallAll(job.env, old(Model()), calls, [])
      {
        var call := calls[i];
        assert calls[i..][0] == call && calls[i..][1..] == calls[i + 1..];
        var reply := CallTool(call);
        results := results + [ToolResult(call.id, reply)];
      }
      messages := messages + [User(results)];
    }

    method Hear(turn: Turn)
      requires Valid()
      modifies this
      ensures Valid() && Model() == Heard(old(Model()), turn)
    {
      var content: seq<Block> := [];
      if turn.text != "" {
        lastText := turn.text;
        lines := lines + [Said(turn.text)];
        content := content + [Text(turn.text)];
      }
      ghost var lead := content;
      for i := 0 to |turn.calls|
        invariant content == lead + Uses(turn.calls[..i])
      {
        assert Uses(turn.calls[..i + 1]) == Uses(turn.calls[..i]) + [ToolUse(turn.calls[i])];
        content := content + [ToolUse(turn.calls[i])];
      }
      assert turn.calls[..|turn.calls|] == turn.calls;
      messages := messages + [Assistant(content)];
      assert content == TurnMessage(turn).content;
    }

    /** The turns; false when the provider raised. */
    method DraftTurns(provider: Provider, max: nat) returns (ok: bool)
      requires Valid()
      modifies this, ctx, ctx.working
      ensures Valid() && (Model(), ok) == Draft(job, provider, max, 0, old(Model()))
    {
      for n := 0 to max
        invariant Valid()
        invariant Draft(job, provider, max, n, Model()) == Draft(job, provider, max, 0, old(Model()))
      {
        ghost var before := Model();
        var turn := provider(n, messages);
        effects := effects + [Completion(messages)];
        if turn.None? { return false; }
        Hear(turn.value);
        if turn.value.calls == [] { return true; }
        CallTools(turn.value.calls);
      }
      ok := true;
    }

    method VerifyAndGate(diff: string, explanation: string) returns (result: Option<Result>)
      requires Valid() && job.env.sandbox.Some?
      modifies this, ctx
      ensures Valid() && (Model(), result) == Verify(job, old(Model()), diff, explanation)
    {
      var select := job.env.modelSelect.GetOr("");
      effects := effects + [Verification(select)];
      var run := ctx.VerifyCurrent(select);
      if run.None? { return None; }
      lines := lines + [GateRun(select)];
      var verdict := Gate(job, ctx.working.Model(), run.value, diff, explanation, edits);
      lines := lines + Closing(verdict);
      result := Some(verdict);
    }

    method Run(provider: Provider, max: nat) returns (result: Option<Result>)
      requires Valid()
      requires Model() == Opening(job, ctx.Model())
      modifies this, ctx, ctx.working
      ensures Valid() && (Model(), result) == RunRepair(job, provider, max, old(ctx.Model()))
    {
      var ok := DraftTurns(provider, max);
      if !ok { return None; }
      var c := Ctx(ctx.working.Model(), ctx.lastRun, ctx.lastDiff, ctx.checks);
      match Conclude(job, c, lastText, edits) {
        case Settled(r) =>
          lines := lines + Closing(r);
          result := Some(r);
        case Unverified(diff, explanation) =>
          result := VerifyAndGate(diff, explanation);
      }
    }
  }
}
