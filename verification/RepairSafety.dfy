/** What every run of the repair loop guarantees, whatever the model, the tools and the sandbox do. */
module RepairSafety {
  import opened Basics
  import opened Text
  import opened Diffing
  import opened AgentTools
  import opened EditSafety
  import opened History
  import opened CompileGate
  import opened RepairLoop
  import Scoring
  import SqlColumns

  // --- the history ---

  /** A turn's calls leave one user message, which answers them. */
  lemma {:induction false} CallsAnswered(env: Env, st: State, calls: seq<ToolCall>, results: seq<Block>) returns (more: seq<Block>)
    ensures Answers(more, calls)
    ensures CallAll(env, st, calls, results).messages == st.messages + [User(results + more)]
    ensures forall h :: Completion(h) in CallAll(env, st, calls, results).effects <==> Completion(h) in st.effects
    decreases |calls|
  {
    if calls == [] {
      more := [];
      assert results + more == results;
    } else {
      var (st', reply) := Called(env, st, calls[0]);
      var answer := ToolResult(calls[0].id, reply);
      var rest := CallsAnswered(env, st', calls[1..], results + [answer]);
      more := [answer] + rest;
      assert results + [answer] + rest == results + more;
    }
  }

  /** Every history the provider has been given is well-formed and ends with the user's message. */
  ghost predicate AskedWell(prompt: string, effects: seq<Effect>) {
    forall h :: Completion(h) in effects ==> WellFormed(prompt, h) && |h| % 2 == 1
  }

  lemma TurnExtends(prompt: string, h: seq<Message>, turn: Turn)
    requires WellFormed(prompt, h) && |h| % 2 == 1
    ensures WellFormed(prompt, h + [TurnMessage(turn)])
  {
  }

  lemma AnswerExtends(prompt: string, h: seq<Message>, turn: Turn, results: seq<Block>)
    requires WellFormed(prompt, h) && |h| % 2 == 1 && turn.calls != [] && Answers(results, turn.calls)
    ensures WellFormed(prompt, h + [TurnMessage(turn)] + [User(results)])
  {
    CallsOfTurn(turn);
    TurnExtends(prompt, h, turn);
  }

  lemma {:induction false} DraftHistory(prompt: string, job: Job, provider: Provider, max: nat, n: nat, st: State)
    requires WellFormed(prompt, st.messages) && |st.messages| % 2 == 1 && AskedWell(prompt, st.effects)
    ensures var st' := Draft(job, provider, max, n, st).0; WellFormed(prompt, st'.messages) && AskedWell(prompt, st'.effects)
    decreases max - n
  {
    hide WellFormed, Called, CallAll, TurnMessage;
    if n < max {
      var asked := st.(effects := st.effects + [Completion(st.messages)]);
      var answer := provider(n, st.messages);
      if answer.Some? {
        var turn := answer.value;
        var heard := Heard(asked, turn);
        TurnExtends(prompt, st.messages, turn);
        if turn.calls != [] {
          var results := CallsAnswered(job.env, heard, turn.calls, []);
          assert [] + results == results;
          AnswerExtends(prompt, st.messages, turn, results);
          DraftHistory(prompt, job, provider, max, n + 1, CallAll(job.env, heard, turn.calls, []));
        }
      }
    }
  }

  /** The gate asks the provider nothing. */
  lemma FinishAsksNothing(job: Job, st: State)
    ensures var st' := Finish(job, st).0;
            st'.messages == st.messages && forall h :: Completion(h) in st'.effects <==> Completion(h) in st.effects
  {
    hide Conclude, Gate, Closing, VerifyCurrent;
  }

  /** Whatever the model answers, it is only ever asked with a well-formed history. */
  lemma HistoryIsWellFormed(job: Job, provider: Provider, max: nat, ctx: Ctx)
    ensures var st := RunRepair(job, provider, max, ctx).0;
            && WellFormed(job.prompt, st.messages)
            && forall h :: Completion(h) in st.effects ==> WellFormed(job.prompt, h) && |h| % 2 == 1
  {
    var start := Opening(job, ctx);
    assert WellFormed(job.prompt, start.messages);
    hide WellFormed, Draft, Finish;
    DraftHistory(job.prompt, job, provider, max, 0, start);
    FinishAsksNothing(job, Draft(job, provider, max, 0, start).0);
  }

  // --- the working copy ---

  lemma {:induction false} CallAllKeeps(env: Env, st: State, calls: seq<ToolCall>, results: seq<Block>)
    requires Sound(env, st.ctx)
    ensures var ctx' := CallAll(env, st, calls, results).ctx; Sound(env, ctx') && Follows(st.ctx, ctx')
    decreases |calls|
  {
    hide Sound, Follows, Dispatch;
    if calls == [] {
      SoundStays(env, st.ctx);
    } else {
      var (st', reply) := Called(env, st, calls[0]);
      DispatchKeeps(env, st.ctx, calls[0]);
      CallAllKeeps(env, st', calls[1..], results + [ToolResult(calls[0].id, reply)]);
      FollowsTransitive(st.ctx, st'.ctx, CallAll(env, st, calls, results).ctx);
    }
  }

  lemma {:induction false} DraftKeeps(job: Job, provider: Provider, max: nat, n: nat, st: State)
    requires Sound(job.env, st.ctx)
    ensures var ctx' := Draft(job, provider, max, n, st).0.ctx; Sound(job.env, ctx') && Follows(st.ctx, ctx')
    decreases max - n
  {
    hide Sound, Follows, CallAll, TurnMessage;
    SoundStays(job.env, st.ctx);
    if n < max {
      var asked := st.(effects := st.effects + [Completion(st.messages)]);
      var answer := provider(n, st.messages);
      if answer.Some? && answer.value.calls != [] {
        var heard := Heard(asked, answer.value);
        var next := CallAll(job.env, heard, answer.value.calls, []);
        CallAllKeeps(job.env, heard, answer.value.calls, []);
        DraftKeeps(job, provider, max, n + 1, next);
        FollowsTransitive(st.ctx, next.ctx, Draft(job, provider, max, n, st).0.ctx);
      }
    }
  }

  lemma FinishKeeps(job: Job, st: State)
    requires Sound(job.env, st.ctx)
    ensures var ctx' := Finish(job, st).0.ctx;
            Sound(job.env, ctx') && Follows(st.ctx, ctx') && ctx'.copy == st.ctx.copy
  {
    hide Sound, Follows, Gate, Closing, ProdAction, FullDiff;
    SoundStays(job.env, st.ctx);
    if Conclude(job, st.ctx, st.lastText, st.edits).Unverified? {
      VerifyIsSound(job.env, st.ctx, job.env.modelSelect.GetOr(""));
    }
  }

  lemma RunKeeps(job: Job, provider: Provider, max: nat, ctx: Ctx)
    requires Sound(job.env, ctx)
    ensures var ctx' := RunRepair(job, provider, max, ctx).0.ctx; Sound(job.env, ctx') && Follows(ctx, ctx')
  {
    hide Sound, Follows, Draft, Finish;
    DraftKeeps(job, provider, max, 0, Opening(job, ctx));
    var (st, ok) := Draft(job, provider, max, 0, Opening(job, ctx));
    if ok {
      FinishKeeps(job, st);
      FollowsTransitive(ctx, st.ctx, Finish(job, st).0.ctx);
    }
  }

  // --- the compile gate ---

  /** A proposal ships the working copy's whole diff, and a sandbox compiled exactly that content. */
  ghost predicate Vouched(ctx: Ctx, d: Differ, result: Result) {
    && result.diff == Some(FullDiff(d, ctx.copy))
    && result.evidence.Some?
    && exists run :: CompiledExactly(ctx, run, Contents(ctx.copy)) && run.Compiled() && result.evidence.value.tier1 == run.tier1
  }

  lemma GateVouches(job: Job, ctx: Ctx, run: Run, explanation: string, edits: nat)
    requires CompiledExactly(ctx, run, Contents(ctx.copy))
    ensures var diff := FullDiff(job.env.differ, ctx.copy);
            var result := Gate(job, ctx.copy, run, diff, explanation, edits);
            && (result.outcome.PrProposed? <==> run.Compiled())
            && (result.outcome.PrProposed? ==> Vouched(ctx, job.env.differ, result))
  {
  }

  lemma FinishVouches(job: Job, st: State)
    requires ValidDiffer(job.env.differ) && PlainPaths(job.env) && Sound(job.env, st.ctx)
    requires job.env.sandbox.Some?
    ensures var (st', r) := Finish(job, st);
            r.Some? && r.value.outcome.PrProposed? ==> Vouched(st'.ctx, job.env.differ, r.value)
  {
    hide Gate, Vouched, Sound, FullDiff, ProdAction, CompiledExactly, ValidDiffer, PlainPaths, Closing;
    var (ctx, edits, select) := (st.ctx, st.edits, job.env.modelSelect.GetOr(""));
    match Conclude(job, ctx, st.lastText, edits)
    case Settled(result) =>
      if result.outcome.PrProposed? && ctx.lastRun.Some? && ctx.lastDiff == FullDiff(job.env.differ, ctx.copy) {
        CacheHitIsExact(job.env, ctx);
        GateVouches(job, ctx, ctx.lastRun.value, if st.lastText != "" then st.lastText else DRAFTED, edits);
      }
    case Unverified(diff, explanation) =>
      if VerifyCurrent(job.env, ctx, select).1.Some? {
        FreshRunIsExact(job.env, ctx, select);
        var (ctx', run) := VerifyCurrent(job.env, ctx, select);
        GateVouches(job, ctx', run.value, explanation, edits);
      }
  }

  /**
   The compile gate. With a sandbox configured, a proposed fix has passed tier-1 on exactly the
   contents it ships, whether the gate made the run or reused one cached under its diff's text.
   */
  lemma ProposalCompiled(job: Job, provider: Provider, max: nat, ctx: Ctx)
    requires ValidDiffer(job.env.differ) && PlainPaths(job.env) && Sound(job.env, ctx) && job.env.sandbox.Some?
    ensures var (st, r) := RunRepair(job, provider, max, ctx);
            r.Some? && r.value.outcome.PrProposed? ==> Vouched(st.ctx, job.env.differ, r.value)
  {
    hide Vouched, Draft, Finish, Sound, ValidDiffer, PlainPaths;
    DraftKeeps(job, provider, max, 0, Opening(job, ctx));
    var (st, ok) := Draft(job, provider, max, 0, Opening(job, ctx));
    if ok { FinishVouches(job, st); }
  }

  /** Every file of a proposal from a fresh context is in scope, within the size limit, and really changed. */
  lemma ProposalIsGuarded(job: Job, provider: Provider, max: nat, p: string)
    requires var ctx := RunRepair(job, provider, max, FRESH).0.ctx; p in Contents(ctx.copy)
    ensures var st := RunRepair(job, provider, max, FRESH).0.ctx.copy.files[p];
            && (job.env.allowed == {} || p in job.env.allowed)
            && WithinLimit(job.env, p, st)
            && !SameInk(st.original, st.current)
  {
    FreshIsSound(job.env);
    RunKeeps(job, provider, max, FRESH);
    hide WithinLimit;
    PassedIsChanged(job.env, p, RunRepair(job, provider, max, FRESH).0.ctx.copy.files[p]);
    PassedIsWithinLimit(job.env, p, RunRepair(job, provider, max, FRESH).0.ctx.copy.files[p]);
  }

  /** What the drift rule says of the failing model's text and of its source's columns of today; nothing if there is no such text. */
  function Advice(job: Job): Option<string> {
    var file := job.failingFile.GetOr("");
    if file != "" && job.env.source(file).Found?
    then job.drift(job.env.source(file).content, job.upstreamColumns(job.env.source(file).content))
    else None
  }

  /** A drift that needs a production action gets the advice and no fix, whatever was drafted; no other drift does. */
  lemma ProdActionWins(job: Job, provider: Provider, max: nat, ctx: Ctx)
    ensures var r := RunRepair(job, provider, max, ctx).1;
            r.Some? ==>
              && (r.value.outcome.NeedsProdAction? <==> ProdAction(job).Some?)
              && (r.value.outcome.NeedsProdAction? <==> Advice(job).Some?)
              && (Advice(job).Some? ==> r.value == Result(NeedsProdAction, None, Advice(job).value, None, None))
  {
    hide Draft, FullDiff, ProdAction, Advice, BuildEvidence, SignalsOf;
    AdviceIsAsked(job);
  }

  lemma AdviceIsAsked(job: Job)
    ensures ProdAction(job) == Advice(job)
  {
  }

  // --- what a verdict tells its reader ---

  /** The gate calls a draft low-risk exactly when everything it looked at was clean. */
  lemma LowRiskIff(job: Job, c: Dict, run: Run, diff: string, explanation: string, edits: nat)
    ensures var r := Gate(job, c, run, diff, explanation, edits);
            && r.score.Some?
            && (r.score.value.risk.Low? <==>
                  && run.tier1.passed == Some(true)
                  && run.tier2.ran && run.tier2.passed == Some(true)
                  && SqlColumns.OutputSchemaDelta(job.strip, c.files, ModelPath(c)) == Some(false)
                  && |ChangedPaths(c)| <= 1 && ChangedLines(diff) <= 15 && edits <= 1)
  {
    hide ChangedLines, ModelPath, SqlColumns.OutputSchemaDelta, ChangedPaths;
  }

  /** The gate judges ambiguity by size alone, so those two signals never disagree. */
  lemma AmbiguityIsSize(run: Run, evidence: Evidence, c: Dict, diff: string, edits: nat)
    ensures var sig := SignalsOf(run, evidence, c, diff, edits);
            sig.unambiguous == Scoring.Small(sig) && sig.attempts >= 1
  {
    hide ChangedLines;
  }

  // --- the counters and the transcript ---

  function ToolsIn(effects: seq<Effect>): seq<ToolCall> {
    if effects == [] then []
    else ToolsIn(effects[..|effects| - 1]) + if effects[|effects| - 1].Tool? then [effects[|effects| - 1].call] else []
  }

  function CallsIn(lines: seq<Line>): seq<ToolCall> {
    if lines == [] then []
    else CallsIn(lines[..|lines| - 1]) + if lines[|lines| - 1].Calling? then [lines[|lines| - 1].call] else []
  }

  function EditsIn(calls: seq<ToolCall>): nat {
    if calls == [] then 0
    else EditsIn(calls[..|calls| - 1]) + if calls[|calls| - 1].name == "edit_file" then 1 else 0
  }

  /** The transcript lists the calls that were made, and the counter counts their edits. */
  predicate Kept(st: State) {
    CallsIn(st.lines) == ToolsIn(st.effects) && st.edits == EditsIn(ToolsIn(st.effects))
  }

  lemma {:induction false} QuietLine(lines: seq<Line>, line: Line)
    requires !line.Calling?
    ensures CallsIn(lines + [line]) == CallsIn(lines)
  {
    assert (lines + [line])[..|lines|] == lines;
  }

  lemma {:induction false} QuietEffect(effects: seq<Effect>, effect: Effect)
    requires !effect.Tool?
    ensures ToolsIn(effects + [effect]) == ToolsIn(effects)
  {
    assert (effects + [effect])[..|effects|] == effects;
  }

  lemma {:induction false} CallNoted(lines: seq<Line>, effects: seq<Effect>, call: ToolCall)
    ensures CallsIn(lines + [Calling(call)]) == CallsIn(lines) + [call]
    ensures ToolsIn(effects + [Tool(call)]) == ToolsIn(effects) + [call]
  {
    assert (lines + [Calling(call)])[..|lines|] == lines;
    assert (effects + [Tool(call)])[..|effects|] == effects;
  }

  lemma {:induction false} EditNoted(calls: seq<ToolCall>, call: ToolCall)
    ensures EditsIn(calls + [call]) == EditsIn(calls) + if call.name == "edit_file" then 1 else 0
  {
    assert (calls + [call])[..|calls|] == calls;
  }

  lemma CalledKept(env: Env, st: State, call: ToolCall)
    requires Kept(st)
    ensures Kept(Called(env, st, call).0)
  {
    hide Dispatch, CallsIn, ToolsIn, EditsIn;
    var reply := Called(env, st, call).1;
    CallNoted(st.lines, st.effects, call);
    EditNoted(ToolsIn(st.effects), call);
    QuietLine(st.lines + [Calling(call)], Got(reply));
    assert st.lines + [Calling(call), Got(reply)] == (st.lines + [Calling(call)]) + [Got(reply)];
  }

  lemma {:induction false} CallAllKept(env: Env, st: State, calls: seq<ToolCall>, results: seq<Block>)
    requires Kept(st)
    ensures Kept(CallAll(env, st, calls, results))
    decreases |calls|
  {
    if calls != [] {
      var (st', reply) := Called(env, st, calls[0]);
      CalledKept(env, st, calls[0]);
      hide Kept, Called;
      CallAllKept(env, st', calls[1..], results + [ToolResult(calls[0].id, reply)]);
    }
  }

  lemma AskedKept(st: State, turn: Turn)
    requires Kept(st)
    ensures var asked := st.(effects := st.effects + [Completion(st.messages)]); Kept(asked) && Kept(Heard(asked, turn))
  {
    QuietEffect(st.effects, Completion(st.messages));
    QuietLine(st.lines, Said(turn.text));
    assert st.lines + [] == st.lines;
  }

  lemma {:induction false} DraftKept(job: Job, provider: Provider, max: nat, n: nat, st: State)
    requires Kept(st)
    ensures Kept(Draft(job, provider, max, n, st).0)
    decreases max - n
  {
    if n < max {
      var asked := st.(effects := st.effects + [Completion(st.messages)]);
      var answer := provider(n, st.messages);
      AskedKept(st, answer.GetOr(Turn("", [])));
      hide Kept, CallAll;
      if answer.Some? && answer.value.calls != [] {
        var heard := Heard(asked, answer.value);
        CallAllKept(job.env, heard, answer.value.calls, []);
        DraftKept(job, provider, max, n + 1, CallAll(job.env, heard, answer.value.calls, []));
      }
    }
  }

  lemma ClosingKept(st: State, result: Result)
    requires Kept(st)
    ensures Kept(st.(lines := st.lines + Closing(result)))
  {
    QuietLine(st.lines, ProdActionAdvised);
    QuietLine(st.lines, Suppressed);
    assert st.lines + [] == st.lines;
  }

  lemma VerifyKept(job: Job, st: State, diff: string, explanation: string)
    requires job.env.sandbox.Some? && Kept(st)
    ensures Kept(Verify(job, st, diff, explanation).0)
  {
    var select := job.env.modelSelect.GetOr("");
    var (ctx, run) := VerifyCurrent(job.env, st.ctx, select);
    var asked := st.(effects := st.effects + [Verification(select)], ctx := ctx);
    QuietEffect(st.effects, Verification(select));
    QuietLine(st.lines, GateRun(select));
    var ran := asked.(lines := st.lines + [GateRun(select)]);
    assert Kept(asked) && Kept(ran);
    hide Kept, Closing, Gate, VerifyCurrent;
    if run.Some? { ClosingKept(ran, Gate(job, ctx.copy, run.value, diff, explanation, st.edits)); }
  }

  /** In every run the transcript names exactly the tool calls made, in order, and the edit counter is their number of edits. */
  lemma TranscriptIsFaithful(job: Job, provider: Provider, max: nat, ctx: Ctx)
    ensures var st := RunRepair(job, provider, max, ctx).0;
            && CallsIn(st.lines) == ToolsIn(st.effects)
            && st.edits == EditsIn(ToolsIn(st.effects))
  {
    var start := Opening(job, ctx);
    assert Kept(start);
    DraftKept(job, provider, max, 0, start);
    var (st, ok) := Draft(job, provider, max, 0, start);
    hide Draft, Gate, Conclude, Closing;
    if ok {
      match Conclude(job, st.ctx, st.lastText, st.edits)
      case Settled(result) => ClosingKept(st, result);
      case Unverified(diff, explanation) => if job.env.sandbox.Some? { VerifyKept(job, st, diff, explanation); }
    }
  }

  // --- low risk, over whole runs ---

  /** The evidence and the diff of a proposal are clean, and one edit was tried at most. */
  predicate Clean(r: Result, c: Dict, edits: nat) {
    && r.evidence.Some? && r.diff.Some?
    && r.evidence.value.tier1.passed == Some(true)
    && r.evidence.value.tier2.ran && r.evidence.value.tier2.passed == Some(true)
    && r.evidence.value.schemaChanged == Some(false)
    && |ChangedPaths(c)| <= 1 && ChangedLines(r.diff.value) <= 15 && edits <= 1
  }

  lemma GateLowRiskIff(job: Job, c: Dict, run: Run, diff: string, explanation: string, edits: nat)
    requires Gate(job, c, run, diff, explanation, edits).outcome.PrProposed?
    ensures var r := Gate(job, c, run, diff, explanation, edits);
            r.score.Some? && (r.score.value.risk.Low? <==> Clean(r, c, edits))
  {
    LowRiskIff(job, c, run, diff, explanation, edits);
    hide ChangedLines, ChangedPaths, Scoring.RiskClass, SqlColumns.OutputSchemaDelta, SignalsOf, Scoring.ScoreOf;
  }

  lemma FinishLowRiskIff(job: Job, st: State)
    requires job.env.sandbox.Some?
    ensures var (st', r) := Finish(job, st);
            && st'.edits == st.edits
            && (r.Some? && r.value.outcome.PrProposed? ==>
                  r.value.score.Some? && (r.value.score.value.risk.Low? <==> Clean(r.value, st'.ctx.copy, st'.edits)))
  {
    hide Gate, Clean, ProdAction, FullDiff, Closing, VerifyCurrent;
    var (ctx, edits) := (st.ctx, st.edits);
    match Conclude(job, ctx, st.lastText, edits)
    case Settled(result) =>
      if result.outcome.PrProposed? {
        var explanation := if st.lastText != "" then st.lastText else DRAFTED;
        GateLowRiskIff(job, ctx.copy, ctx.lastRun.value, FullDiff(job.env.differ, ctx.copy), explanation, edits);
      }
    case Unverified(diff, explanation) =>
      var (ctx', run) := VerifyCurrent(job.env, ctx, job.env.modelSelect.GetOr(""));
      if run.Some? && Gate(job, ctx'.copy, run.value, diff, explanation, edits).outcome.PrProposed? {
        GateLowRiskIff(job, ctx'.copy, run.value, diff, explanation, edits);
      }
  }

  /**
   In every run a proposal is called low-risk exactly when the run behind it compiled and its sample
   build passed, the output columns are unchanged, one file and 15 counted lines changed at most, and
   the agent called `edit_file` at most once.
   */
  lemma LowRiskProposalIff(job: Job, provider: Provider, max: nat, ctx: Ctx)
    requires job.env.sandbox.Some?
    ensures var (st, r) := RunRepair(job, provider, max, ctx);
            r.Some? && r.value.outcome.PrProposed? ==>
              && r.value.score.Some?
              && (r.value.score.value.risk.Low? <==> Clean(r.value, st.ctx.copy, EditsIn(ToolsIn(st.effects))))
  {
    TranscriptIsFaithful(job, provider, max, ctx);
    hide Finish, Draft, Clean;
    var (st, ok) := Draft(job, provider, max, 0, Opening(job, ctx));
    if ok { FinishLowRiskIff(job, st); }
  }
}
