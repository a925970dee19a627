/**
 Which model the gate's run compiled. The cache that the gate consults is keyed by the diff's text and
 not by the model, so a run the agent asked for on another model can vouch for the job's.
 */
module GateModel {
  import opened Basics
  import opened Text
  import opened Diffing
  import opened AgentTools
  import opened EditSafety
  import opened History
  import opened CompileGate
  import opened RepairLoop
  import Scoring
  import RepairSafety

  /** The model a job is about, as the gate selects it. */
  function JobModel(job: Job): string {
    job.env.modelSelect.GetOr("")
  }

  /** The model the last sandbox run that answered was made on. */
  function AnsweredFor(ctx: Ctx): Option<string> {
    match LastAnswered(ctx.checks) case None => None case Some(i) => Some(ctx.checks[i].select)
  }

  /** The cache holds a run of this very diff. */
  predicate CacheHolds(job: Job, ctx: Ctx) {
    ctx.lastRun.Some? && ctx.lastDiff == FullDiff(job.env.differ, ctx.copy)
  }

  // --- at the gate ---

  lemma VerifyAnswers(env: Env, ctx: Ctx, select: string)
    requires env.sandbox.Some? && VerifyCurrent(env, ctx, select).1.Some?
    ensures AnsweredFor(VerifyCurrent(env, ctx, select).0) == Some(select)
  {
    var ctx' := VerifyCurrent(env, ctx, select).0;
    assert ctx'.checks[|ctx.checks|].select == select;
  }

  /**
   With a sandbox, the run behind a proposal was made on the job's own model exactly when the cache
   did not hold the drafted diff, or the last sandbox run that answered had selected that model.
   */
  lemma GateCompilesJobModelIff(job: Job, st: State)
    requires job.env.sandbox.Some? && CacheOk(job.env, st.ctx)
    ensures var (st', r) := Finish(job, st);
            r.Some? && r.value.outcome.PrProposed? ==>
              && AnsweredFor(st'.ctx).Some?
              && (AnsweredFor(st'.ctx) == Some(JobModel(job))
                  <==> !CacheHolds(job, st.ctx) || AnsweredFor(st.ctx) == Some(JobModel(job)))
  {
    hide Gate, FullDiff, ProdAction, Closing, VerifyCurrent, CachedBy;
    if Conclude(job, st.ctx, st.lastText, st.edits).Unverified? {
      if VerifyCurrent(job.env, st.ctx, JobModel(job)).1.Some? { VerifyAnswers(job.env, st.ctx, JobModel(job)); }
    }
  }

  /** The condition over whole runs: what the gate finds when drafting is over decides. */
  lemma {:induction false} ProposalCompiledJobModelIff(job: Job, provider: Provider, max: nat, ctx: Ctx)
    requires ValidDiffer(job.env.differ) && PlainPaths(job.env) && Sound(job.env, ctx) && job.env.sandbox.Some?
    ensures var (st, r) := RunRepair(job, provider, max, ctx);
            var drafted := Draft(job, provider, max, 0, Opening(job, ctx)).0.ctx;
            r.Some? && r.value.outcome.PrProposed? ==>
              && RepairSafety.Vouched(st.ctx, job.env.differ, r.value)
              && (AnsweredFor(st.ctx) == Some(JobModel(job))
                  <==> !CacheHolds(job, drafted) || AnsweredFor(drafted) == Some(JobModel(job)))
  {
    hide RepairSafety.Vouched, Draft, Finish, CacheOk, EditsOk, ValidDiffer, PlainPaths, CacheHolds, AnsweredFor;
    RepairSafety.ProposalCompiled(job, provider, max, ctx);
    RepairSafety.DraftKeeps(job, provider, max, 0, Opening(job, ctx));
    var (st, ok) := Draft(job, provider, max, 0, Opening(job, ctx));
    if ok { GateCompilesJobModelIff(job, st); }
  }

  // --- what the agent's calls have to do with it ---

  /** A sandbox call that leaves the model to the job, or names it. */
  predicate OnJobModel(env: Env, call: ToolCall) {
    call.name == "run_sandbox" ==> Chosen(Arg(call, "select"), env.modelSelect) == env.modelSelect.GetOr("")
  }

  predicate AllOnJobModel(env: Env, ctx: Ctx) {
    forall i | 0 <= i < |ctx.checks| :: ctx.checks[i].select == env.modelSelect.GetOr("")
  }

  lemma DispatchOnJobModel(env: Env, ctx: Ctx, call: ToolCall)
    requires OnJobModel(env, call) && AllOnJobModel(env, ctx)
    ensures AllOnJobModel(env, Dispatch(env, ctx, call).0)
  {
    hide Guard, Replaced, WithCurrent, Loaded, FullDiff, Contents, ChangedPaths;
  }

  lemma {:induction false} CallsOnJobModel(env: Env, st: State, calls: seq<ToolCall>, results: seq<Block>)
    requires (forall k | 0 <= k < |calls| :: OnJobModel(env, calls[k])) && AllOnJobModel(env, st.ctx)
    ensures AllOnJobModel(env, CallAll(env, st, calls, results).ctx)
    decreases |calls|
  {
    hide OnJobModel, AllOnJobModel, Dispatch;
    if calls != [] {
      var (st', reply) := Called(env, st, calls[0]);
      DispatchOnJobModel(env, st.ctx, calls[0]);
      CallsOnJobModel(env, st', calls[1..], results + [ToolResult(calls[0].id, reply)]);
    }
  }

  /** The provider never asks for a sandbox run on another model. */
  ghost predicate KeepsToJobModel(env: Env, provider: Provider) {
    forall n, h :: provider(n, h).Some? ==>
      forall k | 0 <= k < |provider(n, h).value.calls| :: OnJobModel(env, provider(n, h).value.calls[k])
  }

  lemma {:induction false} DraftOnJobModel(job: Job, provider: Provider, max: nat, n: nat, st: State)
    requires KeepsToJobModel(job.env, provider) && AllOnJobModel(job.env, st.ctx)
    ensures AllOnJobModel(job.env, Draft(job, provider, max, n, st).0.ctx)
    decreases max - n
  {
    hide OnJobModel, AllOnJobModel, CallAll, Heard;
    if n < max && provider(n, st.messages).Some? {
      var turn := provider(n, st.messages).value;
      var asked := st.(effects := st.effects + [Completion(st.messages)]);
      var heard := Heard(asked, turn);
      assert heard.ctx == st.ctx by { HeardKeepsContext(asked, turn); }
      if turn.calls != [] {
        CallsOnJobModel(job.env, heard, turn.calls, []);
        DraftOnJobModel(job, provider, max, n + 1, CallAll(job.env, heard, turn.calls, []));
      }
    }
  }

  lemma HeardKeepsContext(st: State, turn: Turn)
    ensures Heard(st, turn).ctx == st.ctx
  {
  }

  /** An agent that never names another model gets no proposal that its own model was not compiled for. */
  lemma FaithfulAgentCompilesJobModel(job: Job, provider: Provider, max: nat)
    requires ValidDiffer(job.env.differ) && PlainPaths(job.env) && job.env.sandbox.Some?
    requires KeepsToJobModel(job.env, provider)
    ensures var (st, r) := RunRepair(job, provider, max, FRESH);
            r.Some? && r.value.outcome.PrProposed? ==>
              RepairSafety.Vouched(st.ctx, job.env.differ, r.value) && AnsweredFor(st.ctx) == Some(JobModel(job))
  {
    FreshIsSound(job.env);
    DraftOnJobModel(job, provider, max, 0, Opening(job, FRESH));
    RepairSafety.DraftKeeps(job, provider, max, 0, Opening(job, FRESH));
    ProposalCompiledJobModelIff(job, provider, max, FRESH);
    var drafted := Draft(job, provider, max, 0, Opening(job, FRESH)).0.ctx;
    if CacheHolds(job, drafted) {
      assert CacheOk(job.env, drafted);
      assert LastAnswered(drafted.checks).Some?;
    }
    hide RunRepair, Draft, RepairSafety.Vouched, CacheOk;
  }

  // --- a run that proposes without it ---

  const PASSED := Run(Tier(true, Some(true), ""), Tier(false, None, ""), "other")

  /** A checkout of one file, a sandbox in which everything compiles, and a job about the model `orders`. */
  function AnyJob(d: Differ): Job {
    Job(Env((path: string) => if path == "m.sql" then Found("a") else Missing, None,
            Some((n: nat, contents: map<string, string>, select: string) => Some(PASSED)),
            d, ChangedLines(FileDiff(d, "m.sql", FileState("a", "b"))), {}, Some("orders")),
        "", None, (model: string) => None, (model: string, columns: Option<seq<string>>) => None, (text: string) => text)
  }

  const EDIT := ToolCall("1", "edit_file", map["path" := "m.sql", "old_string" := "a", "new_string" := "b"])
  const ELSEWHERE := ToolCall("2", "run_sandbox", map["select" := "other"])

  /** One turn: edit the file, and verify some other model. */
  function Careless(): Provider {
    (n: nat, h: seq<Message>) => Some(Turn("", [EDIT, ELSEWHERE]))
  }

  const READ: Copy := Copy(["m.sql"], map["m.sql" := FileState("a", "a")])
  const EDITED: Copy := Copy(["m.sql"], map["m.sql" := FileState("a", "b")])

  lemma GuardPasses(d: Differ)
    ensures Guard(AnyJob(d).env, "m.sql", FileState("a", "b")).None?
  {
    assert WithoutSpace("a") == "a" && WithoutSpace("b") == "b" by { assert "a"[1..] == "" && "b"[1..] == ""; }
    var text := FileDiff(d, "m.sql", FileState("a", "b"));
    assert text != "" by { assert text[0] == '-'; }
    hide FileDiff, ChangedLines, WithoutSpace;
  }

  lemma TheLoad()
    ensures DictOk(READ) && Loaded(FRESH.copy, "m.sql", "a") == READ
  {
    assert [] + ["m.sql"] == ["m.sql"];
  }

  lemma TheReplacement()
    ensures DictOk(READ) && DictOk(EDITED) && WithCurrent(READ, "m.sql", "b") == EDITED
  {
  }

  lemma TheEdited(d: Differ)
    ensures DictOk(READ) && DictOk(EDITED)
    ensures Edited(AnyJob(d).env, FRESH.(copy := READ), "m.sql", "a", "b")
         == (FRESH.(copy := EDITED), Reply(EditApplied("m.sql"), false))
  {
    TheReplacement();
    OneReplaced();
    GuardPasses(d);
    hide Guard, Replaced, WithCurrent, DictOk;
  }

  lemma TheEdit(d: Differ)
    ensures DictOk(READ) && DictOk(EDITED)
    ensures Dispatch(AnyJob(d).env, FRESH, EDIT) == (FRESH.(copy := EDITED), Reply(EditApplied("m.sql"), false))
  {
    var env := AnyJob(d).env;
    TheLoad();
    TheEdited(d);
    NothingLacks();
    hide Edited, Loaded, DictOk, FirstMissing;
    assert EDIT.input["path"] == "m.sql" && EDIT.input["old_string"] == "a" && EDIT.input["new_string"] == "b";
    assert env.source("m.sql") == Found("a");
    assert EditFile(env, FRESH, "m.sql", "a", "b") == (FRESH.(copy := EDITED), Some(Reply(EditApplied("m.sql"), false)));
  }

  lemma NothingLacks()
    ensures FirstMissing(EDIT, ["path", "old_string", "new_string"]).None?
  {
    var keys := ["path", "old_string", "new_string"];
    assert keys[1..] == ["old_string", "new_string"] && keys[1..][1..] == ["new_string"] && keys[1..][1..][1..] == [];
  }

  lemma OneReplaced()
    ensures Replaced("a", "a", "b") == (Applied, "b")
  {
    assert "a"[0..1] == "a";
    assert OccursAt("a", "a", 0);
    assert Find("a", "a", 0) == Some(0);
    assert CountFrom("a", "a", 0) == 1 + CountFrom("a", "a", 1);
    assert Find("a", "a", 1) == None;
    assert "a"[..0] == "" && "a"[1..] == "" && "" + "b" + "" == "b";
  }

  lemma TheCheck(d: Differ)
    ensures DictOk(EDITED)
    ensures Dispatch(AnyJob(d).env, FRESH.(copy := EDITED), ELSEWHERE)
         == (Ctx(EDITED, Some(PASSED), FullDiff(d, EDITED), [Check(EDITED, "other", Some(PASSED))]), Reply(Verified(PASSED), false))
  {
    TheEdit(d);
    var ctx := FRESH.(copy := EDITED);
    ChangedInMembers(EDITED.order, EDITED.files);
    assert "m.sql" in EDITED.order && "m.sql" in ChangedPaths(EDITED);
    assert [] + [Check(EDITED, "other", Some(PASSED))] == [Check(EDITED, "other", Some(PASSED))];
    assert Required("run_sandbox") == [];
    hide FullDiff, Contents;
  }

  /**
   Whatever scripts difflib prints: a job about `orders` is proposed a fix although the only sandbox run
   ever made, the one that vouches for it, compiled another model.
   */
  lemma ProposedUncompiled(d: Differ)
    requires ValidDiffer(d)
    ensures var job := AnyJob(d);
            var (st, r) := RunRepair(job, Careless(), 1, FRESH);
            && r.Some? && r.value.outcome.PrProposed?
            && JobModel(job) == "orders"
            && |st.ctx.checks| == 1 && st.ctx.checks[0].select == "other"
            && AnsweredFor(st.ctx) == Some("other")
  {
    var job := AnyJob(d);
    var start := Opening(job, FRESH);
    TheEdit(d);
    TheCheck(d);
    OneTurn(job, Careless(), start);
    var heard := Heard(start.(effects := start.effects + [Completion(start.messages)]), Turn("", [EDIT, ELSEWHERE]));
    HeardKeepsContext(start.(effects := start.effects + [Completion(start.messages)]), Turn("", [EDIT, ELSEWHERE]));
    TwoCalls(job.env, heard);
    var drafted := CallAll(job.env, heard, [EDIT, ELSEWHERE], []);
    hide CallAll, Heard, Dispatch, Draft, Finish, LastAnswered, FullDiff;
    ProposedFrom(d, drafted);
  }

  /** The gate takes the other model's run for this draft's. */
  lemma ProposedFrom(d: Differ, st: State)
    requires DictOk(EDITED)
    requires st.ctx == Ctx(EDITED, Some(PASSED), FullDiff(d, EDITED), [Check(EDITED, "other", Some(PASSED))])
    ensures var (st', r) := Finish(AnyJob(d), st);
            r.Some? && r.value.outcome.PrProposed? && st'.ctx == st.ctx && AnsweredFor(st'.ctx) == Some("other")
  {
    var job := AnyJob(d);
    NonEmpty(d);
    assert ProdAction(job).None? && PASSED.Compiled();
    hide FullDiff, BuildEvidence, SignalsOf, Scoring.ScoreOf, Closing, ProdAction, Run.Compiled;
  }

  lemma {:induction false} TwoCalls(env: Env, st: State)
    ensures CallAll(env, st, [EDIT, ELSEWHERE], []).ctx == Dispatch(env, Dispatch(env, st.ctx, EDIT).0, ELSEWHERE).0
  {
    hide Dispatch;
    var (one, r1) := Called(env, st, EDIT);
    var (two, r2) := Called(env, one, ELSEWHERE);
    assert [EDIT, ELSEWHERE][1..] == [ELSEWHERE] && [ELSEWHERE][1..] == [];
    assert CallAll(env, two, [], [] + [ToolResult("1", r1)] + [ToolResult("2", r2)]).ctx == two.ctx;
    assert CallAll(env, one, [ELSEWHERE], [] + [ToolResult("1", r1)]).ctx == two.ctx;
  }

  lemma {:induction false} OneTurn(job: Job, provider: Provider, st: State)
    requires provider(0, st.messages).Some? && provider(0, st.messages).value.calls != []
    ensures var turn := provider(0, st.messages).value;
            var heard := Heard(st.(effects := st.effects + [Completion(st.messages)]), turn);
            Draft(job, provider, 1, 0, st) == (CallAll(job.env, heard, turn.calls, []), true)
  {
    hide Heard, CallAll;
  }

  lemma NonEmpty(d: Differ)
    ensures DictOk(EDITED) && FullDiff(d, EDITED) != ""
  {
    EmptyDiffIffUnchanged(d, EDITED.order, EDITED.files);
    assert "m.sql" in EDITED.order;
  }
}
