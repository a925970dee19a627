/** What a finished draft becomes: the prod-action check, the compile gate and the score. */
module CompileGate {
  import opened Basics
  import opened Diffing
  import opened AgentTools
  import opened Scoring
  import opened SqlColumns

  /** A repair job: the tools' environment and the read-only facts of the failure. */
  datatype Job = Job(
    env: Env,
    prompt: string,
    failingFile: Option<string>,
    upstreamColumns: string -> Option<seq<string>>,
    drift: (string, Option<seq<string>>) -> Option<string>,
    strip: string -> string)

  datatype Tier3 = NotAttempted | Replayed(verdict: Option<bool>, forkOrdinal: nat)

  datatype Evidence = Evidence(tier1: Tier, tier2: Tier, tier3: Tier3, schemaChanged: Option<bool>)

  datatype Outcome = PrProposed | NoFix | NeedsProdAction

  /** A `RepairResult`, its transcript aside. */
  datatype Result = Result(
    outcome: Outcome,
    diff: Option<string>,
    explanation: string,
    evidence: Option<Evidence>,
    score: Option<Score>)

  const DRAFTED := "Drafted a minimal fix for the failing model."
  const UNSURE := "Could not produce a confident fix."
  const NOT_COMPILED := "\n\nThis draft did not pass tier-1 compile, so it was not proposed."

  /** `_detect_prod_action`: any failed lookup means no recommendation. */
  function ProdAction(job: Job): Option<string> {
    if job.failingFile.GetOr("") == "" then None
    else
      match job.env.source(job.failingFile.value)
      case Found(model) => job.drift(model, job.upstreamColumns(model))
      case _ => None
  }

  function ModelPath(c: Dict): string {
    if ChangedPaths(c) == [] then "" else ChangedPaths(c)[0]
  }

  function BuildEvidence(job: Job, run: Run, c: Dict): Evidence {
    Evidence(run.tier1, run.tier2, NotAttempted, OutputSchemaDelta(job.strip, c.files, ModelPath(c)))
  }

  function Tier3Verdict(t: Tier3): Option<bool> {
    if t.NotAttempted? then None else t.verdict
  }

  function SignalsOf(run: Run, evidence: Evidence, c: Dict, diff: string, edits: nat): Signals {
    var files, lines := |ChangedPaths(c)|, ChangedLines(diff);
    Signals(
      run.Compiled(),
      if run.tier2.ran then run.tier2.passed else None,
      Tier3Verdict(evidence.tier3),
      match evidence.schemaChanged case None => None case Some(changed) => Some(!changed),
      lines, files, files <= 1 && lines <= 15, if edits > 1 then edits else 1)
  }

  /** The verdict on a verified draft. */
  function Gate(job: Job, c: Dict, run: Run, diff: string, explanation: string, edits: nat): Result {
    var evidence := BuildEvidence(job, run, c);
    var scored := Some(ScoreOf(SignalsOf(run, evidence, c, diff, edits)));
    if !run.Compiled() then Result(NoFix, None, explanation + NOT_COMPILED, Some(evidence), scored)
    else Result(PrProposed, Some(diff), explanation, Some(evidence), scored)
  }

  /** Where a draft stands before any further sandbox run. */
  datatype Standing = Settled(result: Result) | Unverified(diff: string, explanation: string)

  /** `no_fix` for an empty diff, an unverified proposal without a sandbox, the gate on a cached run. */
  function StandingOf(job: Job, ctx: Ctx, diff: string, explanation: string, edits: nat): Standing {
    if job.env.sandbox.None? then Settled(Result(PrProposed, Some(diff), explanation, None, None))
    else if ctx.lastRun.Some? && ctx.lastDiff == diff then
      Settled(Gate(job, ctx.copy, ctx.lastRun.value, diff, explanation, edits))
    else Unverified(diff, explanation)
  }

  function Conclude(job: Job, ctx: Ctx, lastText: string, edits: nat): Standing {
    var diff := FullDiff(job.env.differ, ctx.copy);
    if ProdAction(job).Some? then Settled(Result(NeedsProdAction, None, ProdAction(job).value, None, None))
    else if diff == "" then
      Settled(Result(NoFix, None, if lastText != "" then lastText else UNSURE, None, None))
    else StandingOf(job, ctx, diff, if lastText != "" then lastText else DRAFTED, edits)
  }
}
