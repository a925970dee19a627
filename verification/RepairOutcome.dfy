/** How a run ends: which outcome it has and why, what it says, and the numbers on it. */
module RepairOutcome {
  import opened Basics
  import opened Diffing
  import opened AgentTools
  import opened History
  import opened CompileGate
  import opened RepairLoop
  import opened RepairStory
  import RepairSafety
  import Scoring
  import SqlColumns

  // --- the outcome ---

  function InItsWords(said: string): string {
    if said != "" then said else "Drafted a minimal fix for the failing model."
  }

  /** The result of a run that drafted `diff` and last said `said`. */
  predicate Explained(job: Job, diff: string, said: string, r: Result) {
    match r.outcome
    case NeedsProdAction =>
      r == Result(NeedsProdAction, None, r.explanation, None, None) && ProdAction(job) == Some(r.explanation)
    case PrProposed =>
      && ProdAction(job).None? && diff != "" && r.diff == Some(diff) && r.explanation == InItsWords(said)
      && (r.evidence.Some? <==> job.env.sandbox.Some?) && (r.score.Some? <==> job.env.sandbox.Some?)
      && (r.evidence.Some? ==> r.evidence.value.tier1.passed == Some(true))
    case NoFix =>
      && ProdAction(job).None? && r.diff.None?
      && (if diff == "" then
            r.evidence.None? && r.score.None? && r.explanation == if said != "" then said else "Could not produce a confident fix."
          else
            && r.evidence.Some? && r.score.Some? && r.evidence.value.tier1.passed != Some(true)
            && r.explanation == InItsWords(said) + "\n\nThis draft did not pass tier-1 compile, so it was not proposed.")
  }

  /** The line that closes a transcript. */
  function Notice(diff: string, r: Result): seq<Line> {
    if r.outcome.NeedsProdAction? then [ProdActionAdvised]
    else if r.outcome.NoFix? && diff != "" then [Suppressed]
    else []
  }

  lemma GateExplains(job: Job, c: Dict, run: Run, diff: string, said: string, edits: nat)
    requires ProdAction(job).None? && diff != "" && job.env.sandbox.Some?
    ensures Explained(job, diff, said, Gate(job, c, run, diff, if said != "" then said else DRAFTED, edits))
  {
    hide BuildEvidence, SignalsOf, Scoring.ScoreOf, ProdAction;
    var r := Gate(job, c, run, diff, if said != "" then said else DRAFTED, edits);
    assert BuildEvidence(job, run, c).tier1 == run.tier1 by { TierIsKept(job, run, c); }
  }

  lemma TierIsKept(job: Job, run: Run, c: Dict)
    ensures BuildEvidence(job, run, c).tier1 == run.tier1
  {
  }

  lemma FinishExplains(job: Job, st: State)
    ensures var (st', r) := Finish(job, st);
            var diff := FullDiff(job.env.differ, st.ctx.copy);
            && st'.ctx.copy == st.ctx.copy
            && (r.Some? ==>
                  && Explained(job, diff, st.lastText, r.value)
                  && (|| st'.lines == st.lines + Notice(diff, r.value)
                      || st'.lines == st.lines + [GateRun(job.env.modelSelect.GetOr(""))] + Notice(diff, r.value)))
  {
    hide FullDiff, ProdAction, BuildEvidence, SignalsOf, Scoring.ScoreOf;
    var diff := FullDiff(job.env.differ, st.ctx.copy);
    if ProdAction(job).None? && diff != "" && job.env.sandbox.Some? {
      if st.ctx.lastRun.Some? { GateExplains(job, st.ctx.copy, st.ctx.lastRun.value, diff, st.lastText, st.edits); }
      var (ctx, run) := VerifyCurrent(job.env, st.ctx, job.env.modelSelect.GetOr(""));
      assert ctx.copy == st.ctx.copy;
      if run.Some? { GateExplains(job, ctx.copy, run.value, diff, st.lastText, st.edits); }
    }
  }

  /** What is proposed, recommended or given up, when, and in which words: the last the agent said, if it said anything. */
  lemma RunIsExplained(job: Job, provider: Provider, max: nat, ctx: Ctx)
    ensures var (st, r) := RunRepair(job, provider, max, ctx);
            r.Some? ==> Explained(job, FullDiff(job.env.differ, st.ctx.copy), LastSaid(st.lines), r.value)
  {
    var (st, ok) := Draft(job, provider, max, 0, Opening(job, ctx));
    TranscriptReplays(job, provider, max, ctx);
    hide Draft, Finish, Explained, FullDiff, LastSaid, After, Replies, RepliesIn, RepairSafety.CallsIn;
    if ok {
      FinishExplains(job, st);
      FinishSpeaksOn(job, st);
    }
  }

  // --- the numbers ---

  /** The first changed file in the order in which files were loaded. */
  predicate FirstChanged(c: Dict, path: string) {
    exists k :: 0 <= k < |c.order| && c.order[k] == path && path in c.files && Changed(c.files[path])
             && forall i | 0 <= i < k :: c.order[i] in c.files && !Changed(c.files[c.order[i]])
  }

  lemma {:induction false} FirstOfChanged(order: seq<string>, files: map<string, FileState>) returns (k: nat)
    requires (forall p | p in order :: p in files) && ChangedIn(order, files) != []
    ensures k < |order| && ChangedIn(order, files)[0] == order[k] && Changed(files[order[k]])
    ensures forall i | 0 <= i < k :: !Changed(files[order[i]])
    decreases |order|
  {
    if Changed(files[order[0]]) {
      k := 0;
    } else {
      k := FirstOfChanged(order[1..], files);
      k := k + 1;
    }
  }

  /** What the gate adds up, in thousandths. */
  function Points(e: Evidence, files: nat, lines: nat, edits: nat): int {
    (if e.tier1.passed == Some(true) then 220 else 0)
    + (if e.tier2.ran && e.tier2.passed == Some(true) then 190 else if e.tier2.ran && e.tier2.passed == Some(false) then 0 else 76)
    + 100
    + (if e.schemaChanged == Some(false) then 150 else 0)
    + (if files <= 1 && lines <= 15 then 190 else 0)
    - (if edits > 1 then 80 * (edits - 1) else 0)
  }

  predicate RedFlag(e: Evidence, files: nat, lines: nat) {
    || e.tier1.passed != Some(true) || (e.tier2.ran && e.tier2.passed == Some(false))
    || files > 1 || lines > 15
    || (!(e.tier2.ran && e.tier2.passed.Some?) && e.schemaChanged == Some(true))
  }

  /** Confidence is the nearest hundredth of the points, and high risk is a red flag. */
  predicate Scored(r: Result, files: nat, lines: nat, edits: nat) {
    && r.evidence.Some? && r.score.Some? && r.evidence.value.tier3.NotAttempted?
    && var (e, s) := (r.evidence.value, r.score.value);
       && (Points(e, files, lines, edits) <= 0 ==> s.confidence == 0)
       && (Points(e, files, lines, edits) >= 0 ==>
             10 * s.confidence - 5 < Points(e, files, lines, edits) < 10 * s.confidence + 5)
       && (s.risk.High? <==> RedFlag(e, files, lines))
  }

  lemma GateScores(job: Job, c: Dict, run: Run, diff: string, explanation: string, edits: nat)
    ensures var r := Gate(job, c, run, diff, explanation, edits);
            && r.evidence.Some? && r.evidence.value.tier1 == run.tier1 && r.evidence.value.tier2 == run.tier2
            && Scored(r, |ChangedPaths(c)|, ChangedLines(diff), edits)
  {
    var e := BuildEvidence(job, run, c);
    var sig := SignalsOf(run, e, c, diff, edits);
    hide SqlColumns.OutputSchemaDelta, ChangedLines, ChangedPaths, ModelPath;
    Scoring.WorthInNumbers(sig);
    Scoring.ConfidenceIsNearest(sig);
    Scoring.RiskIff(sig);
    hide Scoring.Raw, Scoring.Confidence, Scoring.RiskClass, Scoring.Factors;
  }

  lemma GateComparesFirstChanged(job: Job, c: Dict, run: Run, diff: string, explanation: string, edits: nat)
    requires ChangedPaths(c) != []
    ensures exists path :: FirstChanged(c, path) &&
              Gate(job, c, run, diff, explanation, edits).evidence.value.schemaChanged
              == SqlColumns.OutputSchemaDelta(job.strip, c.files, path)
  {
    var k := FirstOfChanged(c.order, c.files);
    assert FirstChanged(c, c.order[k]);
    hide SqlColumns.OutputSchemaDelta, SignalsOf, Scoring.ScoreOf;
  }

  lemma FinishScores(job: Job, st: State)
    ensures var (st', r) := Finish(job, st);
            && st'.edits == st.edits
            && (r.Some? && r.value.score.Some? ==>
                  Scored(r.value, |ChangedPaths(st'.ctx.copy)|, ChangedLines(FullDiff(job.env.differ, st'.ctx.copy)), st.edits))
  {
    hide Gate, Scored, ProdAction, FullDiff, Closing, VerifyCurrent, ChangedLines;
    var (ctx, diff) := (st.ctx, FullDiff(job.env.differ, st.ctx.copy));
    var explanation := if st.lastText != "" then st.lastText else DRAFTED;
    if ctx.lastRun.Some? { GateScores(job, ctx.copy, ctx.lastRun.value, diff, explanation, st.edits); }
    if job.env.sandbox.Some? {
      var (ctx', run) := VerifyCurrent(job.env, ctx, job.env.modelSelect.GetOr(""));
      SameCopy(job.env, ctx, job.env.modelSelect.GetOr(""));
      if run.Some? { GateScores(job, ctx'.copy, run.value, diff, explanation, st.edits); }
    }
  }

  lemma SameCopy(env: Env, ctx: Ctx, select: string)
    requires env.sandbox.Some?
    ensures VerifyCurrent(env, ctx, select).0.copy == ctx.copy
  {
  }

  /** Over whole runs: every score shown is the rubric's, for the evidence shown, the diff drafted and the edits tried. */
  lemma RunIsScored(job: Job, provider: Provider, max: nat, ctx: Ctx)
    ensures var (st, r) := RunRepair(job, provider, max, ctx);
            r.Some? && r.value.score.Some? ==>
              Scored(r.value, |ChangedPaths(st.ctx.copy)|, ChangedLines(FullDiff(job.env.differ, st.ctx.copy)),
                     RepairSafety.EditsIn(RepairSafety.CallsIn(st.lines)))
  {
    RepairSafety.TranscriptIsFaithful(job, provider, max, ctx);
    hide Finish, Draft, Scored;
    var (st, ok) := Draft(job, provider, max, 0, Opening(job, ctx));
    if ok { FinishScores(job, st); }
  }
}
