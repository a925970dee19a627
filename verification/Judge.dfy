/** Picking one result out of N candidates. */
module Judge {
  import opened Basics
  import opened AgentTools
  import opened History
  import opened CompileGate
  import opened RepairLoop
  import opened RunJournal
  import opened SatayCandidate
  import opened SatayPort
  import opened FanOut
  import RepairSafety
  import UsageReport

  /** Confidence; a missing one ranks below every score. */
  function ScoreKey(r: Result): int {
    match r.score case None => -1 case Some(s) => s.confidence
  }

  /** `a` is scored, and higher than `b` if `b` is scored at all. */
  predicate Surer(a: Result, b: Result) {
    a.score.Some? && (b.score.Some? ==> a.score.value.confidence > b.score.value.confidence)
  }

  predicate Reached(outcome: Option<Result>, want: Outcome) {
    outcome.Some? && outcome.value.outcome == want
  }

  /** The first of the most confident results of one class, among the first `n` candidates. */
  function FirstBest(outcomes: seq<Option<Result>>, want: Outcome, n: nat): (best: Option<nat>)
    requires n <= |outcomes|
    ensures best.Some? ==>
              && best.value < n && Reached(outcomes[best.value], want)
              && (forall i | 0 <= i < n && Reached(outcomes[i], want) :: !Surer(outcomes[i].value, outcomes[best.value].value))
              && (forall i | 0 <= i < best.value && Reached(outcomes[i], want) ::
                    Surer(outcomes[best.value].value, outcomes[i].value))
    ensures best.None? ==> forall i | 0 <= i < n :: !Reached(outcomes[i], want)
  {
    if n == 0 then None
    else
      var before := FirstBest(outcomes, want, n - 1);
      if !Reached(outcomes[n - 1], want) then before
      else if before.Some? && ScoreKey(outcomes[n - 1].value) <= ScoreKey(outcomes[before.value].value) then before
      else Some(n - 1)
  }

  const ALL_FAILED := Result(NoFix, None, "All candidate(s) failed to run", None, None)

  /** `_judge`: the winner's place and its result. */
  function Verdict(outcomes: seq<Option<Result>>): (v: (nat, Result))
    requires outcomes != []
    ensures v.0 < |outcomes|
  {
    var n := |outcomes|;
    match (FirstBest(outcomes, PrProposed, n), FirstBest(outcomes, NeedsProdAction, n), FirstBest(outcomes, NoFix, n))
    case (Some(w), _, _) => (w, outcomes[w].value)
    case (None, Some(w), _) => (w, outcomes[w].value)
    case (None, None, Some(w)) => (w, outcomes[w].value)
    case (None, None, None) => (0, ALL_FAILED)
  }

  /** A proposal beats a recommendation, which beats no fix. */
  function Class(r: Result): nat {
    match r.outcome case PrProposed => 2 case NeedsProdAction => 1 case NoFix => 0
  }

  /** `a` ranks above `b`: a better class, or the same with more confidence. */
  predicate Above(a: Result, b: Result) {
    Class(a) > Class(b) || (a.outcome == b.outcome && Surer(a, b))
  }

  /**
   The verdict is a candidate's own result, paired with that candidate; none ranks above it and every
   earlier candidate ranks below. Only when every candidate raised is it the synthesized `no_fix`.
   */
  lemma JudgePicksTheBest(outcomes: seq<Option<Result>>)
    requires outcomes != []
    ensures var (w, r) := Verdict(outcomes);
            && ((exists i :: 0 <= i < |outcomes| && outcomes[i].Some?) <==> outcomes[w].Some?)
            && (outcomes[w].Some? ==>
                  && r == outcomes[w].value
                  && (forall i | 0 <= i < |outcomes| && outcomes[i].Some? :: !Above(outcomes[i].value, r))
                  && forall i | 0 <= i < w && outcomes[i].Some? :: Above(r, outcomes[i].value))
            && (outcomes[w].None? ==> r == ALL_FAILED && w == 0)
  {
    var n := |outcomes|;
    var a := FirstBest(outcomes, PrProposed, n);
    var b := FirstBest(outcomes, NeedsProdAction, n);
    var c := FirstBest(outcomes, NoFix, n);
    forall i | 0 <= i < n && outcomes[i].Some?
      ensures Reached(outcomes[i], PrProposed) || Reached(outcomes[i], NeedsProdAction) || Reached(outcomes[i], NoFix)
    {
      match outcomes[i].value.outcome case PrProposed => case NeedsProdAction => case NoFix =>
    }
  }

  /**
   In numbers: no result with the winner's outcome has a higher confidence, an earlier one has a lower one,
   and the winner lacks a score only where all of them do, being then the first.
   */
  lemma WinnerIsMostConfident(outcomes: seq<Option<Result>>, i: nat)
    requires i < |outcomes| && outcomes[i].Some?
    requires outcomes[i].value.outcome == Verdict(outcomes).1.outcome
    ensures var ((w, r), score) := (Verdict(outcomes), outcomes[i].value.score);
            && outcomes[w] == Some(r)
            && (score.Some? ==>
                  && r.score.Some?
                  && score.value.confidence <= r.score.value.confidence
                  && (i < w ==> score.value.confidence < r.score.value.confidence))
            && (r.score.None? ==> w <= i)
  {
    JudgePicksTheBest(outcomes);
    var (w, r) := Verdict(outcomes);
    assert !Above(outcomes[i].value, r);
    assert i < w ==> Above(r, outcomes[i].value);
  }

  /** A pull request is proposed exactly when some candidate proposed one. */
  lemma ProposesIffSomeDid(outcomes: seq<Option<Result>>)
    requires outcomes != []
    ensures Verdict(outcomes).1.outcome.PrProposed? <==> exists i :: 0 <= i < |outcomes| && Reached(outcomes[i], PrProposed)
  {
    var best := FirstBest(outcomes, PrProposed, |outcomes|);
  }

  // --- on the outcomes of a fan-out ---

  function FanOutcome(m: Member, max: nat): Option<Result> {
    OutcomeOf(SoloEnd(m, Payload(max, None), StartOf(m, Payload(max, None))))
  }

  function FanOutcomes(fan: Fan, max: nat): (outcomes: seq<Option<Result>>)
    ensures |outcomes| == |fan.members| && forall i | 0 <= i < |fan.members| :: outcomes[i] == FanOutcome(fan.members[i], max)
  {
    seq(|fan.members|, i requires 0 <= i < |fan.members| => FanOutcome(fan.members[i], max))
  }

  /** What the judge is given for a candidate is the plain loop's result on that candidate's own clone of the job. */
  lemma OutcomeIsPlainRuns(m: Member, max: nat)
    ensures FanOutcome(m, max) == RunRepair(m.job, m.provider, max, FRESH).1
  {
    PortRefines(m.job, m.provider, max, FRESH);
    hide RunRepair, Drive;
  }

  /** A settled candidate recommends a production action exactly when the job calls for one. */
  lemma ProdActionIsShared(
    job: Job, base: string, sandboxOn: string -> Sandbox, clash: string -> Sandbox,
    factory: nat -> Provider, max: nat, i: nat)
    ensures var r := FanOutcome(Clone(job, base, sandboxOn, clash, factory, i), max);
            r.Some? ==> (r.value.outcome.NeedsProdAction? <==> ProdAction(job).Some?)
  {
    var m := Clone(job, base, sandboxOn, clash, factory, i);
    assert ProdAction(m.job) == ProdAction(job);
    PortRefines(m.job, m.provider, max, FRESH);
    RepairSafety.ProdActionWins(m.job, m.provider, max, FRESH);
  }

  /**
   A fan-out's verdict. If any settled candidate recommends a production action, all settled ones do,
   and so does the verdict; nothing is proposed then.
   */
  lemma ProdActionIsUnanimous(
    job: Job, base: string, sandboxOn: string -> Sandbox, clash: string -> Sandbox,
    factory: nat -> Provider, max: nat, n: nat, i: nat)
    requires i < n
    requires Reached(FanOutcome(Clone(job, base, sandboxOn, clash, factory, i), max), NeedsProdAction)
    ensures var outcomes := FanOutcomes(Clones(job, base, sandboxOn, clash, factory, n), max);
            && (forall k | 0 <= k < n && outcomes[k].Some? :: outcomes[k].value.outcome.NeedsProdAction?)
            && Verdict(outcomes).1.outcome.NeedsProdAction?
  {
    var fan := Clones(job, base, sandboxOn, clash, factory, n);
    var outcomes := FanOutcomes(fan, max);
    forall k | 0 <= k < n && outcomes[k].Some? ensures outcomes[k].value.outcome.NeedsProdAction? {
      ProdActionIsShared(job, base, sandboxOn, clash, factory, max, i);
      ProdActionIsShared(job, base, sandboxOn, clash, factory, max, k);
    }
    hide FanOutcome, Clones, FanOutcomes;
    assert Reached(outcomes[i], NeedsProdAction);
    JudgePicksTheBest(outcomes);
  }

  /** The verdict of a fan-out does not depend on the schedule. */
  lemma VerdictIndependent(
    job: Job, base: string, sandboxOn: string -> Sandbox, clash: string -> Sandbox,
    factory: nat -> Provider, max: nat, n: nat, acts: seq<Act>)
    requires n > 0
    requires var (fan, p) := (Clones(job, base, sandboxOn, clash, factory, n), Payload(max, None));
             IsSchedule(fan, p, Initial(fan, p), acts) && Complete(FanOut.After(fan, p, Initial(fan, p), acts))
    ensures var (fan, p) := (Clones(job, base, sandboxOn, clash, factory, n), Payload(max, None));
            var outcomes := OutcomesOf(FanOut.After(fan, p, Initial(fan, p), acts).cands);
            outcomes == FanOutcomes(fan, max) && Verdict(outcomes) == Verdict(FanOutcomes(fan, max))
  {
    var (fan, p) := (Clones(job, base, sandboxOn, clash, factory, n), Payload(max, None));
    ClonesAreSeparate(job, base, sandboxOn, clash, factory, n);
    var s := FanOut.After(fan, p, Initial(fan, p), acts);
    hide SeparateKeys, SeparateSchemas, Initial, IsSchedule, FanOut.After, Complete, OutcomeOf, Clones;
    forall i | 0 <= i < n ensures |s.cands| == n && OutcomeOf(s.cands[i]) == FanOutcome(fan.members[i], max) {
      SoloOutcome(fan, p, acts, i);
    }
    hide FanOutcome;
    assert OutcomesOf(s.cands) == FanOutcomes(fan, max);
  }

  /** The winner's transcript leads to the winner's own run and costs every candidate of the fan-out. */
  lemma {:induction false} VerdictIsCosted(
    job: Job, base: string, sandboxOn: string -> Sandbox, clash: string -> Sandbox,
    factory: nat -> Provider, max: nat, n: nat,
    events: seq<UsageReport.ParentEvent>, runOf: nat -> string, file: string, db: map<string, seq<UsageReport.Row>>)
    requires n > 0 && UsageReport.StartedOnce(events, CandidateKey, runOf, n)
    ensures var w := Verdict(FanOutcomes(Clones(job, base, sandboxOn, clash, factory, n), max)).0;
            var cost := UsageReport.CostRunIds(UsageReport.Journal(runOf(w), file, UsageReport.ChildIds(events)));
            && w < n
            && (exists i :: 0 <= i < |events| && UsageReport.Starts(events[i], CandidateKey(w))
                            && (forall k | 0 <= k < i :: !UsageReport.Starts(events[k], CandidateKey(w)))
                            && events[i].childRunId.value == runOf(w))
            && cost.Some? && runOf(w) in cost.value
            && UsageReport.Summarize(UsageReport.AllEntries(db, cost.value)).input
               == UsageReport.SumOver(db, runOf, n, (e: UsageReport.Entry) => e.input.GetOr(0))
            && UsageReport.Summarize(UsageReport.AllEntries(db, cost.value)).output
               == UsageReport.SumOver(db, runOf, n, (e: UsageReport.Entry) => e.output.GetOr(0))
  {
    var outcomes := FanOutcomes(Clones(job, base, sandboxOn, clash, factory, n), max);
    var w := Verdict(outcomes).0;
    hide FanOutcomes, Clones, Verdict, UsageReport.StartedOnce;
    UsageReport.WinnerIsCosted(events, CandidateKey, runOf, n, w);
    UsageReport.TranscriptCostsTheJob(events, CandidateKey, runOf, n, w, file, db);
  }
}
