/** The confidence and risk rubric, in exact thousandths. */
module Scoring {
  import opened Basics

  datatype Signals = Signals(
    tier1: bool,
    tier2: Option<bool>,
    tier3: Option<bool>,
    schemaUnchanged: Option<bool>,
    changedLines: nat,
    filesTouched: nat,
    unambiguous: bool,
    attempts: int)

  datatype Risk = Low | Medium | High

  datatype Signal = Compiled | SampleRun | ForkReplay | OutputSchema | DiffSize | Drift

  /** A reason shown with a proposal. */
  datatype Factor = Plus(signal: Signal) | Undecided(signal: Signal) | Minus(signal: Signal) | Attempts(n: int)

  datatype Score = Score(confidence: nat, risk: Risk, factors: seq<Factor>)

  function Weight(s: Signal): nat {
    match s
    case ForkReplay => 250
    case Compiled => 220
    case SampleRun => 190
    case OutputSchema => 150
    case DiffSize => 110
    case Drift => 80
  }

  /** Tiers that were not run earn 0.4 of their weight; an undetermined schema earns nothing. */
  function PartialCredit(s: Signal): nat {
    match s
    case ForkReplay => 100
    case SampleRun => 76
    case _ => 0
  }

  predicate Small(sig: Signals) {
    sig.changedLines <= 15 && sig.filesTouched <= 1
  }

  function Verdict(passed: Option<bool>, s: Signal): Factor {
    match passed
    case Some(true) => Plus(s)
    case None => Undecided(s)
    case Some(false) => Minus(s)
  }

  function Worth(f: Factor): int {
    match f
    case Plus(s) => Weight(s)
    case Undecided(s) => PartialCredit(s)
    case Minus(_) => 0
    case Attempts(n) => -80 * (n - 1)
  }

  function Total(fs: seq<Factor>): int {
    if fs == [] then 0 else Worth(fs[0]) + Total(fs[1..])
  }

  function Factors(sig: Signals): seq<Factor> {
    [ Verdict(Some(sig.tier1), Compiled), Verdict(sig.tier2, SampleRun), Verdict(sig.tier3, ForkReplay),
      Verdict(sig.schemaUnchanged, OutputSchema), Verdict(Some(Small(sig)), DiffSize),
      Verdict(Some(sig.unambiguous), Drift) ]
    + if sig.attempts > 1 then [Attempts(sig.attempts)] else []
  }

  function Clamp(x: int): nat {
    if x < 0 then 0 else if x > 1000 then 1000 else x
  }

  /** To hundredths; half-way cases do not arise (`NeverATie`). */
  function Rounded(x: nat): nat {
    (x + 5) / 10
  }

  function Raw(sig: Signals): int {
    Total(Factors(sig))
  }

  function Confidence(sig: Signals): nat {
    Rounded(Clamp(Raw(sig)))
  }

  function RiskClass(sig: Signals): Risk {
    if sig.tier3 == Some(false) then High
    else if !Small(sig) || !sig.unambiguous || (sig.tier2.None? && sig.schemaUnchanged == Some(false)) then High
    else if sig.tier1 && sig.tier2 == Some(true) && sig.schemaUnchanged == Some(true) && sig.attempts == 1 then Low
    else if sig.tier1 && sig.tier2 != Some(false) then Medium
    else High
  }

  function ScoreOf(sig: Signals): Score {
    Score(Confidence(sig), RiskClass(sig), Factors(sig))
  }

  lemma {:induction false} TotalFrom(fs: seq<Factor>, k: nat)
    requires k < |fs|
    ensures Total(fs[k..]) == Worth(fs[k]) + Total(fs[k + 1..])
  {
    assert fs[k..][1..] == fs[k + 1..];
  }

  /** What one signal earns, and the reason shown for it. */
  method Credit(passed: Option<bool>, signal: Signal) returns (points: nat, reason: Factor)
    ensures reason == Verdict(passed, signal) && points == Worth(reason)
  {
    if passed == Some(true) {
      points, reason := Weight(signal), Plus(signal);
    } else if passed.None? {
      points, reason := PartialCredit(signal), Undecided(signal);
    } else {
      points, reason := 0, Minus(signal);
    }
  }

  /** The rubric as it runs: confidence and reasons accumulate signal by signal. */
  method ComputeScore(sig: Signals) returns (s: Score)
    ensures s == ScoreOf(sig)
    ensures s.confidence == Rounded(Clamp(Total(s.factors)))
  {
    var p1, f1 := Credit(Some(sig.tier1), Compiled);
    var p2, f2 := Credit(sig.tier2, SampleRun);
    var p3, f3 := Credit(sig.tier3, ForkReplay);
    var p4, f4 := Credit(sig.schemaUnchanged, OutputSchema);
    var p5, f5 := Credit(Some(sig.changedLines <= 15 && sig.filesTouched <= 1), DiffSize);
    var p6, f6 := Credit(Some(sig.unambiguous), Drift);
    var conf := p1 + p2 + p3 + p4 + p5 + p6;
    var factors := [f1, f2, f3, f4, f5, f6];
    if sig.attempts > 1 {
      conf, factors := conf - 80 * (sig.attempts - 1), factors + [Attempts(sig.attempts)];
    }
    RawIs(sig);
    hide Total, Verdict, RiskClass, Weight, PartialCredit;
    s := Score(Rounded(Clamp(conf)), RiskClass(sig), factors);
  }

  // --- facts about the rubric ---

  lemma RawIs(sig: Signals)
    ensures Raw(sig)
         == Worth(Verdict(Some(sig.tier1), Compiled)) + Worth(Verdict(sig.tier2, SampleRun))
            + Worth(Verdict(sig.tier3, ForkReplay)) + Worth(Verdict(sig.schemaUnchanged, OutputSchema))
            + Worth(Verdict(Some(Small(sig)), DiffSize)) + Worth(Verdict(Some(sig.unambiguous), Drift))
            - (if sig.attempts > 1 then 80 * (sig.attempts - 1) else 0)
  {
    var f := Factors(sig);
    TotalFrom(f, 0); TotalFrom(f, 1); TotalFrom(f, 2); TotalFrom(f, 3); TotalFrom(f, 4); TotalFrom(f, 5);
    assert f[0..] == f;
    if sig.attempts > 1 { TotalFrom(f, 6); }
  }

  /** True is better than undetermined, which is better than false. */
  function Grade(v: Option<bool>): int {
    match v case Some(true) => 2 case None => 1 case Some(false) => 0
  }

  /** `worse` is nowhere better than `sig`. */
  predicate NowhereBetter(worse: Signals, sig: Signals) {
    && (worse.tier1 ==> sig.tier1)
    && Grade(worse.tier2) <= Grade(sig.tier2)
    && Grade(worse.tier3) <= Grade(sig.tier3)
    && Grade(worse.schemaUnchanged) <= Grade(sig.schemaUnchanged)
    && worse.changedLines >= sig.changedLines
    && worse.filesTouched >= sig.filesTouched
    && (worse.unambiguous ==> sig.unambiguous)
    && worse.attempts >= sig.attempts
  }

  function Severity(r: Risk): nat {
    match r case Low => 0 case Medium => 1 case High => 2
  }

  /** Worsening any signals never raises confidence and never lowers risk. */
  lemma ScoreIsMonotone(worse: Signals, sig: Signals)
    requires sig.attempts >= 1 && NowhereBetter(worse, sig)
    ensures Confidence(worse) <= Confidence(sig) <= 100
    ensures Severity(RiskClass(worse)) >= Severity(RiskClass(sig))
  {
    RawIs(worse);
    RawIs(sig);
  }

  /** Rounding never meets a half-way case: the last digit of the exact value is 0 or 6. */
  lemma NeverATie(sig: Signals)
    ensures Raw(sig) % 10 == if sig.tier2.None? then 6 else 0
  {
    RawIs(sig);
    hide Raw, Factors, Total;
    var tens := (if sig.tier1 then 22 else 0)
      + (match sig.tier2 case Some(true) => 19 case None => 7 case Some(false) => 0)
      + (match sig.tier3 case Some(true) => 25 case None => 10 case Some(false) => 0)
      + (if sig.schemaUnchanged == Some(true) then 15 else 0)
      + (if Small(sig) then 11 else 0) + (if sig.unambiguous then 8 else 0)
      - (if sig.attempts > 1 then 8 * (sig.attempts - 1) else 0);
    assert Raw(sig) == 10 * tens + if sig.tier2.None? then 6 else 0;
  }

  /** The rubric in numbers: what each signal is worth, in thousandths, and how much each further attempt costs. */
  lemma WorthInNumbers(sig: Signals)
    ensures Raw(sig)
         == (if sig.tier1 then 220 else 0)
            + (match sig.tier2 case Some(true) => 190 case None => 76 case Some(false) => 0)
            + (match sig.tier3 case Some(true) => 250 case None => 100 case Some(false) => 0)
            + (if sig.schemaUnchanged == Some(true) then 150 else 0)
            + (if sig.changedLines <= 15 && sig.filesTouched <= 1 then 110 else 0)
            + (if sig.unambiguous then 80 else 0)
            - (if sig.attempts > 1 then 80 * (sig.attempts - 1) else 0)
  {
    RawIs(sig);
    hide Raw, Factors, Total;
  }

  /** Confidence is that sum in hundredths, to the nearest one, within 0 and 100. */
  lemma ConfidenceIsNearest(sig: Signals)
    ensures Raw(sig) <= 0 ==> Confidence(sig) == 0
    ensures Raw(sig) >= 1000 ==> Confidence(sig) == 100
    ensures 0 <= Raw(sig) <= 1000 ==> 10 * Confidence(sig) - 5 < Raw(sig) < 10 * Confidence(sig) + 5
  {
    NeverATie(sig);
    hide Raw;
  }

  /** Low takes everything in order and a single attempt; one red flag makes high; the rest is medium. */
  lemma RiskIff(sig: Signals)
    ensures RiskClass(sig).High? <==>
              || !sig.tier1 || sig.tier2 == Some(false) || sig.tier3 == Some(false)
              || sig.changedLines > 15 || sig.filesTouched > 1 || !sig.unambiguous
              || (sig.tier2.None? && sig.schemaUnchanged == Some(false))
    ensures RiskClass(sig).Low? <==>
              && sig.tier1 && sig.tier2 == Some(true) && sig.tier3 != Some(false) && sig.schemaUnchanged == Some(true)
              && sig.changedLines <= 15 && sig.filesTouched <= 1 && sig.unambiguous && sig.attempts == 1
  {
  }

  /** Low risk means confidence 0.85, or 1.00 after a passed fork-replay; 1.00 means low risk. */
  lemma LowRiskConfidence(sig: Signals)
    requires sig.attempts >= 1
    ensures RiskClass(sig).Low? ==> Confidence(sig) == if sig.tier3 == Some(true) then 100 else 85
    ensures Confidence(sig) == 100 ==> RiskClass(sig).Low?
  {
    RawIs(sig);
  }
}
