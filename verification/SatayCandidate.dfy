/** One candidate as a durable workflow: the repair loop cut at its journalled calls. */
module SatayCandidate {
  import opened Basics
  import opened Diffing
  import opened AgentTools
  import opened History
  import opened CompileGate
  import opened RepairLoop
  import opened RunJournal

  datatype Phase =
    | Asking
    | Running(rest: seq<ToolCall>, results: seq<Block>)
    | Verifying(diff: string, explanation: string)
    | Done(result: Result)
    | Raised

  /** A drive of one run. `asked` counts the provider's own calls, `effects` lists the calls really made. */
  datatype Cand = Cand(
    phase: Phase,
    turns: nat,
    messages: seq<Message>,
    lastText: string,
    edits: nat,
    dispatched: nat,
    ctx: Ctx,
    asked: nat,
    journal: seq<Event>,
    effects: seq<Effect>)

  function Start(job: Job, ctx: Ctx, journal: seq<Event>): Cand {
    Cand(Asking, 0, [User([Text(job.prompt)])], "", 0, 0, ctx, 0, journal, [])
  }

  // --- the durable calls: a hit returns what was recorded, a miss runs the body and records it ---

  function CompleteCall(provider: Provider, c: Cand): (Cand, Option<Turn>) {
    match Recorded(c.journal, CompleteTask, c.turns)
    case Some(TurnOut(turn)) => (c.(turns := c.turns + 1), Some(turn))
    case Some(_) => (c, None)
    case None =>
      var scheduled := Scheduled(CompleteTask, c.turns, None);
      var c' := c.(turns := c.turns + 1, asked := c.asked + 1, effects := c.effects + [Completion(c.messages)]);
      match provider(c.asked, c.messages)
      case None => (c'.(journal := c.journal + [scheduled, Failed(CompleteTask, c.turns)]), None)
      case Some(turn) => (c'.(journal := c.journal + [scheduled, Completed(CompleteTask, c.turns, TurnOut(turn))]), Some(turn))
  }

  function DispatchCall(env: Env, c: Cand, call: ToolCall): (Cand, Option<Reply>) {
    match Recorded(c.journal, DispatchTask, c.dispatched)
    case Some(ReplyOut(reply)) => (c.(dispatched := c.dispatched + 1), Some(reply))
    case Some(_) => (c, None)
    case None =>
      var (ctx, reply) := Dispatch(env, c.ctx, call);
      (c.(dispatched := c.dispatched + 1, ctx := ctx, effects := c.effects + [Tool(call)],
          journal := c.journal + [Scheduled(DispatchTask, c.dispatched, Some(call)),
                                  Completed(DispatchTask, c.dispatched, ReplyOut(reply))]),
       Some(reply))
  }

  function VerifyCall(env: Env, c: Cand): (Cand, Option<Run>)
    requires env.sandbox.Some?
  {
    match Recorded(c.journal, VerifyTask, 0)
    case Some(RunOut(run)) => (c, Some(run))
    case Some(_) => (c, None)
    case None =>
      var select := env.modelSelect.GetOr("");
      var scheduled := Scheduled(VerifyTask, 0, None);
      var (ctx, run) := VerifyCurrent(env, c.ctx, select);
      var c' := c.(ctx := ctx, effects := c.effects + [Verification(select)]);
      match run
      case None => (c'.(journal := c.journal + [scheduled, Failed(VerifyTask, 0)]), None)
      case Some(r) => (c'.(journal := c.journal + [scheduled, Completed(VerifyTask, 0, RunOut(r))]), run)
  }

  // --- the code between them ---

  function PhaseOf(standing: Standing): Phase {
    match standing
    case Settled(result) => Done(result)
    case Unverified(diff, explanation) => Verifying(diff, explanation)
  }

  /** After the last turn: the prod-action check and the gate's start. */
  function Drafted(job: Job, c: Cand): Cand {
    c.(phase := PhaseOf(Conclude(job, c.ctx, c.lastText, c.edits)))
  }

  const SUBSTITUTED := "Re-verified a substituted fix against the recorded schema snapshot (KAN-650 fork-replay tier-3)."
  const SAME_CONTENT := "The substituted fix (override_diff) produced no changes against the recorded original content."

  /** The substituted contents, path by path; false when an unread file cannot be read. */
  function Substituted(env: Env, copy: Dict, contents: seq<(string, string)>): (Dict, bool)
    decreases |contents|
  {
    if contents == [] then (copy, true)
    else
      var (path, text) := contents[0];
      if path in copy.files then Substituted(env, WithCurrent(copy, path, text), contents[1..])
      else
        match env.source(path)
        case Found(original) => Substituted(env, WithCurrent(Loaded(copy, path, original), path, text), contents[1..])
        case _ => (copy, false)
  }

  /** The fork's tail: the substituted fix in place of further drafting. */
  function TakeOver(job: Job, c: Cand, contents: seq<(string, string)>): Cand {
    var (copy, ok) := Substituted(job.env, c.ctx.copy, contents);
    var ctx := c.ctx.(copy := copy);
    var diff := FullDiff(job.env.differ, copy);
    c.(ctx := ctx,
       phase := if !ok then Raised
                else if diff == "" then Done(Result(NoFix, None, SAME_CONTENT, None, None))
                else PhaseOf(StandingOf(job, ctx, diff, SUBSTITUTED, c.edits)))
  }

  // --- one step: a durable call and the code up to the next one ---

  function Ask(job: Job, provider: Provider, p: Payload, c: Cand): Cand {
    if c.turns >= p.maxTurns then Drafted(job, c)
    else
      match CompleteCall(provider, c)
      case (c', None) => c'.(phase := Raised)
      case (c', Some(turn)) =>
        var heard := c'.(messages := c.messages + [TurnMessage(turn)],
                         lastText := if turn.text != "" then turn.text else c.lastText);
        if turn.calls == [] then Drafted(job, heard) else heard.(phase := Running(turn.calls, []))
  }

  predicate TakesOver(p: Payload, ordinal: nat) {
    p.substitute.Some? && p.substitute.value.after == ordinal
  }

  function CallNext(job: Job, p: Payload, c: Cand): Cand
    requires c.phase.Running?
  {
    if c.phase.rest == [] then c.(phase := Asking, messages := c.messages + [User(c.phase.results)])
    else
      var call := c.phase.rest[0];
      var counted := c.(edits := if call.name == "edit_file" then c.edits + 1 else c.edits);
      match DispatchCall(job.env, counted, call)
      case (c', None) => c'.(phase := Raised)
      case (c', Some(reply)) =>
        var called := c'.(phase := Running(c.phase.rest[1..], c.phase.results + [ToolResult(call.id, reply)]));
        if TakesOver(p, c.dispatched) then TakeOver(job, called, p.substitute.value.contents) else called
  }

  function VerifyNext(job: Job, c: Cand): Cand
    requires c.phase.Verifying?
  {
    if job.env.sandbox.None? then c.(phase := Raised)
    else
      match VerifyCall(job.env, c)
      case (c', None) => c'.(phase := Raised)
      case (c', Some(run)) => c'.(phase := Done(Gate(job, c'.ctx.copy, run, c.phase.diff, c.phase.explanation, c.edits)))
  }

  predicate Over(c: Cand) {
    c.phase.Done? || c.phase.Raised?
  }

  function Step(job: Job, provider: Provider, p: Payload, c: Cand): Cand {
    match c.phase
    case Asking => Ask(job, provider, p, c)
    case Running(_, _) => CallNext(job, p, c)
    case Verifying(_, _) => VerifyNext(job, c)
    case _ => c
  }

  function TurnsLeft(p: Payload, c: Cand): nat {
    if c.turns < p.maxTurns then p.maxTurns - c.turns else 0
  }

  function Rank(c: Cand): nat {
    match c.phase
    case Running(rest, _) => 3 + |rest|
    case Asking => 2
    case Verifying(_, _) => 1
    case _ => 0
  }

  lemma StepProgress(job: Job, provider: Provider, p: Payload, c: Cand)
    requires !Over(c)
    ensures var c' := Step(job, provider, p, c);
            TurnsLeft(p, c') < TurnsLeft(p, c) || (TurnsLeft(p, c') == TurnsLeft(p, c) && Rank(c') < Rank(c))
  {
    hide Gate, Conclude, StandingOf, Substituted, Dispatch, VerifyCurrent, TurnMessage, Recorded, FullDiff;
  }

  /** The drive to its end. */
  function Drive(job: Job, provider: Provider, p: Payload, c: Cand): Cand
    decreases TurnsLeft(p, c), Rank(c)
  {
    if Over(c) then c
    else
      StepProgress(job, provider, p, c);
      Drive(job, provider, p, Step(job, provider, p, c))
  }
}
