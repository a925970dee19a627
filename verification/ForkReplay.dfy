/** A fork cut at the located `get_schema` call replays from the recording and only then does new work. */
module ForkReplay {
  import opened Basics
  import opened Diffing
  import opened AgentTools
  import opened History
  import opened CompileGate
  import Scoring
  import opened RepairLoop
  import opened RunJournal
  import opened SatayCandidate
  import opened SatayPort

  // --- the source run ---

  lemma StepGrows(job: Job, provider: Provider, p: Payload, c: Cand)
    ensures c.journal <= Step(job, provider, p, c).journal
  {
    hide Gate, Conclude, StandingOf, Substituted, Dispatch, VerifyCurrent, TurnMessage, Recorded, FullDiff;
  }

  lemma {:induction false} DriveGrows(job: Job, provider: Provider, p: Payload, c: Cand)
    ensures c.journal <= Drive(job, provider, p, c).journal
    decreases TurnsLeft(p, c), Rank(c)
  {
    hide Step;
    if !Over(c) {
      StepProgress(job, provider, p, c);
      StepGrows(job, provider, p, c);
      DriveGrows(job, provider, p, Step(job, provider, p, c));
    }
  }

  predicate NoneFrom(j: seq<Event>, n: nat, ordinal: nat) {
    forall i | n <= i < |j| :: !Records(j[i], DispatchTask, ordinal)
  }

  /** Once drafting is over, no tool call is recorded any more. */
  lemma {:induction false} NoCallsAfterDrafting(job: Job, provider: Provider, p: Payload, c: Cand, ordinal: nat)
    requires !c.phase.Asking? && !c.phase.Running?
    ensures NoneFrom(Drive(job, provider, p, c).journal, |c.journal|, ordinal)
  {
    hide Gate, VerifyCurrent, Recorded;
    if c.phase.Verifying? {
      var v := Step(job, provider, p, c);
      assert Drive(job, provider, p, c) == v;
    }
  }

  /** The loop's variables at a point of a source run. */
  function StateOf(c: Cand): State {
    State(c.messages, c.lastText, c.edits, c.ctx, [], c.effects)
  }

  /** The turn a source run is about to hear, and where hearing it leads. */
  function HeardBy(provider: Provider, c: Cand, turn: Turn): Cand {
    CompleteCall(provider, c).0.(
      messages := c.messages + [TurnMessage(turn)],
      lastText := if turn.text != "" then turn.text else c.lastText)
  }

  lemma SourceAsks(job: Job, provider: Provider, p: Payload, c: Cand)
    requires p.substitute.None? && c.phase.Asking? && Fresh(c) && c.turns < p.maxTurns
    requires provider(c.turns, c.messages).Some?
    ensures var turn := provider(c.turns, c.messages).value;
            var c' := HeardBy(provider, c, turn);
            && Fresh(c') && Fresh(c'.(phase := Running(turn.calls, []))) && c'.turns == c.turns + 1
            && c'.dispatched == c.dispatched && c'.edits == c.edits
            && Recorded(c'.journal, CompleteTask, c.turns) == Some(TurnOut(turn))
            && c'.journal == c.journal + [Scheduled(CompleteTask, c.turns, None), Completed(CompleteTask, c.turns, TurnOut(turn))]
            && Step(job, provider, p, c) == if turn.calls == [] then Drafted(job, c') else c'.(phase := Running(turn.calls, []))
  {
    AskSame(job, provider, p, c, StateOf(c));
    FreshMisses(c);
    var turn := provider(c.turns, c.messages).value;
    var c' := HeardBy(provider, c, turn);
    RunningSame(c', StateOf(c'), turn.calls);
    hide Fresh, Drafted;
    RecordedNow(c.journal, CompleteTask, c.turns, None, TurnOut(turn));
  }

  lemma {:induction false} RecordedNow(j: seq<Event>, task: Task, ordinal: nat, call: Option<ToolCall>, out: Output)
    requires Recorded(j, task, ordinal).None?
    ensures Recorded(j + [Scheduled(task, ordinal, call), Completed(task, ordinal, out)], task, ordinal) == Some(out)
  {
    var (s, d) := (Scheduled(task, ordinal, call), Completed(task, ordinal, out));
    var j' := j + [s, d];
    assert j'[..|j'| - 1] == j + [s];
    assert (j + [s])[..|j + [s]| - 1] == j;
  }

  lemma SourceCalls(job: Job, provider: Provider, p: Payload, c: Cand)
    requires p.substitute.None? && c.phase.Running? && c.phase.rest != [] && Fresh(c)
    ensures var (call, c') := (c.phase.rest[0], Step(job, provider, p, c));
            var reply := Dispatch(job.env, c.ctx, call).1;
            && Fresh(c') && c'.turns == c.turns && c'.dispatched == c.dispatched + 1
            && c'.messages == c.messages && c'.lastText == c.lastText
            && c'.edits == (if call.name == "edit_file" then c.edits + 1 else c.edits)
            && c'.phase == Running(c.phase.rest[1..], c.phase.results + [ToolResult(call.id, reply)])
            && Recorded(c'.journal, DispatchTask, c.dispatched) == Some(ReplyOut(reply))
            && c'.journal == c.journal + [Scheduled(DispatchTask, c.dispatched, Some(call)),
                                          Completed(DispatchTask, c.dispatched, ReplyOut(reply))]
  {
    CallSame(job, provider, p, c, StateOf(c));
    FreshMisses(c);
    var call := c.phase.rest[0];
    hide Fresh, Dispatch;
    RecordedNow(c.journal, DispatchTask, c.dispatched, Some(call), ReplyOut(Dispatch(job.env, c.ctx, call).1));
  }

  /** A tool call is recorded once: none of the ordinals behind comes again. */
  lemma {:induction false} OrdinalsPass(job: Job, provider: Provider, p: Payload, c: Cand, ordinal: nat)
    requires p.substitute.None? && Fresh(c) && ordinal < c.dispatched
    ensures NoneFrom(Drive(job, provider, p, c).journal, |c.journal|, ordinal)
    decreases TurnsLeft(p, c), Rank(c)
  {
    hide CompleteCall, Recorded, Drafted, Dispatch, Fresh;
    if c.phase.Running? {
      var c' := Step(job, provider, p, c);
      StepProgress(job, provider, p, c);
      if c.phase.rest != [] {
        SourceCalls(job, provider, p, c);
      } else {
        FreshIgnores(c, c');
      }
      OrdinalsPass(job, provider, p, c', ordinal);
      AfterStep(job, provider, p, c, ordinal);
    } else if c.phase.Asking? && c.turns < p.maxTurns && provider(c.turns, c.messages).Some? {
      SourceAsks(job, provider, p, c);
      var turn := provider(c.turns, c.messages).value;
      if turn.calls != [] {
        StepProgress(job, provider, p, c);
        OrdinalsPass(job, provider, p, Step(job, provider, p, c), ordinal);
      } else {
        DraftedPhase(job, HeardBy(provider, c, turn));
        NoCallsAfterDrafting(job, provider, p, Step(job, provider, p, c), ordinal);
      }
      AfterStep(job, provider, p, c, ordinal);
    } else if c.phase.Asking? {
      LastStep(job, provider, p, c);
      NoCallsAfterDrafting(job, provider, p, Step(job, provider, p, c), ordinal);
      AfterStep(job, provider, p, c, ordinal);
    } else {
      NoCallsAfterDrafting(job, provider, p, c, ordinal);
    }
  }

  lemma DraftedPhase(job: Job, c: Cand)
    ensures !Drafted(job, c).phase.Asking? && !Drafted(job, c).phase.Running? && Drafted(job, c).journal == c.journal
  {
    hide Conclude;
  }

  /** A step that hears no turn is the last of the drafting. */
  lemma LastStep(job: Job, provider: Provider, p: Payload, c: Cand)
    requires c.phase.Asking? && Fresh(c) && (c.turns >= p.maxTurns || provider(c.turns, c.messages).None?)
    ensures var c' := Step(job, provider, p, c);
            && !c'.phase.Asking? && !c'.phase.Running? && |c.journal| <= |c'.journal|
            && forall i | |c.journal| <= i < |c'.journal| :: !c'.journal[i].Completed?
  {
    FreshMisses(c);
    hide Conclude, Recorded;
  }

  lemma {:induction false} AfterStep(job: Job, provider: Provider, p: Payload, c: Cand, ordinal: nat)
    requires !Over(c)
    requires var c' := Step(job, provider, p, c);
             && NoneFrom(Drive(job, provider, p, c').journal, |c'.journal|, ordinal)
             && NoneFrom(c'.journal, |c.journal|, ordinal)
    ensures NoneFrom(Drive(job, provider, p, c).journal, |c.journal|, ordinal)
  {
    var c' := Step(job, provider, p, c);
    DriveGrows(job, provider, p, c');
    hide Step;
    var j := Drive(job, provider, p, c).journal;
    forall i | |c.journal| <= i < |j| ensures !Records(j[i], DispatchTask, ordinal) {
      if i < |c'.journal| { assert j[i] == c'.journal[i]; }
    }
  }

  // --- the fork ---

  /** The fork stands where the source stood, and has called nothing so far. */
  predicate Shadows(b: Cand, a: Cand) {
    && b.phase == a.phase && b.turns == a.turns && b.messages == a.messages && b.lastText == a.lastText
    && b.dispatched == a.dispatched && b.edits == a.edits == 0 && b.effects == [] && b.asked == 0
  }

  /** The source's journal at its end, and where the fork cuts it. */
  ghost predicate Cut(j: seq<Event>, at: nat, ordinal: nat) {
    && 0 < at < |j| && j[0].Created? && Records(j[at], DispatchTask, ordinal) && BeforeEdits(j, ordinal)
  }

  /** What the source had recorded by this point, the fork finds. */
  lemma {:induction false} ForkHits(j: seq<Event>, at: nat, p: Payload, past: seq<Event>, task: Task, ordinal: nat)
    requires 0 < at < |j| && j[0].Created? && past <= j && |past| <= at + 1
    requires Recorded(past, task, ordinal).Some?
    ensures Recorded(ForkOf(j, at, p), task, ordinal) == Recorded(past, task, ordinal)
  {
    ForkRecords(j, at, p, task, ordinal);
    assert j[..at + 1] == past + j[|past|..at + 1];
    RecordedStays(past, j[|past|..at + 1], task, ordinal);
  }

  lemma {:induction false} SomeFirstEdit(j: seq<Event>, n: nat) returns (i: nat)
    requires n < |j| && SchedulesTool(j[n], "edit_file")
    ensures i <= n && SchedulesTool(j[i], "edit_file") && FirstEdit(j, j[i].ordinal)
  {
    if k: nat :| k < n && SchedulesTool(j[k], "edit_file") {
      i := SomeFirstEdit(j, k);
    } else {
      i := n;
      assert Schedules(j[i], "edit_file", j[i].ordinal);
    }
  }

  /** Up to the fork point no call is an edit. */
  lemma NotAnEdit(j: seq<Event>, ordinal: nat, c: Cand, call: ToolCall)
    requires BeforeEdits(j, ordinal) && Fresh(c) && c.journal < j && c.dispatched <= ordinal
    requires j[|c.journal|] == Scheduled(DispatchTask, c.dispatched, Some(call))
    ensures call.name != "edit_file"
  {
    assert forall i | 0 <= i < |c.journal| :: j[i] == c.journal[i] && Earlier(c, c.journal[i]);
    if call.name == "edit_file" {
      var i := SomeFirstEdit(j, |c.journal|);
    }
  }

  /** The source's next call is recorded before the cut, or is the call at the cut. */
  lemma CallComesFirst(j: seq<Event>, at: nat, ordinal: nat, past: seq<Event>, task: Task, n: nat, call: Option<ToolCall>, out: Output)
    requires Cut(j, at, ordinal) && |past| <= at
    requires past + [Scheduled(task, n, call), Completed(task, n, out)] <= j
    ensures |past| + 1 <= at && j[|past|] == Scheduled(task, n, call)
    ensures (task != DispatchTask || n != ordinal) ==> |past| + 2 <= at
  {
    var past' := past + [Scheduled(task, n, call), Completed(task, n, out)];
    assert j[|past|] == past'[|past|] && j[|past| + 1] == past'[|past| + 1];
  }

  lemma ForkCalls(job: Job, p: Payload, b: Cand, reply: Reply)
    requires b.phase.Running? && b.phase.rest != [] && b.phase.rest[0].name != "edit_file"
    requires Recorded(b.journal, DispatchTask, b.dispatched) == Some(ReplyOut(reply))
    ensures var b' := b.(dispatched := b.dispatched + 1,
                         phase := Running(b.phase.rest[1..], b.phase.results + [ToolResult(b.phase.rest[0].id, reply)]));
            CallNext(job, p, b) == if TakesOver(p, b.dispatched) then TakeOver(job, b', p.substitute.value.contents) else b'
  {
    hide TakeOver, Recorded;
  }

  /** Before the cut the source always hears another turn with calls. */
  lemma {:induction false} KeepsCalling(job: Job, provider: Provider, p: Payload, a: Cand, at: nat, ordinal: nat)
    requires p.substitute.None? && Fresh(a) && a.phase.Asking? && |a.journal| <= at
    requires Cut(Drive(job, provider, p, a).journal, at, ordinal)
    ensures a.turns < p.maxTurns
    ensures provider(a.turns, a.messages).Some? && provider(a.turns, a.messages).value.calls != []
  {
    hide Recorded, Drafted, Fresh, CompleteCall;
    var a' := Step(job, provider, p, a);
    if a.turns >= p.maxTurns || provider(a.turns, a.messages).None? {
      LastStep(job, provider, p, a);
      NoCallsAfterDrafting(job, provider, p, a', ordinal);
      AfterStep(job, provider, p, a, ordinal);
    } else if provider(a.turns, a.messages).value.calls == [] {
      SourceAsks(job, provider, p, a);
      DraftedPhase(job, HeardBy(provider, a, provider(a.turns, a.messages).value));
      NoCallsAfterDrafting(job, provider, p, a', ordinal);
      AfterStep(job, provider, p, a, ordinal);
    }
  }

  lemma ForkHears(job: Job, provider: Provider, p: Payload, b: Cand, turn: Turn)
    requires b.phase.Asking? && b.turns < p.maxTurns && turn.calls != []
    requires Recorded(b.journal, CompleteTask, b.turns) == Some(TurnOut(turn))
    ensures Step(job, provider, p, b)
         == b.(turns := b.turns + 1, messages := b.messages + [TurnMessage(turn)], phase := Running(turn.calls, []),
               lastText := if turn.text != "" then turn.text else b.lastText)
  {
    hide Recorded, TurnMessage;
  }

  lemma {:induction false} FollowsAsking(
    job: Job, provider: Provider, p: Payload, a: Cand,
    job': Job, provider': Provider, p': Payload, b: Cand, at: nat)
    returns (last: Cand, m: Cand)
    requires p.substitute.None? && p'.substitute.Some? && p'.maxTurns == p.maxTurns
    requires Fresh(a) && Shadows(b, a) && a.phase.Asking?
    requires a.dispatched <= p'.substitute.value.after && |a.journal| <= at
    requires Cut(Drive(job, provider, p, a).journal, at, p'.substitute.value.after)
    requires b.journal == ForkOf(Drive(job, provider, p, a).journal, at, p')
    ensures Fresh(last) && last.dispatched == p'.substitute.value.after + 1
    ensures Drive(job, provider, p, last) == Drive(job, provider, p, a) && |last.journal| <= at + 1
    ensures Shadows(m, last) && m.ctx == b.ctx && m.journal == b.journal
    ensures Drive(job', provider', p', b) == Drive(job', provider', p', TakeOver(job', m, p'.substitute.value.contents))
    decreases TurnsLeft(p, a), Rank(a), 0
  {
    var (o, j, a') := (p'.substitute.value.after, Drive(job, provider, p, a).journal, Step(job, provider, p, a));
    KeepsCalling(job, provider, p, a, at, o);
    SourceAsks(job, provider, p, a);
    StepProgress(job, provider, p, a);
    StepProgress(job', provider', p', b);
    DriveGrows(job, provider, p, a');
    CutFacts(j, at, o);
    var turn := provider(a.turns, a.messages).value;
    hide Recorded, Drafted, TakeOver, Cut, ForkOf, CompleteCall, TurnMessage, Step, Fresh;
    CallComesFirst(j, at, o, a.journal, CompleteTask, a.turns, None, TurnOut(turn));
    ForkHits(j, at, p', a'.journal, CompleteTask, a.turns);
    ForkHears(job', provider', p', b, turn);
    last, m := Follows(job, provider, p, a', job', provider', p', Step(job', provider', p', b), at);
  }

  /** From matching points before the cut, the fork follows the recording to it without a single live call. */
  lemma {:induction false} Follows(
    job: Job, provider: Provider, p: Payload, a: Cand,
    job': Job, provider': Provider, p': Payload, b: Cand, at: nat)
    returns (last: Cand, m: Cand)
    requires p.substitute.None? && p'.substitute.Some? && p'.maxTurns == p.maxTurns
    requires Fresh(a) && Shadows(b, a) && (a.phase.Asking? || a.phase.Running?)
    requires a.dispatched <= p'.substitute.value.after && |a.journal| <= at
    requires Cut(Drive(job, provider, p, a).journal, at, p'.substitute.value.after)
    requires b.journal == ForkOf(Drive(job, provider, p, a).journal, at, p')
    ensures Fresh(last) && last.dispatched == p'.substitute.value.after + 1
    ensures Drive(job, provider, p, last) == Drive(job, provider, p, a) && |last.journal| <= at + 1
    ensures Shadows(m, last) && m.ctx == b.ctx && m.journal == b.journal
    ensures Drive(job', provider', p', b) == Drive(job', provider', p', TakeOver(job', m, p'.substitute.value.contents))
    decreases TurnsLeft(p, a), Rank(a), 1
  {
    last, m := a, b;
    var (o, j, a') := (p'.substitute.value.after, Drive(job, provider, p, a).journal, Step(job, provider, p, a));
    StepProgress(job, provider, p, a);
    StepProgress(job', provider', p', b);
    DriveGrows(job, provider, p, a');
    hide Recorded, Drafted, Dispatch, TakeOver, Cut, ForkOf, CompleteCall, DispatchCall, StandingOf, Conclude, TurnMessage;
    if a.phase.Running? {
      if a.phase.rest == [] {
        FreshIgnores(a, a');
        last, m := Follows(job, provider, p, a', job', provider', p', Step(job', provider', p', b), at);
      } else {
        SourceCalls(job, provider, p, a);
        var call := a.phase.rest[0];
        var reply := Dispatch(job.env, a.ctx, call).1;
        CallComesFirst(j, at, o, a.journal, DispatchTask, a.dispatched, Some(call), ReplyOut(reply));
        CutFacts(j, at, o);
        NotAnEdit(j, o, a, call);
        ForkHits(j, at, p', a'.journal, DispatchTask, a.dispatched);
        ForkCalls(job', p', b, reply);
        if a.dispatched == o {
          last := a';
          m := b.(dispatched := b.dispatched + 1,
                  phase := Running(b.phase.rest[1..], b.phase.results + [ToolResult(call.id, reply)]));
        } else {
          last, m := Follows(job, provider, p, a', job', provider', p', Step(job', provider', p', b), at);
        }
      }
    } else {
      last, m := FollowsAsking(job, provider, p, a, job', provider', p', b, at);
    }
  }

  lemma CutFacts(j: seq<Event>, at: nat, ordinal: nat)
    requires Cut(j, at, ordinal)
    ensures 0 < at < |j| && j[0].Created? && BeforeEdits(j, ordinal)
  {
  }

  // --- the theorem ---

  /** A run of `_repair_workflow` or `_candidate_workflow` on its own new journal, to its end. */
  function SourceRun(job: Job, provider: Provider, max: nat, ctx: Ctx): Cand {
    var p := Payload(max, None);
    Drive(job, provider, p, Start(job, ctx, [Created(p)]))
  }

  function ForkPayload(max: nat, fp: ForkPoint, contents: seq<(string, string)>): Payload {
    Payload(max, Some(Override(contents, fp.ordinal)))
  }

  lemma LocatedIsCut(job: Job, provider: Provider, max: nat, ctx: Ctx, fp: ForkPoint)
    requires Located(SourceRun(job, provider, max, ctx).journal, fp)
    ensures Cut(SourceRun(job, provider, max, ctx).journal, fp.eventSeq, fp.ordinal)
  {
    var p := Payload(max, None);
    DriveGrows(job, provider, p, Start(job, ctx, [Created(p)]));
    hide Drive;
    assert SourceRun(job, provider, max, ctx).journal[0] == [Created(p)][0];
  }

  /** The state at which the fork leaves the recording; it has called nothing and edited nothing. */
  lemma ForkReachesTheCut(
    job: Job, provider: Provider, max: nat, ctx: Ctx, fp: ForkPoint,
    job': Job, provider': Provider, ctx': Ctx, contents: seq<(string, string)>)
    returns (m: Cand)
    requires job'.prompt == job.prompt
    requires Located(SourceRun(job, provider, max, ctx).journal, fp)
    ensures var j := SourceRun(job, provider, max, ctx).journal;
            var p' := ForkPayload(max, fp, contents);
            && 0 < fp.eventSeq < |j|
            && Drive(job', provider', p', Start(job', ctx', ForkOf(j, fp.eventSeq, p')))
               == Drive(job', provider', p', TakeOver(job', m, contents))
            && m.journal == ForkOf(j, fp.eventSeq, p')
            && m.ctx == ctx' && m.dispatched == fp.ordinal + 1 && m.edits == 0 && m.effects == [] && m.asked == 0
            && Recorded(m.journal, VerifyTask, 0).None?
  {
    var p := Payload(max, None);
    var a := Start(job, ctx, [Created(p)]);
    var j := SourceRun(job, provider, max, ctx).journal;
    var p' := ForkPayload(max, fp, contents);
    LocatedIsCut(job, provider, max, ctx, fp);
    assert Earlier(a, a.journal[0]);
    var b := Start(job', ctx', ForkOf(j, fp.eventSeq, p'));
    hide Drive, Located, ForkOf, Recorded, TakeOver;
    var last;
    last, m := Follows(job, provider, p, a, job', provider', p', b, fp.eventSeq);
    OrdinalsPass(job, provider, p, last, fp.ordinal);
    DriveGrows(job, provider, p, last);
    NoVerifyYet(j, fp.eventSeq, p', last, fp.ordinal);
  }

  /** The fork's journal holds no sandbox verification yet. */
  lemma NoVerifyYet(j: seq<Event>, at: nat, p: Payload, last: Cand, ordinal: nat)
    requires Cut(j, at, ordinal) && Fresh(last) && last.journal <= j && |last.journal| <= at + 1
    requires NoneFrom(j, |last.journal|, ordinal)
    ensures Recorded(ForkOf(j, at, p), VerifyTask, 0).None?
  {
    assert |last.journal| == at + 1;
    assert j[..at + 1] == last.journal;
    FreshMisses(last);
    ForkRecords(j, at, p, VerifyTask, 0);
  }

  /** A drive past its drafting makes one sandbox verification at most. */
  lemma {:induction false} TailOnlyVerifies(job: Job, provider: Provider, p: Payload, c: Cand)
    requires !c.phase.Asking? && !c.phase.Running? && c.effects == [] && Recorded(c.journal, VerifyTask, 0).None?
    ensures var end := Drive(job, provider, p, c);
            && (end.effects == [] || end.effects == [Verification(job.env.modelSelect.GetOr(""))])
            && (c.phase.Verifying? && job.env.sandbox.Some? ==>
                  && end.effects != []
                  && var (ctx', run) := VerifyCurrent(job.env, c.ctx, job.env.modelSelect.GetOr(""));
                     && end.ctx == ctx'
                     && end.phase == (if run.None? then Raised
                          else Done(Gate(job, ctx'.copy, run.value, c.phase.diff, c.phase.explanation, c.edits))))
  {
    hide Gate, VerifyCurrent, Recorded;
    if c.phase.Verifying? {
      var v := Step(job, provider, p, c);
      assert Drive(job, provider, p, c) == v;
    }
  }

  /**
   Fork-replay never leaves the recording. For every finished run with a located fork point, driving
   it again from the inclusive prefix, with any provider, any tools and a new context, calls neither
   the provider nor a tool: the fork's only outside call is the verification of the substituted fix.
   On a context that has cached no sandbox run, the outcome is that of verifying the substituted fix.
   */
  lemma {:induction false} ForkStaysInRecording(
    job: Job, provider: Provider, max: nat, ctx: Ctx, fp: ForkPoint,
    job': Job, provider': Provider, ctx': Ctx, contents: seq<(string, string)>)
    requires job'.prompt == job.prompt
    requires Located(SourceRun(job, provider, max, ctx).journal, fp)
    ensures var j := SourceRun(job, provider, max, ctx).journal;
            var p' := ForkPayload(max, fp, contents);
            && 0 < fp.eventSeq < |j|
            && var end := Drive(job', provider', p', Start(job', ctx', ForkOf(j, fp.eventSeq, p')));
               && end.asked == 0 && end.dispatched == fp.ordinal + 1 && end.edits == 0
               && (end.effects == [] || end.effects == [Verification(job'.env.modelSelect.GetOr(""))])
               && (ctx'.lastRun.None? ==> end.phase == ForkOutcome(job', ctx', contents))
  {
    var m := ForkReachesTheCut(job, provider, max, ctx, fp, job', provider', ctx', contents);
    var p' := ForkPayload(max, fp, contents);
    var t := TakeOver(job', m, contents);
    TakeOverKeeps(job', m, contents);
    if ctx'.lastRun.None? { TakeOverFacts(job', m, contents); }
    hide Recorded, TakeOver, Located, SourceRun, ForkOf, Gate, VerifyCurrent, FullDiff, StandingOf;
    TailOnlyVerifies(job', provider', p', t);
    TailKeeps(job', provider', p', t);
  }

  lemma {:induction false} TailKeeps(job: Job, provider: Provider, p: Payload, c: Cand)
    requires !c.phase.Asking? && !c.phase.Running?
    ensures var end := Drive(job, provider, p, c);
            end.asked == c.asked && end.dispatched == c.dispatched && end.edits == c.edits
    ensures !c.phase.Verifying? ==> Drive(job, provider, p, c) == c
  {
    hide Gate, VerifyCurrent, Recorded;
    if c.phase.Verifying? { assert Drive(job, provider, p, c) == Step(job, provider, p, c); }
  }

  /** What re-verifying a substituted fix on a new context comes to. */
  function ForkOutcome(job: Job, ctx: Ctx, contents: seq<(string, string)>): Phase {
    var (copy, ok) := Substituted(job.env, ctx.copy, contents);
    var diff := FullDiff(job.env.differ, copy);
    if !ok then Raised
    else if diff == "" then Done(Result(NoFix, None, SAME_CONTENT, None, None))
    else if job.env.sandbox.None? then Done(Result(PrProposed, Some(diff), SUBSTITUTED, None, None))
    else
      match VerifyCurrent(job.env, ctx.(copy := copy), job.env.modelSelect.GetOr("")).1
      case None => Raised
      case Some(run) => Done(Gate(job, copy, run, diff, SUBSTITUTED, 0))
  }

  lemma TakeOverKeeps(job: Job, m: Cand, contents: seq<(string, string)>)
    ensures var t := TakeOver(job, m, contents);
            && t.journal == m.journal && t.effects == m.effects && t.asked == m.asked
            && t.dispatched == m.dispatched && t.edits == m.edits && !t.phase.Asking? && !t.phase.Running?
  {
    hide FullDiff, StandingOf, Substituted;
  }

  lemma {:induction false} TakeOverFacts(job: Job, m: Cand, contents: seq<(string, string)>)
    requires m.ctx.lastRun.None? && m.edits == 0
    ensures var (t, (copy, ok)) := (TakeOver(job, m, contents), Substituted(job.env, m.ctx.copy, contents));
            var diff := FullDiff(job.env.differ, copy);
            && t.journal == m.journal && t.effects == m.effects && t.asked == m.asked
            && t.dispatched == m.dispatched && t.edits == 0 && !t.phase.Asking? && !t.phase.Running?
            && t.ctx == m.ctx.(copy := copy)
            && t.phase == (if !ok then Raised
                           else if diff == "" then Done(Result(NoFix, None, SAME_CONTENT, None, None))
                           else if job.env.sandbox.None? then Done(Result(PrProposed, Some(diff), SUBSTITUTED, None, None))
                           else Verifying(diff, SUBSTITUTED))
  {
    hide FullDiff, Gate, Substituted;
  }

  // --- the tier-3 verdict ---

  /** `_tier3_passed_from_result` */
  function Tier3Passed(r: Result): Option<bool> {
    if r.outcome.PrProposed? then if r.evidence.Some? then Some(true) else None
    else if r.outcome.NoFix? && r.evidence.Some? then Some(false)
    else None
  }

  predicate DistinctPaths(contents: seq<(string, string)>) {
    forall i, k | 0 <= i < k < |contents| :: contents[i].0 != contents[k].0
  }

  lemma {:induction false} SubstitutedKeeps(env: Env, copy: Dict, contents: seq<(string, string)>, path: string)
    requires path in copy.files && forall k | 0 <= k < |contents| :: contents[k].0 != path
    ensures var copy' := Substituted(env, copy, contents).0; path in copy'.files && copy'.files[path] == copy.files[path]
    decreases |contents|
  {
    if contents != [] {
      var (p, text) := contents[0];
      if p in copy.files {
        SubstitutedKeeps(env, WithCurrent(copy, p, text), contents[1..], path);
      } else if env.source(p).Found? {
        SubstitutedKeeps(env, WithCurrent(Loaded(copy, p, env.source(p).content), p, text), contents[1..], path);
      }
    }
  }

  /** The copy that is verified holds every substituted text. */
  lemma {:induction false} SubstitutedHolds(env: Env, copy: Dict, contents: seq<(string, string)>, k: nat)
    requires DistinctPaths(contents) && k < |contents| && Substituted(env, copy, contents).1
    ensures var copy' := Substituted(env, copy, contents).0;
            contents[k].0 in copy'.files && copy'.files[contents[k].0].current == contents[k].1
    decreases |contents|
  {
    var (p, text) := contents[0];
    var next := if p in copy.files then WithCurrent(copy, p, text)
                else WithCurrent(Loaded(copy, p, env.source(p).content), p, text);
    if k == 0 {
      SubstitutedKeeps(env, next, contents[1..], p);
    } else {
      SubstitutedHolds(env, next, contents[1..], k - 1);
    }
  }

  ghost predicate SomeChanged(c: Dict) {
    exists p :: p in c.files && Changed(c.files[p])
  }

  lemma NonEmptyDiff(d: Differ, c: Dict)
    ensures FullDiff(d, c) != "" <==> SomeChanged(c)
  {
    EmptyDiffIffUnchanged(d, c.order, c.files);
  }

  /** No edit and one edit score alike. */
  lemma FirstAttempt(job: Job, c: Dict, run: Run, diff: string, explanation: string)
    ensures var r := Gate(job, c, run, diff, explanation, 0);
            && r.evidence == Some(BuildEvidence(job, run, c))
            && r.score == Some(Scoring.ScoreOf(SignalsOf(run, r.evidence.value, c, diff, 1)))
            && Tier3Passed(r) == Some(run.Compiled())
  {
    hide BuildEvidence, ChangedLines, Scoring.ScoreOf;
  }

  /**
   The tier-3 verdict of a fork: passed or failed exactly when the sandbox compiled, or refused, the
   copy with the substituted texts in it; undetermined exactly when nothing changed or no sandbox ran.
   The score is that of a first attempt.
   */
  lemma {:induction false} Tier3VerdictIsEarned(job: Job, ctx: Ctx, contents: seq<(string, string)>)
    requires ForkOutcome(job, ctx, contents).Done?
    ensures var r := ForkOutcome(job, ctx, contents).result;
            var copy := Substituted(job.env, ctx.copy, contents).0;
            && (Tier3Passed(r).None? <==> !SomeChanged(copy) || job.env.sandbox.None?)
            && (Tier3Passed(r).Some? ==>
                  var run := job.env.sandbox.value(|ctx.checks|, Contents(copy), job.env.modelSelect.GetOr(""));
                  && run.Some? && r.evidence == Some(BuildEvidence(job, run.value, copy))
                  && (Tier3Passed(r) == Some(true) <==> run.value.Compiled())
                  && r.score == Some(Scoring.ScoreOf(
                       SignalsOf(run.value, r.evidence.value, copy, FullDiff(job.env.differ, copy), 1))))
  {
    hide Substituted, BuildEvidence, SignalsOf, Scoring.ScoreOf, FullDiff, Gate, SomeChanged, Run.Compiled;
    var copy := Substituted(job.env, ctx.copy, contents).0;
    var diff := FullDiff(job.env.differ, copy);
    NonEmptyDiff(job.env.differ, copy);
    if diff != "" && job.env.sandbox.Some? {
      var run := job.env.sandbox.value(|ctx.checks|, Contents(copy), job.env.modelSelect.GetOr(""));
      FirstAttempt(job, copy, run.value, diff, SUBSTITUTED);
    }
  }

  /** In whose words a fork reports: never in the recorded agent's. */
  lemma ForkSpeaksForItself(job: Job, ctx: Ctx, contents: seq<(string, string)>)
    requires ForkOutcome(job, ctx, contents).Done?
    ensures var r := ForkOutcome(job, ctx, contents).result;
            var substituted := "Re-verified a substituted fix against the recorded schema snapshot (KAN-650 fork-replay tier-3).";
            && (r.outcome.PrProposed? ==> r.explanation == substituted)
            && (r.outcome.NoFix? && r.evidence.Some? ==> r.explanation == substituted + NOT_COMPILED)
            && (r.outcome.NoFix? && r.evidence.None? ==>
                  r.explanation == "The substituted fix (override_diff) produced no changes against the recorded original content.")
            && !r.outcome.NeedsProdAction?
  {
    hide Substituted, BuildEvidence, SignalsOf, Scoring.ScoreOf, FullDiff, Run.Compiled;
  }
}
