/** The candidate's loops as they run, on the shared context and the run's own journal. */
module SatayRun {
  import opened Basics
  import opened Diffing
  import opened WorkingCopy
  import opened AgentTools
  import opened ToolContext
  import opened History
  import opened CompileGate
  import opened RepairLoop
  import opened RunJournal
  import opened SatayCandidate

  class CandidateRun {
    const job: Job
    const payload: Payload
    const ctx: AgentContext
    var turns: nat
    var messages: seq<Message>
    var lastText: string
    var edits: nat
    var dispatched: nat
    var asked: nat
    var journal: seq<Event>
    ghost var effects: seq<Effect>

    ghost predicate Valid()
      reads this, ctx, ctx.working
    {
      ctx.Valid() && ctx.env == job.env
    }

    /** This run, at a point of its control flow. */
    ghost function At(phase: Phase): Cand
      reads this, ctx, ctx.working
      requires Valid()
    {
      Cand(phase, turns, messages, lastText, edits, dispatched, ctx.Model(), asked, journal, effects)
    }

    constructor (job: Job, payload: Payload, ctx: AgentContext, journal: seq<Event>)
      requires ctx.Valid() && ctx.env == job.env
      ensures Valid() && At(Asking) == Start(job, ctx.Model(), journal)
      ensures this.job == job && this.payload == payload && this.ctx == ctx
    {
      this.job, this.payload, this.ctx, this.journal := job, payload, ctx, journal;
      turns, messages, lastText, edits, dispatched, asked := 0, [User([Text(job.prompt)])], "", 0, 0, 0;
      effects := [];
    }

    method Complete(provider: Provider, ghost phase: Phase) returns (turn: Option<Turn>)
      requires Valid()
      modifies this
      ensures Valid() && (At(phase), turn) == CompleteCall(provider, old(At(phase)))
    {
      var hit := Recorded(journal, CompleteTask, turns);
      if hit.Some? {
        if !hit.value.TurnOut? { return None; }
        turns := turns + 1;
        return Some(hit.value.turn);
      }
      turn := provider(asked, messages);
      var outcome := if turn.Some? then Completed(CompleteTask, turns, TurnOut(turn.value)) else Failed(CompleteTask, turns);
      journal := journal + [Scheduled(CompleteTask, turns, None), outcome];
      effects := effects + [Completion(messages)];
      turns, asked := turns + 1, asked + 1;
    }

    method DispatchDurably(call: ToolCall, ghost phase: Phase) returns (reply: Option<Reply>)
      requires Valid()
      modifies this, ctx, ctx.working
      ensures Valid() && (At(phase), reply) == DispatchCall(job.env, old(At(phase)), call)
      ensures turns == old(turns)
    {
      var hit := Recorded(journal, DispatchTask, dispatched);
      if hit.Some? {
        if !hit.value.ReplyOut? { return None; }
        dispatched := dispatched + 1;
        return Some(hit.value.reply);
      }
      var r := ctx.Dispatch(call);
      effects := effects + [Tool(call)];
      journal := journal + [Scheduled(DispatchTask, dispatched, Some(call)), Completed(DispatchTask, dispatched, ReplyOut(r))];
      dispatched := dispatched + 1;
      reply := Some(r);
    }

    method VerifyDurably(ghost phase: Phase) returns (run: Option<Run>)
      requires Valid() && job.env.sandbox.Some?
      modifies this, ctx
      ensures Valid() && (At(phase), run) == VerifyCall(job.env, old(At(phase)))
    {
      var hit := Recorded(journal, VerifyTask, 0);
      if hit.Some? {
        if !hit.value.RunOut? { return None; }
        return Some(hit.value.run);
      }
      var select := job.env.modelSelect.GetOr("");
      run := ctx.VerifyCurrent(select);
      effects := effects + [Verification(select)];
      var outcome := if run.Some? then Completed(VerifyTask, 0, RunOut(run.value)) else Failed(VerifyTask, 0);
      journal := journal + [Scheduled(VerifyTask, 0, None), outcome];
    }

    /** What remains after drafting: nothing, or one verification and the gate. */
    method Settle(provider: Provider, phase: Phase) returns (end: Phase)
      requires Valid() && !phase.Asking? && !phase.Running?
      modifies this, ctx
      ensures Valid() && At(end) == Drive(job, provider, payload, old(At(phase)))
    {
      end := phase;
      if phase.Verifying? {
        ghost var before := At(phase);
        if job.env.sandbox.None? {
          end := Raised;
        } else {
          var run := VerifyDurably(phase);
          end := if run.None? then Raised
                 else Done(Gate(job, ctx.working.Model(), run.value, phase.diff, phase.explanation, edits));
        }
        assert At(end) == Step(job, provider, payload, before);
        assert Drive(job, provider, payload, before) == Drive(job, provider, payload, At(end));
      }
    }

    /** Overwrites each substituted file, reading the original first where needed; false when that fails. */
    method Substitute(contents: seq<(string, string)>) returns (ok: bool)
      requires Valid()
      modifies ctx.working
      ensures Valid()
      ensures (ctx.working.Model(), ok) == Substituted(job.env, old(ctx.working.Model()), contents)
    {
      assert contents[0..] == contents;
      for i := 0 to |contents|
        invariant Valid()
        invariant Substituted(job.env, ctx.working.Model(), contents[i..])
               == Substituted(job.env, old(ctx.working.Model()), contents)
      {
        var (path, text) := contents[i];
        assert contents[i..][0] == (path, text) && contents[i..][1..] == contents[i + 1..];
        if path !in ctx.working.files {
          match job.env.source(path) {
            case Found(original) =>
              LoadOk(ctx.working.Model(), path, original);
              ctx.working.Load(path, original);
            case _ => return false;
          }
        }
        SetCurrentOk(ctx.working.Model(), path, text);
        ctx.working.SetCurrent(path, text);
      }
      ok := true;
    }

    /** The fork's tail. */
    method ApplyOverrideAndVerify(provider: Provider, contents: seq<(string, string)>, ghost phase: Phase) returns (end: Phase)
      requires Valid()
      modifies this, ctx, ctx.working
      ensures Valid() && At(end) == Drive(job, provider, payload, TakeOver(job, old(At(phase)), contents))
    {
      ghost var before := At(phase);
      var ok := Substitute(contents);
      var c := Ctx(ctx.working.Model(), ctx.lastRun, ctx.lastDiff, ctx.checks);
      var diff := FullDiff(job.env.differ, c.copy);
      var next := Raised;
      if ok && diff == "" {
        next := Done(Result(NoFix, None, SAME_CONTENT, None, None));
      } else if ok {
        next := PhaseOf(StandingOf(job, c, diff, SUBSTITUTED, edits));
      }
      assert At(next) == TakeOver(job, before, contents);
      end := Settle(provider, next);
    }

    /** One tool call: its answer, and whether the override takes over now. */
    method CallTool(provider: Provider, calls: seq<ToolCall>, results: seq<Block>) returns (reply: Option<Reply>, takesOver: bool)
      requires Valid() && calls != []
      modifies this, ctx, ctx.working
      ensures Valid() && turns == old(turns)
      ensures takesOver ==> reply.Some? && payload.substitute.Some?
      ensures reply.None? ==> At(Raised) == Step(job, provider, payload, old(At(Running(calls, results))))
      ensures reply.Some? ==>
                var next := At(Running(calls[1..], results + [ToolResult(calls[0].id, reply.value)]));
                Step(job, provider, payload, old(At(Running(calls, results))))
                == if takesOver then TakeOver(job, next, payload.substitute.value.contents) else next
    {
      StepIsCall(job, provider, payload, At(Running(calls, results)));
      hide TakeOver, DispatchCall, Step, Recorded;
      if calls[0].name == "edit_file" { edits := edits + 1; }
      var thisOrdinal := dispatched;
      reply := DispatchDurably(calls[0], Running(calls, results));
      takesOver := reply.Some? && payload.substitute.Some? && payload.substitute.value.after == thisOrdinal;
    }

    /** One tool call. The run is over when the override takes over or a recording does not fit. */
    method CallOne(provider: Provider, calls: seq<ToolCall>, results: seq<Block>) returns (answer: Block, over: Option<Phase>)
      requires Valid() && calls != []
      modifies this, ctx, ctx.working
      ensures Valid()
      ensures over.Some? ==> At(over.value) == Drive(job, provider, payload, old(At(Running(calls, results))))
      ensures over.None? ==>
                && turns == old(turns)
                && Drive(job, provider, payload, At(Running(calls[1..], results + [answer])))
                   == Drive(job, provider, payload, old(At(Running(calls, results))))
    {
      StepOnce(job, provider, payload, At(Running(calls, results)));
      hide Drive, TakeOver, Step;
      var reply, takesOver := CallTool(provider, calls, results);
      answer, over := Text(""), None;
      if reply.None? {
        Ended(job, provider, payload, At(Raised));
        over := Some(Raised);
        return;
      }
      answer := ToolResult(calls[0].id, reply.value);
      if takesOver {
        ghost var next := Running(calls[1..], results + [answer]);
        var end := ApplyOverrideAndVerify(provider, payload.substitute.value.contents, next);
        over := Some(end);
      }
    }

    /** One turn's calls, in order. */
    method CallTools(provider: Provider, calls: seq<ToolCall>) returns (over: Option<Phase>)
      requires Valid()
      modifies this, ctx, ctx.working
      ensures Valid()
      ensures over.Some? ==> At(over.value) == Drive(job, provider, payload, old(At(Running(calls, []))))
      ensures over.None? ==>
                && turns == old(turns)
                && Drive(job, provider, payload, At(Asking)) == Drive(job, provider, payload, old(At(Running(calls, []))))
    {
      hide Drive;
      var results: seq<Block> := [];
      assert calls[0..] == calls;
      for k := 0 to |calls|
        invariant Valid() && turns == old(turns)
        invariant Drive(job, provider, payload, At(Running(calls[k..], results)))
               == Drive(job, provider, payload, old(At(Running(calls, []))))
      {
        assert calls[k..][0] == calls[k] && calls[k..][1..] == calls[k + 1..];
        var answer;
        answer, over := CallOne(provider, calls[k..], results);
        if over.Some? { return; }
        results := results + [answer];
      }
      assert calls[|calls|..] == [];
      StepOnce(job, provider, payload, At(Running([], results)));
      messages := messages + [User(results)];
      over := None;
    }

    /** One model turn; the run may raise here. */
    method Hear(provider: Provider) returns (turn: Option<Turn>)
      requires Valid() && turns < payload.maxTurns
      modifies this
      ensures Valid() && ctx.Model() == old(ctx.Model())
      ensures turn.None? ==> At(Raised) == Step(job, provider, payload, old(At(Asking)))
      ensures turn.Some? ==>
                && turns == old(turns) + 1
                && Step(job, provider, payload, old(At(Asking)))
                   == if turn.value.calls == [] then Drafted(job, At(Asking)) else At(Running(turn.value.calls, []))
    {
      hide Drafted;
      turn := Complete(provider, Asking);
      if turn.Some? {
        if turn.value.text != "" { lastText := turn.value.text; }
        messages := messages + [TurnMessage(turn.value)];
      }
    }

    /** `_run_candidate`: the turn loop, then the checks and the gate. */
    method Run(provider: Provider) returns (end: Phase)
      requires Valid()
      modifies this, ctx, ctx.working
      ensures Valid() && At(end) == Drive(job, provider, payload, old(At(Asking)))
    {
      ghost var start := At(Asking);
      hide Drive, Conclude;
      while turns < payload.maxTurns
        invariant Valid() && Drive(job, provider, payload, At(Asking)) == Drive(job, provider, payload, start)
        decreases payload.maxTurns - turns
      {
        StepOnce(job, provider, payload, At(Asking));
        var turn := Hear(provider);
        if turn.None? {
          Ended(job, provider, payload, At(Raised));
          return Raised;
        }
        if turn.value.calls == [] {
          end := AfterTurns(provider);
          return;
        }
        var over := CallTools(provider, turn.value.calls);
        if over.Some? { return over.value; }
      }
      StepOnce(job, provider, payload, At(Asking));
      end := AfterTurns(provider);
    }

    /** After the last turn. */
    method AfterTurns(provider: Provider) returns (end: Phase)
      requires Valid()
      modifies this, ctx
      ensures Valid() && At(end) == Drive(job, provider, payload, Drafted(job, old(At(Asking))))
    {
      var c := Ctx(ctx.working.Model(), ctx.lastRun, ctx.lastDiff, ctx.checks);
      var next := PhaseOf(Conclude(job, c, lastText, edits));
      end := Settle(provider, next);
    }
  }

  /** A tool-call step, in terms of the durable call it makes. */
  lemma StepIsCall(job: Job, provider: Provider, p: Payload, c: Cand)
    requires c.phase.Running? && c.phase.rest != []
    ensures var call := c.phase.rest[0];
            var counted := c.(edits := if call.name == "edit_file" then c.edits + 1 else c.edits);
            var (c', reply) := DispatchCall(job.env, counted, call);
            Step(job, provider, p, c)
            == if reply.None? then c'.(phase := Raised)
               else
                 var called := c'.(phase := Running(c.phase.rest[1..], c.phase.results + [ToolResult(call.id, reply.value)]));
                 if TakesOver(p, c.dispatched) then TakeOver(job, called, p.substitute.value.contents) else called
  {
    hide DispatchCall, TakeOver;
  }

  lemma {:induction false} StepOnce(job: Job, provider: Provider, p: Payload, c: Cand)
    requires !Over(c)
    ensures Drive(job, provider, p, c) == Drive(job, provider, p, Step(job, provider, p, c))
  {
  }

  lemma {:induction false} Ended(job: Job, provider: Provider, p: Payload, c: Cand)
    requires Over(c)
    ensures Drive(job, provider, p, c) == c
  {
  }
}
