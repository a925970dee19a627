/** The durable workflow on a new journal is the plain repair loop. */
module SatayPort {
  import opened Basics
  import opened Diffing
  import opened AgentTools
  import opened History
  import opened CompileGate
  import opened RepairLoop
  import opened RunJournal
  import opened SatayCandidate

  function Counter(c: Cand, task: Task): nat {
    match task
    case CompleteTask => c.turns
    case DispatchTask => c.dispatched
    case VerifyTask => 0
  }

  predicate Earlier(c: Cand, e: Event) {
    match e
    case Created(_) => true
    case Scheduled(task, ordinal, _) => ordinal < Counter(c, task)
    case Completed(task, ordinal, _) => ordinal < Counter(c, task)
    case Failed(_, _) => false
  }

  /** Nothing ahead of this point is recorded. */
  predicate Fresh(c: Cand) {
    c.asked == c.turns && forall i | 0 <= i < |c.journal| :: Earlier(c, c.journal[i])
  }

  lemma FreshMisses(c: Cand)
    requires Fresh(c)
    ensures Recorded(c.journal, CompleteTask, c.turns).None?
    ensures Recorded(c.journal, DispatchTask, c.dispatched).None?
    ensures Recorded(c.journal, VerifyTask, 0).None?
  {
    assert forall i | 0 <= i < |c.journal| :: Earlier(c, c.journal[i]);
    Unrecorded(c.journal, CompleteTask, c.turns);
    Unrecorded(c.journal, DispatchTask, c.dispatched);
    Unrecorded(c.journal, VerifyTask, 0);
  }

  /** Both loops are at the same point, with the same variables, after the same outside calls. */
  predicate Same(c: Cand, st: State) {
    c.messages == st.messages && c.lastText == st.lastText && c.edits == st.edits
    && c.ctx == st.ctx && c.effects == st.effects
  }

  lemma StaysEarlier(c: Cand, c': Cand, more: seq<Event>)
    requires Fresh(c) && c'.journal == c.journal + more && c'.asked == c'.turns
    requires c'.turns >= c.turns && c'.dispatched >= c.dispatched
    requires forall i | 0 <= i < |more| :: Earlier(c', more[i])
    ensures Fresh(c')
  {
    forall i | 0 <= i < |c'.journal| ensures Earlier(c', c'.journal[i]) {
      if i < |c.journal| { assert Earlier(c, c.journal[i]); }
    }
  }

  /** One tool call, on both sides. */
  lemma CallSame(job: Job, provider: Provider, p: Payload, c: Cand, st: State)
    requires p.substitute.None? && c.phase.Running? && c.phase.rest != [] && Fresh(c) && Same(c, st)
    ensures var (call, c') := (c.phase.rest[0], Step(job, provider, p, c));
            var (st', reply) := Called(job.env, st, call);
            && Fresh(c') && Same(c', st') && c'.turns == c.turns
            && c'.phase == Running(c.phase.rest[1..], c.phase.results + [ToolResult(call.id, reply)])
  {
    hide Dispatch;
    FreshMisses(c);
    var (call, c') := (c.phase.rest[0], Step(job, provider, p, c));
    var reply := Dispatch(job.env, c.ctx, call).1;
    hide Fresh;
    StaysEarlier(c, c', [Scheduled(DispatchTask, c.dispatched, Some(call)),
                         Completed(DispatchTask, c.dispatched, ReplyOut(reply))]);
  }

  /** The rest of a turn's calls. */
  lemma {:induction false} CallsSame(job: Job, provider: Provider, p: Payload, c: Cand, st: State) returns (c': Cand)
    requires p.substitute.None? && c.phase.Running? && Fresh(c) && Same(c, st)
    ensures c'.phase.Asking? && c'.turns == c.turns && Fresh(c')
    ensures Same(c', CallAll(job.env, st, c.phase.rest, c.phase.results))
    ensures Drive(job, provider, p, c') == Drive(job, provider, p, c)
    decreases |c.phase.rest|
  {
    if c.phase.rest == [] {
      c' := Step(job, provider, p, c);
    } else {
      CallSame(job, provider, p, c, st);
      var next := Step(job, provider, p, c);
      hide Fresh, Same, Called, Step;
      c' := CallsSame(job, provider, p, next, Called(job.env, st, c.phase.rest[0]).0);
    }
  }

  /** The same outside calls, context and result, or raised on both sides. */
  predicate EndsAlike(end: Cand, outcome: (State, Option<Result>)) {
    && end.effects == outcome.0.effects && end.ctx == outcome.0.ctx
    && end.phase == if outcome.1.Some? then Done(outcome.1.value) else Raised
  }

  /** The last turn is behind them; what follows is one sandbox run at most. */
  lemma {:induction false} FinishSame(job: Job, provider: Provider, p: Payload, c: Cand, st: State)
    requires Fresh(c) && Same(c, st)
    ensures EndsAlike(Drive(job, provider, p, Drafted(job, c)), Finish(job, st))
  {
    FreshMisses(c);
    hide Gate, StandingOf, ProdAction, FullDiff, VerifyCurrent, Closing, Recorded;
    var d := Drafted(job, c);
    if d.phase.Verifying? {
      var v := Step(job, provider, p, d);
      assert Drive(job, provider, p, d) == Drive(job, provider, p, v) == v;
    }
  }

  /** Hearing a turn, on both sides. */
  lemma AskSame(job: Job, provider: Provider, p: Payload, c: Cand, st: State)
    requires p.substitute.None? && c.phase.Asking? && Fresh(c) && Same(c, st) && c.turns < p.maxTurns
    requires provider(c.turns, c.messages).Some?
    ensures var turn := provider(c.turns, c.messages).value;
            var heard := Heard(st.(effects := st.effects + [Completion(st.messages)]), turn);
            var c' := CompleteCall(provider, c).0.(messages := heard.messages, lastText := heard.lastText);
            && Fresh(c') && Same(c', heard) && c'.turns == c.turns + 1
            && Step(job, provider, p, c) == if turn.calls == [] then Drafted(job, c') else c'.(phase := Running(turn.calls, []))
  {
    FreshMisses(c);
    var turn := provider(c.turns, c.messages).value;
    var c' := CompleteCall(provider, c).0;
    hide Fresh, Drafted, Recorded;
    StaysEarlier(c, c', [Scheduled(CompleteTask, c.turns, None), Completed(CompleteTask, c.turns, TurnOut(turn))]);
    FreshIgnores(c', c'.(messages := c.messages + [TurnMessage(turn)], lastText := if turn.text != "" then turn.text else c.lastText));
  }

  lemma FreshIgnores(c: Cand, c': Cand)
    requires Fresh(c) && c'.journal == c.journal && c'.turns == c.turns && c'.dispatched == c.dispatched && c'.asked == c.asked
    ensures Fresh(c')
  {
    assert forall i | 0 <= i < |c.journal| :: Earlier(c, c.journal[i]) && Earlier(c', c.journal[i]);
  }

  /** The plain loop from its n-th turn to its end. */
  function PlainFrom(job: Job, provider: Provider, max: nat, n: nat, st: State): (State, Option<Result>) {
    var (st', ok) := Draft(job, provider, max, n, st);
    if ok then Finish(job, st') else (st', None)
  }

  lemma PlainTurn(job: Job, provider: Provider, max: nat, n: nat, st: State)
    requires n < max && provider(n, st.messages).Some?
    ensures var turn := provider(n, st.messages).value;
            var heard := Heard(st.(effects := st.effects + [Completion(st.messages)]), turn);
            PlainFrom(job, provider, max, n, st)
            == if turn.calls == [] then Finish(job, heard)
               else PlainFrom(job, provider, max, n + 1, CallAll(job.env, heard, turn.calls, []))
  {
    hide Finish, CallAll, Heard;
  }

  /** No turn is heard: the bound is reached, or the provider raises. */
  lemma {:induction false} NoTurnSame(job: Job, provider: Provider, p: Payload, c: Cand, st: State)
    requires p.substitute.None? && c.phase.Asking? && Fresh(c) && Same(c, st)
    requires c.turns >= p.maxTurns || provider(c.turns, c.messages).None?
    ensures EndsAlike(Drive(job, provider, p, c), PlainFrom(job, provider, p.maxTurns, c.turns, st))
  {
    hide Finish, Drafted, Recorded;
    if c.turns >= p.maxTurns { FinishSame(job, provider, p, c, st); } else { FreshMisses(c); }
  }

  lemma {:induction false} DriveStep(job: Job, provider: Provider, p: Payload, c: Cand)
    requires !Over(c)
    ensures Drive(job, provider, p, c) == Drive(job, provider, p, Step(job, provider, p, c))
  {
  }

  /** One heard turn, on both sides: it is the last, or both stand before the next. */
  lemma TurnSame(job: Job, provider: Provider, p: Payload, c: Cand, st: State) returns (c': Cand, st': State, last: bool)
    requires p.substitute.None? && c.phase.Asking? && Fresh(c) && Same(c, st) && c.turns < p.maxTurns
    requires provider(c.turns, c.messages).Some?
    ensures Fresh(c') && Same(c', st') && c'.turns == c.turns + 1
    ensures last ==>
              && Drive(job, provider, p, c) == Drive(job, provider, p, Drafted(job, c'))
              && PlainFrom(job, provider, p.maxTurns, c.turns, st) == Finish(job, st')
    ensures !last ==>
              && c'.phase.Asking?
              && Drive(job, provider, p, c) == Drive(job, provider, p, c')
              && PlainFrom(job, provider, p.maxTurns, c.turns, st) == PlainFrom(job, provider, p.maxTurns, c'.turns, st')
  {
    hide Fresh, CallAll, Drafted, Drive, PlainFrom, Finish, Step, CompleteCall, Heard;
    AskSame(job, provider, p, c, st);
    assert provider(c.turns, st.messages) == provider(c.turns, c.messages);
    PlainTurn(job, provider, p.maxTurns, c.turns, st);
    DriveStep(job, provider, p, c);
    var turn := provider(c.turns, c.messages).value;
    st' := Heard(st.(effects := st.effects + [Completion(st.messages)]), turn);
    c' := CompleteCall(provider, c).0.(messages := st'.messages, lastText := st'.lastText);
    last := turn.calls == [];
    if !last {
      RunningSame(c', st', turn.calls);
      c' := CallsSame(job, provider, p, c'.(phase := Running(turn.calls, [])), st');
      st' := CallAll(job.env, st', turn.calls, []);
    }
  }

  lemma {:induction false} DraftSame(job: Job, provider: Provider, p: Payload, c: Cand, st: State)
    requires p.substitute.None? && c.phase.Asking? && Fresh(c) && Same(c, st)
    ensures EndsAlike(Drive(job, provider, p, c), PlainFrom(job, provider, p.maxTurns, c.turns, st))
    decreases p.maxTurns - c.turns
  {
    hide *;
    if c.turns >= p.maxTurns || provider(c.turns, c.messages).None? {
      NoTurnSame(job, provider, p, c, st);
    } else {
      var c', st', last := TurnSame(job, provider, p, c, st);
      if last { FinishSame(job, provider, p, c', st'); } else { DraftSame(job, provider, p, c', st'); }
    }
  }

  lemma RunningSame(c: Cand, st: State, calls: seq<ToolCall>)
    requires Fresh(c) && Same(c, st)
    ensures Fresh(c.(phase := Running(calls, []))) && Same(c.(phase := Running(calls, [])), st)
  {
    FreshIgnores(c, c.(phase := Running(calls, [])));
  }

  /**
   The port. For every provider, tool and sandbox behaviour, turn bound and starting context, a drive
   on a new journal makes the same outside calls as `run_repair`, in the same order and on the same
   arguments, leaves the same context, and ends with the same result, or raises exactly when it does.
   */
  lemma {:induction false} PortRefines(job: Job, provider: Provider, max: nat, ctx: Ctx)
    ensures var p := Payload(max, None);
            var end := Drive(job, provider, p, Start(job, ctx, [Created(p)]));
            var (st, result) := RunRepair(job, provider, max, ctx);
            && end.effects == st.effects && end.ctx == st.ctx
            && end.phase == if result.Some? then Done(result.value) else Raised
  {
    var p := Payload(max, None);
    var c := Start(job, ctx, [Created(p)]);
    assert Earlier(c, c.journal[0]);
    DraftSame(job, provider, p, c, Opening(job, ctx));
  }
}
