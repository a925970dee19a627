/**
 N candidates at once. Each step looks its candidate's rig (provider and context) up under the
 candidate's key in one shared dictionary and writes it back there; sandbox runs share one warehouse.
 */
module FanOut {
  import opened Basics
  import opened Text
  import opened Diffing
  import opened AgentTools
  import opened History
  import opened CompileGate
  import opened RepairLoop
  import opened RunJournal
  import opened SatayCandidate
  import opened SatayPort
  import Scoring
  import SqlColumns

  // --- cloning ---

  function CandidateKey(i: nat): string {
    "c" + Decimal(i)
  }

  /** The warehouse schema a candidate's sample builds go to. */
  function CandidateSchema(base: string, i: nat): string {
    base + "_" + CandidateKey(i)
  }

  /** No two candidates share a key, and none shares a schema, whatever the configured name. */
  lemma SchemasDiffer(base: string, i: nat, k: nat)
    requires i != k
    ensures CandidateKey(i) != CandidateKey(k)
    ensures CandidateSchema(base, i) != CandidateSchema(base, k)
  {
    ValueOfDecimal(i);
    ValueOfDecimal(k);
    assert CandidateKey(i)[1..] == Decimal(i) && CandidateKey(k)[1..] == Decimal(k);
    assert CandidateSchema(base, i)[|base| + 1..] == CandidateKey(i);
    assert CandidateSchema(base, k)[|base| + 1..] == CandidateKey(k);
  }

  /** A job for one candidate: everything shared, but its own sandbox schema. */
  function Cloned(job: Job, sandboxOn: string -> Sandbox, schema: string): Job {
    job.(env := job.env.(sandbox := if job.env.sandbox.None? then None else Some(sandboxOn(schema))))
  }

  /** A candidate; `clash` is what its sandbox says when another build takes its relation mid-run. */
  datatype Member = Member(job: Job, provider: Provider, schema: string, clash: Sandbox)

  function Clone(
    job: Job, base: string, sandboxOn: string -> Sandbox, clash: string -> Sandbox,
    factory: nat -> Provider, i: nat): Member
  {
    var schema := CandidateSchema(base, i);
    Member(Cloned(job, sandboxOn, schema), factory(i), schema, clash(schema))
  }

  /** A fan-out: the candidates' keys, and what was built for each of them. */
  datatype Fan = Fan(keys: seq<string>, members: seq<Member>) {
    predicate Ok() { |keys| == |members| }
  }

  function Clones(
    job: Job, base: string, sandboxOn: string -> Sandbox, clash: string -> Sandbox,
    factory: nat -> Provider, n: nat): (fan: Fan)
    ensures fan.Ok() && |fan.members| == n
    ensures forall i | 0 <= i < n ::
              fan.keys[i] == CandidateKey(i) && fan.members[i] == Clone(job, base, sandboxOn, clash, factory, i)
  {
    Fan(seq(n, i requires 0 <= i < n => CandidateKey(i)),
        seq(n, i requires 0 <= i < n => Clone(job, base, sandboxOn, clash, factory, i)))
  }

  ghost predicate SeparateKeys(fan: Fan) {
    forall i, k | 0 <= i < k < |fan.keys| :: fan.keys[i] != fan.keys[k]
  }

  ghost predicate SeparateSchemas(fan: Fan) {
    forall i, k | 0 <= i < k < |fan.members| :: fan.members[i].schema != fan.members[k].schema
  }

  // --- the shared dictionary and the interleaving ---

  /** What a key leads to: the provider's and the context's state, and whose they are. */
  datatype Rig = Rig(member: Member, asked: nat, ctx: Ctx)

  /** `{key: _Rig(...) for key in candidate_keys}`: a key that comes again replaces the earlier entry. */
  function Rigs(fan: Fan, n: nat): map<string, Rig>
    requires fan.Ok() && n <= |fan.keys|
  {
    if n == 0 then map[] else Rigs(fan, n - 1)[fan.keys[n - 1] := Rig(fan.members[n - 1], 0, FRESH)]
  }

  /** Each candidate's own variables, the rigs, who has a sandbox run under way, and who built each relation last. */
  datatype Sys = Sys(cands: seq<Cand>, rigs: map<string, Rig>, inFlight: seq<bool>, builtBy: map<string, nat>)

  /** A step without a sandbox run is atomic; a sandbox run begins, building its relation, and later ends. */
  datatype Act = Plain(i: nat) | Begin(i: nat) | End(i: nat)

  ghost predicate SysOk(fan: Fan, s: Sys) {
    && fan.Ok() && |s.cands| == |s.inFlight| == |fan.keys|
    && forall i | 0 <= i < |fan.keys| :: fan.keys[i] in s.rigs
  }

  function RigOf(fan: Fan, s: Sys, i: nat): Rig
    requires SysOk(fan, s) && i < |fan.keys|
  {
    s.rigs[fan.keys[i]]
  }

  /** A candidate as its next step finds it: its own variables, on the rig its key leads to. */
  function View(fan: Fan, s: Sys, i: nat): Cand
    requires SysOk(fan, s) && i < |fan.keys|
  {
    s.cands[i].(asked := RigOf(fan, s, i).asked, ctx := RigOf(fan, s, i).ctx)
  }

  /** After its step: its variables are its own, the rig is written back under the key. */
  function Written(fan: Fan, s: Sys, i: nat, c: Cand): Sys
    requires SysOk(fan, s) && i < |fan.keys|
  {
    s.(cands := s.cands[i := c], rigs := s.rigs[fan.keys[i] := RigOf(fan, s, i).(asked := c.asked, ctx := c.ctx)])
  }

  function Solo(m: Member, p: Payload, c: Cand): Cand {
    Step(m.job, m.provider, p, c)
  }

  predicate RunsSandbox(m: Member, p: Payload, c: Cand) {
    |Solo(m, p, c).ctx.checks| != |c.ctx.checks|
  }

  /** The job of a candidate whose relation was rebuilt under it. */
  function ClashJob(m: Member): Job {
    m.job.(env := m.job.env.(sandbox := Some(m.clash)))
  }

  function Disturbed(m: Member, p: Payload, c: Cand): Cand {
    Step(ClashJob(m), m.provider, p, c)
  }

  function Undisturbed(m: Member, s: Sys, i: nat): bool {
    m.schema in s.builtBy && s.builtBy[m.schema] == i
  }

  ghost predicate Enabled(fan: Fan, p: Payload, s: Sys, a: Act) {
    && SysOk(fan, s) && a.i < |fan.keys| && !Over(s.cands[a.i])
    && match a
       case Plain(i) => !s.inFlight[i] && !RunsSandbox(RigOf(fan, s, i).member, p, View(fan, s, i))
       case Begin(i) => !s.inFlight[i] && RunsSandbox(RigOf(fan, s, i).member, p, View(fan, s, i))
       case End(i) => s.inFlight[i]
  }

  function Next(fan: Fan, p: Payload, s: Sys, a: Act): Sys
    requires Enabled(fan, p, s, a)
  {
    var (i, m, c) := (a.i, RigOf(fan, s, a.i).member, View(fan, s, a.i));
    match a
    case Plain(_) => Written(fan, s, i, Solo(m, p, c))
    case Begin(_) => s.(inFlight := s.inFlight[i := true], builtBy := s.builtBy[m.schema := i])
    case End(_) =>
      Written(fan, s, i, if Undisturbed(m, s, i) then Solo(m, p, c) else Disturbed(m, p, c)).(inFlight := s.inFlight[i := false])
  }

  ghost predicate IsSchedule(fan: Fan, p: Payload, s: Sys, acts: seq<Act>)
    decreases |acts|
  {
    acts != [] ==> Enabled(fan, p, s, acts[0]) && IsSchedule(fan, p, Next(fan, p, s, acts[0]), acts[1..])
  }

  ghost function After(fan: Fan, p: Payload, s: Sys, acts: seq<Act>): Sys
    requires IsSchedule(fan, p, s, acts)
    decreases |acts|
  {
    if acts == [] then s else After(fan, p, Next(fan, p, s, acts[0]), acts[1..])
  }

  function StartOf(m: Member, p: Payload): Cand {
    Start(m.job, FRESH, [Created(p)])
  }

  function Initial(fan: Fan, p: Payload): (s: Sys)
    requires fan.Ok()
    ensures |s.cands| == |s.inFlight| == |fan.keys|
  {
    Sys(seq(|fan.keys|, i requires 0 <= i < |fan.keys| => StartOf(fan.members[i], p)),
        Rigs(fan, |fan.keys|), seq(|fan.keys|, _ => false), map[])
  }

  function SoloEnd(m: Member, p: Payload, c: Cand): Cand {
    Drive(m.job, m.provider, p, c)
  }

  // --- schedule independence ---

  /** Every key leads to its own candidate's rig, every candidate is on its solo run, every run under way owns its relation. */
  ghost predicate OnCourse(fan: Fan, p: Payload, s: Sys) {
    && SysOk(fan, s)
    && (forall i | 0 <= i < |fan.keys| :: RigOf(fan, s, i).member == fan.members[i])
    && (forall i | 0 <= i < |fan.keys| ::
          SoloEnd(fan.members[i], p, View(fan, s, i)) == SoloEnd(fan.members[i], p, StartOf(fan.members[i], p)))
    && forall i | 0 <= i < |fan.keys| :: s.inFlight[i] ==> Undisturbed(fan.members[i], s, i)
  }

  lemma StepStaysOn(m: Member, p: Payload, c: Cand)
    requires !Over(c)
    ensures SoloEnd(m, p, c) == SoloEnd(m, p, Solo(m, p, c))
  {
  }

  /** Writing one candidate's rig leaves every rig under another key as it was. */
  lemma WrittenViews(fan: Fan, s: Sys, i: nat, c: Cand, k: nat)
    requires SysOk(fan, s) && i < |fan.keys| && k < |fan.keys|
    ensures SysOk(fan, Written(fan, s, i, c))
    ensures View(fan, Written(fan, s, i, c), i) == c
    ensures fan.keys[k] != fan.keys[i] ==>
              View(fan, Written(fan, s, i, c), k) == View(fan, s, k) && RigOf(fan, Written(fan, s, i, c), k) == RigOf(fan, s, k)
    ensures RigOf(fan, Written(fan, s, i, c), i).member == RigOf(fan, s, i).member
  {
  }

  /** A step and its candidate's view, apart from the flags. */
  lemma NextViews(fan: Fan, p: Payload, s: Sys, a: Act, k: nat)
    requires SeparateKeys(fan) && OnCourse(fan, p, s) && Enabled(fan, p, s, a) && k < |fan.keys|
    ensures var n := Next(fan, p, s, a);
            && SysOk(fan, n) && RigOf(fan, n, k).member == fan.members[k]
            && SoloEnd(fan.members[k], p, View(fan, n, k)) == SoloEnd(fan.members[k], p, View(fan, s, k))
  {
    var (i, m, c) := (a.i, fan.members[a.i], View(fan, s, a.i));
    assert k != i ==> fan.keys[k] != fan.keys[i];
    StepStaysOn(m, p, c);
    WrittenViews(fan, s, i, Solo(m, p, c), k);
    hide Step, Over, RunsSandbox, Disturbed, StartOf, SoloEnd, Solo, Written, View;
    var n := Next(fan, p, s, a);
    if a.Begin? {
      SameRigs(fan, s, n, k);
    } else if a.End? {
      assert Undisturbed(m, s, i);
      SameRigs(fan, Written(fan, s, i, Solo(m, p, c)), n, k);
    }
  }

  lemma SameRigs(fan: Fan, s: Sys, n: Sys, k: nat)
    requires SysOk(fan, s) && k < |fan.keys| && n.cands == s.cands && n.rigs == s.rigs && |n.inFlight| == |s.inFlight|
    ensures SysOk(fan, n) && View(fan, n, k) == View(fan, s, k) && RigOf(fan, n, k) == RigOf(fan, s, k)
  {
  }

  lemma NextFlights(fan: Fan, p: Payload, s: Sys, a: Act, k: nat)
    requires SeparateSchemas(fan) && OnCourse(fan, p, s) && Enabled(fan, p, s, a) && k < |fan.keys|
    ensures var n := Next(fan, p, s, a);
            k < |n.inFlight| && (n.inFlight[k] ==> Undisturbed(fan.members[k], n, k))
  {
    hide Step, Over, RunsSandbox, Disturbed, StartOf, SoloEnd, Solo, View;
    assert k != a.i ==> fan.members[k].schema != fan.members[a.i].schema;
  }

  lemma NextOnCourse(fan: Fan, p: Payload, s: Sys, a: Act)
    requires SeparateKeys(fan) && SeparateSchemas(fan) && OnCourse(fan, p, s) && Enabled(fan, p, s, a)
    ensures OnCourse(fan, p, Next(fan, p, s, a))
  {
    var n := Next(fan, p, s, a);
    NextViews(fan, p, s, a, a.i);
    hide Next, Enabled, SeparateKeys, SeparateSchemas, SoloEnd, View, RigOf, Undisturbed, StartOf;
    forall k | 0 <= k < |fan.keys|
      ensures RigOf(fan, n, k).member == fan.members[k]
      ensures SoloEnd(fan.members[k], p, View(fan, n, k)) == SoloEnd(fan.members[k], p, StartOf(fan.members[k], p))
      ensures n.inFlight[k] ==> Undisturbed(fan.members[k], n, k)
    {
      NextViews(fan, p, s, a, k);
      NextFlights(fan, p, s, a, k);
    }
  }

  lemma {:induction false} StaysOnCourse(fan: Fan, p: Payload, s: Sys, acts: seq<Act>)
    requires SeparateKeys(fan) && SeparateSchemas(fan) && OnCourse(fan, p, s) && IsSchedule(fan, p, s, acts)
    ensures OnCourse(fan, p, After(fan, p, s, acts))
    decreases |acts|
  {
    hide SeparateKeys, SeparateSchemas, OnCourse, Enabled, Next;
    if acts != [] {
      NextOnCourse(fan, p, s, acts[0]);
      StaysOnCourse(fan, p, Next(fan, p, s, acts[0]), acts[1..]);
    }
  }

  lemma {:induction false} RigsAre(fan: Fan, n: nat, i: nat)
    requires fan.Ok() && n <= |fan.keys| && i < n
    ensures fan.keys[i] in Rigs(fan, n)
    ensures SeparateKeys(fan) ==> Rigs(fan, n)[fan.keys[i]] == Rig(fan.members[i], 0, FRESH)
    decreases n
  {
    if i < n - 1 {
      RigsAre(fan, n - 1, i);
      assert SeparateKeys(fan) ==> fan.keys[i] != fan.keys[n - 1];
    }
  }

  lemma StartsOk(fan: Fan, p: Payload)
    requires fan.Ok()
    ensures SysOk(fan, Initial(fan, p))
  {
    forall i | 0 <= i < |fan.keys| ensures fan.keys[i] in Rigs(fan, |fan.keys|) { RigsAre(fan, |fan.keys|, i); }
  }

  lemma StartsOnCourse(fan: Fan, p: Payload)
    requires fan.Ok() && SeparateKeys(fan)
    ensures OnCourse(fan, p, Initial(fan, p))
  {
    StartsOk(fan, p);
    var s := Initial(fan, p);
    hide SoloEnd, Rigs, SeparateKeys;
    forall i | 0 <= i < |fan.keys|
      ensures RigOf(fan, s, i).member == fan.members[i] && View(fan, s, i) == StartOf(fan.members[i], p)
    {
      RigsAre(fan, |fan.keys|, i);
    }
  }

  ghost predicate Complete(s: Sys) {
    forall i | 0 <= i < |s.cands| :: Over(s.cands[i])
  }

  /**
   Schedule independence. With keys and schemas distinct, however the candidates' steps and sandbox runs
   interleave, each one that is over has the provider state, working copy, cache, journal and result of
   its solo run.
   */
  lemma {:induction false} ScheduleIndependent(fan: Fan, p: Payload, acts: seq<Act>, i: nat)
    requires fan.Ok() && SeparateKeys(fan) && SeparateSchemas(fan)
    requires IsSchedule(fan, p, Initial(fan, p), acts) && i < |fan.keys|
    ensures var s := After(fan, p, Initial(fan, p), acts);
            && SysOk(fan, s)
            && (Over(s.cands[i]) ==> View(fan, s, i) == SoloEnd(fan.members[i], p, StartOf(fan.members[i], p)))
  {
    StartsOnCourse(fan, p);
    hide SeparateKeys, SeparateSchemas, Initial, IsSchedule, After, StartOf;
    StaysOnCourse(fan, p, Initial(fan, p), acts);
  }

  /**
   The clones of a job have keys and schemas of their own, so this holds of every fan-out: the i-th has the
   i-th provider, its sandbox builds in its own schema, and all else of the job is shared.
   */
  lemma ClonesAreSeparate(
    job: Job, base: string, sandboxOn: string -> Sandbox, clash: string -> Sandbox,
    factory: nat -> Provider, n: nat)
    ensures var fan := Clones(job, base, sandboxOn, clash, factory, n); SeparateKeys(fan) && SeparateSchemas(fan)
    ensures forall i | 0 <= i < n ::
              var (key, m) := (Clones(job, base, sandboxOn, clash, factory, n).keys[i], Clones(job, base, sandboxOn, clash, factory, n).members[i]);
              && key == "c" + Decimal(i) && m.provider == factory(i) && m.schema == base + "_" + key
              && m.job == job.(env := job.env.(sandbox := m.job.env.sandbox))
              && m.job.env.sandbox == if job.env.sandbox.Some? then Some(sandboxOn(m.schema)) else None
  {
    var fan := Clones(job, base, sandboxOn, clash, factory, n);
    forall i, k | 0 <= i < k < n ensures fan.keys[i] != fan.keys[k] && fan.members[i].schema != fan.members[k].schema {
      SchemasDiffer(base, i, k);
    }
  }

  // --- every schedule can be completed ---

  lemma {:induction false} ScheduleConcat(fan: Fan, p: Payload, s: Sys, first: seq<Act>, second: seq<Act>)
    requires IsSchedule(fan, p, s, first) && IsSchedule(fan, p, After(fan, p, s, first), second)
    ensures IsSchedule(fan, p, s, first + second)
    ensures After(fan, p, s, first + second) == After(fan, p, After(fan, p, s, first), second)
    decreases |first|
  {
    hide Enabled, Next;
    if first == [] {
      assert first + second == second;
    } else {
      ScheduleConcat(fan, p, Next(fan, p, s, first[0]), first[1..], second);
      assert (first + second)[1..] == first[1..] + second;
    }
  }

  lemma {:induction false} ConsSchedule(fan: Fan, p: Payload, s: Sys, a: Act, acts: seq<Act>)
    requires Enabled(fan, p, s, a) && IsSchedule(fan, p, Next(fan, p, s, a), acts)
    ensures IsSchedule(fan, p, s, [a] + acts)
    ensures After(fan, p, s, [a] + acts) == After(fan, p, Next(fan, p, s, a), acts)
  {
    hide Enabled, Next;
    assert ([a] + acts)[1..] == acts;
  }

  lemma {:induction false} NoActs(fan: Fan, p: Payload, s: Sys)
    ensures IsSchedule(fan, p, s, []) && After(fan, p, s, []) == s
  {
  }

  /** Nobody else's variables or sandbox run are touched. */
  ghost predicate OthersStay(s: Sys, n: Sys, i: nat) {
    && |n.cands| == |s.cands| && |n.inFlight| == |s.inFlight|
    && forall k | 0 <= k < |s.cands| && k < |s.inFlight| && k != i :: n.cands[k] == s.cands[k] && n.inFlight[k] == s.inFlight[k]
  }

  /** The next move of a candidate that is not over: it begins its sandbox run, or comes nearer its end. */
  lemma Move(fan: Fan, p: Payload, s: Sys, i: nat) returns (a: Act)
    requires SysOk(fan, s) && i < |fan.keys| && !Over(s.cands[i])
    ensures Enabled(fan, p, s, a)
    ensures var n := Next(fan, p, s, a);
            && SysOk(fan, n) && OthersStay(s, n, i)
            && (a.Begin? ==> !s.inFlight[i] && n.inFlight[i] && View(fan, n, i) == View(fan, s, i))
            && (!a.Begin? ==>
                  || TurnsLeft(p, View(fan, n, i)) < TurnsLeft(p, View(fan, s, i))
                  || (TurnsLeft(p, View(fan, n, i)) == TurnsLeft(p, View(fan, s, i)) && Rank(View(fan, n, i)) < Rank(View(fan, s, i))))
  {
    var (m, c) := (RigOf(fan, s, i).member, View(fan, s, i));
    StepProgress(m.job, m.provider, p, c);
    StepProgress(ClashJob(m), m.provider, p, c);
    WrittenViews(fan, s, i, Solo(m, p, c), i);
    WrittenViews(fan, s, i, Disturbed(m, p, c), i);
    a := if s.inFlight[i] then End(i) else if RunsSandbox(m, p, c) then Begin(i) else Plain(i);
    hide Step, TurnsLeft, Rank, RunsSandbox;
  }

  /** A candidate can be run to its end, whatever the others are in the middle of. */
  lemma {:induction false} FinishOne(fan: Fan, p: Payload, s: Sys, i: nat) returns (acts: seq<Act>)
    requires SysOk(fan, s) && i < |fan.keys|
    ensures IsSchedule(fan, p, s, acts)
    ensures var n := After(fan, p, s, acts); SysOk(fan, n) && OthersStay(s, n, i) && Over(n.cands[i])
    decreases TurnsLeft(p, View(fan, s, i)), Rank(View(fan, s, i)), if s.inFlight[i] then 0 else 1
  {
    if Over(s.cands[i]) {
      acts := [];
      NoActs(fan, p, s);
    } else {
      var a := Move(fan, p, s, i);
      var n := Next(fan, p, s, a);
      hide Enabled, Next, View, IsSchedule, After;
      var rest := FinishOne(fan, p, n, i);
      ConsSchedule(fan, p, s, a, rest);
      acts := [a] + rest;
    }
  }

  lemma {:induction false} FinishSome(fan: Fan, p: Payload, s: Sys, n: nat) returns (acts: seq<Act>)
    requires SysOk(fan, s) && n <= |fan.keys|
    ensures IsSchedule(fan, p, s, acts)
    ensures SysOk(fan, After(fan, p, s, acts)) && forall i | 0 <= i < n :: Over(After(fan, p, s, acts).cands[i])
    decreases n
  {
    hide Over, IsSchedule, After;
    if n == 0 {
      acts := [];
      NoActs(fan, p, s);
    } else {
      var first := FinishSome(fan, p, s, n - 1);
      var second := FinishOne(fan, p, After(fan, p, s, first), n - 1);
      ScheduleConcat(fan, p, s, first, second);
      acts := first + second;
    }
  }

  lemma {:induction false} SchedulesKeepOk(fan: Fan, p: Payload, s: Sys, acts: seq<Act>)
    requires SysOk(fan, s) && IsSchedule(fan, p, s, acts)
    ensures SysOk(fan, After(fan, p, s, acts))
    decreases |acts|
  {
    if acts != [] {
      OkKept(fan, p, s, acts[0]);
      hide Enabled, Next, SysOk;
      SchedulesKeepOk(fan, p, Next(fan, p, s, acts[0]), acts[1..]);
    }
  }

  lemma OkKept(fan: Fan, p: Payload, s: Sys, a: Act)
    requires Enabled(fan, p, s, a)
    ensures SysOk(fan, Next(fan, p, s, a))
  {
    hide Solo, Disturbed, RunsSandbox, Over;
  }

  /** A fan-out never gets stuck: every schedule, however far it has gone, extends to a complete one. */
  lemma ScheduleCompletes(fan: Fan, p: Payload, acts: seq<Act>) returns (more: seq<Act>)
    requires fan.Ok() && IsSchedule(fan, p, Initial(fan, p), acts)
    ensures IsSchedule(fan, p, Initial(fan, p), acts + more) && Complete(After(fan, p, Initial(fan, p), acts + more))
  {
    StartsOk(fan, p);
    var start := Initial(fan, p);
    SchedulesKeepOk(fan, p, start, acts);
    more := FinishSome(fan, p, After(fan, p, start, acts), |fan.keys|);
    ScheduleConcat(fan, p, start, acts, more);
    hide Over, IsSchedule, After, Initial;
  }

  // --- what separate keys and schemas are for ---

  /**
   Under one key two candidates share a context: one that drafted nothing, and would end in no fix,
   proposes whatever the other has drafted.
   */
  lemma SharedKeyLeaksDraft(fan: Fan, p: Payload, s: Sys, i: nat, k: nat)
    requires SysOk(fan, s) && i < |fan.keys| && k < |fan.keys| && i != k && fan.keys[i] == fan.keys[k]
    requires s.cands[i].phase.Asking? && s.cands[i].turns >= p.maxTurns && !s.inFlight[i]
    requires Enabled(fan, p, s, Plain(k))
    requires var m := RigOf(fan, s, i).member;
             && m.job.env.sandbox.None? && ProdAction(m.job).None?
             && FullDiff(m.job.env.differ, RigOf(fan, s, i).ctx.copy) == ""
             && FullDiff(m.job.env.differ, Solo(m, p, View(fan, s, k)).ctx.copy) != ""
    ensures Enabled(fan, p, s, Plain(i)) && Next(fan, p, s, Plain(i)).cands[i].phase.Done?
    ensures Next(fan, p, s, Plain(i)).cands[i].phase.result.outcome.NoFix?
    ensures var n := Next(fan, p, s, Plain(k));
            && Enabled(fan, p, n, Plain(i)) && Next(fan, p, n, Plain(i)).cands[i].phase.Done?
            && var r := Next(fan, p, n, Plain(i)).cands[i].phase.result;
               r.outcome.PrProposed? && r.diff == Some(FullDiff(RigOf(fan, s, i).member.job.env.differ, n.cands[k].ctx.copy))
  {
    var m := RigOf(fan, s, i).member;
    var n := Next(fan, p, s, Plain(k));
    LastPlain(fan, p, s, i);
    WrittenViews(fan, s, k, Solo(m, p, View(fan, s, k)), k);
    SharedView(fan, s, i, k, Solo(m, p, View(fan, s, k)));
    assert n == Written(fan, s, k, Solo(m, p, View(fan, s, k)));
    hide Solo, Written, RunsSandbox, FullDiff, ProdAction;
    LastPlain(fan, p, n, i);
  }

  lemma SharedView(fan: Fan, s: Sys, i: nat, k: nat, c: Cand)
    requires SysOk(fan, s) && i < |fan.keys| && k < |fan.keys| && i != k && fan.keys[i] == fan.keys[k]
    ensures var n := Written(fan, s, k, c);
            && SysOk(fan, n) && n.cands[i] == s.cands[i] && n.cands[k] == c && n.inFlight == s.inFlight
            && RigOf(fan, n, i).ctx == c.ctx && RigOf(fan, n, i).member == RigOf(fan, s, i).member
  {
  }

  /** The step in which a candidate that has no turn left settles without a sandbox. */
  lemma LastPlain(fan: Fan, p: Payload, s: Sys, i: nat)
    requires SysOk(fan, s) && i < |fan.keys| && !s.inFlight[i]
    requires s.cands[i].phase.Asking? && s.cands[i].turns >= p.maxTurns
    requires var m := RigOf(fan, s, i).member; m.job.env.sandbox.None? && ProdAction(m.job).None?
    ensures var diff := FullDiff(RigOf(fan, s, i).member.job.env.differ, RigOf(fan, s, i).ctx.copy);
            && Enabled(fan, p, s, Plain(i)) && Next(fan, p, s, Plain(i)).cands[i].phase.Done?
            && var r := Next(fan, p, s, Plain(i)).cands[i].phase.result;
               if diff == "" then r.outcome.NoFix? else r.outcome.PrProposed? && r.diff == Some(diff)
  {
    hide FullDiff, ProdAction, CompleteCall;
  }

  /** While `i` builds, `k` begins on the same relation; `i` then ends disturbed. */
  lemma Overrun(fan: Fan, p: Payload, s: Sys, i: nat, k: nat)
    requires SysOk(fan, s) && i < |fan.keys| && k < |fan.keys| && i != k
    requires RigOf(fan, s, i).member.schema == RigOf(fan, s, k).member.schema
    requires Enabled(fan, p, s, Begin(i)) && Enabled(fan, p, s, Begin(k))
    ensures var s1 := Next(fan, p, s, Begin(i));
            && Enabled(fan, p, s1, Begin(k))
            && var s2 := Next(fan, p, s1, Begin(k));
               && Enabled(fan, p, s2, End(i))
               && i < |Next(fan, p, s2, End(i)).cands|
               && Next(fan, p, s2, End(i)).cands[i] == Disturbed(RigOf(fan, s, i).member, p, View(fan, s, i))
  {
    hide Over, RunsSandbox, Disturbed, Solo;
  }

  /** A sandbox run whose sample build fails is high-risk. */
  lemma FailedSampleIsHighRisk(job: Job, c: Dict, run: Run, diff: string, explanation: string, edits: nat)
    requires run.tier2.ran && run.tier2.passed == Some(false)
    ensures Gate(job, c, run, diff, explanation, edits).score.Some?
    ensures Gate(job, c, run, diff, explanation, edits).score.value.risk.High?
  {
    hide ChangedLines, ChangedPaths, ModelPath, Scoring.Confidence, Scoring.Factors, SqlColumns.OutputSchemaDelta;
  }

  /** The sandbox run that another build breaks into fails its sample build. */
  predicate ClashFails(m: Member, c: Cand) {
    var bad := m.clash(|c.ctx.checks|, Contents(c.ctx.copy), m.job.env.modelSelect.GetOr(""));
    bad.Some? && bad.value.tier2.ran && bad.value.tier2.passed == Some(false)
  }

  /** The candidate is over, and its result carries this risk. */
  predicate HasRisk(c: Cand, risk: Scoring.Risk) {
    c.phase.Done? && c.phase.result.score.Some? && c.phase.result.score.value.risk == risk
  }

  lemma DisturbedVerdict(m: Member, p: Payload, c: Cand)
    requires c.phase.Verifying? && Recorded(c.journal, VerifyTask, 0).None? && ClashFails(m, c)
    ensures HasRisk(Disturbed(m, p, c), Scoring.High)
  {
    var job := ClashJob(m);
    var bad := m.clash(|c.ctx.checks|, Contents(c.ctx.copy), m.job.env.modelSelect.GetOr("")).value;
    FailedSampleIsHighRisk(job, c.ctx.copy, bad, c.phase.diff, c.phase.explanation, c.edits);
    hide Gate, Recorded, FullDiff, Contents;
  }

  /**
   With one schema for two candidates, a schedule exists in which the other's build breaks a sample run
   that passes alone: a draft its solo run calls low-risk is called high-risk.
   */
  lemma {:induction false} SharedSchemaClashes(fan: Fan, p: Payload, s: Sys, i: nat, k: nat)
    requires SysOk(fan, s) && i < |fan.keys| && k < |fan.keys| && i != k
    requires RigOf(fan, s, i).member.schema == RigOf(fan, s, k).member.schema
    requires Enabled(fan, p, s, Begin(i)) && Enabled(fan, p, s, Begin(k))
    requires View(fan, s, i).phase.Verifying? && Recorded(s.cands[i].journal, VerifyTask, 0).None?
    requires HasRisk(Solo(RigOf(fan, s, i).member, p, View(fan, s, i)), Scoring.Low)
    requires ClashFails(RigOf(fan, s, i).member, View(fan, s, i))
    ensures var acts := [Begin(i)] + ([Begin(k)] + ([End(i)] + []));
            && IsSchedule(fan, p, s, acts)
            && i < |After(fan, p, s, acts).cands| && HasRisk(After(fan, p, s, acts).cands[i], Scoring.High)
  {
    Overrun(fan, p, s, i, k);
    DisturbedVerdict(RigOf(fan, s, i).member, p, View(fan, s, i));
    var s1 := Next(fan, p, s, Begin(i));
    var s2 := Next(fan, p, s1, Begin(k));
    var s3 := Next(fan, p, s2, End(i));
    hide *;
    NoActs(fan, p, s3);
    ConsSchedule(fan, p, s2, End(i), []);
    ConsSchedule(fan, p, s1, Begin(k), [End(i)] + []);
    ConsSchedule(fan, p, s, Begin(i), [Begin(k)] + ([End(i)] + []));
  }

  // --- what the judge is given ---

  /** What a candidate hands to the judge; none when its workflow raised. */
  function OutcomeOf(c: Cand): Option<Result> {
    if c.phase.Done? then Some(c.phase.result) else None
  }

  function OutcomesOf(cands: seq<Cand>): (outcomes: seq<Option<Result>>)
    ensures |outcomes| == |cands| && forall i | 0 <= i < |cands| :: outcomes[i] == OutcomeOf(cands[i])
  {
    seq(|cands|, i requires 0 <= i < |cands| => OutcomeOf(cands[i]))
  }

  lemma {:induction false} SoloOutcome(fan: Fan, p: Payload, acts: seq<Act>, i: nat)
    requires fan.Ok() && SeparateKeys(fan) && SeparateSchemas(fan)
    requires IsSchedule(fan, p, Initial(fan, p), acts) && Complete(After(fan, p, Initial(fan, p), acts)) && i < |fan.keys|
    ensures var s := After(fan, p, Initial(fan, p), acts);
            |s.cands| == |fan.keys| && OutcomeOf(s.cands[i]) == OutcomeOf(SoloEnd(fan.members[i], p, StartOf(fan.members[i], p)))
  {
    hide SeparateKeys, SeparateSchemas, Initial, IsSchedule, After, StartOf, SoloEnd, Over;
    ScheduleIndependent(fan, p, acts, i);
    var s := After(fan, p, Initial(fan, p), acts);
    assert Over(s.cands[i]);
    assert OutcomeOf(View(fan, s, i)) == OutcomeOf(s.cands[i]);
  }

  /** So any two complete schedules hand the judge the same outcomes. */
  lemma {:induction false} OutcomesIndependent(fan: Fan, p: Payload, acts: seq<Act>, acts': seq<Act>)
    requires fan.Ok() && SeparateKeys(fan) && SeparateSchemas(fan)
    requires IsSchedule(fan, p, Initial(fan, p), acts) && Complete(After(fan, p, Initial(fan, p), acts))
    requires IsSchedule(fan, p, Initial(fan, p), acts') && Complete(After(fan, p, Initial(fan, p), acts'))
    ensures OutcomesOf(After(fan, p, Initial(fan, p), acts).cands) == OutcomesOf(After(fan, p, Initial(fan, p), acts').cands)
  {
    var (s, s') := (After(fan, p, Initial(fan, p), acts), After(fan, p, Initial(fan, p), acts'));
    StartsOk(fan, p);
    SchedulesKeepOk(fan, p, Initial(fan, p), acts);
    SchedulesKeepOk(fan, p, Initial(fan, p), acts');
    hide SeparateKeys, SeparateSchemas, Initial, IsSchedule, After, StartOf, SoloEnd, Complete, OutcomeOf;
    forall i | 0 <= i < |fan.keys| ensures OutcomeOf(s.cands[i]) == OutcomeOf(s'.cands[i]) {
      SoloOutcome(fan, p, acts, i);
      SoloOutcome(fan, p, acts', i);
    }
    assert OutcomesOf(s.cands) == OutcomesOf(s'.cands);
  }
}
