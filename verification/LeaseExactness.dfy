/**
 Punctual workers are not only enough for the single-writer facts: they are what those facts need.
 From any state with an overdue worker, steps that take no time at all lead to two holders of one
 job, a second write of its result, and a recorded link beside a result that proposes no PR.
 */
module LeaseExactness {
  import opened Basics
  import opened JobQueue
  import opened QueueSystem
  import opened LeaseProtocol
  import QueueSafety

  predicate TickFree(run: seq<Action>) {
    forall i | 0 <= i < |run| :: !run[i].Tick?
  }

  ghost predicate NoSharedJob(s: Sys) {
    forall w, v | w in s.workers && v in s.workers && w != v :: s.workers[w].job != s.workers[v].job
  }

  ghost predicate LinksPropose(s: Sys) {
    forall j | j in s.rows && s.rows[j].prUrl.Some? :: Proposes(s.rows[j])
  }

  ghost predicate WrittenOnce(s: Sys) {
    forall j | j in s.rows :: s.Of(j).writes <= 1
  }

  /** Whatever happens before the clock moves, the single-writer invariant stays. */
  ghost predicate SafeNow(s: Sys) {
    forall run | IsRun(s, run) && TickFree(run) :: SingleWriter(After(s, run))
  }

  // --- punctual workers are enough ---

  lemma StaysOnTime(s: Sys, a: Action)
    requires OnTime(s) && Enabled(s, a) && !a.Tick?
    ensures OnTime(Next(s, a))
  {
  }

  lemma {:induction false} OnTimeIsSafe(s: Sys, run: seq<Action>)
    requires SingleWriter(s) && OnTime(s) && IsRun(s, run) && TickFree(run)
    ensures SingleWriter(After(s, run))
    decreases |run|
  {
    hide SingleWriter, OnTime, Next, Enabled;
    if run != [] {
      assert !run[0].Tick?;
      assert forall i | 0 <= i < |run[1..]| :: run[1..][i] == run[i + 1];
      StaysOnTime(s, run[0]);
      SingleWriterStep(s, run[0]);
      OnTimeIsSafe(Next(s, run[0]), run[1..]);
    }
  }

  // --- an overdue worker breaks everything ---

  lemma {:induction false} Unused(used: set<nat>) returns (n: nat)
    ensures forall m | m in used :: m < n
    decreases used
  {
    if used == {} {
      n := 0;
    } else {
      var x :| x in used;
      var k := Unused(used - {x});
      n := if k <= x then x + 1 else k;
      assert forall m | m in used :: m == x || m in used - {x};
    }
  }

  const DRAFT := Result(PrProposed, "diff")
  const GIVEN_UP := Result(NoFix, "")

  /** The row of an overdue worker: leased out, lapsed, never written. */
  lemma OverdueRow(s: Sys, w: nat)
    requires SingleWriter(s) && w in s.workers && s.workers[w].until < s.now
    ensures var j := s.workers[w].job;
            && j in s.rows && Claimable(s.rows[j], s.now)
            && s.rows[j].prUrl.None? && s.rows[j].prClaimed.None?
  {
    assert Holds(s, w);
    assert RowOk(s.rows[s.workers[w].job]);
  }

  /** A second worker claims the row while the first still works on it. */
  lemma SecondClaim(s: Sys, w: nat, u: nat)
    requires SingleWriter(s) && w in s.workers && s.workers[w].until < s.now && u !in s.workers
    ensures var j := s.workers[w].job;
            var a := Claim(u, j, 0, s.rows.Keys - {j});
            && Enabled(s, a)
            && var n := Next(s, a);
               && w in n.workers && u in n.workers && w != u && n.workers[w].job == n.workers[u].job == j
               && j in n.rows && n.rows[j].prUrl.None? && n.rows[j].prClaimed.None?
               && n.rows.Keys == s.rows.Keys && n.pollers == s.pollers && n.now == s.now
  {
    OverdueRow(s, w);
  }

  /** It writes back a proposal. */
  lemma SecondWrites(s: Sys, w: nat, u: nat, j: Id)
    requires w in s.workers && u in s.workers && w != u && s.workers[w].job == s.workers[u].job == j
    requires j in s.rows && s.rows[j].prUrl.None? && s.rows[j].prClaimed.None?
    ensures var a := Finish(u, DRAFT);
            && Enabled(s, a)
            && var n := Next(s, a);
               && w in n.workers && n.workers[w].job == j && j in n.rows
               && PrCandidate(n.rows[j], n.now) && n.rows[j].result == Some(DRAFT)
               && n.pollers == s.pollers && n.Of(j).writes == s.Of(j).writes + 1
  {
  }

  /** A poller fetches just that row. */
  lemma FetchesIt(s: Sys, w: nat, j: Id, p: nat)
    requires w in s.workers && s.workers[w].job == j && j in s.rows && p !in s.pollers
    requires PrCandidate(s.rows[j], s.now) && s.rows[j].result == Some(DRAFT)
    ensures var a := Fetch(p, [j], s.rows.Keys - {j});
            && Enabled(s, a)
            && var n := Next(s, a);
               && n.workers == s.workers && j in n.rows && n.rows[j].prUrl.None?
               && p in n.pollers && n.pollers[p].batch == [Ticket(j, DRAFT)] && n.pollers[p].turn == 0 && n.pollers[p].phase.Opening?
               && n.Of(j).writes == s.Of(j).writes
  {
    assert Members([j]) == {j};
    assert Tickets(s.rows, [j]) == [Ticket(j, DRAFT)];
  }

  /** The PR is opened and its link recorded. */
  lemma OpensAndRecords(s: Sys, w: nat, j: Id, p: nat)
    requires w in s.workers && s.workers[w].job == j && j in s.rows && s.rows[j].prUrl.None?
    requires p in s.pollers && s.pollers[p].batch == [Ticket(j, DRAFT)] && s.pollers[p].turn == 0 && s.pollers[p].phase.Opening?
    ensures var a := OpenSucceeds(p, "url", "branch");
            && Enabled(s, a)
            && var m := Next(s, a);
               && Enabled(m, Record(p))
               && var n := Next(m, Record(p));
                  && n.workers == s.workers && j in n.rows && n.rows[j].prUrl.Some?
                  && n.Of(j).writes == s.Of(j).writes
  {
  }

  /** The overdue worker writes back at last. */
  lemma LateWrites(s: Sys, w: nat, j: Id)
    requires w in s.workers && s.workers[w].job == j && j in s.rows && s.rows[j].prUrl.Some?
    ensures var a := Finish(w, GIVEN_UP);
            && Enabled(s, a)
            && var n := Next(s, a);
               && j in n.rows && n.rows[j].prUrl.Some? && !Proposes(n.rows[j])
               && n.Of(j).writes == s.Of(j).writes + 1
  {
  }

  lemma {:induction false} RunCons(s: Sys, a: Action, run: seq<Action>)
    requires Enabled(s, a) && IsRun(Next(s, a), run)
    ensures IsRun(s, [a] + run) && After(s, [a] + run) == After(Next(s, a), run)
    ensures TickFree([a] + run) <==> !a.Tick? && TickFree(run)
  {
    hide Enabled, Next;
    var all := [a] + run;
    assert all[1..] == run;
    assert forall i | 0 <= i < |run| :: all[i + 1] == run[i];
    if TickFree(all) { forall i | 0 <= i < |run| ensures !run[i].Tick? { assert !all[i + 1].Tick?; } }
  }

  lemma {:induction false} NoRun(s: Sys)
    ensures IsRun(s, []) && After(s, []) == s && TickFree([])
  {
  }

  /** From an overdue worker, without a tick: first two holders, in the end a link without a proposal and a second write. */
  lemma OverdueBreaks(s: Sys, w: nat) returns (shared: seq<Action>, broken: seq<Action>)
    requires SingleWriter(s) && w in s.workers && s.workers[w].until < s.now
    ensures IsRun(s, shared) && TickFree(shared) && !NoSharedJob(After(s, shared))
    ensures IsRun(s, broken) && TickFree(broken) && !LinksPropose(After(s, broken)) && !WrittenOnce(After(s, broken))
  {
    var j := s.workers[w].job;
    var u := Unused(s.workers.Keys);
    var p := Unused(s.pollers.Keys);
    var a1 := Claim(u, j, 0, s.rows.Keys - {j});
    SecondClaim(s, w, u);
    var s1 := Next(s, a1);
    assert !NoSharedJob(s1);
    SecondWrites(s1, w, u, j);
    var s2 := Next(s1, Finish(u, DRAFT));
    FetchesIt(s2, w, j, p);
    var a3 := Fetch(p, [j], s2.rows.Keys - {j});
    var s3 := Next(s2, a3);
    OpensAndRecords(s3, w, j, p);
    var a4 := OpenSucceeds(p, "url", "branch");
    var s4 := Next(s3, a4);
    var s5 := Next(s4, Record(p));
    LateWrites(s5, w, j);
    var s6 := Next(s5, Finish(w, GIVEN_UP));
    assert !LinksPropose(s6) && s6.Of(j).writes >= 2 && !WrittenOnce(s6);
    hide *;
    NoRun(s1);
    RunCons(s, a1, []);
    NoRun(s6);
    RunCons(s5, Finish(w, GIVEN_UP), []);
    RunCons(s4, Record(p), [Finish(w, GIVEN_UP)] + []);
    RunCons(s3, a4, [Record(p)] + ([Finish(w, GIVEN_UP)] + []));
    RunCons(s2, a3, [a4] + ([Record(p)] + ([Finish(w, GIVEN_UP)] + [])));
    RunCons(s1, Finish(u, DRAFT), [a3] + ([a4] + ([Record(p)] + ([Finish(w, GIVEN_UP)] + []))));
    RunCons(s, a1, [Finish(u, DRAFT)] + ([a3] + ([a4] + ([Record(p)] + ([Finish(w, GIVEN_UP)] + [])))));
    shared := [a1] + [];
    broken := [a1] + ([Finish(u, DRAFT)] + ([a3] + ([a4] + ([Record(p)] + ([Finish(w, GIVEN_UP)] + [])))));
  }

  // --- the exact condition ---

  lemma SingleWriterMeans(s: Sys)
    requires SingleWriter(s)
    ensures NoSharedJob(s) && LinksPropose(s) && WrittenOnce(s)
  {
  }

  /**
   From a single-writer state, each of the guarantees (one holder per job, one write of a result, no link
   without a proposal) survives everything that can happen before the clock moves exactly when no live
   worker is past its lease.
   */
  lemma {:induction false} SafeIffOnTime(s: Sys)
    requires SingleWriter(s)
    ensures OnTime(s) <==> SafeNow(s)
    ensures OnTime(s) <==> forall run | IsRun(s, run) && TickFree(run) :: NoSharedJob(After(s, run))
    ensures OnTime(s) <==> forall run | IsRun(s, run) && TickFree(run) :: LinksPropose(After(s, run))
    ensures OnTime(s) <==> forall run | IsRun(s, run) && TickFree(run) :: WrittenOnce(After(s, run))
  {
    if OnTime(s) {
      hide *;
      forall run | IsRun(s, run) && TickFree(run)
        ensures SingleWriter(After(s, run)) && NoSharedJob(After(s, run)) && LinksPropose(After(s, run)) && WrittenOnce(After(s, run))
      {
        OnTimeIsSafe(s, run);
        SingleWriterMeans(After(s, run));
      }
      SafeNowIs(s);
    } else {
      var w :| w in s.workers && s.workers[w].until < s.now;
      var shared, broken := OverdueBreaks(s, w);
      hide *;
      SafeNowIs(s);
      if SingleWriter(After(s, broken)) { SingleWriterMeans(After(s, broken)); }
    }
  }

  lemma {:induction false} SafeNowIs(s: Sys)
    ensures SafeNow(s) <==> forall run | IsRun(s, run) && TickFree(run) :: SingleWriter(After(s, run))
  {
  }

  /** At no moment of the run can anything that happens before the next tick break the invariant. */
  ghost predicate AlwaysSafe(s: Sys, run: seq<Action>)
    requires IsRun(s, run)
    decreases |run|
  {
    SafeNow(s) && (run == [] || AlwaysSafe(Next(s, run[0]), run[1..]))
  }

  /** So a run is safe at every moment exactly when every worker in it writes back or dies in time. */
  lemma {:induction false} RunSafeIffPunctual(s: Sys, run: seq<Action>)
    requires SingleWriter(s) && IsRun(s, run)
    ensures AlwaysOnTime(s, run) <==> AlwaysSafe(s, run)
    decreases |run|
  {
    hide SingleWriter, OnTime, SafeNow, Next, Enabled;
    SafeIffOnTime(s);
    if OnTime(s) && run != [] {
      SingleWriterStep(s, run[0]);
      RunSafeIffPunctual(Next(s, run[0]), run[1..]);
    }
  }
}
