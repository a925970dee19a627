/** A poller's turn on one job: how it can go, and what a failed one leaves. */
module PollerTurns {
  import opened Basics
  import opened JobQueue
  import opened QueueSystem

  /** The job in turn, and where the poller stands with it. */
  predicate At(s: Sys, p: nat, j: Id, phase: Phase) {
    InTurn(s, p) && s.Ticketed(p).job == j && s.pollers[p].phase == phase
  }

  /** The next ticket, if there is one, is taken from the start and from this moment. */
  predicate MovedOn(s: Sys, n: Sys, p: nat)
    requires InTurn(s, p)
  {
    var b := s.pollers[p];
    if b.turn + 1 == |b.batch| then n.pollers == s.pollers - {p}
    else n.pollers == s.pollers[p := Busy(b.batch, b.fetchedAt, s.now, b.turn + 1, Opening)]
  }

  predicate StaysWith(s: Sys, n: Sys, p: nat, phase: Phase)
    requires InTurn(s, p)
  {
    var b := s.pollers[p];
    n.pollers == s.pollers[p := Busy(b.batch, b.fetchedAt, b.turnFrom, b.turn, phase)]
  }

  /** A PR can be opened exactly for a proposal with a diff; a turn goes on after success, and is given up through a release. */
  lemma TurnSteps(s: Sys, p: nat, url: string, branch: string)
    requires InTurn(s, p)
    ensures var (r, phase) := (s.Ticketed(p).result, s.pollers[p].phase);
            && (Enabled(s, OpenSucceeds(p, url, branch)) <==> phase == Opening && r.outcome == PrProposed && |r.diff| > 0)
            && (Enabled(s, OpenFails(p)) <==> phase == Opening)
            && (Enabled(s, Record(p)) <==> phase.Recording?) && (Enabled(s, RecordErrors(p)) <==> phase.Recording?)
            && (Enabled(s, Release(p)) <==> phase == Releasing) && (Enabled(s, ReleaseErrors(p)) <==> phase == Releasing)
    ensures Enabled(s, OpenSucceeds(p, url, branch)) ==>
              StaysWith(s, Next(s, OpenSucceeds(p, url, branch)), p, Recording(url, branch))
    ensures Enabled(s, OpenFails(p)) ==> StaysWith(s, Next(s, OpenFails(p)), p, Releasing)
    ensures Enabled(s, RecordErrors(p)) ==> StaysWith(s, Next(s, RecordErrors(p)), p, Releasing)
    ensures Enabled(s, Record(p)) ==> MovedOn(s, Next(s, Record(p)), p)
    ensures Enabled(s, Release(p)) ==> MovedOn(s, Next(s, Release(p)), p)
    ensures Enabled(s, ReleaseErrors(p)) ==> MovedOn(s, Next(s, ReleaseErrors(p)), p)
  {
  }

  /** Only the two steps that record or release change a row in a turn. */
  lemma OthersLeaveRows(s: Sys, a: Action)
    requires Enabled(s, a) && (a.OpenSucceeds? || a.OpenFails? || a.RecordErrors? || a.ReleaseErrors? || a.PollerDies?)
    ensures Next(s, a).rows == s.rows && Next(s, a).now == s.now
  {
  }

  /** A crash takes the worker or the poller, and touches nothing else. */
  lemma CrashesLeaveTheRest(s: Sys, a: Action)
    requires Enabled(s, a) && (a.WorkerDies? || a.PollerDies?)
    ensures var n := Next(s, a);
            && n.rows == s.rows && n.acks == s.acks && n.tally == s.tally && n.now == s.now
            && (a.WorkerDies? ==>
                  && a.worker !in n.workers && n.pollers == s.pollers
                  && forall w | w in s.workers && w != a.worker :: w in n.workers && n.workers[w] == s.workers[w])
            && (a.PollerDies? ==>
                  && a.poller !in n.pollers && n.workers == s.workers
                  && forall p | p in s.pollers && p != a.poller :: p in n.pollers && n.pollers[p] == s.pollers[p])
  {
  }

  lemma RunOfTwo(s: Sys, a: Action, b: Action)
    requires Enabled(s, a) && Enabled(Next(s, a), b)
    ensures IsRun(s, [a, b]) && After(s, [a, b]) == Next(Next(s, a), b)
  {
    assert [a, b][1..] == [b] && [b][1..] == [];
    assert IsRun(Next(Next(s, a), b), []);
    assert IsRun(Next(s, a), [b]) && After(Next(s, a), [b]) == Next(Next(s, a), b);
  }

  /** A failed opening leaves the job to be fetched again at once, without waiting out its claim. */
  lemma FailedOpenIsRetried(s: Sys, p: nat, j: Id)
    requires At(s, p, j, Opening) && j in s.rows
    requires s.rows[j].state.Done? && s.rows[j].result.Some? && s.rows[j].result.value.outcome.PrProposed? && s.rows[j].prUrl.None?
    ensures IsRun(s, [OpenFails(p), Release(p)])
    ensures var n := After(s, [OpenFails(p), Release(p)]);
            j in n.rows && PrCandidate(n.rows[j], n.now) && n.rows[j] == s.rows[j].(prClaimed := None)
  {
    TurnSteps(s, p, "", "");
    OthersLeaveRows(s, OpenFails(p));
    TurnSteps(Next(s, OpenFails(p)), p, "", "");
    RunOfTwo(s, OpenFails(p), Release(p));
  }

  /** A PR whose record failed is opened a second time: `OnePrPerJob` needs the runs in which nothing is lost. */
  lemma LostRecordOpensTwice(s: Sys, p: nat, q: nat, j: Id, url: string, branch: string)
    requires At(s, p, j, Recording(url, branch)) && q !in s.pollers && s.Of(j).opens >= 1
    requires j in s.rows && s.rows[j].state.Done? && s.rows[j].prUrl.None? && s.rows[j].result.Some?
    requires s.rows[j].result.value.outcome.PrProposed? && s.rows[j].result.value.diff != ""
    ensures var lost := [RecordErrors(p), Release(p)];
            IsRun(s, lost) && var m := After(s, lost);
            var again := [Fetch(q, [j], m.rows.Keys - {j}), OpenSucceeds(q, url, branch)];
            IsRun(m, again) && After(m, again).Of(j).opens >= 2
  {
    TurnSteps(s, p, url, branch);
    OthersLeaveRows(s, RecordErrors(p));
    TurnSteps(Next(s, RecordErrors(p)), p, url, branch);
    RunOfTwo(s, RecordErrors(p), Release(p));
    var m := After(s, [RecordErrors(p), Release(p)]);
    Refetched(m, q, j, url, branch);
  }

  lemma Refetched(m: Sys, q: nat, j: Id, url: string, branch: string)
    requires q !in m.pollers && m.Of(j).opens >= 1 && j in m.rows && PrCandidate(m.rows[j], m.now)
    requires m.rows[j].result.value.diff != ""
    ensures var fetch := Fetch(q, [j], m.rows.Keys - {j});
            && Enabled(m, fetch) && Enabled(Next(m, fetch), OpenSucceeds(q, url, branch))
            && IsRun(m, [fetch, OpenSucceeds(q, url, branch)])
            && After(m, [fetch, OpenSucceeds(q, url, branch)]).Of(j).opens >= 2
  {
    var fetch := Fetch(q, [j], m.rows.Keys - {j});
    assert Tickets(m.rows, [j]) == [Ticket(j, m.rows[j].result.value)];
    RunOfTwo(m, fetch, OpenSucceeds(q, url, branch));
  }
}
