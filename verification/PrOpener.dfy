/**
 Exclusion between PR pollers. A fetch stamps up to 20 rows at once but opens them one after
 another, so the 300 s claim has to outlast the whole batch: with every turn ended within 15 s it does.
 */
module PrOpener {
  import opened Basics
  import opened JobQueue
  import opened QueueSystem
  import QueueSafety

  const TURN_SECS: int := 15

  /** Every turn in hand has lasted at most `TURN_SECS` so far. */
  ghost predicate Prompt(s: Sys) {
    forall p | p in s.pollers :: s.now - s.pollers[p].turnFrom <= TURN_SECS
  }

  ghost predicate AlwaysPrompt(s: Sys, run: seq<Action>)
    requires IsRun(s, run)
    decreases |run|
  {
    Prompt(s) && (run == [] || AlwaysPrompt(Next(s, run[0]), run[1..]))
  }

  /** The tickets of a poller that are still to be worked, `batch[turn]` included. */
  ghost predicate Working(s: Sys, p: nat, i: nat) {
    p in s.pollers && s.pollers[p].turn <= i < |s.pollers[p].batch|
  }

  function JobAt(s: Sys, p: nat, i: nat): Id
    requires p in s.pollers && i < |s.pollers[p].batch|
  {
    s.pollers[p].batch[i].job
  }

  predicate ClockOk(s: Sys, p: nat)
    requires p in s.pollers
  {
    var b := s.pollers[p];
    && b.turn < |b.batch| <= PR_BATCH
    && b.fetchedAt <= b.turnFrom <= b.fetchedAt + TURN_SECS * b.turn
    && b.turnFrom <= s.now
  }

  /** A row still to be worked carries the stamp of the poller that fetched it and no link. */
  ghost predicate Stamped(s: Sys, p: nat, i: nat)
    requires Working(s, p, i)
  {
    var j := JobAt(s, p, i);
    j in s.rows && s.rows[j].prUrl.None? && s.rows[j].prClaimed == Some(s.pollers[p].fetchedAt)
  }

  ghost predicate Disjoint(s: Sys) {
    forall p, i, q, k | Working(s, p, i) && Working(s, q, k) && JobAt(s, p, i) == JobAt(s, q, k) ::
      p == q && i == k
  }

  ghost predicate Exclusive(s: Sys) {
    && (forall p | p in s.pollers :: ClockOk(s, p))
    && (forall p, i | Working(s, p, i) :: Stamped(s, p, i))
    && Disjoint(s)
  }

  /** No row of a claimed batch is claimable again before its own turn has ended. */
  lemma NotReclaimable(s: Sys, p: nat, i: nat)
    requires Exclusive(s) && Prompt(s) && Working(s, p, i)
    ensures JobAt(s, p, i) in s.rows && !PrCandidate(s.rows[JobAt(s, p, i)], s.now)
  {
    assert ClockOk(s, p) && Stamped(s, p, i);
  }

  /** Only the poller whose turn it is touches a stamped row's claim or link. */
  lemma StampKept(s: Sys, a: Action, p: nat, i: nat)
    requires Exclusive(s) && Prompt(s) && Enabled(s, a) && Working(s, p, i) && Working(Next(s, a), p, i)
    ensures Next(s, a).pollers[p].fetchedAt == s.pollers[p].fetchedAt
    ensures JobAt(Next(s, a), p, i) == JobAt(s, p, i)
    ensures Stamped(Next(s, a), p, i)
  {
    RowsAfter(s, a);
    NotReclaimable(s, p, i);
    assert Stamped(s, p, i);
    if a.Record? || a.Release? {
      assert Working(s, a.poller, s.pollers[a.poller].turn);
    }
  }

  lemma ClockStep(s: Sys, a: Action, p: nat)
    requires Exclusive(s) && Prompt(s) && Enabled(s, a) && p in Next(s, a).pollers
    ensures ClockOk(Next(s, a), p)
  {
    if p in s.pollers { assert ClockOk(s, p); }
  }

  /** A ticket that is new after the step was just fetched. */
  lemma NewTicket(s: Sys, a: Action, p: nat, i: nat)
    requires Enabled(s, a) && Working(Next(s, a), p, i) && !Working(s, p, i)
    requires forall q | q in s.pollers :: ClockOk(s, q)
    ensures a.Fetch? && a.poller == p && i < |a.ids| && JobAt(Next(s, a), p, i) == a.ids[i]
    ensures PrCandidate(s.rows[a.ids[i]], s.now) && Stamped(Next(s, a), p, i)
  {
    RowsAfter(s, a);
  }

  lemma OldTicket(s: Sys, a: Action, p: nat, i: nat)
    requires Enabled(s, a) && Working(Next(s, a), p, i) && Working(s, p, i)
    ensures JobAt(Next(s, a), p, i) == JobAt(s, p, i)
  {
  }

  lemma DisjointStep(s: Sys, a: Action)
    requires Exclusive(s) && Prompt(s) && Enabled(s, a)
    ensures Disjoint(Next(s, a))
  {
    var n := Next(s, a);
    forall p, i, q, k | Working(n, p, i) && Working(n, q, k) && JobAt(n, p, i) == JobAt(n, q, k)
      ensures p == q && i == k
    {
      if Working(s, p, i) { OldTicket(s, a, p, i); NotReclaimable(s, p, i); } else { NewTicket(s, a, p, i); }
      if Working(s, q, k) { OldTicket(s, a, q, k); NotReclaimable(s, q, k); } else { NewTicket(s, a, q, k); }
    }
  }

  lemma ExclusiveStep(s: Sys, a: Action)
    requires Exclusive(s) && Prompt(s) && Enabled(s, a)
    ensures Exclusive(Next(s, a))
  {
    var n := Next(s, a);
    forall p | p in n.pollers ensures ClockOk(n, p) { ClockStep(s, a, p); }
    forall p, i | Working(n, p, i) ensures Stamped(n, p, i) {
      if Working(s, p, i) { StampKept(s, a, p, i); } else { NewTicket(s, a, p, i); }
    }
    DisjointStep(s, a);
  }

  lemma {:induction false} ExclusiveRuns(s: Sys, run: seq<Action>)
    requires Exclusive(s) && IsRun(s, run) && AlwaysPrompt(s, run)
    ensures Exclusive(After(s, run)) && Prompt(After(s, run))
    decreases |run|
  {
    if run != [] {
      ExclusiveStep(s, run[0]);
      ExclusiveRuns(Next(s, run[0]), run[1..]);
    }
  }

  /** At most one poller is ever working on a job, and meanwhile nobody can claim it. */
  lemma {:induction false} OnePollerPerJob(s: Sys, run: seq<Action>, p: nat, i: nat, q: nat, k: nat)
    requires Exclusive(s) && IsRun(s, run) && AlwaysPrompt(s, run)
    requires Working(After(s, run), p, i) && Working(After(s, run), q, k)
    requires JobAt(After(s, run), p, i) == JobAt(After(s, run), q, k)
    ensures p == q && i == k
    ensures var t := After(s, run);
            JobAt(t, p, i) in t.rows && !PrCandidate(t.rows[JobAt(t, p, i)], t.now)
  {
    ExclusiveRuns(s, run);
    assert Stamped(After(s, run), p, i);
    NotReclaimable(After(s, run), p, i);
  }

  // --- one PR per job ---

  /** The run loses no poller and every opened PR is recorded. */
  predicate NothingLost(run: seq<Action>) {
    forall i | 0 <= i < |run| :: !run[i].PollerDies? && !run[i].RecordErrors?
  }

  /** Somebody has opened a PR for `j` and is about to record it. */
  ghost predicate BeingRecorded(s: Sys, j: Id) {
    exists p :: InTurn(s, p) && s.Ticketed(p).job == j && s.pollers[p].phase.Recording?
  }

  ghost predicate OpensOk(s: Sys) {
    forall j | j in s.rows ::
      s.Of(j).opens == 0 || (s.Of(j).opens == 1 && (s.rows[j].prUrl.Some? || BeingRecorded(s, j)))
  }

  /** The ticket in hand has no PR yet. */
  lemma NothingOpenedYet(s: Sys, p: nat)
    requires Exclusive(s) && OpensOk(s) && InTurn(s, p) && s.pollers[p].phase.Opening?
    ensures s.Of(s.Ticketed(p).job).opens == 0
  {
    var j := s.Ticketed(p).job;
    assert Working(s, p, s.pollers[p].turn) && Stamped(s, p, s.pollers[p].turn);
    if BeingRecorded(s, j) {
      var q :| InTurn(s, q) && s.Ticketed(q).job == j && s.pollers[q].phase.Recording?;
      assert Working(s, q, s.pollers[q].turn) && JobAt(s, q, s.pollers[q].turn) == j;
    }
  }

  /** With no poller and no record lost, an opened PR stays in hand until its link is written. */
  lemma RecordingKept(s: Sys, a: Action, j: Id)
    requires Enabled(s, a) && !a.PollerDies? && !a.RecordErrors? && j in s.rows && BeingRecorded(s, j)
    ensures BeingRecorded(Next(s, a), j) || RowAfter(s, a, j).prUrl.Some?
  {
    var p :| InTurn(s, p) && s.Ticketed(p).job == j && s.pollers[p].phase.Recording?;
    var n := Next(s, a);
    if !(a.Record? && a.poller == p) {
      assert InTurn(n, p) && n.pollers[p] == s.pollers[p];
    }
  }

  lemma OpensStep(s: Sys, a: Action, j: Id)
    requires Exclusive(s) && OpensOk(s) && Enabled(s, a) && !a.PollerDies? && !a.RecordErrors? && j in s.rows
    ensures var o := Next(s, a).Of(j).opens;
            o == 0 || (o == 1 && (RowAfter(s, a, j).prUrl.Some? || BeingRecorded(Next(s, a), j)))
  {
    var n := Next(s, a);
    if a.OpenSucceeds? && s.Ticketed(a.poller).job == j {
      NothingOpenedYet(s, a.poller);
      assert InTurn(n, a.poller) && n.Ticketed(a.poller).job == j;
    } else {
      assert n.Of(j).opens == s.Of(j).opens;
      if BeingRecorded(s, j) { RecordingKept(s, a, j); }
    }
  }

  lemma OpensOkStep(s: Sys, a: Action)
    requires Exclusive(s) && OpensOk(s) && QueueSafety.TallyScoped(s)
    requires Enabled(s, a) && !a.PollerDies? && !a.RecordErrors?
    ensures OpensOk(Next(s, a))
  {
    var n := Next(s, a);
    RowsAfter(s, a);
    forall j | j in n.rows
      ensures n.Of(j).opens == 0 || (n.Of(j).opens == 1 && (n.rows[j].prUrl.Some? || BeingRecorded(n, j)))
    {
      if j in s.rows {
        OpensStep(s, a, j);
      } else {
        assert n.tally == s.tally;
      }
    }
  }

  /** With prompt turns, and barring crashes and failed records, at most one PR is opened per job. */
  lemma {:induction false} OnePrPerJob(s: Sys, run: seq<Action>, j: Id)
    requires Good(s) && QueueSafety.TallyScoped(s) && Exclusive(s) && OpensOk(s)
    requires IsRun(s, run) && AlwaysPrompt(s, run) && NothingLost(run) && j in After(s, run).rows
    ensures After(s, run).Of(j).opens <= 1
    decreases |run|
  {
    if run != [] {
      GoodStep(s, run[0]);
      QueueSafety.TallyScopedStep(s, run[0]);
      ExclusiveStep(s, run[0]);
      OpensOkStep(s, run[0]);
      forall i | 0 <= i < |run[1..]| ensures !run[1..][i].PollerDies? && !run[1..][i].RecordErrors? {
        assert run[1..][i] == run[i + 1];
      }
      OnePrPerJob(Next(s, run[0]), run[1..], j);
    }
  }

  lemma StartIsExclusive()
    ensures Exclusive(QueueSafety.START) && OpensOk(QueueSafety.START)
  {
  }
}
