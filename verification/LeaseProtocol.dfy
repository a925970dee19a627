/**
 The single-writer facts. They hold on the runs in which every worker writes back or dies before
 its lease lapses; `QueueSafety.LateWriteBackContradictsPr` shows a run where one does not.
 */
module LeaseProtocol {
  import opened Basics
  import opened JobQueue
  import opened QueueSystem
  import QueueSafety

  /** No live worker has outlived its lease. */
  ghost predicate OnTime(s: Sys) {
    forall w | w in s.workers :: s.now <= s.workers[w].until
  }

  ghost predicate AlwaysOnTime(s: Sys, run: seq<Action>)
    requires IsRun(s, run)
    decreases |run|
  {
    OnTime(s) && (run == [] || AlwaysOnTime(Next(s, run[0]), run[1..]))
  }

  /** A live worker's row is claimed under exactly the lease the worker was given. */
  predicate Holds(s: Sys, w: nat) {
    && w in s.workers && s.workers[w].job in s.rows
    && s.rows[s.workers[w].job].state.Claimed?
    && s.rows[s.workers[w].job].lease == Some(s.workers[w].until)
  }

  ghost predicate HoldersOk(s: Sys) {
    && (forall w | w in s.workers :: Holds(s, w))
    && forall w, v | w in s.workers && v in s.workers && w != v :: s.workers[w].job != s.workers[v].job
  }

  predicate Proposes(r: Row) {
    r.result.Some? && r.result.value.outcome.PrProposed?
  }

  /** A ticket carries the stored result of its row, and that result proposes a PR. */
  predicate TicketCurrent(s: Sys, t: Ticket) {
    t.job in s.rows && s.rows[t.job].state.Done? && s.rows[t.job].result == Some(t.result)
    && t.result.outcome.PrProposed?
  }

  ghost predicate ResultsOk(s: Sys) {
    && (forall j | j in s.rows :: s.Of(j).writes <= if s.rows[j].state.Done? then 1 else 0)
    && (forall j | j in s.rows && s.rows[j].prUrl.Some? :: Proposes(s.rows[j]))
    && forall p, i | p in s.pollers && 0 <= i < |s.pollers[p].batch| :: TicketCurrent(s, s.pollers[p].batch[i])
  }

  ghost predicate SingleWriter(s: Sys) {
    Good(s) && QueueSafety.TallyScoped(s) && HoldersOk(s) && ResultsOk(s)
  }

  /** While nobody is late, a done row keeps its state and its result. */
  lemma DoneKeepsResult(s: Sys, a: Action, j: Id)
    requires HoldersOk(s) && Enabled(s, a) && j in s.rows && s.rows[j].state.Done?
    ensures RowAfter(s, a, j).state.Done? && RowAfter(s, a, j).result == s.rows[j].result
    ensures Next(s, a).Of(j).writes == s.Of(j).writes
  {
    if a.Finish? {
      assert Holds(s, a.worker);
    }
  }

  /** A worker that lives on works on under the same lease. */
  lemma WorkerKept(s: Sys, a: Action, w: nat)
    requires Enabled(s, a) && w in s.workers && w in Next(s, a).workers
    ensures Next(s, a).workers[w] == s.workers[w]
  {
  }

  /** No step but its own worker's takes a row whose lease is running. */
  lemma LeasedRowKept(s: Sys, a: Action, w: nat)
    requires HoldersOk(s) && OnTime(s) && Enabled(s, a) && Holds(s, w) && !(a.Finish? && a.worker == w)
    ensures var r := RowAfter(s, a, s.workers[w].job);
            r.state.Claimed? && r.lease == Some(s.workers[w].until)
  {
    assert Holds(s, w);
  }

  lemma HeldRowKept(s: Sys, a: Action, w: nat)
    requires HoldersOk(s) && OnTime(s) && Enabled(s, a) && w in s.workers && w in Next(s, a).workers
    ensures Holds(Next(s, a), w) && Next(s, a).workers[w] == s.workers[w]
  {
    RowsAfter(s, a);
    WorkerKept(s, a, w);
    assert !(a.Finish? && a.worker == w);
    hide Next, RowAfter, HoldersOk, OnTime, Enabled;
    LeasedRowKept(s, a, w);
  }

  lemma HoldersOkStep(s: Sys, a: Action)
    requires HoldersOk(s) && OnTime(s) && Enabled(s, a)
    ensures HoldersOk(Next(s, a))
  {
    var n := Next(s, a);
    forall w | w in n.workers ensures Holds(n, w) {
      if w in s.workers { HeldRowKept(s, a, w); }
    }
    forall w, v | w in n.workers && v in n.workers && w != v ensures n.workers[w].job != n.workers[v].job {
      if w in s.workers { HeldRowKept(s, a, w); assert Holds(s, w); }
      if v in s.workers { HeldRowKept(s, a, v); assert Holds(s, v); }
    }
  }

  lemma WritesStep(s: Sys, a: Action, j: Id)
    requires SingleWriter(s) && Enabled(s, a) && j in s.rows
    ensures Next(s, a).Of(j).writes <= if RowAfter(s, a, j).state.Done? then 1 else 0
    ensures RowAfter(s, a, j).prUrl.Some? ==> Proposes(RowAfter(s, a, j))
  {
    if s.rows[j].state.Done? {
      DoneKeepsResult(s, a, j);
      if a.Record? { assert TicketCurrent(s, s.Ticketed(a.poller)); }
    } else {
      assert RowOk(s.rows[j]);
      if a.Record? { assert TicketCurrent(s, s.Ticketed(a.poller)); }
    }
  }

  lemma TicketsStep(s: Sys, a: Action, p: nat, i: nat)
    requires SingleWriter(s) && Enabled(s, a) && p in Next(s, a).pollers && i < |Next(s, a).pollers[p].batch|
    ensures TicketCurrent(Next(s, a), Next(s, a).pollers[p].batch[i])
  {
    BatchOrigin(s, a, p);
    RowsAfter(s, a);
    var t := Next(s, a).pollers[p].batch[i];
    if p in s.pollers {
      assert TicketCurrent(s, t);
    } else {
      assert t == Ticket(a.ids[i], s.rows[a.ids[i]].result.value) && PrCandidate(s.rows[a.ids[i]], s.now);
    }
    DoneKeepsResult(s, a, t.job);
  }

  lemma SingleWriterStep(s: Sys, a: Action)
    requires SingleWriter(s) && OnTime(s) && Enabled(s, a)
    ensures SingleWriter(Next(s, a))
  {
    var n := Next(s, a);
    GoodStep(s, a);
    QueueSafety.TallyScopedStep(s, a);
    HoldersOkStep(s, a);
    RowsAfter(s, a);
    forall j | j in n.rows
      ensures n.Of(j).writes <= (if n.rows[j].state.Done? then 1 else 0)
      ensures n.rows[j].prUrl.Some? ==> Proposes(n.rows[j])
    {
      if j in s.rows {
        WritesStep(s, a, j);
      } else {
        assert n.tally == s.tally;
      }
    }
    forall p, i | p in n.pollers && 0 <= i < |n.pollers[p].batch| ensures TicketCurrent(n, n.pollers[p].batch[i]) {
      TicketsStep(s, a, p, i);
    }
  }

  lemma {:induction false} SingleWriterRuns(s: Sys, run: seq<Action>)
    requires SingleWriter(s) && IsRun(s, run) && AlwaysOnTime(s, run)
    ensures SingleWriter(After(s, run)) && OnTime(After(s, run))
    decreases |run|
  {
    if run != [] {
      SingleWriterStep(s, run[0]);
      SingleWriterRuns(Next(s, run[0]), run[1..]);
    }
  }

  /** At most one live worker holds a job, and the row carries that worker's lease. */
  lemma {:induction false} OneHolder(s: Sys, run: seq<Action>, w: nat, v: nat)
    requires SingleWriter(s) && IsRun(s, run) && AlwaysOnTime(s, run)
    requires w in After(s, run).workers && v in After(s, run).workers
    requires After(s, run).workers[w].job == After(s, run).workers[v].job
    ensures w == v && Holds(After(s, run), w)
  {
    SingleWriterRuns(s, run);
  }

  /** `result` is written at most once, a recorded link implies a proposed PR, and what was written stays. */
  lemma {:induction false} ResultWrittenOnce(s: Sys, run: seq<Action>, j: Id)
    requires SingleWriter(s) && IsRun(s, run) && AlwaysOnTime(s, run) && j in After(s, run).rows
    ensures After(s, run).Of(j).writes <= 1
    ensures After(s, run).rows[j].prUrl.Some? ==> Proposes(After(s, run).rows[j])
    ensures j in s.rows && s.rows[j].state.Done? ==> After(s, run).rows[j].result == s.rows[j].result
    decreases |run|
  {
    if run != [] {
      SingleWriterStep(s, run[0]);
      RowsAfter(s, run[0]);
      if j in s.rows && s.rows[j].state.Done? { DoneKeepsResult(s, run[0], j); }
      ResultWrittenOnce(Next(s, run[0]), run[1..], j);
    }
  }

  /** Whatever a poller opens is the diff stored on the job's row at that moment. */
  lemma {:induction false} OpensTheStoredDiff(s: Sys, run: seq<Action>, p: nat, url: string, branch: string)
    requires SingleWriter(s) && IsRun(s, run) && AlwaysOnTime(s, run)
    requires Enabled(After(s, run), OpenSucceeds(p, url, branch))
    ensures var t := After(s, run);
            TicketCurrent(t, t.Ticketed(p))
  {
    SingleWriterRuns(s, run);
  }

  lemma StartIsSingleWriter()
    ensures SingleWriter(QueueSafety.START)
  {
  }
}
