/** Who is next: jobs in the order they came, and proposals that no crash can lose. */
module QueueOrder {
  import opened Basics
  import opened JobQueue
  import opened QueueSystem
  import QueueSafety

  // --- what the WHERE clauses ask, for any row ---

  /** A worker may take a row exactly when it is unfinished and nobody's lease on it is still running. */
  lemma ClaimableIff(r: Row, now: Time)
    ensures Claimable(r, now) <==> !r.state.Done? && (r.state.Queued? || (r.lease.Some? && r.lease.value < now))
  {
  }

  /** A poller may take a row exactly when it is an unlinked proposal that nobody claimed in the last 300 seconds. */
  lemma CandidateIff(r: Row, now: Time)
    ensures PrCandidate(r, now) <==>
              && r.state.Done? && r.result.Some? && r.result.value.outcome == PrProposed && r.prUrl.None?
              && (r.prClaimed.Some? ==> now - r.prClaimed.value > 300)
  {
  }

  // --- first come, first served ---

  /** No earlier delivery was answered with this delivery's job. */
  ghost predicate First(s: Sys, k: nat)
    requires k < |s.acks|
  {
    forall m | 0 <= m < k :: s.acks[m].job != s.acks[k].job
  }

  /** Rows are no older than the clock, and every acknowledged job has one. */
  ghost predicate Aged(s: Sys) {
    && (forall j | j in s.rows :: s.rows[j].created <= s.now)
    && forall i | 0 <= i < |s.acks| :: s.acks[i].job in s.rows
  }

  ghost predicate Delivered(s: Sys, j: Id) {
    exists i :: 0 <= i < |s.acks| && s.acks[i].job == j
  }

  /** First deliveries are in the order of their rows' age. */
  ghost predicate FirstsInOrder(s: Sys)
    requires Aged(s)
  {
    forall i, k | 0 <= i < k < |s.acks| && First(s, k) ::
      s.rows[s.acks[i].job].created <= s.rows[s.acks[k].job].created
  }

  ghost predicate InOrder(s: Sys) {
    Aged(s) && FirstsInOrder(s) && forall j | j in s.rows :: Delivered(s, j)
  }

  /** What a delivery adds: an acknowledgement, and a row of this moment unless the key is known. */
  ghost predicate Adds(s: Sys, n: Sys, j: Id) {
    && n.now == s.now && |n.acks| == |s.acks| + 1 && n.acks[..|s.acks|] == s.acks && n.acks[|s.acks|].job == j
    && j in n.rows && (forall o | o in s.rows :: o in n.rows && n.rows[o] == s.rows[o])
    && (forall o | o in n.rows :: o in s.rows || o == j)
    && (j !in s.rows ==> n.rows[j].created == s.now)
  }

  lemma DeliveryAdds(s: Sys, a: Action) returns (j: Id)
    requires Enabled(s, a) && a.Deliver?
    ensures Adds(s, Next(s, a), j)
  {
    var n := Next(s, a);
    j := n.acks[|s.acks|].job;
    assert n.acks[..|s.acks|] == s.acks;
  }

  lemma AddsKeepsAged(s: Sys, n: Sys, j: Id)
    requires InOrder(s) && Adds(s, n, j)
    ensures Aged(n) && forall o | o in n.rows :: Delivered(n, o)
  {
    forall i | 0 <= i < |n.acks| ensures n.acks[i].job in n.rows {
      if i < |s.acks| { assert n.acks[..|s.acks|][i] == s.acks[i]; }
    }
    forall o | o in n.rows ensures Delivered(n, o) {
      if o in s.rows {
        assert Delivered(s, o);
        var i :| 0 <= i < |s.acks| && s.acks[i].job == o;
        assert n.acks[..|s.acks|][i] == s.acks[i];
      } else {
        assert n.acks[|s.acks|].job == o;
      }
    }
  }

  lemma Redelivered(s: Sys, n: Sys, j: Id)
    requires InOrder(s) && Adds(s, n, j) && j in s.rows
    ensures !First(n, |s.acks|)
  {
    assert Delivered(s, j);
    var m :| 0 <= m < |s.acks| && s.acks[m].job == j;
    assert n.acks[..|s.acks|][m] == s.acks[m];
  }

  lemma AddsKeepsOrder(s: Sys, n: Sys, j: Id)
    requires InOrder(s) && Adds(s, n, j) && Aged(n)
    ensures FirstsInOrder(n)
  {
    assert forall i | 0 <= i < |s.acks| :: n.acks[..|s.acks|][i] == s.acks[i];
    forall i, k | 0 <= i < k < |n.acks| && First(n, k)
      ensures n.rows[n.acks[i].job].created <= n.rows[n.acks[k].job].created
    {
      assert n.acks[i] == s.acks[i] && s.acks[i].job in s.rows;
      if k < |s.acks| {
        assert First(s, k) by { assert forall m | 0 <= m < k :: n.acks[m] == s.acks[m]; }
      } else {
        if j in s.rows { Redelivered(s, n, j); }
      }
    }
  }

  lemma OtherAddsNothing(s: Sys, a: Action)
    requires Enabled(s, a) && !a.Deliver?
    ensures var n := Next(s, a);
            && n.acks == s.acks && n.rows.Keys == s.rows.Keys && n.now >= s.now
            && forall j | j in s.rows :: n.rows[j].created == s.rows[j].created
  {
    RowsAfter(s, a);
    forall j | j in s.rows ensures Next(s, a).rows[j].created == s.rows[j].created { assert Next(s, a).rows[j] == RowAfter(s, a, j); }
  }

  lemma SameRowsKeepOrder(s: Sys, n: Sys)
    requires InOrder(s) && n.acks == s.acks && n.rows.Keys == s.rows.Keys && n.now >= s.now
    requires forall j | j in s.rows :: n.rows[j].created == s.rows[j].created
    ensures InOrder(n)
  {
    assert Aged(n);
    forall i, k | 0 <= i < k < |n.acks| && First(n, k)
      ensures n.rows[n.acks[i].job].created <= n.rows[n.acks[k].job].created
    {
      assert First(s, k);
    }
    forall j | j in n.rows ensures Delivered(n, j) { assert Delivered(s, j); }
  }

  lemma OrderStep(s: Sys, a: Action)
    requires InOrder(s) && Enabled(s, a)
    ensures InOrder(Next(s, a))
  {
    hide Next, Enabled, Aged, FirstsInOrder, Delivered, Adds;
    var n := Next(s, a);
    if a.Deliver? {
      var j := DeliveryAdds(s, a);
      AddsKeepsAged(s, n, j);
      AddsKeepsOrder(s, n, j);
    } else {
      OtherAddsNothing(s, a);
      SameRowsKeepOrder(s, n);
    }
  }

  lemma {:induction false} OrderKept(s: Sys, run: seq<Action>)
    requires InOrder(s) && IsRun(s, run)
    ensures InOrder(After(s, run))
    decreases |run|
  {
    hide InOrder, Next, Enabled;
    if run != [] {
      OrderStep(s, run[0]);
      OrderKept(Next(s, run[0]), run[1..]);
    }
  }

  /**
   From the empty queue on, in any interleaving: the job a worker claims was not delivered after another
   one that it could have claimed, deliveries within the same second aside.
   */
  lemma FirstComeFirstServed(run: seq<Action>, claim: Action, i: nat, k: nat)
    requires IsRun(QueueSafety.START, run) && claim.Claim? && Enabled(After(QueueSafety.START, run), claim)
    requires var s := After(QueueSafety.START, run);
             && i < |s.acks| && k < |s.acks| && First(s, i) && s.acks[i].job == claim.job
             && s.acks[k].job in s.rows && Claimable(s.rows[s.acks[k].job], s.now) && s.acks[k].job !in claim.locked
    ensures var s := After(QueueSafety.START, run);
            k < i ==> s.rows[s.acks[k].job].created == s.rows[s.acks[i].job].created
  {
    OrderKept(QueueSafety.START, run);
  }

  // --- proposals are not lost ---

  /** After any run, crashes included, an unlinked proposal can be fetched once 300 seconds have passed since it was claimed. */
  lemma ProposalNeverLost(s: Sys, run: seq<Action>, j: Id, wait: nat, p: nat)
    requires Good(s) && IsRun(s, run) && j in After(s, run).rows && p !in After(s, run).pollers
    requires var r := After(s, run).rows[j];
             && r.result.Some? && r.result.value.outcome.PrProposed? && r.state.Done? && r.prUrl.None?
             && (r.prClaimed.Some? ==> After(s, run).now + wait > r.prClaimed.value + 300)
    ensures var t := After(s, run);
            && Enabled(t, Tick(wait))
            && var n := Next(t, Tick(wait));
               var fetch := Fetch(p, [j], n.rows.Keys - {j});
               && Enabled(n, fetch)
               && p in Next(n, fetch).pollers && Next(n, fetch).pollers[p].batch == [Ticket(j, n.rows[j].result.value)]
  {
    var t := After(s, run);
    var n := Next(t, Tick(wait));
    assert n.rows == t.rows && n.pollers == t.pollers && n.now == t.now + wait;
    CandidateIff(n.rows[j], n.now);
    assert Tickets(n.rows, [j]) == [Ticket(j, n.rows[j].result.value)];
  }
}
