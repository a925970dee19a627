/** What every run of the queue keeps, late write-backs and crashes included. */
module QueueSafety {
  import opened Basics
  import opened JobQueue
  import opened QueueSystem

  lemma {:induction false} GoodRuns(s: Sys, run: seq<Action>)
    requires Good(s) && IsRun(s, run)
    ensures Good(After(s, run))
    decreases |run|
  {
    if run != [] {
      GoodStep(s, run[0]);
      GoodRuns(Next(s, run[0]), run[1..]);
    }
  }

  /** How one row may differ between an earlier and a later state. */
  predicate Evolves(r: Row, later: Row) {
    && later.idemKey == r.idemKey && later.created == r.created
    && (r.state.Done? ==> later.state.Done?)
    && (r.prUrl.Some? ==> later.prUrl == r.prUrl && later.prBranch == r.prBranch)
  }

  /** No row is ever deleted, `done` is absorbing, and a recorded link is never rewritten. */
  lemma {:induction false} RowsEvolve(s: Sys, run: seq<Action>, j: Id)
    requires Good(s) && IsRun(s, run) && j in s.rows
    ensures j in After(s, run).rows && Evolves(s.rows[j], After(s, run).rows[j])
    decreases |run|
  {
    if run != [] {
      var n := Next(s, run[0]);
      RowsAfter(s, run[0]);
      GoodStep(s, run[0]);
      RowsEvolve(n, run[1..], j);
    }
  }

  /** A job recorded as out of scope is never claimed, changed, written back or opened as a PR. */
  lemma {:induction false} OutOfScopeUntouched(s: Sys, run: seq<Action>, j: Id)
    requires Good(s) && IsRun(s, run) && j in s.rows && OutOfScopeRow(s.rows[j])
    ensures j in After(s, run).rows && After(s, run).rows[j] == s.rows[j]
    ensures After(s, run).Of(j) == s.Of(j)
    decreases |run|
  {
    if run != [] {
      var a, n := run[0], Next(s, run[0]);
      RowsAfter(s, a);
      assert RowAfter(s, a, j) == s.rows[j];
      assert n.Of(j) == s.Of(j);
      GoodStep(s, a);
      OutOfScopeUntouched(n, run[1..], j);
    }
  }

  // --- claims and leases ---

  /** The claim that is still covered by a running lease (or was finished) is not yet paid for by a lapse. */
  predicate Covered(r: Row, now: Time) {
    r.state.Done? || (r.state.Claimed? && r.lease.Some? && now <= r.lease.value)
  }

  ghost predicate ClaimsOk(s: Sys) {
    forall j | j in s.rows :: ClaimsOkAt(s, j)
  }

  /** One row's count, whatever the step. */
  predicate ClaimsOkAt(s: Sys, j: Id)
    requires j in s.rows
  {
    s.Of(j).claims <= s.Of(j).lapses + if Covered(s.rows[j], s.now) then 1 else 0
  }

  lemma ClaimsOkTick(s: Sys, a: Action, j: Id)
    requires Good(s) && a.Tick? && j in s.rows && ClaimsOkAt(s, j)
    ensures j in Next(s, a).rows && ClaimsOkAt(Next(s, a), j)
  {
    assert RowOk(s.rows[j]);
  }

  lemma ClaimsOkWorker(s: Sys, a: Action, j: Id)
    requires Enabled(s, a) && (a.Claim? || a.Finish? || a.WorkerDies?) && j in s.rows && ClaimsOkAt(s, j)
    ensures j in Next(s, a).rows && ClaimsOkAt(Next(s, a), j)
  {
  }

  /** Every other step leaves the row's state, its lease and its claims alone, or requeues it after a lapse. */
  lemma ClaimsOkOther(s: Sys, a: Action, j: Id)
    requires Enabled(s, a) && !a.Tick? && !a.Claim? && !a.Finish? && !a.WorkerDies? && j in s.rows && ClaimsOkAt(s, j)
    ensures j in Next(s, a).rows && ClaimsOkAt(Next(s, a), j)
  {
    RowsAfter(s, a);
    ClaimsKept(s, a, j);
    hide Next, Enabled;
    var r := s.rows[j];
    assert Covered(RowAfter(s, a, j), s.now) <==> Covered(r, s.now);
  }

  lemma ClaimsKept(s: Sys, a: Action, j: Id)
    requires Enabled(s, a) && !a.Tick? && !a.Claim? && !a.Finish? && !a.WorkerDies? && j in s.rows
    ensures Next(s, a).now == s.now
    ensures Next(s, a).Of(j).claims == s.Of(j).claims && Next(s, a).Of(j).lapses == s.Of(j).lapses
  {
  }

  lemma ClaimsOkStep(s: Sys, a: Action)
    requires Good(s) && ClaimsOk(s) && Enabled(s, a) && (a.Deliver? ==> a.newId !in s.tally)
    ensures ClaimsOk(Next(s, a))
  {
    var n := Next(s, a);
    RowsAfter(s, a);
    NewRowUnclaimed(s, a);
    hide Next, RowAfter, Enabled, Good, Covered;
    forall j | j in n.rows ensures ClaimsOkAt(n, j) {
      if j in s.rows {
        assert ClaimsOkAt(s, j);
        if a.Tick? {
          ClaimsOkTick(s, a, j);
        } else if a.Claim? || a.Finish? || a.WorkerDies? {
          ClaimsOkWorker(s, a, j);
        } else {
          ClaimsOkOther(s, a, j);
        }
      }
    }
  }

  lemma NewRowUnclaimed(s: Sys, a: Action)
    requires Enabled(s, a) && (a.Deliver? ==> a.newId !in s.tally)
    ensures forall j | j in Next(s, a).rows && j !in s.rows :: ClaimsOkAt(Next(s, a), j)
  {
    RowsAfter(s, a);
  }

  ghost predicate TallyScoped(s: Sys) {
    s.tally.Keys <= s.rows.Keys
  }

  lemma TallyScopedStep(s: Sys, a: Action)
    requires Good(s) && TallyScoped(s) && Enabled(s, a)
    ensures TallyScoped(Next(s, a))
  {
    RowsAfter(s, a);
    if a.OpenSucceeds? {
      assert TicketOk(s, s.Ticketed(a.poller));
    }
  }

  /** In every run a job is claimed at most once more than its lease has lapsed. */
  lemma {:induction false} ClaimsBounded(s: Sys, run: seq<Action>, j: Id)
    requires Good(s) && TallyScoped(s) && ClaimsOk(s) && IsRun(s, run) && j in After(s, run).rows
    ensures After(s, run).Of(j).claims <= 1 + After(s, run).Of(j).lapses
    decreases |run|
  {
    if run != [] {
      GoodStep(s, run[0]);
      TallyScopedStep(s, run[0]);
      ClaimsOkStep(s, run[0]);
      ClaimsBounded(Next(s, run[0]), run[1..], j);
    }
  }

  /** The first moment from which time alone has made an unfinished row claimable. */
  function ReadyFrom(s: Sys, j: Id): Time
    requires j in s.rows
  {
    match s.rows[j].lease
    case Some(e) => if s.now <= e then e + 1 else s.now
    case None => s.now
  }

  /** No unfinished row is stranded: after any run, waiting out its lease makes it claimable. */
  lemma {:induction false} NeverStranded(s: Sys, run: seq<Action>, j: Id, wait: nat)
    requires Good(s) && IsRun(s, run) && j in After(s, run).rows && !After(s, run).rows[j].state.Done?
    requires After(s, run).now + wait >= ReadyFrom(After(s, run), j)
    ensures var t := After(s, run);
            Enabled(t, Tick(wait)) && Claimable(Next(t, Tick(wait)).rows[j], Next(t, Tick(wait)).now)
  {
    GoodRuns(s, run);
    var t := After(s, run);
    assert RowOk(t.rows[j]);
  }

  // --- the recorded link ---

  ghost predicate LinksOk(s: Sys) {
    forall j | j in s.rows :: s.Of(j).links == if s.rows[j].prUrl.Some? then 1 else 0
  }

  predicate LinksNow(s: Sys, a: Action, j: Id) {
    a.Record? && InTurn(s, a.poller) && j == s.Ticketed(a.poller).job && j in s.rows && s.rows[j].prUrl.None?
  }

  lemma LinksDelta(s: Sys, a: Action, j: Id)
    requires Enabled(s, a) && j in s.rows
    ensures Next(s, a).Of(j).links == s.Of(j).links + if LinksNow(s, a, j) then 1 else 0
    ensures RowAfter(s, a, j).prUrl.Some? <==> s.rows[j].prUrl.Some? || LinksNow(s, a, j)
  {
  }

  lemma LinksOkStep(s: Sys, a: Action)
    requires TallyScoped(s) && LinksOk(s) && Enabled(s, a) && TallyScoped(Next(s, a))
    ensures LinksOk(Next(s, a))
  {
    var n := Next(s, a);
    RowsAfter(s, a);
    forall j | j in n.rows ensures n.Of(j).links == if n.rows[j].prUrl.Some? then 1 else 0 {
      if j in s.rows {
        LinksDelta(s, a, j);
      } else {
        assert n.tally == s.tally;
      }
    }
  }

  /** In every run, crashes included, `pr_url` is written at most once per job. */
  lemma {:induction false} LinkWrittenOnce(s: Sys, run: seq<Action>, j: Id)
    requires Good(s) && TallyScoped(s) && LinksOk(s) && IsRun(s, run) && j in After(s, run).rows
    ensures After(s, run).Of(j).links <= 1
    ensures After(s, run).Of(j).links == 1 <==> After(s, run).rows[j].prUrl.Some?
    decreases |run|
  {
    if run != [] {
      GoodStep(s, run[0]);
      TallyScopedStep(s, run[0]);
      LinksOkStep(s, run[0]);
      LinkWrittenOnce(Next(s, run[0]), run[1..], j);
    }
  }

  // --- one row per failure ---

  /** Over any run, two acknowledged deliveries were given the same job exactly when their keys agree. */
  lemma {:induction false} SameJobIffSameKey(s: Sys, run: seq<Action>, i: nat, k: nat)
    requires Good(s) && IsRun(s, run)
    requires i < |After(s, run).acks| && k < |After(s, run).acks|
    ensures After(s, run).acks[i].job == After(s, run).acks[k].job
       <==> After(s, run).acks[i].key == After(s, run).acks[k].key
  {
    GoodRuns(s, run);
    var t := After(s, run);
    assert Owns(t.rows, t.acks[i].job, t.acks[i].key) && Owns(t.rows, t.acks[k].job, t.acks[k].key);
  }

  // --- what is not kept ---

  const START: Sys := Sys(0, map[], map[], map[], map[], [])

  lemma StartIsGood()
    ensures Good(START) && TallyScoped(START) && ClaimsOk(START) && LinksOk(START)
  {
  }

  lemma {:induction false} RunCons(s: Sys, run: seq<Action>)
    requires run != [] && Enabled(s, run[0])
    ensures IsRun(s, run) == IsRun(Next(s, run[0]), run[1..])
    ensures IsRun(s, run) ==> After(s, run) == After(Next(s, run[0]), run[1..])
  {
  }

  lemma {:induction false} RunConcat(s: Sys, first: seq<Action>, second: seq<Action>)
    requires IsRun(s, first) && IsRun(After(s, first), second)
    ensures IsRun(s, first + second) && After(s, first + second) == After(After(s, first), second)
    decreases |first|
  {
    if first == [] {
      assert first + second == second;
    } else {
      RunConcat(Next(s, first[0]), first[1..], second);
      assert (first + second)[1..] == first[1..] + second;
    }
  }

  const OVERRUN: seq<Action> := [Deliver(0, "k", true), Claim(0, 0, 10, {}), Tick(11), Claim(1, 0, 10, {})]
  const REPAIRED: seq<Action> := [Finish(1, Result(PrProposed, "d")), Fetch(0, [0], {})]
  const OPENED_THEN_LATE: seq<Action> := [OpenSucceeds(0, "url", "b"), Record(0), Finish(0, Result(NoFix, ""))]

  const TWO_HOLDERS: Sys := Sys(
    11, map[0 := Row(Some("k"), 0, 11, Claimed, Some(21), None, None, None, None)],
    map[0 := Working(0, 10), 1 := Working(0, 21)], map[],
    map[0 := Tally(2, 1, 0, 0, 0)], [Ack("k", 0)])

  const FETCHED: Sys := Sys(
    11, map[0 := Row(Some("k"), 0, 11, Done, Some(21), Some(Result(PrProposed, "d")), Some(11), None, None)],
    map[0 := Working(0, 10)],
    map[0 := Busy([Ticket(0, Result(PrProposed, "d"))], 11, 11, 0, Opening)],
    map[0 := Tally(2, 1, 1, 0, 0)], [Ack("k", 0)])

  lemma OverrunLeadsToTwoHolders()
    ensures IsRun(START, OVERRUN) && After(START, OVERRUN) == TWO_HOLDERS
  {
    var s1 := Next(START, OVERRUN[0]);
    assert s1.rows == map[0 := NewRow(Some("k"), true, 0)];
    var s2 := Next(s1, OVERRUN[1]);
    var s3 := Next(s2, OVERRUN[2]);
    assert s3.tally == map[0 := Tally(1, 1, 0, 0, 0)];
    RunCons(s3, OVERRUN[3..]);
    RunCons(s2, OVERRUN[2..]);
    RunCons(s1, OVERRUN[1..]);
    RunCons(START, OVERRUN);
  }

  lemma RepairedIsFetched()
    ensures IsRun(TWO_HOLDERS, REPAIRED) && After(TWO_HOLDERS, REPAIRED) == FETCHED
  {
    var s1 := Next(TWO_HOLDERS, REPAIRED[0]);
    assert s1.workers == map[0 := Working(0, 10)];
    assert s1.rows == map[0 := Row(Some("k"), 0, 11, Done, Some(21), Some(Result(PrProposed, "d")), None, None, None)];
    assert Members([0]) == {0} && Tickets(s1.rows, [0]) == [Ticket(0, Result(PrProposed, "d"))];
    assert Next(s1, REPAIRED[1]) == FETCHED;
    RunCons(s1, REPAIRED[1..]);
    RunCons(TWO_HOLDERS, REPAIRED);
  }

  lemma LateFinish()
    ensures IsRun(FETCHED, OPENED_THEN_LATE)
    ensures var t := After(FETCHED, OPENED_THEN_LATE);
            0 in t.rows && t.rows[0].prUrl == Some("url") && t.rows[0].result == Some(Result(NoFix, ""))
            && t.Of(0).writes == 2
  {
    var s1 := Next(FETCHED, OPENED_THEN_LATE[0]);
    var s2 := Next(s1, OPENED_THEN_LATE[1]);
    RunCons(s2, OPENED_THEN_LATE[2..]);
    RunCons(s1, OPENED_THEN_LATE[1..]);
    RunCons(FETCHED, OPENED_THEN_LATE);
  }

  /**
   The write-back has no lease check: a worker that outlives its lease can leave a recorded PR
   beside a result that proposes none.
   */
  lemma LateWriteBackContradictsPr()
    ensures var run := OVERRUN + REPAIRED + OPENED_THEN_LATE;
            && IsRun(START, run)
            && var t := After(START, run);
               0 in t.rows && t.rows[0].prUrl == Some("url") && t.rows[0].result == Some(Result(NoFix, ""))
               && t.Of(0).writes == 2
  {
    OverrunLeadsToTwoHolders();
    RepairedIsFetched();
    LateFinish();
    RunConcat(START, OVERRUN, REPAIRED);
    RunConcat(START, OVERRUN + REPAIRED, OPENED_THEN_LATE);
  }
}
