/**
 Every interleaving of webhook deliveries, workers, brain restarts and PR pollers over the one
 table. A worker may die or write back late; a poller may die, fail to open, fail to record or
 fail to release. Time only moves forward.
 */
module QueueSystem {
  import opened Basics
  import opened JobQueue

  /** A live worker between its claim and its write-back. */
  datatype Worker = Working(job: Id, until: Time)

  /** A fetched candidate: the id and the result as it was read by the fetch. */
  datatype Ticket = Ticket(job: Id, result: Result)

  datatype Phase = Opening | Recording(url: string, branch: string) | Releasing

  /** A poller inside `poll_once`: tickets before `turn` are finished, `batch[turn]` is in hand. */
  datatype Poller = Busy(batch: seq<Ticket>, fetchedAt: Time, turnFrom: Time, turn: nat, phase: Phase)

  /** What has happened to one job so far. */
  datatype Tally = Tally(claims: nat, lapses: nat, writes: nat, opens: nat, links: nat)

  /** What one accepted delivery was told. */
  datatype Ack = Ack(key: string, job: Id)

  datatype Sys = Sys(
    now: Time,
    rows: Table,
    workers: map<nat, Worker>,
    pollers: map<nat, Poller>,
    tally: map<Id, Tally>,
    acks: seq<Ack>)
  {
    function Of(j: Id): Tally {
      if j in tally then tally[j] else Tally(0, 0, 0, 0, 0)
    }

    function Ticketed(p: nat): Ticket
      requires p in pollers && pollers[p].turn < |pollers[p].batch|
    {
      pollers[p].batch[pollers[p].turn]
    }
  }

  datatype Action =
    | Tick(seconds: nat)
    | Deliver(newId: Id, key: string, inScope: bool)
    | Claim(worker: nat, job: Id, leaseSeconds: nat, locked: set<Id>)
    | Finish(worker: nat, result: Result)
    | WorkerDies(worker: nat)
    | BrainRestarts
    | Fetch(poller: nat, ids: seq<Id>, locked: set<Id>)
    | OpenSucceeds(poller: nat, url: string, branch: string)
    | OpenFails(poller: nat)
    | Record(poller: nat)
    | RecordErrors(poller: nat)
    | Release(poller: nat)
    | ReleaseErrors(poller: nat)
    | PollerDies(poller: nat)

  predicate InTurn(s: Sys, p: nat) {
    p in s.pollers && s.pollers[p].turn < |s.pollers[p].batch|
  }

  ghost predicate Enabled(s: Sys, a: Action) {
    match a
    case Tick(_) => true
    case Deliver(newId, _, _) => newId !in s.rows
    case Claim(w, j, _, locked) => w !in s.workers && OldestClaimable(s.rows, s.now, locked, j)
    case Finish(w, result) => w in s.workers && !result.outcome.OutOfScope?
    case WorkerDies(w) => w in s.workers
    case BrainRestarts => true
    case Fetch(p, ids, locked) => p !in s.pollers && OldestPrBatch(s.rows, s.now, locked, ids)
    case OpenSucceeds(p, _, _) =>
      && InTurn(s, p) && s.pollers[p].phase.Opening?
      && s.Ticketed(p).result.outcome.PrProposed? && s.Ticketed(p).result.diff != ""
    case OpenFails(p) => InTurn(s, p) && s.pollers[p].phase.Opening?
    case Record(p) => InTurn(s, p) && s.pollers[p].phase.Recording?
    case RecordErrors(p) => InTurn(s, p) && s.pollers[p].phase.Recording?
    case Release(p) => InTurn(s, p) && s.pollers[p].phase.Releasing?
    case ReleaseErrors(p) => InTurn(s, p) && s.pollers[p].phase.Releasing?
    case PollerDies(p) => p in s.pollers
  }

  /** The lease of `r` runs out somewhere in `[now, later)`. */
  predicate LapsesBetween(r: Row, now: Time, later: Time) {
    (r.state.Claimed? || r.state.Verifying?) && r.lease.Some? && now <= r.lease.value < later
  }

  function Lapsing(s: Sys, later: Time): map<Id, Tally> {
    map j | j in s.rows ::
      if LapsesBetween(s.rows[j], s.now, later) then s.Of(j).(lapses := s.Of(j).lapses + 1) else s.Of(j)
  }

  function Tickets(t: Table, ids: seq<Id>): (ts: seq<Ticket>)
    requires forall i | 0 <= i < |ids| :: ids[i] in t && t[ids[i]].result.Some?
  {
    seq(|ids|, i requires 0 <= i < |ids| => Ticket(ids[i], t[ids[i]].result.value))
  }

  /** The turn is over: on to the next ticket, or back to waiting for a tick. */
  function TurnEnded(s: Sys, p: nat): map<nat, Poller>
    requires InTurn(s, p)
  {
    var b := s.pollers[p];
    if b.turn + 1 == |b.batch| then s.pollers - {p}
    else s.pollers[p := b.(turn := b.turn + 1, turnFrom := s.now, phase := Opening)]
  }

  function InPhase(s: Sys, p: nat, phase: Phase): map<nat, Poller>
    requires p in s.pollers
  {
    s.pollers[p := s.pollers[p].(phase := phase)]
  }

  ghost function Next(s: Sys, a: Action): Sys
    requires Enabled(s, a)
  {
    match a
    case Tick(d) => s.(now := s.now + d, tally := Lapsing(s, s.now + d))
    case Deliver(newId, key, inScope) =>
      (if exists id :: Owns(s.rows, id, key)
       then var id :| Owns(s.rows, id, key); s.(acks := s.acks + [Ack(key, id)])
       else s.(rows := s.rows[newId := NewRow(Some(key), inScope, s.now)],
               acks := s.acks + [Ack(key, newId)]))
    case Claim(w, j, secs, _) =>
      s.(rows := s.rows[j := LeaseRow(s.rows[j], s.now, secs)],
         workers := s.workers[w := Working(j, s.now + secs)],
         tally := s.tally[j := s.Of(j).(claims := s.Of(j).claims + 1)])
    case Finish(w, result) =>
      var j := s.workers[w].job;
      s.(rows := if j in s.rows then s.rows[j := FinishRow(s.rows[j], result, s.now)] else s.rows,
         workers := s.workers - {w},
         tally := s.tally[j := s.Of(j).(writes := s.Of(j).writes + 1)])
    case WorkerDies(w) => s.(workers := s.workers - {w})
    case BrainRestarts => s.(rows := Requeued(s.rows, s.now))
    case Fetch(p, ids, _) =>
      s.(rows := Stamped(s.rows, Members(ids), s.now),
         pollers := if ids == [] then s.pollers
                    else s.pollers[p := Busy(Tickets(s.rows, ids), s.now, s.now, 0, Opening)])
    case OpenSucceeds(p, url, branch) =>
      var j := s.Ticketed(p).job;
      s.(pollers := InPhase(s, p, Recording(url, branch)),
         tally := s.tally[j := s.Of(j).(opens := s.Of(j).opens + 1)])
    case OpenFails(p) => s.(pollers := InPhase(s, p, Releasing))
    case Record(p) =>
      var j, ph := s.Ticketed(p).job, s.pollers[p].phase;
      s.(rows := if j in s.rows then s.rows[j := RecordRow(s.rows[j], ph.url, ph.branch, s.now)] else s.rows,
         pollers := TurnEnded(s, p),
         tally := if j in s.rows && s.rows[j].prUrl.None?
                  then s.tally[j := s.Of(j).(links := s.Of(j).links + 1)] else s.tally)
    case RecordErrors(p) => s.(pollers := InPhase(s, p, Releasing))
    case Release(p) =>
      var j := s.Ticketed(p).job;
      s.(rows := if j in s.rows then s.rows[j := ReleaseRow(s.rows[j])] else s.rows,
         pollers := TurnEnded(s, p))
    case ReleaseErrors(p) => s.(pollers := TurnEnded(s, p))
    case PollerDies(p) => s.(pollers := s.pollers - {p})
  }

  // --- one row at a time ---

  /** What an action makes of an existing row. */
  ghost function RowAfter(s: Sys, a: Action, j: Id): Row
    requires Enabled(s, a) && j in s.rows
  {
    var r := s.rows[j];
    match a
    case Claim(_, id, secs, _) => if j == id then LeaseRow(r, s.now, secs) else r
    case Finish(w, result) => if j == s.workers[w].job then FinishRow(r, result, s.now) else r
    case BrainRestarts => RequeueRow(r, s.now)
    case Fetch(_, ids, _) => if j in ids then StampRow(r, s.now) else r
    case Record(p) =>
      if j == s.Ticketed(p).job then RecordRow(r, s.pollers[p].phase.url, s.pollers[p].phase.branch, s.now) else r
    case Release(p) => if j == s.Ticketed(p).job then ReleaseRow(r) else r
    case _ => r
  }

  lemma RowsAfter(s: Sys, a: Action)
    requires Enabled(s, a)
    ensures forall j | j in s.rows :: j in Next(s, a).rows && Next(s, a).rows[j] == RowAfter(s, a, j)
    ensures forall j | j in Next(s, a).rows && j !in s.rows ::
              a.Deliver? && j == a.newId && Next(s, a).rows[j] == NewRow(Some(a.key), a.inScope, s.now)
  {
  }

  // --- runs ---

  ghost predicate IsRun(s: Sys, run: seq<Action>)
    decreases |run|
  {
    run == [] || (Enabled(s, run[0]) && IsRun(Next(s, run[0]), run[1..]))
  }

  ghost function After(s: Sys, run: seq<Action>): Sys
    requires IsRun(s, run)
    decreases |run|
  {
    if run == [] then s else After(Next(s, run[0]), run[1..])
  }

  // --- the state every run keeps ---

  predicate OutOfScopeRow(r: Row) {
    r.state.Done? && r.result.Some? && r.result.value.outcome.OutOfScope?
  }

  predicate RowOk(r: Row) {
    && !r.state.Verifying?
    && (r.state.Claimed? ==> r.lease.Some?)
    && (r.state.Done? ==> r.result.Some?)
    && (r.prUrl.Some? ==> r.state.Done?)
    && (r.prClaimed.Some? ==> r.state.Done?)
  }

  ghost predicate RowsOk(s: Sys) {
    forall j | j in s.rows :: RowOk(s.rows[j])
  }

  ghost predicate KeysOk(s: Sys) {
    && UniqueKeys(s.rows)
    && forall i | 0 <= i < |s.acks| :: Owns(s.rows, s.acks[i].job, s.acks[i].key)
  }

  ghost predicate WorkersOk(s: Sys) {
    forall w | w in s.workers :: s.workers[w].job in s.rows && !OutOfScopeRow(s.rows[s.workers[w].job])
  }

  /** A ticket's row is done and in scope. */
  ghost predicate TicketOk(s: Sys, t: Ticket) {
    t.job in s.rows && s.rows[t.job].state.Done? && !OutOfScopeRow(s.rows[t.job])
  }

  ghost predicate PollersOk(s: Sys) {
    forall p | p in s.pollers ::
      && s.pollers[p].turn < |s.pollers[p].batch|
      && forall i | 0 <= i < |s.pollers[p].batch| :: TicketOk(s, s.pollers[p].batch[i])
  }

  ghost predicate Good(s: Sys) {
    RowsOk(s) && KeysOk(s) && WorkersOk(s) && PollersOk(s)
  }

  lemma RowsOkStep(s: Sys, a: Action)
    requires Good(s) && Enabled(s, a)
    ensures RowsOk(Next(s, a))
  {
    RowsAfter(s, a);
    forall j | j in s.rows ensures RowOk(RowAfter(s, a, j)) {
    }
  }

  lemma KeysKept(s: Sys, a: Action, id: Id, key: string)
    requires Enabled(s, a)
    ensures Owns(s.rows, id, key) ==> Owns(Next(s, a).rows, id, key)
    ensures id in s.rows && Owns(Next(s, a).rows, id, key) ==> Owns(s.rows, id, key)
  {
    RowsAfter(s, a);
  }

  lemma KeysOkDeliver(s: Sys, a: Action)
    requires Good(s) && Enabled(s, a) && a.Deliver?
    ensures KeysOk(Next(s, a))
  {
    var n := Next(s, a);
    forall id, k ensures Owns(s.rows, id, k) ==> Owns(n.rows, id, k) { KeysKept(s, a, id, k); }
    if exists id :: Owns(s.rows, id, a.key) {
      assert n.rows == s.rows;
    } else {
      assert n.rows == s.rows[a.newId := NewRow(Some(a.key), a.inScope, s.now)];
      assert forall id, k :: Owns(n.rows, id, k) ==> Owns(s.rows, id, k) || (id == a.newId && k == a.key);
    }
  }

  lemma KeysOkStep(s: Sys, a: Action)
    requires Good(s) && Enabled(s, a)
    ensures KeysOk(Next(s, a))
  {
    if a.Deliver? {
      KeysOkDeliver(s, a);
    } else {
      var n := Next(s, a);
      RowsAfter(s, a);
      assert n.acks == s.acks;
      forall id, k ensures Owns(n.rows, id, k) <==> Owns(s.rows, id, k) { KeysKept(s, a, id, k); }
    }
  }

  /** An in-scope row that some worker or ticket refers to stays in scope, and done stays done. */
  lemma InScopeStep(s: Sys, a: Action, j: Id)
    requires Good(s) && Enabled(s, a) && j in s.rows
    ensures s.rows[j].state.Done? ==> RowAfter(s, a, j).state.Done?
    ensures !OutOfScopeRow(s.rows[j]) ==> !OutOfScopeRow(RowAfter(s, a, j))
  {
  }

  lemma WorkersOkStep(s: Sys, a: Action)
    requires Good(s) && Enabled(s, a)
    ensures WorkersOk(Next(s, a))
  {
    var n := Next(s, a);
    RowsAfter(s, a);
    forall w | w in n.workers ensures n.workers[w].job in n.rows && !OutOfScopeRow(n.rows[n.workers[w].job]) {
      InScopeStep(s, a, n.workers[w].job);
    }
  }

  /** A batch is fixed by its fetch. */
  lemma BatchOrigin(s: Sys, a: Action, p: nat)
    requires Enabled(s, a) && p in Next(s, a).pollers
    ensures p in s.pollers ==> Next(s, a).pollers[p].batch == s.pollers[p].batch
    ensures p !in s.pollers ==> a.Fetch? && Next(s, a).pollers[p].batch == Tickets(s.rows, a.ids)
  {
  }

  lemma FetchedTicketOk(s: Sys, a: Action, i: nat)
    requires Enabled(s, a) && a.Fetch? && i < |a.ids|
    ensures TicketOk(s, Tickets(s.rows, a.ids)[i])
  {
    assert PrCandidate(s.rows[a.ids[i]], s.now);
  }

  lemma TicketOkStep(s: Sys, a: Action, t: Ticket)
    requires Good(s) && Enabled(s, a) && TicketOk(s, t)
    ensures TicketOk(Next(s, a), t)
  {
    RowsAfter(s, a);
    InScopeStep(s, a, t.job);
  }

  lemma TurnsOkStep(s: Sys, a: Action, p: nat)
    requires PollersOk(s) && Enabled(s, a) && p in Next(s, a).pollers
    ensures Next(s, a).pollers[p].turn < |Next(s, a).pollers[p].batch|
  {
  }

  lemma PollersOkStep(s: Sys, a: Action)
    requires Good(s) && Enabled(s, a)
    ensures PollersOk(Next(s, a))
  {
    var n := Next(s, a);
    forall p | p in n.pollers ensures n.pollers[p].turn < |n.pollers[p].batch| { TurnsOkStep(s, a, p); }
    forall p, i | p in n.pollers && 0 <= i < |n.pollers[p].batch| ensures TicketOk(n, n.pollers[p].batch[i]) {
      BatchOrigin(s, a, p);
      hide Next, Enabled;
      var t := n.pollers[p].batch[i];
      if p !in s.pollers {
        FetchedTicketOk(s, a, i);
      }
      TicketOkStep(s, a, t);
    }
  }

  lemma GoodStep(s: Sys, a: Action)
    requires Good(s) && Enabled(s, a)
    ensures Good(Next(s, a))
  {
    RowsOkStep(s, a);
    KeysOkStep(s, a);
    WorkersOkStep(s, a);
    PollersOkStep(s, a);
  }
}
