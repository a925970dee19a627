/** The `repair_jobs` table and its SQL statements, each one atomic step on the rows. */
module JobQueue {
  import opened Basics

  type Id = nat
  type Time = int

  datatype State = Queued | Claimed | Verifying | Done

  datatype Outcome = PrProposed | NoFix | NeedsProdAction | OutOfScope

  /** The stored `RepairResult`; an absent or empty diff is the empty string. */
  datatype Result = Result(outcome: Outcome, diff: string)

  datatype Row = Row(
    idemKey: Option<string>,
    created: Time,
    updated: Time,
    state: State,
    lease: Option<Time>,
    result: Option<Result>,
    prClaimed: Option<Time>,
    prUrl: Option<string>,
    prBranch: Option<string>)

  type Table = map<Id, Row>

  const PR_CLAIM_TTL_SECS: int := 300
  const PR_BATCH: nat := 20

  // --- predicates of the WHERE clauses (a comparison with NULL is not true) ---

  predicate LeaseLapsed(r: Row, now: Time) {
    r.lease.Some? && r.lease.value < now
  }

  predicate Claimable(r: Row, now: Time) {
    r.state.Queued? || ((r.state.Claimed? || r.state.Verifying?) && LeaseLapsed(r, now))
  }

  predicate Orphaned(r: Row, now: Time) {
    (r.state.Claimed? || r.state.Verifying?) && (r.lease.None? || r.lease.value < now)
  }

  predicate PrCandidate(r: Row, now: Time) {
    && r.state.Done?
    && r.result.Some? && r.result.value.outcome.PrProposed?
    && r.prUrl.None?
    && (r.prClaimed.None? || r.prClaimed.value < now - PR_CLAIM_TTL_SECS)
  }

  // --- the statements ---

  function NewRow(key: Option<string>, inScope: bool, now: Time): Row {
    if inScope
    then Row(key, now, now, Queued, None, None, None, None, None)
    else Row(key, now, now, Done, None, Some(Result(OutOfScope, "")), None, None, None)
  }

  function LeaseRow(r: Row, now: Time, secs: int): Row {
    r.(state := Claimed, lease := Some(now + secs), updated := now)
  }

  function FinishRow(r: Row, result: Result, now: Time): Row {
    r.(state := Done, result := Some(result), updated := now)
  }

  function RequeueRow(r: Row, now: Time): Row {
    if Orphaned(r, now) then r.(state := Queued, lease := None, updated := now) else r
  }

  function StampRow(r: Row, now: Time): Row {
    r.(prClaimed := Some(now), updated := now)
  }

  function ReleaseRow(r: Row): Row {
    if r.prUrl.None? then r.(prClaimed := None) else r
  }

  function RecordRow(r: Row, url: string, branch: string, now: Time): Row {
    if r.prUrl.None? then r.(prUrl := Some(url), prBranch := Some(branch), updated := now) else r
  }

  function Requeued(t: Table, now: Time): Table {
    map id | id in t :: RequeueRow(t[id], now)
  }

  function Stamped(t: Table, ids: set<Id>, now: Time): Table {
    map id | id in t :: if id in ids then StampRow(t[id], now) else t[id]
  }

  function Members(ids: seq<Id>): set<Id> {
    set id | id in ids
  }

  /** What `SELECT … ORDER BY created_at FOR UPDATE SKIP LOCKED LIMIT 1` may return. */
  ghost predicate OldestClaimable(t: Table, now: Time, locked: set<Id>, id: Id) {
    && id in t && id !in locked && Claimable(t[id], now)
    && forall o | o in t && o !in locked && Claimable(t[o], now) :: t[id].created <= t[o].created
  }

  /** What `SELECT … ORDER BY updated_at LIMIT 20 FOR UPDATE SKIP LOCKED` may choose; `RETURNING` lists it in any order. */
  ghost predicate OldestPrBatch(t: Table, now: Time, locked: set<Id>, ids: seq<Id>) {
    && |ids| <= PR_BATCH
    && (forall i | 0 <= i < |ids| :: ids[i] in t && ids[i] !in locked && PrCandidate(t[ids[i]], now))
    && (forall i, k | 0 <= i < k < |ids| :: ids[i] != ids[k])
    && (forall o, i | o in t && o !in locked && PrCandidate(t[o], now) && o !in ids && 0 <= i < |ids| ::
          t[ids[i]].updated <= t[o].updated)
    && (|ids| < PR_BATCH ==>
          forall o | o in t && o !in locked && PrCandidate(t[o], now) :: o in ids)
  }

  // --- what the unguarded and the guarded updates come to ---

  /** No row comes, goes or changes but possibly `id`. */
  predicate OthersKept(t: Table, t': Table, id: Id) {
    t'.Keys == t.Keys && forall o | o in t && o != id :: t'[o] == t[o]
  }

  /** A row keeps its key, its age and what the PR opener wrote of it. */
  predicate KeepsIdentityAndPr(r: Row, r': Row) {
    && r'.idemKey == r.idemKey && r'.created == r.created
    && r'.prClaimed == r.prClaimed && r'.prUrl == r.prUrl && r'.prBranch == r.prBranch
  }

  /** A row keeps everything a webhook or a worker wrote of it. */
  predicate KeepsWork(r: Row, r': Row) {
    && r'.idemKey == r.idemKey && r'.created == r.created
    && r'.state == r.state && r'.lease == r.lease && r'.result == r.result
  }

  /** The row is at work under a lease that ends in `secs` seconds; its result and its PR stay. */
  predicate Leased(t: Table, t': Table, id: Id, now: Time, secs: int) {
    && id in t && OthersKept(t, t', id)
    && t'[id].state.Claimed? && t'[id].lease == Some(now + secs) && t'[id].updated == now
    && t'[id].result == t[id].result && KeepsIdentityAndPr(t[id], t'[id])
  }

  /**
   A new row, as old as now and touched by nobody: queued and claimable at once if the failure is in scope,
   else done as out of scope and never claimable.
   */
  predicate Inserted(t: Table, t': Table, id: Id, key: string, inScope: bool, now: Time) {
    && id !in t && t'.Keys == t.Keys + {id} && (forall o | o in t :: t'[o] == t[o])
    && t'[id].idemKey == Some(key) && t'[id].created == now && t'[id].updated == now
    && t'[id].lease.None? && t'[id].prClaimed.None? && t'[id].prUrl.None? && t'[id].prBranch.None?
    && (inScope ==> t'[id].state.Queued? && t'[id].result.None?)
    && (!inScope ==> t'[id].state.Done? && t'[id].result == Some(Result(OutOfScope, "")))
  }

  /** The rows of the batch carry the claim time; their work and links, and every other row, stay. */
  predicate Batched(t: Table, t': Table, ids: seq<Id>, now: Time) {
    && t'.Keys == t.Keys
    && (forall o | o in t && o !in ids :: t'[o] == t[o])
    && forall o | o in t && o in ids ::
         && t'[o].prClaimed == Some(now) && t'[o].updated == now && KeepsWork(t[o], t'[o])
         && t'[o].prUrl == t[o].prUrl && t'[o].prBranch == t[o].prBranch
  }

  /** Whoever held the row and whatever it said, it is done with this result; its lease and its PR stay. */
  predicate WrittenBack(t: Table, t': Table, id: Id, result: Result, now: Time) {
    && OthersKept(t, t', id)
    && (id in t ==>
          && t'[id].state.Done? && t'[id].result == Some(result) && t'[id].updated == now
          && t'[id].lease == t[id].lease && KeepsIdentityAndPr(t[id], t'[id]))
  }

  /** Rows at work without a running lease are back in the queue, every other row is untouched, and no orphan is left. */
  predicate Reconciled(t: Table, t': Table, now: Time) {
    && t'.Keys == t.Keys
    && (forall id | id in t && (t[id].state.Queued? || t[id].state.Done?) :: t'[id] == t[id])
    && (forall id | id in t && t[id].lease.Some? && now <= t[id].lease.value :: t'[id] == t[id])
    && (forall id | id in t && t'[id] != t[id] ::
          && t'[id].state.Queued? && t'[id].lease.None? && t'[id].updated == now
          && t'[id].result == t[id].result && KeepsIdentityAndPr(t[id], t'[id]))
    && forall id | id in t' :: !Orphaned(t'[id], now)
  }

  /** A row without a link can be fetched again at once if it proposes a PR; a row with one is untouched. */
  predicate Released(t: Table, t': Table, id: Id, now: Time) {
    && OthersKept(t, t', id)
    && (id in t ==>
          && KeepsWork(t[id], t'[id]) && t'[id].updated == t[id].updated
          && t'[id].prUrl == t[id].prUrl && t'[id].prBranch == t[id].prBranch
          && (t[id].prUrl.Some? ==> t'[id] == t[id])
          && (t[id].prUrl.None? ==> t'[id].prClaimed.None?)
          && (PrCandidate(t'[id], now) <==>
                t[id].state.Done? && t[id].result.Some? && t[id].result.value.outcome.PrProposed? && t[id].prUrl.None?))
  }

  /** The row has a link and can never be fetched again; one recorded before is kept. */
  ghost predicate LinkRecorded(t: Table, t': Table, id: Id, url: string, branch: string, now: Time) {
    && OthersKept(t, t', id)
    && (id in t ==>
          && KeepsWork(t[id], t'[id]) && t'[id].prClaimed == t[id].prClaimed && t'[id].prUrl.Some?
          && (t[id].prUrl.Some? ==> t'[id] == t[id])
          && (t[id].prUrl.None? ==> t'[id].prUrl == Some(url) && t'[id].prBranch == Some(branch) && t'[id].updated == now)
          && forall later: Time :: !PrCandidate(t'[id], later))
  }

  /** The key's owner, when some row carries it. */
  ghost predicate Owns(t: Table, id: Id, key: string) {
    id in t && t[id].idemKey == Some(key)
  }

  ghost predicate KeyTaken(t: Table, key: string) {
    exists id :: Owns(t, id, key)
  }

  /** The unique partial index of migration 0003. */
  ghost predicate UniqueKeys(t: Table) {
    forall a, b, key :: Owns(t, a, key) && Owns(t, b, key) ==> a == b
  }
}
