/** The table as the mutable object the brain and the workers share. */
module JobTable {
  import opened Basics
  import opened JobQueue
  import opened QueueSystem
  import Dedup

  class Jobs {
    var rows: Table
    var now: Time

    constructor (now: Time)
      ensures rows == map[] && this.now == now
    {
      rows := map[];
      this.now := now;
    }

    /** The oldest row a worker may claim, or none. */
    method FindOldest(locked: set<Id>) returns (found: Option<Id>)
      ensures found.Some? ==> OldestClaimable(rows, now, locked, found.value)
      ensures found.None? ==> forall o | o in rows && o !in locked :: !Claimable(rows[o], now)
    {
      found := None;
      var left := rows.Keys;
      while left != {}
        invariant left <= rows.Keys
        invariant found.Some? ==>
                    && found.value in rows && found.value !in locked && Claimable(rows[found.value], now)
                    && forall o | o in rows && o !in left && o !in locked && Claimable(rows[o], now) ::
                         rows[found.value].created <= rows[o].created
        invariant found.None? ==>
                    forall o | o in rows && o !in left && o !in locked :: !Claimable(rows[o], now)
        decreases left
      {
        var id :| id in left;
        left := left - {id};
        if id !in locked && Claimable(rows[id], now) {
          if found.None? || rows[id].created < rows[found.value].created {
            found := Some(id);
          }
        }
      }
    }

    /** One transaction: pick the oldest claimable unlocked row and set its lease. */
    method ClaimOne(locked: set<Id>, leaseSeconds: int) returns (job: Option<Id>)
      modifies this`rows
      ensures job.Some? ==> OldestClaimable(old(rows), now, locked, job.value)
      ensures job.Some? ==> Leased(old(rows), rows, job.value, now, leaseSeconds)
      ensures job.None? ==> rows == old(rows)
      ensures job.None? <==> forall o | o in old(rows) && o !in locked :: !Claimable(old(rows)[o], now)
    {
      job := FindOldest(locked);
      if job.Some? {
        rows := rows[job.value := LeaseRow(rows[job.value], now, leaseSeconds)];
      }
    }

    /** The write-back has no owner, state or lease check. */
    method WriteBack(id: Id, result: Result)
      modifies this`rows
      ensures WrittenBack(old(rows), rows, id, result, now)
    {
      if id in rows {
        rows := rows[id := FinishRow(rows[id], result, now)];
      }
    }

    method ReconcileOrphans() returns (requeued: nat)
      modifies this`rows
      ensures Reconciled(old(rows), rows, now)
      ensures requeued == |set id | id in old(rows) && rows[id] != old(rows)[id]|
    {
      var orphans := set id | id in rows && Orphaned(rows[id], now);
      requeued := |orphans|;
      rows := Requeued(rows, now);
      assert orphans == set id | id in old(rows) && rows[id] != old(rows)[id];
    }

    /** Insert, or collapse onto the row that already carries the key. */
    method Receive(newId: Id, key: string, inScope: bool) returns (ack: Id, deduplicated: bool)
      requires newId !in rows
      modifies this`rows
      ensures deduplicated <==> KeyTaken(old(rows), key)
      ensures Owns(rows, ack, key)
      ensures deduplicated ==> rows == old(rows)
      ensures !deduplicated ==> ack == newId && Inserted(old(rows), rows, newId, key, inScope, now)
      ensures UniqueKeys(old(rows)) ==> UniqueKeys(rows)
    {
      var owners := set id | id in rows && rows[id].idemKey == Some(key);
      assert forall id :: Owns(rows, id, key) <==> id in owners;
      if owners != {} {
        ack :| ack in owners;
        assert Owns(rows, ack, key);
        deduplicated := true;
      } else {
        rows := rows[newId := NewRow(Some(key), inScope, now)];
        ack, deduplicated := newId, false;
        assert forall id, k :: Owns(rows, id, k) ==> (id == newId && k == key) || Owns(old(rows), id, k);
      }
    }

    /** Migration 0003: delete every row that an earlier row with the same key supersedes. */
    method CollapseDuplicates()
      modifies this`rows
      ensures rows == Dedup.Collapsed(old(rows))
      ensures UniqueKeys(rows)
      ensures Dedup.OldestKept(old(rows), rows)
    {
      hide Dedup.OldestKept, UniqueKeys, KeyTaken, Owns;
      Dedup.MigrationEstablishesUniqueKeys(rows);
      Dedup.MigrationIsOldestKept(rows);
      var left := rows.Keys;
      var kept: Table := map[];
      while left != {}
        invariant left <= rows.Keys && rows == old(rows)
        invariant kept == map a | a in rows && a !in left && !Dedup.Superseded(rows, a) :: rows[a]
        decreases left
      {
        var a :| a in left;
        left := left - {a};
        if !Dedup.Superseded(rows, a) { kept := kept[a := rows[a]]; }
      }
      rows := kept;
    }

    /** Stamp the oldest (at most 20) unclaimed verified drafts with the claim time. */
    method FetchCandidates(locked: set<Id>) returns (ids: seq<Id>)
      modifies this`rows
      ensures OldestPrBatch(old(rows), now, locked, ids)
      ensures Batched(old(rows), rows, ids, now)
      ensures |ids| <= 20
      ensures |ids| < 20 ==> forall o | o in old(rows) && o !in locked && PrCandidate(old(rows)[o], now) :: o in ids
    {
      var left := set id | id in rows && id !in locked && PrCandidate(rows[id], now);
      ids := [];
      while left != {} && |ids| < PR_BATCH
        invariant rows == old(rows) && |ids| <= PR_BATCH
        invariant left <= rows.Keys
        invariant forall o | o in rows ::
                    (o !in locked && PrCandidate(rows[o], now)) <==> (o in left || o in ids)
        invariant forall i | 0 <= i < |ids| :: ids[i] in rows && ids[i] !in left
        invariant forall i, k | 0 <= i < k < |ids| :: ids[i] != ids[k]
        invariant forall i, k | 0 <= i < k < |ids| :: rows[ids[i]].updated <= rows[ids[k]].updated
        invariant forall o, i | o in left && 0 <= i < |ids| :: rows[ids[i]].updated <= rows[o].updated
        decreases left
      {
        var next := OldestUpdated(left);
        ids := ids + [next];
        left := left - {next};
      }
      rows := Stamped(rows, Members(ids), now);
    }

    method OldestUpdated(from: set<Id>) returns (next: Id)
      requires from != {} && from <= rows.Keys
      ensures next in from && forall o | o in from :: rows[next].updated <= rows[o].updated
    {
      next :| next in from;
      var left := from - {next};
      while left != {}
        invariant left <= from && next in from
        invariant forall o | o in from && o !in left :: rows[next].updated <= rows[o].updated
        decreases left
      {
        var id :| id in left;
        left := left - {id};
        if rows[id].updated < rows[next].updated { next := id; }
      }
    }

    method ReleaseClaim(id: Id)
      modifies this`rows
      ensures Released(old(rows), rows, id, now)
    {
      if id in rows {
        rows := rows[id := ReleaseRow(rows[id])];
      }
    }

    /** The link is written only where none is recorded yet. */
    method RecordPr(id: Id, url: string, branch: string) returns (written: bool)
      modifies this`rows
      ensures written <==> id in old(rows) && old(rows)[id].prUrl.None?
      ensures LinkRecorded(old(rows), rows, id, url, branch, now)
    {
      written := id in rows && rows[id].prUrl.None?;
      if id in rows {
        rows := rows[id := RecordRow(rows[id], url, branch, now)];
      }
    }
  }

  // --- the table's methods are the system's steps ---

  /** Each relation above leaves one possible table. */
  lemma OneTable(
    t: Table, a: Table, b: Table, id: Id, secs: int, ids: seq<Id>, result: Result, url: string, branch: string, now: Time)
    ensures Leased(t, a, id, now, secs) && Leased(t, b, id, now, secs) ==> a == b
    ensures Batched(t, a, ids, now) && Batched(t, b, ids, now) ==> a == b
    ensures WrittenBack(t, a, id, result, now) && WrittenBack(t, b, id, result, now) ==> a == b
    ensures Reconciled(t, a, now) && Reconciled(t, b, now) ==> a == b
    ensures Released(t, a, id, now) && Released(t, b, id, now) ==> a == b
    ensures LinkRecorded(t, a, id, url, branch, now) && LinkRecorded(t, b, id, url, branch, now) ==> a == b
  {
    if Batched(t, a, ids, now) && Batched(t, b, ids, now) {
      forall o | o in t ensures a[o] == b[o] { assert o in ids || a[o] == t[o] == b[o]; }
    }
    if Reconciled(t, a, now) && Reconciled(t, b, now) {
      forall o | o in t ensures a[o] == b[o] {
        assert a[o] != t[o] <==> Orphaned(t[o], now);
        assert b[o] != t[o] <==> Orphaned(t[o], now);
      }
    }
  }

  lemma ClaimIsLease(s: Sys, a: Action)
    requires Enabled(s, a) && a.Claim?
    ensures OldestClaimable(s.rows, s.now, a.locked, a.job) && Leased(s.rows, Next(s, a).rows, a.job, s.now, a.leaseSeconds)
  {
  }

  lemma DeliverIsInsert(s: Sys, a: Action)
    requires Enabled(s, a) && a.Deliver?
    ensures if KeyTaken(s.rows, a.key) then Next(s, a).rows == s.rows
            else Inserted(s.rows, Next(s, a).rows, a.newId, a.key, a.inScope, s.now)
  {
    assert KeyTaken(s.rows, a.key) <==> exists id :: Owns(s.rows, id, a.key);
  }

  lemma FetchIsBatch(s: Sys, a: Action)
    requires Enabled(s, a) && a.Fetch?
    ensures OldestPrBatch(s.rows, s.now, a.locked, a.ids) && Batched(s.rows, Next(s, a).rows, a.ids, s.now)
  {
  }

  lemma WriteIsStatement(s: Sys, a: Action)
    requires Enabled(s, a)
    ensures a.Finish? ==> WrittenBack(s.rows, Next(s, a).rows, s.workers[a.worker].job, a.result, s.now)
    ensures a.BrainRestarts? ==> Reconciled(s.rows, Next(s, a).rows, s.now)
    ensures a.Release? ==> Released(s.rows, Next(s, a).rows, s.Ticketed(a.poller).job, s.now)
    ensures a.Record? ==>
              var phase := s.pollers[a.poller].phase;
              LinkRecorded(s.rows, Next(s, a).rows, s.Ticketed(a.poller).job, phase.url, phase.branch, s.now)
  {
  }

  /** In every interleaving a step that writes the table does to it what the method for that statement does. */
  lemma StepsAreStatements(s: Sys, a: Action)
    requires Enabled(s, a)
    ensures var t := Next(s, a).rows;
            match a
            case Claim(_, j, secs, locked) =>
              OldestClaimable(s.rows, s.now, locked, j) && Leased(s.rows, t, j, s.now, secs)
            case Finish(w, result) => WrittenBack(s.rows, t, s.workers[w].job, result, s.now)
            case BrainRestarts => Reconciled(s.rows, t, s.now)
            case Fetch(_, ids, locked) => OldestPrBatch(s.rows, s.now, locked, ids) && Batched(s.rows, t, ids, s.now)
            case Record(p) => LinkRecorded(s.rows, t, s.Ticketed(p).job, s.pollers[p].phase.url, s.pollers[p].phase.branch, s.now)
            case Release(p) => Released(s.rows, t, s.Ticketed(p).job, s.now)
            case Deliver(newId, key, inScope) =>
              if KeyTaken(s.rows, key) then t == s.rows else Inserted(s.rows, t, newId, key, inScope, s.now)
            case _ => t == s.rows
  {
    hide Leased, Batched, Inserted, WrittenBack, Reconciled, Released, LinkRecorded, OldestClaimable, OldestPrBatch, KeyTaken;
    match a
    case Claim(_, _, _, _) => ClaimIsLease(s, a);
    case Deliver(_, _, _) => DeliverIsInsert(s, a);
    case Fetch(_, _, _) => FetchIsBatch(s, a);
    case _ => WriteIsStatement(s, a);
  }
}
