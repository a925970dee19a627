/** Collapsing re-delivered failures: the idempotency key and migration 0003. */
module Dedup {
  import opened Basics
  import opened JobQueue
  import opened QueueSystem
  import QueueSafety
  import Text

  // --- the key ---

  /** The four identity fields of a normalized failure. */
  datatype Identity = Identity(repo: string, runId: string, taskId: string, nodeUid: string)

  function Joined(f: Identity): string {
    f.repo + "|" + f.runId + "|" + f.taskId + "|" + f.nodeUid
  }

  ghost predicate Injective(hash: string -> string) {
    forall a, b :: hash(a) == hash(b) ==> a == b
  }

  function IdemKey(hash: string -> string, f: Identity): string {
    hash(Joined(f))
  }

  predicate PipeFree(f: Identity) {
    '|' !in f.repo && '|' !in f.runId && '|' !in f.taskId && '|' !in f.nodeUid
  }

  function Pipes(s: string): nat {
    if s == "" then 0 else (if s[0] == '|' then 1 else 0) + Pipes(s[1..])
  }

  lemma {:induction false} PipesConcat(a: string, b: string)
    ensures Pipes(a + b) == Pipes(a) + Pipes(b)
  {
    if a == "" {
      assert a + b == b;
    } else {
      PipesConcat(a[1..], b);
      assert (a + b)[1..] == a[1..] + b;
    }
  }

  lemma {:induction false} NoPipes(s: string)
    ensures Pipes(s) == 0 <==> '|' !in s
  {
    if s != "" {
      NoPipes(s[1..]);
      assert s == [s[0]] + s[1..];
    }
  }

  lemma JoinedPipes(f: Identity)
    ensures Pipes(Joined(f)) == 3 + Pipes(f.repo) + Pipes(f.runId) + Pipes(f.taskId) + Pipes(f.nodeUid)
    ensures PipeFree(f) <==> Pipes(Joined(f)) == 3
  {
    var ab := f.repo + "|" + f.runId;
    PipesConcat(f.repo, "|");
    PipesConcat(f.repo + "|", f.runId);
    PipesConcat(ab, "|");
    PipesConcat(ab + "|", f.taskId);
    PipesConcat(ab + "|" + f.taskId, "|");
    PipesConcat(ab + "|" + f.taskId + "|", f.nodeUid);
    NoPipes(f.repo); NoPipes(f.runId); NoPipes(f.taskId); NoPipes(f.nodeUid);
  }

  lemma JoinedGrouped(f: Identity)
    ensures Joined(f) == f.repo + "|" + (f.runId + "|" + (f.taskId + "|" + f.nodeUid))
  {
  }

  lemma JoinedInjective(f: Identity, g: Identity)
    requires PipeFree(f) && Joined(f) == Joined(g)
    ensures f == g
  {
    JoinedPipes(f);
    JoinedPipes(g);
    JoinedGrouped(f);
    JoinedGrouped(g);
    var f3, g3 := f.taskId + "|" + f.nodeUid, g.taskId + "|" + g.nodeUid;
    Text.HeadDetermined('|', f.repo, f.runId + "|" + f3, g.repo, g.runId + "|" + g3);
    Text.HeadDetermined('|', f.runId, f3, g.runId, g3);
    Text.HeadDetermined('|', f.taskId, f.nodeUid, g.taskId, g.nodeUid);
  }

  lemma PipeAt(s: string) returns (u: string, v: string)
    requires '|' in s
    ensures s == u + "|" + v
  {
    var i :| 0 <= i < |s| && s[i] == '|';
    u, v := s[..i], s[i + 1..];
  }

  /** Moving a field boundary onto a pipe inside a field gives another failure with the same key. */
  lemma PipeCollides(f: Identity) returns (g: Identity)
    requires !PipeFree(f)
    ensures g != f && Joined(g) == Joined(f)
  {
    if '|' in f.repo {
      var u, v := PipeAt(f.repo);
      g := Identity(u, v + "|" + f.runId, f.taskId, f.nodeUid);
    } else if '|' in f.runId {
      var u, v := PipeAt(f.runId);
      g := Identity(f.repo + "|" + u, v, f.taskId, f.nodeUid);
    } else if '|' in f.taskId {
      var u, v := PipeAt(f.taskId);
      g := Identity(f.repo, f.runId + "|" + u, v, f.nodeUid);
    } else {
      var u, v := PipeAt(f.nodeUid);
      g := Identity(f.repo, f.runId, f.taskId + "|" + u, v);
    }
    assert Joined(g) == Joined(f);
  }

  /** A failure shares its key with no other failure exactly when none of its fields contains a pipe. */
  lemma KeyIdentifiesIffPipeFree(hash: string -> string, f: Identity)
    requires Injective(hash)
    ensures PipeFree(f) <==> forall g :: IdemKey(hash, g) == IdemKey(hash, f) ==> g == f
  {
    if PipeFree(f) {
      forall g | IdemKey(hash, g) == IdemKey(hash, f) ensures g == f { JoinedInjective(f, g); }
    } else {
      var g := PipeCollides(f);
      assert IdemKey(hash, g) == IdemKey(hash, f);
    }
  }

  /** Over any run, two pipe-free deliveries were given the same job exactly when their fields agree. */
  lemma {:induction false} SameJobIffSameFailure(
      hash: string -> string, s: Sys, run: seq<Action>, i: nat, k: nat, f: Identity, g: Identity)
    requires Injective(hash) && PipeFree(f) && PipeFree(g)
    requires Good(s) && IsRun(s, run) && i < |After(s, run).acks| && k < |After(s, run).acks|
    requires After(s, run).acks[i].key == IdemKey(hash, f) && After(s, run).acks[k].key == IdemKey(hash, g)
    ensures After(s, run).acks[i].job == After(s, run).acks[k].job <==> f == g
  {
    QueueSafety.SameJobIffSameKey(s, run, i, k);
    KeyIdentifiesIffPipeFree(hash, f);
  }

  // --- migration 0003 ---

  predicate Precedes(t: Table, a: Id, b: Id)
    requires a in t && b in t
  {
    t[a].created < t[b].created || (t[a].created == t[b].created && a < b)
  }

  /** `DELETE … USING`: some row with the same non-null key comes before it. */
  predicate Superseded(t: Table, a: Id)
    requires a in t
  {
    t[a].idemKey.Some? && exists b | b in t :: t[b].idemKey == t[a].idemKey && Precedes(t, b, a)
  }

  /** What the DELETE leaves. */
  function Collapsed(t: Table): Table {
    map a | a in t && !Superseded(t, a) :: t[a]
  }

  lemma {:induction false} LeastRow(t: Table, among: set<Id>) returns (least: Id)
    requires among != {} && among <= t.Keys
    ensures least in among && forall a | a in among :: a == least || Precedes(t, least, a)
    decreases |among|
  {
    least :| least in among;
    if among != {least} {
      var l := LeastRow(t, among - {least});
      assert among == (among - {least}) + {least};
      if Precedes(t, l, least) { least := l; }
    }
  }

  /** Of the rows with this key, `a` was created first, or has the least id among those created first. */
  ghost predicate Oldest(t: Table, key: string, a: Id) {
    && Owns(t, a, key)
    && forall b | Owns(t, b, key) :: t[a].created < t[b].created || (t[a].created == t[b].created && a <= b)
  }

  lemma OnlyTheOldestSurvives(t: Table, key: string, least: Id, a: Id)
    requires Oldest(t, key, least)
    ensures Owns(Collapsed(t), a, key) <==> a == least
  {
    if Owns(t, a, key) && a != least {
      assert Precedes(t, least, a);
      assert Superseded(t, a);
    }
  }

  /** Exactly the lexicographically least (created_at, id) row of every key survives. */
  lemma MigrationKeepsTheOldest(t: Table, key: string)
    requires KeyTaken(t, key)
    ensures exists least :: Oldest(t, key, least) && forall a :: Owns(Collapsed(t), a, key) <==> a == least
    ensures forall a, b | Owns(Collapsed(t), a, key) && Owns(t, b, key) ::
              t[a].created < t[b].created || (t[a].created == t[b].created && a <= b)
  {
    var owners := set a | a in t && t[a].idemKey == Some(key);
    var any :| Owns(t, any, key);
    assert any in owners;
    var least := LeastRow(t, owners);
    forall a | Owns(t, a, key) ensures a == least || Precedes(t, least, a) { assert a in owners; }
    assert Oldest(t, key, least);
    forall a ensures Owns(Collapsed(t), a, key) <==> a == least { OnlyTheOldestSurvives(t, key, least, a); }
  }

  /** Afterwards keys are unique, rows without a key are untouched and every survivor is unchanged. */
  lemma MigrationEstablishesUniqueKeys(t: Table)
    ensures UniqueKeys(Collapsed(t))
    ensures forall a | a in t && t[a].idemKey.None? :: a in Collapsed(t)
    ensures forall a | a in Collapsed(t) :: a in t && Collapsed(t)[a] == t[a]
    ensures forall key :: KeyTaken(t, key) <==> KeyTaken(Collapsed(t), key)
  {
    forall a, b, key | Owns(Collapsed(t), a, key) && Owns(Collapsed(t), b, key) ensures a == b {
      assert Owns(t, a, key);
      MigrationKeepsTheOldest(t, key);
    }
    forall key ensures KeyTaken(t, key) <==> KeyTaken(Collapsed(t), key) {
      if KeyTaken(t, key) {
        MigrationKeepsTheOldest(t, key);
        var least :| Oldest(t, key, least) && forall a :: Owns(Collapsed(t), a, key) <==> a == least;
        assert Owns(Collapsed(t), least, key);
      }
      if a :| Owns(Collapsed(t), a, key) { assert Owns(t, a, key); }
    }
  }

  /**
   Row by row: survivors are unchanged, rows without a key stay, and of the rows with one key a single one
   stays, the one created first, with the least id among those created first.
   */
  ghost predicate OldestKept(t: Table, t': Table) {
    && (forall a | a in t' :: a in t && t'[a] == t[a])
    && (forall b | b in t && t[b].idemKey.None? :: b in t')
    && (forall b | b in t && t[b].idemKey.Some? :: exists a :: a in t' && t'[a].idemKey == t[b].idemKey)
    && forall a, b | a in t' && b in t && t'[a].idemKey.Some? && t[b].idemKey == t'[a].idemKey ::
         t'[a].created < t[b].created || (t'[a].created == t[b].created && a <= b)
  }

  lemma MigrationIsOldestKept(t: Table)
    ensures OldestKept(t, Collapsed(t))
  {
    KeysSurvive(t);
    NoneIsOlder(t);
    KeylessStay(t);
    hide Collapsed;
  }

  lemma KeylessStay(t: Table)
    ensures forall b | b in t && t[b].idemKey.None? :: b in Collapsed(t)
  {
  }

  lemma KeysSurvive(t: Table)
    ensures forall b | b in t && t[b].idemKey.Some? :: exists a :: a in Collapsed(t) && Collapsed(t)[a].idemKey == t[b].idemKey
  {
    hide *;
    forall b | b in t && t[b].idemKey.Some?
      ensures exists a :: a in Collapsed(t) && Collapsed(t)[a].idemKey == t[b].idemKey
    {
      var a := Survivor(t, b);
    }
  }

  lemma NoneIsOlder(t: Table)
    ensures forall a | a in Collapsed(t) :: a in t && Collapsed(t)[a] == t[a]
    ensures forall a, b | a in Collapsed(t) && b in t && t[a].idemKey.Some? && t[b].idemKey == t[a].idemKey ::
              t[a].created < t[b].created || (t[a].created == t[b].created && a <= b)
  {
    MigrationEstablishesUniqueKeys(t);
    hide *;
    forall a, b | a in Collapsed(t) && b in t && t[a].idemKey.Some? && t[b].idemKey == t[a].idemKey
      ensures t[a].created < t[b].created || (t[a].created == t[b].created && a <= b)
    {
      SurvivorIsOldest(t, a, b);
    }
  }

  lemma Survivor(t: Table, b: Id) returns (a: Id)
    requires b in t && t[b].idemKey.Some?
    ensures a in Collapsed(t) && Collapsed(t)[a].idemKey == t[b].idemKey
  {
    var key := t[b].idemKey.value;
    assert Owns(t, b, key);
    MigrationEstablishesUniqueKeys(t);
    assert KeyTaken(Collapsed(t), key);
    hide Collapsed, UniqueKeys;
    a :| Owns(Collapsed(t), a, key);
  }

  lemma SurvivorIsOldest(t: Table, a: Id, b: Id)
    requires a in Collapsed(t) && b in t && t[a].idemKey.Some? && t[b].idemKey == t[a].idemKey
    ensures t[a].created < t[b].created || (t[a].created == t[b].created && a <= b)
  {
    var key := t[b].idemKey.value;
    assert Owns(t, b, key) && Owns(Collapsed(t), a, key);
    MigrationKeepsTheOldest(t, key);
  }
}
