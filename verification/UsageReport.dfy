/** Which runs a job's cost is read from, and what they add up to. */
module UsageReport {
  import opened Basics
  import Text

  /** An event of the fan-out's own journal. */
  datatype ParentEvent = ChildScheduled(key: Option<string>, childRunId: Option<string>) | OtherEvent

  predicate HasChildId(e: ParentEvent) {
    e.ChildScheduled? && e.childRunId.GetOr("") != ""
  }

  predicate Starts(e: ParentEvent, key: string) {
    HasChildId(e) && e.key == Some(key)
  }

  /** The children scheduled by the events, in order. */
  function ChildIds(events: seq<ParentEvent>): seq<string> {
    if events == [] then []
    else ChildIds(events[..|events| - 1]) + if HasChildId(events[|events| - 1]) then [events[|events| - 1].childRunId.value] else []
  }

  /** The first child started under the winner's key, or the parent itself when there is none. */
  method ResolveChildRunId(events: seq<ParentEvent>, parent: string, key: Option<string>) returns (id: string)
    ensures key.None? || (forall i | 0 <= i < |events| :: !Starts(events[i], key.value)) ==> id == parent
    ensures forall i | 0 <= i < |events| && key.Some? ::
              Starts(events[i], key.value) && (forall k | 0 <= k < i :: !Starts(events[k], key.value))
              ==> id == events[i].childRunId.value
  {
    if key.None? { return parent; }
    for n := 0 to |events|
      invariant forall i | 0 <= i < n :: !Starts(events[i], key.value)
    {
      match events[n] {
        case ChildScheduled(k, child) =>
          if k == key && child.GetOr("") != "" { return child.value; }
        case OtherEvent =>
      }
    }
    id := parent;
  }

  method AllChildRunIds(events: seq<ParentEvent>) returns (ids: seq<string>)
    ensures ids == ChildIds(events)
  {
    ids := [];
    for n := 0 to |events|
      invariant ids == ChildIds(events[..n])
    {
      assert events[..n + 1][..n] == events[..n];
      match events[n] {
        case ChildScheduled(_, child) => if child.GetOr("") != "" { ids := ids + [child.value]; }
        case OtherEvent =>
      }
    }
    assert events[..|events|] == events;
  }

  // --- usage ---

  datatype Entry = Entry(input: Option<int>, output: Option<int>, model: Option<string>)

  /** A recorded event of a run: an attempt's end may carry usage entries. */
  datatype Row = AttemptEnd(usage: Option<seq<Entry>>) | OtherRow

  datatype Summary = Summary(input: int, output: int, models: seq<string>, entries: nat)

  function EntriesOf(rows: seq<Row>): seq<Entry> {
    if rows == [] then []
    else EntriesOf(rows[..|rows| - 1]) + RowEntries(rows[|rows| - 1])
  }

  function RowEntries(row: Row): seq<Entry> {
    match row case AttemptEnd(Some(es)) => es case _ => []
  }

  function RunEntries(db: map<string, seq<Row>>, id: string): seq<Entry> {
    if id in db then EntriesOf(db[id]) else []
  }

  function AllEntries(db: map<string, seq<Row>>, ids: seq<string>): seq<Entry> {
    if ids == [] then [] else AllEntries(db, ids[..|ids| - 1]) + RunEntries(db, ids[|ids| - 1])
  }

  /** Totals over a list of entries; the models in first-seen order. */
  function Summarize(es: seq<Entry>): Summary {
    if es == [] then Summary(0, 0, [], 0)
    else Added(Summarize(es[..|es| - 1]), es[|es| - 1])
  }

  function Added(s: Summary, e: Entry): Summary {
    Summary(
      s.input + e.input.GetOr(0), s.output + e.output.GetOr(0),
      if e.model.Some? && e.model.value !in s.models then s.models + [e.model.value] else s.models,
      s.entries + 1)
  }

  lemma {:induction false} SummarizeSnoc(before: seq<Entry>, es: seq<Entry>, n: nat)
    requires n < |es|
    ensures Summarize(before + es[..n + 1]) == Added(Summarize(before + es[..n]), es[n])
  {
    var all := before + es[..n + 1];
    assert all[..|all| - 1] == before + es[..n];
  }

  predicate Seen(seen: set<string>, models: seq<string>) {
    (forall m | m in seen :: m in models) && forall m | m in models :: m in seen
  }

  method AddEntry(s0: Summary, seen0: set<string>, entry: Entry) returns (s: Summary, seen: set<string>)
    requires Seen(seen0, s0.models)
    ensures s == Added(s0, entry) && Seen(seen, s.models)
  {
    s, seen := s0.(entries := s0.entries + 1), seen0;
    if entry.input.Some? { s := s.(input := s.input + entry.input.value); }
    if entry.output.Some? { s := s.(output := s.output + entry.output.value); }
    if entry.model.Some? && entry.model.value !in seen {
      seen := seen + {entry.model.value};
      s := s.(models := s.models + [entry.model.value]);
    }
  }

  /** One recorded attempt adds its entries. */
  method AddRow(s0: Summary, seen0: set<string>, row: Row, ghost past: seq<Entry>) returns (s: Summary, seen: set<string>)
    requires s0 == Summarize(past) && Seen(seen0, s0.models)
    ensures s == Summarize(past + RowEntries(row)) && Seen(seen, s.models)
  {
    hide Summarize, Seen, RowEntries, Added;
    var es := RowEntries(row);
    s, seen := s0, seen0;
    assert past + es[..0] == past;
    for e := 0 to |es|
      invariant s == Summarize(past + es[..e]) && Seen(seen, s.models)
    {
      SummarizeSnoc(past, es, e);
      s, seen := AddEntry(s, seen, es[e]);
    }
    assert es[..|es|] == es;
  }

  lemma EntriesSnoc(rows: seq<Row>, k: nat)
    requires k < |rows|
    ensures EntriesOf(rows[..k + 1]) == EntriesOf(rows[..k]) + RowEntries(rows[k])
  {
    assert rows[..k + 1][..k] == rows[..k];
  }

  /** One run adds the entries of its attempts. */
  method AddRun(s0: Summary, seen0: set<string>, rows: seq<Row>, ghost past: seq<Entry>) returns (s: Summary, seen: set<string>)
    requires s0 == Summarize(past) && Seen(seen0, s0.models)
    ensures s == Summarize(past + EntriesOf(rows)) && Seen(seen, s.models)
  {
    s, seen := s0, seen0;
    assert past + EntriesOf(rows[..0]) == past;
    hide Summarize, Seen, RowEntries, EntriesOf;
    for k := 0 to |rows|
      invariant s == Summarize(past + EntriesOf(rows[..k])) && Seen(seen, s.models)
    {
      EntriesSnoc(rows, k);
      Text.Assoc(past, EntriesOf(rows[..k]), RowEntries(rows[k]));
      s, seen := AddRow(s, seen, rows[k], past + EntriesOf(rows[..k]));
    }
    assert rows[..|rows|] == rows;
  }

  lemma {:induction false} AllEntriesSnoc(db: map<string, seq<Row>>, ids: seq<string>, r: nat)
    requires r < |ids|
    ensures AllEntries(db, ids[..r + 1]) == AllEntries(db, ids[..r]) + RunEntries(db, ids[r])
  {
    assert ids[..r + 1][..r] == ids[..r];
  }

  /** `aggregate_usage_inner`: over the runs, their attempts, and the entries of each. */
  method AggregateUsage(db: map<string, seq<Row>>, runIds: seq<string>) returns (s: Summary)
    ensures s == Summarize(AllEntries(db, runIds))
  {
    s := Summary(0, 0, [], 0);
    var seen: set<string> := {};
    NothingYet();
    assert AllEntries(db, runIds[..0]) == [];
    hide Summarize, Seen, AllEntries, EntriesOf;
    for r := 0 to |runIds|
      invariant s == Summarize(AllEntries(db, runIds[..r])) && Seen(seen, s.models)
    {
      AllEntriesSnoc(db, runIds, r);
      var rows := if runIds[r] in db then db[runIds[r]] else [];
      NoRows();
      s, seen := AddRun(s, seen, rows, AllEntries(db, runIds[..r]));
    }
    assert runIds[..|runIds|] == runIds;
  }

  lemma NoRows()
    ensures EntriesOf([]) == []
  {
  }

  lemma NothingYet()
    ensures Summarize([]) == Summary(0, 0, [], 0) && Seen({}, [])
  {
  }

  // --- each candidate's events exactly once ---

  function Sum(es: seq<Entry>, f: Entry -> int): int {
    if es == [] then 0 else Sum(es[..|es| - 1], f) + f(es[|es| - 1])
  }

  /** The sum over candidates 0 .. n - 1 of what each one's own run used. */
  function SumOver(db: map<string, seq<Row>>, runOf: nat -> string, n: nat, f: Entry -> int): int {
    if n == 0 then 0 else SumOver(db, runOf, n - 1, f) + UsedBy(db, runOf(n - 1), f)
  }

  function SumIds(db: map<string, seq<Row>>, ids: seq<string>, f: Entry -> int): int {
    if ids == [] then 0 else SumIds(db, ids[..|ids| - 1], f) + Sum(RunEntries(db, ids[|ids| - 1]), f)
  }

  lemma {:induction false} SumConcat(a: seq<Entry>, b: seq<Entry>, f: Entry -> int)
    ensures Sum(a + b, f) == Sum(a, f) + Sum(b, f)
    decreases |b|
  {
    if b == [] {
      assert a + b == a;
    } else {
      assert (a + b)[..|a + b| - 1] == a + b[..|b| - 1];
      SumConcat(a, b[..|b| - 1], f);
    }
  }

  /** What the attempts among the rows used, those that report usage, entry by entry. */
  function Used(rows: seq<Row>, f: Entry -> int): int {
    if rows == [] then 0
    else
      var last := rows[|rows| - 1];
      Used(rows[..|rows| - 1], f) + if last.AttemptEnd? && last.usage.Some? then Sum(last.usage.value, f) else 0
  }

  function UsedBy(db: map<string, seq<Row>>, id: string, f: Entry -> int): int {
    if id in db then Used(db[id], f) else 0
  }

  lemma {:induction false} RowsUse(rows: seq<Row>, f: Entry -> int)
    ensures Sum(EntriesOf(rows), f) == Used(rows, f)
    decreases |rows|
  {
    if rows != [] {
      RowsUse(rows[..|rows| - 1], f);
      SumConcat(EntriesOf(rows[..|rows| - 1]), RowEntries(rows[|rows| - 1]), f);
    }
  }

  lemma RunUses(db: map<string, seq<Row>>, id: string, f: Entry -> int)
    ensures Sum(RunEntries(db, id), f) == UsedBy(db, id, f)
  {
    if id in db { RowsUse(db[id], f); }
  }

  lemma {:induction false} SumOfAll(db: map<string, seq<Row>>, ids: seq<string>, f: Entry -> int)
    ensures Sum(AllEntries(db, ids), f) == SumIds(db, ids, f)
    decreases |ids|
  {
    if ids != [] {
      SumOfAll(db, ids[..|ids| - 1], f);
      SumConcat(AllEntries(db, ids[..|ids| - 1]), RunEntries(db, ids[|ids| - 1]), f);
    }
  }

  lemma {:induction false} TotalsAreSums(es: seq<Entry>)
    ensures var s := Summarize(es);
            && s.input == Sum(es, (e: Entry) => e.input.GetOr(0))
            && s.output == Sum(es, (e: Entry) => e.output.GetOr(0))
            && s.entries == |es|
    decreases |es|
  {
    if es != [] { TotalsAreSums(es[..|es| - 1]); }
  }

  function Runs(runOf: nat -> string, n: nat): (runs: seq<string>)
    ensures |runs| == n && forall i | 0 <= i < n :: runs[i] == runOf(i)
  {
    seq(n, i requires 0 <= i < n => runOf(i))
  }

  /** The parent started each of the n candidates once, on a run of its own. */
  ghost predicate StartedOnce(events: seq<ParentEvent>, key: nat -> string, runOf: nat -> string, n: nat) {
    && (forall i: nat, k: nat | i < k < n :: runOf(i) != runOf(k) && key(i) != key(k))
    && (forall i: nat | i < n :: runOf(i) != "")
    && multiset(ChildIds(events)) == multiset(Runs(runOf, n))
    && forall e | 0 <= e < |events| && HasChildId(events[e]) ::
         exists i: nat :: i < n && events[e].key == Some(key(i)) && events[e].childRunId == Some(runOf(i))
  }

  lemma {:induction false} SumIdsRemove(db: map<string, seq<Row>>, ids: seq<string>, f: Entry -> int, k: nat)
    requires k < |ids|
    ensures SumIds(db, ids, f) == SumIds(db, ids[..k] + ids[k + 1..], f) + Sum(RunEntries(db, ids[k]), f)
    decreases |ids|
  {
    hide Sum, RunEntries;
    var rest := ids[..k] + ids[k + 1..];
    if k == |ids| - 1 {
      assert rest == ids[..k];
    } else {
      var init := ids[..|ids| - 1];
      SumIdsRemove(db, init, f, k);
      assert init[..k] + init[k + 1..] == rest[..|rest| - 1];
      assert rest[|rest| - 1] == ids[|ids| - 1];
    }
  }

  lemma SameRest(ids: seq<string>, k: nat, runs: seq<string>, last: string)
    requires k < |ids| && ids[k] == last && multiset(ids) == multiset(runs + [last])
    ensures multiset(ids[..k] + ids[k + 1..]) == multiset(runs)
  {
    assert ids == ids[..k] + ([ids[k]] + ids[k + 1..]);
    assert multiset(ids) == multiset(ids[..k]) + (multiset{last} + multiset(ids[k + 1..]));
    assert multiset(ids) - multiset{last} == multiset(ids[..k]) + multiset(ids[k + 1..]);
    assert multiset(runs + [last]) - multiset{last} == multiset(runs);
  }

  lemma Occurs(ids: seq<string>, runs: seq<string>, last: string) returns (k: nat)
    requires multiset(ids) == multiset(runs + [last])
    ensures k < |ids| && ids[k] == last
  {
    assert (runs + [last])[|runs|] == last;
    assert last in multiset(ids);
    k :| k < |ids| && ids[k] == last;
  }

  lemma NoIds(ids: seq<string>)
    requires multiset(ids) == multiset([])
    ensures ids == []
  {
    assert |ids| == |multiset(ids)|;
  }

  lemma {:induction false} SumIdsOver(db: map<string, seq<Row>>, ids: seq<string>, runOf: nat -> string, n: nat, f: Entry -> int)
    requires multiset(ids) == multiset(Runs(runOf, n))
    ensures SumIds(db, ids, f) == SumOver(db, runOf, n, f)
    decreases n
  {
    if n == 0 {
      assert Runs(runOf, 0) == [];
      NoIds(ids);
    } else {
      hide SumIds, Sum, RunEntries;
      var (runs, last) := (Runs(runOf, n - 1), runOf(n - 1));
      assert Runs(runOf, n) == runs + [last];
      var k := Occurs(ids, runs, last);
      SumIdsRemove(db, ids, f, k);
      SameRest(ids, k, runs, last);
      SumIdsOver(db, ids[..k] + ids[k + 1..], runOf, n - 1, f);
      RunUses(db, last, f);
    }
  }

  /**
   Whatever order the children were recorded in, the cost of a job is the sum over its candidates of
   what each one's own run used: every candidate counted, and once.
   */
  lemma {:induction false} EveryCandidateOnce(
    events: seq<ParentEvent>, key: nat -> string, runOf: nat -> string, n: nat, db: map<string, seq<Row>>)
    requires StartedOnce(events, key, runOf, n)
    ensures var s := Summarize(AllEntries(db, ChildIds(events)));
            && s.input == SumOver(db, runOf, n, (e: Entry) => e.input.GetOr(0))
            && s.output == SumOver(db, runOf, n, (e: Entry) => e.output.GetOr(0))
            && s.entries == SumOver(db, runOf, n, (e: Entry) => 1)
  {
    var ids := ChildIds(events);
    var es := AllEntries(db, ids);
    TotalsAreSums(es);
    CountIsSum(es);
    SumOfAll(db, ids, (e: Entry) => e.input.GetOr(0));
    SumOfAll(db, ids, (e: Entry) => e.output.GetOr(0));
    SumOfAll(db, ids, (e: Entry) => 1);
    SumIdsOver(db, ids, runOf, n, (e: Entry) => e.input.GetOr(0));
    SumIdsOver(db, ids, runOf, n, (e: Entry) => e.output.GetOr(0));
    SumIdsOver(db, ids, runOf, n, (e: Entry) => 1);
  }

  lemma {:induction false} CountIsSum(es: seq<Entry>)
    ensures Sum(es, (e: Entry) => 1) == |es|
    decreases |es|
  {
    if es != [] { CountIsSum(es[..|es| - 1]); }
  }

  lemma {:induction false} ChildIdsMembers(events: seq<ParentEvent>, id: string)
    ensures id in ChildIds(events) <==> exists i :: 0 <= i < |events| && HasChildId(events[i]) && events[i].childRunId.value == id
    decreases |events|
  {
    if events != [] {
      var init := events[..|events| - 1];
      ChildIdsMembers(init, id);
      if i :| 0 <= i < |events| && HasChildId(events[i]) && events[i].childRunId.value == id {
        if i < |init| { assert HasChildId(init[i]); }
      }
      if i :| 0 <= i < |init| && HasChildId(init[i]) && init[i].childRunId.value == id {
        assert HasChildId(events[i]);
      }
    }
  }

  lemma {:induction false} RunIsAmong(events: seq<ParentEvent>, key: nat -> string, runOf: nat -> string, n: nat, w: nat)
    requires StartedOnce(events, key, runOf, n) && w < n
    ensures runOf(w) in ChildIds(events)
  {
    var runs := Runs(runOf, n);
    assert runs[w] in multiset(runs);
    hide ChildIds;
  }

  /** A recorded child with a candidate's run carries that candidate's key, and the other way round. */
  lemma KeyIffRun(events: seq<ParentEvent>, key: nat -> string, runOf: nat -> string, n: nat, w: nat, i: nat)
    requires StartedOnce(events, key, runOf, n) && w < n && i < |events| && HasChildId(events[i])
    ensures Starts(events[i], key(w)) <==> events[i].childRunId.value == runOf(w)
  {
    hide ChildIds, Runs;
    var k: nat :| k < n && events[i].key == Some(key(k)) && events[i].childRunId == Some(runOf(k));
  }

  /** A candidate's key resolves to that candidate's own run, and that run is among the ones costed. */
  lemma {:induction false} WinnerIsCosted(events: seq<ParentEvent>, key: nat -> string, runOf: nat -> string, n: nat, w: nat)
    requires StartedOnce(events, key, runOf, n) && w < n
    ensures runOf(w) in ChildIds(events)
    ensures exists i :: 0 <= i < |events| && Starts(events[i], key(w)) && (forall k | 0 <= k < i :: !Starts(events[k], key(w)))
                        && events[i].childRunId.value == runOf(w)
  {
    RunIsAmong(events, key, runOf, n, w);
    ChildIdsMembers(events, runOf(w));
    var i: nat :| i < |events| && HasChildId(events[i]) && events[i].childRunId.value == runOf(w);
    KeyIffRun(events, key, runOf, n, w, i);
    var first := FirstStart(events, key(w), i);
    KeyIffRun(events, key, runOf, n, w, first);
    hide StartedOnce, ChildIds;
  }

  lemma {:induction false} FirstStart(events: seq<ParentEvent>, key: string, n: nat) returns (i: nat)
    requires n < |events| && Starts(events[n], key)
    ensures i <= n && Starts(events[i], key) && forall k | 0 <= k < i :: !Starts(events[k], key)
  {
    if k: nat :| k < n && Starts(events[k], key) { i := FirstStart(events, key, k); } else { i := n; }
  }

  // --- the transcript a reader starts from ---

  /** The transcript union: hand-written lines, or the place of a run in a journal file. */
  datatype Transcript = Lines(lines: seq<string>) | Journal(runId: string, file: string, costRunIds: seq<string>)

  /** `cost_run_ids`: no journal, no cost; without a list the one run that made the result. */
  function CostRunIds(t: Transcript): Option<seq<string>> {
    match t
    case Lines(_) => None
    case Journal(runId, _, ids) => Some(if ids != [] then ids else [runId])
  }

  /** A fan-out's transcript leads to the winner's own run, and its cost is that of all its candidates. */
  lemma {:induction false} TranscriptCostsTheJob(
    events: seq<ParentEvent>, key: nat -> string, runOf: nat -> string, n: nat, w: nat, file: string,
    db: map<string, seq<Row>>)
    requires StartedOnce(events, key, runOf, n) && w < n
    ensures var cost := CostRunIds(Journal(runOf(w), file, ChildIds(events)));
            && cost.Some? && runOf(w) in cost.value
            && Summarize(AllEntries(db, cost.value)).input == SumOver(db, runOf, n, (e: Entry) => e.input.GetOr(0))
            && Summarize(AllEntries(db, cost.value)).output == SumOver(db, runOf, n, (e: Entry) => e.output.GetOr(0))
  {
    WinnerIsCosted(events, key, runOf, n, w);
    EveryCandidateOnce(events, key, runOf, n, db);
  }

  /** A job's journal always has a cost: its children's runs', or its own run's when it started none. Transcript lines have none. */
  lemma CostIsOfRuns(t: Transcript)
    ensures t.Lines? <==> CostRunIds(t).None?
    ensures t.Journal? && t.costRunIds == [] ==> CostRunIds(t) == Some([t.runId])
    ensures t.Journal? && t.costRunIds != [] ==> CostRunIds(t) == Some(t.costRunIds)
  {
  }
}
