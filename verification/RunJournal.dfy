/** A run's durable journal: recorded calls, replay by identity, and the point a fork is cut at. */
module RunJournal {
  import opened Basics
  import opened AgentTools
  import opened History

  datatype Task = CompleteTask | DispatchTask | VerifyTask

  datatype Output = TurnOut(turn: Turn) | ReplyOut(reply: Reply) | RunOut(run: Run)

  /** A substituted fix, path by path, and the `_dispatch` ordinal after which it takes over. */
  datatype Override = Override(contents: seq<(string, string)>, after: nat)

  /** What a run was started with; the failure and the tools are the job's. */
  datatype Payload = Payload(maxTurns: nat, substitute: Option<Override>)

  /** A call's identity is its task and how many calls of that task came before. */
  datatype Event =
    | Created(payload: Payload)
    | Scheduled(task: Task, ordinal: nat, call: Option<ToolCall>)
    | Completed(task: Task, ordinal: nat, output: Output)
    | Failed(task: Task, ordinal: nat)

  predicate Records(e: Event, task: Task, ordinal: nat) {
    e.Completed? && e.task == task && e.ordinal == ordinal
  }

  /** The recorded result of a call; a hit returns it without running the call. */
  function Recorded(j: seq<Event>, task: Task, ordinal: nat): Option<Output> {
    if j == [] then None
    else
      match Recorded(j[..|j| - 1], task, ordinal)
      case Some(out) => Some(out)
      case None => if Records(j[|j| - 1], task, ordinal) then Some(j[|j| - 1].output) else None
  }

  lemma {:induction false} Unrecorded(j: seq<Event>, task: Task, ordinal: nat)
    requires forall i | 0 <= i < |j| :: !Records(j[i], task, ordinal)
    ensures Recorded(j, task, ordinal).None?
  {
    if j != [] { Unrecorded(j[..|j| - 1], task, ordinal); }
  }

  /** A recorded result stays the one found, however the journal grows. */
  lemma {:induction false} RecordedStays(j: seq<Event>, more: seq<Event>, task: Task, ordinal: nat)
    requires Recorded(j, task, ordinal).Some?
    ensures Recorded(j + more, task, ordinal) == Recorded(j, task, ordinal)
    decreases |more|
  {
    if more == [] {
      assert j + more == j;
    } else {
      RecordedStays(j, more[..|more| - 1], task, ordinal);
      assert (j + more)[..|j + more| - 1] == j + more[..|more| - 1];
    }
  }

  /** A fork keeps the prefix up to and including an event, under a new payload. */
  function ForkOf(j: seq<Event>, upTo: nat, payload: Payload): seq<Event>
    requires 0 < upTo < |j|
  {
    [Created(payload)] + j[1..upTo + 1]
  }

  lemma {:induction false} ForkRecords(j: seq<Event>, upTo: nat, payload: Payload, task: Task, ordinal: nat)
    requires 0 < upTo < |j| && j[0].Created?
    ensures Recorded(ForkOf(j, upTo, payload), task, ordinal) == Recorded(j[..upTo + 1], task, ordinal)
    decreases upTo
  {
    var f := ForkOf(j, upTo, payload);
    var p := j[..upTo + 1];
    assert p[..|p| - 1] == j[..upTo] && f[|f| - 1] == p[|p| - 1];
    if upTo == 1 {
      assert f[..|f| - 1] == [Created(payload)] && j[..upTo] == [j[0]];
      Unrecorded([Created(payload)], task, ordinal);
      Unrecorded([j[0]], task, ordinal);
    } else {
      ForkRecords(j, upTo - 1, payload, task, ordinal);
      assert f[..|f| - 1] == ForkOf(j, upTo - 1, payload);
    }
  }

  // --- locating the fork point ---

  datatype ForkPoint = ForkPoint(eventSeq: nat, ordinal: nat, source: Option<string>)

  /** The tool of the `_dispatch` call that an event schedules. */
  predicate Schedules(e: Event, name: string, ordinal: nat) {
    e.Scheduled? && e.task == DispatchTask && e.ordinal == ordinal && e.call.Some? && e.call.value.name == name
  }

  predicate SchedulesTool(e: Event, name: string) {
    e.Scheduled? && Schedules(e, name, e.ordinal)
  }

  /** The first recorded `edit_file` call has ordinal `first`. */
  predicate FirstEdit(j: seq<Event>, first: nat) {
    exists i :: 0 <= i < |j| && Schedules(j[i], "edit_file", first) && forall k | 0 <= k < i :: !SchedulesTool(j[k], "edit_file")
  }

  /** The call completed last at event `at`, and not with an error. */
  predicate SucceededAt(j: seq<Event>, ordinal: nat, at: nat) {
    && at < |j| && Records(j[at], DispatchTask, ordinal)
    && j[at].output.ReplyOut? && !j[at].output.reply.isError
    && forall i | at < i < |j| :: !Records(j[i], DispatchTask, ordinal)
  }

  ghost predicate BeforeEdits(j: seq<Event>, ordinal: nat) {
    forall first: nat :: FirstEdit(j, first) ==> ordinal < first
  }

  predicate CallScheduled(j: seq<Event>, name: string, ordinal: nat) {
    exists i :: 0 <= i < |j| && Schedules(j[i], name, ordinal)
  }

  /** A usable schema snapshot: a `get_schema` call that succeeded and no edit came before. */
  ghost predicate Eligible(j: seq<Event>, ordinal: nat) {
    && CallScheduled(j, "get_schema", ordinal) && BeforeEdits(j, ordinal)
    && exists at: nat :: SucceededAt(j, ordinal, at)
  }

  /** The fork point is the last usable snapshot; `eventSeq` is where its call completed. */
  ghost predicate Located(j: seq<Event>, fp: ForkPoint) {
    && Eligible(j, fp.ordinal) && SucceededAt(j, fp.ordinal, fp.eventSeq)
    && (forall o: nat :: Eligible(j, o) ==> o <= fp.ordinal)
    && exists i :: 0 <= i < |j| && Schedules(j[i], "get_schema", fp.ordinal) && fp.source == Arg(j[i].call.value, "source")
  }

  // What the scan knows after `n` events.

  predicate SourcesOk(j: seq<Event>, n: nat, schemas: seq<nat>, sources: map<nat, Option<string>>)
    requires n <= |j|
  {
    && (forall o | o in schemas :: o in sources && exists i :: 0 <= i < n && Schedules(j[i], "get_schema", o)
                                                        && sources[o] == Arg(j[i].call.value, "source"))
    && forall i | 0 <= i < n && SchedulesTool(j[i], "get_schema") :: j[i].ordinal in schemas
  }

  predicate FirstEditOk(j: seq<Event>, n: nat, firstEdit: Option<nat>)
    requires n <= |j|
  {
    match firstEdit
    case None => forall k | 0 <= k < n :: !SchedulesTool(j[k], "edit_file")
    case Some(first) => FirstEdit(j[..n], first)
  }

  predicate CompletedOk(j: seq<Event>, n: nat, completed: map<nat, (nat, bool)>)
    requires n <= |j|
  {
    && (forall i | 0 <= i < n && j[i].Completed? && j[i].task == DispatchTask :: j[i].ordinal in completed)
    && forall o | o in completed ::
         var (at, isError) := completed[o];
         && at < n && Records(j[at], DispatchTask, o)
         && isError == !(j[at].output.ReplyOut? && !j[at].output.reply.isError)
         && forall i | at < i < n :: !Records(j[i], DispatchTask, o)
  }

  lemma FirstEditStep(j: seq<Event>, n: nat, firstEdit: Option<nat>)
    requires n < |j| && FirstEditOk(j, n, firstEdit)
    ensures FirstEditOk(j, n + 1,
              if firstEdit.None? && SchedulesTool(j[n], "edit_file") then Some(j[n].ordinal) else firstEdit)
  {
    assert forall k | 0 <= k < n :: j[..n + 1][k] == j[..n][k] == j[k];
    assert j[..n + 1][n] == j[n];
    if firstEdit.Some? {
      var i :| 0 <= i < n && Schedules(j[..n][i], "edit_file", firstEdit.value)
               && forall k | 0 <= k < i :: !SchedulesTool(j[..n][k], "edit_file");
      assert Schedules(j[..n + 1][i], "edit_file", firstEdit.value);
    } else if SchedulesTool(j[n], "edit_file") {
      assert Schedules(j[..n + 1][n], "edit_file", j[n].ordinal);
    }
  }

  lemma FirstEditUnique(j: seq<Event>, a: nat, b: nat)
    requires FirstEdit(j, a) && FirstEdit(j, b)
    ensures a == b
  {
    var i :| 0 <= i < |j| && Schedules(j[i], "edit_file", a) && forall k | 0 <= k < i :: !SchedulesTool(j[k], "edit_file");
    var i' :| 0 <= i' < |j| && Schedules(j[i'], "edit_file", b) && forall k | 0 <= k < i' :: !SchedulesTool(j[k], "edit_file");
    assert SchedulesTool(j[i], "edit_file") && SchedulesTool(j[i'], "edit_file");
  }

  /** What the scan kept decides eligibility. */
  lemma EligibleIff(
    j: seq<Event>, schemas: seq<nat>, sources: map<nat, Option<string>>,
    firstEdit: Option<nat>, completed: map<nat, (nat, bool)>, o: nat)
    requires SourcesOk(j, |j|, schemas, sources) && FirstEditOk(j, |j|, firstEdit) && CompletedOk(j, |j|, completed)
    ensures Eligible(j, o) <==> o in schemas && (firstEdit.None? || o < firstEdit.value) && o in completed && !completed[o].1
    ensures Eligible(j, o) ==> SucceededAt(j, o, completed[o].0)
  {
    assert j[..|j|] == j;
    assert CallScheduled(j, "get_schema", o) <==> o in schemas by {
      if i :| 0 <= i < |j| && Schedules(j[i], "get_schema", o) { assert SchedulesTool(j[i], "get_schema"); }
    }
    assert BeforeEdits(j, o) <==> (firstEdit.None? || o < firstEdit.value) by {
      if firstEdit.Some? {
        forall first: nat | FirstEdit(j, first) ensures first == firstEdit.value { FirstEditUnique(j, first, firstEdit.value); }
      } else {
        forall first: nat ensures !FirstEdit(j, first) {
          forall i | 0 <= i < |j| ensures !Schedules(j[i], "edit_file", first) { assert !SchedulesTool(j[i], "edit_file"); }
        }
      }
    }
    if o in completed && !completed[o].1 { assert SucceededAt(j, o, completed[o].0); }
    if at: nat :| SucceededAt(j, o, at) { assert Records(j[at], DispatchTask, o) && Records(j[completed[o].0], DispatchTask, o); }
  }

  /** One pass over the events. */
  method Scan(j: seq<Event>)
    returns (schemas: seq<nat>, sources: map<nat, Option<string>>, firstEdit: Option<nat>, completed: map<nat, (nat, bool)>)
    ensures SourcesOk(j, |j|, schemas, sources) && FirstEditOk(j, |j|, firstEdit) && CompletedOk(j, |j|, completed)
  {
    schemas, sources, firstEdit, completed := [], map[], None, map[];
    for n := 0 to |j|
      invariant SourcesOk(j, n, schemas, sources)
      invariant FirstEditOk(j, n, firstEdit)
      invariant CompletedOk(j, n, completed)
    {
      FirstEditStep(j, n, firstEdit);
      match j[n] {
        case Scheduled(task, ordinal, call) =>
          if task == DispatchTask && call.Some? {
            if call.value.name == "get_schema" {
              assert Schedules(j[n], "get_schema", ordinal);
              schemas := schemas + [ordinal];
              sources := sources[ordinal := Arg(call.value, "source")];
            } else if call.value.name == "edit_file" && firstEdit.None? {
              firstEdit := Some(ordinal);
            }
          }
        case Completed(task, ordinal, output) =>
          if task == DispatchTask {
            completed := completed[ordinal := (n, !(output.ReplyOut? && !output.reply.isError))];
          }
        case _ =>
      }
    }
  }

  /** `locate_get_schema_fork_point`: one pass over the events, then the greatest eligible ordinal. */
  method Locate(j: seq<Event>) returns (fp: Option<ForkPoint>)
    ensures fp.Some? ==> Located(j, fp.value)
    ensures fp.None? ==> forall o: nat :: !Eligible(j, o)
  {
    var schemas, sources, firstEdit, completed := Scan(j);
    var best: Option<nat> := None;
    for k := 0 to |schemas|
      invariant best.Some? ==> Eligible(j, best.value)
      invariant forall i | 0 <= i < k :: Eligible(j, schemas[i]) ==> best.Some? && schemas[i] <= best.value
    {
      var o := schemas[k];
      EligibleIff(j, schemas, sources, firstEdit, completed, o);
      if (firstEdit.None? || o < firstEdit.value) && o in completed && !completed[o].1 {
        best := Some(if best.None? || best.value < o then o else best.value);
      }
    }
    forall o: nat ensures Eligible(j, o) ==> o in schemas {
      EligibleIff(j, schemas, sources, firstEdit, completed, o);
    }
    if best.None? { return None; }
    EligibleIff(j, schemas, sources, firstEdit, completed, best.value);
    fp := Some(ForkPoint(completed[best.value].0, best.value, sources[best.value]));
  }
}
