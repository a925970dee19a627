/** What the guard's line count measures, in terms of the edit script. */
module DiffSize {
  import opened Basics
  import opened Text
  import opened UnifiedDiff
  import opened Diffing
  import opened DiffRoundTrip
  import DiffExactness

  /** The changed lines that are counted: not a removed `--…` line, not an added `++…` line. */
  predicate CountedOp(op: Op) {
    match op
    case Keep(_) => false
    case Del(l) => !StartsWith(l, "--")
    case Add(l) => !StartsWith(l, "++")
  }

  function CountedOps(ops: seq<Op>): nat {
    if ops == [] then 0 else (if CountedOp(ops[0]) then 1 else 0) + CountedOps(ops[1..])
  }

  function CountedHunks(hs: seq<Hunk>): nat {
    if hs == [] then 0 else CountedOps(hs[0].ops) + CountedHunks(hs[1..])
  }

  /** Removed plus added lines. */
  function ChangedOps(ops: seq<Op>): nat {
    if ops == [] then 0 else (if ops[0].Keep? then 0 else 1) + ChangedOps(ops[1..])
  }

  /** A line that ends in its only newline, and holds no other boundary. */
  predicate PlainLine(l: string) {
    IsLine(l) && NlLine(l)
  }

  lemma {:induction false} SplitFirst(l: string, rest: string)
    requires IsLine(l) && Terminated(l) && (rest == "" || rest[0] != '\n')
    ensures SplitLines(l + rest) == [l] + SplitLines(rest)
  {
    LineEndOf(l, rest);
    assert (l + rest)[..|l|] == l && (l + rest)[|l|..] == rest;
  }

  lemma CountFirst(l: string, rest: string)
    requires IsLine(l) && Terminated(l) && (rest == "" || rest[0] != '\n')
    ensures ChangedLines(l + rest) == (if Counts(l) then 1 else 0) + ChangedLines(rest)
  {
    SplitFirst(l, rest);
  }

  lemma TaggedLine(op: Op)
    requires PlainLine(op.line)
    ensures IsLine([Tag(op)] + op.line) && Terminated([Tag(op)] + op.line)
    ensures Counts([Tag(op)] + op.line) <==> CountedOp(op)
  {
    var t := [Tag(op)] + op.line;
    assert t[1..] == op.line;
    assert op.line[|op.line| - 1] == t[|t| - 1];
    if |t| >= 3 {
      assert t[..3] == [t[0], t[1], t[2]];
      assert op.line[..2] == [op.line[0], op.line[1]];
    }
    assert t[..1] == [t[0]];
  }

  predicate PlainOps(ops: seq<Op>) {
    forall i | 0 <= i < |ops| :: PlainLine(ops[i].line)
  }

  lemma {:induction false} OpsStart(ops: seq<Op>, rest: string)
    requires rest == "" || rest[0] != '\n'
    ensures RenderOps(ops) + rest == "" || (RenderOps(ops) + rest)[0] != '\n'
  {
    if ops != [] { RenderOpsStep(ops, rest); }
  }

  lemma {:induction false} CountedBody(ops: seq<Op>, rest: string)
    requires PlainOps(ops) && (rest == "" || rest[0] != '\n')
    ensures ChangedLines(RenderOps(ops) + rest) == CountedOps(ops) + ChangedLines(rest)
    decreases |ops|
  {
    if ops == [] {
      assert RenderOps(ops) + rest == rest;
    } else {
      var after := RenderOps(ops[1..]) + rest;
      RenderOpsStep(ops, rest);
      Assoc([Tag(ops[0])], ops[0].line, after);
      OpsStart(ops[1..], rest);
      TaggedLine(ops[0]);
      CountFirst([Tag(ops[0])] + ops[0].line, after);
      CountedBody(ops[1..], rest);
    }
  }

  lemma HeaderIsPlain(at: Header)
    ensures var h := RenderHeader(at.i, at.n, at.j, at.m);
            IsLine(h) && Terminated(h) && !Counts(h)
  {
    var (a, b) := (RenderRange(at.i, at.n), RenderRange(at.j, at.m));
    var u := "@@ -" + a + " +" + b + " @@";
    assert BoundaryFree(a) && BoundaryFree(b);
    assert BoundaryFree(u);
    assert RenderHeader(at.i, at.n, at.j, at.m) == u + "\n" + "";
    LineEndAt(u, "");
  }

  predicate PlainHunks(hs: seq<Hunk>) {
    forall k | 0 <= k < |hs| :: PlainOps(hs[k].ops)
  }

  lemma {:induction false} HunksStart(hs: seq<Hunk>, i: nat, j: nat)
    ensures RenderHunks(hs, i, j) == "" || RenderHunks(hs, i, j)[0] == '@'
  {
  }

  lemma {:induction false} CountedHunk(at: Header, ops: seq<Op>, rest: string)
    requires PlainOps(ops) && (rest == "" || rest[0] != '\n')
    ensures ChangedLines(RenderHeader(at.i, at.n, at.j, at.m) + (RenderOps(ops) + rest))
         == CountedOps(ops) + ChangedLines(rest)
  {
    HeaderIsPlain(at);
    OpsStart(ops, rest);
    CountedBody(ops, rest);
    hide RenderOps, RenderHeader, ChangedLines;
    CountFirst(RenderHeader(at.i, at.n, at.j, at.m), RenderOps(ops) + rest);
  }

  lemma {:induction false} CountedInHunks(hs: seq<Hunk>, i: nat, j: nat)
    requires PlainHunks(hs)
    ensures ChangedLines(RenderHunks(hs, i, j)) == CountedHunks(hs)
    decreases |hs|
  {
    if hs != [] {
      var h, at := hs[0], HeaderOf(hs[0], i, j);
      var (i', j') := (NextOld(h, i), NextNew(h, j));
      var rest := RenderHunks(hs[1..], i', j');
      RenderHunksStep(hs, i, j, "");
      HunksStart(hs[1..], i', j');
      CountedInHunks(hs[1..], i', j');
      CountedHunk(at, h.ops, rest);
      hide RenderHunks, RenderOps, RenderHeader, ChangedLines;
      assert rest + "" == rest && RenderHunks(hs, i, j) + "" == RenderHunks(hs, i, j);
    }
  }

  lemma HeadIsPlain(mark: string, path: string)
    requires BoundaryFree(path) && (mark == "--- a/" || mark == "+++ b/")
    ensures IsLine(mark + path + "\n") && Terminated(mark + path + "\n") && !Counts(mark + path + "\n")
  {
    LineEndAt(mark + path, "");
    assert mark + path + "\n" + "" == mark + path + "\n";
    assert (mark + path + "\n")[..3] == mark[..3];
  }

  predicate PlainText(s: string) {
    forall i | 0 <= i < |SplitLines(s)| :: PlainLine(SplitLines(s)[i])
  }

  lemma {:induction false} OpsArePlain(ops: seq<Op>)
    requires forall i | 0 <= i < |OldOf(ops)| :: PlainLine(OldOf(ops)[i])
    requires forall i | 0 <= i < |NewOf(ops)| :: PlainLine(NewOf(ops)[i])
    ensures PlainOps(ops)
    decreases |ops|
  {
    if ops != [] {
      var (o, n) := (if ops[0].Add? then [] else [ops[0].line], if ops[0].Del? then [] else [ops[0].line]);
      assert OldOf(ops) == o + OldOf(ops[1..]) && NewOf(ops) == n + NewOf(ops[1..]);
      forall i | 0 <= i < |OldOf(ops[1..])| ensures PlainLine(OldOf(ops[1..])[i]) {
        assert OldOf(ops)[|o| + i] == OldOf(ops[1..])[i];
      }
      forall i | 0 <= i < |NewOf(ops[1..])| ensures PlainLine(NewOf(ops[1..])[i]) {
        assert NewOf(ops)[|n| + i] == NewOf(ops[1..])[i];
      }
      assert PlainLine(ops[0].line) by {
        assert !ops[0].Add? ==> OldOf(ops)[0] == ops[0].line;
        assert !ops[0].Del? ==> NewOf(ops)[0] == ops[0].line;
      }
      OpsArePlain(ops[1..]);
      assert ops == [ops[0]] + ops[1..];
    }
  }

  predicate PlainLines(ls: seq<string>) {
    forall i | 0 <= i < |ls| :: PlainLine(ls[i])
  }

  lemma PlainParts(x: seq<string>, y: seq<string>)
    requires PlainLines(x + y)
    ensures PlainLines(x) && PlainLines(y)
  {
    forall i | 0 <= i < |x| ensures PlainLine(x[i]) { assert (x + y)[i] == x[i]; }
    forall i | 0 <= i < |y| ensures PlainLine(y[i]) { assert (x + y)[|x| + i] == y[i]; }
  }

  lemma {:induction false} HunksArePlain(hs: seq<Hunk>, tail: seq<string>)
    requires PlainLines(OldLines(hs, tail)) && PlainLines(NewLines(hs, tail))
    ensures PlainHunks(hs)
    decreases |hs|
  {
    if hs != [] {
      var h := hs[0];
      PlainParts(h.gap, OldOf(h.ops) + OldLines(hs[1..], tail));
      PlainParts(OldOf(h.ops), OldLines(hs[1..], tail));
      PlainParts(h.gap, NewOf(h.ops) + NewLines(hs[1..], tail));
      PlainParts(NewOf(h.ops), NewLines(hs[1..], tail));
      OpsArePlain(h.ops);
      HunksArePlain(hs[1..], tail);
    }
  }

  /**
   On newline-terminated texts the guard counts the script's removed and added lines, except
   removed lines that begin with `--` (deleted SQL comments) and added lines that begin with `++`.
   */
  lemma CountedLines(d: Differ, path: string, st: FileState)
    requires ValidDiffer(d) && Changed(st) && BoundaryFree(path)
    requires PlainText(st.original) && PlainText(st.current)
    ensures ChangedLines(FileDiff(d, path, st)) == CountedHunks(ScriptFor(d, st).hunks)
  {
    JoinSplit(st.original);
    JoinSplit(st.current);
    var sc := ScriptFor(d, st);
    var body := RenderHunks(sc.hunks, 0, 0);
    HunksArePlain(sc.hunks, sc.tail);
    HunksStart(sc.hunks, 0, 0);
    CountedInHunks(sc.hunks, 0, 0);
    hide ValidDiffer, ScriptFor, RenderHunks, PlainHunks, PlainText;
    CountedHead(path, body);
  }

  lemma CountedHead(path: string, body: string)
    requires BoundaryFree(path) && (body == "" || body[0] != '\n')
    ensures ChangedLines(RenderFileHead(path) + body) == ChangedLines(body)
  {
    var (a, b) := ("--- a/" + path + "\n", "+++ b/" + path + "\n");
    HeadIsPlain("--- a/", path);
    HeadIsPlain("+++ b/", path);
    assert RenderFileHead(path) + body == a + (b + body);
    hide ChangedLines, IsLine, Terminated;
    CountFirst(a, b + body);
    CountFirst(b, body);
  }

  // --- the shortfall ---

  function ChangedHunks(hs: seq<Hunk>): nat {
    if hs == [] then 0 else ChangedOps(hs[0].ops) + ChangedHunks(hs[1..])
  }

  /** Changed lines that are not counted: removed `--…` lines and added `++…` lines. */
  predicate SkippedOp(op: Op) {
    match op
    case Keep(_) => false
    case Del(l) => StartsWith(l, "--")
    case Add(l) => StartsWith(l, "++")
  }

  function SkippedOps(ops: seq<Op>): nat {
    if ops == [] then 0 else (if SkippedOp(ops[0]) then 1 else 0) + SkippedOps(ops[1..])
  }

  function SkippedHunks(hs: seq<Hunk>): nat {
    if hs == [] then 0 else SkippedOps(hs[0].ops) + SkippedHunks(hs[1..])
  }

  predicate NothingSkipped(hs: seq<Hunk>) {
    forall k, i | 0 <= k < |hs| && 0 <= i < |hs[k].ops| :: !SkippedOp(hs[k].ops[i])
  }

  lemma {:induction false} OpsAddUp(ops: seq<Op>)
    ensures CountedOps(ops) + SkippedOps(ops) == ChangedOps(ops)
    ensures SkippedOps(ops) == 0 <==> forall i | 0 <= i < |ops| :: !SkippedOp(ops[i])
    decreases |ops|
  {
    if ops != [] {
      OpsAddUp(ops[1..]);
      assert forall i | 0 < i < |ops| :: ops[i] == ops[1..][i - 1];
    }
  }

  lemma {:induction false} HunksAddUp(hs: seq<Hunk>)
    ensures CountedHunks(hs) + SkippedHunks(hs) == ChangedHunks(hs)
    ensures SkippedHunks(hs) == 0 <==> NothingSkipped(hs)
    decreases |hs|
  {
    if hs != [] {
      OpsAddUp(hs[0].ops);
      HunksAddUp(hs[1..]);
      assert forall k | 0 < k < |hs| :: hs[k] == hs[1..][k - 1];
    }
  }

  /**
   The guard's count falls short of the script's changed lines by the skipped ones: it is exact exactly
   when no removed line begins with `--` and no added line with `++`.
   */
  lemma CountIsExactIff(d: Differ, path: string, st: FileState)
    requires ValidDiffer(d) && Changed(st) && BoundaryFree(path)
    requires PlainText(st.original) && PlainText(st.current)
    ensures var hs := ScriptFor(d, st).hunks;
            && ChangedLines(FileDiff(d, path, st)) + SkippedHunks(hs) == ChangedHunks(hs)
            && (ChangedLines(FileDiff(d, path, st)) == ChangedHunks(hs) <==> NothingSkipped(hs))
  {
    CountedLines(d, path, st);
    HunksAddUp(ScriptFor(d, st).hunks);
  }

  /** No line of the original begins with `--`, and none of the new text with `++`. */
  predicate NoLookalikes(st: FileState) {
    && (forall l | l in SplitLines(st.original) :: !StartsWith(l, "--"))
    && forall l | l in SplitLines(st.current) :: !StartsWith(l, "++")
  }

  lemma {:induction false} OpLines(ops: seq<Op>, i: nat)
    requires i < |ops|
    ensures !ops[i].Add? ==> ops[i].line in OldOf(ops)
    ensures !ops[i].Del? ==> ops[i].line in NewOf(ops)
    decreases |ops|
  {
    if i > 0 { OpLines(ops[1..], i - 1); }
  }

  lemma {:induction false} HunkLines(hs: seq<Hunk>, tail: seq<string>, k: nat, i: nat)
    requires k < |hs| && i < |hs[k].ops|
    ensures !hs[k].ops[i].Add? ==> hs[k].ops[i].line in OldLines(hs, tail)
    ensures !hs[k].ops[i].Del? ==> hs[k].ops[i].line in NewLines(hs, tail)
    decreases |hs|
  {
    if k > 0 { HunkLines(hs[1..], tail, k - 1, i); } else { OpLines(hs[0].ops, i); }
  }

  /** Printed whole, a file's lines are all removed and all added. */
  lemma WholeSkipsNothing(before: seq<string>, after: seq<string>)
    requires NothingSkipped(DiffExactness.Whole(before, after).hunks)
    ensures (forall l | l in before :: !StartsWith(l, "--")) && forall l | l in after :: !StartsWith(l, "++")
  {
    var hs := DiffExactness.Whole(before, after).hunks;
    var ops := DiffExactness.Dels(before) + DiffExactness.Adds(after);
    assert hs[0].ops == ops;
    hide StartsWith;
    forall l | l in before ensures !StartsWith(l, "--") {
      var i :| 0 <= i < |before| && before[i] == l;
      assert !SkippedOp(hs[0].ops[i]) && ops[i] == Del(l);
    }
    forall l | l in after ensures !StartsWith(l, "++") {
      var i :| 0 <= i < |after| && after[i] == l;
      assert !SkippedOp(hs[0].ops[|before| + i]) && ops[|before| + i] == Add(l);
    }
  }

  lemma NoLookalikesNothingSkipped(d: Differ, st: FileState)
    requires ValidDiffer(d) && Changed(st) && NoLookalikes(st)
    ensures NothingSkipped(ScriptFor(d, st).hunks)
  {
    JoinSplit(st.original);
    JoinSplit(st.current);
    var sc := ScriptFor(d, st);
    assert Explains(sc, SplitLines(st.original), SplitLines(st.current));
    hide ValidDiffer, ScriptFor, StartsWith;
    forall k, i | 0 <= k < |sc.hunks| && 0 <= i < |sc.hunks[k].ops| ensures !SkippedOp(sc.hunks[k].ops[i]) {
      HunkLines(sc.hunks, sc.tail, k, i);
    }
  }

  /**
   On the texts: the guard is sure to count every changed line, whichever script difflib prints, exactly
   when no line of the original begins with `--` and no line of the new text with `++`.
   */
  lemma SurelyCountedIff(path: string, st: FileState)
    requires Changed(st) && BoundaryFree(path) && PlainText(st.original) && PlainText(st.current)
    ensures (forall d | ValidDiffer(d) :: ChangedLines(FileDiff(d, path, st)) == ChangedHunks(ScriptFor(d, st).hunks))
       <==> NoLookalikes(st)
  {
    hide ValidDiffer, PlainText, NoLookalikes, NothingSkipped, FileDiff, BoundaryFree, ChangedLines, Changed;
    forall d | ValidDiffer(d)
      ensures ChangedLines(FileDiff(d, path, st)) == ChangedHunks(ScriptFor(d, st).hunks) <==> NothingSkipped(ScriptFor(d, st).hunks)
      ensures NoLookalikes(st) ==> NothingSkipped(ScriptFor(d, st).hunks)
    {
      CountIsExactIff(d, path, st);
      if NoLookalikes(st) { NoLookalikesNothingSkipped(d, st); }
    }
    DiffExactness.WholeFilesIsValid();
    if NothingSkipped(ScriptFor(DiffExactness.WholeFiles(), st).hunks) { WholeMeansNoLookalikes(st); }
  }

  lemma WholeMeansNoLookalikes(st: FileState)
    requires NothingSkipped(ScriptFor(DiffExactness.WholeFiles(), st).hunks)
    ensures NoLookalikes(st)
  {
    WholeSkipsNothing(SplitLines(st.original), SplitLines(st.current));
  }

  // --- deleted comments ---

  const COMMENT := "--x\n"

  function Comments(n: nat): (ls: seq<string>)
    ensures |ls| == n && forall i | 0 <= i < n :: ls[i] == COMMENT
  {
    seq(n, _ => COMMENT)
  }

  lemma {:induction false} CommentLine(rest: string)
    requires rest == "" || rest[0] != '\n'
    ensures SplitLines(COMMENT + rest) == [COMMENT] + SplitLines(rest)
    ensures PlainLine(COMMENT) && StartsWith(COMMENT, "--")
  {
    assert COMMENT[1..] == "-x\n" && COMMENT[1..][1..] == "x\n" && COMMENT[1..][1..][1..] == "\n";
    assert COMMENT[..2] == "--" && COMMENT[..3] == "--x";
    SplitFirst(COMMENT, rest);
  }

  lemma {:induction false} CommentsSplit(n: nat)
    ensures SplitLines(Join(Comments(n))) == Comments(n)
    ensures Join(Comments(n)) == "" || Join(Comments(n))[0] == '-'
  {
    if n > 0 {
      CommentsSplit(n - 1);
      assert Comments(n)[1..] == Comments(n - 1);
      CommentLine(Join(Comments(n - 1)));
      assert Comments(n) == [COMMENT] + Comments(n - 1);
    }
  }

  lemma {:induction false} OnlyDeletes(ops: seq<Op>)
    requires NewOf(ops) == []
    ensures ChangedOps(ops) == |OldOf(ops)|
    ensures (forall i | 0 <= i < |OldOf(ops)| :: StartsWith(OldOf(ops)[i], "--")) ==> CountedOps(ops) == 0
    decreases |ops|
  {
    if ops != [] {
      assert ops[0].Del?;
      assert NewOf(ops) == [] + NewOf(ops[1..]);
      OnlyDeletes(ops[1..]);
      assert OldOf(ops) == [ops[0].line] + OldOf(ops[1..]);
      assert forall i | 0 <= i < |OldOf(ops[1..])| :: OldOf(ops[1..])[i] == OldOf(ops)[i + 1];
      assert OldOf(ops)[0] == ops[0].line;
    }
  }

  /** A script that leaves nothing removes every line. */
  lemma {:induction false} EverythingDeleted(hs: seq<Hunk>, tail: seq<string>)
    requires NewLines(hs, tail) == []
    ensures ChangedHunks(hs) == |OldLines(hs, tail)|
    ensures (forall i | 0 <= i < |OldLines(hs, tail)| :: StartsWith(OldLines(hs, tail)[i], "--")) ==> CountedHunks(hs) == 0
    decreases |hs|
  {
    if hs != [] {
      var (ops, more) := (hs[0].ops, OldLines(hs[1..], tail));
      assert |hs[0].gap| + |NewOf(ops)| + |NewLines(hs[1..], tail)| == 0;
      assert OldLines(hs, tail) == OldOf(ops) + more;
      hide StartsWith;
      OnlyDeletes(ops);
      EverythingDeleted(hs[1..], tail);
      assert forall i | 0 <= i < |OldOf(ops)| :: OldOf(ops)[i] == OldLines(hs, tail)[i];
      assert forall i | 0 <= i < |more| :: more[i] == OldLines(hs, tail)[|OldOf(ops)| + i];
    }
  }

  /** However many SQL comments an edit deletes, the guard counts none of them. */
  lemma DeletedCommentsAreFree(d: Differ, path: string, n: nat)
    requires ValidDiffer(d) && BoundaryFree(path) && n > 0
    ensures var st := FileState(Join(Comments(n)), "");
            && Changed(st) && ChangedLines(FileDiff(d, path, st)) == 0
            && ChangedHunks(ScriptFor(d, st).hunks) == n
  {
    var st := FileState(Join(Comments(n)), "");
    CommentsSplit(n);
    CommentLine("");
    assert COMMENT + "" == COMMENT;
    assert SplitLines(st.original) == Comments(n) && SplitLines("") == [];
    JoinSplit(st.original);
    assert Comments(n) != [] && st.original != "";
    var sc := ScriptFor(d, st);
    assert PlainText(st.original) && PlainText(st.current);
    assert Explains(sc, Comments(n), []);
    EverythingDeleted(sc.hunks, sc.tail);
    hide ValidDiffer, FileDiff, ScriptFor, ChangedLines;
    CountedLines(d, path, st);
  }
}
