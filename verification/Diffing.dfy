/** The in-memory working copy: original and current contents per file, edits, and its diff. */
module Diffing {
  import opened Basics
  import opened Text
  import opened UnifiedDiff

  datatype FileState = FileState(original: string, current: string)

  /** A dictionary in insertion order. */
  datatype Copy = Copy(order: seq<string>, files: map<string, FileState>)

  const EMPTY: Copy := Copy([], map[])

  /** difflib, as the function that picks an edit script for two lists of lines. */
  type Differ = (seq<string>, seq<string>) -> Script

  /** Whatever it picks between different texts is an edit script between them. */
  ghost predicate ValidDiffer(d: Differ) {
    forall before, after :: before != after ==> Explains(d(before, after), before, after)
  }

  predicate Changed(st: FileState) {
    st.original != st.current
  }

  function ScriptFor(d: Differ, st: FileState): Script {
    d(SplitLines(st.original), SplitLines(st.current))
  }

  function FileDiff(d: Differ, path: string, st: FileState): string {
    if Changed(st) then RenderFile(path, ScriptFor(d, st).hunks) else ""
  }

  /** Paths are distinct and name no line boundary. */
  predicate PathsOk(order: seq<string>) {
    && (forall i | 0 <= i < |order| :: BoundaryFree(order[i]))
    && forall i, k | 0 <= i < k < |order| :: order[i] != order[k]
  }

  predicate FilesOk(order: seq<string>, files: map<string, FileState>) {
    PathsOk(order) && forall p | p in order :: p in files
  }

  function FullDiffOf(d: Differ, order: seq<string>, files: map<string, FileState>): string
    requires forall p | p in order :: p in files
  {
    if order == [] then "" else FileDiff(d, order[0], files[order[0]]) + FullDiffOf(d, order[1..], files)
  }

  // --- the dictionary of files ---

  /** The keys of the dictionary are exactly the listed paths, each once. */
  predicate DictOk(c: Copy) {
    && (forall i, k | 0 <= i < k < |c.order| :: c.order[i] != c.order[k])
    && (forall p | p in c.order :: p in c.files)
    && forall p | p in c.files :: p in c.order
  }

  /** The first load of a path wins. */
  function Load(c: Copy, path: string, content: string): Copy {
    if path in c.files then c
    else Copy(c.order + [path], c.files[path := FileState(content, content)])
  }

  function SetCurrent(c: Copy, path: string, content: string): Copy
    requires path in c.files
  {
    c.(files := c.files[path := c.files[path].(current := content)])
  }

  function ChangedIn(order: seq<string>, files: map<string, FileState>): seq<string>
    requires forall p | p in order :: p in files
  {
    if order == [] then []
    else (if Changed(files[order[0]]) then [order[0]] else []) + ChangedIn(order[1..], files)
  }

  function ChangedPaths(c: Copy): seq<string>
    requires DictOk(c)
  {
    ChangedIn(c.order, c.files)
  }

  function FullDiff(d: Differ, c: Copy): string
    requires DictOk(c)
  {
    FullDiffOf(d, c.order, c.files)
  }

  /** What a sandbox materializes over the checkout: the changed files with their current contents. */
  function Contents(c: Copy): map<string, string> {
    map p | p in c.files && Changed(c.files[p]) :: c.files[p].current
  }

  lemma {:induction false} ChangedInMembers(order: seq<string>, files: map<string, FileState>)
    requires forall p | p in order :: p in files
    ensures forall p :: p in ChangedIn(order, files) <==> p in order && Changed(files[p])
    ensures |ChangedIn(order, files)| <= |order|
  {
    if order != [] {
      ChangedInMembers(order[1..], files);
      assert order == [order[0]] + order[1..];
    }
  }

  /** The diff is empty exactly when no file is changed. */
  lemma {:induction false} EmptyDiffIffUnchanged(d: Differ, order: seq<string>, files: map<string, FileState>)
    requires forall p | p in order :: p in files
    ensures FullDiffOf(d, order, files) == "" <==> forall p | p in order :: !Changed(files[p])
  {
    if order != [] {
      EmptyDiffIffUnchanged(d, order[1..], files);
      assert order == [order[0]] + order[1..];
    }
  }

  // --- single-occurrence replacement ---

  predicate OccursAt(s: string, pat: string, i: nat) {
    i + |pat| <= |s| && s[i..i + |pat|] == pat
  }

  /** The first occurrence at or after `from`. */
  function Find(s: string, pat: string, from: nat): (r: Option<nat>)
    ensures r.Some? ==> from <= r.value && OccursAt(s, pat, r.value)
    ensures r.Some? ==> forall k | from <= k < r.value :: !OccursAt(s, pat, k)
    ensures r.None? ==> forall k: nat | from <= k :: !OccursAt(s, pat, k)
    decreases |s| - from
  {
    if from + |pat| > |s| then None
    else if OccursAt(s, pat, from) then Some(from)
    else Find(s, pat, from + 1)
  }

  /** Non-overlapping matches, scanned from the left. */
  function CountFrom(s: string, pat: string, from: nat): nat
    requires pat != ""
    decreases |s| - from
  {
    match Find(s, pat, from)
    case None => 0
    case Some(i) => 1 + CountFrom(s, pat, i + |pat|)
  }

  /** `s.count(pat)` */
  function Count(s: string, pat: string): nat {
    if pat == "" then |s| + 1 else CountFrom(s, pat, 0)
  }

  datatype Edit = Applied | NotFound | Ambiguous(matches: nat)

  /** The outcome of `apply_replace` on one file's text, and the text it leaves. */
  function Replaced(cur: string, old_: string, new_: string): (r: (Edit, string))
    ensures !r.0.Applied? ==> r.1 == cur
    ensures r.0.Applied? <==> Count(cur, old_) == 1
    ensures r.0.NotFound? <==> Count(cur, old_) == 0
    ensures forall n :: r.0 == Ambiguous(n) <==> n == Count(cur, old_) && n > 1
  {
    var n := Count(cur, old_);
    if n == 0 then (NotFound, cur)
    else if n > 1 then (Ambiguous(n), cur)
    else
      FoundWhenCounted(cur, old_);
      var i := Find(cur, old_, 0).value;
      (Applied, cur[..i] + new_ + cur[i + |old_|..])
  }

  lemma {:induction false} FoundWhenCounted(s: string, pat: string)
    ensures Count(s, pat) > 0 <==> Find(s, pat, 0).Some?
  {
    if pat == "" { assert OccursAt(s, pat, 0); }
  }

  /** `pat` occurs in `s` at one place only. */
  ghost predicate OccursOnce(s: string, pat: string) {
    exists i: nat :: OccursAt(s, pat, i) && forall k: nat | OccursAt(s, pat, k) :: k == i
  }

  /** Occurrences from `from` on, in order and without overlap. */
  predicate Apart(s: string, pat: string, from: nat, at: seq<nat>) {
    && (forall i | 0 <= i < |at| :: from <= at[i] && OccursAt(s, pat, at[i]))
    && forall i | 0 < i < |at| :: at[i - 1] + |pat| <= at[i]
  }

  lemma {:induction false} LaterIsApart(s: string, pat: string, from: nat, at: seq<nat>, k: nat)
    requires Apart(s, pat, from, at) && 0 < k < |at|
    ensures at[0] + |pat| <= at[k]
  {
    if k > 1 { LaterIsApart(s, pat, from, at, k - 1); }
  }

  lemma {:induction false} NoMoreApart(s: string, pat: string, from: nat, at: seq<nat>)
    requires pat != "" && Apart(s, pat, from, at)
    ensures |at| <= CountFrom(s, pat, from)
    decreases |at|
  {
    if at != [] {
      assert OccursAt(s, pat, at[0]);
      var i := Find(s, pat, from).value;
      forall k | 0 <= k < |at[1..]| ensures i + |pat| <= at[1..][k] { LaterIsApart(s, pat, from, at, k + 1); }
      NoMoreApart(s, pat, i + |pat|, at[1..]);
    }
  }

  lemma {:induction false} AsManyApart(s: string, pat: string, from: nat) returns (at: seq<nat>)
    requires pat != ""
    ensures Apart(s, pat, from, at) && |at| == CountFrom(s, pat, from)
    decreases |s| - from
  {
    match Find(s, pat, from)
    case None => at := [];
    case Some(i) =>
      var rest := AsManyApart(s, pat, i + |pat|);
      at := [i] + rest;
  }

  /** The count is the greatest number of occurrences that do not overlap, and one more than the length for the empty string. */
  lemma CountIsGreatest(s: string, pat: string)
    ensures pat == "" ==> Count(s, pat) == |s| + 1
    ensures pat != "" ==> (forall at :: Apart(s, pat, 0, at) ==> |at| <= Count(s, pat))
    ensures pat != "" ==> exists at :: Apart(s, pat, 0, at) && |at| == Count(s, pat)
  {
    if pat != "" {
      forall at | Apart(s, pat, 0, at) ensures |at| <= Count(s, pat) { NoMoreApart(s, pat, 0, at); }
      var at := AsManyApart(s, pat, 0);
    }
  }

  /** The accepted edits: a first occurrence that no later one follows without overlapping it. */
  lemma AcceptedIffOnceWithoutOverlap(s: string, pat: string)
    requires pat != ""
    ensures Count(s, pat) == 1
       <==> exists i: nat :: OccursAt(s, pat, i) && forall k: nat | OccursAt(s, pat, k) :: i <= k < i + |pat|
  {
    FoundWhenCounted(s, pat);
    var first := Find(s, pat, 0);
    if first.Some? {
      var i := first.value;
      assert Count(s, pat) == 1 + CountFrom(s, pat, i + |pat|);
      var again := Find(s, pat, i + |pat|);
      if again.None? {
        assert forall k: nat | OccursAt(s, pat, k) :: i <= k < i + |pat|;
      } else {
        assert OccursAt(s, pat, i) && OccursAt(s, pat, again.value);
      }
    }
  }

  /** A proper prefix of `pat` of length `b` is also its suffix. */
  predicate Border(pat: string, b: nat) {
    0 < b < |pat| && pat[..b] == pat[|pat| - b..]
  }

  /** Two overlapping occurrences make a border. */
  lemma OverlapIsBorder(s: string, pat: string, i: nat, k: nat)
    requires OccursAt(s, pat, i) && OccursAt(s, pat, k) && i < k < i + |pat|
    ensures Border(pat, |pat| - (k - i))
  {
    var b := |pat| - (k - i);
    forall x | 0 <= x < b ensures pat[x] == pat[|pat| - b + x] {
      assert s[k..k + |pat|][x] == s[k + x] == s[i..i + |pat|][k - i + x];
    }
    assert pat[..b] == pat[|pat| - b..];
  }

  /** A bordered string can overlap itself and still be counted once. */
  lemma BorderOverlaps(pat: string, b: nat)
    requires Border(pat, b)
    ensures var s := pat + pat[b..];
            Count(s, pat) == 1 && !OccursOnce(s, pat)
  {
    var s := pat + pat[b..];
    assert s[0..|pat|] == pat;
    assert pat[..b] + pat[b..] == pat;
    assert s[|pat| - b..|pat| - b + |pat|] == pat[|pat| - b..] + pat[b..];
    assert OccursAt(s, pat, 0) && OccursAt(s, pat, |pat| - b);
    assert Find(s, pat, 0) == Some(0);
    assert CountFrom(s, pat, 0) == 1 + CountFrom(s, pat, 0 + |pat|);
    assert Find(s, pat, |pat|) == None;
  }

  lemma UnborderedIsOnce(s: string, pat: string)
    requires pat != "" && Count(s, pat) == 1 && forall b: nat :: !Border(pat, b)
    ensures OccursOnce(s, pat)
  {
    AcceptedIffOnceWithoutOverlap(s, pat);
    var i: nat :| OccursAt(s, pat, i) && forall k: nat | OccursAt(s, pat, k) :: i <= k < i + |pat|;
    hide Count, CountFrom, Find;
    forall k: nat | OccursAt(s, pat, k) ensures k == i {
      if i < k { OverlapIsBorder(s, pat, i, k); assert false; }
    }
  }

  /**
   The tool asks for an `old_string` that matches exactly once. Counting matches without overlap
   enforces that for every text exactly when the string has no border.
   */
  lemma UnambiguousIffUnbordered(pat: string)
    requires pat != ""
    ensures (forall s :: Count(s, pat) == 1 ==> OccursOnce(s, pat)) <==> (forall b: nat :: !Border(pat, b))
  {
    hide Count, OccursOnce;
    if b: nat :| Border(pat, b) {
      BorderOverlaps(pat, b);
    } else {
      forall s | Count(s, pat) == 1 ensures OccursOnce(s, pat) { UnborderedIsOnce(s, pat); }
    }
  }

  /** The replacement happens at the first occurrence and nowhere else. */
  lemma ReplacedText(cur: string, old_: string, new_: string)
    requires Count(cur, old_) == 1
    ensures exists i: nat ::
              && OccursAt(cur, old_, i) && (forall k: nat | k < i :: !OccursAt(cur, old_, k))
              && Replaced(cur, old_, new_).1 == cur[..i] + new_ + cur[i + |old_|..]
  {
    FoundWhenCounted(cur, old_);
  }

  // --- counting changed lines ---

  /** A line of the diff that the counter counts. */
  predicate Counts(line: string) {
    !StartsWith(line, "+++") && !StartsWith(line, "---") && (StartsWith(line, "+") || StartsWith(line, "-"))
  }

  function CountedIn(ls: seq<string>): nat {
    if ls == [] then 0 else (if Counts(ls[0]) then 1 else 0) + CountedIn(ls[1..])
  }

  /** `changed_line_count` */
  function ChangedLines(diff: string): nat {
    CountedIn(SplitLines(diff))
  }

  lemma {:induction false} CountedInSnoc(ls: seq<string>, l: string)
    ensures CountedIn(ls + [l]) == CountedIn(ls) + if Counts(l) then 1 else 0
  {
    if ls == [] {
      assert [] + [l] == [l];
    } else {
      CountedInSnoc(ls[1..], l);
      assert (ls + [l])[1..] == ls[1..] + [l];
    }
  }

  method ChangedLineCount(diff: string) returns (n: nat)
    ensures n == ChangedLines(diff)
  {
    var lines := SplitLines(diff);
    n := 0;
    for i := 0 to |lines|
      invariant n == CountedIn(lines[..i])
    {
      assert lines[..i + 1] == lines[..i] + [lines[i]];
      CountedInSnoc(lines[..i], lines[i]);
      if StartsWith(lines[i], "+++") || StartsWith(lines[i], "---") { continue; }
      if StartsWith(lines[i], "+") || StartsWith(lines[i], "-") { n := n + 1; }
    }
    assert lines[..|lines|] == lines;
  }
}
