/** The working copy as the object every tool call shares. */
module WorkingCopy {
  import opened Basics
  import opened Text
  import opened UnifiedDiff
  import opened Diffing
  import DiffRoundTrip
  import DiffExactness

  class WorkingFiles {
    var order: seq<string>
    var files: map<string, FileState>

    function Model(): Copy
      reads this
    {
      Copy(order, files)
    }

    constructor ()
      ensures Model() == EMPTY
    {
      order, files := [], map[];
    }

    predicate Has(path: string)
      reads this
    {
      path in files
    }

    method Load(path: string, content: string)
      modifies this
      ensures Model() == Diffing.Load(old(Model()), path, content)
    {
      if path !in files {
        order := order + [path];
        files := files[path := FileState(content, content)];
      }
    }

    method SetCurrent(path: string, content: string)
      requires Has(path)
      modifies this`files
      ensures Model() == Diffing.SetCurrent(old(Model()), path, content)
    {
      files := files[path := files[path].(current := content)];
    }

    /** On failure nothing is changed. */
    method ApplyReplace(path: string, old_: string, new_: string) returns (edit: Edit)
      requires Has(path)
      modifies this`files
      ensures Has(path)
      ensures (edit, files[path].current) == Replaced(old(files[path].current), old_, new_)
      ensures Model() == Diffing.SetCurrent(old(Model()), path, files[path].current)
      ensures !edit.Applied? ==> files == old(files)
    {
      var cur := files[path].current;
      var count := Count(cur, old_);
      if count == 0 { return NotFound; }
      if count > 1 { return Ambiguous(count); }
      FoundWhenCounted(cur, old_);
      var i := Find(cur, old_, 0).value;
      files := files[path := files[path].(current := cur[..i] + new_ + cur[i + |old_|..])];
      edit := Applied;
    }
  }

  // --- the diff of a working copy round-trips ---

  function ChangeOf(d: Differ, p: string, st: FileState): DiffRoundTrip.Change {
    DiffRoundTrip.Change(p, SplitLines(st.original), SplitLines(st.current), ScriptFor(d, st))
  }

  function ChangesIn(d: Differ, order: seq<string>, files: map<string, FileState>): seq<DiffRoundTrip.Change>
    requires forall p | p in order :: p in files
  {
    if order == [] then []
    else
      var (p, st) := (order[0], files[order[0]]);
      (if Changed(st)
       then [ChangeOf(d, p, st)]
       else [])
      + ChangesIn(d, order[1..], files)
  }

  lemma {:induction false} ChangesRender(d: Differ, order: seq<string>, files: map<string, FileState>)
    requires forall p | p in order :: p in files
    ensures DiffRoundTrip.RenderChanges(ChangesIn(d, order, files)) == FullDiffOf(d, order, files)
  {
    if order != [] {
      ChangesRender(d, order[1..], files);
      var rest := ChangesIn(d, order[1..], files);
      var cs := ChangesIn(d, order, files);
      if Changed(files[order[0]]) {
        assert cs[1..] == rest;
      } else {
        assert cs == rest;
        assert "" + FullDiffOf(d, order[1..], files) == FullDiffOf(d, order[1..], files);
      }
    }
  }

  /** Every line of the text ends in a newline and holds no other one. */
  predicate NewlineTerminated(s: string) {
    DiffRoundTrip.NlText(SplitLines(s))
  }

  lemma {:induction false} ChangesAt(d: Differ, order: seq<string>, files: map<string, FileState>)
    requires forall p | p in order :: p in files
    ensures |ChangesIn(d, order, files)| == |ChangedIn(order, files)|
    ensures forall k | 0 <= k < |ChangedIn(order, files)| ::
              var p := ChangedIn(order, files)[k];
              p in order && Changed(files[p]) && ChangesIn(d, order, files)[k] == ChangeOf(d, p, files[p])
  {
    if order != [] {
      ChangesAt(d, order[1..], files);
      var (ps, cs) := (ChangedIn(order[1..], files), ChangesIn(d, order[1..], files));
      assert order == [order[0]] + order[1..];
      hide ChangeOf;
      if Changed(files[order[0]]) {
        assert ChangedIn(order, files) == [order[0]] + ps;
        assert ChangesIn(d, order, files) == [ChangeOf(d, order[0], files[order[0]])] + cs;
      } else {
        assert ChangedIn(order, files) == ps && ChangesIn(d, order, files) == cs;
      }
    }
  }

  /** Read by a patch tool, the file's patch makes the current text out of the original. */
  predicate Restored(st: FileState, hunks: seq<DiffRoundTrip.PatchHunk>) {
    var lines := DiffRoundTrip.Apply(DiffRoundTrip.NlLines(st.original), 0, 0, hunks);
    lines.Some? && Join(lines.value) == st.current
  }

  /** `full_diff()` parses into one patch per changed file, in order, and each restores its file. */
  ghost predicate GivesBack(d: Differ, c: Copy)
    requires DictOk(c)
  {
    var (files, paths) := (DiffRoundTrip.ParseFiles(FullDiff(d, c)), ChangedPaths(c));
    && files.Some? && |files.value| == |paths|
    && forall k | 0 <= k < |paths| ::
         paths[k] in c.files && files.value[k].path == paths[k] && Restored(c.files[paths[k]], files.value[k].hunks)
  }

  lemma RestoredIsGiven(d: Differ, p: string, st: FileState, hunks: seq<DiffRoundTrip.PatchHunk>)
    ensures Restored(st, hunks) <==> DiffExactness.Gives(ChangeOf(d, p, st), hunks)
  {
    JoinSplit(st.original);
    JoinSplit(st.current);
  }

  lemma GivesBackIsRecovered(d: Differ, c: Copy)
    requires DictOk(c)
    ensures GivesBack(d, c) <==> DiffExactness.Recovered(FullDiff(d, c), ChangesIn(d, c.order, c.files))
  {
    ChangesAt(d, c.order, c.files);
    var (files, paths, changes) := (DiffRoundTrip.ParseFiles(FullDiff(d, c)), ChangedPaths(c), ChangesIn(d, c.order, c.files));
    hide FullDiff, ChangesIn, ChangedIn, ChangedPaths, Restored, Changed, ChangeOf, DiffExactness.Gives, DiffRoundTrip.ParseFiles;
    forall k, hunks: seq<DiffRoundTrip.PatchHunk> | 0 <= k < |paths|
      ensures paths[k] in c.files && changes[k].path == paths[k]
      ensures Restored(c.files[paths[k]], hunks) <==> DiffExactness.Gives(changes[k], hunks)
    {
      ChangePath(d, paths[k], c.files[paths[k]]);
      RestoredIsGiven(d, paths[k], c.files[paths[k]], hunks);
    }
  }

  predicate PathsPrintable(c: Copy) {
    forall p | p in c.order :: '\n' !in p
  }

  /** Every changed file ends each line in a newline, before and after. */
  predicate ChangedTerminated(c: Copy)
    requires DictOk(c)
  {
    forall p | p in ChangedPaths(c) ::
      p in c.files && NewlineTerminated(c.files[p].original) && NewlineTerminated(c.files[p].current)
  }

  lemma ChangeFacts(d: Differ, p: string, st: FileState)
    requires Changed(st)
    ensures var c := ChangeOf(d, p, st);
            && c.before != c.after
            && (forall i | 0 <= i < |c.before| :: IsLine(c.before[i]))
            && (forall i | 0 <= i < |c.after| :: IsLine(c.after[i]))
            && (ValidDiffer(d) ==> Explains(c.script, c.before, c.after))
            && (DiffExactness.NewlineTerminated(c) <==> NewlineTerminated(st.original) && NewlineTerminated(st.current))
  {
    JoinSplit(st.original);
    JoinSplit(st.current);
    SplitLinesOk(st.original);
    SplitLinesOk(st.current);
  }

  /**
   Parsing `full_diff()` and applying each patch to its original gives exactly the current contents of
   every changed file, whatever edit scripts difflib chose, when those texts are newline-terminated.
   */
  lemma FullDiffRoundTrips(d: Differ, c: Copy)
    requires ValidDiffer(d) && DictOk(c) && PathsPrintable(c) && ChangedTerminated(c)
    ensures GivesBack(d, c)
  {
    var changes := ChangesIn(d, c.order, c.files);
    ChangesAt(d, c.order, c.files);
    ChangesRender(d, c.order, c.files);
    GivesBackIsRecovered(d, c);
    hide Explains, ValidDiffer, ChangeOf, ChangesIn, ChangedIn, GivesBack, DiffExactness.NewlineTerminated, NewlineTerminated;
    forall k | 0 <= k < |changes|
      ensures '\n' !in changes[k].path && Explains(changes[k].script, changes[k].before, changes[k].after)
              && DiffExactness.NewlineTerminated(changes[k])
    {
      var p := ChangedPaths(c)[k];
      ChangePath(d, p, c.files[p]);
      ChangeFacts(d, p, c.files[p]);
    }
    hide DiffExactness.Recovered, FullDiff, PathsPrintable, ChangedTerminated;
    DiffExactness.TerminatedIsRecovered(changes);
  }

  lemma ChangePath(d: Differ, p: string, st: FileState)
    ensures ChangeOf(d, p, st).path == p && ChangeOf(d, p, st).script == ScriptFor(d, st)
    ensures ChangeOf(d, p, st).before == SplitLines(st.original) && ChangeOf(d, p, st).after == SplitLines(st.current)
  {
  }

  lemma WholeNeedsTerminated(c: Copy)
    requires DictOk(c) && PathsPrintable(c) && GivesBack(DiffExactness.WholeFiles(), c)
    ensures ChangedTerminated(c)
  {
    var d := DiffExactness.WholeFiles();
    var changes := ChangesIn(d, c.order, c.files);
    ChangesAt(d, c.order, c.files);
    ChangesRender(d, c.order, c.files);
    GivesBackIsRecovered(d, c);
    hide ChangesIn, ChangedIn, GivesBack, ChangeOf, DiffExactness.NewlineTerminated, NewlineTerminated, DiffExactness.Whole;
    forall k | 0 <= k < |changes|
      ensures DiffExactness.Plausible(changes[k]) && changes[k].script == DiffExactness.Whole(changes[k].before, changes[k].after)
    {
      var p := ChangedPaths(c)[k];
      ChangePath(d, p, c.files[p]);
      ChangeFacts(d, p, c.files[p]);
    }
    DiffExactness.WholeRecoveredNeedsNewlines(changes);
    forall p | p in ChangedPaths(c)
      ensures p in c.files && NewlineTerminated(c.files[p].original) && NewlineTerminated(c.files[p].current)
    {
      var k :| 0 <= k < |ChangedPaths(c)| && ChangedPaths(c)[k] == p;
      assert DiffExactness.NewlineTerminated(changes[k]);
      ChangeFacts(d, p, c.files[p]);
    }
  }

  /**
   The exact condition, on the texts: the diff is sure to give back every changed file, whichever edit
   scripts difflib prints, exactly when every line of those files, before and after, ends in a newline
   and holds no other line boundary.
   */
  lemma SurelyGivenBackIff(c: Copy)
    requires DictOk(c) && PathsPrintable(c)
    ensures (forall d | ValidDiffer(d) :: GivesBack(d, c)) <==> ChangedTerminated(c)
  {
    hide GivesBack, ChangedTerminated, ValidDiffer, PathsPrintable, DictOk;
    if ChangedTerminated(c) {
      forall d | ValidDiffer(d) ensures GivesBack(d, c) { FullDiffRoundTrips(d, c); }
    } else if forall d | ValidDiffer(d) :: GivesBack(d, c) {
      DiffExactness.WholeFilesIsValid();
      WholeNeedsTerminated(c);
    }
  }

  const UNTERMINATED: Copy := Copy(["model.sql"], map["model.sql" := FileState("a\n", "b")])

  /** A concrete loss: a new text without its final newline is given back under no script at all. */
  lemma LastLineIsLost(d: Differ)
    requires ValidDiffer(d)
    ensures DictOk(UNTERMINATED) && !GivesBack(d, UNTERMINATED)
  {
    var (c, st) := (UNTERMINATED, FileState("a\n", "b"));
    OneLineEach();
    assert DictOk(c);
    var sc := ScriptFor(d, st);
    assert Explains(sc, ["a\n"], ["b"]);
    assert c.order[1..] == [];
    var changes := ChangesIn(d, c.order, c.files);
    assert changes == [DiffRoundTrip.Change("model.sql", ["a\n"], ["b"], sc)];
    ChangesRender(d, c.order, c.files);
    GivesBackIsRecovered(d, c);
    hide *;
    DiffExactness.LastLineIsLost(sc);
  }

  lemma OneLineEach()
    ensures SplitLines("a\n") == ["a\n"] && SplitLines("b") == ["b"]
  {
    assert "a\n"[1..] == "\n" && LineEnd("a\n") == 2 && LineEnd("b") == 1;
    assert "a\n"[..2] == "a\n" && "a\n"[2..] == "" && "b"[..1] == "b" && "b"[1..] == "";
  }
}
