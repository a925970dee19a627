/** What every sequence of tool calls keeps of the working copy and of the sandbox cache. */
module EditSafety {
  import opened Basics
  import opened Text
  import opened UnifiedDiff
  import opened Diffing
  import opened AgentTools
  import DiffIdentity
  import DiffSize

  /** The copy grows only at its end, originals stay, and a changed file stays changed. */
  ghost predicate Evolves(c: Dict, c': Dict) {
    && |c.order| <= |c'.order| && c'.order[..|c.order|] == c.order
    && forall p | p in c.files ::
         && p in c'.files && c'.files[p].original == c.files[p].original
         && (Changed(c.files[p]) ==> Changed(c'.files[p]))
  }

  lemma EvolvesTransitive(a: Dict, b: Dict, c: Dict)
    requires Evolves(a, b) && Evolves(b, c)
    ensures Evolves(a, c)
  {
    assert c.order[..|a.order|] == b.order[..|a.order|];
  }

  /** Every file is as it was read, or its edit passes the guard. */
  ghost predicate EditsOk(env: Env, c: Dict) {
    forall p | p in c.files :: !Changed(c.files[p]) || Guard(env, p, c.files[p]).None?
  }

  /** A cached run came from a sandbox run on an earlier state of this copy, whose diff is the cached one. */
  ghost predicate CachedBy(env: Env, ctx: Ctx, i: nat) {
    && i < |ctx.checks| && ctx.checks[i].outcome == ctx.lastRun
    && FullDiff(env.differ, ctx.checks[i].copy) == ctx.lastDiff
    && Evolves(ctx.checks[i].copy, ctx.copy)
  }

  /** The last sandbox run so far that answered. */
  function LastAnswered(checks: seq<Check>): (i: Option<nat>)
    ensures i.Some? ==> i.value < |checks| && checks[i.value].outcome.Some?
  {
    if checks == [] then None
    else if checks[|checks| - 1].outcome.Some? then Some(|checks| - 1)
    else LastAnswered(checks[..|checks| - 1])
  }

  /** The cache holds the last run that answered, and nothing before there is one. */
  ghost predicate CacheOk(env: Env, ctx: Ctx) {
    match LastAnswered(ctx.checks)
    case None => ctx.lastRun.None?
    case Some(i) => CachedBy(env, ctx, i)
  }

  /** File names the checkout can hold: no line boundary in them. */
  ghost predicate PlainPaths(env: Env) {
    forall p :: env.source(p).Found? ==> BoundaryFree(p)
  }

  ghost predicate Sound(env: Env, ctx: Ctx) {
    && EditsOk(env, ctx.copy) && CacheOk(env, ctx)
    && forall p | p in ctx.copy.files :: env.source(p).Found?
  }

  /** Checks are only ever added. */
  ghost predicate Follows(ctx: Ctx, ctx': Ctx) {
    && Evolves(ctx.copy, ctx'.copy)
    && |ctx.checks| <= |ctx'.checks| && ctx'.checks[..|ctx.checks|] == ctx.checks
  }

  lemma FollowsTransitive(a: Ctx, b: Ctx, c: Ctx)
    requires Follows(a, b) && Follows(b, c)
    ensures Follows(a, c)
  {
    EvolvesTransitive(a.copy, b.copy, c.copy);
    assert c.checks[..|a.checks|] == b.checks[..|a.checks|];
  }

  // --- one call ---

  lemma LoadEvolves(env: Env, c: Dict, path: string, s: string)
    requires env.source(path) == Found(s)
    ensures Evolves(c, Loaded(c, path, s))
    ensures EditsOk(env, c) ==> EditsOk(env, Loaded(c, path, s))
    ensures forall p | p in Loaded(c, path, s).files :: p in c.files || (p == path && !Changed(Loaded(c, path, s).files[p]))
  {
  }

  /** A file the guard passes differs from its original in more than white space. */
  lemma PassedIsChanged(env: Env, path: string, st: FileState)
    requires Guard(env, path, st).None?
    ensures Changed(st)
    ensures env.allowed == {} || path in env.allowed
    ensures ChangedLines(FileDiff(env.differ, path, st)) <= env.maxLines
    ensures !SameInk(st.original, st.current)
  {
    SameInkIff(st.original, st.current);
  }

  /** An edit either is refused and leaves the copy as it was, or replaces one text that the guard passes. */
  lemma EditIsAtomic(env: Env, ctx: Ctx, path: string, old_: string, new_: string)
    requires path in ctx.copy.files
    ensures var (ctx', reply) := Edited(env, ctx, path, old_, new_);
            var cur := ctx.copy.files[path].current;
            && (reply.isError ==> ctx' == ctx)
            && (!reply.isError ==>
                  && Count(cur, old_) == 1 && path in ctx'.copy.files
                  && ctx' == ctx.(copy := WithCurrent(ctx.copy, path, Replaced(cur, old_, new_).1))
                  && Guard(env, path, ctx'.copy.files[path]).None? && Changed(ctx'.copy.files[path]))
            && (reply.isError <==>
                  || Count(cur, old_) != 1
                  || Guard(env, path, FileState(ctx.copy.files[path].original, Replaced(cur, old_, new_).1)).Some?)
  {
    hide Count, CountFrom, ChangedLines, WithoutSpace, FileDiff;
    var r := Edited(env, ctx, path, old_, new_);
    if !r.1.isError { PassedIsChanged(env, path, r.0.copy.files[path]); }
  }

  lemma EditEvolves(env: Env, ctx: Ctx, path: string, old_: string, new_: string)
    requires path in ctx.copy.files && EditsOk(env, ctx.copy)
    ensures var ctx' := Edited(env, ctx, path, old_, new_).0;
            && Evolves(ctx.copy, ctx'.copy) && EditsOk(env, ctx'.copy)
            && ctx'.copy.files.Keys == ctx.copy.files.Keys
            && ctx' == ctx.(copy := ctx'.copy)
  {
    hide Edited, Guard, Replaced, Count, WithCurrent, EditsOk, Changed;
    EditIsAtomic(env, ctx, path, old_, new_);
    var ctx' := Edited(env, ctx, path, old_, new_).0;
    if ctx' == ctx {
      WithSameCopy(ctx.copy);
    } else {
      OneFileEvolves(env, ctx.copy, path, Replaced(ctx.copy.files[path].current, old_, new_).1);
    }
  }

  lemma WithSameCopy(c: Dict)
    ensures Evolves(c, c)
  {
  }

  lemma OneFileEvolves(env: Env, c: Dict, path: string, text: string)
    requires path in c.files && EditsOk(env, c)
    requires var st := WithCurrent(c, path, text).files[path]; Changed(st) && Guard(env, path, st).None?
    ensures var c' := WithCurrent(c, path, text);
            Evolves(c, c') && EditsOk(env, c') && c'.files.Keys == c.files.Keys
  {
    hide Guard, Changed;
  }

  /** Growing the copy keeps what the cache says. */
  lemma CacheKept(env: Env, ctx: Ctx, copy: Dict)
    requires CacheOk(env, ctx) && Evolves(ctx.copy, copy)
    ensures CacheOk(env, ctx.(copy := copy))
  {
    if LastAnswered(ctx.checks).Some? {
      var i := LastAnswered(ctx.checks).value;
      EvolvesTransitive(ctx.checks[i].copy, ctx.copy, copy);
    }
  }

  lemma VerifyKeeps(env: Env, ctx: Ctx, select: string)
    requires env.sandbox.Some? && CacheOk(env, ctx)
    ensures var ctx' := VerifyCurrent(env, ctx, select).0;
            Follows(ctx, ctx') && ctx'.copy == ctx.copy && CacheOk(env, ctx')
  {
    var ctx' := VerifyCurrent(env, ctx, select).0;
    assert ctx'.checks[..|ctx'.checks| - 1] == ctx.checks;
    if VerifyCurrent(env, ctx, select).1.Some? {
      assert LastAnswered(ctx'.checks) == Some(|ctx.checks|);
      assert CachedBy(env, ctx', |ctx.checks|);
    } else {
      assert LastAnswered(ctx'.checks) == LastAnswered(ctx.checks);
    }
  }

  /** Reading and editing touch nothing but the working copy. */
  lemma CopyOnly(env: Env, ctx: Ctx, copy: Dict)
    requires Sound(env, ctx) && Evolves(ctx.copy, copy) && EditsOk(env, copy)
    requires forall p | p in copy.files :: env.source(p).Found?
    ensures Sound(env, ctx.(copy := copy)) && Follows(ctx, ctx.(copy := copy))
  {
    CacheKept(env, ctx, copy);
  }

  lemma ReadKeeps(env: Env, ctx: Ctx, path: string)
    requires Sound(env, ctx)
    ensures Sound(env, ReadFile(env, ctx, path).0) && Follows(ctx, ReadFile(env, ctx, path).0)
  {
    if env.source(path).Found? {
      LoadEvolves(env, ctx.copy, path, env.source(path).content);
      CopyOnly(env, ctx, ReadFile(env, ctx, path).0.copy);
    }
  }

  lemma EditedKeeps(env: Env, ctx: Ctx, path: string, old_: string, new_: string)
    requires Sound(env, ctx) && path in ctx.copy.files
    ensures var ctx' := Edited(env, ctx, path, old_, new_).0; Sound(env, ctx') && Follows(ctx, ctx')
  {
    EditEvolves(env, ctx, path, old_, new_);
    hide Edited;
    CopyOnly(env, ctx, Edited(env, ctx, path, old_, new_).0.copy);
  }

  lemma EditKeeps(env: Env, ctx: Ctx, path: string, old_: string, new_: string)
    requires Sound(env, ctx)
    ensures var ctx' := EditFile(env, ctx, path, old_, new_).0; Sound(env, ctx') && Follows(ctx, ctx')
  {
    hide Edited, Guard;
    if path in ctx.copy.files {
      EditedKeeps(env, ctx, path, old_, new_);
    } else if env.source(path).Found? {
      ReadKeeps(env, ctx, path);
      var mid := ReadFile(env, ctx, path).0;
      EditedKeeps(env, mid, path, old_, new_);
      FollowsTransitive(ctx, mid, Edited(env, mid, path, old_, new_).0);
    }
  }

  /** Every tool call keeps the invariant, whatever its arguments. */
  lemma DispatchKeeps(env: Env, ctx: Ctx, call: ToolCall)
    requires Sound(env, ctx)
    ensures var ctx' := Dispatch(env, ctx, call).0; Sound(env, ctx') && Follows(ctx, ctx')
  {
    hide ReadFile, EditFile, VerifyCurrent, Sound, Follows;
    SoundStays(env, ctx);
    if FirstMissing(call, Required(call.name)).None? {
      NothingMissing(call, Required(call.name));
      if call.name == "read_file" {
        assert "path" in Required(call.name);
        ReadKeeps(env, ctx, call.input["path"]);
      } else if call.name == "edit_file" {
        assert "path" in Required(call.name) && "old_string" in Required(call.name) && "new_string" in Required(call.name);
        EditKeeps(env, ctx, call.input["path"], call.input["old_string"], call.input["new_string"]);
      } else if call.name == "run_sandbox" && env.sandbox.Some? {
        VerifyIsSound(env, ctx, Chosen(Arg(call, "select"), env.modelSelect));
      }
    }
  }

  lemma SoundStays(env: Env, ctx: Ctx)
    ensures Follows(ctx, ctx)
  {
  }

  lemma VerifyIsSound(env: Env, ctx: Ctx, select: string)
    requires env.sandbox.Some? && Sound(env, ctx)
    ensures var ctx' := VerifyCurrent(env, ctx, select).0; Sound(env, ctx') && Follows(ctx, ctx')
  {
    VerifyKeeps(env, ctx, select);
    hide VerifyCurrent, CacheOk;
  }

  /** So does every sequence of them, between any two of its states. */
  lemma {:induction false} CallsKeep(env: Env, ctx: Ctx, calls: seq<ToolCall>)
    requires Sound(env, ctx)
    ensures Sound(env, After(env, ctx, calls)) && Follows(ctx, After(env, ctx, calls))
    decreases |calls|
  {
    hide Sound, Follows, Dispatch;
    if calls == [] {
      SoundStays(env, ctx);
    } else {
      var next := Dispatch(env, ctx, calls[0]).0;
      DispatchKeeps(env, ctx, calls[0]);
      CallsKeep(env, next, calls[1..]);
      FollowsTransitive(ctx, next, After(env, ctx, calls));
    }
  }

  /** The earlier files as they were, and any other as it was just read. */
  ghost predicate SameDrafts(c: Dict, c': Dict) {
    forall p | p in c'.files :: if p in c.files then c'.files[p] == c.files[p] else !Changed(c'.files[p])
  }

  /** A call that ends in an error, a failed sandbox run aside, changes no draft and leaves the cache alone. */
  lemma ErrorsChangeNothing(env: Env, ctx: Ctx, call: ToolCall)
    requires Dispatch(env, ctx, call).1.isError
    ensures var ctx' := Dispatch(env, ctx, call).0;
            && SameDrafts(ctx.copy, ctx'.copy)
            && ctx'.lastRun == ctx.lastRun && ctx'.lastDiff == ctx.lastDiff
            && (ctx'.checks == ctx.checks
                || (call.name == "run_sandbox" && |ctx'.checks| == |ctx.checks| + 1 && ctx'.checks[|ctx.checks|].outcome.None?))
  {
    hide Guard, Replaced, Count, WithCurrent, FullDiff, Contents, ChangedPaths;
    if FirstMissing(call, Required(call.name)).None? {
      NothingMissing(call, Required(call.name));
      if call.name == "edit_file" {
        assert "path" in Required(call.name) && "old_string" in Required(call.name) && "new_string" in Required(call.name);
        RefusedEdit(env, ctx, call.input["path"], call.input["old_string"], call.input["new_string"]);
      } else if call.name == "read_file" {
        assert "path" in Required(call.name);
      }
    }
  }

  /** An edit that is refused, or raises, leaves the drafts as they were. */
  lemma RefusedEdit(env: Env, ctx: Ctx, path: string, old_: string, new_: string)
    requires var reply := EditFile(env, ctx, path, old_, new_).1; reply.None? || reply.value.isError
    ensures var ctx' := EditFile(env, ctx, path, old_, new_).0;
            SameDrafts(ctx.copy, ctx'.copy) && ctx' == ctx.(copy := ctx'.copy)
  {
    if path in ctx.copy.files {
      EditIsAtomic(env, ctx, path, old_, new_);
    } else if env.source(path).Found? {
      EditIsAtomic(env, ReadFile(env, ctx, path).0, path, old_, new_);
    }
    hide Edited;
  }

  lemma FreshIsSound(env: Env)
    ensures Sound(env, FRESH)
  {
  }

  /** In script lines: at most the limit, and whatever the guard's count skips. */
  ghost predicate WithinLimit(env: Env, path: string, st: FileState) {
    var hs := ScriptFor(env.differ, st).hunks;
    && ChangedLines(FileDiff(env.differ, path, st)) <= env.maxLines
    && (ValidDiffer(env.differ) && BoundaryFree(path) && DiffSize.PlainText(st.original) && DiffSize.PlainText(st.current) ==>
          DiffSize.ChangedHunks(hs) <= env.maxLines + DiffSize.SkippedHunks(hs))
  }

  lemma PassedIsWithinLimit(env: Env, path: string, st: FileState)
    requires Guard(env, path, st).None?
    ensures WithinLimit(env, path, st)
  {
    PassedIsChanged(env, path, st);
    hide Guard, FileDiff, ChangedLines, ValidDiffer, DiffSize.PlainText, BoundaryFree, Changed;
    if ValidDiffer(env.differ) && BoundaryFree(path) && DiffSize.PlainText(st.original) && DiffSize.PlainText(st.current) {
      DiffSize.CountIsExactIff(env.differ, path, st);
    }
  }

  /** The edits a job can end with: every file as it was read, or in scope, within the limit, and more than white space. */
  lemma {:induction false} EveryEditPassed(env: Env, calls: seq<ToolCall>, p: string)
    requires p in After(env, FRESH, calls).copy.files
    ensures var st := After(env, FRESH, calls).copy.files[p];
            || st.current == st.original
            || (&& (env.allowed == {} || p in env.allowed)
                && WithinLimit(env, p, st)
                && !SameInk(st.original, st.current))
  {
    FreshIsSound(env);
    CallsKeep(env, FRESH, calls);
    hide WithinLimit;
    var st := After(env, FRESH, calls).copy.files[p];
    if Changed(st) {
      PassedIsChanged(env, p, st);
      PassedIsWithinLimit(env, p, st);
    }
  }

  /** The limit does not hold of the lines really changed: deleting any number of SQL comments passes the guard. */
  lemma DeletedCommentsPass(env: Env, path: string, n: nat)
    requires ValidDiffer(env.differ) && BoundaryFree(path) && n > 0 && (env.allowed == {} || path in env.allowed)
    ensures var st := FileState(Join(DiffSize.Comments(n)), "");
            && Guard(env, path, st).None?
            && DiffSize.ChangedHunks(ScriptFor(env.differ, st).hunks) == n
  {
    var text := Join(DiffSize.Comments(n));
    DiffSize.DeletedCommentsAreFree(env.differ, path, n);
    DiffSize.CommentsSplit(n);
    assert text[0] == '-' && WithoutSpace(text)[0] == '-';
    assert FileDiff(env.differ, path, FileState(text, "")) != "" by {
      assert RenderFileHead(path)[0] == '-';
    }
    hide ChangedLines, FileDiff, ValidDiffer, WithoutSpace, Join;
  }

  // --- what the cache is worth ---

  /** The earlier copy over the paths of the later one: files it had not loaded yet are unchanged. */
  function Extended(c: Dict, c': Dict): map<string, FileState> {
    map p | p in c'.files :: if p in c.files then c.files[p] else FileState(c'.files[p].original, c'.files[p].original)
  }

  lemma {:induction false} SameDiff(d: Differ, order: seq<string>, f: map<string, FileState>, g: map<string, FileState>)
    requires forall p | p in order :: p in f && p in g && f[p] == g[p]
    ensures FullDiffOf(d, order, f) == FullDiffOf(d, order, g)
  {
    if order != [] { SameDiff(d, order[1..], f, g); }
  }

  lemma {:induction false} DiffAppend(d: Differ, a: seq<string>, b: seq<string>, f: map<string, FileState>)
    requires forall p | p in a + b :: p in f
    ensures (forall p | p in a :: p in f) && forall p | p in b :: p in f
    ensures FullDiffOf(d, a + b, f) == FullDiffOf(d, a, f) + FullDiffOf(d, b, f)
  {
    assert forall p | p in b :: p in a + b;
    assert forall p | p in a :: p in a + b;
    if a == [] {
      assert a + b == b;
    } else {
      assert (a + b)[1..] == a[1..] + b;
      DiffAppend(d, a[1..], b, f);
      Assoc(FileDiff(d, a[0], f[a[0]]), FullDiffOf(d, a[1..], f), FullDiffOf(d, b, f));
    }
  }

  lemma ExtendedDiff(d: Differ, c: Dict, c': Dict)
    requires Evolves(c, c')
    ensures FullDiffOf(d, c'.order, Extended(c, c')) == FullDiff(d, c)
  {
    hide FullDiffOf;
    var (n, f) := (|c.order|, Extended(c, c'));
    var more := c'.order[n..];
    assert c'.order == c.order + more;
    forall p | p in more ensures p in f && !Changed(f[p]) { LoadedLater(c, c', p); }
    DiffAppend(d, c.order, more, f);
    EmptyDiffIffUnchanged(d, more, f);
    SameDiff(d, c.order, f, c.files);
  }

  lemma LoadedLater(c: Dict, c': Dict, p: string)
    requires Evolves(c, c') && p in c'.order[|c.order|..]
    ensures p in c'.files && p !in c.files
  {
    assert forall i | 0 <= i < |c.order| :: c.order[i] == c'.order[..|c.order|][i] == c'.order[i];
  }

  lemma ExtendedOk(c: Dict, c': Dict)
    requires Evolves(c, c') && forall p | p in c'.files :: BoundaryFree(p)
    ensures FilesOk(c'.order, c'.files) && FilesOk(c'.order, Extended(c, c'))
    ensures forall p | p in c'.order :: Extended(c, c')[p].original == c'.files[p].original
    ensures Extended(c, c').Keys == c'.files.Keys
  {
    assert forall p | p in c'.order :: p in c'.files;
  }

  /** An earlier copy with the same diff text has the same changed files with the same contents. */
  lemma SameDiffSameContents(d: Differ, c: Dict, c': Dict)
    requires ValidDiffer(d) && Evolves(c, c') && forall p | p in c'.files :: BoundaryFree(p)
    requires FullDiff(d, c) == FullDiff(d, c')
    ensures Contents(c) == Contents(c')
  {
    hide ValidDiffer, Evolves, Contents, BoundaryFree, FilesOk, FullDiffOf, Extended;
    var f := Extended(c, c');
    ExtendedOk(c, c');
    ExtendedDiff(d, c, c');
    DiffIdentity.DiffTextDeterminesContents(d, c'.order, f, c'.files);
    assert forall p | p in c'.files :: p in c'.order;
    SameContents(c, c', f);
  }

  lemma SameContents(c: Dict, c': Dict, f: map<string, FileState>)
    requires Evolves(c, c') && f == Extended(c, c') && f.Keys == c'.files.Keys
    requires forall p | p in c'.files :: f[p].current == c'.files[p].current
    ensures Contents(c) == Contents(c')
  {
    forall p ensures p in Contents(c) <==> p in Contents(c') {
      if p in c'.files { assert f[p].current == c'.files[p].current; }
    }
  }

  /** The last sandbox run that answered gave this run, and was made on exactly these contents. */
  ghost predicate CompiledExactly(ctx: Ctx, run: Run, contents: map<string, string>) {
    var i := LastAnswered(ctx.checks);
    i.Some? && ctx.checks[i.value].outcome == Some(run) && Contents(ctx.checks[i.value].copy) == contents
  }

  /** A cache hit reuses a run of the very contents at hand, although the key is only the diff's text. */
  lemma CacheHitIsExact(env: Env, ctx: Ctx)
    requires ValidDiffer(env.differ) && PlainPaths(env) && Sound(env, ctx)
    requires ctx.lastRun.Some? && ctx.lastDiff == FullDiff(env.differ, ctx.copy)
    ensures CompiledExactly(ctx, ctx.lastRun.value, Contents(ctx.copy))
  {
    var i := LastAnswered(ctx.checks).value;
    assert CachedBy(env, ctx, i);
    hide FullDiff, LastAnswered, EditsOk;
    SameDiffSameContents(env.differ, ctx.checks[i].copy, ctx.copy);
  }

  /** A run made now is of the contents at hand. */
  lemma FreshRunIsExact(env: Env, ctx: Ctx, select: string)
    requires env.sandbox.Some? && VerifyCurrent(env, ctx, select).1.Some?
    ensures var (ctx', run) := VerifyCurrent(env, ctx, select);
            ctx'.copy == ctx.copy && CompiledExactly(ctx', run.value, Contents(ctx'.copy))
  {
    var (ctx', run) := VerifyCurrent(env, ctx, select);
    assert ctx'.checks[|ctx.checks|] == Check(ctx.copy, select, run);
  }
}
