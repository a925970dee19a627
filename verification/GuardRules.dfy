/** What the diff guard refuses, and why: in terms of the two texts, not of how it looks at them. */
module GuardRules {
  import opened Basics
  import opened Text
  import opened UnifiedDiff
  import opened Diffing
  import opened AgentTools

  predicate InScope(env: Env, path: string) {
    env.allowed == {} || path in env.allowed
  }

  predicate TooMany(env: Env, path: string, st: FileState) {
    ChangedLines(FileDiff(env.differ, path, st)) > env.maxLines
  }

  lemma DiffShows(d: Differ, path: string, st: FileState)
    ensures FileDiff(d, path, st) == "" <==> !Changed(st)
  {
    if Changed(st) { assert RenderFileHead(path)[0] == '-'; }
  }

  /** Every answer of the guard and exactly when it is given: scope first, then change, size and white space. */
  lemma GuardAnswers(env: Env, path: string, st: FileState)
    ensures var (why, same) := (Guard(env, path, st), SameInk(st.original, st.current));
            && (why == Some(OutOfScope) <==> !InScope(env, path))
            && (why == Some(NoChange) <==> InScope(env, path) && st.current == st.original)
            && (forall n :: why == Some(TooLarge(n)) <==>
                  && InScope(env, path) && st.current != st.original && TooMany(env, path, st)
                  && n == ChangedLines(FileDiff(env.differ, path, st)))
            && (why == Some(WhitespaceOnly) <==>
                  InScope(env, path) && st.current != st.original && !TooMany(env, path, st) && same)
            && (why == None <==> InScope(env, path) && !TooMany(env, path, st) && !same)
  {
    DiffShows(env.differ, path, st);
    SameInkIff(st.original, st.current);
    hide FileDiff, ChangedLines, SameInk, WithoutSpace;
  }

  /** An edit whose result differs from the file as it was read in blanks only is refused, and leaves the context as it was. */
  lemma BlankResultIsRefused(env: Env, ctx: Ctx, path: string, old_: string, new_: string)
    requires path in ctx.copy.files
    requires SameInk(ctx.copy.files[path].original, Replaced(ctx.copy.files[path].current, old_, new_).1)
    ensures EditFile(env, ctx, path, old_, new_) == (ctx, Some(Edited(env, ctx, path, old_, new_).1))
    ensures Edited(env, ctx, path, old_, new_).1.isError
  {
    var st := FileState(ctx.copy.files[path].original, Replaced(ctx.copy.files[path].current, old_, new_).1);
    GuardAnswers(env, path, st);
    hide Guard, Replaced, SameInk;
  }

  /** So exchanging a text for one with other blanks, in a file not edited yet, is refused. */
  lemma BlankEditIsRefused(env: Env, ctx: Ctx, path: string, old_: string, new_: string)
    requires path in ctx.copy.files && !Changed(ctx.copy.files[path]) && SameInk(old_, new_)
    ensures EditFile(env, ctx, path, old_, new_).0 == ctx
    ensures EditFile(env, ctx, path, old_, new_).1.value.isError
  {
    var cur := ctx.copy.files[path].current;
    var r := Replaced(cur, old_, new_);
    if r.0.Applied? {
      FoundWhenCounted(cur, old_);
      var i := Find(cur, old_, 0).value;
      var (u, v) := (cur[..i], cur[i + |old_|..]);
      assert cur == u + old_ + v && r.1 == u + new_ + v;
      SameAround(u, old_, new_, v);
    } else {
      SameInkIff(cur, cur);
    }
    BlankResultIsRefused(env, ctx, path, old_, new_);
  }

  lemma SameAround(u: string, a: string, b: string, v: string)
    requires SameInk(a, b)
    ensures SameInk(u + a + v, u + b + v)
  {
    SameInkIff(a, b);
    WithoutSpaceConcat(u + a, v);
    WithoutSpaceConcat(u, a);
    WithoutSpaceConcat(u + b, v);
    WithoutSpaceConcat(u, b);
    SameInkIff(u + a + v, u + b + v);
  }
}
