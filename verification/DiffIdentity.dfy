/**
 The text of a diff identifies the contents it describes. For one fixed set of originals, two
 diffs with the same text come from the same current contents, whatever scripts difflib chose and
 whether or not the texts end in a newline.
 */
module DiffIdentity {
  import opened Basics
  import opened Text
  import opened UnifiedDiff
  import opened Diffing

  /** The text that opens the next file of a diff, up to its first hunk. */
  function Lead(path: string, more: string): string {
    "--- a/" + path + "\n" + ("+++ b/" + path + "\n" + more)
  }

  /** What may follow the last hunk of a file. */
  ghost predicate FileTail(r: string) {
    r == "" || exists p, w :: BoundaryFree(p) && r == Lead(p, w)
  }

  /** What may follow a hunk. */
  predicate HunkTail(r: string) {
    r == "" || r[0] == '@' || r[0] == '-'
  }

  lemma FileTailIsHunkTail(r: string)
    requires FileTail(r)
    ensures HunkTail(r)
  {
  }

  // --- one added line in front of a known kind of text ---

  lemma BothTerminated(l: string, r: string, m: string, t: string)
    requires IsLine(l) && Terminated(l) && (r == "" || r[0] != '\n')
    requires IsLine(m) && Terminated(m) && (t == "" || t[0] != '\n')
    requires l + r == m + t
    ensures l == m && r == t
  {
    LineEndOf(l, r);
    LineEndOf(m, t);
    assert l == (l + r)[..|l|] && m == (m + t)[..|m|];
    assert r == (l + r)[|l|..] && t == (m + t)[|m|..];
  }

  lemma LeadLine(l: string, p: string, w: string)
    requires BoundaryFree(l) && BoundaryFree(p)
    ensures l + Lead(p, w) == (l + "--- a/" + p) + "\n" + ("+++ b/" + p + "\n" + w)
    ensures BoundaryFree(l + "--- a/" + p)
  {
  }

  lemma NeverMixed(l: string, r: string, m: string, t: string)
    requires IsLine(l) && !Terminated(l) && FileTail(r)
    requires IsLine(m) && Terminated(m) && HunkTail(t)
    ensures l + r != m + t
  {
    UnterminatedIsFree(l);
    LineEndOf(m, t);
    if r == "" {
      assert BoundaryFree(l + r);
      assert IsBoundary((m + t)[|m| - 1]);
    } else {
      var p, w :| BoundaryFree(p) && r == Lead(p, w);
      LeadLine(l, p, w);
      LineEndAt(l + "--- a/" + p, "+++ b/" + p + "\n" + w);
      assert (l + r)[|l + "--- a/" + p| + 1] == '+';
      assert t != "" ==> (m + t)[|m|] == t[0];
    }
  }

  lemma BothOpen(l: string, r: string, m: string, t: string)
    requires IsLine(l) && !Terminated(l) && FileTail(r)
    requires IsLine(m) && !Terminated(m) && FileTail(t)
    requires l + r == m + t
    ensures l == m && r == t
  {
    UnterminatedIsFree(l);
    UnterminatedIsFree(m);
    if r == "" {
      assert l + r == l;
      OpenMeetsEnd(m, t);
    } else if t == "" {
      assert m + t == m;
      OpenMeetsEnd(l, r);
    } else {
      var p, w :| BoundaryFree(p) && r == Lead(p, w);
      var q, v :| BoundaryFree(q) && t == Lead(q, v);
      LeadLine(l, p, w);
      LeadLine(m, q, v);
      var (x, y) := ("+++ b/" + p + "\n" + w, "+++ b/" + q + "\n" + v);
      HeadDetermined('\n', l + "--- a/" + p, x, m + "--- a/" + q, y);
      HeadDetermined('\n', "+++ b/" + p, w, "+++ b/" + q, v);
      assert p == ("+++ b/" + p)[6..] && q == ("+++ b/" + q)[6..];
      assert l == (l + "--- a/" + p)[..|l|] && m == (m + "--- a/" + q)[..|m|];
    }
  }

  lemma OpenMeetsEnd(l: string, r: string)
    requires BoundaryFree(l + r) && FileTail(r)
    ensures r == "" && l + r == l
  {
    LeadHasNewline(r);
    SuffixAt(l, r);
  }

  lemma SuffixAt(l: string, r: string)
    ensures forall i | 0 <= i < |r| :: (l + r)[|l| + i] == r[i]
  {
  }

  lemma LeadHasNewline(r: string)
    requires FileTail(r)
    ensures r == "" || exists i :: 0 <= i < |r| && r[i] == '\n'
  {
    if r != "" {
      var p, w :| BoundaryFree(p) && r == Lead(p, w);
      assert r[6 + |p|] == '\n';
    }
  }

  // --- one hunk ---

  /** The new lines of a hunk and after it are a split text; an open last line ends the file's diff. */
  ghost predicate BodyOk(ops: seq<Op>, more: seq<string>, r: string) {
    Ordered(ops) && LinesOk(NewOf(ops) + more) && HunkTail(r) && (more == [] ==> FileTail(r))
  }

  lemma BodyOkRest(ops: seq<Op>, more: seq<string>, r: string)
    requires ops != [] && BodyOk(ops, more, r)
    ensures BodyOk(ops[1..], more, r)
  {
    var ls := NewOf(ops) + more;
    if ops[0].Del? {
      assert NewOf(ops) == NewOf(ops[1..]);
    } else {
      assert NewOf(ops[1..]) + more == ls[1..];
    }
    forall i | 0 <= i < |ops[1..]| - 1 ensures !(ops[1..][i].Add? && ops[1..][i + 1].Del?) {
      assert ops[1..][i] == ops[i + 1] && ops[1..][i + 1] == ops[i + 2];
    }
  }

  /** An added line without a terminator is the last thing its file's diff prints. */
  lemma OpenAddIsLast(ops: seq<Op>, more: seq<string>, r: string)
    requires ops != [] && BodyOk(ops, more, r) && ops[0].Add?
    ensures IsLine(ops[0].line)
    ensures Terminated(ops[0].line) || (ops[1..] == [] && more == [])
  {
    var ls := NewOf(ops) + more;
    assert ls[0] == ops[0].line;
    assert !Terminated(ops[0].line) ==> |ls| == 1;
    if ops[1..] != [] {
      RenderOpsStep(ops[1..], "");
      assert !(ops[0].Add? && ops[0 + 1].Del?);
    }
  }

  lemma {:induction false} BodyStart(ops: seq<Op>, r: string)
    requires HunkTail(r)
    ensures RenderOps(ops) + r == "" || (RenderOps(ops) + r)[0] != '\n'
  {
    if ops != [] { RenderOpsStep(ops, r); }
  }

  lemma {:induction false} AddDetermined(x: seq<Op>, r: string, mx: seq<string>, y: seq<Op>, t: string, my: seq<string>)
    requires x != [] && x[0].Add? && BodyOk(x, mx, r)
    requires y != [] && y[0].Add? && BodyOk(y, my, t)
    requires |OldOf(x)| == |OldOf(y)| && |NewOf(x)| == |NewOf(y)|
    requires x[0].line + (RenderOps(x[1..]) + r) == y[0].line + (RenderOps(y[1..]) + t)
    ensures x[0] == y[0] && RenderOps(x[1..]) + r == RenderOps(y[1..]) + t
  {
    OpenAddIsLast(x, mx, r);
    OpenAddIsLast(y, my, t);
    RenderOpsStep(x, r);
    RenderOpsStep(y, t);
    var l, m := x[0].line, y[0].line;
    if Terminated(l) && Terminated(m) {
      BodyStart(x[1..], r);
      BodyStart(y[1..], t);
      BothTerminated(l, RenderOps(x[1..]) + r, m, RenderOps(y[1..]) + t);
    } else {
      CountsEmpty(x[1..], y[1..]);
      assert RenderOps(x[1..]) + r == r && RenderOps(y[1..]) + t == t;
      if !Terminated(l) && !Terminated(m) {
        BothOpen(l, r, m, t);
      } else if Terminated(m) {
        NeverMixed(l, r, m, t);
      } else {
        NeverMixed(m, t, l, r);
      }
    }
  }

  lemma {:induction false} CountsEmpty(x: seq<Op>, y: seq<Op>)
    requires |OldOf(x)| == |OldOf(y)| && |NewOf(x)| == |NewOf(y)|
    ensures x == [] <==> y == []
  {
    if x != [] { RenderOpsStep(x, ""); }
    if y != [] { RenderOpsStep(y, ""); }
  }

  /** Against the same old lines and with the same counts, a hunk's body is determined by its text. */
  lemma {:induction false} BodyDetermined(
      x: seq<Op>, r: string, mx: seq<string>, y: seq<Op>, t: string, my: seq<string>)
    requires BodyOk(x, mx, r) && BodyOk(y, my, t)
    requires OldOf(x) == OldOf(y) && |NewOf(x)| == |NewOf(y)|
    requires RenderOps(x) + r == RenderOps(y) + t
    ensures x == y && r == t
    decreases |x|
  {
    CountsEmpty(x, y);
    if x == [] {
      assert RenderOps(x) + r == r && RenderOps(y) + t == t;
    } else {
      RenderOpsStep(x, r);
      RenderOpsStep(y, t);
      var (rx, ry) := (RenderOps(x[1..]) + r, RenderOps(y[1..]) + t);
      SameTag(x[0], rx, y[0], ry);
      BodyOkRest(x, mx, r);
      BodyOkRest(y, my, t);
      if x[0].Add? {
        AddDetermined(x, r, mx, y, t, my);
      } else {
        OldHeads(x, y);
        assert rx == (x[0].line + rx)[|x[0].line|..] && ry == (y[0].line + ry)[|y[0].line|..];
      }
      NewHeads(x, y);
      BodyDetermined(x[1..], r, mx, y[1..], t, my);
      assert x == [x[0]] + x[1..] && y == [y[0]] + y[1..];
    }
  }

  lemma SameTag(a: Op, x: string, b: Op, y: string)
    requires [Tag(a)] + (a.line + x) == [Tag(b)] + (b.line + y)
    ensures Tag(a) == Tag(b) && a.line + x == b.line + y
  {
    var s, t := [Tag(a)] + (a.line + x), [Tag(b)] + (b.line + y);
    assert s[0] == t[0];
    assert a.line + x == s[1..] && b.line + y == t[1..];
  }

  lemma {:induction false} OldHeads(x: seq<Op>, y: seq<Op>)
    requires x != [] && y != [] && !x[0].Add? && !y[0].Add? && OldOf(x) == OldOf(y)
    ensures x[0].line == y[0].line && OldOf(x[1..]) == OldOf(y[1..])
  {
    assert OldOf(x)[0] == x[0].line && OldOf(y)[0] == y[0].line;
    assert OldOf(x[1..]) == OldOf(x)[1..] && OldOf(y[1..]) == OldOf(y)[1..];
  }

  lemma {:induction false} NewHeads(x: seq<Op>, y: seq<Op>)
    requires x != [] && y != [] && Tag(x[0]) == Tag(y[0])
    requires OldOf(x) == OldOf(y) && |NewOf(x)| == |NewOf(y)|
    ensures OldOf(x[1..]) == OldOf(y[1..]) && |NewOf(x[1..])| == |NewOf(y[1..])|
  {
    RenderOpsStep(x, "");
    RenderOpsStep(y, "");
    if x[0].Add? {
      assert OldOf(x) == OldOf(x[1..]) && OldOf(y) == OldOf(y[1..]);
    } else {
      OldHeads(x, y);
    }
  }

  // --- all hunks of a file ---

  ghost predicate HunksOk(hs: seq<Hunk>, tail: seq<string>, r: string) {
    Shaped(hs) && LinesOk(NewLines(hs, tail)) && FileTail(r)
  }

  lemma LinesOkSuffix(x: seq<string>, y: seq<string>)
    requires LinesOk(x + y)
    ensures LinesOk(y)
  {
    forall i | 0 <= i < |y| ensures IsLine(y[i]) && (i < |y| - 1 ==> Terminated(y[i])) {
      assert (x + y)[|x| + i] == y[i];
    }
  }

  lemma {:induction false} HunksOkRest(hs: seq<Hunk>, tail: seq<string>, r: string)
    requires hs != [] && HunksOk(hs, tail, r)
    ensures HunksOk(hs[1..], tail, r)
    ensures LinesOk(NewOf(hs[0].ops) + NewLines(hs[1..], tail))
    ensures hs[1..] != [] ==> NewLines(hs[1..], tail) != []
  {
    LinesOkSuffix(hs[0].gap, NewOf(hs[0].ops) + NewLines(hs[1..], tail));
    LinesOkSuffix(NewOf(hs[0].ops), NewLines(hs[1..], tail));
    if hs[1..] != [] { assert hs[1].gap != []; }
  }

  lemma {:induction false} HunksStart(hs: seq<Hunk>, i: nat, j: nat, r: string)
    requires FileTail(r)
    ensures HunkTail(RenderHunks(hs, i, j) + r)
    ensures hs != [] <==> StartsWith(RenderHunks(hs, i, j) + r, "@@ -")
  {
    FileTailIsHunkTail(r);
    if hs == [] {
      assert RenderHunks(hs, i, j) + r == r;
      if r != "" { LeadFirst(r); }
    } else {
      var at := HeaderOf(hs[0], i, j);
      RenderHunksStep(hs, i, j, r);
      HeaderStarts(at.i, at.n, at.j, at.m,
                   RenderOps(hs[0].ops) + (RenderHunks(hs[1..], NextOld(hs[0], i), NextNew(hs[0], j)) + r));
    }
  }

  lemma LeadFirst(r: string)
    requires FileTail(r) && r != ""
    ensures r[0] == '-'
  {
  }

  lemma {:induction false} BodyOkOfHunk(hs: seq<Hunk>, tail: seq<string>, r: string, i: nat, j: nat)
    requires hs != [] && HunksOk(hs, tail, r)
    ensures BodyOk(hs[0].ops, NewLines(hs[1..], tail), RenderHunks(hs[1..], i, j) + r)
  {
    HunksOkRest(hs, tail, r);
    HunksStart(hs[1..], i, j, r);
    if hs[1..] == [] { assert RenderHunks(hs[1..], i, j) + r == r; }
  }

  lemma HeaderDetermined(a: Header, x: string, b: Header, y: string)
    requires RenderHeader(a.i, a.n, a.j, a.m) + x == RenderHeader(b.i, b.n, b.j, b.m) + y
    ensures a == b && x == y
  {
    ReadHeaderOf(a.i, a.n, a.j, a.m, x);
    ReadHeaderOf(b.i, b.n, b.j, b.m, y);
  }

  lemma SplitSame<T>(a: seq<T>, x: seq<T>, b: seq<T>, y: seq<T>)
    requires a + x == b + y && |a| == |b|
    ensures a == b && x == y
  {
    assert a == (a + x)[..|a|] && b == (b + y)[..|b|];
    assert x == (a + x)[|a|..] && y == (b + y)[|b|..];
  }

  /** Against the same old lines, the hunks of a file are determined by their text. */
  lemma {:induction false} HunksDetermined(
      hs: seq<Hunk>, tail: seq<string>, r: string, gs: seq<Hunk>, tail': seq<string>, t: string, i: nat, j: nat)
    requires HunksOk(hs, tail, r) && HunksOk(gs, tail', t)
    requires OldLines(hs, tail) == OldLines(gs, tail')
    requires RenderHunks(hs, i, j) + r == RenderHunks(gs, i, j) + t
    ensures NewLines(hs, tail) == NewLines(gs, tail') && r == t
    decreases |hs|
  {
    HunksStart(hs, i, j, r);
    HunksStart(gs, i, j, t);
    if hs == [] {
      assert RenderHunks(hs, i, j) + r == r && RenderHunks(gs, i, j) + t == t;
    } else {
      var h, g := hs[0], gs[0];
      var (x, y) := (RenderHunks(hs[1..], NextOld(h, i), NextNew(h, j)) + r,
                     RenderHunks(gs[1..], NextOld(g, i), NextNew(g, j)) + t);
      RenderHunksStep(hs, i, j, r);
      RenderHunksStep(gs, i, j, t);
      HeaderDetermined(HeaderOf(h, i, j), RenderOps(h.ops) + x, HeaderOf(g, i, j), RenderOps(g.ops) + y);
      SplitSame(h.gap, OldOf(h.ops) + OldLines(hs[1..], tail), g.gap, OldOf(g.ops) + OldLines(gs[1..], tail'));
      SplitSame(OldOf(h.ops), OldLines(hs[1..], tail), OldOf(g.ops), OldLines(gs[1..], tail'));
      BodyOkOfHunk(hs, tail, r, NextOld(h, i), NextNew(h, j));
      BodyOkOfHunk(gs, tail', t, NextOld(g, i), NextNew(g, j));
      BodyDetermined(h.ops, x, NewLines(hs[1..], tail), g.ops, y, NewLines(gs[1..], tail'));
      HunksOkRest(hs, tail, r);
      HunksOkRest(gs, tail', t);
      HunksDetermined(hs[1..], tail, r, gs[1..], tail', t, NextOld(h, i), NextNew(h, j));
    }
  }

  // --- whole diffs ---

  lemma {:induction false} FileIsLead(path: string, hs: seq<Hunk>, r: string)
    ensures RenderFile(path, hs) + r == Lead(path, RenderHunks(hs, 0, 0) + r)
  {
    hide RenderHunks;
    var h := RenderHunks(hs, 0, 0);
    Assoc(path, "\n", "+++ b/" + (path + "\n"));
    Assoc("--- a/", path + "\n", "+++ b/" + (path + "\n"));
    Assoc("--- a/", path, "\n");
    Assoc("+++ b/", path, "\n");
    Assoc("--- a/" + path + "\n", "+++ b/" + path + "\n", h);
    Assoc("--- a/" + path + "\n", "+++ b/" + path + "\n" + h, r);
    Assoc("+++ b/" + path + "\n", h, r);
  }

  lemma LeadDetermined(p: string, w: string, q: string, v: string)
    requires BoundaryFree(p) && BoundaryFree(q) && Lead(p, w) == Lead(q, v)
    ensures p == q && w == v
  {
    var (x, y) := ("+++ b/" + p + "\n" + w, "+++ b/" + q + "\n" + v);
    HeadDetermined('\n', "--- a/" + p, x, "--- a/" + q, y);
    HeadDetermined('\n', "+++ b/" + p, w, "+++ b/" + q, v);
    assert p == ("--- a/" + p)[6..] && q == ("--- a/" + q)[6..];
  }

  /** The diff of the files in `order`, up to its first header. */
  lemma {:induction false} FullDiffStart(d: Differ, order: seq<string>, files: map<string, FileState>) returns (first: string, w: string)
    requires FilesOk(order, files)
    ensures FileTail(FullDiffOf(d, order, files))
    ensures FullDiffOf(d, order, files) == "" || (first in order && FullDiffOf(d, order, files) == Lead(first, w))
    decreases |order|
  {
    if order == [] {
      first, w := "", "";
    } else {
      var p := order[0];
      var rest := FullDiffOf(d, order[1..], files);
      first, w := FullDiffStart(d, order[1..], files);
      if Changed(files[p]) {
        var hs := ScriptFor(d, files[p]).hunks;
        first, w := p, RenderHunks(hs, 0, 0) + rest;
        FileIsLead(p, hs, rest);
      } else {
        assert "" + rest == rest;
      }
    }
  }

  lemma HunksOkOf(d: Differ, st: FileState, r: string)
    requires ValidDiffer(d) && Changed(st) && FileTail(r)
    ensures var sc := ScriptFor(d, st);
            HunksOk(sc.hunks, sc.tail, r) && OldLines(sc.hunks, sc.tail) == SplitLines(st.original)
            && NewLines(sc.hunks, sc.tail) == SplitLines(st.current)
  {
    SplitLinesOk(st.current);
    JoinSplit(st.original);
    JoinSplit(st.current);
  }

  /** Over the same originals, equal diff texts mean equal contents. */
  lemma {:induction false} DiffTextDeterminesContents(
      d: Differ, order: seq<string>, f: map<string, FileState>, g: map<string, FileState>)
    requires ValidDiffer(d) && FilesOk(order, f) && FilesOk(order, g)
    requires forall p | p in order :: f[p].original == g[p].original
    requires FullDiffOf(d, order, f) == FullDiffOf(d, order, g)
    ensures forall p | p in order :: f[p].current == g[p].current
    decreases |order|
  {
    if order != [] {
      var p := order[0];
      var (x, y) := (FullDiffOf(d, order[1..], f), FullDiffOf(d, order[1..], g));
      var q, w := FullDiffStart(d, order[1..], f);
      var s, v := FullDiffStart(d, order[1..], g);
      FirstFile(d, order, f, g, x, y, q, w, s, v);
      DiffTextDeterminesContents(d, order[1..], f, g);
      assert order == [p] + order[1..];
    }
  }

  lemma {:induction false} FirstFile(
      d: Differ, order: seq<string>, f: map<string, FileState>, g: map<string, FileState>,
      x: string, y: string, q: string, w: string, s: string, v: string)
    requires order != [] && ValidDiffer(d) && FilesOk(order, f) && FilesOk(order, g)
    requires f[order[0]].original == g[order[0]].original
    requires x == FullDiffOf(d, order[1..], f) && FileTail(x) && (x == "" || (q in order[1..] && x == Lead(q, w)))
    requires y == FullDiffOf(d, order[1..], g) && FileTail(y) && (y == "" || (s in order[1..] && y == Lead(s, v)))
    requires FullDiffOf(d, order, f) == FullDiffOf(d, order, g)
    ensures f[order[0]].current == g[order[0]].current && x == y
  {
    var p := order[0];
    assert "" + x == x && "" + y == y;
    var (sf, sg) := (ScriptFor(d, f[p]), ScriptFor(d, g[p]));
    FileIsLead(p, sf.hunks, x);
    FileIsLead(p, sg.hunks, y);
    if Changed(f[p]) && Changed(g[p]) {
      HunksOkOf(d, f[p], x);
      HunksOkOf(d, g[p], y);
      LeadDetermined(p, RenderHunks(sf.hunks, 0, 0) + x, p, RenderHunks(sg.hunks, 0, 0) + y);
      HunksDetermined(sf.hunks, sf.tail, x, sg.hunks, sg.tail, y, 0, 0);
      JoinSplit(f[p].current);
      JoinSplit(g[p].current);
    } else if Changed(f[p]) {
      NotFirst(p, RenderHunks(sf.hunks, 0, 0) + x, order, y, s, v);
    } else if Changed(g[p]) {
      NotFirst(p, RenderHunks(sg.hunks, 0, 0) + y, order, x, q, w);
    }
  }

  lemma NotFirst(p: string, more: string, order: seq<string>, y: string, s: string, v: string)
    requires order != [] && order[0] == p && PathsOk(order)
    requires y == "" || (s in order[1..] && y == Lead(s, v))
    ensures Lead(p, more) != y
  {
    if y != "" && Lead(p, more) == Lead(s, v) {
      var k :| 0 <= k < |order[1..]| && order[1..][k] == s;
      assert order[k + 1] == s;
      LeadDetermined(p, more, s, v);
      assert false;
    }
  }
}
