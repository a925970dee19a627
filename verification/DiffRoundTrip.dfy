/**
 Reading a printed diff the way a patch tool does (section "Diff -u or -U Output Format" of the
 POSIX.1-2008 `diff` utility): line by line, with the ranges saying how many body lines belong to
 a hunk. On newline-terminated texts, parsing and applying gives back exactly the new contents.
 */
module DiffRoundTrip {
  import opened Basics
  import opened Text
  import opened UnifiedDiff

  /** A line in the sense of POSIX: one newline, at its end. */
  predicate NlLine(l: string) {
    l != "" && l[|l| - 1] == '\n' && '\n' !in l[..|l| - 1]
  }

  predicate NlText(ls: seq<string>) {
    forall i | 0 <= i < |ls| :: NlLine(ls[i])
  }

  /** The first POSIX line of `s`, and what follows it. */
  function TakeLine(s: string): (r: Option<(string, string)>)
    ensures r.Some? ==> r.value.0 != "" && |r.value.0| + |r.value.1| == |s|
  {
    if s == "" then None
    else if s[0] == '\n' then Some(("\n", s[1..]))
    else
      var (l, rest) :- TakeLine(s[1..]);
      Some(([s[0]] + l, rest))
  }

  /** A text as a patch tool sees it: cut after each newline, and nowhere else. */
  function NlLines(s: string): seq<string>
    decreases |s|
  {
    if s == "" then []
    else match TakeLine(s) case None => [s] case Some((l, rest)) => [l] + NlLines(rest)
  }

  datatype PatchHunk = PatchHunk(at: Header, ops: seq<Op>)

  datatype FilePatch = FilePatch(path: string, hunks: seq<PatchHunk>)

  /** Body lines until `n` old and `m` new lines have been read. */
  function ParseBody(s: string, n: nat, m: nat): (r: Option<(seq<Op>, string)>)
    ensures r.Some? ==> |r.value.1| <= |s|
    decreases |s|
  {
    if n == 0 && m == 0 then Some(([], s))
    else if s == "" then None
    else
      var (l, rest) :- TakeLine(s[1..]);
      if s[0] == ' ' && n > 0 && m > 0 then
        var (ops, r) :- ParseBody(rest, n - 1, m - 1);
        Some(([Keep(l)] + ops, r))
      else if s[0] == '-' && n > 0 then
        var (ops, r) :- ParseBody(rest, n - 1, m);
        Some(([Del(l)] + ops, r))
      else if s[0] == '+' && m > 0 then
        var (ops, r) :- ParseBody(rest, n, m - 1);
        Some(([Add(l)] + ops, r))
      else None
  }

  function ParseHunks(s: string): (r: Option<(seq<PatchHunk>, string)>)
    ensures r.Some? ==> |r.value.1| <= |s|
    decreases |s|
  {
    if !StartsWith(s, "@@ -") then Some(([], s))
    else
      var (h, body) :- ReadHeader(s);
      var (ops, next) :- ParseBody(body, h.n, h.m);
      var (hs, rest) :- ParseHunks(next);
      Some(([PatchHunk(h, ops)] + hs, rest))
  }

  function ParseFiles(s: string): Option<seq<FilePatch>>
    decreases |s|
  {
    if s == "" then Some([])
    else
      var s1 :- Expect(s, "--- a/");
      var (p, s2) :- TakeLine(s1);
      var s3 :- Expect(s2, "+++ b/");
      var (q, s4) :- TakeLine(s3);
      var (hs, s5) :- ParseHunks(s4);
      if p != q || hs == [] then None
      else
        var files :- ParseFiles(s5);
        Some([FilePatch(p[..|p| - 1], hs)] + files)
  }

  /** Apply hunks to `a` from old line `pos` on, `out` new lines having been written. */
  function Apply(a: seq<string>, pos: nat, out: nat, hs: seq<PatchHunk>): Option<seq<string>>
    requires pos <= |a|
    decreases |hs|
  {
    if hs == [] then Some(a[pos..])
    else
      var h := hs[0].at;
      if h.i < pos || h.i + h.n > |a| || h.j != out + (h.i - pos)
         || OldOf(hs[0].ops) != a[h.i..h.i + h.n] || |NewOf(hs[0].ops)| != h.m
      then None
      else
        var rest :- Apply(a, h.i + h.n, h.j + h.m, hs[1..]);
        Some(a[pos..h.i] + NewOf(hs[0].ops) + rest)
  }

  // --- the printed form is read back ---

  lemma {:induction false} TakeLineOf(l: string, rest: string)
    requires NlLine(l)
    ensures TakeLine(l + rest) == Some((l, rest))
  {
    if |l| == 1 {
      assert l == "\n";
    } else {
      assert l[0] == l[..|l| - 1][0];
      assert l[1..][..|l| - 2] == l[..|l| - 1][1..];
      TakeLineOf(l[1..], rest);
      assert (l + rest)[1..] == l[1..] + rest;
      assert [l[0]] + l[1..] == l;
    }
  }

  predicate NlOps(ops: seq<Op>) {
    forall i | 0 <= i < |ops| :: NlLine(ops[i].line)
  }

  lemma {:induction false} ParseBodyStep(op: Op, after: string, n: nat, m: nat)
    requires NlLine(op.line) && (op.Add? || n > 0) && (op.Del? || m > 0)
    ensures ParseBody([Tag(op)] + (op.line + after), n, m)
         == match ParseBody(after, if op.Add? then n else n - 1, if op.Del? then m else m - 1)
            case None => None
            case Some((ops, r)) => Some(([op] + ops, r))
  {
    TakeLineOf(op.line, after);
    hide TakeLine, NlLine;
    var s := [Tag(op)] + (op.line + after);
    assert s[0] == Tag(op) && s[1..] == op.line + after;
  }

  lemma {:induction false} ParseBodyCons(op: Op, ops: seq<Op>, after: string, rest: string, n: nat, m: nat)
    requires NlLine(op.line) && (op.Add? || n > 0) && (op.Del? || m > 0)
    requires ParseBody(after, if op.Add? then n else n - 1, if op.Del? then m else m - 1) == Some((ops, rest))
    ensures ParseBody([Tag(op)] + (op.line + after), n, m) == Some(([op] + ops, rest))
  {
    hide ParseBody, NlLine;
    ParseBodyStep(op, after, n, m);
  }

  lemma NlOpsParts(ops: seq<Op>)
    requires NlOps(ops) && ops != []
    ensures NlLine(ops[0].line) && NlOps(ops[1..]) && ops == [ops[0]] + ops[1..]
  {
  }

  lemma {:induction false} NoBody(rest: string)
    ensures ParseBody(RenderOps([]) + rest, |OldOf([])|, |NewOf([])|) == Some(([], rest))
  {
    assert "" + rest == rest;
  }

  lemma {:induction false} ParseBodyOf(ops: seq<Op>, rest: string)
    requires NlOps(ops)
    ensures ParseBody(RenderOps(ops) + rest, |OldOf(ops)|, |NewOf(ops)|) == Some((ops, rest))
    decreases |ops|
  {
    hide *;
    if ops == [] {
      NoBody(rest);
    } else {
      var (op, more) := (ops[0], ops[1..]);
      NlOpsParts(ops);
      RenderOpsStep(ops, rest);
      ParseBodyOf(more, rest);
      ParseBodyCons(op, more, RenderOps(more) + rest, rest, |OldOf(ops)|, |NewOf(ops)|);
    }
  }

  function PatchHunks(hs: seq<Hunk>, i: nat, j: nat): seq<PatchHunk> {
    if hs == [] then []
    else [PatchHunk(HeaderOf(hs[0], i, j), hs[0].ops)]
         + PatchHunks(hs[1..], NextOld(hs[0], i), NextNew(hs[0], j))
  }

  predicate NlHunks(hs: seq<Hunk>) {
    forall k | 0 <= k < |hs| :: NlOps(hs[k].ops)
  }

  lemma {:induction false} ParseHunksOf(hs: seq<Hunk>, i: nat, j: nat, rest: string)
    requires NlHunks(hs) && !StartsWith(rest, "@@ -")
    ensures ParseHunks(RenderHunks(hs, i, j) + rest) == Some((PatchHunks(hs, i, j), rest))
    decreases |hs|
  {
    if hs == [] {
      assert "" + rest == rest;
    } else {
      var h, at := hs[0], HeaderOf(hs[0], i, j);
      var next := RenderHunks(hs[1..], NextOld(h, i), NextNew(h, j)) + rest;
      RenderHunksStep(hs, i, j, rest);
      HeaderStarts(at.i, at.n, at.j, at.m, RenderOps(h.ops) + next);
      ReadHeaderOf(at.i, at.n, at.j, at.m, RenderOps(h.ops) + next);
      ParseBodyOf(h.ops, next);
      ParseHunksOf(hs[1..], NextOld(h, i), NextNew(h, j), rest);
    }
  }

  lemma Slices(a: seq<string>, pos: nat, g: seq<string>, o: seq<string>, more: seq<string>)
    requires pos <= |a| && a[pos..] == g + (o + more)
    ensures pos + |g| + |o| <= |a|
    ensures a[pos..pos + |g|] == g && a[pos + |g|..pos + |g| + |o|] == o && a[pos + |g| + |o|..] == more
  {
    var t := a[pos..];
    assert a[pos..pos + |g|] == t[..|g|];
    assert a[pos + |g|..pos + |g| + |o|] == t[|g|..|g| + |o|];
    assert a[pos + |g| + |o|..] == t[|g| + |o|..];
  }

  lemma {:induction false} ApplyOf(a: seq<string>, pos: nat, out: nat, hs: seq<Hunk>, tail: seq<string>)
    requires pos <= |a| && a[pos..] == OldLines(hs, tail)
    ensures Apply(a, pos, out, PatchHunks(hs, pos, out)) == Some(NewLines(hs, tail))
    decreases |hs|
  {
    if hs != [] {
      var h := hs[0];
      assert OldLines(hs, tail) == h.gap + (OldOf(h.ops) + OldLines(hs[1..], tail));
      assert NewLines(hs, tail) == h.gap + (NewOf(h.ops) + NewLines(hs[1..], tail));
      hide OldLines, NewLines, OldOf, NewOf;
      Slices(a, pos, h.gap, OldOf(h.ops), OldLines(hs[1..], tail));
      ApplyOf(a, NextOld(h, pos), NextNew(h, out), hs[1..], tail);
      var ps := PatchHunks(hs, pos, out);
      assert ps[0] == PatchHunk(HeaderOf(h, pos, out), h.ops);
      assert ps[1..] == PatchHunks(hs[1..], NextOld(h, pos), NextNew(h, out));
      Assoc(h.gap, NewOf(h.ops), NewLines(hs[1..], tail));
    }
  }

  // --- every line of a script comes from one of the two texts ---

  lemma NlTextParts(x: seq<string>, y: seq<string>)
    requires NlText(x + y)
    ensures NlText(x) && NlText(y)
  {
    forall i | 0 <= i < |x| ensures NlLine(x[i]) { assert (x + y)[i] == x[i]; }
    forall i | 0 <= i < |y| ensures NlLine(y[i]) { assert (x + y)[|x| + i] == y[i]; }
  }

  lemma {:induction false} OpsOfNlTexts(ops: seq<Op>)
    requires NlText(OldOf(ops)) && NlText(NewOf(ops))
    ensures NlOps(ops)
    decreases |ops|
  {
    if ops != [] {
      NlTextParts(if ops[0].Add? then [] else [ops[0].line], OldOf(ops[1..]));
      NlTextParts(if ops[0].Del? then [] else [ops[0].line], NewOf(ops[1..]));
      assert NlText([ops[0].line]);
      OpsOfNlTexts(ops[1..]);
      assert ops == [ops[0]] + ops[1..];
      assert NlLine([ops[0].line][0]);
    }
  }

  lemma {:induction false} HunksOfNlTexts(hs: seq<Hunk>, tail: seq<string>)
    requires NlText(OldLines(hs, tail)) && NlText(NewLines(hs, tail))
    ensures NlHunks(hs)
    decreases |hs|
  {
    if hs != [] {
      var h := hs[0];
      NlTextParts(h.gap, OldOf(h.ops) + OldLines(hs[1..], tail));
      NlTextParts(OldOf(h.ops), OldLines(hs[1..], tail));
      NlTextParts(h.gap, NewOf(h.ops) + NewLines(hs[1..], tail));
      NlTextParts(NewOf(h.ops), NewLines(hs[1..], tail));
      OpsOfNlTexts(h.ops);
      HunksOfNlTexts(hs[1..], tail);
    }
  }

  // --- whole diffs ---

  /** One changed file: its path, both contents as lines, and the script difflib chose. */
  datatype Change = Change(path: string, before: seq<string>, after: seq<string>, script: Script)

  predicate ChangeOk(c: Change) {
    && '\n' !in c.path
    && NlText(c.before) && NlText(c.after)
    && Explains(c.script, c.before, c.after)
  }

  function RenderChanges(cs: seq<Change>): string {
    if cs == [] then "" else RenderFile(cs[0].path, cs[0].script.hunks) + RenderChanges(cs[1..])
  }

  function PatchesOf(cs: seq<Change>): seq<FilePatch> {
    if cs == [] then []
    else [FilePatch(cs[0].path, PatchHunks(cs[0].script.hunks, 0, 0))] + PatchesOf(cs[1..])
  }

  lemma {:induction false} NoHunkFollows(cs: seq<Change>)
    ensures !StartsWith(RenderChanges(cs), "@@ -")
  {
    if cs != [] { assert RenderChanges(cs)[0] == '-'; }
  }

  lemma {:induction false} ParseFileStep(path: string, text: string, hs: seq<PatchHunk>, next: string)
    requires '\n' !in path && hs != [] && ParseHunks(text) == Some((hs, next))
    ensures ParseFiles("--- a/" + ((path + "\n") + ("+++ b/" + ((path + "\n") + text))))
         == match ParseFiles(next) case None => None case Some(files) => Some([FilePatch(path, hs)] + files)
  {
    var line := path + "\n";
    assert line[..|line| - 1] == path;
    StartsWithOwn("--- a/", line + ("+++ b/" + (line + text)));
    TakeLineOf(line, "+++ b/" + (line + text));
    StartsWithOwn("+++ b/", line + text);
    TakeLineOf(line, text);
    hide TakeLine, StartsWith, ParseHunks;
  }

  lemma FileText(path: string, hunks: string, rest: string)
    ensures RenderFileHead(path) + hunks + rest
         == "--- a/" + ((path + "\n") + ("+++ b/" + ((path + "\n") + (hunks + rest))))
  {
    Assoc(path, "\n", "+++ b/" + (path + "\n"));
    Assoc("--- a/", (path + "\n") + ("+++ b/" + (path + "\n")), hunks + rest);
    Assoc(path + "\n", "+++ b/" + (path + "\n"), hunks + rest);
    Assoc("+++ b/", path + "\n", hunks + rest);
    Assoc(RenderFileHead(path), hunks, rest);
  }

  lemma {:induction false} ParseFilesOf(cs: seq<Change>)
    requires forall k | 0 <= k < |cs| :: ChangeOk(cs[k])
    ensures ParseFiles(RenderChanges(cs)) == Some(PatchesOf(cs))
    decreases |cs|
  {
    if cs != [] {
      var c, rest := cs[0], RenderChanges(cs[1..]);
      assert ChangeOk(c);
      NoHunkFollows(cs[1..]);
      HunksOfNlTexts(c.script.hunks, c.script.tail);
      ParseHunksOf(c.script.hunks, 0, 0, rest);
      FileText(c.path, RenderHunks(c.script.hunks, 0, 0), rest);
      ParseFileStep(c.path, RenderHunks(c.script.hunks, 0, 0) + rest, PatchHunks(c.script.hunks, 0, 0), rest);
      hide RenderFileHead, RenderHunks, ParseFiles, ParseHunks, OldLines, NewLines;
      ParseFilesOf(cs[1..]);
    }
  }

  /** The whole diff parses, and applying each patch to its original gives the current contents. */
  lemma {:induction false} DiffRoundTrips(cs: seq<Change>, k: nat)
    requires forall k | 0 <= k < |cs| :: ChangeOk(cs[k])
    requires k < |cs|
    ensures var files := ParseFiles(RenderChanges(cs));
            && files.Some? && |files.value| == |cs|
            && files.value[k].path == cs[k].path
            && Apply(cs[k].before, 0, 0, files.value[k].hunks) == Some(cs[k].after)
  {
    ParseFilesOf(cs);
    PatchesAt(cs, k);
    assert ChangeOk(cs[k]);
    ApplyOf(cs[k].before, 0, 0, cs[k].script.hunks, cs[k].script.tail);
  }

  lemma {:induction false} PatchesAt(cs: seq<Change>, k: nat)
    requires k < |cs|
    ensures |PatchesOf(cs)| == |cs|
    ensures PatchesOf(cs)[k] == FilePatch(cs[k].path, PatchHunks(cs[k].script.hunks, 0, 0))
    decreases |cs|
  {
    if |cs| > 1 {
      PatchesAt(cs[1..], if k == 0 then 0 else k - 1);
    }
  }
}
