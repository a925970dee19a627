/**
 Exactly which texts a printed diff is sure to give back: those in which every line ends in a newline
 and holds no other line boundary. Python also ends lines at form feeds and the like, which a patch
 tool does not, and difflib prints no marker for a missing final newline.
 */
module DiffExactness {
  import opened Basics
  import opened Text
  import opened UnifiedDiff
  import opened Diffing
  import opened DiffRoundTrip

  // --- newlines ---

  function Newlines(s: string): nat {
    if s == "" then 0 else (if s[0] == '\n' then 1 else 0) + Newlines(s[1..])
  }

  lemma {:induction false} NewlinesConcat(a: string, b: string)
    ensures Newlines(a + b) == Newlines(a) + Newlines(b)
  {
    if a == "" {
      assert a + b == b;
    } else {
      assert (a + b)[1..] == a[1..] + b;
      NewlinesConcat(a[1..], b);
    }
  }

  lemma {:induction false} JoinConcat(a: seq<string>, b: seq<string>)
    ensures Join(a + b) == Join(a) + Join(b)
  {
    if a == [] {
      assert a + b == b;
    } else {
      assert (a + b)[1..] == a[1..] + b;
      JoinConcat(a[1..], b);
      Assoc(a[0], Join(a[1..]), Join(b));
    }
  }

  /** A line, wherever Python ends it, holds one newline at most, and one exactly when it ends in it. */
  lemma {:induction false} NewlinesOfLine(l: string)
    requires IsLine(l)
    ensures Newlines(l) == if NlLine(l) then 1 else 0
  {
    if |l| == 1 {
      assert l[1..] == "" && l[..0] == "";
    } else if !IsBoundary(l[0]) {
      NewlinesOfLine(l[1..]);
      assert l[..|l| - 1] == [l[0]] + l[1..][..|l| - 2];
    } else {
      assert l == "\r\n";
      assert l[1..] == "\n" && l[1..][1..] == "" && l[..1] == "\r";
    }
  }

  /** A text has as many newlines as lines exactly when all of them end in one. */
  lemma {:induction false} NewlinesOfLines(ls: seq<string>)
    requires forall i | 0 <= i < |ls| :: IsLine(ls[i])
    ensures Newlines(Join(ls)) <= |ls|
    ensures Newlines(Join(ls)) == |ls| <==> NlText(ls)
  {
    if ls != [] {
      NewlinesConcat(ls[0], Join(ls[1..]));
      NewlinesOfLine(ls[0]);
      NewlinesOfLines(ls[1..]);
      assert NlText(ls) <==> NlLine(ls[0]) && NlText(ls[1..]) by {
        assert forall i | 0 < i < |ls| :: ls[i] == ls[1..][i - 1];
      }
    }
  }

  lemma {:induction false} NewlinesOfNlLine(l: string)
    requires NlLine(l)
    ensures Newlines(l) == 1
  {
    if |l| == 1 {
      assert l[1..] == "";
    } else {
      assert l[0] == l[..|l| - 1][0];
      assert l[1..][..|l| - 2] == l[..|l| - 1][1..];
      NewlinesOfNlLine(l[1..]);
    }
  }

  lemma {:induction false} NewlinesOfNlText(ls: seq<string>)
    requires NlText(ls)
    ensures Newlines(Join(ls)) == |ls|
  {
    if ls != [] {
      assert NlText(ls[1..]);
      NewlinesConcat(ls[0], Join(ls[1..]));
      NewlinesOfNlLine(ls[0]);
      NewlinesOfNlText(ls[1..]);
    }
  }

  /** Cutting joined newline-terminated lines gives them back. */
  lemma {:induction false} NlLinesOfJoin(ls: seq<string>)
    requires NlText(ls)
    ensures NlLines(Join(ls)) == ls
  {
    if ls != [] {
      assert NlLine(ls[0]) && NlText(ls[1..]);
      TakeLineOf(ls[0], Join(ls[1..]));
      NlLinesOfJoin(ls[1..]);
    }
  }

  lemma {:induction false} JoinNlLines(s: string)
    ensures Join(NlLines(s)) == s
    decreases |s|
  {
    if s != "" && TakeLine(s).Some? {
      JoinNlLines(TakeLine(s).value.1);
      TakenParts(s);
    }
  }

  lemma {:induction false} TakenParts(s: string)
    requires TakeLine(s).Some?
    ensures NlLine(TakeLine(s).value.0) && TakeLine(s).value.0 + TakeLine(s).value.1 == s
  {
    if s[0] != '\n' {
      TakenParts(s[1..]);
      var (l, rest) := TakeLine(s[1..]).value;
      assert ([s[0]] + l)[..|l|] == [s[0]] + l[..|l| - 1];
      assert ([s[0]] + l) + rest == [s[0]] + (l + rest);
    }
  }

  // --- what reading a body proves about it ---

  lemma NlTextCons(l: string, ls: seq<string>)
    requires NlLine(l) && NlText(ls)
    ensures NlText([l] + ls)
  {
  }

  lemma {:induction false} LinesOfOps(ops: seq<Op>)
    requires NlOps(ops)
    ensures NlText(OldOf(ops)) && NlText(NewOf(ops))
    decreases |ops|
  {
    if ops != [] {
      var (o, n) := (OldOf(ops[1..]), NewOf(ops[1..]));
      assert NlLine(ops[0].line) && NlOps(ops[1..]);
      assert OldOf(ops) == if ops[0].Add? then [] + o else [ops[0].line] + o;
      assert NewOf(ops) == if ops[0].Del? then [] + n else [ops[0].line] + n;
      assert [] + o == o && [] + n == n;
      hide NlLine, NlText, NlOps, OldOf, NewOf;
      LinesOfOps(ops[1..]);
      NlTextCons(ops[0].line, o);
      NlTextCons(ops[0].line, n);
    }
  }

  /** Whatever body is read, it has the lines its header asks for, each with its newline. */
  lemma {:induction false} BodyIsLines(s: string, n: nat, m: nat)
    requires ParseBody(s, n, m).Some?
    ensures var ops := ParseBody(s, n, m).value.0; NlOps(ops) && |OldOf(ops)| == n && |NewOf(ops)| == m
    decreases |s|
  {
    if n != 0 || m != 0 {
      TakenParts(s[1..]);
      var rest := TakeLine(s[1..]).value.1;
      if s[0] == ' ' && n > 0 && m > 0 {
        BodyIsLines(rest, n - 1, m - 1);
      } else if s[0] == '-' && n > 0 {
        BodyIsLines(rest, n - 1, m);
      } else {
        BodyIsLines(rest, n, m - 1);
      }
    }
  }

  // --- the script that prints both files whole ---

  function Dels(ls: seq<string>): (ops: seq<Op>)
    ensures |ops| == |ls| && forall i | 0 <= i < |ls| :: ops[i] == Del(ls[i])
  {
    seq(|ls|, i requires 0 <= i < |ls| => Del(ls[i]))
  }

  function Adds(ls: seq<string>): (ops: seq<Op>)
    ensures |ops| == |ls| && forall i | 0 <= i < |ls| :: ops[i] == Add(ls[i])
  {
    seq(|ls|, i requires 0 <= i < |ls| => Add(ls[i]))
  }

  function Whole(before: seq<string>, after: seq<string>): Script {
    Script([Hunk([], Dels(before) + Adds(after))], [])
  }

  lemma {:induction false} SidesOfAdds(after: seq<string>)
    ensures OldOf(Adds(after)) == [] && NewOf(Adds(after)) == after
  {
    if after != [] {
      SidesOfAdds(after[1..]);
      assert Adds(after)[1..] == Adds(after[1..]);
    }
  }

  lemma {:induction false} SidesOfWhole(before: seq<string>, after: seq<string>)
    ensures OldOf(Dels(before) + Adds(after)) == before && NewOf(Dels(before) + Adds(after)) == after
    decreases |before|
  {
    if before == [] {
      assert Dels(before) + Adds(after) == Adds(after);
      SidesOfAdds(after);
    } else {
      SidesOfWhole(before[1..], after);
      assert (Dels(before) + Adds(after))[1..] == Dels(before[1..]) + Adds(after);
      assert (Dels(before) + Adds(after))[0] == Del(before[0]);
    }
  }

  /** difflib may always print the whole of both files. */
  lemma WholeExplains(before: seq<string>, after: seq<string>)
    requires before != after
    ensures Explains(Whole(before, after), before, after)
  {
    SidesOfWhole(before, after);
    var ops := Dels(before) + Adds(after);
    assert !ops[0].Keep?;
    var hs := Whole(before, after).hunks;
    assert hs[1..] == [] && OldLines(hs[1..], []) == [] && NewLines(hs[1..], []) == [];
    assert [] + (before + []) == before && [] + (after + []) == after;
  }

  /** A difflib that prints both files whole. */
  function WholeFiles(): Differ {
    (before, after) => Whole(before, after)
  }

  lemma WholeFilesIsValid()
    ensures ValidDiffer(WholeFiles())
  {
    forall before: seq<string>, after: seq<string> | before != after
      ensures Explains(WholeFiles()(before, after), before, after)
    {
      WholeExplains(before, after);
    }
  }

  // --- one file ---

  /** A change whose contents are cut into lines the way Python cuts them. */
  predicate Plausible(c: Change) {
    && '\n' !in c.path && c.before != c.after
    && (forall i | 0 <= i < |c.before| :: IsLine(c.before[i]))
    && forall i | 0 <= i < |c.after| :: IsLine(c.after[i])
  }

  /** Applied to the original text, cut at its newlines, the hunks give the new text. */
  predicate Gives(c: Change, hunks: seq<PatchHunk>) {
    var lines := Apply(NlLines(Join(c.before)), 0, 0, hunks);
    lines.Some? && Join(lines.value) == Join(c.after)
  }

  predicate NewlineTerminated(c: Change) {
    NlText(c.before) && NlText(c.after)
  }

  /** A hunk printing both files whole applies as it should only if every line of both ends in a newline. */
  lemma {:induction false} WholeHunkNeedsNewlines(c: Change, ops: seq<Op>, more: seq<PatchHunk>)
    requires Plausible(c) && NlOps(ops) && |NewOf(ops)| == |c.after|
    requires Gives(c, [PatchHunk(Header(0, |c.before|, 0, |c.after|), ops)] + more)
    ensures NewlineTerminated(c)
  {
    var (text, a) := (Join(c.before), NlLines(Join(c.before)));
    var all := [PatchHunk(Header(0, |c.before|, 0, |c.after|), ops)] + more;
    assert all[0].ops == ops && all[1..] == more;
    var rest := Apply(a, |c.before|, |c.after|, more).value;
    assert OldOf(ops) == a[0..|c.before|];
    assert a[0..0] + NewOf(ops) + rest == NewOf(ops) + rest;
    assert a == a[0..|c.before|] + a[|c.before|..];
    LinesOfOps(ops);
    hide Apply, OldOf, NewOf, NlOps;
    JoinNlLines(text);
    AtLeast(OldOf(ops), a[|c.before|..]);
    NewlinesOfLines(c.before);
    AtLeast(NewOf(ops), rest);
    NewlinesOfLines(c.after);
  }

  lemma {:induction false} AtLeast(ls: seq<string>, more: seq<string>)
    requires NlText(ls)
    ensures Newlines(Join(ls + more)) >= |ls|
  {
    JoinConcat(ls, more);
    NewlinesConcat(Join(ls), Join(more));
    NewlinesOfNlText(ls);
  }

  /** What the reader makes of a file printed whole. */
  lemma WholeIsRead(c: Change, rest: string, ps: seq<PatchHunk>, next: string) returns (ops: seq<Op>, more: seq<PatchHunk>)
    requires ParseHunks(RenderHunks(Whole(c.before, c.after).hunks, 0, 0) + rest) == Some((ps, next))
    ensures ps == [PatchHunk(Header(0, |c.before|, 0, |c.after|), ops)] + more
    ensures NlOps(ops) && |NewOf(ops)| == |c.after|
  {
    var hs := Whole(c.before, c.after).hunks;
    var at := HeaderOf(hs[0], 0, 0);
    SidesOfWhole(c.before, c.after);
    assert at == Header(0, |c.before|, 0, |c.after|);
    var body := RenderOps(hs[0].ops) + (RenderHunks(hs[1..], NextOld(hs[0], 0), NextNew(hs[0], 0)) + rest);
    hide RenderHunks, RenderHeader, ReadHeader, StartsWith, RenderOps, OldOf, NewOf, Whole;
    RenderHunksStep(hs, 0, 0, rest);
    HeaderStarts(at.i, at.n, at.j, at.m, body);
    ReadHeaderOf(at.i, at.n, at.j, at.m, body);
    var parsed := ParseBody(body, at.n, at.m).value;
    ops := parsed.0;
    more := ParseHunks(parsed.1).value.0;
    BodyIsLines(body, at.n, at.m);
  }

  lemma {:induction false} WholeNeedsNewlines(c: Change, rest: string, ps: seq<PatchHunk>, next: string)
    requires Plausible(c)
    requires ParseHunks(RenderHunks(Whole(c.before, c.after).hunks, 0, 0) + rest) == Some((ps, next))
    requires Gives(c, ps)
    ensures NewlineTerminated(c)
  {
    hide ParseHunks, RenderHunks, Gives, Plausible, NlOps;
    var ops, more := WholeIsRead(c, rest, ps, next);
    WholeHunkNeedsNewlines(c, ops, more);
  }

  /** Newline-terminated texts come back, whatever the script. */
  lemma {:induction false} TerminatedIsGiven(c: Change, rest: string)
    requires Explains(c.script, c.before, c.after) && NewlineTerminated(c) && !StartsWith(rest, "@@ -")
    ensures var hunks := ParseHunks(RenderHunks(c.script.hunks, 0, 0) + rest);
            hunks == Some((PatchHunks(c.script.hunks, 0, 0), rest)) && hunks.value.0 != [] && Gives(c, hunks.value.0)
  {
    var (hs, tail) := (c.script.hunks, c.script.tail);
    assert c.before[0..] == c.before;
    hide RenderHunks, ParseHunks, OldLines, NewLines, StartsWith, Shaped, Apply;
    HunksOfNlTexts(hs, tail);
    ParseHunksOf(hs, 0, 0, rest);
    ApplyOf(c.before, 0, 0, hs, tail);
    NlLinesOfJoin(c.before);
  }

  // --- whole diffs ---

  /** The diff, read and applied to the originals, gives every new text. */
  predicate Restores(files: seq<FilePatch>, cs: seq<Change>) {
    |files| == |cs| && forall k | 0 <= k < |cs| :: files[k].path == cs[k].path && Gives(cs[k], files[k].hunks)
  }

  ghost predicate Recovered(text: string, cs: seq<Change>) {
    ParseFiles(text).Some? && Restores(ParseFiles(text).value, cs)
  }

  /** The rest of reading a file patch, once its hunks have been read. */
  function Continued(path: string, parsed: Option<(seq<PatchHunk>, string)>): Option<seq<FilePatch>> {
    var (hs, next) :- parsed;
    if hs == [] then None
    else
      var files :- ParseFiles(next);
      Some([FilePatch(path, hs)] + files)
  }

  lemma {:induction false} FileHead(path: string, text: string)
    requires '\n' !in path
    ensures ParseFiles("--- a/" + ((path + "\n") + ("+++ b/" + ((path + "\n") + text))))
         == Continued(path, ParseHunks(text))
  {
    var line := path + "\n";
    assert line[..|line| - 1] == path;
    StartsWithOwn("--- a/", line + ("+++ b/" + (line + text)));
    TakeLineOf(line, "+++ b/" + (line + text));
    StartsWithOwn("+++ b/", line + text);
    TakeLineOf(line, text);
    hide TakeLine, StartsWith, ParseHunks;
  }

  lemma {:induction false} FirstFile(cs: seq<Change>)
    requires cs != [] && '\n' !in cs[0].path
    ensures var text := RenderHunks(cs[0].script.hunks, 0, 0) + RenderChanges(cs[1..]);
            ParseFiles(RenderChanges(cs)) == Continued(cs[0].path, ParseHunks(text))
  {
    var (c, rest) := (cs[0], RenderChanges(cs[1..]));
    hide RenderFileHead, RenderHunks, ParseFiles, ParseHunks;
    FileText(c.path, RenderHunks(c.script.hunks, 0, 0), rest);
    FileHead(c.path, RenderHunks(c.script.hunks, 0, 0) + rest);
  }

  lemma {:induction false} RestoresFirst(p: FilePatch, files: seq<FilePatch>, cs: seq<Change>)
    requires cs != []
    ensures Restores([p] + files, cs) <==> p.path == cs[0].path && Gives(cs[0], p.hunks) && Restores(files, cs[1..])
  {
    hide Gives;
    var all := [p] + files;
    assert all[0] == p;
    if Restores(all, cs) {
      forall k | 0 <= k < |cs[1..]| ensures files[k].path == cs[1..][k].path && Gives(cs[1..][k], files[k].hunks) {
        assert all[k + 1] == files[k] && cs[k + 1] == cs[1..][k];
      }
    }
    if |files| == |cs[1..]| { assert forall k | 0 < k < |cs| :: all[k] == files[k - 1] && cs[k] == cs[1..][k - 1]; }
  }

  /** One file, then the others. */
  lemma {:induction false} RecoveredStep(cs: seq<Change>)
    requires cs != [] && '\n' !in cs[0].path
    requires NewlineTerminated(cs[0]) && Explains(cs[0].script, cs[0].before, cs[0].after)
    ensures Recovered(RenderChanges(cs), cs) <==> Recovered(RenderChanges(cs[1..]), cs[1..])
  {
    var (c, rest) := (cs[0], RenderChanges(cs[1..]));
    NoHunkFollows(cs[1..]);
    TerminatedIsGiven(c, rest);
    FirstFile(cs);
    hide RenderChanges, RenderHunks, ParseHunks, ParseFiles, Restores, StartsWith, Gives, PatchHunks, Explains, NewlineTerminated;
    if ParseFiles(rest).Some? {
      RestoresFirst(FilePatch(c.path, PatchHunks(c.script.hunks, 0, 0)), ParseFiles(rest).value, cs);
    }
  }

  /** Printed whole, the first file comes back only if it is newline-terminated. */
  lemma {:induction false} FirstNeedsNewlines(cs: seq<Change>)
    requires cs != [] && Plausible(cs[0]) && cs[0].script == Whole(cs[0].before, cs[0].after)
    requires Recovered(RenderChanges(cs), cs)
    ensures NewlineTerminated(cs[0])
  {
    var (c, rest) := (cs[0], RenderChanges(cs[1..]));
    FirstFile(cs);
    var hunks := ParseHunks(RenderHunks(c.script.hunks, 0, 0) + rest);
    var files := ParseFiles(RenderChanges(cs)).value;
    assert files[0].path == c.path && Gives(c, files[0].hunks);
    hide RenderChanges, RenderHunks, ParseHunks, Restores, Gives, Plausible, Whole;
    WholeNeedsNewlines(c, rest, hunks.value.0, hunks.value.1);
  }

  lemma PlausibleMeans(c: Change)
    requires Plausible(c)
    ensures '\n' !in c.path && c.before != c.after
  {
  }

  lemma {:induction false} WholeRecoveredNeedsNewlines(cs: seq<Change>)
    requires forall k | 0 <= k < |cs| :: Plausible(cs[k]) && cs[k].script == Whole(cs[k].before, cs[k].after)
    requires Recovered(RenderChanges(cs), cs)
    ensures forall k | 0 <= k < |cs| :: NewlineTerminated(cs[k])
    decreases |cs|
  {
    hide *;
    if cs != [] {
      var (c, rest) := (cs[0], cs[1..]);
      PlausibleMeans(c);
      FirstNeedsNewlines(cs);
      WholeExplains(c.before, c.after);
      RecoveredStep(cs);
      assert forall k | 0 <= k < |rest| :: rest[k] == cs[k + 1];
      WholeRecoveredNeedsNewlines(rest);
      assert forall k | 0 < k < |cs| :: cs[k] == rest[k - 1];
    }
  }

  lemma {:induction false} TerminatedIsRecovered(cs: seq<Change>)
    requires forall k | 0 <= k < |cs| ::
               '\n' !in cs[k].path && Explains(cs[k].script, cs[k].before, cs[k].after) && NewlineTerminated(cs[k])
    ensures Recovered(RenderChanges(cs), cs)
    decreases |cs|
  {
    if cs != [] {
      assert '\n' !in cs[0].path && Explains(cs[0].script, cs[0].before, cs[0].after) && NewlineTerminated(cs[0]);
      RecoveredStep(cs);
      hide Recovered, NewlineTerminated, RenderChanges, Explains;
      assert forall k | 0 <= k < |cs[1..]| :: cs[1..][k] == cs[k + 1];
      TerminatedIsRecovered(cs[1..]);
    }
  }

  // --- a text without a final newline ---

  /** Between two different one-line texts there is one script only. */
  lemma OneScript(sc: Script, x: string, y: string)
    requires x != y && Explains(sc, [x], [y])
    ensures sc == Whole([x], [y])
  {
    var h := sc.hunks[0];
    var (old_, new_) := (OldLines(sc.hunks[1..], sc.tail), NewLines(sc.hunks[1..], sc.tail));
    assert h.gap + (OldOf(h.ops) + old_) == [x] && h.gap + (NewOf(h.ops) + new_) == [y];
    assert HasChange(h.ops);
    HeadOf(h.gap, OldOf(h.ops) + old_, x);
    HeadOf(h.gap, NewOf(h.ops) + new_, y);
    SomeSide(h.ops);
    LaterLines(sc);
    assert OldOf(h.ops) == [x] && NewOf(h.ops) == [y];
    OneEach(h.ops, x, y);
    assert h.ops == Dels([x]) + Adds([y]);
    assert sc.hunks == [h];
  }

  lemma HeadOf(gap: seq<string>, rest: seq<string>, x: string)
    requires gap + rest == [x]
    ensures gap != [] ==> gap[0] == x
  {
    if gap != [] { assert (gap + rest)[0] == gap[0]; }
  }

  lemma {:induction false} SomeSide(ops: seq<Op>)
    requires ops != []
    ensures OldOf(ops) != [] || NewOf(ops) != []
  {
  }

  /** Lines after the first hunk are lines of both texts. */
  lemma LaterLines(sc: Script)
    requires sc.hunks != [] && Shaped(sc.hunks)
    ensures var (old_, new_) := (OldLines(sc.hunks[1..], sc.tail), NewLines(sc.hunks[1..], sc.tail));
            || (|sc.hunks| == 1 && sc.tail == [] && old_ == [] && new_ == [])
            || (old_ != [] && new_ != [] && old_[0] == new_[0])
  {
    var more := sc.hunks[1..];
    if more == [] {
    } else {
      assert more[0] == sc.hunks[1];
      assert OldLines(more, sc.tail)[0] == more[0].gap[0] == NewLines(more, sc.tail)[0];
    }
  }

  lemma {:induction false} SidesAtLeast(ops: seq<Op>)
    ensures |OldOf(ops)| + |NewOf(ops)| >= |ops|
  {
    if ops != [] { SidesAtLeast(ops[1..]); }
  }

  lemma SidesOfOne(a: Op)
    ensures OldOf([a]) == if a.Add? then [] else [a.line]
    ensures NewOf([a]) == if a.Del? then [] else [a.line]
  {
    assert [a][1..] == [];
  }

  lemma SidesOfTwo(a: Op, b: Op)
    ensures OldOf([a, b]) == (if a.Add? then [] else [a.line]) + if b.Add? then [] else [b.line]
    ensures NewOf([a, b]) == (if a.Del? then [] else [a.line]) + if b.Del? then [] else [b.line]
  {
    assert [a, b][1..] == [b];
    SidesOfOne(b);
  }

  /** Two parts that make one line. */
  lemma OneOf(a: seq<string>, b: seq<string>, x: string)
    requires a + b == [x]
    ensures (a == [x] && b == []) || (a == [] && b == [x])
  {
    assert |a| + |b| == 1;
    if a == [] { assert a + b == b; } else { assert (a + b)[0] == a[0] && a == [x]; }
  }

  lemma {:induction false} OneEach(ops: seq<Op>, x: string, y: string)
    requires OldOf(ops) == [x] && NewOf(ops) == [y] && x != y && Ordered(ops)
    ensures ops == [Del(x), Add(y)]
  {
    SidesAtLeast(ops);
    assert ops != [];
    var a := ops[0];
    assert |ops| == 1 ==> ops == [a];
    SidesOfOne(a);
    if |ops| > 1 {
      var b := ops[0 + 1];
      assert ops == [a, b];
      SidesOfTwo(a, b);
      OneOf(if a.Add? then [] else [a.line], if b.Add? then [] else [b.line], x);
      OneOf(if a.Del? then [] else [a.line], if b.Del? then [] else [b.line], y);
    }
  }

  lemma LastLineNeedsNewline(c: Change)
    requires c.path == "model.sql" && c.before == ["a\n"] && c.after == ["b"]
    ensures Plausible(c) && !NewlineTerminated(c)
  {
    assert IsLine("a\n") && IsLine("b") by { assert "a\n"[1..] == "\n"; }
    assert !NlLine(c.after[0]);
  }

  /** A concrete loss: no script at all gives back a last line that lacks its newline. */
  lemma LastLineIsLost(sc: Script)
    requires Explains(sc, ["a\n"], ["b"])
    ensures var cs := [Change("model.sql", ["a\n"], ["b"], sc)]; !Recovered(RenderChanges(cs), cs)
  {
    var c := Change("model.sql", ["a\n"], ["b"], sc);
    OneScript(sc, "a\n", "b");
    LastLineNeedsNewline(c);
    hide *;
    assert [c][0] == c;
    if Recovered(RenderChanges([c]), [c]) { FirstNeedsNewlines([c]); }
  }
}
