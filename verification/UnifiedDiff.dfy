/** Unified diffs: what `difflib.unified_diff` prints for an edit script, and reading them back. */
module UnifiedDiff {
  import opened Basics
  import opened Text

  datatype Op = Keep(line: string) | Del(line: string) | Add(line: string)

  /** Old lines skipped since the previous hunk, then the hunk's own lines. */
  datatype Hunk = Hunk(gap: seq<string>, ops: seq<Op>)

  /** An edit script between two files; `tail` follows the last hunk in both. */
  datatype Script = Script(hunks: seq<Hunk>, tail: seq<string>)

  function OldOf(ops: seq<Op>): seq<string> {
    if ops == [] then [] else (if ops[0].Add? then [] else [ops[0].line]) + OldOf(ops[1..])
  }

  function NewOf(ops: seq<Op>): seq<string> {
    if ops == [] then [] else (if ops[0].Del? then [] else [ops[0].line]) + NewOf(ops[1..])
  }

  function OldLines(hs: seq<Hunk>, tail: seq<string>): seq<string> {
    if hs == [] then tail else hs[0].gap + (OldOf(hs[0].ops) + OldLines(hs[1..], tail))
  }

  function NewLines(hs: seq<Hunk>, tail: seq<string>): seq<string> {
    if hs == [] then tail else hs[0].gap + (NewOf(hs[0].ops) + NewLines(hs[1..], tail))
  }

  /** Within a change, difflib prints the removed lines before the added ones. */
  predicate Ordered(ops: seq<Op>) {
    forall i | 0 <= i < |ops| - 1 :: !(ops[i].Add? && ops[i + 1].Del?)
  }

  predicate HasChange(ops: seq<Op>) {
    exists i | 0 <= i < |ops| :: !ops[i].Keep?
  }

  /** Hunks change something and are kept apart by lines they do not print. */
  predicate Shaped(hs: seq<Hunk>) {
    && (forall k | 0 <= k < |hs| :: Ordered(hs[k].ops) && HasChange(hs[k].ops))
    && forall k | 0 < k < |hs| :: hs[k].gap != []
  }

  /** A script difflib may choose to turn `before` into `after`. */
  predicate Explains(sc: Script, before: seq<string>, after: seq<string>) {
    && Shaped(sc.hunks) && sc.hunks != []
    && OldLines(sc.hunks, sc.tail) == before
    && NewLines(sc.hunks, sc.tail) == after
  }

  // --- printing ---

  function Tag(op: Op): char {
    match op case Keep(_) => ' ' case Del(_) => '-' case Add(_) => '+'
  }

  function RenderOps(ops: seq<Op>): string {
    if ops == [] then "" else [Tag(ops[0])] + ops[0].line + RenderOps(ops[1..])
  }

  /** `_format_range_unified` for `len` lines from the 0-based line `start`. */
  function RenderRange(start: nat, len: nat): string {
    if len == 1 then Decimal(start + 1)
    else Decimal(if len == 0 then start else start + 1) + "," + Decimal(len)
  }

  function RenderHeader(i: nat, n: nat, j: nat, m: nat): string {
    "@@ -" + (RenderRange(i, n) + (" +" + (RenderRange(j, m) + " @@\n")))
  }

  function RenderHunk(h: Hunk, i: nat, j: nat): string {
    RenderHeader(i + |h.gap|, |OldOf(h.ops)|, j + |h.gap|, |NewOf(h.ops)|) + RenderOps(h.ops)
  }

  /** The hunks of one file, `i` old and `j` new lines having gone before. */
  function RenderHunks(hs: seq<Hunk>, i: nat, j: nat): string {
    if hs == [] then ""
    else RenderHunk(hs[0], i, j)
         + RenderHunks(hs[1..], i + |hs[0].gap| + |OldOf(hs[0].ops)|, j + |hs[0].gap| + |NewOf(hs[0].ops)|)
  }

  function RenderFileHead(path: string): string {
    "--- a/" + (path + ("\n" + ("+++ b/" + (path + "\n"))))
  }

  function RenderFile(path: string, hs: seq<Hunk>): string {
    RenderFileHead(path) + RenderHunks(hs, 0, 0)
  }

  // --- reading hunk headers ---

  function Expect(s: string, prefix: string): (r: Option<string>)
    ensures r.Some? ==> |s| == |prefix| + |r.value|
  {
    if StartsWith(s, prefix) then Some(s[|prefix|..]) else None
  }

  /** A range: the 0-based line it starts at, its length, and the rest of the text. */
  function ReadRange(s: string): (r: Option<(nat, nat, string)>)
    ensures r.Some? ==> |r.value.2| <= |s|
  {
    var (shown, rest) :- ReadNumber(s);
    match Expect(rest, ",")
    case None => if shown == 0 then None else Some((shown - 1, 1, rest))
    case Some(after) =>
      var (len, rest') :- ReadNumber(after);
      if len == 0 then Some((shown, 0, rest'))
      else if shown == 0 then None
      else Some((shown - 1, len, rest'))
  }

  datatype Header = Header(i: nat, n: nat, j: nat, m: nat)

  function ReadHeader(s: string): (r: Option<(Header, string)>)
    ensures r.Some? ==> |r.value.1| < |s|
  {
    var s1 :- Expect(s, "@@ -");
    var (i, n, s2) :- ReadRange(s1);
    var s3 :- Expect(s2, " +");
    var (j, m, s4) :- ReadRange(s3);
    var s5 :- Expect(s4, " @@\n");
    Some((Header(i, n, j, m), s5))
  }

  // --- one printed element at a time ---

  lemma {:induction false} RenderOpsStep(ops: seq<Op>, rest: string)
    requires ops != []
    ensures RenderOps(ops) + rest == [Tag(ops[0])] + (ops[0].line + (RenderOps(ops[1..]) + rest))
    ensures |OldOf(ops)| == |OldOf(ops[1..])| + if ops[0].Add? then 0 else 1
    ensures |NewOf(ops)| == |NewOf(ops[1..])| + if ops[0].Del? then 0 else 1
  {
  }

  /** Where the next hunk stands: old and new lines gone by. */
  function NextOld(h: Hunk, i: nat): nat { i + |h.gap| + |OldOf(h.ops)| }

  function NextNew(h: Hunk, j: nat): nat { j + |h.gap| + |NewOf(h.ops)| }

  function HeaderOf(h: Hunk, i: nat, j: nat): Header {
    Header(i + |h.gap|, |OldOf(h.ops)|, j + |h.gap|, |NewOf(h.ops)|)
  }

  lemma {:induction false} RenderHunksStep(hs: seq<Hunk>, i: nat, j: nat, rest: string)
    requires hs != []
    ensures var h, at := hs[0], HeaderOf(hs[0], i, j);
            RenderHunks(hs, i, j) + rest
            == RenderHeader(at.i, at.n, at.j, at.m)
               + (RenderOps(h.ops) + (RenderHunks(hs[1..], NextOld(h, i), NextNew(h, j)) + rest))
  {
    hide RenderHeader, RenderOps, OldOf, NewOf;
    var h, at := hs[0], HeaderOf(hs[0], i, j);
    Assoc4(RenderHeader(at.i, at.n, at.j, at.m), RenderOps(h.ops),
           RenderHunks(hs[1..], NextOld(h, i), NextNew(h, j)), rest);
  }

  lemma HeaderStarts(i: nat, n: nat, j: nat, m: nat, rest: string)
    ensures StartsWith(RenderHeader(i, n, j, m) + rest, "@@ -")
  {
    hide RenderRange;
    var r := RenderRange(i, n) + (" +" + (RenderRange(j, m) + " @@\n"));
    Assoc("@@ -", r, rest);
    StartsWithOwn("@@ -", r + rest);
  }

  lemma ReadRangeOf(start: nat, len: nat, rest: string)
    requires rest != "" && rest[0] == ' '
    ensures ReadRange(RenderRange(start, len) + rest) == Some((start, len, rest))
  {
    if len == 1 {
      ReadNumberOf(start + 1, rest);
    } else {
      var shown := if len == 0 then start else start + 1;
      var after := Decimal(len) + rest;
      assert RenderRange(start, len) + rest == Decimal(shown) + ("," + after);
      ReadNumberOf(shown, "," + after);
      StartsWithOwn(",", after);
      ReadNumberOf(len, rest);
    }
  }

  lemma Nested(a: string, b: string, c: string, d: string, e: string, rest: string)
    ensures (a + (b + (c + (d + e)))) + rest == a + (b + (c + (d + (e + rest))))
  {
    Assoc(d, e, rest);
    Assoc(c, d + e, rest);
    Assoc(b, c + (d + e), rest);
    Assoc(a, b + (c + (d + e)), rest);
  }

  lemma ReadHeaderOf(i: nat, n: nat, j: nat, m: nat, rest: string)
    ensures ReadHeader(RenderHeader(i, n, j, m) + rest) == Some((Header(i, n, j, m), rest))
  {
    hide RenderRange, ReadRange, StartsWith;
    var t4 := " @@\n" + rest;
    var t3 := RenderRange(j, m) + t4;
    var t2 := " +" + t3;
    var t1 := RenderRange(i, n) + t2;
    Nested("@@ -", RenderRange(i, n), " +", RenderRange(j, m), " @@\n", rest);
    StartsWithOwn("@@ -", t1);
    ReadRangeOf(i, n, t2);
    StartsWithOwn(" +", t3);
    ReadRangeOf(j, m, t4);
    StartsWithOwn(" @@\n", rest);
  }
}
