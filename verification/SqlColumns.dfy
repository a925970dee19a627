/** The output columns of a model's final SELECT, and whether an edit changes them. */
module SqlColumns {
  import opened Basics
  import opened Text
  import opened Diffing

  // --- splitting a SELECT list ---

  function Depth(c: char, depth: int): int {
    if c == '(' then depth + 1 else if c == ')' then depth - 1 else depth
  }

  /** The parts of `s`, scanned with `cur` already collected at parenthesis depth `depth`. */
  function SplitFrom(s: string, cur: string, depth: int): seq<string> {
    if s == "" then if Blank(cur) then [] else [cur]
    else
      var d := Depth(s[0], depth);
      if s[0] == ',' && d == 0 then [cur] + SplitFrom(s[1..], "", d)
      else SplitFrom(s[1..], cur + [s[0]], d)
  }

  function SplitTopLevel(s: string): seq<string> {
    SplitFrom(s, "", 0)
  }

  method SplitTopLevelParts(s: string) returns (out: seq<string>)
    ensures out == SplitTopLevel(s)
  {
    out := [];
    var cur := "";
    var depth := 0;
    for i := 0 to |s|
      invariant SplitTopLevel(s) == out + SplitFrom(s[i..], cur, depth)
    {
      var ch := s[i];
      assert s[i..][0] == ch && s[i..][1..] == s[i + 1..];
      if ch == '(' { depth := depth + 1; } else if ch == ')' { depth := depth - 1; }
      if ch == ',' && depth == 0 {
        out := out + [cur];
        cur := "";
      } else {
        cur := cur + [ch];
      }
    }
    if !Blank(cur) { out := out + [cur]; }
  }

  /** Scanning `p` from `depth` meets no comma at depth 0 and ends at depth 0. */
  predicate Flat(p: string, depth: int) {
    if p == "" then depth == 0
    else var d := Depth(p[0], depth); !(p[0] == ',' && d == 0) && Flat(p[1..], d)
  }

  function JoinComma(ps: seq<string>): string
    requires ps != []
  {
    if |ps| == 1 then ps[0] else ps[0] + "," + JoinComma(ps[1..])
  }

  lemma {:induction false} SplitFlat(p: string, rest: string, cur: string, depth: int)
    requires Flat(p, depth)
    ensures SplitFrom(p + rest, cur, depth) == SplitFrom(rest, cur + p, 0)
    decreases |p|
  {
    if p == "" {
      assert p + rest == rest && cur + p == cur;
    } else {
      assert (p + rest)[0] == p[0] && (p + rest)[1..] == p[1..] + rest;
      SplitFlat(p[1..], rest, cur + [p[0]], Depth(p[0], depth));
      assert cur + [p[0]] + p[1..] == cur + p;
    }
  }

  /** Splitting undoes joining: flat parts come back as they were, but for a blank one at the end, which is dropped. */
  lemma {:induction false} SplitInvertsJoin(ps: seq<string>)
    requires ps != [] && forall k | 0 <= k < |ps| :: Flat(ps[k], 0)
    ensures SplitTopLevel(JoinComma(ps)) == if Blank(ps[|ps| - 1]) then ps[..|ps| - 1] else ps
    decreases |ps|
  {
    if |ps| == 1 {
      SplitFlat(ps[0], "", "", 0);
      assert ps[0] + "" == ps[0] && "" + ps[0] == ps[0];
    } else {
      var rest := JoinComma(ps[1..]);
      SplitFlat(ps[0], "," + rest, "", 0);
      assert ps[0] + "," + rest == ps[0] + ("," + rest) && "" + ps[0] == ps[0];
      assert ("," + rest)[1..] == rest;
      SplitInvertsJoin(ps[1..]);
      assert ps == [ps[0]] + ps[1..];
      assert ps[..|ps| - 1] == [ps[0]] + ps[1..][..|ps| - 2];
    }
  }

  predicate NoPunctuation(s: string) {
    forall i | 0 <= i < |s| :: s[i] != ',' && s[i] != '(' && s[i] != ')'
  }

  lemma {:induction false} PlainIsFlat(s: string)
    requires NoPunctuation(s)
    ensures Flat(s, 0)
  {
    if s != "" { PlainIsFlat(s[1..]); }
  }

  lemma {:induction false} FlatAround(a: string, rest: string, depth: int)
    requires NoPunctuation(a)
    ensures Flat(a + rest, depth) == Flat(rest, depth)
    decreases |a|
  {
    if a == "" {
      assert a + rest == rest;
    } else {
      assert (a + rest)[1..] == a[1..] + rest;
      FlatAround(a[1..], rest, depth);
    }
  }

  lemma {:induction false} InsideParentheses(inner: string, rest: string)
    requires forall i | 0 <= i < |inner| :: inner[i] != '(' && inner[i] != ')'
    ensures Flat(inner + ")" + rest, 1) == Flat(rest, 0)
    decreases |inner|
  {
    var s := inner + ")" + rest;
    if inner == "" {
      assert s[1..] == rest;
    } else {
      assert s[1..] == inner[1..] + ")" + rest;
      InsideParentheses(inner[1..], rest);
    }
  }

  /** Commas between parentheses do not separate: a call with any arguments is one part. */
  lemma {:induction false} CallIsOnePart(before: string, inner: string, after: string)
    requires NoPunctuation(before) && NoPunctuation(after)
    requires forall i | 0 <= i < |inner| :: inner[i] != '(' && inner[i] != ')'
    ensures Flat(before + ("(" + (inner + ")" + after)), 0)
    ensures SplitTopLevel(before + ("(" + (inner + ")" + after))) == [before + ("(" + (inner + ")" + after))]
  {
    var s := before + ("(" + (inner + ")" + after));
    FlatAround(before, "(" + (inner + ")" + after), 0);
    assert ("(" + (inner + ")" + after))[1..] == inner + ")" + after;
    InsideParentheses(inner, after);
    PlainIsFlat(after);
    assert s[|before|] == '(' && !IsSpace('(');
    SplitInvertsJoin([s]);
  }

  // --- the name a part gives its column ---

  predicate IsWord(c: char) { IsIdStart(c) || IsDigit(c) }

  predicate IsIdentifier(s: string) {
    s != "" && IsIdStart(s[0]) && forall i | 0 <= i < |s| :: IsWord(s[i])
  }

  /** `s.rfind(pat)` among the positions below `upto` */
  function FindLast(s: string, pat: string, upto: nat): (r: Option<nat>)
    ensures r.Some? ==> r.value < upto && OccursAt(s, pat, r.value)
    ensures r.Some? ==> forall k | r.value < k < upto :: !OccursAt(s, pat, k)
    ensures r.None? ==> forall k | 0 <= k < upto :: !OccursAt(s, pat, k)
  {
    if upto == 0 then None
    else if OccursAt(s, pat, upto - 1) then Some(upto - 1)
    else FindLast(s, pat, upto - 1)
  }

  function LastToken(s: string, sep: char -> bool): string {
    if s == "" || sep(s[|s| - 1]) then "" else LastToken(s[..|s| - 1], sep) + [s[|s| - 1]]
  }

  function StripQuotesLeft(s: string): string {
    if s == "" || s[0] != '"' then s else StripQuotesLeft(s[1..])
  }

  function StripQuotesRight(s: string): string {
    if s == "" || s[|s| - 1] != '"' then s else StripQuotesRight(s[..|s| - 1])
  }

  function StripQuotes(s: string): string {
    StripQuotesRight(StripQuotesLeft(s))
  }

  /** The output name of one stripped SELECT-list part; none when it cannot be told. */
  function OutputName(expr: string): Option<string> {
    if expr == "" || expr == "*" then None
    else
      match FindLast(Lower(expr), " as ", |expr|)
      case Some(i) => Some(Strip(StripQuotes(Strip(expr[i + 4..]))))
      case None =>
        var token := StripQuotes(LastToken(LastToken(expr, c => IsSpace(c)), c => c == '.'));
        if IsIdentifier(token) then Some(token) else None
  }

  function Names(parts: seq<string>): Option<seq<string>> {
    if parts == [] then Some([])
    else
      var n :- OutputName(Strip(parts[0]));
      var ns :- Names(parts[1..]);
      Some([n] + ns)
  }

  /** The columns are told exactly when every part's is, each in its place. */
  lemma {:induction false} NamesInOrder(parts: seq<string>)
    ensures Names(parts).Some? <==> forall k | 0 <= k < |parts| :: OutputName(Strip(parts[k])).Some?
    ensures Names(parts).Some? ==>
              && |Names(parts).value| == |parts|
              && forall k | 0 <= k < |parts| :: OutputName(Strip(parts[k])) == Some(Names(parts).value[k])
    decreases |parts|
  {
    hide OutputName, Strip;
    if parts != [] {
      NamesInOrder(parts[1..]);
      assert forall k | 0 <= k < |parts| :: k > 0 ==> parts[k] == parts[1..][k - 1];
    }
  }

  // --- the final SELECT ---

  /** `\bfrom\b` at `i` */
  predicate FromAt(s: string, i: nat) {
    && OccursAt(s, "from", i)
    && (i == 0 || !IsWord(s[i - 1]))
    && (i + 4 == |s| || !IsWord(s[i + 4]))
  }

  function FindFrom(s: string, at: nat): (r: Option<nat>)
    ensures r.Some? ==> at <= r.value && FromAt(s, r.value) && forall k | at <= k < r.value :: !FromAt(s, k)
    ensures r.None? ==> forall k: nat | at <= k :: !FromAt(s, k)
    decreases |s| - at
  {
    if at + 4 > |s| then None else if FromAt(s, at) then Some(at) else FindFrom(s, at + 1)
  }

  /** The text between the last `select` and the first word `from` after it. */
  function SelectList(text: string): Option<string> {
    var lower := Lower(text);
    var sel :- FindLast(lower, "select", |text|);
    var m :- FindFrom(lower[sel + 6..], 0);
    Some(text[sel + 6..sel + 6 + m])
  }

  /** `_final_select_columns`, on text whose Jinja and comments are already stripped. */
  function FinalSelectColumns(text: string): Option<seq<string>> {
    var list :- SelectList(text);
    Names(SplitTopLevel(list))
  }

  method FinalColumns(text: string) returns (cols: Option<seq<string>>)
    ensures cols == FinalSelectColumns(text)
  {
    var list := SelectList(text);
    if list.None? { return None; }
    var parts := SplitTopLevelParts(list.value);
    cols := NamesOf(parts);
  }

  method NamesOf(parts: seq<string>) returns (cols: Option<seq<string>>)
    ensures cols == Names(parts)
  {
    hide OutputName, Strip;
    var names: seq<string> := [];
    assert parts[0..] == parts;
    assert forall ns: seq<string> :: names + ns == ns;
    for i := 0 to |parts|
      invariant Names(parts) == match Names(parts[i..]) case None => None case Some(ns) => Some(names + ns)
    {
      assert parts[i..][0] == parts[i] && parts[i..][1..] == parts[i + 1..];
      var name := OutputName(Strip(parts[i]));
      if name.None? { return None; }
      assert forall ns: seq<string> :: names + ([name.value] + ns) == (names + [name.value]) + ns;
      names := names + [name.value];
    }
    assert parts[|parts|..] == [];
    assert names + [] == names;
    cols := Some(names);
  }

  /** Whether the edit changed the output columns; none when either side cannot be parsed. */
  function OutputSchemaDelta(strip: string -> string, files: map<string, FileState>, path: string): Option<bool> {
    if path !in files then None
    else
      var before :- FinalSelectColumns(strip(files[path].original));
      var after :- FinalSelectColumns(strip(files[path].current));
      Some(before != after)
  }

  /** Told to be unchanged exactly when both sides can be parsed, into equally many columns, the same at every place. */
  lemma DeltaIff(strip: string -> string, files: map<string, FileState>, path: string)
    requires path in files
    ensures var (before, after) := (FinalSelectColumns(strip(files[path].original)), FinalSelectColumns(strip(files[path].current)));
            var delta := OutputSchemaDelta(strip, files, path);
            && (delta.Some? <==> before.Some? && after.Some?)
            && (delta.Some? ==>
                  (!delta.value <==>
                     && |before.value| == |after.value|
                     && forall k | 0 <= k < |before.value| :: before.value[k] == after.value[k]))
  {
    hide FinalSelectColumns;
  }
}
