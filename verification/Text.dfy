/** Text as the worker sees it: Python's line splitting and decimal numerals. */
module Text {
  import opened Basics

  /** Where `str.splitlines` ends a line. */
  predicate IsBoundary(c: char) {
    c == '\n' || c == '\r' || c == '\U{0B}' || c == '\U{0C}' || c == '\U{1C}' || c == '\U{1D}' || c == '\U{1E}'
    || c == '\U{85}' || c == '\U{2028}' || c == '\U{2029}'
  }

  predicate BoundaryFree(s: string) {
    forall i | 0 <= i < |s| :: !IsBoundary(s[i])
  }

  /** Length of the first line of `s`, its terminator included. */
  function LineEnd(s: string): (n: nat)
    requires s != ""
    ensures 0 < n <= |s|
  {
    if IsBoundary(s[0]) then (if s[0] == '\r' && |s| > 1 && s[1] == '\n' then 2 else 1)
    else if |s| == 1 then 1
    else 1 + LineEnd(s[1..])
  }

  /** `s.splitlines(keepends=True)` */
  function SplitLines(s: string): seq<string> {
    if s == "" then [] else [s[..LineEnd(s)]] + SplitLines(s[LineEnd(s)..])
  }

  /** `"".join(lines)` */
  function Join(lines: seq<string>): string {
    if lines == [] then "" else lines[0] + Join(lines[1..])
  }

  /** `"\n".join(lines)` */
  function JoinLines(lines: seq<string>): string {
    if lines == [] then "" else if |lines| == 1 then lines[0] else lines[0] + "\n" + JoinLines(lines[1..])
  }

  /** `s.split("\n")` */
  function Pieces(s: string): (ps: seq<string>)
    ensures ps != []
  {
    if s == "" then [""]
    else
      var rest := Pieces(s[1..]);
      if s[0] == '\n' then [""] + rest else [[s[0]] + rest[0]] + rest[1..]
  }

  lemma {:induction false} PieceOf(l: string, rest: string)
    requires '\n' !in l
    ensures Pieces(l) == [l] && Pieces(l + "\n" + rest) == [l] + Pieces(rest)
  {
    var s := l + "\n" + rest;
    if l == "" {
      assert s[1..] == rest;
    } else {
      PieceOf(l[1..], rest);
      assert s[1..] == l[1..] + "\n" + rest;
      assert [l[0]] + l[1..] == l;
    }
  }

  /** Joined lines come apart again. */
  lemma {:induction false} PiecesOfJoined(lines: seq<string>)
    requires lines != [] && forall k | 0 <= k < |lines| :: '\n' !in lines[k]
    ensures Pieces(JoinLines(lines)) == lines
  {
    if |lines| == 1 {
      PieceOf(lines[0], "");
    } else {
      PieceOf(lines[0], JoinLines(lines[1..]));
      PiecesOfJoined(lines[1..]);
      assert lines == [lines[0]] + lines[1..];
    }
  }

  lemma {:induction false} JoinSplit(s: string)
    ensures Join(SplitLines(s)) == s
  {
    if s != "" {
      JoinSplit(s[LineEnd(s)..]);
      assert s == s[..LineEnd(s)] + s[LineEnd(s)..];
    }
  }

  predicate Terminated(l: string) {
    l != "" && IsBoundary(l[|l| - 1])
  }

  /** One line, with or without a terminator. */
  predicate IsLine(l: string) {
    l != "" && LineEnd(l) == |l|
  }

  /** What splitting produces: single lines, only the last of which may lack a terminator. */
  predicate LinesOk(ls: seq<string>) {
    forall i | 0 <= i < |ls| :: IsLine(ls[i]) && (i < |ls| - 1 ==> Terminated(ls[i]))
  }

  lemma {:induction false} FirstLineOk(s: string)
    requires s != ""
    ensures IsLine(s[..LineEnd(s)])
    ensures LineEnd(s) < |s| ==> Terminated(s[..LineEnd(s)])
  {
    if !IsBoundary(s[0]) && |s| > 1 {
      FirstLineOk(s[1..]);
      assert s[..LineEnd(s)][1..] == s[1..][..LineEnd(s[1..])];
    }
  }

  lemma {:induction false} SplitLinesOk(s: string)
    ensures LinesOk(SplitLines(s))
    ensures s != "" ==> SplitLines(s) != []
  {
    if s != "" {
      FirstLineOk(s);
      SplitLinesOk(s[LineEnd(s)..]);
    }
  }

  /** A terminated line is found again in front of anything that does not complete a `\r\n`. */
  lemma {:induction false} LineEndOf(l: string, rest: string)
    requires IsLine(l) && Terminated(l) && (rest == "" || rest[0] != '\n')
    ensures LineEnd(l + rest) == |l|
  {
    if !IsBoundary(l[0]) {
      LineEndOf(l[1..], rest);
      assert (l + rest)[1..] == l[1..] + rest;
    }
  }

  /** The first boundary of a text is where its first line ends. */
  lemma {:induction false} LineEndAt(u: string, rest: string)
    requires BoundaryFree(u)
    ensures LineEnd(u + "\n" + rest) == |u| + 1
  {
    if u == "" {
      assert u + "\n" + rest == "\n" + rest;
    } else {
      LineEndAt(u[1..], rest);
      assert (u + "\n" + rest)[1..] == u[1..] + "\n" + rest;
    }
  }

  lemma {:induction false} UnterminatedIsFree(l: string)
    requires IsLine(l) && !Terminated(l)
    ensures BoundaryFree(l)
  {
    if |l| > 1 {
      if !IsBoundary(l[0]) {
        UnterminatedIsFree(l[1..]);
        assert l == [l[0]] + l[1..];
      }
    }
  }

  /** The part before the first separator is determined by the whole. */
  lemma HeadDetermined(sep: char, a: string, x: string, b: string, y: string)
    requires sep !in a && sep !in b && a + [sep] + x == b + [sep] + y
    ensures a == b && x == y
  {
    var s, t := a + [sep] + x, b + [sep] + y;
    assert s[|a|] == sep && t[|b|] == sep;
    assert forall i | 0 <= i < |a| :: s[i] == a[i] && a[i] != sep;
    assert forall i | 0 <= i < |b| :: t[i] == b[i] && b[i] != sep;
    assert |a| == |b|;
    assert a == s[..|a|] && b == t[..|b|];
    assert x == s[|a| + 1..] && y == t[|b| + 1..];
  }

  lemma Assoc<T>(a: seq<T>, b: seq<T>, c: seq<T>)
    ensures (a + b) + c == a + (b + c)
  {
  }

  lemma Assoc4<T>(a: seq<T>, b: seq<T>, c: seq<T>, d: seq<T>)
    ensures ((a + b) + c) + d == a + (b + (c + d))
  {
  }

  // --- decimal numerals ---

  predicate IsDigit(c: char) { '0' <= c <= '9' }

  function DigitOf(d: nat): (c: char)
    requires d < 10
    ensures IsDigit(c) && DigitValue(c) == d
  {
    '0' + d as char
  }

  function Decimal(n: nat): (s: string)
    ensures s != "" && forall i | 0 <= i < |s| :: IsDigit(s[i])
  {
    if n < 10 then [DigitOf(n)] else Decimal(n / 10) + [DigitOf(n % 10)]
  }

  function DigitValue(c: char): nat
    requires IsDigit(c)
  {
    c as int - '0' as int
  }

  function Value(s: string): nat
    requires forall i | 0 <= i < |s| :: IsDigit(s[i])
  {
    if s == "" then 0 else 10 * Value(s[..|s| - 1]) + DigitValue(s[|s| - 1])
  }

  /** How many digits `s` starts with. */
  function DigitRun(s: string): (n: nat)
    ensures n <= |s| && forall i | 0 <= i < n :: IsDigit(s[i])
  {
    if s == "" || !IsDigit(s[0]) then 0 else 1 + DigitRun(s[1..])
  }

  lemma {:induction false} ValueOfDecimal(n: nat)
    ensures Value(Decimal(n)) == n
  {
    if n >= 10 {
      ValueOfDecimal(n / 10);
      var s := Decimal(n);
      assert s[..|s| - 1] == Decimal(n / 10);
    } else {
      assert Decimal(n)[..0] == "";
    }
  }

  lemma {:induction false} DigitRunOf(s: string, rest: string)
    requires forall i | 0 <= i < |s| :: IsDigit(s[i])
    requires rest == "" || !IsDigit(rest[0])
    ensures DigitRun(s + rest) == |s|
  {
    if s == "" {
      assert s + rest == rest;
    } else {
      DigitRunOf(s[1..], rest);
      assert (s + rest)[1..] == s[1..] + rest;
    }
  }

  /** A leading number and what follows it. */
  function ReadNumber(s: string): Option<(nat, string)> {
    var n := DigitRun(s);
    if n == 0 then None else Some((Value(s[..n]), s[n..]))
  }

  lemma {:induction false} ReadNumberOf(n: nat, rest: string)
    requires rest == "" || !IsDigit(rest[0])
    ensures ReadNumber(Decimal(n) + rest) == Some((n, rest))
  {
    DigitRunOf(Decimal(n), rest);
    ValueOfDecimal(n);
    var s := Decimal(n) + rest;
    assert s[..|Decimal(n)|] == Decimal(n) && s[|Decimal(n)|..] == rest;
  }

  predicate StartsWith(s: string, prefix: string) {
    |prefix| <= |s| && s[..|prefix|] == prefix
  }

  lemma StartsWithOwn(prefix: string, rest: string)
    ensures StartsWith(prefix + rest, prefix) && (prefix + rest)[|prefix|..] == rest
  {
    assert (prefix + rest)[..|prefix|] == prefix;
  }

  // --- whitespace and letter case ---

  /** Python's `str.isspace` characters, as `split()` and `strip()` use them. */
  predicate IsSpace(c: char) {
    c == ' ' || '\t' <= c <= '\r' || '\U{1C}' <= c <= '\U{1F}' || c == '\U{85}' || c == '\U{A0}'
    || c == '\U{1680}' || '\U{2000}' <= c <= '\U{200A}' || c == '\U{2028}' || c == '\U{2029}'
    || c == '\U{202F}' || c == '\U{205F}' || c == '\U{3000}'
  }

  predicate Blank(s: string) {
    forall i | 0 <= i < |s| :: IsSpace(s[i])
  }

  function StripLeft(s: string): string {
    if s == "" || !IsSpace(s[0]) then s else StripLeft(s[1..])
  }

  function StripRight(s: string): string {
    if s == "" || !IsSpace(s[|s| - 1]) then s else StripRight(s[..|s| - 1])
  }

  function Strip(s: string): string {
    StripRight(StripLeft(s))
  }

  /** `"".join(s.split())` */
  function WithoutSpace(s: string): string {
    if s == "" then "" else (if IsSpace(s[0]) then "" else [s[0]]) + WithoutSpace(s[1..])
  }

  predicate SpaceFree(s: string) {
    forall i | 0 <= i < |s| :: !IsSpace(s[i])
  }

  /** The two texts agree when blanks are skipped on either side. */
  predicate SameInk(a: string, b: string)
    decreases |a| + |b|
  {
    if a != "" && IsSpace(a[0]) then SameInk(a[1..], b)
    else if b != "" && IsSpace(b[0]) then SameInk(a, b[1..])
    else if a == "" || b == "" then a == b
    else a[0] == b[0] && SameInk(a[1..], b[1..])
  }

  /** Without their white space two texts are equal exactly when they agree up to blanks. */
  lemma {:induction false} SameInkIff(a: string, b: string)
    ensures SameInk(a, b) <==> WithoutSpace(a) == WithoutSpace(b)
    decreases |a| + |b|
  {
    if a != "" && IsSpace(a[0]) {
      SameInkIff(a[1..], b);
    } else if b != "" && IsSpace(b[0]) {
      SameInkIff(a, b[1..]);
    } else if a != "" && b != "" {
      SameInkIff(a[1..], b[1..]);
      assert WithoutSpace(a) == [a[0]] + WithoutSpace(a[1..]) && WithoutSpace(b) == [b[0]] + WithoutSpace(b[1..]);
      assert WithoutSpace(a)[1..] == WithoutSpace(a[1..]) && WithoutSpace(b)[1..] == WithoutSpace(b[1..]);
    }
  }

  lemma {:induction false} WithoutSpaceConcat(a: string, b: string)
    ensures WithoutSpace(a + b) == WithoutSpace(a) + WithoutSpace(b)
  {
    if a == "" {
      assert a + b == b;
    } else {
      WithoutSpaceConcat(a[1..], b);
      assert (a + b)[0] == a[0] && (a + b)[1..] == a[1..] + b;
      hide IsSpace;
      Assoc(if IsSpace(a[0]) then "" else [a[0]], WithoutSpace(a[1..]), WithoutSpace(b));
    }
  }

  lemma {:induction false} NoSpaceIsLeft(u: string)
    ensures SpaceFree(WithoutSpace(u))
    ensures SpaceFree(u) ==> WithoutSpace(u) == u
  {
    if u != "" {
      NoSpaceIsLeft(u[1..]);
      assert SpaceFree(u) ==> u == [u[0]] + u[1..];
      hide IsSpace;
    }
  }

  /** Exactly the white space goes: no blank is left, a text without any stays as it is, and a blank stretch counts for nothing. */
  lemma {:induction false} OnlySpaceGoes(u: string, w: string, v: string)
    requires Blank(w)
    ensures SpaceFree(WithoutSpace(u))
    ensures SpaceFree(u) ==> WithoutSpace(u) == u
    ensures WithoutSpace(u + w + v) == WithoutSpace(u + v)
  {
    NoSpaceIsLeft(u);
    BlankVanishes(w);
    hide *;
    WithoutSpaceConcat(u, v);
    WithoutSpaceConcat(u + w, v);
    WithoutSpaceConcat(u, w);
    assert WithoutSpace(u) + "" == WithoutSpace(u);
  }

  lemma {:induction false} BlankVanishes(w: string)
    requires Blank(w)
    ensures WithoutSpace(w) == ""
  {
    if w != "" { BlankVanishes(w[1..]); }
  }

  /** The blanks among the characters below 128, and every line boundary. */
  lemma SpacesAre(c: char)
    ensures (c as int) < 128 ==> (IsSpace(c) <==> c as int in {9, 10, 11, 12, 13, 28, 29, 30, 31, 32})
    ensures IsBoundary(c) ==> IsSpace(c)
  {
  }

  /** A letter or an underscore. */
  predicate IsIdStart(c: char) { 'A' <= c <= 'Z' || 'a' <= c <= 'z' || c == '_' }

  function LowerChar(c: char): char {
    if 'A' <= c <= 'Z' then (c as int + 32) as char else c
  }

  function Lower(s: string): (r: string)
    ensures |r| == |s|
  {
    seq(|s|, i requires 0 <= i < |s| => LowerChar(s[i]))
  }

  /** Two texts are the same in lower case exactly when they differ in the case of ASCII letters only. */
  lemma LowerIff(s: string, t: string)
    ensures Lower(s) == Lower(t) <==>
              |s| == |t| && forall i | 0 <= i < |s| ::
                s[i] == t[i] || ('A' <= s[i] <= 'Z' && t[i] as int == s[i] as int + 32) || ('A' <= t[i] <= 'Z' && s[i] as int == t[i] as int + 32)
    ensures forall i | 0 <= i < |s| :: !('A' <= Lower(s)[i] <= 'Z')
  {
    if Lower(s) == Lower(t) { assert forall i | 0 <= i < |s| :: LowerChar(s[i]) == Lower(s)[i] == Lower(t)[i] == LowerChar(t[i]); }
  }

  /** Where a line ends: after the first boundary, a carriage return with the line feed behind it, or at the end. */
  lemma {:induction false} LineEndIff(s: string)
    requires s != ""
    ensures var n := LineEnd(s);
            && (forall i | 0 <= i < n - 1 :: !IsBoundary(s[i]) || (i == n - 2 && s[i] == '\r' && s[i + 1] == '\n'))
            && (n < |s| ==> IsBoundary(s[n - 1]))
            && (n < |s| && s[n - 1] == '\r' ==> s[n] != '\n')
    ensures SplitLines(s)[0] == s[..LineEnd(s)]
  {
    if !IsBoundary(s[0]) && |s| > 1 { LineEndIff(s[1..]); }
  }

  /** The boundaries, by their codes. */
  lemma BoundariesAre(c: char)
    ensures IsBoundary(c) <==> c as int in {10, 11, 12, 13, 28, 29, 30, 0x85, 0x2028, 0x2029}
  {
  }

  lemma {:induction false} StripAround(lead: string, c: string, trail: string)
    requires Blank(lead) && Blank(trail) && c != "" && !IsSpace(c[0]) && !IsSpace(c[|c| - 1])
    ensures Strip(lead + c + trail) == c
    decreases |lead| + |trail|
  {
    var s := lead + c + trail;
    if lead != "" {
      StripAround(lead[1..], c, trail);
      assert s[0] == lead[0] && s[1..] == lead[1..] + c + trail;
    } else if trail != "" {
      var t := trail[..|trail| - 1];
      StripAround("", c, t);
      assert s == c + trail && "" + c + t == c + t;
      assert s[0] == c[0] && (c + t)[0] == c[0];
      assert s[|s| - 1] == trail[|trail| - 1] && s[..|s| - 1] == c + t;
    } else {
      assert s == c;
    }
  }
}
