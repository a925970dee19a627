/** Writing a SELECT list into a model, and reading its columns back. */
module SqlLists {
  import opened Basics
  import opened Text
  import opened Diffing
  import opened SqlColumns

  // --- occurrences of a word ---

  lemma OccursFromChars(s: string, pat: string, i: nat)
    requires i + |pat| <= |s| && forall t | 0 <= t < |pat| :: s[i + t] == pat[t]
    ensures OccursAt(s, pat, i)
  {
    assert s[i..i + |pat|] == pat;
  }

  lemma Mismatch(s: string, pat: string, k: nat, t: nat)
    requires t < |pat| && k + t < |s| && s[k + t] != pat[t]
    ensures !OccursAt(s, pat, k)
  {
    if k + |pat| <= |s| { assert s[k..k + |pat|][t] == s[k + t]; }
  }

  lemma InPrefix(a: string, b: string, pat: string, k: nat)
    requires k + |pat| <= |a|
    ensures OccursAt(a + b, pat, k) <==> OccursAt(a, pat, k)
  {
    assert (a + b)[k..k + |pat|] == a[k..k + |pat|];
  }

  lemma InSuffix(a: string, b: string, pat: string, k: nat)
    ensures OccursAt(a + b, pat, |a| + k) <==> OccursAt(b, pat, k)
  {
    if k + |pat| <= |b| { assert (a + b)[|a| + k..|a| + k + |pat|] == b[k..k + |pat|]; }
  }

  predicate Keyword(pat: string) { pat == "select" || pat == "from" }

  /** No keyword covers a place that no word can. */
  lemma NotAcross(s: string, pat: string, k: nat, at: nat)
    requires Keyword(pat) && k <= at < k + |pat| && at < |s| && !IsWord(s[at])
    ensures !OccursAt(s, pat, k)
  {
    Mismatch(s, pat, k, at - k);
  }

  // --- texts without keywords ---

  /** Neither `select` anywhere nor the word `from`. */
  ghost predicate KeyFree(s: string) {
    forall k: nat :: !OccursAt(s, "select", k) && !FromAt(s, k)
  }

  lemma NothingIsKeyFree()
    ensures KeyFree("")
  {
  }

  lemma FromBefore(a: string, sep: char, b: string, k: nat)
    requires !IsWord(sep) && k + 4 <= |a|
    ensures FromAt(a + ([sep] + b), k) <==> FromAt(a, k)
  {
    InPrefix(a, [sep] + b, "from", k);
    assert k + 4 == |a| ==> (a + ([sep] + b))[k + 4] == sep;
  }

  lemma FromBehind(a: string, sep: char, b: string, k: nat)
    requires !IsWord(sep)
    ensures FromAt(a + ([sep] + b), |a| + 1 + k) <==> FromAt(b, k)
  {
    var s := a + ([sep] + b);
    InSuffix(a, [sep] + b, "from", 1 + k);
    InSuffix([sep], b, "from", k);
    if k == 0 {
      assert s[|a| + 1 + k - 1] == sep;
    } else if k <= |b| {
      assert s[|a| + 1 + k - 1] == b[k - 1];
    }
    if k + 4 < |b| { assert s[|a| + 1 + k + 4] == b[k + 4]; }
  }

  lemma CutAt(a: string, sep: char, b: string, k: nat)
    requires !IsWord(sep)
    ensures var s := a + ([sep] + b);
            && (k + 6 <= |a| ==> (OccursAt(s, "select", k) <==> OccursAt(a, "select", k)))
            && (k + 4 <= |a| ==> (FromAt(s, k) <==> FromAt(a, k)))
            && (OccursAt(s, "select", |a| + 1 + k) <==> OccursAt(b, "select", k))
            && (FromAt(s, |a| + 1 + k) <==> FromAt(b, k))
            && (k <= |a| < k + 6 ==> !OccursAt(s, "select", k))
            && (k <= |a| < k + 4 ==> !OccursAt(s, "from", k))
  {
    var s := a + ([sep] + b);
    assert s[|a|] == sep;
    hide FromAt, IsWord;
    if k + 6 <= |a| { InPrefix(a, [sep] + b, "select", k); }
    if k + 4 <= |a| { FromBefore(a, sep, b, k); }
    InSuffix(a, [sep] + b, "select", 1 + k);
    InSuffix([sep], b, "select", k);
    FromBehind(a, sep, b, k);
    if k <= |a| < k + 6 { NotAcross(s, "select", k, |a|); }
    if k <= |a| < k + 4 { NotAcross(s, "from", k, |a|); }
  }

  /** At a separator a text falls into two that have their keywords to themselves. */
  lemma Cut(a: string, sep: char, b: string)
    requires !IsWord(sep)
    ensures KeyFree(a + ([sep] + b)) <==> KeyFree(a) && KeyFree(b)
  {
    hide *;
    var s := a + ([sep] + b);
    forall k: nat
      ensures k + 6 <= |a| ==> (OccursAt(s, "select", k) <==> OccursAt(a, "select", k))
      ensures k + 4 <= |a| ==> (FromAt(s, k) <==> FromAt(a, k))
      ensures OccursAt(s, "select", |a| + 1 + k) <==> OccursAt(b, "select", k)
      ensures FromAt(s, |a| + 1 + k) <==> FromAt(b, k)
      ensures k <= |a| < k + 6 ==> !OccursAt(s, "select", k)
      ensures k <= |a| < k + 4 ==> !OccursAt(s, "from", k)
    {
      CutAt(a, sep, b, k);
    }
    CutHalves(a, sep, b);
  }

  lemma CutHalves(a: string, sep: char, b: string)
    requires var s := a + ([sep] + b);
             forall k: nat ::
               && (k + 6 <= |a| ==> (OccursAt(s, "select", k) <==> OccursAt(a, "select", k)))
               && (k + 4 <= |a| ==> (FromAt(s, k) <==> FromAt(a, k)))
               && (OccursAt(s, "select", |a| + 1 + k) <==> OccursAt(b, "select", k))
               && (FromAt(s, |a| + 1 + k) <==> FromAt(b, k))
               && (k <= |a| < k + 6 ==> !OccursAt(s, "select", k))
               && (k <= |a| < k + 4 ==> !OccursAt(s, "from", k))
    ensures KeyFree(a + ([sep] + b)) <==> KeyFree(a) && KeyFree(b)
  {
    var s := a + ([sep] + b);
    if KeyFree(a) && KeyFree(b) {
      forall k: nat ensures !OccursAt(s, "select", k) && !FromAt(s, k) {
        if k > |a| {
          var j: nat := k - |a| - 1;
          assert OccursAt(s, "select", |a| + 1 + j) <==> OccursAt(b, "select", j);
          assert FromAt(s, |a| + 1 + j) <==> FromAt(b, j);
        } else if k + 6 <= |a| {
          assert OccursAt(s, "select", k) <==> OccursAt(a, "select", k);
        }
      }
    }
    if KeyFree(s) {
      forall k: nat ensures !OccursAt(a, "select", k) && !FromAt(a, k) { assert !OccursAt(s, "select", k) && !FromAt(s, k); }
      forall k: nat ensures !OccursAt(b, "select", k) && !FromAt(b, k) {
        assert !OccursAt(s, "select", |a| + 1 + k) && !FromAt(s, |a| + 1 + k);
      }
    }
  }

  lemma LowerConcat(a: string, b: string)
    ensures Lower(a + b) == Lower(a) + Lower(b)
  {
  }

  lemma LowerWord(c: char)
    ensures IsWord(LowerChar(c)) <==> IsWord(c)
  {
  }

  /** Joined parts are free of keywords exactly when each part is. */
  lemma {:induction false} JoinKeyFree(ps: seq<string>)
    requires ps != []
    ensures KeyFree(Lower(JoinComma(ps))) <==> forall k | 0 <= k < |ps| :: KeyFree(Lower(ps[k]))
    decreases |ps|
  {
    if |ps| > 1 {
      var rest := JoinComma(ps[1..]);
      JoinKeyFree(ps[1..]);
      Assoc(ps[0], ",", rest);
      LowerConcat(ps[0], "," + rest);
      LowerConcat(",", rest);
      assert Lower(",") == ",";
      Cut(Lower(ps[0]), ',', Lower(rest));
      hide KeyFree, Lower, JoinComma;
      assert forall k | 0 <= k < |ps| :: k > 0 ==> ps[k] == ps[1..][k - 1];
      assert forall k | 0 <= k < |ps[1..]| :: ps[1..][k] == ps[k + 1];
    }
  }

  lemma {:induction false} JoinEnd(ps: seq<string>)
    requires ps != [] && ps[|ps| - 1] != ""
    ensures JoinComma(ps) != ""
    ensures var (all, last) := (JoinComma(ps), ps[|ps| - 1]); all[|all| - 1] == last[|last| - 1]
    decreases |ps|
  {
    if |ps| > 1 { JoinEnd(ps[1..]); }
  }

  // --- a text around its final SELECT list ---

  predicate HasList(text: string, head: string, list: string, tail: string) {
    && text == head + list + tail && |head| >= 6
    && FindLast(Lower(text), "select", |text|) == Some(|head| - 6)
    && FindFrom(Lower(list + tail), 0) == Some(|list|)
  }

  lemma ListFound(text: string, head: string, list: string, tail: string)
    requires HasList(text, head, list, tail)
    ensures SelectList(text) == Some(list)
  {
    Assoc(head, list, tail);
    LowerConcat(head, list + tail);
    assert Lower(text)[|head|..] == Lower(list + tail);
    assert text[|head|..|head| + |list|] == list;
  }

  /** `text` with its final SELECT list replaced. */
  function WithList(text: string, list: string): string
    requires SelectList(text).Some?
  {
    var lower := Lower(text);
    var p := FindLast(lower, "select", |text|).value;
    var m := FindFrom(lower[p + 6..], 0).value;
    text[..p + 6] + list + text[p + 6 + m..]
  }

  lemma ListExists(text: string, list: string) returns (head: string, tail: string)
    requires SelectList(text) == Some(list)
    ensures HasList(text, head, list, tail)
    ensures forall list' :: WithList(text, list') == head + list' + tail
  {
    var p := FindLast(Lower(text), "select", |text|).value;
    var m := FindFrom(Lower(text)[p + 6..], 0).value;
    head, tail := text[..p + 6], text[p + 6 + m..];
    assert text == head + list + tail;
    Assoc(head, list, tail);
    LowerConcat(head, list + tail);
    assert Lower(text)[p + 6..] == Lower(list + tail);
  }

  /** Something, and no word right before the end. */
  predicate EndsOutside(s: string) {
    s != "" && !IsWord(s[|s| - 1])
  }

  lemma EndsOutsideLower(s: string)
    ensures EndsOutside(Lower(s)) <==> EndsOutside(s)
  {
    if s != "" { LowerWord(s[|s| - 1]); }
  }

  /** The list that is found holds no keyword, and ends outside any word. */
  lemma ListIsKeyFree(head: string, list: string, tail: string)
    requires HasList(head + list + tail, head, list, tail)
    ensures KeyFree(Lower(list)) && (list != "" ==> EndsOutside(list))
  {
    var (h, l, t) := (Lower(head), Lower(list), Lower(tail));
    LowerConcat(head + list, tail);
    LowerConcat(head, list);
    LowerConcat(list, tail);
    EndsOutsideLower(list);
    assert FromAt(l + t, |l|);
    forall k: nat ensures !OccursAt(l, "select", k) && !FromAt(l, k) {
      if k + 6 <= |l| {
        assert !OccursAt(h + l + t, "select", |h| + k);
        InPrefix(h + l, t, "select", |h| + k);
        InSuffix(h, l, "select", k);
      }
      if k + 4 <= |l| {
        assert !FromAt(l + t, k);
        InPrefix(l, t, "from", k);
        if k + 4 == |l| { NotAcross(l, "from", k, |l| - 1); }
      }
    }
  }

  /** With another list in its place, the last `select` stays. */
  lemma {:induction false} SelectStays(h: string, l: string, t: string, l': string)
    requires |h| >= 6 && FindLast(h + l + t, "select", |h + l + t|) == Some(|h| - 6)
    requires KeyFree(l') && EndsOutside(l')
    ensures FindLast(h + l' + t, "select", |h + l' + t|) == Some(|h| - 6)
  {
    var s, s', p := h + l + t, h + l' + t, |h| - 6;
    Assoc(h, l, t);
    Assoc(h, l', t);
    InPrefix(h, l + t, "select", p);
    InPrefix(h, l' + t, "select", p);
    forall k | p < k < |s'| ensures !OccursAt(s', "select", k) { NoLaterSelect(h, l, t, l', k); }
  }

  lemma NoLaterSelect(h: string, l: string, t: string, l': string, k: nat)
    requires |h| >= 6 && OccursAt(h, "select", |h| - 6)
    requires forall j | |h| - 6 < j < |h + l + t| :: !OccursAt(h + l + t, "select", j)
    requires KeyFree(l') && EndsOutside(l') && k > |h| - 6
    ensures !OccursAt(h + l' + t, "select", k)
  {
    var s' := h + l' + t;
    if k < |h| {
      var at := k - (|h| - 6);
      assert h[|h| - 6..][at] == h[k] && s'[k] == h[k];
      assert "select"[at] != 's' && "select"[0] == 's';
      Mismatch(s', "select", k, 0);
    } else if k + 6 <= |h| + |l'| {
      InPrefix(h + l', t, "select", k);
      InSuffix(h, l', "select", k - |h|);
    } else if k < |h| + |l'| {
      assert s'[|h| + |l'| - 1] == l'[|l'| - 1];
      NotAcross(s', "select", k, |h| + |l'| - 1);
    } else {
      var j := k - |h| - |l'|;
      InSuffix(h + l', t, "select", j);
      InSuffix(h + l, t, "select", j);
      if |h| + |l| + j < |h + l + t| { assert !OccursAt(h + l + t, "select", |h + l| + j); }
    }
  }

  /** And the first word `from` after it is the same one. */
  lemma {:induction false} FromStays(l: string, t: string, l': string)
    requires FindFrom(l + t, 0) == Some(|l|)
    requires KeyFree(l') && EndsOutside(l')
    ensures FindFrom(l' + t, 0) == Some(|l'|)
  {
    var s := l' + t;
    assert FromAt(s, |l'|) by {
      InSuffix(l, t, "from", 0);
      InSuffix(l', t, "from", 0);
      assert |t| > 4 ==> (l + t)[|l| + 4] == t[4] && s[|l'| + 4] == t[4];
    }
    forall k | 0 <= k < |l'| ensures !FromAt(s, k) {
      if k + 4 < |l'| {
        InPrefix(l', t, "from", k);
        assert !FromAt(l', k);
      } else if k + 4 <= |s| {
        NotAcross(s, "from", k, |l'| - 1);
      }
    }
    var r := FindFrom(s, 0);
  }

  /** Put and get: a list without keywords is found again where it was written. */
  lemma ListReplaced(text: string, list': string)
    requires SelectList(text).Some? && KeyFree(Lower(list')) && EndsOutside(list')
    ensures SelectList(WithList(text, list')) == Some(list')
  {
    var list := SelectList(text).value;
    var head, tail := ListExists(text, list);
    LowerConcat(head + list, tail);
    LowerConcat(head, list);
    LowerConcat(list, tail);
    LowerConcat(head + list', tail);
    LowerConcat(head, list');
    LowerConcat(list', tail);
    EndsOutsideLower(list');
    SelectStays(Lower(head), Lower(list), Lower(tail), Lower(list'));
    FromStays(Lower(list), Lower(tail), Lower(list'));
    hide KeyFree, WithList, FindLast, FindFrom, Lower, SelectList;
    ListFound(head + list' + tail, head, list', tail);
  }

  /** Parts that can be written as a SELECT list. */
  ghost predicate Writable(parts: seq<string>) {
    && parts != [] && !Blank(parts[|parts| - 1]) && EndsOutside(parts[|parts| - 1])
    && forall k | 0 <= k < |parts| :: Flat(parts[k], 0) && KeyFree(Lower(parts[k]))
  }

  /** Written parts are read back in order, whatever list was there before. */
  lemma WrittenPartsRead(text: string, parts: seq<string>)
    requires SelectList(text).Some? && Writable(parts)
    ensures FinalSelectColumns(WithList(text, JoinComma(parts))) == Names(parts)
  {
    JoinKeyFree(parts);
    JoinEnd(parts);
    SplitInvertsJoin(parts);
    hide KeyFree, WithList, Lower, SelectList, Flat, Blank, JoinComma, SplitTopLevel, Names;
    ListReplaced(text, JoinComma(parts));
  }

  /** A list that is there is writable, if its parts are flat and the last is not blank. */
  lemma FoundIsWritable(text: string, parts: seq<string>)
    requires parts != [] && SelectList(text) == Some(JoinComma(parts))
    requires !Blank(parts[|parts| - 1]) && forall k | 0 <= k < |parts| :: Flat(parts[k], 0)
    ensures Writable(parts) && FinalSelectColumns(text) == Names(parts)
  {
    SplitInvertsJoin(parts);
    hide KeyFree, Lower, SelectList, Flat, JoinComma, SplitTopLevel, Names;
    FoundParts(text, parts);
  }

  lemma FoundParts(text: string, parts: seq<string>)
    requires parts != [] && SelectList(text) == Some(JoinComma(parts)) && !Blank(parts[|parts| - 1])
    ensures EndsOutside(parts[|parts| - 1]) && forall k | 0 <= k < |parts| :: KeyFree(Lower(parts[k]))
  {
    hide KeyFree, Lower, SelectList, JoinComma;
    FoundListIsKeyFree(text, JoinComma(parts));
    JoinKeyFree(parts);
    assert parts[|parts| - 1] != "";
    JoinEnd(parts);
  }

  lemma FoundListIsKeyFree(text: string, list: string)
    requires SelectList(text) == Some(list)
    ensures KeyFree(Lower(list)) && (list != "" ==> EndsOutside(list))
  {
    var head, tail := ListExists(text, list);
    hide KeyFree, Lower, SelectList, WithList, FindLast, FindFrom;
    ListIsKeyFree(head, list, tail);
  }

  // --- the shapes of a part ---

  /** A column as models write it. */
  datatype Column =
    | Bare(name: string)
    | Dotted(table: string, name: string)
    | Aliased(expr: string, keyword: string, name: string)
    | AliasedQuoted(expr: string, keyword: string, name: string)
  {
    function Shown(): string {
      match this
      case Bare(name) => name
      case Dotted(table, name) => table + ("." + name)
      case Aliased(expr, keyword, name) => expr + (keyword + name)
      case AliasedQuoted(expr, keyword, name) => expr + (keyword + ("\"" + name + "\""))
    }

    /** `as` in any letter case, and an expression that is more than blanks. */
    predicate Ok() {
      && IsIdentifier(name)
      && match this
         case Bare(_) => true
         case Dotted(table, _) => table != "" && forall i | 0 <= i < |table| :: !IsSpace(table[i])
         case Aliased(expr, keyword, _) => expr != "" && !IsSpace(expr[0]) && Lower(keyword) == " as "
         case AliasedQuoted(expr, keyword, _) => expr != "" && !IsSpace(expr[0]) && Lower(keyword) == " as "
    }
  }

  lemma {:induction false} WholeToken(s: string, sep: char -> bool)
    requires forall i | 0 <= i < |s| :: !sep(s[i])
    ensures LastToken(s, sep) == s
  {
    if s != "" {
      WholeToken(s[..|s| - 1], sep);
      assert s == s[..|s| - 1] + [s[|s| - 1]];
    }
  }

  lemma {:induction false} TokenAfter(a: string, c: char, b: string, sep: char -> bool)
    requires sep(c) && forall i | 0 <= i < |b| :: !sep(b[i])
    ensures LastToken(a + ([c] + b), sep) == b
    decreases |b|
  {
    var s := a + ([c] + b);
    if b == "" {
      assert s[|s| - 1] == c;
    } else {
      var b' := b[..|b| - 1];
      assert s[..|s| - 1] == a + ([c] + b') && s[|s| - 1] == b[|b| - 1];
      TokenAfter(a, c, b', sep);
      assert b == b' + [b[|b| - 1]];
    }
  }

  lemma IdentifierChars(c: string)
    requires IsIdentifier(c)
    ensures forall i | 0 <= i < |c| :: !IsSpace(c[i]) && c[i] != '.' && c[i] != '"'
    ensures Strip(c) == c && StripQuotes(c) == c
  {
  }

  lemma NoAlias(s: string)
    requires forall i | 0 <= i < |s| :: s[i] != ' '
    ensures FindLast(Lower(s), " as ", |s|) == None
  {
    forall k | 0 <= k < |s| ensures !OccursAt(Lower(s), " as ", k) { Mismatch(Lower(s), " as ", k, 0); }
  }

  lemma BareName(c: string)
    requires IsIdentifier(c)
    ensures OutputName(c) == Some(c)
  {
    IdentifierChars(c);
    NoAlias(c);
    WholeToken(c, x => IsSpace(x));
    WholeToken(c, x => x == '.');
  }

  lemma DottedName(table: string, c: string)
    requires Dotted(table, c).Ok()
    ensures OutputName(table + ("." + c)) == Some(c)
  {
    var s := table + ("." + c);
    IdentifierChars(c);
    NoAlias(s);
    assert s != "*" by { assert |s| > 1; }
    WholeToken(s, x => IsSpace(x));
    TokenAfter(table, '.', c, x => x == '.');
  }

  /** The last ` as ` of an aliased expression is the keyword before the alias. */
  lemma LastAs(expr: string, keyword: string, alias: string)
    requires Lower(keyword) == " as " && forall i | 0 <= i < |alias| :: alias[i] != ' '
    ensures var s := expr + (keyword + alias);
            FindLast(Lower(s), " as ", |s|) == Some(|expr|) && s[|expr| + 4..] == alias
  {
    var s := expr + (keyword + alias);
    var l := Lower(s);
    assert |keyword| == 4;
    assert " as "[0] == ' ' && " as "[1] == 'a' && " as "[2] == 's' && " as "[3] == ' ';
    assert forall t | 0 <= t < 4 :: l[|expr| + t] == Lower(keyword)[t];
    OccursFromChars(l, " as ", |expr|);
    forall k | |expr| < k < |s| ensures !OccursAt(l, " as ", k) {
      if k == |expr| + 3 {
        if k + 3 < |s| { Mismatch(l, " as ", k, 3); }
      } else {
        Mismatch(l, " as ", k, 0);
      }
    }
    var r := FindLast(l, " as ", |s|);
  }

  lemma AliasName(expr: string, keyword: string, c: string)
    requires Aliased(expr, keyword, c).Ok()
    ensures OutputName(expr + (keyword + c)) == Some(c)
  {
    IdentifierChars(c);
    LastAs(expr, keyword, c);
    assert |keyword| == 4;
  }

  lemma {:induction false} Unquoted(c: string)
    requires IsIdentifier(c)
    ensures var q := "\"" + c + "\""; Strip(q) == q && StripQuotes(q) == c
  {
    var q := "\"" + c + "\"";
    IdentifierChars(c);
    assert q[1..] == c + "\"";
    assert StripQuotesLeft(q) == c + "\"";
    assert (c + "\"")[..|c|] == c;
  }

  lemma QuotedName(expr: string, keyword: string, c: string)
    requires AliasedQuoted(expr, keyword, c).Ok()
    ensures OutputName(expr + (keyword + ("\"" + c + "\""))) == Some(c)
  {
    IdentifierChars(c);
    Unquoted(c);
    LastAs(expr, keyword, "\"" + c + "\"");
    assert |keyword| == 4;
  }

  /** Whatever its shape, and whatever blanks stand around it, a column goes by its name. */
  lemma ColumnName(lead: string, col: Column, trail: string)
    requires Blank(lead) && Blank(trail) && col.Ok()
    ensures OutputName(Strip(lead + col.Shown() + trail)) == Some(col.name)
  {
    var s := col.Shown();
    IdentifierChars(col.name);
    assert s != "" && !IsSpace(s[0]) && !IsSpace(s[|s| - 1]);
    StripAround(lead, s, trail);
    match col
    case Bare(c) => BareName(c);
    case Dotted(table, c) => DottedName(table, c);
    case Aliased(expr, keyword, c) => AliasName(expr, keyword, c);
    case AliasedQuoted(expr, keyword, c) => QuotedName(expr, keyword, c);
  }

  /** A star hides the columns, and so does an expression without an alias that ends in no name. */
  lemma Unnamed(expr: string)
    requires expr != "" ==> !IsWord(expr[|expr| - 1]) && expr[|expr| - 1] != '"'
    requires FindLast(Lower(expr), " as ", |expr|) == None
    ensures OutputName(expr) == None
  {
    if expr != "" && expr != "*" {
      var token := LastToken(LastToken(expr, c => IsSpace(c)), c => c == '.');
      TokenEnd(expr, c => IsSpace(c));
      TokenEnd(LastToken(expr, c => IsSpace(c)), c => c == '.');
      QuotesKeepTheEnd(token);
    }
  }

  lemma TokenEnd(s: string, sep: char -> bool)
    ensures var token := LastToken(s, sep); token != "" ==> s != "" && token[|token| - 1] == s[|s| - 1]
  {
  }

  lemma {:induction false} QuotesKeepTheEnd(s: string)
    requires s != "" ==> s[|s| - 1] != '"'
    ensures var r := StripQuotes(s); r != "" ==> s != "" && r[|r| - 1] == s[|s| - 1]
    decreases |s|
  {
    if s != "" && s[0] == '"' {
      QuotesKeepTheEnd(s[1..]);
      assert StripQuotesLeft(s) == StripQuotesLeft(s[1..]);
    }
  }
}
