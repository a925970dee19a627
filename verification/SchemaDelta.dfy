/** Which edits of a model's final SELECT list its output-schema check reports. */
module SchemaDelta {
  import opened Basics
  import opened Text
  import opened Diffing
  import opened SqlColumns
  import opened SqlLists

  /** The final SELECT list of a model, part by part. */
  predicate ListedAs(text: string, parts: seq<string>) {
    && parts != [] && !Blank(parts[|parts| - 1]) && (forall k | 0 <= k < |parts| :: Flat(parts[k], 0))
    && SelectList(text) == Some(JoinComma(parts))
  }

  /** The same, with every column told. */
  predicate Lists(text: string, parts: seq<string>) {
    ListedAs(text, parts) && forall k | 0 <= k < |parts| :: OutputName(Strip(parts[k])).Some?
  }

  /** The edit writes the list `parts'` in place of `parts`, and every column of it can be told. */
  ghost predicate Rewrites(
    strip: string -> string, files: map<string, FileState>, path: string, parts: seq<string>, parts': seq<string>)
  {
    && path in files && Lists(strip(files[path].original), parts)
    && Writable(parts') && (forall k | 0 <= k < |parts'| :: OutputName(Strip(parts'[k])).Some?)
    && strip(files[path].current) == WithList(strip(files[path].original), JoinComma(parts'))
  }

  /** Equally many columns, of the same name at every place. */
  predicate SameColumns(parts: seq<string>, parts': seq<string>) {
    && |parts| == |parts'|
    && forall k | 0 <= k < |parts| :: OutputName(Strip(parts[k])) == OutputName(Strip(parts'[k]))
  }

  /** Whatever the edit does to the list, it goes unreported exactly when the same columns stand in the same places. */
  lemma ReportedIff(
    strip: string -> string, files: map<string, FileState>, path: string, parts: seq<string>, parts': seq<string>)
    requires Rewrites(strip, files, path, parts, parts')
    ensures var delta := OutputSchemaDelta(strip, files, path);
            && delta.Some?
            && (delta.value <==> !SameColumns(parts, parts'))
  {
    var text := strip(files[path].original);
    hide OutputName, Strip, WithList, SelectList, FinalSelectColumns, Names, Flat, JoinComma, OutputSchemaDelta, KeyFree;
    FoundIsWritable(text, parts);
    WrittenPartsRead(text, parts');
    NamesInOrder(parts);
    NamesInOrder(parts');
    DeltaIff(strip, files, path);
    var (b, a) := (Names(parts).value, Names(parts').value);
    assert forall k | 0 <= k < |parts| && k < |parts'| ::
        OutputName(Strip(parts[k])) == OutputName(Strip(parts'[k])) <==> b[k] == a[k];
  }

  /** Dropping or adding columns is reported. */
  lemma CountChangeIsReported(
    strip: string -> string, files: map<string, FileState>, path: string, parts: seq<string>, parts': seq<string>)
    requires Rewrites(strip, files, path, parts, parts') && |parts| != |parts'|
    ensures OutputSchemaDelta(strip, files, path) == Some(true)
  {
    hide Rewrites;
    ReportedIff(strip, files, path, parts, parts');
  }

  /** So is exchanging two columns of different names. */
  lemma ExchangeIsReported(
    strip: string -> string, files: map<string, FileState>, path: string, parts: seq<string>, i: nat, k: nat)
    requires i < |parts| && k < |parts| && OutputName(Strip(parts[i])) != OutputName(Strip(parts[k]))
    requires Rewrites(strip, files, path, parts, parts[i := parts[k]][k := parts[i]])
    ensures OutputSchemaDelta(strip, files, path) == Some(true)
  {
    hide Rewrites;
    var parts' := parts[i := parts[k]][k := parts[i]];
    assert parts'[k] == parts[i];
    ReportedIff(strip, files, path, parts, parts');
  }

  // --- rewriting one column ---

  lemma BlankChars(s: string)
    requires Blank(s)
    ensures NoPunctuation(s) && Lower(s) == s && forall i | 0 <= i < |s| :: !IsWord(s[i])
  {
  }

  lemma {:induction false} BlankIsKeyFree(s: string)
    requires Blank(s)
    ensures KeyFree(s)
    decreases |s|
  {
    if s == "" {
      NothingIsKeyFree();
    } else {
      BlankChars(s);
      BlankIsKeyFree(s[1..]);
      NothingIsKeyFree();
      Cut("", s[0], s[1..]);
      assert "" + ([s[0]] + s[1..]) == s;
    }
  }

  lemma {:induction false} LeadKeyFree(lead: string, s: string)
    requires Blank(lead)
    ensures KeyFree(lead + s) <==> KeyFree(s)
    decreases |lead|
  {
    if lead == "" {
      assert lead + s == s;
    } else {
      BlankChars(lead);
      LeadKeyFree(lead[1..], s);
      NothingIsKeyFree();
      Cut("", lead[0], lead[1..] + s);
      assert "" + ([lead[0]] + (lead[1..] + s)) == lead + s;
    }
  }

  lemma TrailKeyFree(s: string, trail: string)
    requires Blank(trail)
    ensures KeyFree(s + trail) <==> KeyFree(s)
  {
    if trail == "" {
      assert s + trail == s;
    } else {
      BlankChars(trail);
      BlankIsKeyFree(trail[1..]);
      Cut(s, trail[0], trail[1..]);
      assert s + ([trail[0]] + trail[1..]) == s + trail;
    }
  }

  lemma BlanksAround(lead: string, s: string, trail: string)
    requires Blank(lead) && Blank(trail)
    ensures KeyFree(Lower(lead + s + trail)) <==> KeyFree(Lower(s))
  {
    BlankChars(lead);
    BlankChars(trail);
    LowerConcat(lead + s, trail);
    LowerConcat(lead, s);
    Assoc(lead, Lower(s), trail);
    LeadKeyFree(lead, Lower(s) + trail);
    TrailKeyFree(Lower(s), trail);
  }

  /** A word without `select` in it that is not `from`. */
  lemma WordIsKeyFree(d: string)
    requires IsIdentifier(d) && Lower(d) != "from" && forall j: nat :: !OccursAt(Lower(d), "select", j)
    ensures KeyFree(Lower(d))
  {
    var l := Lower(d);
    forall i | 0 <= i < |l| ensures IsWord(l[i]) { LowerWord(d[i]); }
    forall k: nat ensures !FromAt(l, k) {
      if |l| == 4 { assert l == l[0..4]; }
    }
  }

  lemma KeywordIsKeyFree(keyword: string)
    requires Lower(keyword) == " as "
    ensures keyword[0] == ' ' && keyword[3] == ' ' && |keyword| == 4 && KeyFree("as")
  {
    assert |keyword| == 4 && Lower(keyword)[0] == ' ' && Lower(keyword)[3] == ' ';
    assert forall k: nat :: !OccursAt("as", "select", k) && !FromAt("as", k);
  }

  /** An aliased expression holds a keyword exactly when the expression or the alias does. */
  lemma AliasedKeyFree(expr: string, keyword: string, c: string)
    requires Lower(keyword) == " as "
    ensures KeyFree(Lower(expr + (keyword + c))) <==> KeyFree(Lower(expr)) && KeyFree(Lower(c))
  {
    KeywordIsKeyFree(keyword);
    LowerConcat(expr, keyword + c);
    LowerConcat(keyword, c);
    var (e, l) := (Lower(expr), Lower(c));
    assert " as " + l == [' '] + ("as" + ([' '] + l));
    Cut(e, ' ', "as" + ([' '] + l));
    Cut("as", ' ', l);
  }

  /** A column whose own text holds no punctuation and no keyword. */
  ghost predicate PlainColumn(col: Column) {
    col.Ok() && NoPunctuation(col.Shown()) && KeyFree(Lower(col.Shown()))
  }

  /** One part of the list is `lead + col + trail`, and the edit puts `col'` in the column's place. */
  ghost predicate RewritesColumn(
    strip: string -> string, files: map<string, FileState>, path: string,
    parts: seq<string>, k: nat, lead: string, col: Column, trail: string, col': Column)
  {
    && path in files && Lists(strip(files[path].original), parts)
    && k < |parts| && Blank(lead) && Blank(trail) && col.Ok() && parts[k] == lead + col.Shown() + trail
    && (k == |parts| - 1 ==> trail != "" || EndsOutside(col'.Shown()))
    && strip(files[path].current)
       == WithList(strip(files[path].original), JoinComma(parts[k := lead + col'.Shown() + trail]))
  }

  lemma WritableWith(parts: seq<string>, k: nat, lead: string, col: Column, trail: string)
    requires Writable(parts) && k < |parts| && Blank(lead) && Blank(trail) && PlainColumn(col)
    requires k == |parts| - 1 ==> trail != "" || EndsOutside(col.Shown())
    ensures Writable(parts[k := lead + col.Shown() + trail])
  {
    var s := col.Shown();
    var x := lead + s + trail;
    var parts' := parts[k := x];
    BlanksAround(lead, s, trail);
    BlankChars(lead);
    BlankChars(trail);
    PlainIsFlat(x);
    IdentifierChars(col.name);
    assert s != "" && !IsSpace(s[0]);
    assert x[|lead|] == s[0];
    assert !Blank(x);
    if trail != "" { assert x[|x| - 1] == trail[|trail| - 1]; } else { assert x[|x| - 1] == s[|s| - 1]; }
    hide KeyFree, Flat, Lower, NoPunctuation;
    assert forall i | 0 <= i < |parts'| :: i != k ==> parts'[i] == parts[i];
  }

  /** Putting one column in another's place is reported exactly when its name differs. */
  lemma RewrittenColumnIff(
    strip: string -> string, files: map<string, FileState>, path: string,
    parts: seq<string>, k: nat, lead: string, col: Column, trail: string, col': Column)
    requires RewritesColumn(strip, files, path, parts, k, lead, col, trail, col') && PlainColumn(col')
    ensures OutputSchemaDelta(strip, files, path).Some?
    ensures OutputSchemaDelta(strip, files, path).value <==> col'.name != col.name
  {
    hide *;
    var x := lead + col'.Shown() + trail;
    ColumnIsRewritten(strip, files, path, parts, k, lead, col, trail, col');
    NamesDifferAt(parts, k, x);
    ReportedIff(strip, files, path, parts, parts[k := x]);
  }

  lemma NamesDifferAt(parts: seq<string>, k: nat, x: string)
    requires k < |parts|
    ensures SameColumns(parts, parts[k := x]) <==> OutputName(Strip(parts[k])) == OutputName(Strip(x))
  {
    hide OutputName, Strip;
    assert parts[k := x][k] == x;
    assert forall i | 0 <= i < |parts| :: i != k ==> parts[k := x][i] == parts[i];
  }

  lemma ColumnIsRewritten(
    strip: string -> string, files: map<string, FileState>, path: string,
    parts: seq<string>, k: nat, lead: string, col: Column, trail: string, col': Column)
    requires RewritesColumn(strip, files, path, parts, k, lead, col, trail, col') && PlainColumn(col')
    ensures k < |parts| && Rewrites(strip, files, path, parts, parts[k := lead + col'.Shown() + trail])
    ensures OutputName(Strip(parts[k])) == Some(col.name)
    ensures OutputName(Strip(lead + col'.Shown() + trail)) == Some(col'.name)
  {
    var x := lead + col'.Shown() + trail;
    ColumnName(lead, col, trail);
    hide Flat, KeyFree, SelectList, WithList, JoinComma, OutputName, Strip, Lower;
    FoundIsWritable(strip(files[path].original), parts);
    WritableWith(parts, k, lead, col', trail);
    ColumnName(lead, col', trail);
    assert forall i | 0 <= i < |parts| :: i != k ==> parts[k := x][i] == parts[i];
  }

  /** Renaming a bare column is reported, whether to another column or by an alias. */
  lemma RenameIsReported(
    strip: string -> string, files: map<string, FileState>, path: string,
    parts: seq<string>, k: nat, lead: string, c: string, trail: string, d: string, keyword: string)
    requires IsIdentifier(d) && d != c && Lower(keyword) == " as "
    requires Lower(d) != "from" && forall j: nat :: !OccursAt(Lower(d), "select", j)
    requires || RewritesColumn(strip, files, path, parts, k, lead, Bare(c), trail, Bare(d))
             || RewritesColumn(strip, files, path, parts, k, lead, Bare(c), trail, Aliased(c, keyword, d))
    ensures OutputSchemaDelta(strip, files, path) == Some(true)
  {
    WordIsKeyFree(d);
    WordIsFlat(d);
    WordIsFlat(c);
    if RewritesColumn(strip, files, path, parts, k, lead, Bare(c), trail, Bare(d)) {
      RewrittenColumnIff(strip, files, path, parts, k, lead, Bare(c), trail, Bare(d));
    } else {
      BareIsKeyFree(strip(files[path].original), parts, k, lead, c, trail);
      AliasIsPlain(c, keyword, d);
      RewrittenColumnIff(strip, files, path, parts, k, lead, Bare(c), trail, Aliased(c, keyword, d));
    }
  }

  /**
   Reading a bare column `c` from a renamed upstream column `d`, as `d as c`, keeps the output columns,
   told or not: whatever `c` is, and for every `d` that is not the word `from` and has no `select` in it.
   */
  lemma AliasKeepsColumns(
    text: string, parts: seq<string>, k: nat, lead: string, c: string, trail: string, d: string, keyword: string)
    requires ListedAs(text, parts) && k < |parts| && parts[k] == lead + c + trail
    requires Blank(lead) && Blank(trail) && IsIdentifier(c) && IsIdentifier(d) && Lower(keyword) == " as "
    requires Lower(d) != "from" && forall j: nat :: !OccursAt(Lower(d), "select", j)
    ensures var text' := WithList(text, JoinComma(parts[k := lead + (d + (keyword + c)) + trail]));
            FinalSelectColumns(text') == FinalSelectColumns(text)
  {
    var parts' := parts[k := lead + (d + (keyword + c)) + trail];
    WordIsKeyFree(d);
    BareIsKeyFree(text, parts, k, lead, c, trail);
    AliasIsPlain(d, keyword, c);
    FoundIsWritable(text, parts);
    hide *;
    WritableWith(parts, k, lead, Aliased(d, keyword, c), trail);
    WrittenPartsRead(text, parts');
    SameName(lead, c, trail, d, keyword);
    NamesSame(parts, k, parts'[k]);
  }

  lemma SameName(lead: string, c: string, trail: string, d: string, keyword: string)
    requires Blank(lead) && Blank(trail) && IsIdentifier(c) && IsIdentifier(d) && Lower(keyword) == " as "
    ensures OutputName(Strip(lead + c + trail)) == OutputName(Strip(lead + (d + (keyword + c)) + trail)) == Some(c)
  {
    WordIsFlat(d);
    ColumnName(lead, Bare(c), trail);
    ColumnName(lead, Aliased(d, keyword, c), trail);
  }

  lemma {:induction false} NamesSame(ps: seq<string>, k: nat, x: string)
    requires k < |ps| && OutputName(Strip(ps[k])) == OutputName(Strip(x))
    ensures Names(ps[k := x]) == Names(ps)
    decreases |ps|
  {
    if k == 0 {
      assert ps[k := x][1..] == ps[1..];
    } else {
      NamesSame(ps[1..], k - 1, x);
      assert ps[k := x][1..] == ps[1..][k - 1 := x];
    }
  }

  /** So where the columns can be told, such an edit reports no change. */
  lemma AliasReportsNoChange(
    strip: string -> string, files: map<string, FileState>, path: string,
    parts: seq<string>, k: nat, lead: string, c: string, trail: string, d: string, keyword: string)
    requires path in files && Lists(strip(files[path].original), parts) && k < |parts| && parts[k] == lead + c + trail
    requires Blank(lead) && Blank(trail) && IsIdentifier(c) && IsIdentifier(d) && Lower(keyword) == " as "
    requires Lower(d) != "from" && forall j: nat :: !OccursAt(Lower(d), "select", j)
    requires strip(files[path].current)
          == WithList(strip(files[path].original), JoinComma(parts[k := lead + (d + (keyword + c)) + trail]))
    ensures OutputSchemaDelta(strip, files, path) == Some(false)
  {
    var text := strip(files[path].original);
    AliasKeepsColumns(text, parts, k, lead, c, trail, d, keyword);
    FoundIsWritable(text, parts);
    NamesInOrder(parts);
    hide OutputName, Strip, Flat, SelectList, JoinComma, WithList, Lower, OccursAt, FinalSelectColumns, Names;
    DeltaIff(strip, files, path);
  }

  lemma WordIsFlat(d: string)
    requires IsIdentifier(d)
    ensures NoPunctuation(d) && d != "" && !IsSpace(d[0])
  {
  }

  lemma AliasIsPlain(d: string, keyword: string, c: string)
    requires IsIdentifier(d) && IsIdentifier(c) && Lower(keyword) == " as "
    requires KeyFree(Lower(d)) && KeyFree(Lower(c))
    ensures PlainColumn(Aliased(d, keyword, c))
  {
    WordIsFlat(d);
    WordIsFlat(c);
    AliasedKeyFree(d, keyword, c);
    assert forall i | 0 <= i < 4 :: LowerChar(keyword[i]) == Lower(keyword)[i];
    assert NoPunctuation(keyword);
  }

  /** A bare column of a list that is found is no keyword, and blanks follow it at the list's end. */
  lemma BareIsKeyFree(text: string, parts: seq<string>, k: nat, lead: string, c: string, trail: string)
    requires ListedAs(text, parts) && k < |parts| && Blank(lead) && Blank(trail) && IsIdentifier(c) && parts[k] == lead + c + trail
    ensures KeyFree(Lower(c)) && (k == |parts| - 1 ==> trail != "")
  {
    FoundIsWritable(text, parts);
    BlanksAround(lead, c, trail);
  }
}
