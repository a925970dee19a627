/** The CLI's config file: written by a small TOML serializer, read back by a TOML reader. */
module CliConfig {
  import opened Basics
  import opened Text

  // --- basic strings (TOML v1.0.0, "String") ---

  /** Control characters other than tab may not stand in a basic string or a comment. */
  predicate IsControl(c: char) {
    (c < ' ' && c != '\t') || c == '\U{7F}'
  }

  predicate Clean(s: string) {
    forall i | 0 <= i < |s| :: !IsControl(s[i])
  }

  /** `s.replace(c, with)` for a one-character `c` */
  function ReplaceChar(s: string, c: char, with: string): string {
    if s == "" then "" else (if s[0] == c then with else [s[0]]) + ReplaceChar(s[1..], c, with)
  }

  /** The writer's escape: backslashes first, then quotes. */
  function TwoPass(s: string): string {
    ReplaceChar(ReplaceChar(s, '\\', "\\\\"), '"', "\\\"")
  }

  function EscapeChar(c: char): string {
    if c == '\\' then "\\\\" else if c == '"' then "\\\"" else [c]
  }

  /** Escaping each character on its own. */
  function Escape(s: string): string {
    if s == "" then "" else EscapeChar(s[0]) + Escape(s[1..])
  }

  lemma {:induction false} ReplaceConcat(a: string, b: string, c: char, with: string)
    ensures ReplaceChar(a + b, c, with) == ReplaceChar(a, c, with) + ReplaceChar(b, c, with)
  {
    if a == "" {
      assert a + b == b;
    } else {
      assert (a + b)[1..] == a[1..] + b;
      ReplaceConcat(a[1..], b, c, with);
    }
  }

  lemma TwoPassOfChar(c: char)
    ensures ReplaceChar(ReplaceChar([c], '\\', "\\\\"), '"', "\\\"") == EscapeChar(c)
  {
    assert ReplaceChar([c], '\\', "\\\\") == if c == '\\' then "\\\\" else [c];
    assert "\\\\"[1..] == "\\";
  }

  /** The two passes do not interfere: no quote is escaped twice and no escape is escaped again. */
  lemma {:induction false} TwoPassIsEscape(s: string)
    ensures TwoPass(s) == Escape(s)
  {
    if s != "" {
      TwoPassIsEscape(s[1..]);
      var head := ReplaceChar([s[0]], '\\', "\\\\");
      assert s == [s[0]] + s[1..];
      ReplaceConcat([s[0]], s[1..], '\\', "\\\\");
      ReplaceConcat(head, ReplaceChar(s[1..], '\\', "\\\\"), '"', "\\\"");
      TwoPassOfChar(s[0]);
    }
  }

  predicate IsHex(c: char) { IsDigit(c) || 'a' <= c <= 'f' || 'A' <= c <= 'F' }

  function HexDigit(c: char): nat
    requires IsHex(c)
  {
    if IsDigit(c) then c as int - '0' as int
    else if 'a' <= c <= 'f' then 10 + c as int - 'a' as int
    else 10 + c as int - 'A' as int
  }

  function HexValue(s: string): Option<nat> {
    if s == "" then Some(0)
    else if !IsHex(s[|s| - 1]) then None
    else
      var high :- HexValue(s[..|s| - 1]);
      Some(16 * high + HexDigit(s[|s| - 1]))
  }

  /** What a `\u` or `\U` escape stands for: a Unicode scalar value. */
  function Scalar(hex: string): Option<char> {
    var n :- HexValue(hex);
    if n < 0xD800 || 0xE000 <= n < 0x11_0000 then Some(n as char) else None
  }

  /** The character an escape stands for, and the escape's length. */
  function Unescape(s: string): Option<(char, nat)>
    requires |s| >= 2 && s[0] == '\\'
  {
    match s[1]
    case '"' => Some(('"', 2))
    case '\\' => Some(('\\', 2))
    case 'b' => Some(('\U{08}', 2))
    case 't' => Some(('\t', 2))
    case 'n' => Some(('\n', 2))
    case 'f' => Some(('\U{0C}', 2))
    case 'r' => Some(('\r', 2))
    case 'u' => if |s| < 6 then None else (var c :- Scalar(s[2..6]); Some((c, 6)))
    case 'U' => if |s| < 10 then None else (var c :- Scalar(s[2..10]); Some((c, 10)))
    case _ => None
  }

  /** The value of a basic string whose opening quote has been read, and what follows its closing one. */
  function ScanString(s: string): (r: Option<(string, string)>)
    ensures r.Some? ==> |r.value.1| < |s|
    decreases |s|
  {
    if s == "" then None
    else if s[0] == '"' then Some(("", s[1..]))
    else if IsControl(s[0]) then None
    else if s[0] != '\\' then
      var (v, rest) :- ScanString(s[1..]);
      Some(([s[0]] + v, rest))
    else if |s| < 2 then None
    else
      var (c, n) :- Unescape(s);
      if n > |s| then None
      else
        var (v, rest) :- ScanString(s[n..]);
        Some(([c] + v, rest))
  }

  /** Reading undoes escaping, on clean text and on no other. */
  lemma {:induction false} ScanInvertsEscape(v: string, rest: string)
    ensures ScanString(Escape(v) + "\"" + rest) == if Clean(v) then Some((v, rest)) else None
  {
    if v == "" {
      assert Escape(v) + "\"" + rest == "\"" + rest;
    } else {
      var tail := Escape(v[1..]) + "\"" + rest;
      ScanInvertsEscape(v[1..], rest);
      EscapedHead(v[0], tail);
      assert Escape(v) + "\"" + rest == EscapeChar(v[0]) + tail;
      assert v == [v[0]] + v[1..];
      CleanHead(v);
    }
  }

  lemma CleanHead(v: string)
    requires v != ""
    ensures Clean(v) <==> !IsControl(v[0]) && Clean(v[1..])
  {
    assert forall i | 0 < i < |v| :: v[i] == v[1..][i - 1];
  }

  lemma {:induction false} EscapedHead(c: char, tail: string)
    ensures ScanString(EscapeChar(c) + tail)
         == if IsControl(c) then None
            else match ScanString(tail) case None => None case Some(r) => Some(([c] + r.0, r.1))
  {
    var s := EscapeChar(c) + tail;
    if c == '\\' || c == '"' {
      assert s[0] == '\\' && s[1] == c && s[2..] == tail;
    } else {
      assert s[0] == c && s[1..] == tail;
    }
  }

  // --- documents ---

  /** A line of a document: the subset the writer uses. */
  datatype Item = Comment(text: string) | Empty | Header(name: string) | Entry(key: string, value: string)

  predicate IsBare(c: char) { IsIdStart(c) || IsDigit(c) || c == '-' }

  predicate IsBareKey(s: string) {
    s != "" && forall i | 0 <= i < |s| :: IsBare(s[i])
  }

  function Render(item: Item): string {
    match item
    case Comment(text) => "#" + text + "\n"
    case Empty => "\n"
    case Header(name) => "[" + name + "]\n"
    case Entry(key, value) => key + " = \"" + TwoPass(value) + "\"\n"
  }

  function RenderAll(items: seq<Item>): string {
    if items == [] then "" else Render(items[0]) + RenderAll(items[1..])
  }

  /** The tables read so far, the root table under "", and the one being filled. */
  datatype Doc = Doc(tables: map<string, map<string, string>>, current: string)

  const ROOT := Doc(map["" := map[]], "")

  function Define(doc: Doc, key: string, value: string): Option<Doc> {
    if doc.current !in doc.tables || key in doc.tables[doc.current] then None
    else Some(doc.(tables := doc.tables[doc.current := doc.tables[doc.current][key := value]]))
  }

  function Open(doc: Doc, name: string): Option<Doc> {
    if name in doc.tables then None else Some(Doc(doc.tables[name := map[]], name))
  }

  /** What an item adds to a document; none for a repeated key or table, or a value the format cannot hold. */
  function Put(doc: Doc, item: Item): Option<Doc> {
    match item
    case Comment(_) => Some(doc)
    case Empty => Some(doc)
    case Header(name) => Open(doc, name)
    case Entry(key, value) => if Clean(value) then Define(doc, key, value) else None
  }

  function PutAll(doc: Doc, items: seq<Item>): Option<Doc>
    decreases |items|
  {
    if items == [] then Some(doc)
    else
      var next :- Put(doc, items[0]);
      PutAll(next, items[1..])
  }

  /** Comments hold no control character, and names are bare keys. */
  predicate ItemOk(item: Item) {
    match item
    case Comment(text) => Clean(text)
    case Empty => true
    case Header(name) => IsBareKey(name)
    case Entry(key, _) => IsBareKey(key)
  }

  // --- the reader ---

  function BareRun(s: string): (n: nat)
    ensures n <= |s| && forall i | 0 <= i < n :: IsBare(s[i])
  {
    if s == "" || !IsBare(s[0]) then 0 else 1 + BareRun(s[1..])
  }

  function SkipBlanks(s: string): (r: string)
    ensures |r| <= |s|
  {
    if s == "" || (s[0] != ' ' && s[0] != '\t') then s else SkipBlanks(s[1..])
  }

  /** The rest after a line's end, where only blanks and a comment may stand before it. */
  function EndLine(s: string): (r: Option<string>)
    ensures r.Some? ==> |r.value| <= |s| && (s != "" ==> |r.value| < |s|)
  {
    var t := SkipBlanks(s);
    if t == "" then Some("")
    else if t[0] == '\n' then Some(t[1..])
    else if t[0] == '#' then SkipComment(t[1..])
    else None
  }

  function SkipComment(s: string): (r: Option<string>)
    ensures r.Some? ==> |r.value| <= |s|
  {
    if s == "" then Some("")
    else if s[0] == '\n' then Some(s[1..])
    else if IsControl(s[0]) then None
    else SkipComment(s[1..])
  }

  /** A bare key in front of `s`, and what follows it. */
  function ScanKey(s: string): (r: Option<(string, string)>)
    ensures r.Some? ==> |r.value.1| < |s|
  {
    var n := BareRun(s);
    if n == 0 then None else Some((s[..n], s[n..]))
  }

  function ScanChar(s: string, c: char): (r: Option<string>)
    ensures r.Some? ==> |r.value| < |s|
  {
    var t := SkipBlanks(s);
    if t != "" && t[0] == c then Some(t[1..]) else None
  }

  /** One `key = "value"` or `[table]` line, and the text after it. */
  function ReadLine(doc: Doc, s: string): (r: Option<(Doc, string)>)
    requires s != ""
    ensures r.Some? ==> |r.value.1| < |s|
  {
    if s[0] == '[' then
      var (name, t) :- ScanKey(s[1..]);
      var u :- ScanChar(t, ']');
      var rest :- EndLine(u);
      var next :- Open(doc, name);
      Some((next, rest))
    else
      var (key, t) :- ScanKey(s);
      var u :- ScanChar(t, '=');
      var w :- ScanChar(u, '"');
      var (value, x) :- ScanString(w);
      var rest :- EndLine(x);
      var next :- Define(doc, key, value);
      Some((next, rest))
  }

  function Parse(doc: Doc, s: string): Option<Doc>
    decreases |s|
  {
    var t := SkipBlanks(s);
    if t == "" then Some(doc)
    else if t[0] == '\n' then Parse(doc, t[1..])
    else if t[0] == '#' then
      var rest :- SkipComment(t[1..]);
      Parse(doc, rest)
    else
      var (next, rest) :- ReadLine(doc, t);
      Parse(next, rest)
  }

  // --- reading what was written ---

  lemma {:induction false} SkipCommentOf(text: string, rest: string)
    requires Clean(text)
    ensures SkipComment(text + "\n" + rest) == Some(rest)
  {
    if text == "" {
      assert text + "\n" + rest == "\n" + rest;
    } else {
      CleanHead(text);
      SkipCommentOf(text[1..], rest);
      assert (text + "\n" + rest)[1..] == text[1..] + "\n" + rest;
    }
  }

  lemma {:induction false} BareRunOf(key: string, rest: string)
    requires (forall i | 0 <= i < |key| :: IsBare(key[i])) && rest != "" && !IsBare(rest[0])
    ensures BareRun(key + rest) == |key|
  {
    if key == "" {
      assert key + rest == rest;
    } else {
      BareRunOf(key[1..], rest);
      assert (key + rest)[1..] == key[1..] + rest;
    }
  }

  lemma ScanKeyOf(key: string, rest: string)
    requires IsBareKey(key) && rest != "" && !IsBare(rest[0])
    ensures ScanKey(key + rest) == Some((key, rest))
  {
    BareRunOf(key, rest);
    assert (key + rest)[..|key|] == key && (key + rest)[|key|..] == rest;
  }

  lemma ReadHeader(doc: Doc, name: string, rest: string)
    requires IsBareKey(name)
    ensures ReadLine(doc, Render(Header(name)) + rest)
         == match Open(doc, name) case None => None case Some(next) => Some((next, rest))
  {
    var s := Render(Header(name)) + rest;
    assert s == "[" + (name + ("]" + ("\n" + rest)));
    assert s[0] == '[' && s[1..] == name + ("]" + ("\n" + rest));
    ScanKeyOf(name, "]" + ("\n" + rest));
    assert ("]" + ("\n" + rest))[1..] == "\n" + rest;
    assert ("\n" + rest)[1..] == rest;
  }

  lemma EqualsAndQuote(quoted: string)
    ensures ScanChar(" = \"" + quoted, '=') == Some(" \"" + quoted)
    ensures ScanChar(" \"" + quoted, '"') == Some(quoted)
  {
    var t := " = \"" + quoted;
    assert t[1..] == "= \"" + quoted && t[1..][1..] == " \"" + quoted;
    assert (" \"" + quoted)[1..] == "\"" + quoted && ("\"" + quoted)[1..] == quoted;
    assert SkipBlanks(t) == t[1..];
    assert SkipBlanks(" \"" + quoted) == SkipBlanks("\"" + quoted) == "\"" + quoted;
  }

  lemma LineEnds(rest: string)
    ensures EndLine("\n" + rest) == Some(rest)
  {
    assert ("\n" + rest)[1..] == rest;
  }

  lemma ReadEntry(doc: Doc, key: string, value: string, rest: string)
    requires IsBareKey(key)
    ensures ReadLine(doc, Render(Entry(key, value)) + rest)
         == match Put(doc, Entry(key, value)) case None => None case Some(next) => Some((next, rest))
  {
    var quoted := Escape(value) + "\"" + ("\n" + rest);
    TwoPassIsEscape(value);
    EntryText(key, value, rest);
    assert IsBare(key[0]);
    ScanKeyOf(key, " = \"" + quoted);
    EqualsAndQuote(quoted);
    ScanInvertsEscape(value, "\n" + rest);
    LineEnds(rest);
    hide ScanKey, ScanString, ScanChar, EndLine, Escape, Clean, TwoPass, Render, Define;
  }

  lemma {:induction false} EntryText(key: string, value: string, rest: string)
    requires TwoPass(value) == Escape(value) && key != ""
    ensures Render(Entry(key, value)) + rest == key + (" = \"" + (Escape(value) + "\"" + ("\n" + rest)))
    ensures (Render(Entry(key, value)) + rest)[0] == key[0]
  {
  }

  lemma {:induction false} ParseItem(doc: Doc, item: Item, rest: string)
    requires ItemOk(item)
    ensures Parse(doc, Render(item) + rest)
         == match Put(doc, item) case None => None case Some(next) => Parse(next, rest)
  {
    var s := Render(item) + rest;
    match item
    case Comment(text) =>
      assert s == "#" + (text + "\n" + rest);
      assert s[1..] == text + "\n" + rest;
      SkipCommentOf(text, rest);
    case Empty =>
      assert s[1..] == rest;
    case Header(name) =>
      assert s[0] == '[';
      ReadHeader(doc, name, rest);
    case Entry(key, value) =>
      assert s[0] == key[0] && IsBare(key[0]);
      ReadEntry(doc, key, value, rest);
  }

  /** The reader makes of a written document what its items say, and rejects it exactly when they do not fit. */
  lemma {:induction false} ParseInvertsRender(doc: Doc, items: seq<Item>)
    requires forall k | 0 <= k < |items| :: ItemOk(items[k])
    ensures Parse(doc, RenderAll(items)) == PutAll(doc, items)
    decreases |items|
  {
    if items != [] {
      ParseItem(doc, items[0], RenderAll(items[1..]));
      hide Render, ItemOk;
      match Put(doc, items[0])
      case None =>
      case Some(next) => ParseInvertsRender(next, items[1..]);
    }
  }

  // --- the CLI's settings ---

  datatype Cli = Cli(
    repo: string,
    webhookUrl: string,
    adapter: string,
    llmProvider: string,
    gitToken: string,
    llmApiKey: string,
    sampleWarehouseUrl: string,
    webhookSecret: string)

  const DEFAULTS := Cli("unknown", "http://localhost:8080/webhook", "postgres", "replay", "", "", "", "")

  /** The writer's fixed comments: the file's heading, and one above each secret. */
  datatype Remarks = Remarks(heading: seq<string>, git: string, llm: string, sample: string, webhook: string)

  predicate RemarksOk(r: Remarks) {
    (forall k | 0 <= k < |r.heading| :: Clean(r.heading[k])) && Clean(r.git) && Clean(r.llm) && Clean(r.sample) && Clean(r.webhook)
  }

  function Comments(texts: seq<string>): (items: seq<Item>)
    ensures |items| == |texts| && forall k | 0 <= k < |texts| :: items[k] == Comment(texts[k])
  {
    seq(|texts|, k requires 0 <= k < |texts| => Comment(texts[k]))
  }

  /** A secret's lines; nothing for one that is not set. */
  function Secret(remark: string, key: string, value: string): seq<Item> {
    if value == "" then [] else [Comment(remark), Entry(key, value)]
  }

  function Secrets(r: Remarks, c: Cli): seq<Item> {
    Secret(r.git, "git_token", c.gitToken) + Secret(r.llm, "llm_api_key", c.llmApiKey)
    + Secret(r.sample, "sample_warehouse_url", c.sampleWarehouseUrl) + Secret(r.webhook, "webhook_secret", c.webhookSecret)
  }

  function Settings(c: Cli): seq<Item> {
    [Entry("repo", c.repo), Entry("webhook_url", c.webhookUrl), Entry("adapter", c.adapter), Entry("llm_provider", c.llmProvider)]
  }

  function Document(r: Remarks, c: Cli): seq<Item> {
    Comments(r.heading) + [Empty] + Settings(c)
    + if Secrets(r, c) == [] then [] else [Empty, Header("secrets")] + Secrets(r, c)
  }

  // --- the writer ---

  function LineOf(item: Item): string {
    match item
    case Comment(text) => "#" + text
    case Empty => ""
    case Header(name) => "[" + name + "]"
    case Entry(key, value) => key + " = \"" + TwoPass(value) + "\""
  }

  function Lines(items: seq<Item>): (lines: seq<string>)
    ensures |lines| == |items| && forall k | 0 <= k < |items| :: lines[k] == LineOf(items[k])
  {
    seq(|items|, k requires 0 <= k < |items| => LineOf(items[k]))
  }

  lemma {:induction false} JoinedIsRendered(items: seq<Item>)
    requires items != []
    ensures JoinLines(Lines(items)) + "\n" == RenderAll(items)
    decreases |items|
  {
    assert Render(items[0]) == LineOf(items[0]) + "\n";
    if |items| == 1 {
      assert RenderAll(items[1..]) == "";
    } else {
      JoinedIsRendered(items[1..]);
      assert Lines(items)[1..] == Lines(items[1..]);
      hide Render, LineOf;
      Assoc4(LineOf(items[0]), "\n", JoinLines(Lines(items[1..])), "\n");
    }
  }

  method SecretLines(remark: string, key: string, value: string) returns (lines: seq<string>)
    ensures lines == Lines(Secret(remark, key, value))
  {
    lines := [];
    if value != "" {
      lines := lines + ["#" + remark];
      lines := lines + [key + " = \"" + TwoPass(value) + "\""];
    }
  }

  lemma LinesConcat(a: seq<Item>, b: seq<Item>)
    ensures Lines(a + b) == Lines(a) + Lines(b)
  {
  }

  /** `to_toml` */
  method ToToml(r: Remarks, c: Cli) returns (text: string)
    ensures text == RenderAll(Document(r, c))
  {
    hide Secret, LineOf;
    var lines := Lines(Comments(r.heading) + [Empty] + Settings(c));
    var git := SecretLines(r.git, "git_token", c.gitToken);
    var llm := SecretLines(r.llm, "llm_api_key", c.llmApiKey);
    var sample := SecretLines(r.sample, "sample_warehouse_url", c.sampleWarehouseUrl);
    var webhook := SecretLines(r.webhook, "webhook_secret", c.webhookSecret);
    var secretLines := git + llm + sample + webhook;
    assert secretLines == Lines(Secrets(r, c));
    if secretLines != [] {
      lines := lines + Lines([Empty, Header("secrets")]);
      lines := lines + secretLines;
      LinesConcat(Comments(r.heading) + [Empty] + Settings(c), [Empty, Header("secrets")] + Secrets(r, c));
      LinesConcat([Empty, Header("secrets")], Secrets(r, c));
      assert lines == Lines(Document(r, c));
    } else {
      assert Document(r, c) == Comments(r.heading) + [Empty] + Settings(c);
    }
    JoinedIsRendered(Document(r, c));
    text := JoinLines(lines) + "\n";
  }

  // --- the loader ---

  function Lookup(m: map<string, string>, key: string, default: string): string {
    if key in m then m[key] else default
  }

  function Table(doc: Doc, name: string): map<string, string> {
    if name in doc.tables then doc.tables[name] else map[]
  }

  function FromDoc(doc: Doc): Cli {
    var (data, secrets) := (Table(doc, ""), Table(doc, "secrets"));
    Cli(Lookup(data, "repo", DEFAULTS.repo), Lookup(data, "webhook_url", DEFAULTS.webhookUrl),
        Lookup(data, "adapter", DEFAULTS.adapter), Lookup(data, "llm_provider", DEFAULTS.llmProvider),
        Lookup(secrets, "git_token", ""), Lookup(secrets, "llm_api_key", ""),
        Lookup(secrets, "sample_warehouse_url", ""), Lookup(secrets, "webhook_secret", ""))
  }

  /** Environment variables win over the file. */
  function Overridden(c: Cli, env: map<string, string>): Cli {
    c.(repo := Lookup(env, "SBFLOW_REPO", c.repo), webhookUrl := Lookup(env, "SBFLOW_WEBHOOK_URL", c.webhookUrl),
       adapter := Lookup(env, "SBFLOW_ADAPTER", c.adapter), webhookSecret := Lookup(env, "SBFLOW_WEBHOOK_SECRET", c.webhookSecret))
  }

  /** `load`: no settings when the file is not well-formed TOML. */
  method Load(file: Option<string>, env: map<string, string>) returns (cfg: Option<Cli>)
    ensures cfg == match file
                   case None => Some(Overridden(DEFAULTS, env))
                   case Some(text) =>
                     match Parse(ROOT, text) case None => None case Some(doc) => Some(Overridden(FromDoc(doc), env))
  {
    var c := DEFAULTS;
    if file.Some? {
      var doc := Parse(ROOT, file.value);
      if doc.None? { return None; }
      c := FromDoc(doc.value);
    }
    if "SBFLOW_REPO" in env { c := c.(repo := env["SBFLOW_REPO"]); }
    if "SBFLOW_WEBHOOK_URL" in env { c := c.(webhookUrl := env["SBFLOW_WEBHOOK_URL"]); }
    if "SBFLOW_ADAPTER" in env { c := c.(adapter := env["SBFLOW_ADAPTER"]); }
    if "SBFLOW_WEBHOOK_SECRET" in env { c := c.(webhookSecret := env["SBFLOW_WEBHOOK_SECRET"]); }
    cfg := Some(c);
  }

  // --- the round trip ---

  /** Every setting can stand in a basic string. */
  predicate AllClean(c: Cli) {
    && Clean(c.repo) && Clean(c.webhookUrl) && Clean(c.adapter) && Clean(c.llmProvider)
    && Clean(c.gitToken) && Clean(c.llmApiKey) && Clean(c.sampleWarehouseUrl) && Clean(c.webhookSecret)
  }

  lemma {:induction false} PutConcat(doc: Doc, a: seq<Item>, b: seq<Item>)
    ensures PutAll(doc, a + b) == match PutAll(doc, a) case None => None case Some(next) => PutAll(next, b)
    decreases |a|
  {
    hide Put;
    if a == [] {
      assert a + b == b;
    } else {
      assert (a + b)[0] == a[0] && (a + b)[1..] == a[1..] + b;
      match Put(doc, a[0])
      case None =>
      case Some(next) => PutConcat(next, a[1..], b);
    }
  }

  lemma {:induction false} PutComments(doc: Doc, texts: seq<string>)
    ensures PutAll(doc, Comments(texts)) == Some(doc)
    decreases |texts|
  {
    if texts != [] {
      PutComments(doc, texts[1..]);
      assert Comments(texts)[1..] == Comments(texts[1..]);
    }
  }

  lemma {:induction false} PutOne(doc: Doc, item: Item)
    ensures PutAll(doc, [item]) == Put(doc, item)
  {
  }

  const BASICS: seq<string> := ["repo", "webhook_url", "adapter", "llm_provider"]

  function SettingsTable(c: Cli): map<string, string> {
    map["repo" := c.repo, "webhook_url" := c.webhookUrl, "adapter" := c.adapter, "llm_provider" := c.llmProvider]
  }

  lemma {:induction false} PutCons(doc: Doc, item: Item, items: seq<Item>)
    ensures PutAll(doc, [item] + items) == match Put(doc, item) case None => None case Some(next) => PutAll(next, items)
  {
    assert ([item] + items)[1..] == items;
  }

  /** The k-th basic setting goes into the root table, under a key not used before. */
  lemma {:induction false} PutBasic(m: map<string, string>, key: string, value: string, items: seq<Item>)
    requires key !in m
    ensures PutAll(Doc(map["" := m], ""), [Entry(key, value)] + items)
         == if Clean(value) then PutAll(Doc(map["" := m[key := value]], ""), items) else None
  {
    hide Clean;
    var doc := Doc(map["" := m], "");
    PutCons(doc, Entry(key, value), items);
    assert doc.tables["" := m[key := value]] == map["" := m[key := value]];
  }

  lemma PutSettings(c: Cli)
    ensures PutAll(ROOT, Settings(c))
         == if Clean(c.repo) && Clean(c.webhookUrl) && Clean(c.adapter) && Clean(c.llmProvider)
            then Some(Doc(map["" := SettingsTable(c)], "")) else None
  {
    var (a, b, d, e) := (Entry("repo", c.repo), Entry("webhook_url", c.webhookUrl), Entry("adapter", c.adapter), Entry("llm_provider", c.llmProvider));
    assert Settings(c) == [a] + ([b] + ([d] + ([e] + [])));
    hide Clean, Settings;
    var m1 := map["repo" := c.repo];
    assert map[]["repo" := c.repo] == m1;
    PutBasic(map[], "repo", c.repo, [b] + ([d] + ([e] + [])));
    var m2 := m1["webhook_url" := c.webhookUrl];
    PutBasic(m1, "webhook_url", c.webhookUrl, [d] + ([e] + []));
    var m3 := m2["adapter" := c.adapter];
    PutBasic(m2, "adapter", c.adapter, [e] + []);
    PutBasic(m3, "llm_provider", c.llmProvider, []);
    assert m3["llm_provider" := c.llmProvider] == SettingsTable(c);
    hide Put;
    assert PutAll(Doc(map["" := SettingsTable(c)], ""), []) == Some(Doc(map["" := SettingsTable(c)], ""));
  }

  /** A secret adds its key exactly when it is set. */
  lemma PutSecret(doc: Doc, remark: string, key: string, value: string)
    requires "secrets" in doc.tables && doc.current == "secrets" && key !in doc.tables["secrets"]
    ensures PutAll(doc, Secret(remark, key, value))
         == if value == "" then Some(doc)
            else if Clean(value) then Some(doc.(tables := doc.tables["secrets" := doc.tables["secrets"][key := value]]))
            else None
  {
    if value != "" {
      assert Secret(remark, key, value) == [Comment(remark)] + ([Entry(key, value)] + []);
      hide Clean;
      PutCons(doc, Comment(remark), [Entry(key, value)] + []);
      PutCons(doc, Entry(key, value), []);
    }
  }

  /** The secrets set, by key. */
  function SecretsTable(c: Cli): map<string, string> {
    WithSecret(WithSecret(WithSecret(WithSecret(map[],
      "git_token", c.gitToken), "llm_api_key", c.llmApiKey), "sample_warehouse_url", c.sampleWarehouseUrl),
      "webhook_secret", c.webhookSecret)
  }

  function WithSecret(m: map<string, string>, key: string, value: string): map<string, string> {
    if value == "" then m else m[key := value]
  }

  function SecretsDoc(m: map<string, string>, s: map<string, string>): Doc {
    Doc(map["" := m, "secrets" := s], "secrets")
  }

  lemma {:induction false} PutSecretIn(m: map<string, string>, s: map<string, string>, remark: string, key: string, value: string, rest: seq<Item>)
    requires key !in s
    ensures PutAll(SecretsDoc(m, s), Secret(remark, key, value) + rest)
         == if Clean(value) then PutAll(SecretsDoc(m, WithSecret(s, key, value)), rest) else None
  {
    var doc := SecretsDoc(m, s);
    PutSecret(doc, remark, key, value);
    PutConcat(doc, Secret(remark, key, value), rest);
    assert doc.tables["secrets" := s[key := value]] == SecretsDoc(m, s[key := value]).tables;
    hide PutAll, Secret;
  }

  lemma PutSecrets(m: map<string, string>, r: Remarks, c: Cli)
    ensures PutAll(SecretsDoc(m, map[]), Secrets(r, c))
         == if Clean(c.gitToken) && Clean(c.llmApiKey) && Clean(c.sampleWarehouseUrl) && Clean(c.webhookSecret)
            then Some(SecretsDoc(m, SecretsTable(c))) else None
  {
    var (a, b, d, e) := (Secret(r.git, "git_token", c.gitToken), Secret(r.llm, "llm_api_key", c.llmApiKey),
                         Secret(r.sample, "sample_warehouse_url", c.sampleWarehouseUrl), Secret(r.webhook, "webhook_secret", c.webhookSecret));
    assert Secrets(r, c) == a + (b + (d + (e + [])));
    var s1 := WithSecret(map[], "git_token", c.gitToken);
    var s2 := WithSecret(s1, "llm_api_key", c.llmApiKey);
    var s3 := WithSecret(s2, "sample_warehouse_url", c.sampleWarehouseUrl);
    hide Clean, Secrets, Secret, Put, SecretsDoc;
    PutSecretIn(m, map[], r.git, "git_token", c.gitToken, b + (d + (e + [])));
    PutSecretIn(m, s1, r.llm, "llm_api_key", c.llmApiKey, d + (e + []));
    PutSecretIn(m, s2, r.sample, "sample_warehouse_url", c.sampleWarehouseUrl, e + []);
    PutSecretIn(m, s3, r.webhook, "webhook_secret", c.webhookSecret, []);
  }

  lemma NoSecrets(r: Remarks, c: Cli)
    ensures Secrets(r, c) == [] <==> c.gitToken == "" && c.llmApiKey == "" && c.sampleWarehouseUrl == "" && c.webhookSecret == ""
    ensures Secrets(r, c) == [] ==> SecretsTable(c) == map[]
  {
  }

  /** What a written document holds. */
  function DocOf(r: Remarks, c: Cli): Doc {
    if Secrets(r, c) == [] then Doc(map["" := SettingsTable(c)], "") else SecretsDoc(SettingsTable(c), SecretsTable(c))
  }

  lemma {:induction false} PutHead(r: Remarks, c: Cli, rest: seq<Item>)
    ensures PutAll(ROOT, Comments(r.heading) + [Empty] + Settings(c) + rest)
         == if Clean(c.repo) && Clean(c.webhookUrl) && Clean(c.adapter) && Clean(c.llmProvider)
            then PutAll(Doc(map["" := SettingsTable(c)], ""), rest) else None
  {
    PutComments(ROOT, r.heading);
    PutConcat(ROOT, Comments(r.heading), [Empty]);
    PutConcat(ROOT, Comments(r.heading) + [Empty], Settings(c));
    PutConcat(ROOT, Comments(r.heading) + [Empty] + Settings(c), rest);
    PutSettings(c);
    PutOne(ROOT, Empty);
    hide PutAll, Clean, Settings, Comments;
  }

  lemma {:induction false} PutSecretsTable(m: map<string, string>, rest: seq<Item>)
    ensures PutAll(Doc(map["" := m], ""), [Empty, Header("secrets")] + rest) == PutAll(SecretsDoc(m, map[]), rest)
  {
    var doc := Doc(map["" := m], "");
    assert [Empty, Header("secrets")] + rest == [Empty] + ([Header("secrets")] + rest);
    PutCons(doc, Empty, [Header("secrets")] + rest);
    PutCons(doc, Header("secrets"), rest);
    assert doc.tables["secrets" := map[]] == SecretsDoc(m, map[]).tables;
  }

  lemma PutDocument(r: Remarks, c: Cli)
    ensures PutAll(ROOT, Document(r, c)) == if AllClean(c) then Some(DocOf(r, c)) else None
  {
    NoSecrets(r, c);
    var tail := if Secrets(r, c) == [] then [] else [Empty, Header("secrets")] + Secrets(r, c);
    PutHead(r, c, tail);
    PutSecretsTable(SettingsTable(c), Secrets(r, c));
    PutSecrets(SettingsTable(c), r, c);
    hide Settings, Comments, Secrets, SettingsTable, SecretsTable, SecretsDoc, Put;
    assert Document(r, c) == Comments(r.heading) + [Empty] + Settings(c) + tail;
  }

  predicate ItemsOk(items: seq<Item>) {
    forall k | 0 <= k < |items| :: ItemOk(items[k])
  }

  lemma ItemsOkConcat(a: seq<Item>, b: seq<Item>)
    requires ItemsOk(a) && ItemsOk(b)
    ensures ItemsOk(a + b)
  {
  }

  lemma SettingsOk(c: Cli)
    ensures ItemsOk(Settings(c)) && ItemsOk([Empty]) && ItemsOk([Empty, Header("secrets")])
  {
    assert IsBareKey("repo") && IsBareKey("webhook_url") && IsBareKey("adapter") && IsBareKey("llm_provider");
    assert IsBareKey("secrets");
  }

  lemma SecretOk(remark: string, key: string, value: string)
    requires Clean(remark) && IsBareKey(key)
    ensures ItemsOk(Secret(remark, key, value))
  {
    hide Clean, IsBareKey;
  }

  lemma SecretsOk(r: Remarks, c: Cli)
    requires RemarksOk(r)
    ensures ItemsOk(Secrets(r, c))
  {
    assert IsBareKey("git_token") && IsBareKey("llm_api_key") && IsBareKey("sample_warehouse_url") && IsBareKey("webhook_secret");
    hide IsBareKey, Clean, Secret, ItemsOk;
    var (a, b, d, e) := (Secret(r.git, "git_token", c.gitToken), Secret(r.llm, "llm_api_key", c.llmApiKey),
                         Secret(r.sample, "sample_warehouse_url", c.sampleWarehouseUrl), Secret(r.webhook, "webhook_secret", c.webhookSecret));
    SecretOk(r.git, "git_token", c.gitToken);
    SecretOk(r.llm, "llm_api_key", c.llmApiKey);
    SecretOk(r.sample, "sample_warehouse_url", c.sampleWarehouseUrl);
    SecretOk(r.webhook, "webhook_secret", c.webhookSecret);
    ItemsOkConcat(a, b);
    ItemsOkConcat(a + b, d);
    ItemsOkConcat(a + b + d, e);
  }

  lemma DocumentOk(r: Remarks, c: Cli)
    requires RemarksOk(r)
    ensures ItemsOk(Document(r, c))
  {
    assert ItemsOk(Comments(r.heading)) && ItemsOk([]);
    SettingsOk(c);
    SecretsOk(r, c);
    hide ItemsOk, Settings, Secrets, RemarksOk;
    ItemsOkConcat(Comments(r.heading), [Empty]);
    ItemsOkConcat(Comments(r.heading) + [Empty], Settings(c));
    ItemsOkConcat([Empty, Header("secrets")], Secrets(r, c));
    var tail := if Secrets(r, c) == [] then [] else [Empty, Header("secrets")] + Secrets(r, c);
    ItemsOkConcat(Comments(r.heading) + [Empty] + Settings(c), tail);
  }

  lemma FromWritten(r: Remarks, c: Cli)
    ensures FromDoc(DocOf(r, c)) == c
    ensures forall key :: key in Table(DocOf(r, c), "secrets") <==> key in SecretsTable(c)
  {
    NoSecrets(r, c);
    hide Secrets;
  }

  /**
   The round trip. The reader accepts a written file exactly when every setting is free of control
   characters other than tab, and then gives back every setting; a secret's key is in the file exactly
   when the secret is not empty.
   */
  lemma ConfigRoundTrips(r: Remarks, c: Cli)
    requires RemarksOk(r)
    ensures var doc := Parse(ROOT, RenderAll(Document(r, c)));
            && (doc.Some? <==> AllClean(c))
            && (doc.Some? ==>
                  && FromDoc(doc.value) == c
                  && var secrets := Table(doc.value, "secrets");
                     && ("git_token" in secrets <==> c.gitToken != "")
                     && ("llm_api_key" in secrets <==> c.llmApiKey != "")
                     && ("sample_warehouse_url" in secrets <==> c.sampleWarehouseUrl != "")
                     && ("webhook_secret" in secrets <==> c.webhookSecret != ""))
  {
    DocumentOk(r, c);
    ParseInvertsRender(ROOT, Document(r, c));
    PutDocument(r, c);
    FromWritten(r, c);
    hide Parse, RenderAll, Document, FromDoc, DocOf, Table, AllClean, PutAll;
  }
}
