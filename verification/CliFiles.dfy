/** Configuration files as people write them: some of the settings, in any order, and any escapes. */
module CliFiles {
  import opened Basics
  import opened Text
  import opened CliConfig

  // --- a file of settings ---

  datatype Setting = Setting(key: string, value: string)

  function Entries(settings: seq<Setting>): (items: seq<Item>)
    ensures |items| == |settings| && forall k | 0 <= k < |settings| :: items[k] == Entry(settings[k].key, settings[k].value)
  {
    seq(|settings|, k requires 0 <= k < |settings| => Entry(settings[k].key, settings[k].value))
  }

  /** No key is set twice, nor again if it is in `m`, and no value holds a control character. */
  predicate Acceptable(m: map<string, string>, settings: seq<Setting>) {
    && (forall k | 0 <= k < |settings| :: settings[k].key !in m && Clean(settings[k].value))
    && forall i, k | 0 <= i < k < |settings| :: settings[i].key != settings[k].key
  }

  function Filled(m: map<string, string>, settings: seq<Setting>): map<string, string>
    decreases |settings|
  {
    if settings == [] then m else Filled(m[settings[0].key := settings[0].value], settings[1..])
  }

  lemma {:induction false} FilledHas(m: map<string, string>, settings: seq<Setting>, key: string)
    requires Acceptable(m, settings)
    ensures key in m ==> key in Filled(m, settings) && Filled(m, settings)[key] == m[key]
    ensures forall k | 0 <= k < |settings| && settings[k].key == key ::
              key in Filled(m, settings) && Filled(m, settings)[key] == settings[k].value
    ensures key in Filled(m, settings) ==> key in m || exists k :: 0 <= k < |settings| && settings[k].key == key
    decreases |settings|
  {
    if settings != [] {
      var m' := m[settings[0].key := settings[0].value];
      FilledHas(m', settings[1..], key);
      assert forall k | 0 < k < |settings| :: settings[1..][k - 1] == settings[k];
      if key in Filled(m, settings) && key !in m && key != settings[0].key {
        var k :| 0 <= k < |settings[1..]| && settings[1..][k].key == key;
        assert settings[k + 1].key == key;
      }
    }
  }

  lemma {:induction false} PutEntries(m: map<string, string>, settings: seq<Setting>)
    ensures var put := PutAll(Doc(map["" := m], ""), Entries(settings));
            put == if Acceptable(m, settings) then Some(Doc(map["" := Filled(m, settings)], "")) else None
    decreases |settings|
  {
    if settings != [] {
      var (key, value) := (settings[0].key, settings[0].value);
      assert Entries(settings)[1..] == Entries(settings[1..]);
      assert forall k | 0 < k < |settings| :: settings[1..][k - 1] == settings[k];
      assert Acceptable(m, settings) ==> key !in m && Clean(value);
      if key !in m && Clean(value) {
        var m' := m[key := value];
        assert map["" := m]["" := m'] == map["" := m'];
        PutEntries(m', settings[1..]);
        Shifted(m, settings);
      }
    }
  }

  lemma Shifted(m: map<string, string>, settings: seq<Setting>)
    requires settings != [] && settings[0].key !in m && Clean(settings[0].value)
    ensures Acceptable(m, settings) <==> Acceptable(m[settings[0].key := settings[0].value], settings[1..])
  {
    hide Clean;
    var rest := settings[1..];
    assert forall k | 0 < k < |settings| :: rest[k - 1] == settings[k];
    if Acceptable(m[settings[0].key := settings[0].value], rest) {
      forall i, k | 0 <= i < k < |settings| ensures settings[i].key != settings[k].key {
        assert settings[k] == rest[k - 1];
        if i > 0 { assert settings[i] == rest[i - 1]; }
      }
      forall k | 0 <= k < |settings| ensures settings[k].key !in m && Clean(settings[k].value) {
        if k > 0 { assert settings[k] == rest[k - 1]; }
      }
    }
  }

  ghost predicate Sets(settings: seq<Setting>, key: string, value: string) {
    exists k :: 0 <= k < |settings| && settings[k] == Setting(key, value)
  }

  ghost predicate Lacks(settings: seq<Setting>, key: string) {
    forall k | 0 <= k < |settings| :: settings[k].key != key
  }

  /** The setting has the value the file gives its key, and the default if the file gives none. */
  ghost predicate Given(settings: seq<Setting>, key: string, default: string, got: string) {
    (forall value :: Sets(settings, key, value) ==> got == value) && (Lacks(settings, key) ==> got == default)
  }

  lemma LookupIsGiven(settings: seq<Setting>, key: string, default: string)
    requires Acceptable(map[], settings)
    ensures Given(settings, key, default, Lookup(Filled(map[], settings), key, default))
  {
    FilledHas(map[], settings, key);
  }

  /**
   A file of settings in any order is readable exactly when no key comes twice and every value is clean;
   then each setting is what the file says, and otherwise the default.
   */
  lemma SettingsRead(settings: seq<Setting>)
    requires forall k | 0 <= k < |settings| :: IsBareKey(settings[k].key)
    ensures var doc := Parse(ROOT, RenderAll(Entries(settings)));
            && (doc.Some? <==> Acceptable(map[], settings))
            && (doc.Some? ==>
                  var c := FromDoc(doc.value);
                  && Given(settings, "repo", "unknown", c.repo)
                  && Given(settings, "webhook_url", "http://localhost:8080/webhook", c.webhookUrl)
                  && Given(settings, "adapter", "postgres", c.adapter)
                  && Given(settings, "llm_provider", "replay", c.llmProvider)
                  && c.gitToken == c.llmApiKey == c.sampleWarehouseUrl == c.webhookSecret == "")
  {
    ParseInvertsRender(ROOT, Entries(settings));
    PutEntries(map[], settings);
    hide Parse, RenderAll, PutAll, Acceptable, Filled, Given;
    if Acceptable(map[], settings) {
      LookupIsGiven(settings, "repo", DEFAULTS.repo);
      LookupIsGiven(settings, "webhook_url", DEFAULTS.webhookUrl);
      LookupIsGiven(settings, "adapter", DEFAULTS.adapter);
      LookupIsGiven(settings, "llm_provider", DEFAULTS.llmProvider);
    }
  }

  /** A table is opened once. */
  lemma OpenedTwice(doc: Doc, name: string)
    ensures Open(doc, name).Some? ==> Open(Open(doc, name).value, name).None?
  {
  }

  /** Without a file and without environment variables the settings are the built-in ones. */
  lemma NothingSet()
    ensures Overridden(DEFAULTS, map[])
         == Cli("unknown", "http://localhost:8080/webhook", "postgres", "replay", "", "", "", "")
  {
  }

  // --- spacing ---

  predicate Spacing(s: string) {
    forall i | 0 <= i < |s| :: s[i] == ' ' || s[i] == '\t'
  }

  lemma {:induction false} SpacingSkipped(s: string, rest: string)
    requires Spacing(s) && (rest == "" || (rest[0] != ' ' && rest[0] != '\t'))
    ensures SkipBlanks(s + rest) == rest
  {
    if s == "" {
      assert s + rest == rest;
    } else {
      SpacingSkipped(s[1..], rest);
      assert (s + rest)[1..] == s[1..] + rest;
    }
  }

  lemma AfterSpacing(s: string, c: char, rest: string)
    requires Spacing(s) && c != ' ' && c != '\t'
    ensures SkipBlanks(s + ([c] + rest)) == [c] + rest && ScanChar(s + ([c] + rest), c) == Some(rest)
  {
    SpacingSkipped(s, [c] + rest);
    assert ([c] + rest)[1..] == rest;
  }

  /** A line sets its key to its value however it is spaced, with a comment behind it or not. */
  lemma SpacingIsFree(
    doc: Doc, a: string, key: string, b: string, c: string, value: string, d: string, comment: string, rest: string)
    requires Spacing(a) && Spacing(b) && Spacing(c) && Spacing(d) && IsBareKey(key) && Clean(comment)
    ensures var line := key + (b + ("=" + (c + ("\"" + (Escape(value) + "\"" + (d + ("#" + (comment + "\n" + rest))))))));
            Parse(doc, a + line) == Parse(doc, Render(Entry(key, value)) + rest)
  {
    var tail := d + ("#" + (comment + "\n" + rest));
    var quoted := Escape(value) + "\"" + tail;
    var line := key + (b + ("=" + (c + ("\"" + quoted))));
    assert line[0] == key[0] && IsBare(key[0]);
    SpacingSkipped(a, line);
    ReadsLine(doc, key, b, c, value, tail, d, comment, rest);
    ParseItem(doc, Entry(key, value), rest);
    hide ReadLine, Render, Put, Escape, SkipBlanks, IsBareKey, Clean;
  }

  lemma ReadsLine(
    doc: Doc, key: string, b: string, c: string, value: string, tail: string, d: string, comment: string, rest: string)
    requires Spacing(b) && Spacing(c) && Spacing(d) && IsBareKey(key) && Clean(comment)
    requires tail == d + ("#" + (comment + "\n" + rest))
    ensures ReadLine(doc, key + (b + ("=" + (c + ("\"" + (Escape(value) + "\"" + tail))))))
         == match Put(doc, Entry(key, value)) case None => None case Some(next) => Some((next, rest))
  {
    var quoted := Escape(value) + "\"" + tail;
    var afterKey := b + ("=" + (c + ("\"" + quoted)));
    assert !IsBare(afterKey[0]);
    assert IsBare(key[0]);
    ScanKeyOf(key, afterKey);
    AfterSpacing(b, '=', c + ("\"" + quoted));
    AfterSpacing(c, '"', quoted);
    ScanInvertsEscape(value, tail);
    AfterSpacing(d, '#', comment + "\n" + rest);
    SkipCommentOf(comment, rest);
    assert EndLine(tail) == Some(rest);
    hide ScanKey, ScanString, ScanChar, EndLine, Escape, Clean, SkipBlanks, SkipComment, Define;
  }

  /** What no value may hold: characters below the blank but for tab, and delete. */
  lemma ControlsAre(c: char)
    ensures IsControl(c) <==> ((c as int) < 32 && c as int != 9) || c as int == 127
  {
  }

  // --- escapes ---

  function Pow16(k: nat): nat {
    if k == 0 then 1 else 16 * Pow16(k - 1)
  }

  function HexChar(d: nat): (c: char)
    requires d < 16
    ensures IsHex(c) && HexDigit(c) == d
  {
    if d < 10 then '0' + d as char else 'a' + (d - 10) as char
  }

  /** `n` in `k` hexadecimal digits. */
  function Hex(n: nat, k: nat): (s: string)
    ensures |s| == k
  {
    if k == 0 then "" else Hex(n / 16, k - 1) + [HexChar(n % 16)]
  }

  lemma {:induction false} HexIsRead(n: nat, k: nat)
    requires n < Pow16(k)
    ensures HexValue(Hex(n, k)) == Some(n)
  {
    if k > 0 {
      HexIsRead(n / 16, k - 1);
      var s := Hex(n, k);
      assert s[..|s| - 1] == Hex(n / 16, k - 1);
    }
  }

  /** Every character is read from its code, in eight hexadecimal digits, and in four if it has that few. */
  lemma {:induction false} CodeIsRead(c: char, rest: string)
    ensures Unescape("\\U" + Hex(c as int, 8) + rest) == Some((c, 10))
    ensures (c as int) < 0x1_0000 ==> Unescape("\\u" + Hex(c as int, 4) + rest) == Some((c, 6))
  {
    var n := c as int;
    assert Pow16(4) == 0x1_0000 && Pow16(8) == 0x1_0000_0000;
    assert n < 0x11_0000;
    HexIsRead(n, 8);
    assert ("\\U" + Hex(n, 8) + rest)[2..10] == Hex(n, 8);
    if n < 0x1_0000 {
      HexIsRead(n, 4);
      assert ("\\u" + Hex(n, 4) + rest)[2..6] == Hex(n, 4);
    }
  }

  /** The short escapes, by their codes; every other one is an error. */
  lemma ShortEscapes(e: char, rest: string)
    requires e != 'u' && e != 'U'
    ensures Unescape(['\\', e] + rest)
         == match e
            case 'b' => Some((8 as char, 2))
            case 't' => Some((9 as char, 2))
            case 'n' => Some((10 as char, 2))
            case 'f' => Some((12 as char, 2))
            case 'r' => Some((13 as char, 2))
            case '"' => Some((34 as char, 2))
            case '\\' => Some((92 as char, 2))
            case _ => None
  {
  }
}
