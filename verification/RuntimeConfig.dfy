/**
 * Runtime options of the cluster: the text kept of them, and their synchronisation
 * (pkg/controller/deployment/ceph_config.go).
 */
module RuntimeConfig {
  import opened Wrappers
  import opened Sorting

  type Config = map<string, string>

  // ------------------------------------------------------------------------ parsing text

  /** Splits at every line end; there is always one line. */
  function Lines(text: string): (r: seq<string>)
    ensures |r| >= 1
  {
    if text == "" then [""]
    else
      var rest := Lines(text[1..]);
      if text[0] == '\n' then [""] + rest else [[text[0]] + rest[0]] + rest[1..]
  }

  lemma {:induction false} LinesCons(a: string, b: string)
    requires '\n' !in a
    ensures Lines(a + "\n" + b) == [a] + Lines(b)
  {
    if a == "" {
      assert (a + "\n" + b)[1..] == b;
    } else {
      LinesCons(a[1..], b);
      assert (a + "\n" + b)[1..] == a[1..] + "\n" + b;
      assert a == [a[0]] + a[1..];
    }
  }

  /** The part of a line before its first equals sign. */
  function BeforeEquals(line: string): string {
    if line == "" || line[0] == '=' then "" else [line[0]] + BeforeEquals(line[1..])
  }

  lemma {:induction false} BeforeEqualsOf(a: string, b: string)
    requires '=' !in a
    ensures BeforeEquals(a + "=" + b) == a
  {
    if a != "" {
      BeforeEqualsOf(a[1..], b);
      assert (a + "=" + b)[1..] == a[1..] + "=" + b;
    }
  }

  /** White space as the standard library of the source language sees it. */
  predicate IsSpace(c: char) {
    var n := c as int;
    || 0x09 <= n <= 0x0d || n == 0x20 || n == 0x85 || n == 0xa0 || n == 0x1680 || 0x2000 <= n <= 0x200a
    || n == 0x2028 || n == 0x2029 || n == 0x202f || n == 0x205f || n == 0x3000
  }

  function TrimLeft(s: string): string {
    if s != "" && IsSpace(s[0]) then TrimLeft(s[1..]) else s
  }

  function TrimRight(s: string): string {
    if s != "" && IsSpace(s[|s| - 1]) then TrimRight(s[..|s| - 1]) else s
  }

  function KeyOf(line: string): string {
    TrimRight(TrimLeft(BeforeEquals(line)))
  }

  function ParseKeys(text: string): set<string> {
    set line | line in Lines(text) :: KeyOf(line)
  }

  // ----------------------------------------------------------------------- printing text

  const PASSWORD_KEYS: seq<string> := ["rgw_keystone_admin_password", "rgw_keystone_barbican_password"]

  /** An option of the cluster. */
  datatype Name = Name(section: string, key: string)

  function Before(s: string, c: char): (r: string)
    ensures c !in r
  {
    if s == "" || s[0] == c then "" else [s[0]] + Before(s[1..], c)
  }

  /** Splits at the bars and takes the first two parts; without a bar all is the key. */
  function NameOf(full: string): Name {
    if '|' !in full then Name("", full)
    else
      var section := Before(full, '|');
      BeforeShort(full, '|');
      Name(section, Before(full[|section| + 1..], '|'))
  }

  lemma {:induction false} BeforeShort(s: string, c: char)
    requires c in s
    ensures |Before(s, c)| < |s|
  {
    if s[0] != c { BeforeShort(s[1..], c); }
  }

  function Shown(full: string, value: string): string {
    if NameOf(full).key in PASSWORD_KEYS then "*" else value
  }

  function Line(full: string, value: string): string {
    full + " = " + Shown(full, value) + "\n"
  }

  function Printed(keys: seq<string>, config: Config): string
    requires forall k :: k in keys ==> k in config
  {
    if keys == [] then "" else Printed(keys[..|keys| - 1], config) + Line(keys[|keys| - 1], config[keys[|keys| - 1]])
  }

  method PrintRuntime(config: Config) returns (text: string, keys: seq<string>)
    ensures Ascending(keys) && (forall k :: k in keys <==> k in config)
    ensures text == Printed(keys, config)
  {
    text := "";
    var sorted := SortStrings(config.Keys);
    for i := 0 to |sorted|
      invariant text == Printed(sorted[..i], config)
    {
      assert sorted[..i + 1][..i] == sorted[..i];
      text := text + Line(sorted[i], config[sorted[i]]);
    }
    assert sorted[..|sorted|] == sorted;
    keys := sorted;
  }

  /** The text of a configuration. */
  ghost predicate IsText(text: string, config: Config) {
    exists keys :: Ascending(keys) && (forall k :: k in keys <==> k in config) && text == Printed(keys, config)
  }

  /** A configuration has one text. */
  lemma {:induction false} TextUnique(a: string, b: string, config: Config)
    requires IsText(a, config) && IsText(b, config)
    ensures a == b
  {
    hide Ascending;
    var x :| Ascending(x) && (forall k :: k in x <==> k in config) && a == Printed(x, config);
    var y :| Ascending(y) && (forall k :: k in y <==> k in config) && b == Printed(y, config);
    AscendingUnique(x, y);
  }

  /** The text of a configuration does not depend on its passwords. */
  lemma {:induction false} PasswordsHidden(keys: seq<string>, a: Config, b: Config)
    requires (forall k :: k in keys ==> k in a) && a.Keys == b.Keys
    requires forall k :: k in a && NameOf(k).key != "rgw_keystone_admin_password" && NameOf(k).key != "rgw_keystone_barbican_password" ==> a[k] == b[k]
    ensures Printed(keys, a) == Printed(keys, b)
  {
    hide NameOf;
    if keys != [] {
      PasswordsHidden(keys[..|keys| - 1], a, b);
    }
  }

  // ------------------------------------------------------------------ print, then parse

  /** Keys that survive printing: not empty, without equals sign, line end and outer white space. */
  predicate Plain(key: string) {
    key != "" && '=' !in key && '\n' !in key && !IsSpace(key[0]) && !IsSpace(key[|key| - 1])
  }

  /** One line per option. */
  ghost predicate Printable(config: Config) {
    forall k :: k in config ==> Plain(k) && '\n' !in Shown(k, config[k])
  }

  lemma {:induction false} KeyOfLine(full: string, rest: string)
    requires Plain(full)
    ensures KeyOf(full + " = " + rest) == full
  {
    assert full + " = " + rest == (full + " ") + "=" + (" " + rest);
    BeforeEqualsOf(full + " ", " " + rest);
    var s := full + " ";
    assert s[0] == full[0] && TrimLeft(s) == s;
    assert s[..|s| - 1] == full && TrimRight(full) == full;
  }

  lemma {:induction false} ParsePrinted(keys: seq<string>, config: Config, tail: string)
    requires Printable(config) && forall k :: k in keys ==> k in config
    ensures ParseKeys(Printed(keys, config) + tail) == (set k | k in keys) + ParseKeys(tail)
  {
    hide ParseKeys, Shown, Plain;
    if keys == [] {
      assert Printed(keys, config) + tail == tail;
      assert (set k | k in keys) == {};
    } else {
      var n := |keys| - 1;
      var front, last := keys[..n], keys[n];
      PrintedSnoc(keys, config, tail);
      ParsePrinted(front, config, Line(last, config[last]) + tail);
      hide Printed;
      ParseLine(last, config[last], tail);
      assert keys == front + [last];
      assert (set k | k in keys) == (set k | k in front) + {last};
    }
  }

  lemma {:induction false} PrintedSnoc(keys: seq<string>, config: Config, tail: string)
    requires keys != [] && forall k :: k in keys ==> k in config
    ensures var n := |keys| - 1;
      Printed(keys, config) + tail == Printed(keys[..n], config) + (Line(keys[n], config[keys[n]]) + tail)
  {
    hide Line;
  }

  lemma {:induction false} ParseLine(full: string, value: string, tail: string)
    requires Plain(full) && '\n' !in Shown(full, value)
    ensures ParseKeys(Line(full, value) + tail) == {full} + ParseKeys(tail)
  {
    hide ParseKeys, Shown, KeyOf, Lines;
    var line := full + " = " + Shown(full, value);
    assert '\n' !in line;
    assert Line(full, value) + tail == line + "\n" + tail;
    LinesCons(line, tail);
    KeyOfLine(full, Shown(full, value));
    ParseCons(line, tail);
  }

  lemma {:induction false} ParseCons(line: string, tail: string)
    requires Lines(line + "\n" + tail) == [line] + Lines(tail)
    ensures ParseKeys(line + "\n" + tail) == {KeyOf(line)} + ParseKeys(tail)
  {
    hide Lines, KeyOf;
  }

  /** Parsing the printed text gives back the keys, and the empty key of the last line. */
  lemma {:induction false} PrintParse(keys: seq<string>, config: Config)
    requires Printable(config) && forall k :: k in keys <==> k in config
    ensures ParseKeys(Printed(keys, config)) == config.Keys + {""}
  {
    ParsePrinted(keys, config, "");
    assert Printed(keys, config) + "" == Printed(keys, config);
    assert Lines("") == [""] && KeyOf("") == "";
    assert ParseKeys("") == {""};
    assert (set k | k in keys) == config.Keys;
  }

  // -------------------------------------------------------------------- synchronisation

  type Options = map<Name, string>

  /** An option that is not set reads as empty. */
  function Value(db: Options, name: Name): string {
    if name in db then db[name] else ""
  }

  /** A full key: a section and a key with one bar between them. */
  predicate WellFormed(full: string) {
    '|' in full && full[0] != '|' && full == NameOf(full).section + "|" + NameOf(full).key
  }

  /** Different well-formed keys are different options, and none of them is the option of the empty key. */
  lemma {:induction false} NamesDiffer(a: string, b: string)
    requires (WellFormed(a) || a == "") && (WellFormed(b) || b == "")
    ensures NameOf(a) == NameOf(b) ==> a == b
  {
    assert WellFormed(a) ==> NameOf(a).section != "" by { if '|' in a && a[0] != '|' { BeforeStarts(a); } }
    assert WellFormed(b) ==> NameOf(b).section != "" by { if '|' in b && b[0] != '|' { BeforeStarts(b); } }
  }

  lemma {:induction false} BeforeStarts(s: string)
    requires s != "" && s[0] != '|'
    ensures Before(s, '|') != ""
  {
  }

  ghost predicate Distinct(keys: set<string>) {
    forall a, b :: a in keys && b in keys && NameOf(a) == NameOf(b) ==> a == b
  }

  /** Only options named by the keys differ. */
  ghost predicate Within(db: Options, db': Options, keys: set<string>) {
    forall name :: (forall k :: k in keys ==> NameOf(k) != name) ==> Value(db', name) == Value(db, name)
  }

  /** No option is kept with an empty value: it is removed instead. */
  ghost predicate NoneEmpty(db: Options) {
    forall n :: n in db ==> db[n] != ""
  }

  function Written(db: Options, name: Name, value: string): (db': Options)
    ensures forall n :: Value(db', n) == if n == name then value else Value(db, n)
    ensures NoneEmpty(db) ==> NoneEmpty(db')
  {
    if value == "" then db - {name} else db[name := value]
  }

  datatype Api = Api(dump: bool, command: string -> bool, update: bool)

  class Cluster {
    /** The text kept in the config map. */
    var text: string
    /** The options in the configuration database. */
    var db: Options

    constructor ()
      ensures text == "" && db == map[]
    {
      text, db := "", map[];
    }

    /** Sets or unsets every option that differs, in any order, until a command fails. */
    method UpdateRuntimeParameters(wanted: Config, api: Api) returns (ok: bool, updated: bool)
      requires Distinct(wanted.Keys)
      modifies this`db
      ensures Within(old(db), db, wanted.Keys)
      ensures NoneEmpty(old(db)) ==> NoneEmpty(db)
      ensures ok ==> forall k :: k in wanted ==> Value(db, NameOf(k)) == wanted[k]
      ensures forall k :: k in wanted ==> Value(db, NameOf(k)) == wanted[k] || Value(db, NameOf(k)) == Value(old(db), NameOf(k))
      ensures ok ==> (updated <==> exists k :: k in wanted && Value(old(db), NameOf(k)) != wanted[k])
      ensures ok <==> wanted == map[] || (api.dump && forall k :: k in wanted && Value(old(db), NameOf(k)) != wanted[k] ==> api.command(k))
    {
      hide NameOf, Value, Written, NoneEmpty;
      if |wanted| == 0 { return true, false; }
      if !api.dump { return false, false; }
      var dump := db;
      var left := wanted.Keys;
      updated := false;
      while left != {}
        invariant left <= wanted.Keys
        invariant NoneEmpty(dump) ==> NoneEmpty(db)
        invariant forall name :: (forall k :: k in wanted && k !in left ==> NameOf(k) != name) ==> Value(db, name) == Value(dump, name)
        invariant forall k :: k in wanted && k !in left ==> Value(db, NameOf(k)) == wanted[k]
        invariant forall k :: k in wanted && k !in left && Value(dump, NameOf(k)) != wanted[k] ==> api.command(k)
        invariant updated <==> exists k :: k in wanted && k !in left && Value(dump, NameOf(k)) != wanted[k]
        decreases |left|
      {
        var full :| full in left;
        left := left - {full};
        assert forall k :: k in wanted && k != full ==> NameOf(k) != NameOf(full);
        assert Value(db, NameOf(full)) == Value(dump, NameOf(full));
        if Value(dump, NameOf(full)) != wanted[full] {
          if !api.command(full) { return false, false; }
          db := Written(db, NameOf(full), wanted[full]);
          updated := true;
        }
      }
      ok := true;
    }

    /** Adds every key of the kept text that is no longer configured, to be unset. */
    method AddObsolete(config: Config) returns (wanted: Config)
      ensures wanted.Keys == config.Keys + ParseKeys(text)
      ensures forall k :: k in wanted ==> wanted[k] == if k in config then config[k] else ""
    {
      wanted := config;
      var lines := Lines(text);
      for i := 0 to |lines|
        invariant forall k :: k in wanted <==> k in config || exists j :: 0 <= j < i && KeyOf(lines[j]) == k
        invariant forall k :: k in wanted ==> wanted[k] == if k in config then config[k] else ""
      {
        var key := KeyOf(lines[i]);
        if key !in wanted { wanted := wanted[key := ""]; }
      }
    }

    /** One pass over the runtime options: the cluster first, then the kept text. */
    method EnsureRuntime(config: Config, api: Api) returns (ok: bool, updated: bool)
      requires Tidy(config) && TidyText(text)
      modifies this
      ensures TidyText(text)
      ensures NoneEmpty(old(db)) ==> NoneEmpty(db)
      ensures ok ==> Synced(State(old(text), old(db)), config, State(text, db))
      ensures !ok ==> Interrupted(State(old(text), old(db)), config, State(text, db))
      ensures ok ==> (updated <==> Differs(old(db), db, config.Keys + ParseKeys(old(text))))
      ensures api.dump && api.update && CommandsSucceed(old(text), old(db), config, api) ==> ok
      ensures !api.update ==> !ok
    {
      hide *;
      var newText := Render(config);
      var wanted := WantedNow(config, newText);
      TidyDistinct(config, text);
      ghost var before := State(text, db);
      WantedKeys(text, config, wanted);
      DistinctPart(wanted.Keys, config.Keys + ParseKeys(text));
      EmptyKey(config, text);
      if CommandsSucceed(text, db, config, api) { WantedSucceed(text, db, config, wanted, api); }
      ok, updated := UpdateRuntimeParameters(wanted, api);
      if ok && api.update {
        text := newText;
        PassSynced(before, config, wanted, State(text, db), updated);
      } else {
        ok := false;
        PassInterrupted(before, config, wanted, db);
      }
    }

    method WantedNow(config: Config, newText: string) returns (wanted: Config)
      requires ParseKeys(newText) == config.Keys + {""}
      ensures Wanted(text, config, wanted)
      ensures if newText == text then wanted == config else wanted.Keys == config.Keys + ParseKeys(text)
    {
      hide ParseKeys;
      wanted := config;
      if newText != text { wanted := AddObsolete(config); }
    }
  }

  method Render(config: Config) returns (text: string)
    requires Tidy(config)
    ensures ParseKeys(text) == config.Keys + {""} && TidyText(text) && IsText(text, config)
  {
    hide ParseKeys, Printed;
    var keys;
    text, keys := PrintRuntime(config);
    PrintParse(keys, config);
  }

  lemma {:induction false} WantedKeys(text: string, config: Config, wanted: Config)
    requires Wanted(text, config, wanted)
    ensures wanted.Keys <= config.Keys + ParseKeys(text)
  {
  }

  // ------------------------------------------------------------------- successful passes

  datatype State = State(text: string, db: Options)

  ghost predicate Tidy(config: Config) {
    Printable(config) && forall k :: k in config ==> WellFormed(k)
  }

  /** The kept text names well-formed keys only. */
  ghost predicate TidyText(text: string) {
    forall k :: k in ParseKeys(text) ==> k == "" || WellFormed(k)
  }

  lemma {:induction false} TidyDistinct(config: Config, text: string)
    requires Tidy(config) && TidyText(text)
    ensures Distinct(config.Keys + ParseKeys(text))
  {
    hide WellFormed, NameOf, ParseKeys;
    forall a, b | a in config.Keys + ParseKeys(text) && b in config.Keys + ParseKeys(text) && NameOf(a) == NameOf(b) ensures a == b {
      NamesDiffer(a, b);
    }
  }

  /** What a successful pass does: sets the options configured, unsets the past ones, touches no other. */
  ghost predicate Synced(s: State, config: Config, s': State) {
    && (forall k :: k in config ==> Value(s'.db, NameOf(k)) == config[k])
    && (forall k :: k in ParseKeys(s.text) && k != "" && k !in config ==> Value(s'.db, NameOf(k)) == "")
    && Within(s.db, s'.db, config.Keys + ParseKeys(s.text))
    && ParseKeys(s'.text) == config.Keys + {""} && IsText(s'.text, config)
    && Value(s'.db, NameOf("")) == (if s'.text == s.text || "" !in ParseKeys(s.text) then Value(s.db, NameOf("")) else "")
  }

  /** Some option named by the keys differs. */
  ghost predicate Differs(db: Options, db': Options, keys: set<string>) {
    exists k :: k in keys && Value(db', NameOf(k)) != Value(db, NameOf(k))
  }

  /** The options a pass asks for: the configured ones, and those of the text to be unset if it changes. */
  ghost predicate Wanted(text: string, config: Config, wanted: Config) {
    && config.Keys <= wanted.Keys <= config.Keys + ParseKeys(text)
    && (forall k :: k in wanted ==> wanted[k] == if k in config then config[k] else "")
    && (wanted.Keys == config.Keys + ParseKeys(text) || (wanted == config && ParseKeys(text) == config.Keys + {""}))
  }

  /** Every option that differs from the configuration, or is to be unset, can be changed. */
  ghost predicate CommandsSucceed(text: string, db: Options, config: Config, api: Api) {
    forall k :: k in config.Keys + ParseKeys(text) && Value(db, NameOf(k)) != (if k in config then config[k] else "") ==> api.command(k)
  }

  lemma {:induction false} WantedSucceed(text: string, db: Options, config: Config, wanted: Config, api: Api)
    requires Wanted(text, config, wanted) && CommandsSucceed(text, db, config, api)
    ensures forall k :: k in wanted && Value(db, NameOf(k)) != wanted[k] ==> api.command(k)
  {
    hide ParseKeys, NameOf, Value;
  }

  /** No other key stands for the option of the empty key. */
  lemma {:induction false} EmptyKey(config: Config, text: string)
    requires Tidy(config) && TidyText(text)
    ensures "" !in config && forall k :: k in config.Keys + ParseKeys(text) && k != "" ==> NameOf(k) != NameOf("")
  {
    hide NameOf, ParseKeys, WellFormed;
    forall k | k in config.Keys + ParseKeys(text) && k != "" ensures NameOf(k) != NameOf("") { NamesDiffer(k, ""); }
    if "" in config { EmptyIsNot(""); }
  }

  lemma {:induction false} DistinctPart(a: set<string>, b: set<string>)
    requires Distinct(b) && a <= b
    ensures Distinct(a)
  {
  }

  lemma {:induction false} PassWithin(before: State, config: Config, wanted: Config, db: Options)
    requires Wanted(before.text, config, wanted) && Within(before.db, db, wanted.Keys)
    ensures Within(before.db, db, config.Keys + ParseKeys(before.text))
  {
    hide ParseKeys, NameOf, Value;
  }

  lemma {:induction false} PassSynced(before: State, config: Config, wanted: Config, after: State, updated: bool)
    requires Wanted(before.text, config, wanted) && Distinct(config.Keys + ParseKeys(before.text))
    requires Within(before.db, after.db, wanted.Keys) && forall k :: k in wanted ==> Value(after.db, NameOf(k)) == wanted[k]
    requires updated <==> exists k :: k in wanted && Value(before.db, NameOf(k)) != wanted[k]
    requires ParseKeys(after.text) == config.Keys + {""} && IsText(after.text, config) && "" !in config
    requires forall k :: k in config.Keys + ParseKeys(before.text) && k != "" ==> NameOf(k) != NameOf("")
    requires if after.text == before.text then wanted == config else wanted.Keys == config.Keys + ParseKeys(before.text)
    ensures Synced(before, config, after)
    ensures updated <==> Differs(before.db, after.db, config.Keys + ParseKeys(before.text))
  {
    hide ParseKeys, NameOf, Value, IsText;
    var all := config.Keys + ParseKeys(before.text);
    PassWithin(before, config, wanted, after.db);
    forall k | k in all && k !in wanted ensures Value(after.db, NameOf(k)) == Value(before.db, NameOf(k)) {
      assert forall w :: w in wanted ==> NameOf(w) != NameOf(k);
    }
  }

  lemma {:induction false} PassInterrupted(before: State, config: Config, wanted: Config, db: Options)
    requires Wanted(before.text, config, wanted) && Within(before.db, db, wanted.Keys)
    requires forall k :: k in wanted ==> Value(db, NameOf(k)) == wanted[k] || Value(db, NameOf(k)) == Value(before.db, NameOf(k))
    ensures Interrupted(before, config, State(before.text, db))
  {
    hide ParseKeys, NameOf, Value;
    PassWithin(before, config, wanted, db);
    forall k | k in ParseKeys(before.text) && k !in config && k != ""
      ensures Value(db, NameOf(k)) == "" || Value(db, NameOf(k)) == Value(before.db, NameOf(k))
    {
      assert k in wanted;
    }
  }

  /** A pass that failed: some options have been changed, and the text has not. */
  ghost predicate Interrupted(s: State, config: Config, s': State) {
    && s'.text == s.text
    && Within(s.db, s'.db, config.Keys + ParseKeys(s.text))
    && (forall k :: k in config ==> Value(s'.db, NameOf(k)) == config[k] || Value(s'.db, NameOf(k)) == Value(s.db, NameOf(k)))
    && (forall k :: k in ParseKeys(s.text) && k !in config && k != "" ==> Value(s'.db, NameOf(k)) == "" || Value(s'.db, NameOf(k)) == Value(s.db, NameOf(k)))
  }

  datatype Pass = Pass(config: Config, ok: bool)

  /** A run of passes, each of which may fail anywhere. */
  ghost predicate IsRun(states: seq<State>, passes: seq<Pass>) {
    && |states| == |passes| + 1
    && states[0] == State("", map[])
    && forall i :: 0 <= i < |passes| ==> IsPass(states[i], passes[i], states[i + 1])
  }

  ghost predicate IsPass(s: State, pass: Pass, s': State) {
    Tidy(pass.config) && if pass.ok then Synced(s, pass.config, s') else Interrupted(s, pass.config, s')
  }

  /** After a failure, no key is dropped from the configuration unless the kept text names it. */
  ghost predicate Persistent(states: seq<State>, passes: seq<Pass>)
    requires |states| == |passes| + 1
  {
    forall i :: 0 <= i < |passes| - 1 && !passes[i].ok ==> passes[i].config.Keys <= passes[i + 1].config.Keys + ParseKeys(states[i].text)
  }

  /** The keys that only the last pass knows of, if it failed. */
  function Pending(passes: seq<Pass>): set<string> {
    if passes == [] || passes[|passes| - 1].ok then {} else passes[|passes| - 1].config.Keys
  }

  /** Every option that is set is named by the text or pending. */
  ghost predicate Covered(s: State, pending: set<string>) {
    forall k :: WellFormed(k) && Value(s.db, NameOf(k)) != "" ==> k in ParseKeys(s.text) || k in pending
  }

  /**
   * What a successful pass leaves, option by option: the configured value, or, of an option that is not
   * configured, nothing exactly if it was not set or the kept text named it.
   */
  lemma {:induction false} LeftoverExactly(s: State, config: Config, s': State, k: string)
    requires Tidy(config) && TidyText(s.text) && Synced(s, config, s') && WellFormed(k)
    ensures k in config ==> Value(s'.db, NameOf(k)) == config[k]
    ensures k !in config ==> (Value(s'.db, NameOf(k)) == "" <==> Value(s.db, NameOf(k)) == "" || k in ParseKeys(s.text))
  {
    hide NameOf, ParseKeys, Value, Printable, WellFormed, IsText;
    if k !in config.Keys + ParseKeys(s.text) {
      forall other | other in config.Keys + ParseKeys(s.text) ensures NameOf(other) != NameOf(k) { NamesDiffer(other, k); }
    }
    EmptyIsNot(k);
  }

  /** A successful pass leaves no option that is not configured exactly if all options set before it were known to it. */
  lemma {:induction false} NoLeftoverExactly(s: State, config: Config, s': State)
    requires Tidy(config) && TidyText(s.text) && Synced(s, config, s')
    ensures (forall k :: WellFormed(k) && k !in config ==> Value(s'.db, NameOf(k)) == "") <==> Covered(s, config.Keys)
  {
    hide NameOf, ParseKeys, Value, WellFormed, Synced, Tidy, TidyText;
    forall k | WellFormed(k) && k !in config
      ensures Value(s'.db, NameOf(k)) == "" <==> Value(s.db, NameOf(k)) == "" || k in ParseKeys(s.text)
    {
      LeftoverExactly(s, config, s', k);
    }
  }

  /** A second pass with the same configuration issues no command, and changes no option. */
  lemma {:induction false} SecondPassIdle(s: State, config: Config, s': State, s'': State)
    requires Tidy(config) && Synced(s, config, s') && Synced(s', config, s'')
    ensures s''.text == s'.text && !Differs(s'.db, s''.db, config.Keys + ParseKeys(s'.text))
    ensures forall name :: Value(s''.db, name) == Value(s'.db, name)
  {
    hide NameOf, ParseKeys, Value, Printable, WellFormed, IsText;
    TextUnique(s'.text, s''.text, config);
    forall name ensures Value(s''.db, name) == Value(s'.db, name) {
      if k :| k in config.Keys + ParseKeys(s'.text) && NameOf(k) == name {
      }
    }
  }

  lemma {:induction false} PassCovers(s: State, pass: Pass, s': State, pending: set<string>, k: string)
    requires IsPass(s, pass, s') && TidyText(s.text) && WellFormed(k)
    requires Covered(s, pending) && pending <= pass.config.Keys + ParseKeys(s.text)
    ensures pass.ok ==> Value(s'.db, NameOf(k)) == if k in pass.config then pass.config[k] else ""
    ensures Value(s'.db, NameOf(k)) != "" ==> k in ParseKeys(s'.text) || (!pass.ok && k in pass.config)
  {
    hide NameOf, ParseKeys, Value, Printable, WellFormed, IsText;
    if pass.ok {
      LeftoverExactly(s, pass.config, s', k);
    } else if k !in pass.config.Keys + ParseKeys(s.text) {
      forall other | other in pass.config.Keys + ParseKeys(s.text) ensures NameOf(other) != NameOf(k) {
        NamesDiffer(other, k);
      }
    }
    EmptyIsNot(k);
  }

  lemma {:induction false} EmptyIsNot(k: string)
    requires WellFormed(k)
    ensures k != ""
  {
  }

  lemma {:induction false} RunCovered(states: seq<State>, passes: seq<Pass>)
    requires IsRun(states, passes) && Persistent(states, passes)
    ensures TidyText(states[|passes|].text) && Covered(states[|passes|], Pending(passes))
  {
    if passes == [] {
      assert Lines("") == [""] && KeyOf("") == "";
    } else {
      var n := |passes| - 1;
      var earlier := passes[..n];
      assert states[..n + 1][n] == states[n];
      RunCovered(states[..n + 1], earlier);
      PendingWithin(states, passes);
      PassNext(states[n], passes[n], states[n + 1], Pending(earlier));
    }
  }

  /** What was pending is configured now or named by the text. */
  lemma {:induction false} PendingWithin(states: seq<State>, passes: seq<Pass>)
    requires passes != [] && |states| == |passes| + 1 && Persistent(states, passes) && IsRun(states, passes)
    ensures Pending(passes[..|passes| - 1]) <= passes[|passes| - 1].config.Keys + ParseKeys(states[|passes| - 1].text)
  {
    var n := |passes| - 1;
    if n > 0 && !passes[n - 1].ok {
      assert IsPass(states[n - 1], passes[n - 1], states[n]);
    }
  }

  lemma {:induction false} PassNext(s: State, pass: Pass, s': State, pending: set<string>)
    requires IsPass(s, pass, s') && TidyText(s.text)
    requires Covered(s, pending) && pending <= pass.config.Keys + ParseKeys(s.text)
    ensures TidyText(s'.text) && Covered(s', if pass.ok then {} else pass.config.Keys)
  {
    hide NameOf, ParseKeys, Value, Printable, WellFormed;
    forall k | WellFormed(k) && Value(s'.db, NameOf(k)) != ""
      ensures k in ParseKeys(s'.text) || k in (if pass.ok then {} else pass.config.Keys)
    {
      PassCovers(s, pass, s', pending, k);
    }
  }

  lemma {:induction false} RunTidy(states: seq<State>, passes: seq<Pass>, n: nat)
    requires IsRun(states, passes) && n < |states|
    ensures TidyText(states[n].text)
  {
    hide WellFormed, Value, NameOf, ParseKeys, Within, IsText, Printable;
    if n == 0 {
      NoKeys();
    } else {
      RunTidy(states, passes, n - 1);
      assert IsPass(states[n - 1], passes[n - 1], states[n - 1 + 1]);
    }
  }

  /**
   * In any run, after a successful pass nothing is left of options that are not configured exactly if
   * everything set before the pass was configured in it or named by the kept text.
   */
  lemma {:induction false} NoLeftovers(states: seq<State>, passes: seq<Pass>, n: nat)
    requires IsRun(states, passes) && n < |passes| && passes[n].ok
    ensures (forall k :: WellFormed(k) && k !in passes[n].config ==> Value(states[n + 1].db, NameOf(k)) == "")
        <==> Covered(states[n], passes[n].config.Keys)
  {
    hide WellFormed, Value, NameOf, Covered, Synced, Tidy, TidyText;
    RunTidy(states, passes, n);
    assert IsPass(states[n], passes[n], states[n + 1]);
    NoLeftoverExactly(states[n], passes[n].config, states[n + 1]);
  }

  /** So nothing is left if keys were never dropped right after a failed pass. */
  lemma {:induction false} RetriedPassesLeaveNothing(states: seq<State>, passes: seq<Pass>, k: string)
    requires IsRun(states, passes) && Persistent(states, passes) && WellFormed(k)
    requires passes != [] && passes[|passes| - 1].ok
    ensures Value(states[|passes|].db, NameOf(k)) == var last := passes[|passes| - 1].config; if k in last then last[k] else ""
  {
    var n := |passes| - 1;
    assert IsRun(states[..n + 1], passes[..n]) && Persistent(states[..n + 1], passes[..n]);
    RunCovered(states[..n + 1], passes[..n]);
    PendingWithin(states, passes);
    PassCovers(states[n], passes[n], states[n + 1], Pending(passes[..n]), k);
  }

  lemma {:induction false} ExampleName()
    ensures NameOf("osd|osd_op") == Name("osd", "osd_op")
  {
    hide Before;
    var full, key := "osd|osd_op", "osd_op";
    assert full[3] == '|' && full[..3] == "osd" && full[4..] == key && key[..6] == key;
    BeforeAt(full, 3);
    BeforeAt(key, 6);
  }

  lemma {:induction false} ExampleKey()
    ensures NameOf("osd|osd_op") == Name("osd", "osd_op")
    ensures WellFormed("osd|osd_op") && Plain("osd|osd_op") && Shown("osd|osd_op", "1") == "1"
  {
    hide NameOf;
    ExampleName();
    assert "osd|osd_op"[3] == '|';
    assert |PASSWORD_KEYS[0]| == 27 && |PASSWORD_KEYS[1]| == 30 && |"osd_op"| == 6;
  }

  lemma {:induction false} NoKeys()
    ensures ParseKeys("") == {""}
  {
    assert Lines("") == [""] && KeyOf("") == "";
  }

  /** A key dropped right after a failed pass stays set although the next pass succeeds. */
  lemma {:induction false} DroppedAfterFailureStays()
    ensures exists states: seq<State>, passes: seq<Pass> ::
      IsRun(states, passes) && |passes| == 2 && !passes[0].ok && passes[1] == Pass(map[], true) && states[2].db != map[]
  {
    hide NameOf, WellFormed, Plain, Shown, ParseKeys;
    var full, name := "osd|osd_op", Name("osd", "osd_op");
    var config: Config, none: Config := map[full := "1"], map[];
    var s0, s1 := State("", map[]), State("", map[name := "1"]);
    ExampleKey();
    NoKeys();
    assert '\n' !in "1";
    assert Tidy(config);
    assert full in config.Keys + ParseKeys("");
    assert Within(s0.db, s1.db, config.Keys + ParseKeys(""));
    assert Interrupted(s0, config, s1);
    assert none.Keys + {""} == {""};
    assert Ascending([]) && Printed([], none) == "";
    assert IsText("", none);
    assert Synced(s1, none, s1);
    var states, passes := [s0, s1, s1], [Pass(config, false), Pass(none, true)];
    assert IsPass(states[0], passes[0], states[1]) && IsPass(states[1], passes[1], states[2]);
    assert IsRun(states, passes);
    assert name in s1.db;
  }

  lemma {:induction false} BeforeAt(s: string, n: nat)
    requires n <= |s| && '|' !in s[..n] && (n < |s| ==> s[n] == '|')
    ensures Before(s, '|') == s[..n]
  {
    if n > 0 {
      assert s[..n][0] == s[0];
      assert s[1..][..n - 1] == s[1..n] && s[..n] == [s[0]] + s[1..n];
      BeforeAt(s[1..], n - 1);
    }
  }
}
