/**
 * Splitting the configuration into file and runtime options, and the order of its sections
 * (pkg/controller/deployment/ceph_config.go).
 */
module ConfigSplit {
  import opened Wrappers
  import opened RuntimeConfig

  // -------------------------------------------------------------------- overriding defaults

  /** A default option; `available` says that the Ceph version has it. */
  datatype Default = Default(name: Name, value: string, isStatic: bool, fileOnly: bool, available: bool)

  function Full(name: Name): string {
    name.section + "|" + name.key
  }

  /** Defaults are stored under their full keys. */
  ghost predicate Keyed(base: map<string, Default>) {
    forall k :: k in base ==> k == Full(base[k].name) && '|' !in base[k].name.section && '|' !in base[k].name.key
  }

  predicate IsRuntime(name: Name) {
    || name.key in PASSWORD_KEYS
    || "osd" <= name.key
    || "clog" <= name.key
    || "osd" <= name.section
  }

  function Underscored(key: string): (r: string)
    ensures |r| == |key| && forall i :: 0 <= i < |key| ==> r[i] == if key[i] == ' ' || key[i] == '-' then '_' else key[i]
  {
    if key == "" then "" else [if key[0] == ' ' || key[0] == '-' then '_' else key[0]] + Underscored(key[1..])
  }

  // ------------------------------------------------------------------ the thread pool limit

  function Digits(s: string): (r: Option<int>) {
    if s == "" then Some(0)
    else
      var last := s[|s| - 1];
      var rest := Digits(s[..|s| - 1]);
      if '0' <= last <= '9' && rest.Some? then Some(10 * rest.value + (last as int - '0' as int)) else None
  }

  /** A decimal integer of 64 bits with an optional sign. */
  function Atoi(s: string): Option<int> {
    var signed := s != "" && (s[0] == '+' || s[0] == '-');
    var digits := if signed then s[1..] else s;
    if digits == "" || Digits(digits).None? then None
    else
      var n: int := if signed && s[0] == '-' then -Digits(digits).value else Digits(digits).value;
      if -0x8000_0000_0000_0000 <= n < 0x8000_0000_0000_0000 then Some(n) else None
  }

  function Decimal(n: nat): (s: string)
    ensures s != ""
  {
    var digit := [('0' as int + n % 10) as char];
    if n < 10 then digit else Decimal(n / 10) + digit
  }

  lemma {:induction false} DigitsDecimal(n: nat)
    ensures Digits(Decimal(n)) == Some(n)
  {
    var s := Decimal(n);
    assert s[|s| - 1] == ('0' as int + n % 10) as char;
    if n < 10 {
      assert s[..|s| - 1] == "" && Digits("") == Some(0);
    } else {
      DigitsDecimal(n / 10);
      assert s[..|s| - 1] == Decimal(n / 10);
    }
  }

  lemma {:induction false} DecimalStarts(n: nat)
    ensures '0' <= Decimal(n)[0] <= '9'
  {
    if n >= 10 { DecimalStarts(n / 10); }
  }

  /** Every 64-bit integer is read back from its decimal text. */
  lemma {:induction false} AtoiDecimal(n: nat)
    requires n < 0x8000_0000_0000_0000
    ensures Atoi(Decimal(n)) == Some(n as int) && Atoi("-" + Decimal(n)) == Some(-(n as int)) && Atoi("+" + Decimal(n)) == Some(n as int)
  {
    hide Digits, Decimal;
    DigitsDecimal(n);
    DecimalStarts(n);
    var s := Decimal(n);
    assert ("-" + s)[1..] == s && ("+" + s)[1..] == s;
  }

  const THREAD_POOL_KEY: string := "rgw_thread_pool_size"

  /** The value written for an option: the size of the thread pool is an integer of at most 256. */
  function Limited(key: string, value: string): (r: string)
    ensures key != THREAD_POOL_KEY ==> r == value
  {
    if key != THREAD_POOL_KEY then value
    else
      match Atoi(value)
      case None => "256"
      case Some(n) => if n > 256 then "256" else value
  }

  /** The size of the thread pool that is written is an integer of at most 256: the given one if it is such an integer, and 256 if not. */
  lemma {:induction false} ThreadPoolLimited(value: string)
    ensures Limited(THREAD_POOL_KEY, value) == if Atoi(value).Some? && Atoi(value).value <= 256 then value else "256"
    ensures Atoi(Limited(THREAD_POOL_KEY, value)).Some? && Atoi(Limited(THREAD_POOL_KEY, value)).value <= 256
  {
    var s := "256";
    assert s[..2] == "25" && s[..2][..1] == "2" && s[..2][..1][..0] == "";
    assert Digits("") == Some(0) && Digits("2") == Some(2) && Digits("25") == Some(25) && Digits(s) == Some(256);
  }

  // -------------------------------------------------------------------------- the split

  /** What goes to the file, by section and key, and what is set at run time, by full key. */
  datatype Split = Split(file: map<Name, string>, runtime: map<string, string>)

  /** The override aims at this option: by its section, or, without one, at a default with its key or the global section. */
  ghost predicate Aims(base: map<string, Default>, param: string, name: Name) {
    var given := NameOf(param);
    && name.key == Underscored(given.key)
    && if given.section != "" then name.section == given.section
       else if exists k :: k in base && base[k].name.key == name.key then exists k :: k in base && base[k].name == name
       else name.section == "global"
  }

  predicate Fixed(base: map<string, Default>, name: Name) {
    Full(name) in base && base[Full(name)].name.section == name.section && base[Full(name)].isStatic
  }

  /** A value from an override aimed at the option. */
  ghost predicate FromOverride(base: map<string, Default>, overrides: map<string, string>, name: Name, value: string) {
    exists param :: param in overrides && Aims(base, param, name) && value == Limited(name.key, overrides[param])
  }

  ghost predicate FromDefault(base: map<string, Default>, name: Name, value: string) {
    Full(name) in base && base[Full(name)].name == name && base[Full(name)].available && base[Full(name)].value == value
  }

  /** Whether a default goes to the file rather than to the runtime options. */
  predicate ForFile(d: Default) {
    d.isStatic || d.fileOnly || !IsRuntime(d.name)
  }

  /** The default is where it belongs. */
  ghost predicate InPlace(d: Default, split: Split) {
    d.available ==>
      if d.isStatic || d.fileOnly || !SetAtRunTime(d.name) then Look(split.file, d.name) == Some(d.value)
      else Look(split.runtime, Full(d.name)) == Some(d.value)
  }

  /** The defaults outside `left` are filled in, and nothing else is. */
  ghost predicate Filled(base: map<string, Default>, left: set<string>, split: Split) {
    && (forall k :: k in base && k !in left ==> InPlace(base[k], split))
    && (forall name :: name in split.file ==> FromDefault(base, name, split.file[name]) && Full(name) !in left && ForFile(base[Full(name)]))
    && (forall full :: full in split.runtime ==>
          full in base && full !in left && !ForFile(base[full]) && base[full].available && split.runtime[full] == base[full].value)
  }

  lemma {:induction false} FillStep(base: map<string, Default>, left: set<string>, split: Split, split': Split, k: string)
    requires Keyed(base) && left <= base.Keys && k in left && Filled(base, left, split)
    requires var d := base[k];
      split' == if !d.available then split
                else if ForFile(d) then split.(file := split.file[d.name := d.value]) else split.(runtime := split.runtime[k := d.value])
    ensures Filled(base, left - {k}, split')
  {
    hide IsRuntime, SetAtRunTime;
    RuntimeIs(base[k].name);
    var d := base[k];
    assert Full(d.name) == k;
    hide Full;
    forall x | x in base && x !in left - {k} ensures InPlace(base[x], split') {
      if x != k { assert InPlace(base[x], split); }
    }
  }

  /** Fills in the available defaults. */
  method FillDefaults(base: map<string, Default>) returns (split: Split)
    requires Keyed(base)
    ensures forall k :: k in base ==> InPlace(base[k], split)
    ensures forall name :: name in split.file ==> FromDefault(base, name, split.file[name]) && ForFile(base[Full(name)])
    ensures forall full :: full in split.runtime ==> full in base && !ForFile(base[full]) && base[full].available && split.runtime[full] == base[full].value
  {
    split := Split(map[], map[]);
    var left := base.Keys;
    assert Filled(base, left, split);
    while left != {}
      invariant left <= base.Keys && Filled(base, left, split)
      decreases |left|
    {
      hide Filled, Keyed, ForFile;
      var k :| k in left;
      var d := base[k];
      ghost var before := split;
      if d.available {
        if ForFile(d) {
          split := split.(file := split.file[d.name := d.value]);
        } else {
          split := split.(runtime := split.runtime[k := d.value]);
        }
      }
      FillStep(base, left, before, split, k);
      left := left - {k};
    }
  }

  /** The section an override without one is given. */
  method GuessSection(base: map<string, Default>, key: string) returns (section: string)
    ensures if exists k :: k in base && base[k].name.key == key then exists k :: k in base && base[k].name == Name(section, key)
            else section == "global"
  {
    var left := base.Keys;
    while left != {}
      invariant left <= base.Keys && forall k :: k in base && k !in left ==> base[k].name.key != key
      decreases |left|
    {
      var k :| k in left;
      left := left - {k};
      if base[k].name.key == key {
        section := base[k].name.section;
        assert base[k].name == Name(section, key);
        return;
      }
    }
    section := "global";
  }

  /** Where an option's value is looked up. */
  function Setting(split: Split, name: Name): Option<string> {
    if IsRuntime(name) then Look(split.runtime, Full(name)) else Look(split.file, name)
  }

  function Put(split: Split, name: Name, value: string): Split {
    if IsRuntime(name) then split.(runtime := split.runtime[Full(name) := value]) else split.(file := split.file[name := value])
  }

  /** Applies one override, unless it aims at a static default. */
  method Override(base: map<string, Default>, split: Split, param: string, value: string) returns (split': Split, ghost name: Name)
    ensures Aims(base, param, name)
    ensures split' == if Fixed(base, name) then split else Put(split, name, Limited(name.key, value))
  {
    hide NameOf, Underscored, Limited;
    var given := NameOf(param);
    var key := Underscored(given.key);
    var section := given.section;
    if section == "" { section := GuessSection(base, key); }
    name := Name(section, key);
    split' := split;
    if !Fixed(base, Name(section, key)) { split' := Put(split, Name(section, key), Limited(key, value)); }
  }

  predicate NoBar(name: Name) {
    '|' !in name.section && '|' !in name.key
  }

  lemma {:induction false} FullInjective(a: Name, b: Name)
    requires NoBar(a) && NoBar(b) && Full(a) == Full(b)
    ensures a == b
  {
    var i, j := |a.section|, |b.section|;
    assert Full(a)[i] == '|' && Full(b)[j] == '|';
    assert forall k :: 0 <= k < i ==> Full(a)[k] == a.section[k];
    assert forall k :: 0 <= k < j ==> Full(b)[k] == b.section[k];
    assert i == j;
    assert Full(a)[..i] == a.section && Full(b)[..i] == b.section;
    assert Full(a)[i + 1..] == a.key && Full(b)[i + 1..] == b.key;
  }

  lemma {:induction false} AimsNoBar(base: map<string, Default>, param: string, name: Name)
    requires Keyed(base) && Aims(base, param, name)
    ensures NoBar(name)
  {
    hide Underscored, IsRuntime;
    var given := NameOf(param);
    assert '|' !in given.section && '|' !in given.key;
  }

  /** The override took effect, or aims at a static default. */
  ghost predicate Served(base: map<string, Default>, overrides: map<string, string>, split: Split, param: string) {
    exists name :: Aims(base, param, name) && (Fixed(base, name) || Overridden(base, overrides, split, name))
  }

  ghost predicate Overridden(base: map<string, Default>, overrides: map<string, string>, split: Split, name: Name) {
    Setting(split, name).Some? && FromOverride(base, overrides, name, Setting(split, name).value)
  }

  /** Static defaults are in the file with their values, and nowhere else. */
  ghost predicate StaticsKept(base: map<string, Default>, split: Split) {
    forall k :: k in base && base[k].isStatic && base[k].available ==> Look(split.file, base[k].name) == Some(base[k].value) && k !in split.runtime
  }

  /** Every value comes from a default or from an override. */
  ghost predicate Sourced(base: map<string, Default>, overrides: map<string, string>, split: Split) {
    && (forall name :: name in split.file ==> FromDefault(base, name, split.file[name]) || FromOverride(base, overrides, name, split.file[name]))
    && (forall full :: full in split.runtime ==> RuntimeSourced(base, overrides, full, split.runtime[full]))
  }

  ghost predicate RuntimeSourced(base: map<string, Default>, overrides: map<string, string>, full: string, value: string) {
    exists name :: Full(name) == full && (FromDefault(base, name, value) || FromOverride(base, overrides, name, value))
  }

  lemma {:induction false} PutKeepsStatics(base: map<string, Default>, split: Split, name: Name, value: string)
    requires Keyed(base) && NoBar(name) && !Fixed(base, name) && StaticsKept(base, split)
    ensures StaticsKept(base, Put(split, name, value))
  {
    hide IsRuntime;
    forall k | k in base && base[k].isStatic && base[k].available && k == Full(name) ensures false {
      FullInjective(base[k].name, name);
    }
  }

  lemma {:induction false} PutKeepsServed(base: map<string, Default>, overrides: map<string, string>, split: Split, name: Name, value: string, param: string)
    requires Keyed(base) && NoBar(name) && FromOverride(base, overrides, name, value) && Served(base, overrides, split, param)
    ensures Served(base, overrides, Put(split, name, value), param)
  {
    hide IsRuntime, FromOverride, Aims, Fixed, Full;
    var other :| Aims(base, param, other) && (Fixed(base, other) || Overridden(base, overrides, split, other));
    AimsNoBar(base, param, other);
    if other != name && Full(other) == Full(name) { FullInjective(other, name); }
    assert !Fixed(base, other) ==> Overridden(base, overrides, Put(split, name, value), other);
  }

  lemma {:induction false} PutSourced(base: map<string, Default>, overrides: map<string, string>, split: Split, name: Name, value: string)
    requires Sourced(base, overrides, split) && FromOverride(base, overrides, name, value)
    ensures Sourced(base, overrides, Put(split, name, value))
  {
    hide IsRuntime, FromOverride, FromDefault, Full;
    assert RuntimeSourced(base, overrides, Full(name), value);
  }

  /** What one override does to the invariants of the split. */
  lemma {:induction false} OverrideKeeps(base: map<string, Default>, overrides: map<string, string>, split: Split, split': Split, name: Name, param: string)
    requires Keyed(base) && param in overrides && Aims(base, param, name)
    requires split' == if Fixed(base, name) then split else Put(split, name, Limited(name.key, overrides[param]))
    requires StaticsKept(base, split) && Sourced(base, overrides, split)
    ensures StaticsKept(base, split') && Sourced(base, overrides, split') && Served(base, overrides, split', param)
    ensures forall p :: Served(base, overrides, split, p) ==> Served(base, overrides, split', p)
  {
    hide IsRuntime, Full, Aims, Fixed, Limited, StaticsKept, Sourced, Served;
    var value := Limited(name.key, overrides[param]);
    AimsNoBar(base, param, name);
    if Fixed(base, name) {
      ServedFixed(base, overrides, split', param, name);
    } else {
      PutKeepsStatics(base, split, name, value);
      PutSourced(base, overrides, split, name, value);
      forall p | Served(base, overrides, split, p) ensures Served(base, overrides, split', p) {
        PutKeepsServed(base, overrides, split, name, value, p);
      }
      ServedNow(base, overrides, split, param, name, value);
    }
  }

  lemma {:induction false} ServedFixed(base: map<string, Default>, overrides: map<string, string>, split: Split, param: string, name: Name)
    requires Aims(base, param, name) && Fixed(base, name)
    ensures Served(base, overrides, split, param)
  {
    hide Aims, Fixed;
  }

  lemma {:induction false} ServedNow(base: map<string, Default>, overrides: map<string, string>, split: Split, param: string, name: Name, value: string)
    requires Aims(base, param, name) && FromOverride(base, overrides, name, value)
    ensures Served(base, overrides, Put(split, name, value), param)
  {
    hide Aims, Fixed, FromOverride, IsRuntime;
    assert Overridden(base, overrides, Put(split, name, value), name);
  }

  lemma {:induction false} DefaultsSourced(base: map<string, Default>, overrides: map<string, string>, split: Split)
    requires Keyed(base)
    requires forall name :: name in split.file ==> FromDefault(base, name, split.file[name])
    requires forall full :: full in split.runtime ==> full in base && base[full].available && split.runtime[full] == base[full].value
    ensures Sourced(base, overrides, split)
  {
    hide FromOverride, Full;
    forall full | full in split.runtime ensures RuntimeSourced(base, overrides, full, split.runtime[full]) {
      assert Full(base[full].name) == full && FromDefault(base, base[full].name, split.runtime[full]);
    }
  }

  /**
   * The defaults with the overrides on top, taken in any order. Static defaults survive every
   * override; every other override takes effect, unless another one aims at the same option, at run
   * time exactly for options of OSDs and of the cluster log and for passwords, and in the file for
   * all others; defaults are on their side as well; nothing else is configured.
   */
  method TargetConfig(base: map<string, Default>, overrides: map<string, string>) returns (split: Split)
    requires Keyed(base)
    ensures StaticsKept(base, split)
    ensures forall param :: param in overrides ==> Effective(base, overrides, split, param)
    ensures Sourced(base, overrides, split)
    ensures Sides(base, split)
  {
    hide IsRuntime, Aims, Fixed, Limited, Put, FromOverride, FromDefault, SetAtRunTime;
    split := FillDefaults(base);
    assert StaticsKept(base, split);
    DefaultsSourced(base, overrides, split);
    DefaultsSides(base, split);
    hide StaticsKept, Sourced, Served, Keyed, Sides, Effective;
    var left := overrides.Keys;
    while left != {}
      invariant left <= overrides.Keys
      invariant StaticsKept(base, split) && Sourced(base, overrides, split) && Sides(base, split)
      invariant forall param :: param in overrides && param !in left ==> Served(base, overrides, split, param)
      decreases |left|
    {
      var param :| param in left;
      ghost var before, name := split, Name("", "");
      split, name := Override(base, split, param, overrides[param]);
      OverrideKeeps(base, overrides, before, split, name, param);
      if !Fixed(base, name) { PutSides(base, before, name, Limited(name.key, overrides[param])); }
      left := left - {param};
    }
    forall param | param in overrides ensures Effective(base, overrides, split, param) { ServedIsEffective(base, overrides, split, param); }
  }

  // --------------------------------------------------------------- which side an option is on

  predicate Begins(s: string, prefix: string) {
    |s| >= |prefix| && forall i :: 0 <= i < |prefix| ==> s[i] == prefix[i]
  }

  /** Options of OSDs and of the cluster log, and passwords, are set on the running cluster. */
  predicate SetAtRunTime(name: Name) {
    || name.key == "rgw_keystone_admin_password" || name.key == "rgw_keystone_barbican_password"
    || Begins(name.key, "osd") || Begins(name.key, "clog") || Begins(name.section, "osd")
  }

  lemma {:induction false} PrefixBegins(s: string, prefix: string)
    ensures prefix <= s <==> Begins(s, prefix)
  {
    if Begins(s, prefix) { assert s[..|prefix|] == prefix; }
  }

  lemma {:induction false} RuntimeIs(name: Name)
    ensures IsRuntime(name) <==> SetAtRunTime(name)
  {
    hide Begins;
    PrefixBegins(name.key, "osd");
    PrefixBegins(name.key, "clog");
    PrefixBegins(name.section, "osd");
  }

  /** A default that must not be overridden. */
  ghost predicate StaticAt(base: map<string, Default>, name: Name) {
    exists k :: k in base && base[k].name == name && base[k].isStatic
  }

  /** The override aims at a static default, or is in effect on the side its option belongs to. */
  ghost predicate Effective(base: map<string, Default>, overrides: map<string, string>, split: Split, param: string) {
    exists name :: Aims(base, param, name) &&
      if StaticAt(base, name) then true
      else if SetAtRunTime(name) then Full(name) in split.runtime && FromOverride(base, overrides, name, split.runtime[Full(name)])
      else name in split.file && FromOverride(base, overrides, name, split.file[name])
  }

  lemma {:induction false} FixedIsStatic(base: map<string, Default>, name: Name)
    requires Keyed(base) && NoBar(name)
    ensures Fixed(base, name) <==> StaticAt(base, name)
  {
    if Fixed(base, name) { FullInjective(base[Full(name)].name, name); }
  }

  lemma {:induction false} ServedIsEffective(base: map<string, Default>, overrides: map<string, string>, split: Split, param: string)
    requires Keyed(base) && Served(base, overrides, split, param)
    ensures Effective(base, overrides, split, param)
  {
    hide Aims, Fixed, StaticAt, FromOverride, IsRuntime, SetAtRunTime, Full;
    var name :| Aims(base, param, name) && (Fixed(base, name) || Overridden(base, overrides, split, name));
    AimsNoBar(base, param, name);
    FixedIsStatic(base, name);
    RuntimeIs(name);
  }

  /** An available default is on its side, whatever its value is by now. */
  ghost predicate DefaultThere(d: Default, split: Split) {
    d.available ==>
      if d.isStatic || d.fileOnly || !SetAtRunTime(d.name) then d.name in split.file else Full(d.name) in split.runtime
  }

  /** The file holds no option of the running cluster but defaults kept for the file, and the running cluster no option of the file. */
  ghost predicate Sides(base: map<string, Default>, split: Split) {
    && (forall name :: name in split.file && SetAtRunTime(name) ==>
          FromDefault(base, name, split.file[name]) && (base[Full(name)].isStatic || base[Full(name)].fileOnly))
    && (forall full :: full in split.runtime ==> exists name :: Full(name) == full && SetAtRunTime(name))
    && (forall k :: k in base ==> DefaultThere(base[k], split))
  }

  lemma {:induction false} PutSides(base: map<string, Default>, split: Split, name: Name, value: string)
    requires Sides(base, split)
    ensures Sides(base, Put(split, name, value))
  {
    hide FromDefault, SetAtRunTime, IsRuntime, Full;
    RuntimeIs(name);
    var split' := Put(split, name, value);
    forall full | full in split'.runtime ensures exists n :: Full(n) == full && SetAtRunTime(n) {
      if full == Full(name) && full !in split.runtime { assert SetAtRunTime(name); }
    }
    forall k | k in base ensures DefaultThere(base[k], split') { assert DefaultThere(base[k], split); }
  }

  lemma {:induction false} DefaultsSides(base: map<string, Default>, split: Split)
    requires Keyed(base)
    requires forall k :: k in base ==> InPlace(base[k], split)
    requires forall name :: name in split.file ==> FromDefault(base, name, split.file[name]) && ForFile(base[Full(name)])
    requires forall full :: full in split.runtime ==> full in base && !ForFile(base[full])
    ensures Sides(base, split)
  {
    hide SetAtRunTime, IsRuntime, Full;
    forall name ensures IsRuntime(name) <==> SetAtRunTime(name) { RuntimeIs(name); }
    forall full | full in split.runtime ensures exists name :: Full(name) == full && SetAtRunTime(name) {
      assert Full(base[full].name) == full && SetAtRunTime(base[full].name);
    }
    forall k | k in base ensures DefaultThere(base[k], split) { assert InPlace(base[k], split); }
  }

  /** Splitting off the section gives back the option. */
  lemma {:induction false} FullName(name: Name)
    requires NoBar(name) && name.section != ""
    ensures NameOf(Full(name)) == name && WellFormed(Full(name))
  {
    var full := Full(name);
    var n := |name.section|;
    assert full[n] == '|' && full[..n] == name.section && full[n + 1..] == name.key && name.key[..|name.key|] == name.key;
    BeforeAt(full, n);
    BeforeAt(name.key, |name.key|);
    assert full[0] == name.section[0];
  }

  // ---------------------------------------------------------------- the order of sections

  function Present(priority: seq<string>, keys: seq<string>): seq<string> {
    if priority == [] then []
    else
      var last := priority[|priority| - 1];
      Present(priority[..|priority| - 1], keys) + if last in keys then [last] else []
  }

  function Without(keys: seq<string>, gone: seq<string>): seq<string> {
    if keys == [] then []
    else (if keys[0] in gone then [] else [keys[0]]) + Without(keys[1..], gone)
  }

  lemma {:induction false} WithoutMember(keys: seq<string>, gone: seq<string>, k: string)
    ensures k in Without(keys, gone) <==> k in keys && k !in gone
  {
    if keys != [] { WithoutMember(keys[1..], gone, k); }
  }

  lemma {:induction false} WithoutNone(keys: seq<string>, gone: seq<string>)
    requires forall k :: k in keys ==> k !in gone
    ensures Without(keys, gone) == keys
  {
    if keys != [] { WithoutNone(keys[1..], gone); }
  }

  lemma {:induction false} WithoutMore(keys: seq<string>, gone: seq<string>, p: string)
    ensures Without(keys, gone + [p]) == Without(Without(keys, gone), [p])
  {
    if keys != [] {
      WithoutMore(keys[1..], gone, p);
      var k, rest := keys[0], Without(keys[1..], gone);
      if k !in gone {
        assert Without(keys, gone) == [k] + rest && ([k] + rest)[1..] == rest;
        assert Without([k] + rest, [p]) == (if k == p then [] else [k]) + Without(rest, [p]);
      } else {
        assert Without(keys, gone) == rest;
      }
    }
  }

  lemma {:induction false} WithoutDistinct(keys: seq<string>, gone: seq<string>)
    requires NoDuplicates(keys)
    ensures NoDuplicates(Without(keys, gone))
  {
    if keys != [] {
      WithoutDistinct(keys[1..], gone);
      WithoutMember(keys[1..], gone, keys[0]);
      assert keys[0] !in keys[1..];
    }
  }

  lemma {:induction false} WithoutAt(keys: seq<string>, i: nat)
    requires i < |keys| && NoDuplicates(keys)
    ensures Without(keys, [keys[i]]) == keys[..i] + keys[i + 1..]
  {
    if i == 0 {
      WithoutNone(keys[1..], [keys[0]]);
    } else {
      var rest := keys[1..];
      assert forall a :: 0 <= a < |rest| ==> rest[a] == keys[a + 1];
      WithoutAt(rest, i - 1);
      assert keys[..i] + keys[i + 1..] == [keys[0]] + (rest[..i - 1] + rest[i..]);
    }
  }

  method FindKey(keys: seq<string>, key: string) returns (at: Option<nat>)
    ensures at.Some? ==> at.value < |keys| && keys[at.value] == key
    ensures at.None? ==> key !in keys
  {
    for i := 0 to |keys|
      invariant forall k :: 0 <= k < i ==> keys[k] != key
    {
      if keys[i] == key { return Some(i); }
    }
    return None;
  }

  /** Priority keys first, in their order, then the others in theirs; nothing is lost or added. */
  method ReorderKeys(keys: seq<string>, priority: seq<string>) returns (r: seq<string>)
    ensures multiset(r) == multiset(keys)
    ensures NoDuplicates(keys) && NoDuplicates(priority) ==> r == Present(priority, keys) + Without(keys, priority)
  {
    hide Present, Without;
    var head: seq<string>, rest := [], keys;
    NothingMoved(keys);
    assert priority[..0] == [];
    for i := 0 to |priority|
      invariant multiset(head) + multiset(rest) == multiset(keys)
      invariant NoDuplicates(keys) && NoDuplicates(priority) ==> head == Present(priority[..i], keys) && rest == Without(keys, priority[..i])
    {
      var at := FindKey(rest, priority[i]);
      if NoDuplicates(keys) && NoDuplicates(priority) { MoveKey(keys, priority, i, rest, at); }
      if at.Some? {
        assert rest == rest[..at.value] + [rest[at.value]] + rest[at.value + 1..];
        head, rest := head + [priority[i]], rest[..at.value] + rest[at.value + 1..];
      }
    }
    assert priority[..|priority|] == priority;
    r := head + rest;
  }

  lemma {:induction false} NothingMoved(keys: seq<string>)
    ensures Present([], keys) == [] && Without(keys, []) == keys
  {
    WithoutNone(keys, []);
  }

  lemma {:induction false} MoveKey(keys: seq<string>, priority: seq<string>, i: nat, rest: seq<string>, at: Option<nat>)
    requires NoDuplicates(keys) && NoDuplicates(priority) && i < |priority| && rest == Without(keys, priority[..i])
    requires at.Some? ==> at.value < |rest| && rest[at.value] == priority[i]
    requires at.None? ==> priority[i] !in rest
    ensures Present(priority[..i + 1], keys) == Present(priority[..i], keys) + if at.Some? then [priority[i]] else []
    ensures Without(keys, priority[..i + 1]) == if at.Some? then rest[..at.value] + rest[at.value + 1..] else rest
  {
    var p := priority[i];
    assert priority[..i + 1] == priority[..i] + [p] && priority[..i + 1][..i] == priority[..i];
    assert p !in priority[..i];
    WithoutMember(keys, priority[..i], p);
    WithoutMore(keys, priority[..i], p);
    WithoutDistinct(keys, priority[..i]);
    if at.Some? { WithoutAt(rest, at.value); } else { WithoutNone(rest, [p]); }
  }
}
