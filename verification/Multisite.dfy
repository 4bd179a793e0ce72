/**
 * RGW multisite resources: realms, zone groups and zones
 * (pkg/controller/deployment/multisite.go).
 */
module Multisite {
  import opened Wrappers

  datatype Realm = Realm(pullEndpoint: string, isDefault: bool)

  /** A zone; `pools` stands for the rest of its specification. */
  datatype Zone = Zone(zoneGroup: string, pools: string)

  datatype Named<T> = Named(name: string, value: T)

  /** How the API answers to the calls made for one kind of resource. */
  datatype Api = Api(
    lists: bool,
    create: nat -> bool,
    update: nat -> bool,
    remove: string -> bool,
    relabel: string -> bool)

  ghost predicate Mentions<T>(spec: seq<Named<T>>, name: string) {
    exists i :: 0 <= i < |spec| && spec[i].name == name
  }

  ghost predicate Specified<T>(spec: seq<Named<T>>, name: string, value: T) {
    exists i :: 0 <= i < |spec| && spec[i] == Named(name, value)
  }

  ghost predicate Unambiguous<T>(spec: seq<Named<T>>) {
    forall i, j :: 0 <= i < |spec| && 0 <= j < |spec| && spec[i].name == spec[j].name ==> spec[i] == spec[j]
  }

  // ---------------------------------------------------------------- one kind of resource

  /** What is to be done with the listed resources. */
  datatype Work<T> = Work(create: seq<Named<T>>, update: seq<Named<T>>, remove: set<string>, refused: bool)

  /** The specified resources that are not listed, in order. */
  function Missing<T>(listed: map<string, T>, spec: seq<Named<T>>): seq<Named<T>> {
    if spec == [] then []
    else
      var n := |spec| - 1;
      Missing(listed, spec[..n]) + if spec[n].name in listed then [] else [spec[n]]
  }

  /** The listed resources that differ from their specification or lack their labels, in order. */
  function Stale<T(==)>(listed: map<string, T>, spec: seq<Named<T>>, sync: bool, usable: nat -> bool, api: Api): seq<Named<T>> {
    if spec == [] then []
    else
      var n := |spec| - 1;
      Stale(listed, spec[..n], sync, usable, api) +
      if spec[n].name in listed && usable(n) && ((sync && listed[spec[n].name] != spec[n].value) || api.relabel(spec[n].name)) then [spec[n]] else []
  }

  lemma {:induction false} MissingIs<T(!new)>(listed: map<string, T>, spec: seq<Named<T>>)
    ensures var r := Missing(listed, spec);
      && (forall k :: 0 <= k < |r| ==> r[k] in spec && r[k].name !in listed)
      && (forall i :: 0 <= i < |spec| && spec[i].name !in listed ==> spec[i] in r)
  {
    if spec != [] {
      var n := |spec| - 1;
      MissingIs(listed, spec[..n]);
      assert spec == spec[..n] + [spec[n]];
    }
  }

  ghost predicate StaleFits<T(!new)>(listed: map<string, T>, spec: seq<Named<T>>, sync: bool, usable: nat -> bool, r: seq<Named<T>>) {
    && (forall k :: 0 <= k < |r| ==> r[k] in spec && r[k].name in listed)
    && (forall i :: 0 <= i < |spec| && spec[i].name in listed && usable(i) && sync && listed[spec[i].name] != spec[i].value ==> spec[i] in r)
  }

  lemma {:induction false} StaleIs<T(!new)>(listed: map<string, T>, spec: seq<Named<T>>, sync: bool, usable: nat -> bool, api: Api)
    ensures StaleFits(listed, spec, sync, usable, Stale(listed, spec, sync, usable, api))
  {
    if spec != [] {
      var n := |spec| - 1;
      StaleIs(listed, spec[..n], sync, usable, api);
      assert spec == spec[..n] + [spec[n]];
    }
  }

  /** Listed, not specified and not in use. */
  ghost predicate Unused<T>(listed: map<string, T>, spec: seq<Named<T>>, inUse: set<string>, name: string) {
    name in listed && !Mentions(spec, name) && name !in inUse
  }

  method SortOut<T(==, !new)>(listed: map<string, T>, spec: seq<Named<T>>, sync: bool, usable: nat -> bool, api: Api) returns (work: Work<T>)
    ensures work.create == Missing(listed, spec) && work.update == Stale(listed, spec, sync, usable, api)
    ensures forall name :: name in work.remove <==> name in listed && !Mentions(spec, name)
    ensures work.refused <==> exists i :: 0 <= i < |spec| && spec[i].name in listed && !usable(i)
  {
    hide Mentions;
    var create: seq<Named<T>>, update: seq<Named<T>>, remove, refused := [], [], listed.Keys, false;
    NothingSorted(listed, sync, usable, api);
    assert spec[..0] == [];
    hide Missing, Stale;
    for i := 0 to |spec|
      invariant create == Missing(listed, spec[..i]) && update == Stale(listed, spec[..i], sync, usable, api)
      invariant forall name :: name in remove <==> name in listed && !Mentions(spec[..i], name)
      invariant refused <==> exists k :: 0 <= k < i && spec[k].name in listed && !usable(k)
    {
      var item := spec[i];
      SortStep(listed, spec, i, sync, usable, api);
      forall name ensures Mentions(spec[..i + 1], name) <==> Mentions(spec[..i], name) || name == item.name {
        MentionsStep(spec, i, name);
      }
      if item.name in listed {
        remove := remove - {item.name};
        if !usable(i) {
          refused := true;
        } else if (sync && listed[item.name] != item.value) || api.relabel(item.name) {
          update := update + [item];
        }
      } else {
        create := create + [item];
      }
    }
    assert spec[..|spec|] == spec;
    work := Work(create, update, remove, refused);
  }

  lemma {:induction false} NothingSorted<T(!new)>(listed: map<string, T>, sync: bool, usable: nat -> bool, api: Api)
    ensures Missing(listed, []) == [] && Stale(listed, [], sync, usable, api) == []
    ensures forall name :: !Mentions<T>([], name)
  {
  }

  lemma {:induction false} SortStep<T(!new)>(listed: map<string, T>, spec: seq<Named<T>>, i: nat, sync: bool, usable: nat -> bool, api: Api)
    requires i < |spec|
    ensures var item := spec[i];
      && Missing(listed, spec[..i + 1]) == Missing(listed, spec[..i]) + (if item.name in listed then [] else [item])
      && Stale(listed, spec[..i + 1], sync, usable, api) == Stale(listed, spec[..i], sync, usable, api) +
           if item.name in listed && usable(i) && ((sync && listed[item.name] != item.value) || api.relabel(item.name)) then [item] else []
  {
    assert spec[..i + 1][..i] == spec[..i];
  }

  lemma {:induction false} MentionsStep<T>(spec: seq<Named<T>>, i: nat, name: string)
    requires i < |spec|
    ensures Mentions(spec[..i + 1], name) <==> Mentions(spec[..i], name) || name == spec[i].name
  {
    assert spec[..i + 1][i] == spec[i] && forall k :: 0 <= k < i ==> spec[..i + 1][k] == spec[..i][k];
  }

  /** The item is the first with its name and its call succeeds. */
  ghost predicate Creates<T>(items: seq<Named<T>>, api: Api, k: nat)
    requires k < |items|
  {
    api.create(k) && forall j :: 0 <= j < k ==> items[j].name != items[k].name
  }

  /** Nothing present changes, everything new is asked for, and every item whose call succeeds is there. */
  ghost predicate CreatedFrom<T(!new)>(current: map<string, T>, items: seq<Named<T>>, api: Api, r: map<string, T>) {
    && (forall name :: name in current ==> name in r && r[name] == current[name])
    && (forall name :: name in r && name !in current ==> Specified(items, name, r[name]))
    && (forall k :: 0 <= k < |items| && Creates(items, api, k) ==> Look(r, items[k].name) == Some(items[k].value))
  }

  /** Creates what is missing; a name already taken is refused. */
  method CreateAll<T(!new)>(current: map<string, T>, items: seq<Named<T>>, api: Api) returns (r: map<string, T>, ok: bool)
    requires forall k :: 0 <= k < |items| ==> items[k].name !in current
    ensures CreatedFrom(current, items, api, r)
    ensures ok <==> forall k :: 0 <= k < |items| ==> Creates(items, api, k)
  {
    r, ok := current, true;
    for k := 0 to |items|
      invariant forall name :: name in current ==> name in r && r[name] == current[name]
      invariant forall name :: name in r && name !in current ==> Specified(items, name, r[name]) && exists j :: 0 <= j < k && items[j].name == name
      invariant forall j :: 0 <= j < k && Creates(items, api, j) ==> Look(r, items[j].name) == Some(items[j].value)
      invariant ok <==> forall j :: 0 <= j < k ==> Creates(items, api, j)
    {
      if items[k].name !in r && api.create(k) {
        assert items[k] == Named(items[k].name, items[k].value);
        if j :| 0 <= j < k && items[j].name == items[k].name { assert !Creates(items, api, j); }
        r := r[items[k].name := items[k].value];
      } else {
        ok := false;
        if items[k].name in r {
          var j :| 0 <= j < k && items[j].name == items[k].name;
        }
        assert !Creates(items, api, k);
      }
    }
  }

  /** Nothing appears or disappears, and only specified values are written, every one whose call succeeds. */
  ghost predicate UpdatedFrom<T(!new)>(current: map<string, T>, items: seq<Named<T>>, sync: bool, api: Api, r: map<string, T>) {
    && (forall name :: name in r <==> name in current)
    && (forall name :: name in r ==> r[name] == current[name] || (sync && Specified(items, name, r[name])))
    && (sync ==> forall k :: 0 <= k < |items| && api.update(k) && items[k].name in r ==> Specified(items, items[k].name, r[items[k].name]))
  }

  /** Writes the specified values over the present ones, or only their labels. */
  method UpdateAll<T(!new)>(current: map<string, T>, items: seq<Named<T>>, sync: bool, api: Api) returns (r: map<string, T>, ok: bool)
    requires forall k :: 0 <= k < |items| ==> items[k].name in current
    ensures UpdatedFrom(current, items, sync, api, r) && (items == [] ==> r == current)
    ensures ok <==> forall k :: 0 <= k < |items| ==> api.update(k)
  {
    r, ok := current, true;
    for k := 0 to |items|
      invariant r.Keys == current.Keys && (k == 0 ==> r == current)
      invariant forall name :: name in r ==> r[name] == current[name] || (sync && Specified(items, name, r[name]))
      invariant sync ==> forall j :: 0 <= j < k && api.update(j) ==> Specified(items, items[j].name, r[items[j].name])
      invariant ok <==> forall j :: 0 <= j < k ==> api.update(j)
    {
      if !api.update(k) {
        ok := false;
      } else if sync {
        assert items[k] == Named(items[k].name, items[k].value);
        r := r[items[k].name := items[k].value];
      }
    }
  }

  /** Exactly the named resources that are not in use and whose call succeeds are gone. */
  ghost predicate RemovedFrom<T(!new)>(current: map<string, T>, names: set<string>, inUse: set<string>, api: Api, r: map<string, T>) {
    && (forall name :: name in r <==> name in current && (name in names && name !in inUse ==> !api.remove(name)))
    && (forall name :: name in r ==> r[name] == current[name])
  }

  /** Removes what is not in use. */
  method RemoveAll<T(!new)>(current: map<string, T>, names: set<string>, inUse: set<string>, api: Api)
    returns (r: map<string, T>, tried: bool, ok: bool)
    requires names <= current.Keys
    ensures RemovedFrom(current, names, inUse, api, r)
    ensures ok <==> forall name :: name in names && name !in inUse ==> api.remove(name)
    ensures tried <==> exists name :: name in names && name !in inUse
    ensures !tried ==> r == current
  {
    r, tried, ok := current, false, true;
    var left := names;
    while left != {}
      invariant left <= names
      invariant forall name :: name in r <==> name in current && (name in names && name !in left && name !in inUse ==> !api.remove(name))
      invariant forall name :: name in r ==> r[name] == current[name]
      invariant ok <==> forall name :: name in names && name !in left && name !in inUse ==> api.remove(name)
      invariant tried <==> exists name :: name in names && name !in left && name !in inUse
      invariant !tried ==> r == current
      decreases |left|
    {
      var name :| name in left;
      left := left - {name};
      if name !in inUse {
        tried := true;
        if api.remove(name) { r := r - {name}; } else { ok := false; }
      }
    }
  }

  /**
   * Every call that is needed succeeds: listed resources are usable, missing ones have different names and are
   * created, stale ones are updated, unused ones are removed.
   */
  ghost predicate KindOk<T(!new)>(current: map<string, T>, spec: seq<Named<T>>, sync: bool, usable: nat -> bool, inUse: set<string>, api: Api) {
    && (forall i :: 0 <= i < |spec| && spec[i].name in current ==> usable(i))
    && (forall k :: 0 <= k < |Missing(current, spec)| ==> Creates(Missing(current, spec), api, k))
    && (forall k :: 0 <= k < |Stale(current, spec, sync, usable, api)| ==> api.update(k))
    && (forall name :: Unused(current, spec, inUse, name) ==> api.remove(name))
  }

  /** There is something to create, to update or to remove. */
  ghost predicate KindChanges<T(!new)>(current: map<string, T>, spec: seq<Named<T>>, sync: bool, usable: nat -> bool, inUse: set<string>, api: Api) {
    Missing(current, spec) != [] || Stale(current, spec, sync, usable, api) != [] || exists name :: Unused(current, spec, inUse, name)
  }

  /** Whatever fails elsewhere, every resource whose own call succeeds is created or removed, and no other is removed. */
  ghost predicate KindDone<T(!new)>(current: map<string, T>, spec: seq<Named<T>>, inUse: set<string>, api: Api, r: map<string, T>) {
    && (forall k :: 0 <= k < |Missing(current, spec)| && Creates(Missing(current, spec), api, k) ==>
          Look(r, Missing(current, spec)[k].name) == Some(Missing(current, spec)[k].value))
    && (forall name :: name in current ==> (name in r <==> !(Unused(current, spec, inUse, name) && api.remove(name))))
  }

  /**
   * Brings one kind of resource in line with its specification. It succeeds exactly if every needed call does, and
   * then reports a change exactly if there was one to make. Whatever fails, nothing in use or specified disappears
   * and every resource whose own call succeeds is created or removed; without an error the specification is met and
   * only resources in use are left over.
   */
  method EnsureKind<T(==, !new)>(current: map<string, T>, spec: seq<Named<T>>, sync: bool, usable: nat -> bool, inUse: set<string>, api: Api)
    returns (r: map<string, T>, ok: bool, changed: bool)
    ensures ok <==> KindOk(current, spec, sync, usable, inUse, api)
    ensures changed <==> ok && KindChanges(current, spec, sync, usable, inUse, api)
    ensures KindDone(current, spec, inUse, api, r)
    ensures forall name :: name in r ==> (name in current && r[name] == current[name]) || ((sync || name !in current) && Specified(spec, name, r[name]))
    ensures ok ==> forall i :: 0 <= i < |spec| ==> spec[i].name in r
    ensures ok && sync && Unambiguous(spec) ==> forall i :: 0 <= i < |spec| ==> Look(r, spec[i].name) == Some(spec[i].value)
    ensures ok ==> forall name :: name in r ==> Mentions(spec, name) || name in inUse
    ensures ok && !changed ==> r == current
  {
    hide Missing, Stale, Creates, CreatedFrom, UpdatedFrom, RemovedFrom, Unambiguous, Specified;
    var work := SortOut(current, spec, sync, usable, api);
    MissingIs(current, spec);
    StaleIs(current, spec, sync, usable, api);
    var created, createOk := CreateAll(current, work.create, api);
    CreatedKeys(current, work.create, api, created);
    var updated, updateOk := UpdateAll(created, work.update, sync, api);
    UpdatedKeys(created, work.update, sync, api, updated);
    var tried, removeOk;
    r, tried, removeOk := RemoveAll(updated, work.remove, inUse, api);
    ok := !work.refused && createOk && updateOk && removeOk;
    changed := ok && (|work.create| > 0 || |work.update| > 0 || tried);
    assert tried <==> exists name :: Unused(current, spec, inUse, name) by {
      assert forall name :: Unused(current, spec, inUse, name) <==> name in work.remove && name !in inUse;
    }
    KindSafe(current, spec, sync, usable, inUse, api, work.remove, created, updated, r);
    if ok { KindMet(current, spec, sync, usable, inUse, api, work.remove, created, updated, r); }
    if ok && !changed { NothingCreated(current, api, created); }
  }

  lemma {:induction false} CreatedKeys<T(!new)>(current: map<string, T>, items: seq<Named<T>>, api: Api, created: map<string, T>)
    requires CreatedFrom(current, items, api, created)
    ensures forall name :: name in current ==> name in created
  {
  }

  lemma {:induction false} UpdatedKeys<T(!new)>(current: map<string, T>, items: seq<Named<T>>, sync: bool, api: Api, updated: map<string, T>)
    requires UpdatedFrom(current, items, sync, api, updated)
    ensures forall name :: name in updated <==> name in current
  {
  }

  lemma {:induction false} NothingCreated<T(!new)>(current: map<string, T>, api: Api, created: map<string, T>)
    requires CreatedFrom(current, [], api, created)
    ensures created == current
  {
    forall name | name in created ensures name in current { }
  }

  /** What holds whatever fails. */
  lemma {:induction false} KindSafe<T(!new)>(current: map<string, T>, spec: seq<Named<T>>, sync: bool, usable: nat -> bool, inUse: set<string>, api: Api,
                                             names: set<string>, created: map<string, T>, updated: map<string, T>, r: map<string, T>)
    requires forall name :: name in names <==> name in current && !Mentions(spec, name)
    requires CreatedFrom(current, Missing(current, spec), api, created)
    requires UpdatedFrom(created, Stale(current, spec, sync, usable, api), sync, api, updated) && RemovedFrom(updated, names, inUse, api, r)
    ensures KindDone(current, spec, inUse, api, r)
    ensures forall name :: name in r ==> (name in current && r[name] == current[name]) || ((sync || name !in current) && Specified(spec, name, r[name]))
  {
    hide Creates;
    var missing, stale := Missing(current, spec), Stale(current, spec, sync, usable, api);
    MissingIs(current, spec);
    StaleIs(current, spec, sync, usable, api);
    hide Missing, Stale;
    forall k | 0 <= k < |missing| && Creates(missing, api, k) ensures Look(r, missing[k].name) == Some(missing[k].value) {
      CreatedMet(current, missing, stale, spec, sync, api, created, updated, k);
    }
    forall name | name in r && !(name in current && r[name] == current[name])
      ensures (sync || name !in current) && Specified(spec, name, r[name])
    {
      if updated[name] != created[name] {
        SpecifiedIn(stale, spec, name, updated[name]);
      } else {
        assert name !in current;
        SpecifiedIn(missing, spec, name, created[name]);
      }
    }
  }

  lemma {:induction false} StaleListed<T(!new)>(current: map<string, T>, spec: seq<Named<T>>, stale: seq<Named<T>>, name: string, value: T)
    requires (forall k :: 0 <= k < |stale| ==> stale[k] in spec && stale[k].name in current) && Specified(stale, name, value)
    ensures name in current
  {
  }

  lemma {:induction false} SpecifiedIn<T(!new)>(items: seq<Named<T>>, spec: seq<Named<T>>, name: string, value: T)
    requires (forall k :: 0 <= k < |items| ==> items[k] in spec) && Specified(items, name, value)
    ensures Specified(spec, name, value)
  {
    var k :| 0 <= k < |items| && items[k] == Named(name, value);
    var i :| 0 <= i < |spec| && spec[i] == items[k];
  }

  /** What holds without an error. */
  lemma {:induction false} KindMet<T(!new)>(current: map<string, T>, spec: seq<Named<T>>, sync: bool, usable: nat -> bool, inUse: set<string>, api: Api,
                                            names: set<string>, created: map<string, T>, updated: map<string, T>, r: map<string, T>)
    requires forall name :: name in names <==> name in current && !Mentions(spec, name)
    requires CreatedFrom(current, Missing(current, spec), api, created)
    requires UpdatedFrom(created, Stale(current, spec, sync, usable, api), sync, api, updated) && RemovedFrom(updated, names, inUse, api, r)
    requires KindOk(current, spec, sync, usable, inUse, api)
    ensures forall i :: 0 <= i < |spec| ==> spec[i].name in r
    ensures sync && Unambiguous(spec) ==> forall i :: 0 <= i < |spec| ==> Look(r, spec[i].name) == Some(spec[i].value)
    ensures forall name :: name in r ==> Mentions(spec, name) || name in inUse
  {
    KindSafe(current, spec, sync, usable, inUse, api, names, created, updated, r);
    forall i | 0 <= i < |spec| ensures spec[i].name in r {
      ItemMet(current, spec, sync, usable, inUse, api, names, created, updated, r, i);
    }
    if sync && Unambiguous(spec) {
      forall i | 0 <= i < |spec| ensures Look(r, spec[i].name) == Some(spec[i].value) {
        ItemMet(current, spec, sync, usable, inUse, api, names, created, updated, r, i);
      }
    }
    forall name | name in r ensures Mentions(spec, name) || name in inUse {
      if name in current {
        assert Unused(current, spec, inUse, name) ==> api.remove(name);
      } else {
        assert Specified(spec, name, r[name]);
      }
    }
  }

  lemma {:induction false} CreatedMet<T(!new)>(current: map<string, T>, missing: seq<Named<T>>, stale: seq<Named<T>>, spec: seq<Named<T>>, sync: bool, api: Api,
                                               created: map<string, T>, updated: map<string, T>, k: nat)
    requires CreatedFrom(current, missing, api, created) && UpdatedFrom(created, stale, sync, api, updated)
    requires k < |missing| && Creates(missing, api, k) && missing[k].name !in current
    requires forall k :: 0 <= k < |stale| ==> stale[k] in spec && stale[k].name in current
    ensures Look(updated, missing[k].name) == Some(missing[k].value)
  {
    hide Creates;
    var item := missing[k];
    assert Look(created, item.name) == Some(item.value);
    if sync && Specified(stale, item.name, updated[item.name]) { StaleListed(current, spec, stale, item.name, updated[item.name]); }
  }

  lemma {:induction false} PresentMet<T(!new)>(current: map<string, T>, missing: seq<Named<T>>, stale: seq<Named<T>>, spec: seq<Named<T>>, api: Api,
                                               created: map<string, T>, updated: map<string, T>, i: nat)
    requires CreatedFrom(current, missing, api, created) && UpdatedFrom(created, stale, true, api, updated)
    requires i < |spec| && spec[i].name in current && Unambiguous(spec)
    requires current[spec[i].name] != spec[i].value ==> spec[i] in stale
    requires forall k :: 0 <= k < |stale| ==> stale[k] in spec && api.update(k)
    ensures Look(updated, spec[i].name) == Some(spec[i].value)
  {
    hide Creates;
    var name := spec[i].name;
    assert name in created && created[name] == current[name];
    if current[name] != spec[i].value {
      var k :| 0 <= k < |stale| && stale[k] == spec[i];
      assert Specified(stale, stale[k].name, updated[stale[k].name]);
    }
    if updated[name] != current[name] || current[name] != spec[i].value {
      SpecifiedIn(stale, spec, name, updated[name]);
      var j :| 0 <= j < |spec| && spec[j] == Named(name, updated[name]);
    }
  }

  lemma {:induction false} ItemMet<T(!new)>(current: map<string, T>, spec: seq<Named<T>>, sync: bool, usable: nat -> bool, inUse: set<string>, api: Api,
                                            names: set<string>, created: map<string, T>, updated: map<string, T>, r: map<string, T>, i: nat)
    requires i < |spec| && forall name :: name in names <==> name in current && !Mentions(spec, name)
    requires CreatedFrom(current, Missing(current, spec), api, created)
    requires UpdatedFrom(created, Stale(current, spec, sync, usable, api), sync, api, updated) && RemovedFrom(updated, names, inUse, api, r)
    requires KindOk(current, spec, sync, usable, inUse, api)
    ensures spec[i].name in r && (sync && Unambiguous(spec) ==> r[spec[i].name] == spec[i].value)
  {
    var missing, stale := Missing(current, spec), Stale(current, spec, sync, usable, api);
    MissingIs(current, spec);
    StaleIs(current, spec, sync, usable, api);
    hide Missing, Stale, Creates, CreatedFrom, UpdatedFrom, Unambiguous;
    CreatedKeys(current, missing, api, created);
    UpdatedKeys(created, stale, sync, api, updated);
    assert Mentions(spec, spec[i].name);
    if spec[i].name !in current {
      var k :| 0 <= k < |missing| && missing[k] == spec[i];
      CreatedMet(current, missing, stale, spec, sync, api, created, updated, k);
    } else if sync && Unambiguous(spec) {
      assert usable(i);
      PresentMet(current, missing, stale, spec, api, created, updated, i);
    }
  }

  // ------------------------------------------------------------------------ the store

  datatype Spec = Spec(realms: seq<Named<Realm>>, zoneGroups: seq<Named<string>>, zones: seq<Named<Zone>>)

  /** What spec validation demands. */
  ghost predicate Validated(spec: Spec) {
    && (forall i :: 0 <= i < |spec.zoneGroups| ==> Mentions(spec.realms, spec.zoneGroups[i].value))
    && (forall i :: 0 <= i < |spec.zones| ==> Mentions(spec.zoneGroups, spec.zones[i].value.zoneGroup))
  }

  /** The answers during one pass: per kind, the secrets of pulled realms, and the zones object stores use, if they can be listed. */
  datatype Answers = Answers(realms: Api, zoneGroups: Api, zones: Api, secretOk: string -> bool, zonesInUse: Option<set<string>>)

  /** Zone groups with their realms, zones with their zone groups. */
  datatype Store = Store(realms: map<string, Realm>, zoneGroups: map<string, string>, zones: map<string, Zone>)

  /** No reference dangles. */
  ghost predicate Intact(s: Store) {
    && (forall g :: g in s.zoneGroups ==> s.zoneGroups[g] in s.realms)
    && (forall z :: z in s.zones ==> s.zones[z].zoneGroup in s.zoneGroups)
  }

  function RealmsInUse(s: Store): set<string> {
    set g | g in s.zoneGroups :: s.zoneGroups[g]
  }

  function ZoneGroupsInUse(s: Store): set<string> {
    set z | z in s.zones :: s.zones[z].zoneGroup
  }

  /** The specification is met; the realm of a zone group is fixed when it is created. */
  ghost predicate Meets(s: Store, spec: Spec) {
    && (Unambiguous(spec.realms) ==> forall i :: 0 <= i < |spec.realms| ==> Look(s.realms, spec.realms[i].name) == Some(spec.realms[i].value))
    && (forall i :: 0 <= i < |spec.zoneGroups| ==> spec.zoneGroups[i].name in s.zoneGroups)
    && (Unambiguous(spec.zones) ==> forall i :: 0 <= i < |spec.zones| ==> Look(s.zones, spec.zones[i].name) == Some(spec.zones[i].value))
  }

  /** Everything that is not specified is in use. */
  ghost predicate Lean(s: Store, spec: Spec, zonesInUse: set<string>) {
    && (forall r :: r in s.realms ==> Mentions(spec.realms, r) || r in RealmsInUse(s))
    && (forall g :: g in s.zoneGroups ==> Mentions(spec.zoneGroups, g) || g in ZoneGroupsInUse(s))
    && (forall z :: z in s.zones ==> Mentions(spec.zones, z) || z in zonesInUse)
  }

  /** A realm that is pulled needs its secret. */
  function RealmUsable(spec: Spec, answers: Answers): nat -> bool {
    (i: nat) => i < |spec.realms| && (spec.realms[i].value.pullEndpoint == "" || answers.secretOk(spec.realms[i].name))
  }

  predicate AnyUsable(i: nat) {
    true
  }

  /** No name is specified twice. */
  ghost predicate NamesOnce<T(!new)>(spec: seq<Named<T>>) {
    forall i, j :: 0 <= i < j < |spec| ==> spec[i].name != spec[j].name
  }

  ghost predicate ApiWell(api: Api) {
    api.lists && (forall k :: api.create(k) && api.update(k)) && forall name :: api.remove(name)
  }

  /** Every call succeeds and every secret is there. */
  ghost predicate AllWell(answers: Answers) {
    && ApiWell(answers.realms) && ApiWell(answers.zoneGroups) && ApiWell(answers.zones)
    && (forall name :: answers.secretOk(name)) && answers.zonesInUse.Some?
  }

  lemma {:induction false} MissingOnce<T(!new)>(listed: map<string, T>, spec: seq<Named<T>>)
    requires NamesOnce(spec)
    ensures NamesOnce(Missing(listed, spec))
  {
    if spec != [] {
      var n := |spec| - 1;
      MissingOnce(listed, spec[..n]);
      MissingIs(listed, spec[..n]);
      var init := Missing(listed, spec[..n]);
      forall k | 0 <= k < |init| ensures init[k].name != spec[n].name {
        var i :| 0 <= i < n && spec[..n][i] == init[k];
      }
    }
  }

  lemma {:induction false} WellIsOk<T(!new)>(current: map<string, T>, spec: seq<Named<T>>, sync: bool, usable: nat -> bool, inUse: set<string>, api: Api)
    requires ApiWell(api) && NamesOnce(spec) && forall i :: 0 <= i < |spec| ==> usable(i)
    ensures KindOk(current, spec, sync, usable, inUse, api)
  {
    hide Missing, Stale;
    MissingOnce(current, spec);
  }

  /** A pulled realm that is present needs its secret. */
  lemma {:induction false} SecretsUsed(current: map<string, Realm>, spec: Spec, answers: Answers, inUse: set<string>)
    requires KindOk(current, spec.realms, true, RealmUsable(spec, answers), inUse, answers.realms)
    ensures forall i :: 0 <= i < |spec.realms| && spec.realms[i].name in current && spec.realms[i].value.pullEndpoint != "" ==>
      answers.secretOk(spec.realms[i].name)
  {
    forall i | 0 <= i < |spec.realms| && spec.realms[i].name in current && spec.realms[i].value.pullEndpoint != ""
      ensures answers.secretOk(spec.realms[i].name)
    {
      assert RealmUsable(spec, answers)(i);
    }
  }

  lemma {:induction false} ListsWell(spec: Spec, answers: Answers)
    requires AllWell(answers)
    ensures answers.realms.lists && answers.zoneGroups.lists && answers.zones.lists
    ensures forall i :: 0 <= i < |spec.realms| ==> RealmUsable(spec, answers)(i)
  {
    forall i | 0 <= i < |spec.realms| ensures RealmUsable(spec, answers)(i) {
      assert answers.secretOk(spec.realms[i].name);
    }
  }

  class RgwMultisite {
    var store: Store

    constructor ()
      ensures store == Store(map[], map[], map[])
    {
      store := Store(map[], map[], map[]);
    }

    method EnsureRealms(spec: Spec, answers: Answers) returns (ok: bool, changed: bool)
      requires Intact(store)
      modifies this
      ensures Intact(store) && store == old(store).(realms := store.realms)
      ensures ok <==>
        && answers.realms.lists && answers.zoneGroups.lists
        && KindOk(old(store).realms, spec.realms, true, RealmUsable(spec, answers), RealmsInUse(old(store)), answers.realms)
      ensures changed <==> ok && KindChanges(old(store).realms, spec.realms, true, RealmUsable(spec, answers), RealmsInUse(old(store)), answers.realms)
      ensures ok ==> forall i :: 0 <= i < |spec.realms| && spec.realms[i].name in old(store).realms && spec.realms[i].value.pullEndpoint != "" ==>
        answers.secretOk(spec.realms[i].name)
      ensures answers.realms.lists && answers.zoneGroups.lists ==> KindDone(old(store).realms, spec.realms, RealmsInUse(old(store)), answers.realms, store.realms)
      ensures ok ==> forall i :: 0 <= i < |spec.realms| ==> spec.realms[i].name in store.realms
      ensures ok && Unambiguous(spec.realms) ==> forall i :: 0 <= i < |spec.realms| ==> Look(store.realms, spec.realms[i].name) == Some(spec.realms[i].value)
      ensures ok ==> forall r :: r in store.realms ==> Mentions(spec.realms, r) || r in RealmsInUse(store)
      ensures ok && !changed ==> store == old(store)
    {
      hide KindOk, KindChanges;
      if !answers.realms.lists || !answers.zoneGroups.lists { return false, false; }
      var realms;
      realms, ok, changed := EnsureKind(store.realms, spec.realms, true, RealmUsable(spec, answers), RealmsInUse(store), answers.realms);
      if ok { SecretsUsed(store.realms, spec, answers, RealmsInUse(store)); }
      store := store.(realms := realms);
    }

    method EnsureZoneGroups(spec: Spec, answers: Answers) returns (ok: bool, changed: bool)
      requires Intact(store) && Validated(spec) && forall i :: 0 <= i < |spec.realms| ==> spec.realms[i].name in store.realms
      modifies this
      ensures Intact(store) && store == old(store).(zoneGroups := store.zoneGroups)
      ensures ok <==>
        && answers.zoneGroups.lists && answers.zones.lists
        && KindOk(old(store).zoneGroups, spec.zoneGroups, false, AnyUsable, ZoneGroupsInUse(old(store)), answers.zoneGroups)
      ensures changed <==> ok && KindChanges(old(store).zoneGroups, spec.zoneGroups, false, AnyUsable, ZoneGroupsInUse(old(store)), answers.zoneGroups)
      ensures answers.zoneGroups.lists && answers.zones.lists ==>
        KindDone(old(store).zoneGroups, spec.zoneGroups, ZoneGroupsInUse(old(store)), answers.zoneGroups, store.zoneGroups)
      ensures ok ==> forall i :: 0 <= i < |spec.zoneGroups| ==> spec.zoneGroups[i].name in store.zoneGroups
      ensures forall g :: g in old(store).zoneGroups && g in store.zoneGroups ==> store.zoneGroups[g] == old(store).zoneGroups[g]
      ensures ok ==> forall g :: g in store.zoneGroups ==> Mentions(spec.zoneGroups, g) || g in ZoneGroupsInUse(store)
      ensures ok && !changed ==> store == old(store)
    {
      hide KindOk, KindChanges;
      if !answers.zoneGroups.lists || !answers.zones.lists { return false, false; }
      var zoneGroups;
      zoneGroups, ok, changed := EnsureKind(store.zoneGroups, spec.zoneGroups, false, AnyUsable, ZoneGroupsInUse(store), answers.zoneGroups);
      store := store.(zoneGroups := zoneGroups);
    }

    method EnsureZones(spec: Spec, answers: Answers) returns (ok: bool, changed: bool)
      requires Intact(store) && Validated(spec) && forall i :: 0 <= i < |spec.zoneGroups| ==> spec.zoneGroups[i].name in store.zoneGroups
      modifies this
      ensures Intact(store) && store == old(store).(zones := store.zones)
      ensures ok <==>
        && answers.zones.lists && answers.zonesInUse.Some?
        && KindOk(old(store).zones, spec.zones, true, AnyUsable, answers.zonesInUse.value, answers.zones)
      ensures changed <==> ok && KindChanges(old(store).zones, spec.zones, true, AnyUsable, answers.zonesInUse.value, answers.zones)
      ensures answers.zones.lists && answers.zonesInUse.Some? ==>
        KindDone(old(store).zones, spec.zones, answers.zonesInUse.value, answers.zones, store.zones)
      ensures ok && Unambiguous(spec.zones) ==> forall i :: 0 <= i < |spec.zones| ==> Look(store.zones, spec.zones[i].name) == Some(spec.zones[i].value)
      ensures ok ==> answers.zonesInUse.Some? && forall z :: z in store.zones ==> Mentions(spec.zones, z) || z in answers.zonesInUse.value
      ensures ok && !changed ==> store == old(store)
    {
      hide KindOk, KindChanges;
      if !answers.zones.lists || answers.zonesInUse.None? { return false, false; }
      var zones;
      zones, ok, changed := EnsureKind(store.zones, spec.zones, true, AnyUsable, answers.zonesInUse.value, answers.zones);
      store := store.(zones := zones);
    }

    /**
     * One pass. Whatever fails, no reference dangles. If no call fails and no name is specified twice, there is no
     * error. Without an error the specification is met; if also nothing changed, only resources in use are left over.
     */
    method EnsureRgwMultiSite(spec: Spec, answers: Answers) returns (ok: bool, changed: bool)
      requires Intact(store) && Validated(spec)
      modifies this
      ensures Intact(store)
      ensures ok ==> Meets(store, spec)
      ensures AllWell(answers) && NamesOnce(spec.realms) && NamesOnce(spec.zoneGroups) && NamesOnce(spec.zones) ==> ok
      ensures ok && !changed ==> store == old(store) && answers.zonesInUse.Some? && Lean(store, spec, answers.zonesInUse.value)
    {
      hide KindOk, KindChanges, KindDone, ApiWell, NamesOnce;
      var realmsChanged, groupsChanged, zonesChanged;
      ghost var well := AllWell(answers) && NamesOnce(spec.realms) && NamesOnce(spec.zoneGroups) && NamesOnce(spec.zones);
      if well {
        ListsWell(spec, answers);
        WellIsOk(store.realms, spec.realms, true, RealmUsable(spec, answers), RealmsInUse(store), answers.realms);
      }
      ok, realmsChanged := EnsureRealms(spec, answers);
      if !ok { return false, false; }
      if well { WellIsOk(store.zoneGroups, spec.zoneGroups, false, AnyUsable, ZoneGroupsInUse(store), answers.zoneGroups); }
      ok, groupsChanged := EnsureZoneGroups(spec, answers);
      if !ok { return false, false; }
      if well { WellIsOk(store.zones, spec.zones, true, AnyUsable, answers.zonesInUse.value, answers.zones); }
      ok, zonesChanged := EnsureZones(spec, answers);
      if !ok { return false, false; }
      changed := realmsChanged || groupsChanged || zonesChanged;
    }

    /** Deletes what nothing listed at the start refers to. */
    method DeleteMultiSite(answers: Answers) returns (ok: bool, removed: bool)
      requires Intact(store)
      modifies this
      ensures Intact(store)
      ensures removed ==> ok && store == old(store) == Store(map[], map[], map[])
      ensures ok ==> answers.zonesInUse.Some? && store == Swept(old(store), answers.zonesInUse.value)
      ensures ok && old(store) == Store(map[], map[], map[]) ==> removed
      ensures ok <==>
        && answers.zones.lists && answers.zoneGroups.lists && answers.realms.lists && answers.zonesInUse.Some?
        && (forall z :: z in old(store).zones && z !in answers.zonesInUse.value ==> answers.zones.remove(z))
        && (forall g :: g in old(store).zoneGroups && g !in ZoneGroupsInUse(old(store)) ==> answers.zoneGroups.remove(g))
        && (forall r :: r in old(store).realms && r !in RealmsInUse(old(store)) ==> answers.realms.remove(r))
    {
      hide Only, RealmsInUse, ZoneGroupsInUse, Part, Intact;
      if !answers.zones.lists || !answers.zoneGroups.lists || !answers.realms.lists || answers.zonesInUse.None? { return false, false; }
      var before := store;
      var zones, zonesOk := Sweep(before.zones, answers.zonesInUse.value, answers.zones);
      var groups, groupsOk := Sweep(before.zoneGroups, ZoneGroupsInUse(before), answers.zoneGroups);
      var realms, realmsOk := Sweep(before.realms, RealmsInUse(before), answers.realms);
      store := Store(realms, groups, zones);
      SweepIntact(before, store);
      ok := zonesOk && groupsOk && realmsOk;
      removed := ok && before == Store(map[], map[], map[]);
    }
  }

  /** Removes all that is not in use. */
  method Sweep<T(!new)>(current: map<string, T>, inUse: set<string>, api: Api) returns (r: map<string, T>, ok: bool)
    ensures Part(r, current) && forall name :: name in current && name in inUse ==> name in r
    ensures ok ==> r == Only(current, inUse)
    ensures ok <==> forall name :: name in current && name !in inUse ==> api.remove(name)
  {
    var tried;
    r, tried, ok := RemoveAll(current, current.Keys, inUse, api);
  }

  ghost predicate Part<T(!new)>(a: map<string, T>, b: map<string, T>) {
    forall name :: name in a ==> name in b && a[name] == b[name]
  }

  lemma {:induction false} SweepIntact(before: Store, after: Store)
    requires Intact(before)
    requires Part(after.realms, before.realms) && Part(after.zoneGroups, before.zoneGroups) && Part(after.zones, before.zones)
    requires forall r :: r in before.realms && r in RealmsInUse(before) ==> r in after.realms
    requires forall g :: g in before.zoneGroups && g in ZoneGroupsInUse(before) ==> g in after.zoneGroups
    ensures Intact(after)
  {
  }

  // ------------------------------------------------------------------------- sweeping

  function Only<T>(m: map<string, T>, names: set<string>): (r: map<string, T>)
    ensures r.Keys == m.Keys * names
    ensures forall name :: name in r ==> r[name] == m[name]
  {
    map name | name in m && name in names :: m[name]
  }

  /** One cleanup pass in which every delete succeeds. */
  function Swept(s: Store, zonesInUse: set<string>): Store {
    Store(Only(s.realms, RealmsInUse(s)), Only(s.zoneGroups, ZoneGroupsInUse(s)), Only(s.zones, zonesInUse))
  }

  /** The zones in use, their zone groups, and the realms of those. */
  function Needed(s: Store, zonesInUse: set<string>): Store {
    var zones := Only(s.zones, zonesInUse);
    var groups := Only(s.zoneGroups, set z | z in zones :: zones[z].zoneGroup);
    Store(Only(s.realms, set g | g in groups :: groups[g]), groups, zones)
  }

  /** Three cleanup passes leave exactly what object stores need, and a fourth changes nothing. */
  lemma {:induction false} ThreePassesSweep(s: Store, zonesInUse: set<string>)
    ensures Swept(Swept(Swept(s, zonesInUse), zonesInUse), zonesInUse) == Needed(s, zonesInUse)
    ensures Swept(Needed(s, zonesInUse), zonesInUse) == Needed(s, zonesInUse)
  {
    var one := Swept(s, zonesInUse);
    var two := Swept(one, zonesInUse);
    var three := Swept(two, zonesInUse);
    var needed := Needed(s, zonesInUse);
    assert one.zones == two.zones == three.zones == needed.zones;
    assert two.zoneGroups == needed.zoneGroups == three.zoneGroups;
  }

  /** Without object stores nothing is left. */
  lemma {:induction false} NothingNeeded(s: Store)
    ensures Needed(s, {}) == Store(map[], map[], map[])
  {
  }
}
