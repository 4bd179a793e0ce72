/**
 * Node labels: Ceph roles, CRUSH topology, and the saved Kubernetes topology
 * (pkg/controller/deployment/label.go, pkg/common/cephdeployment_utils.go).
 */
module NodeLabels {
  import opened Wrappers

  type Labels = map<string, string>

  // ---------------------------------------------------------------------- label keys

  const CEPH_ROLES: seq<string> := ["mds", "mgr", "mon", "osd", "rgw"]

  const ALLOWED_KEYS: set<string> :=
    {"region", "zone", "datacenter", "room", "pod", "pdu", "row", "rack", "chassis"}

  predicate Allowed(key: string) {
    key in ALLOWED_KEYS
  }

  predicate IsKubeCrush(key: string) {
    key == "region" || key == "zone"
  }

  function RoleLabel(role: string): string {
    "ceph_role_" + role
  }

  function TopologyLabel(key: string): string {
    (if IsKubeCrush(key) then "topology.kubernetes.io/" else "topology.rook.io/") + key
  }

  /** Keeps the value a topology label had before Ceph took it over. */
  function SavedLabel(key: string): string {
    "cephdpl-prev-" + TopologyLabel(key)
  }

  /** The topology labels, and which of them are saved before Ceph takes them over. */
  lemma {:induction false} TopologyLabels(key: string)
    ensures IsKubeCrush(key) <==> "topology.kubernetes.io/" <= TopologyLabel(key)
    ensures !IsKubeCrush(key) <==> "topology.rook.io/" <= TopologyLabel(key)
    ensures TopologyLabel("region") == "topology.kubernetes.io/region" && TopologyLabel("zone") == "topology.kubernetes.io/zone"
    ensures Allowed(key) ==> TopologyLabel(key) == "topology.rook.io/" + key || key == "region" || key == "zone"
    ensures Allowed("region") && Allowed("zone") && Allowed("datacenter") && Allowed("rack")
  {
    assert TopologyLabel(key)[9] == if IsKubeCrush(key) then 'k' else 'r';
  }

  lemma {:induction false} RoleKey(r: string, q: string, a: string)
    ensures RoleLabel(r) == RoleLabel(q) ==> r == q
    ensures RoleLabel(r) != TopologyLabel(a) && RoleLabel(r) != SavedLabel(a)
  {
    assert RoleLabel(r)[0] == 'c' && TopologyLabel(a)[0] == 't';
    assert RoleLabel(r)[4] == '_' && SavedLabel(a)[4] == 'd';
    assert RoleLabel(r)[10..] == r && RoleLabel(q)[10..] == q;
  }

  lemma {:induction false} TopologyKey(a: string, b: string)
    ensures TopologyLabel(a) == TopologyLabel(b) ==> a == b
    ensures TopologyLabel(a) != SavedLabel(b)
    ensures SavedLabel(a) == SavedLabel(b) ==> a == b
  {
    assert TopologyLabel(a)[0] == 't' && SavedLabel(b)[0] == 'c';
    assert TopologyLabel(a)[9] == if IsKubeCrush(a) then 'k' else 'r';
    assert TopologyLabel(b)[9] == if IsKubeCrush(b) then 'k' else 'r';
    assert TopologyLabel(a)[if IsKubeCrush(a) then 23 else 17..] == a;
    assert TopologyLabel(b)[if IsKubeCrush(b) then 23 else 17..] == b;
    assert SavedLabel(a)[13..] == TopologyLabel(a) && SavedLabel(b)[13..] == TopologyLabel(b);
  }

  ghost predicate IsRole(k: string) {
    exists r :: r in CEPH_ROLES && k == RoleLabel(r)
  }

  ghost predicate IsTopology(k: string) {
    exists a :: Allowed(a) && k == TopologyLabel(a)
  }

  ghost predicate IsSaved(k: string) {
    exists a :: Allowed(a) && IsKubeCrush(a) && k == SavedLabel(a)
  }

  // -------------------------------------------------------------- what a build produces

  /** The topology label of `a` after a build. */
  function TopologyAfter(l: Labels, topology: map<string, string>, a: string): Option<string> {
    if a in topology then Some(topology[a])
    else if !IsKubeCrush(a) then None
    else
      match (Look(l, TopologyLabel(a)), Look(l, SavedLabel(a)))
      case (None, _) => None
      case (Some(v), None) => Some(v)
      case (Some(_), Some(saved)) => if saved == "" then None else Some(saved)
  }

  /** The saved value of `a` after a build. */
  function SavedAfter(l: Labels, topology: map<string, string>, a: string): Option<string> {
    match (Look(l, TopologyLabel(a)), Look(l, SavedLabel(a)))
    case (None, saved) => if a in topology then Some("") else saved
    case (Some(v), None) => if a in topology then Some(v) else None
    case (Some(_), Some(saved)) => if a in topology then Some(saved) else None
  }

  /** `l'` is the result of a build from `l`. */
  ghost predicate Built(l: Labels, roles: seq<string>, topology: map<string, string>, l': Labels) {
    && (forall r :: r in CEPH_ROLES ==> Look(l', RoleLabel(r)) == if r in roles then Some("true") else None)
    && (forall a :: Allowed(a) ==> Look(l', TopologyLabel(a)) == TopologyAfter(l, topology, a))
    && (forall a :: Allowed(a) && IsKubeCrush(a) ==> Look(l', SavedLabel(a)) == SavedAfter(l, topology, a))
    && (forall k :: !IsRole(k) && !IsTopology(k) && !IsSaved(k) ==> Look(l', k) == Look(l, k))
  }

  lemma {:induction false} SameLabels(a: Labels, b: Labels)
    requires forall k :: Look(a, k) == Look(b, k)
    ensures a == b
  {
    forall k ensures k in a <==> k in b { assert Look(a, k) == Look(b, k); }
    forall k | k in a ensures a[k] == b[k] { assert Look(a, k) == Look(b, k); }
  }

  lemma {:induction false} BuiltOnce(l: Labels, roles: seq<string>, topology: map<string, string>, a: Labels, b: Labels)
    requires Built(l, roles, topology, a) && Built(l, roles, topology, b)
    ensures a == b
  {
    forall k ensures Look(a, k) == Look(b, k) { }
    SameLabels(a, b);
  }

  // ------------------------------------------------------------------------- the loops

  method BuildCephNodeLabels(current: Labels, roles: seq<string>) returns (labels: Labels, changed: bool)
    ensures forall r :: r in CEPH_ROLES ==> Look(labels, RoleLabel(r)) == if r in roles then Some("true") else None
    ensures forall k :: !IsRole(k) ==> Look(labels, k) == Look(current, k)
    ensures changed <==> labels != current
  {
    labels, changed := current, false;
    for i := 0 to |CEPH_ROLES|
      invariant forall j :: 0 <= j < i ==>
        Look(labels, RoleLabel(CEPH_ROLES[j])) == if CEPH_ROLES[j] in roles then Some("true") else None
      invariant forall j :: i <= j < |CEPH_ROLES| ==> Look(labels, RoleLabel(CEPH_ROLES[j])) == Look(current, RoleLabel(CEPH_ROLES[j]))
      invariant forall k :: !IsRole(k) ==> Look(labels, k) == Look(current, k)
      invariant changed <==> labels != current
    {
      var role := CEPH_ROLES[i];
      var key := RoleLabel(role);
      forall j | 0 <= j < |CEPH_ROLES| && j != i ensures RoleLabel(CEPH_ROLES[j]) != key { RoleKey(CEPH_ROLES[j], role, ""); }
      ghost var before := labels;
      assert Look(before, key) == Look(current, key);
      if role !in roles {
        if key in labels {
          labels, changed := labels - {key}, true;
          assert key in current;
        }
      } else if key !in labels || labels[key] != "true" {
        labels, changed := labels[key := "true"], true;
        assert Look(labels, key) != Look(current, key);
      }
    }
  }

  /** Only the two labels of `a` differ. */
  ghost predicate OnlyAt(l: Labels, l': Labels, a: string) {
    forall k :: k != TopologyLabel(a) && k != SavedLabel(a) ==> Look(l', k) == Look(l, k)
  }

  /** Takes over the topology label of one key. */
  method SetTopology(current: Labels, a: string, value: string) returns (labels: Labels, changed: bool)
    ensures OnlyAt(current, labels, a)
    ensures Look(labels, TopologyLabel(a)) == TopologyAfter(current, map[a := value], a)
    ensures Look(labels, SavedLabel(a)) == if IsKubeCrush(a) then SavedAfter(current, map[a := value], a) else Look(current, SavedLabel(a))
    ensures changed <==> labels != current
  {
    TopologyKey(a, a);
    labels, changed := current, false;
    var key, saved := TopologyLabel(a), SavedLabel(a);
    if key !in current {
      if IsKubeCrush(a) { labels := labels[saved := ""]; }
      labels, changed := labels[key := value], true;
      assert key in labels;
    } else {
      var now := current[key];
      if IsKubeCrush(a) && saved !in labels {
        labels, changed := labels[saved := now], true;
        assert saved in labels;
      }
      if now != value {
        labels, changed := labels[key := value], true;
        assert labels[key] != current[key];
      }
    }
  }

  /** Gives back the topology label of one key. */
  method DropTopology(current: Labels, a: string) returns (labels: Labels, changed: bool)
    ensures OnlyAt(current, labels, a)
    ensures Look(labels, TopologyLabel(a)) == TopologyAfter(current, map[], a)
    ensures Look(labels, SavedLabel(a)) == if IsKubeCrush(a) then SavedAfter(current, map[], a) else Look(current, SavedLabel(a))
    ensures changed <==> labels != current
  {
    TopologyKey(a, a);
    labels, changed := current, false;
    var key, saved := TopologyLabel(a), SavedLabel(a);
    if key in labels {
      if IsKubeCrush(a) {
        if saved !in labels { return; }
        if labels[saved] == "" {
          labels := labels - {key};
        } else {
          labels := labels[key := labels[saved]];
        }
        labels := labels - {saved};
        assert saved in current;
      } else {
        labels := labels - {key};
        assert key in current;
      }
      changed := true;
    }
  }

  /** The keys in `left` are untouched, those outside have their final labels. */
  ghost predicate Partly(base: Labels, topology: map<string, string>, l: Labels, left: set<string>) {
    && (forall a :: Allowed(a) ==>
          Look(l, TopologyLabel(a)) == if a in left then Look(base, TopologyLabel(a)) else TopologyAfter(base, topology, a))
    && (forall a :: Allowed(a) && IsKubeCrush(a) ==>
          Look(l, SavedLabel(a)) == if a in left then Look(base, SavedLabel(a)) else SavedAfter(base, topology, a))
    && (forall k :: !IsTopology(k) && !IsSaved(k) ==> Look(l, k) == Look(base, k))
  }

  lemma {:induction false} PartlyStep(base: Labels, topology: map<string, string>, l: Labels, l': Labels, left: set<string>, a: string)
    requires Partly(base, topology, l, left) && a in left && Allowed(a)
    requires OnlyAt(l, l', a) && (IsKubeCrush(a) || Look(l', SavedLabel(a)) == Look(l, SavedLabel(a)))
    requires Look(l', TopologyLabel(a)) == TopologyAfter(base, topology, a)
    requires IsKubeCrush(a) ==> Look(l', SavedLabel(a)) == SavedAfter(base, topology, a)
    ensures Partly(base, topology, l', left - {a})
  {
    hide Allowed, TopologyLabel, SavedLabel, IsKubeCrush, TopologyAfter, SavedAfter;
    forall b | Allowed(b) && b != a
      ensures Look(l', TopologyLabel(b)) == Look(l, TopologyLabel(b)) && Look(l', SavedLabel(b)) == Look(l, SavedLabel(b))
    {
      TopologyKey(a, b);
      TopologyKey(b, a);
    }
    forall k | !IsTopology(k) && !IsSaved(k) ensures Look(l', k) == Look(l, k) {
      assert k != TopologyLabel(a);
    }
  }

  /** A change to the labels of a key in `left` is a change to the base. */
  lemma {:induction false} ChangeShows(base: Labels, topology: map<string, string>, l: Labels, l': Labels, left: set<string>, a: string)
    requires Partly(base, topology, l, left) && a in left && Allowed(a)
    requires OnlyAt(l, l', a) && (IsKubeCrush(a) || Look(l', SavedLabel(a)) == Look(l, SavedLabel(a)))
    ensures l' != base <==> l != base || l' != l
  {
    hide Allowed, TopologyLabel, SavedLabel, IsKubeCrush, TopologyAfter, SavedAfter;
    if l != base && l' == base {
      forall k ensures Look(l, k) == Look(base, k) {
        TopologyKey(a, a);
      }
      SameLabels(l, base);
    }
  }

  /** One handled key: its labels are final, and the change shows. */
  lemma {:induction false} Handled(base: Labels, topology: map<string, string>, one: map<string, string>, l: Labels, l': Labels, left: set<string>, a: string)
    requires Partly(base, topology, l, left) && a in left && Allowed(a) && OnlyAt(l, l', a)
    requires Look(one, a) == Look(topology, a)
    requires Look(l', TopologyLabel(a)) == TopologyAfter(l, one, a)
    requires Look(l', SavedLabel(a)) == if IsKubeCrush(a) then SavedAfter(l, one, a) else Look(l, SavedLabel(a))
    ensures Partly(base, topology, l', left - {a})
    ensures l' != base <==> l != base || l' != l
  {
    hide Allowed, RoleLabel, TopologyLabel, SavedLabel, IsTopology, IsSaved, OnlyAt;
    assert TopologyAfter(base, topology, a) == TopologyAfter(l, one, a);
    assert IsKubeCrush(a) ==> SavedAfter(base, topology, a) == SavedAfter(l, one, a);
    PartlyStep(base, topology, l, l', left, a);
    ChangeShows(base, topology, l, l', left, a);
  }

  method SetAll(base: Labels, topology: map<string, string>) returns (labels: Labels, changed: bool)
    requires topology.Keys <= ALLOWED_KEYS
    ensures Partly(base, topology, labels, ALLOWED_KEYS - topology.Keys)
    ensures changed <==> labels != base
  {
    hide RoleLabel, TopologyLabel, SavedLabel, IsKubeCrush, IsTopology, IsSaved, OnlyAt, TopologyAfter, SavedAfter;
    labels, changed := base, false;
    var left := topology.Keys;
    ghost var rest := ALLOWED_KEYS;
    assert Partly(base, topology, labels, ALLOWED_KEYS);
    hide Partly;
    while left != {}
      invariant left <= topology.Keys && left <= rest <= ALLOWED_KEYS
      invariant forall a :: a in rest <==> Allowed(a) && (a in topology ==> a in left)
      invariant Partly(base, topology, labels, rest)
      invariant changed <==> labels != base
      decreases |left|
    {
      var a :| a in left;
      var updated;
      ghost var before := labels;
      labels, updated := SetTopology(labels, a, topology[a]);
      changed := changed || updated;
      Handled(base, topology, map[a := topology[a]], before, labels, rest, a);
      left, rest := left - {a}, rest - {a};
    }
    assert rest == ALLOWED_KEYS - topology.Keys;
  }

  method DropOthers(base: Labels, current: Labels, topology: map<string, string>) returns (labels: Labels, changed: bool)
    requires Partly(base, topology, current, ALLOWED_KEYS - topology.Keys)
    ensures Partly(base, topology, labels, {})
    ensures current == base ==> (changed <==> labels != base)
    ensures current != base ==> labels != base
  {
    hide RoleLabel, TopologyLabel, SavedLabel, IsKubeCrush, IsTopology, IsSaved, OnlyAt, TopologyAfter, SavedAfter, Partly;
    labels, changed := current, false;
    var left := ALLOWED_KEYS - topology.Keys;
    while left != {}
      invariant left <= ALLOWED_KEYS - topology.Keys
      invariant Partly(base, topology, labels, left)
      invariant current == base ==> (changed <==> labels != base)
      invariant current != base ==> labels != base
      decreases |left|
    {
      var a :| a in left;
      var updated;
      ghost var before := labels;
      labels, updated := DropTopology(labels, a);
      changed := changed || updated;
      Handled(base, topology, map[], before, labels, left, a);
      left := left - {a};
    }
  }

  lemma {:induction false} RoleApart(l: Labels, base: Labels, topology: map<string, string>, a: string)
    requires forall k :: !IsRole(k) ==> Look(base, k) == Look(l, k)
    ensures TopologyAfter(base, topology, a) == TopologyAfter(l, topology, a)
    ensures SavedAfter(base, topology, a) == SavedAfter(l, topology, a)
  {
    hide Allowed, RoleLabel, TopologyLabel, SavedLabel;
    forall r ensures RoleLabel(r) != TopologyLabel(a) && RoleLabel(r) != SavedLabel(a) { RoleKey(r, r, a); }
    assert !IsRole(TopologyLabel(a)) && !IsRole(SavedLabel(a));
  }

  lemma {:induction false} RoleUntouched(base: Labels, topology: map<string, string>, l': Labels, r: string)
    requires Partly(base, topology, l', {})
    ensures Look(l', RoleLabel(r)) == Look(base, RoleLabel(r))
  {
    hide Allowed, RoleLabel, TopologyLabel, SavedLabel;
    forall a ensures RoleLabel(r) != TopologyLabel(a) && RoleLabel(r) != SavedLabel(a) { RoleKey(r, r, a); }
    assert !IsTopology(RoleLabel(r)) && !IsSaved(RoleLabel(r));
  }

  /** Roles first, then topology: the two parts of a build do not meet. */
  lemma {:induction false} RolesThenTopology(l: Labels, roles: seq<string>, topology: map<string, string>, base: Labels, l': Labels)
    requires forall r :: r in CEPH_ROLES ==> Look(base, RoleLabel(r)) == if r in roles then Some("true") else None
    requires forall k :: !IsRole(k) ==> Look(base, k) == Look(l, k)
    requires Partly(base, topology, l', {})
    ensures Built(l, roles, topology, l')
    ensures l' != l <==> base != l || l' != base
  {
    hide Allowed, RoleLabel, TopologyLabel, SavedLabel, TopologyAfter, SavedAfter, IsKubeCrush, IsTopology, IsSaved;
    forall r ensures Look(l', RoleLabel(r)) == Look(base, RoleLabel(r)) { RoleUntouched(base, topology, l', r); }
    forall a ensures TopologyAfter(base, topology, a) == TopologyAfter(l, topology, a) { RoleApart(l, base, topology, a); }
    forall a ensures SavedAfter(base, topology, a) == SavedAfter(l, topology, a) { RoleApart(l, base, topology, a); }
    if l' == l && base != l {
      forall k ensures Look(base, k) == Look(l, k) { }
      SameLabels(base, l);
    }
  }

  method BuildNodeLabels(current: Labels, roles: seq<string>, topology: map<string, string>)
    returns (labels: Labels, changed: bool)
    requires topology.Keys <= ALLOWED_KEYS
    ensures Built(current, roles, topology, labels)
    ensures changed <==> labels != current
  {
    hide RoleLabel, IsRole, Partly, Built;
    var base, roleChange := BuildCephNodeLabels(current, roles);
    var placed, setChange := SetAll(base, topology);
    var dropChange;
    labels, dropChange := DropOthers(base, placed, topology);
    RolesThenTopology(current, roles, topology, base, labels);
    changed := roleChange || setChange || dropChange;
  }

  // --------------------------------------------------------------------- save and restore

  /** The result of a build is the only result of building again, so the second build reports no change. */
  lemma {:induction false} BuildIdempotent(l: Labels, roles: seq<string>, topology: map<string, string>, l': Labels)
    requires Built(l, roles, topology, l')
    ensures Built(l', roles, topology, l')
    ensures forall again :: Built(l', roles, topology, again) ==> again == l'
  {
    BuiltAgain(l, roles, topology, l');
    hide Built;
    forall again | Built(l', roles, topology, again) ensures again == l' { BuiltOnce(l', roles, topology, again, l'); }
  }

  lemma {:induction false} BuiltAgain(l: Labels, roles: seq<string>, topology: map<string, string>, l': Labels)
    requires Built(l, roles, topology, l')
    ensures Built(l', roles, topology, l')
  {
    hide Allowed, RoleLabel, TopologyLabel, SavedLabel, IsRole, IsTopology, IsSaved;
    forall a | Allowed(a) ensures TopologyAfter(l', topology, a) == TopologyAfter(l, topology, a) {
      assert Look(l', TopologyLabel(a)) == TopologyAfter(l, topology, a);
    }
    forall a | Allowed(a) && IsKubeCrush(a) ensures SavedAfter(l', topology, a) == SavedAfter(l, topology, a) {
      assert Look(l', TopologyLabel(a)) == TopologyAfter(l, topology, a);
    }
  }

  /** A node Ceph has not labelled: no role, no Rook topology, no saved value. */
  ghost predicate Clean(l: Labels) {
    && (forall r :: r in CEPH_ROLES ==> RoleLabel(r) !in l)
    && (forall a :: Allowed(a) && !IsKubeCrush(a) ==> TopologyLabel(a) !in l)
    && (forall a :: Allowed(a) && IsKubeCrush(a) ==> SavedLabel(a) !in l)
  }

  /** What an empty build would leave in the topology label of `a`. */
  function Restoring(l: Labels, a: string): Option<string> {
    TopologyAfter(l, map[], a)
  }

  /** The original value of `a`; an empty one is lost once Ceph has used the key. */
  function Origin(l0: Labels, touched: set<string>, a: string): Option<string> {
    var v := Look(l0, TopologyLabel(a));
    if a in touched && v == Some("") then None else v
  }

  /** What every build keeps of the labels the node started with. */
  ghost predicate Tracks(l0: Labels, touched: set<string>, l: Labels) {
    && (forall a :: Allowed(a) && IsKubeCrush(a) ==>
          Restoring(l, a) == Origin(l0, touched, a) && (SavedLabel(a) in l ==> TopologyLabel(a) in l))
    && (forall k :: !IsRole(k) && !IsTopology(k) && !IsSaved(k) ==> Look(l, k) == Look(l0, k))
  }

  lemma {:induction false} BuildTracks(l0: Labels, touched: set<string>, l: Labels, roles: seq<string>, topology: map<string, string>, l': Labels)
    requires Tracks(l0, touched, l) && Built(l, roles, topology, l')
    ensures Tracks(l0, touched + topology.Keys, l')
  {
    forall a | Allowed(a) && IsKubeCrush(a)
      ensures Restoring(l', a) == Origin(l0, touched + topology.Keys, a) && (SavedLabel(a) in l' ==> TopologyLabel(a) in l')
    {
      assert Look(l', TopologyLabel(a)) == TopologyAfter(l, topology, a) && Look(l', SavedLabel(a)) == SavedAfter(l, topology, a);
    }
  }

  /** One build request: the roles and the CRUSH topology a node should have. */
  datatype Request = Request(roles: seq<string>, topology: map<string, string>)

  /** `states[i + 1]` is built from `states[i]` by request `i`. */
  ghost predicate IsHistory(requests: seq<Request>, states: seq<Labels>) {
    && |states| == |requests| + 1
    && forall i :: 0 <= i < |requests| ==> Built(states[i], requests[i].roles, requests[i].topology, states[i + 1])
  }

  function Touched(requests: seq<Request>): set<string> {
    if requests == [] then {} else Touched(requests[..|requests| - 1]) + requests[|requests| - 1].topology.Keys
  }

  lemma {:induction false} HistoryTracks(requests: seq<Request>, states: seq<Labels>)
    requires IsHistory(requests, states) && Clean(states[0])
    ensures Tracks(states[0], Touched(requests), states[|requests|])
  {
    if requests != [] {
      var n := |requests| - 1;
      HistoryTracks(requests[..n], states[..n + 1]);
      BuildTracks(states[0], Touched(requests[..n]), states[n], requests[n].roles, requests[n].topology, states[n + 1]);
    } else {
      forall a | Allowed(a) && IsKubeCrush(a) ensures Look(states[0], SavedLabel(a)) == None { }
    }
  }

  /**
   * After any builds, an empty build gives a clean node its labels back exactly if no region
   * or zone that Ceph used had an empty value.
   */
  lemma {:induction false} EmptyBuildRestores(requests: seq<Request>, states: seq<Labels>, restored: Labels)
    requires IsHistory(requests, states) && Clean(states[0])
    requires Built(states[|requests|], [], map[], restored)
    ensures restored == states[0] <==>
      forall a :: a in Touched(requests) && Allowed(a) && IsKubeCrush(a) ==> Look(states[0], TopologyLabel(a)) != Some("")
  {
    var l0, touched, l := states[0], Touched(requests), states[|requests|];
    HistoryTracks(requests, states);
    forall a | Allowed(a) && IsKubeCrush(a) ensures Look(restored, TopologyLabel(a)) == Origin(l0, touched, a) { }
    if forall a :: a in touched && Allowed(a) && IsKubeCrush(a) ==> Look(l0, TopologyLabel(a)) != Some("") {
      forall k ensures Look(restored, k) == Look(l0, k) { RestoredAt(l0, touched, l, restored, k); }
      SameLabels(restored, l0);
    }
  }

  lemma {:induction false} RestoredAt(l0: Labels, touched: set<string>, l: Labels, restored: Labels, k: string)
    requires Clean(l0) && Tracks(l0, touched, l) && Built(l, [], map[], restored)
    requires forall a :: a in touched && Allowed(a) && IsKubeCrush(a) ==> Look(l0, TopologyLabel(a)) != Some("")
    ensures Look(restored, k) == Look(l0, k)
  {
    if IsTopology(k) {
      var a :| Allowed(a) && k == TopologyLabel(a);
      assert Look(restored, k) == TopologyAfter(l, map[], a);
    } else if IsSaved(k) {
      var a :| Allowed(a) && IsKubeCrush(a) && k == SavedLabel(a);
      assert Look(restored, k) == SavedAfter(l, map[], a);
    } else if IsRole(k) {
      var r :| r in CEPH_ROLES && k == RoleLabel(r);
      assert Look(restored, k) == None;
    }
  }
}
