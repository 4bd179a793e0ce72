/**
 * Rotation and retention of the default OpenStack Ceph clients
 * (pkg/controller/deployment/client.go).
 */
module ClientRotation {
  import opened Wrappers

  /** The rotation label of a client: absent, an integer, or something else. */
  datatype Rotation = Unrotated | Rotated(n: int) | Garbled

  /** A CephClient; an empty role is a missing role label. */
  datatype Client = Client(name: string, specName: string, role: string, rotation: Rotation, ready: bool)

  /** Conversion to a 16-bit integer wraps around. */
  function Int16(n: int): (r: int)
    ensures -0x8000 <= r < 0x8000 && (r - n) % 0x1_0000 == 0
  {
    var low := n % 0x1_0000;
    if low < 0x8000 then low else low - 0x1_0000
  }

  function RotationOf(c: Client): int {
    match c.rotation
    case Rotated(n) => Int16(n)
    case _ => -1
  }

  /** A rotated client of the role. */
  predicate Own(c: Client, role: string) {
    c.role == role && RotationOf(c) >= 0
  }

  predicate Current(c: Client, role: string, expected: int) {
    Own(c, role) && RotationOf(c) == expected
  }

  /** A previous rotation that is retained. */
  predicate InWindow(c: Client, role: string, expected: int, keep: int) {
    Own(c, role) && 0 < expected - RotationOf(c) <= keep
  }

  /** A ready client of another rotation, older or newer. */
  predicate Fallback(c: Client, role: string, expected: int) {
    Own(c, role) && RotationOf(c) != expected && c.ready
  }

  /** A client of an earlier release, known by its name only. */
  predicate Legacy(c: Client, role: string) {
    c.role == "" && role != "" && c.specName == role
  }

  // ---------------------------------------------------------------------- scanning a role

  /** What the scan of the clients finds for one role. */
  datatype Scan = Scan(current: Option<string>, currentReady: bool, window: set<string>, last: Option<Client>)

  /** The first of the newest ready clients of other rotations. */
  ghost predicate FirstNewest(clients: seq<Client>, j: nat, role: string, expected: int)
    requires j < |clients|
  {
    && Fallback(clients[j], role, expected)
    && forall i :: 0 <= i < |clients| && Fallback(clients[i], role, expected) ==>
         RotationOf(clients[i]) < RotationOf(clients[j]) || (RotationOf(clients[i]) == RotationOf(clients[j]) && j <= i)
  }

  ghost predicate WindowName(clients: seq<Client>, role: string, expected: int, keep: int, name: string) {
    exists i :: 0 <= i < |clients| && InWindow(clients[i], role, expected, keep) && clients[i].name == name
  }

  /** `scan` describes exactly these clients. */
  ghost predicate Describes(scan: Scan, clients: seq<Client>, role: string, expected: int, keep: int) {
    && (scan.currentReady <==> exists i :: 0 <= i < |clients| && Current(clients[i], role, expected) && clients[i].ready)
    && (forall name :: name in scan.window <==> WindowName(clients, role, expected, keep, name))
    && (forall i :: 0 <= i < |clients| && Fallback(clients[i], role, expected) ==>
          scan.last.Some? && RotationOf(clients[i]) <= RotationOf(scan.last.value))
    && (scan.last.Some? ==> exists j :: 0 <= j < |clients| && clients[j] == scan.last.value && FirstNewest(clients, j, role, expected))
  }

  /** The name of the last client of the expected rotation. */
  ghost predicate NamesCurrent(current: Option<string>, clients: seq<Client>, role: string, expected: int) {
    if current.None? then forall i :: 0 <= i < |clients| ==> !Current(clients[i], role, expected)
    else exists i :: 0 <= i < |clients| && LastCurrent(clients, i, role, expected) && clients[i].name == current.value
  }

  ghost predicate LastCurrent(clients: seq<Client>, i: nat, role: string, expected: int)
    requires i < |clients|
  {
    Current(clients[i], role, expected) && forall j :: i < j < |clients| ==> !Current(clients[j], role, expected)
  }

  /** How far the scan goes: to the first legacy client, if any. */
  function End(clients: seq<Client>, role: string): (n: nat)
    ensures n <= |clients|
    ensures forall i :: 0 <= i < n ==> !Legacy(clients[i], role)
    ensures n < |clients| ==> Legacy(clients[n], role)
  {
    if clients == [] || Legacy(clients[0], role) then 0 else 1 + End(clients[1..], role)
  }

  /** The scan meets no label that is not a number. */
  ghost predicate Parses(clients: seq<Client>, role: string) {
    forall i :: 0 <= i <= End(clients, role) && i < |clients| ==> !clients[i].rotation.Garbled?
  }

  /** One client noted in the scan. */
  function Noted(scan: Scan, c: Client, role: string, expected: int, keep: int): Scan {
    if !Own(c, role) then scan
    else if Current(c, role, expected) then scan.(current := Some(c.name), currentReady := scan.currentReady || c.ready)
    else
      scan.(window := scan.window + (if InWindow(c, role, expected, keep) then {c.name} else {}),
            last := if c.ready && (scan.last.None? || RotationOf(c) > RotationOf(scan.last.value)) then Some(c) else scan.last)
  }

  lemma {:induction false} NotedNewest(scan: Scan, clients: seq<Client>, n: nat, role: string, expected: int, keep: int)
    requires n < |clients| && Describes(scan, clients[..n], role, expected, keep)
    ensures var last, now := Noted(scan, clients[n], role, expected, keep).last, clients[..n + 1];
      last.Some? ==> exists j :: 0 <= j < |now| && now[j] == last.value && FirstNewest(now, j, role, expected)
  {
    hide Int16;
    var last, now := Noted(scan, clients[n], role, expected, keep).last, clients[..n + 1];
    assert now[n] == clients[n] && forall i :: 0 <= i < n ==> now[i] == clients[..n][i];
    if last.Some? {
      if last != scan.last || scan.last.None? {
        assert FirstNewest(now, n, role, expected);
      } else {
        var j :| 0 <= j < n && clients[..n][j] == scan.last.value && FirstNewest(clients[..n], j, role, expected);
        assert now[j] == last.value;
        if Fallback(clients[n], role, expected) { assert RotationOf(clients[n]) <= RotationOf(last.value); }
        assert FirstNewest(now, j, role, expected);
      }
    }
  }

  lemma {:induction false} NotedDescribes(scan: Scan, clients: seq<Client>, n: nat, role: string, expected: int, keep: int)
    requires n < |clients| && Describes(scan, clients[..n], role, expected, keep)
    ensures Describes(Noted(scan, clients[n], role, expected, keep), clients[..n + 1], role, expected, keep)
  {
    hide Int16;
    var scan' := Noted(scan, clients[n], role, expected, keep);
    assert clients[..n + 1] == clients[..n] + [clients[n]];
    forall name ensures name in scan'.window <==> WindowName(clients[..n + 1], role, expected, keep, name) {
      if name in scan.window {
        var i :| 0 <= i < n && InWindow(clients[..n][i], role, expected, keep) && clients[..n][i].name == name;
        assert clients[..n + 1][i] == clients[..n][i];
      } else if name in scan'.window {
        assert clients[..n + 1][n] == clients[n];
      }
    }
    assert clients[..n + 1][n] == clients[n];
    NotedNewest(scan, clients, n, role, expected, keep);
    if scan.currentReady {
      var i :| 0 <= i < n && Current(clients[..n][i], role, expected) && clients[..n][i].ready;
      assert clients[..n + 1][i] == clients[..n][i];
    }
  }

  lemma {:induction false} NotedNames(scan: Scan, clients: seq<Client>, n: nat, role: string, expected: int, keep: int)
    requires n < |clients| && NamesCurrent(scan.current, clients[..n], role, expected)
    ensures NamesCurrent(Noted(scan, clients[n], role, expected, keep).current, clients[..n + 1], role, expected)
  {
    hide Int16;
    var now := clients[..n + 1];
    assert now[n] == clients[n] && forall k :: 0 <= k < n ==> now[k] == clients[..n][k];
    if Current(clients[n], role, expected) {
      assert LastCurrent(now, n, role, expected);
    } else if scan.current.Some? {
      var i :| 0 <= i < n && LastCurrent(clients[..n], i, role, expected) && clients[..n][i].name == scan.current.value;
      assert LastCurrent(now, i, role, expected);
    }
  }

  method ScanRole(clients: seq<Client>, role: string, expected: int, keep: int) returns (ok: bool, scan: Scan)
    ensures ok <==> Parses(clients, role)
    ensures ok ==> Describes(scan, clients[..End(clients, role)], role, expected, keep)
    ensures ok && End(clients, role) == |clients| ==> NamesCurrent(scan.current, clients, role, expected)
    ensures ok && End(clients, role) < |clients| ==> scan.current == Some(clients[End(clients, role)].name)
  {
    hide Int16, Own, Current, InWindow, Fallback, NamesCurrent, Noted;
    ghost var n := End(clients, role);
    scan := Scan(None, false, {}, None);
    NothingScanned(role, expected, keep);
    assert clients[..0] == [];
    hide Describes;
    var i := 0;
    while i < |clients| && !Legacy(clients[i], role)
      invariant i <= n
      invariant forall k :: 0 <= k < i ==> !clients[k].rotation.Garbled?
      invariant Describes(scan, clients[..i], role, expected, keep)
      invariant NamesCurrent(scan.current, clients[..i], role, expected)
    {
      if clients[i].rotation.Garbled? { return false, scan; }
      NotedDescribes(scan, clients, i, role, expected, keep);
      NotedNames(scan, clients, i, role, expected, keep);
      scan := Noted(scan, clients[i], role, expected, keep);
      i := i + 1;
    }
    if i < |clients| {
      if clients[i].rotation.Garbled? { return false, scan; }
      CurrentApart(scan, clients[..i], role, expected, keep, Some(clients[i].name));
      scan := scan.(current := Some(clients[i].name));
    }
    assert clients[..|clients|] == clients;
    ok := true;
  }

  lemma {:induction false} NothingScanned(role: string, expected: int, keep: int)
    ensures Describes(Scan(None, false, {}, None), [], role, expected, keep)
    ensures NamesCurrent(None, [], role, expected)
  {
  }

  lemma {:induction false} CurrentApart(scan: Scan, clients: seq<Client>, role: string, expected: int, keep: int, current: Option<string>)
    requires Describes(scan, clients, role, expected, keep)
    ensures Describes(scan.(current := current), clients, role, expected, keep)
  {
  }

  // ------------------------------------------------------------------------- one pass

  /** What a pass asks for: clients of the specification, default roles, and the rotation settings. */
  datatype Request = Request(specNames: set<string>, roles: seq<string>, expected: int, keep: int, generated: string -> string)

  function Protected(scan: Scan): set<string> {
    scan.window + if scan.last.Some? && !scan.currentReady then {scan.last.value.name} else {}
  }

  function CurrentName(scan: Scan, generated: string): string {
    if scan.current.Some? then scan.current.value else generated
  }

  /** The scans of all roles of a pass. */
  ghost predicate Scanned(scans: seq<Scan>, clients: seq<Client>, req: Request) {
    && |scans| == |req.roles|
    && forall r :: 0 <= r < |scans| ==> ScanOf(scans[r], clients, req.roles[r], req.expected, req.keep)
  }

  ghost predicate ScanOf(scan: Scan, clients: seq<Client>, role: string, expected: int, keep: int) {
    && Describes(scan, clients[..End(clients, role)], role, expected, keep)
    && (End(clients, role) == |clients| ==> NamesCurrent(scan.current, clients, role, expected))
    && (End(clients, role) < |clients| ==> scan.current == Some(clients[End(clients, role)].name))
  }

  /** Some role retains the client, or its current client has the name. */
  ghost predicate Spared(scans: seq<Scan>, req: Request, name: string)
    requires |scans| == |req.roles|
  {
    name in req.specNames || exists r :: 0 <= r < |scans| && (name in Protected(scans[r]) || name == CurrentName(scans[r], req.generated(req.roles[r])))
  }

  method EnsureClients(clients: seq<Client>, req: Request) returns (r: Option<set<string>>, scans: seq<Scan>)
    ensures r.Some? <==> forall k :: 0 <= k < |req.roles| ==> Parses(clients, req.roles[k])
    ensures r.Some? ==> Scanned(scans, clients, req)
    ensures r.Some? ==> forall name :: name in r.value <==> (exists i :: 0 <= i < |clients| && clients[i].name == name) && !Spared(scans, req, name)
  {
    hide Describes, NamesCurrent, Parses, End;
    var present := set i | 0 <= i < |clients| :: clients[i].name;
    ghost var all := present;
    var wanted := req.specNames;
    scans := [];
    for k := 0 to |req.roles|
      invariant |scans| == k && forall j :: 0 <= j < k ==> Parses(clients, req.roles[j]) && ScanOf(scans[j], clients, req.roles[j], req.expected, req.keep)
      invariant forall name :: name in present <==> name in all && forall j :: 0 <= j < k ==> name !in Protected(scans[j])
      invariant forall name :: name in wanted <==> name in req.specNames || exists j :: 0 <= j < k && name == CurrentName(scans[j], req.generated(req.roles[j]))
    {
      var ok, scan := ScanRole(clients, req.roles[k], req.expected, req.keep);
      if !ok { return None, scans; }
      scans := scans + [scan];
      present := present - Protected(scan);
      wanted := wanted + {CurrentName(scan, req.generated(req.roles[k]))};
    }
    return Some(present - wanted), scans;
  }

  // ----------------------------------------------------------------------- retention

  /** No two clients of the role have the same rotation. */
  ghost predicate UniqueRotations(clients: seq<Client>, role: string) {
    forall i, j | 0 <= i < |clients| && 0 <= j < |clients| && Own(clients[i], role) && Own(clients[j], role) ::
      RotationOf(clients[i]) == RotationOf(clients[j]) ==> i == j
  }

  ghost predicate UniqueNames(clients: seq<Client>) {
    forall i, j :: 0 <= i < |clients| && 0 <= j < |clients| && clients[i].name == clients[j].name ==> i == j
  }

  /** Some client of the role is in use. */
  ghost predicate Served(clients: seq<Client>, role: string, deleted: set<string>) {
    exists i :: 0 <= i < |clients| && Own(clients[i], role) && clients[i].ready && clients[i].name !in deleted
  }

  /** No client of the expected rotation is ready, or the one listed last is, or a retained one is. */
  ghost predicate KeepsReady(clients: seq<Client>, role: string, expected: int, keep: int) {
    || (forall i :: 0 <= i < |clients| && Current(clients[i], role, expected) ==> !clients[i].ready)
    || (exists i :: 0 <= i < |clients| && LastCurrent(clients, i, role, expected) && clients[i].ready)
    || (exists i :: 0 <= i < |clients| && InWindow(clients[i], role, expected, keep) && clients[i].ready)
  }

  /** A ready client that the role spares: the current one, a retained one, or the newest other one. */
  lemma {:induction false} ReadyOneSpared(clients: seq<Client>, role: string, expected: int, keep: int, scan: Scan, generated: string) returns (i: nat)
    requires ScanOf(scan, clients, role, expected, keep) && End(clients, role) == |clients| && KeepsReady(clients, role, expected, keep)
    requires Served(clients, role, {})
    ensures i < |clients| && Own(clients[i], role) && clients[i].ready
    ensures clients[i].name in Protected(scan) || clients[i].name == CurrentName(scan, generated)
  {
    hide Int16, End;
    assert clients[..|clients|] == clients;
    if j :| 0 <= j < |clients| && InWindow(clients[j], role, expected, keep) && clients[j].ready {
      i := j;
      assert WindowName(clients, role, expected, keep, clients[i].name);
    } else if j :| 0 <= j < |clients| && LastCurrent(clients, j, role, expected) && clients[j].ready {
      i := j;
      var c :| 0 <= c < |clients| && LastCurrent(clients, c, role, expected) && clients[c].name == scan.current.value;
      assert c == i;
    } else {
      var j :| 0 <= j < |clients| && Own(clients[j], role) && clients[j].ready;
      assert Fallback(clients[j], role, expected);
      i :| 0 <= i < |clients| && clients[i] == scan.last.value;
    }
  }

  /** If it keeps a ready one, a role that is served stays so, even if nothing else succeeds. */
  lemma {:induction false} ReadyKept(clients: seq<Client>, req: Request, scans: seq<Scan>, deleted: set<string>, k: nat)
    requires Scanned(scans, clients, req) && forall name :: name in deleted ==> !Spared(scans, req, name)
    requires k < |req.roles| && End(clients, req.roles[k]) == |clients| && KeepsReady(clients, req.roles[k], req.expected, req.keep)
    requires Served(clients, req.roles[k], {})
    ensures Served(clients, req.roles[k], deleted)
  {
    hide Int16, End, Own, ScanOf, Protected, CurrentName, KeepsReady;
    var role, scan := req.roles[k], scans[k];
    assert ScanOf(scan, clients, role, req.expected, req.keep);
    var i := ReadyOneSpared(clients, role, req.expected, req.keep, scan, req.generated(role));
    assert Spared(scans, req, clients[i].name);
  }

  /** With one client per rotation the last ready client of a role is never deleted. */
  lemma {:induction false} LastReadySurvives(clients: seq<Client>, req: Request, scans: seq<Scan>, deleted: set<string>, k: nat)
    requires Scanned(scans, clients, req) && forall name :: name in deleted ==> !Spared(scans, req, name)
    requires k < |req.roles| && End(clients, req.roles[k]) == |clients| && UniqueRotations(clients, req.roles[k])
    requires Served(clients, req.roles[k], {})
    ensures Served(clients, req.roles[k], deleted)
  {
    hide Int16, End, Scanned, Spared, Served;
    var role := req.roles[k];
    if i :| 0 <= i < |clients| && Current(clients[i], role, req.expected) && clients[i].ready {
      assert LastCurrent(clients, i, role, req.expected);
    }
    ReadyKept(clients, req, scans, deleted, k);
  }

  ghost function Window(clients: seq<Client>, role: string, expected: int, keep: int): set<nat> {
    set i: nat | i < |clients| && InWindow(clients[i], role, expected, keep)
  }

  lemma {:induction false} WindowSize(clients: seq<Client>, role: string, expected: int, keep: nat)
    requires UniqueRotations(clients, role)
    ensures |Window(clients, role, expected, keep)| <= keep
  {
    hide Int16;
    if keep > 0 {
      var inner := Window(clients, role, expected, keep - 1);
      WindowSize(clients, role, expected, keep - 1);
      if i: nat :| i < |clients| && InWindow(clients[i], role, expected, keep) && i !in inner {
        assert Window(clients, role, expected, keep) == inner + {i};
      } else {
        assert Window(clients, role, expected, keep) == inner;
      }
    } else {
      assert Window(clients, role, expected, 0) == {};
    }
  }

  /** The clients labelled with the role that a pass leaves. */
  ghost function Left(clients: seq<Client>, role: string, deleted: set<string>): set<nat> {
    set i: nat | i < |clients| && clients[i].role == role && clients[i].name !in deleted
  }

  /** Names do not collide: not between clients, not with those to be created, and none of the role is in the specification. */
  ghost predicate Separate(clients: seq<Client>, req: Request, role: string) {
    && role != "" && UniqueNames(clients)
    && (forall i, r :: 0 <= i < |clients| && r in req.roles ==> clients[i].name != req.generated(r))
    && (forall i :: 0 <= i < |clients| && clients[i].role == role ==> clients[i].name !in req.specNames)
    && (forall r, s :: 0 <= r < s < |req.roles| ==> req.roles[r] != req.roles[s])
  }

  /** A role spares only clients with its own label, or with none. */
  lemma {:induction false} SparesOwn(clients: seq<Client>, role: string, expected: int, keep: int, scan: Scan, generated: string, i: nat)
    requires ScanOf(scan, clients, role, expected, keep) && UniqueNames(clients) && i < |clients|
    requires clients[i].name != generated
    requires clients[i].name in Protected(scan) || clients[i].name == CurrentName(scan, generated)
    ensures clients[i].role == role || clients[i].role == ""
  {
    hide Int16;
    var n := End(clients, role);
    if clients[i].name in scan.window {
      var j :| 0 <= j < n && InWindow(clients[..n][j], role, expected, keep) && clients[..n][j].name == clients[i].name;
      assert clients[..n][j] == clients[j];
    } else if clients[i].name in Protected(scan) {
      var j :| 0 <= j < n && clients[..n][j] == scan.last.value;
      assert clients[..n][j] == clients[j];
    } else if n == |clients| {
      var j :| 0 <= j < |clients| && LastCurrent(clients, j, role, expected) && clients[j].name == scan.current.value;
    }
  }

  lemma {:induction false} LeftIsKept(clients: seq<Client>, req: Request, scans: seq<Scan>, deleted: set<string>, k: nat, i: nat)
    requires Scanned(scans, clients, req)
    requires forall name :: name in deleted <==> (exists j :: 0 <= j < |clients| && clients[j].name == name) && !Spared(scans, req, name)
    requires k < |req.roles| && Separate(clients, req, req.roles[k]) && i in Left(clients, req.roles[k], deleted)
    ensures clients[i].name in Protected(scans[k]) || clients[i].name == CurrentName(scans[k], req.generated(req.roles[k]))
  {
    hide Int16, End, Protected, CurrentName;
    assert Spared(scans, req, clients[i].name);
    var r :| 0 <= r < |scans|
      && (clients[i].name in Protected(scans[r]) || clients[i].name == CurrentName(scans[r], req.generated(req.roles[r])));
    assert ScanOf(scans[r], clients, req.roles[r], req.expected, req.keep) && req.roles[r] in req.roles;
    SparesOwn(clients, req.roles[r], req.expected, req.keep, scans[r], req.generated(req.roles[r]), i);
  }

  /** A client is spared by its role for one of three reasons. */
  lemma {:induction false} SparedWhy(clients: seq<Client>, role: string, expected: int, keep: int, scan: Scan, generated: string, last: nat, current: nat, i: nat)
    requires ScanOf(scan, clients, role, expected, keep) && End(clients, role) == |clients| && UniqueNames(clients)
    requires scan.last.Some? ==> last < |clients| && clients[last] == scan.last.value
    requires scan.current.Some? ==> current < |clients| && clients[current].name == scan.current.value
    requires i < |clients| && clients[i].name != generated
    requires clients[i].name in Protected(scan) || clients[i].name == CurrentName(scan, generated)
    ensures i in Window(clients, role, expected, keep) || i == last || (scan.current.Some? && i == current)
  {
    hide End, InWindow, NamesCurrent;
    assert clients[..|clients|] == clients;
    if clients[i].name in scan.window {
      assert WindowName(clients, role, expected, keep, clients[i].name);
    }
  }

  /** A spared ready client shows that the role keeps one. */
  lemma {:induction false} SparedShows(clients: seq<Client>, role: string, expected: int, keep: int, scan: Scan, generated: string, i: nat)
    requires ScanOf(scan, clients, role, expected, keep) && End(clients, role) == |clients| && UniqueNames(clients)
    requires i < |clients| && clients[i].ready && clients[i].name != generated
    requires clients[i].name in Protected(scan) || clients[i].name == CurrentName(scan, generated)
    ensures KeepsReady(clients, role, expected, keep)
  {
    hide Int16, End, Own;
    assert clients[..|clients|] == clients;
    if c :| 0 <= c < |clients| && Current(clients[c], role, expected) && clients[c].ready {
      assert scan.currentReady;
      if clients[i].name in scan.window {
        assert WindowName(clients, role, expected, keep, clients[i].name);
      } else {
        var j :| 0 <= j < |clients| && LastCurrent(clients, j, role, expected) && clients[j].name == scan.current.value;
        assert i == j;
      }
    }
  }

  /**
   * A role that is served stays so exactly if no client of the expected rotation is ready, or the one
   * listed last is, or a retained one is.
   */
  lemma {:induction false} ReadySurvivesExactly(clients: seq<Client>, req: Request, scans: seq<Scan>, deleted: set<string>, k: nat)
    requires Scanned(scans, clients, req)
    requires forall name :: name in deleted <==> (exists j :: 0 <= j < |clients| && clients[j].name == name) && !Spared(scans, req, name)
    requires k < |req.roles| && End(clients, req.roles[k]) == |clients| && Separate(clients, req, req.roles[k])
    requires Served(clients, req.roles[k], {})
    ensures Served(clients, req.roles[k], deleted) <==> KeepsReady(clients, req.roles[k], req.expected, req.keep)
  {
    hide Int16, End, Protected, CurrentName, Spared, KeepsReady, Current, UniqueNames;
    var role := req.roles[k];
    if KeepsReady(clients, role, req.expected, req.keep) {
      ReadyKept(clients, req, scans, deleted, k);
    } else if Served(clients, role, deleted) {
      var i :| 0 <= i < |clients| && Own(clients[i], role) && clients[i].ready && clients[i].name !in deleted;
      assert i in Left(clients, role, deleted);
      LeftIsKept(clients, req, scans, deleted, k, i);
      assert role in req.roles && ScanOf(scans[k], clients, role, req.expected, req.keep);
      SparedShows(clients, role, req.expected, req.keep, scans[k], req.generated(role), i);
    }
  }

  /** The client has the rotation label `n` of the role. */
  predicate Labelled(c: Client, role: string, n: int) {
    c.role == role && c.rotation.Rotated? && Int16(c.rotation.n) == n && n >= 0
  }

  /**
   * Why a client of a role is kept: it is one of the `keep` rotations before the expected one, or it is listed last with
   * the expected one, or no client with the expected one is ready and it is the first of the newest ready others.
   */
  ghost predicate KeptFor(clients: seq<Client>, role: string, expected: int, keep: int, i: nat)
    requires i < |clients|
  {
    var c := clients[i];
    var n := if c.rotation.Rotated? then Int16(c.rotation.n) else -1;
    Labelled(c, role, n) && (
      || expected - keep <= n < expected
      || (n == expected && forall j :: i < j < |clients| ==> !Labelled(clients[j], role, expected))
      || (&& n != expected && c.ready
          && (forall j :: 0 <= j < |clients| && Labelled(clients[j], role, expected) ==> !clients[j].ready)
          && (forall j :: 0 <= j < |clients| && Own(clients[j], role) && RotationOf(clients[j]) != expected && clients[j].ready ==>
                RotationOf(clients[j]) < n || (RotationOf(clients[j]) == n && i <= j))))
  }

  lemma {:induction false} LabelledIs(c: Client, role: string, n: int)
    ensures Labelled(c, role, n) <==> Own(c, role) && RotationOf(c) == n
  {
    hide Int16;
  }

  lemma {:induction false} SparedWhyExactly(clients: seq<Client>, role: string, expected: int, keep: int, scan: Scan, generated: string, i: nat)
    requires ScanOf(scan, clients, role, expected, keep) && End(clients, role) == |clients| && UniqueNames(clients)
    requires i < |clients| && clients[i].name != generated && clients[i].role == role
    ensures (clients[i].name in Protected(scan) || clients[i].name == CurrentName(scan, generated)) <==> KeptFor(clients, role, expected, keep, i)
  {
    hide Int16, End;
    assert clients[..|clients|] == clients;
    forall j, n | 0 <= j < |clients| ensures Labelled(clients[j], role, n) <==> Own(clients[j], role) && RotationOf(clients[j]) == n {
      LabelledIs(clients[j], role, n);
    }
    var name := clients[i].name;
    assert name in scan.window <==> InWindow(clients[i], role, expected, keep) by {
      if name in scan.window { assert WindowName(clients, role, expected, keep, name); }
      if InWindow(clients[i], role, expected, keep) { assert WindowName(clients, role, expected, keep, name); }
    }
    assert name == CurrentName(scan, generated) <==> LastCurrent(clients, i, role, expected) by {
      CurrentIs(clients, role, expected, scan.current, generated, i);
    }
    assert scan.last.Some? && name == scan.last.value.name <==> FirstNewest(clients, i, role, expected) by {
      NewestIs(clients, role, expected, keep, scan, i);
    }
  }

  lemma {:induction false} CurrentIs(clients: seq<Client>, role: string, expected: int, current: Option<string>, generated: string, i: nat)
    requires NamesCurrent(current, clients, role, expected) && UniqueNames(clients) && i < |clients| && clients[i].name != generated
    ensures clients[i].name == (if current.Some? then current.value else generated) <==> LastCurrent(clients, i, role, expected)
  {
    hide Current;
    if current.Some? {
      var j :| 0 <= j < |clients| && LastCurrent(clients, j, role, expected) && clients[j].name == current.value;
    }
  }

  lemma {:induction false} NewestIs(clients: seq<Client>, role: string, expected: int, keep: int, scan: Scan, i: nat)
    requires Describes(scan, clients, role, expected, keep) && UniqueNames(clients) && i < |clients|
    ensures scan.last.Some? && clients[i].name == scan.last.value.name <==> FirstNewest(clients, i, role, expected)
  {
    hide Int16, Own, WindowName;
    if scan.last.Some? {
      var j :| 0 <= j < |clients| && clients[j] == scan.last.value && FirstNewest(clients, j, role, expected);
    }
  }

  /** A client with the label of the role survives a pass exactly for one of three reasons. */
  lemma {:induction false} KeptExactly(clients: seq<Client>, req: Request, scans: seq<Scan>, deleted: set<string>, k: nat, i: nat)
    requires Scanned(scans, clients, req)
    requires forall name :: name in deleted <==> (exists j :: 0 <= j < |clients| && clients[j].name == name) && !Spared(scans, req, name)
    requires k < |req.roles| && End(clients, req.roles[k]) == |clients| && Separate(clients, req, req.roles[k])
    requires i < |clients| && clients[i].role == req.roles[k]
    ensures clients[i].name !in deleted <==> KeptFor(clients, req.roles[k], req.expected, req.keep, i)
  {
    hide Int16, End, Protected, CurrentName, KeptFor, UniqueNames;
    var role := req.roles[k];
    assert role in req.roles && ScanOf(scans[k], clients, role, req.expected, req.keep);
    SparedWhyExactly(clients, role, req.expected, req.keep, scans[k], req.generated(role), i);
    if clients[i].name !in deleted {
      assert i in Left(clients, role, deleted);
      LeftIsKept(clients, req, scans, deleted, k, i);
    } else {
      assert !Spared(scans, req, clients[i].name);
    }
  }

  /** Where the clients left by a pass come from: the window, the last ready one, the current one. */
  lemma {:induction false} LeftWithin(clients: seq<Client>, role: string, expected: int, keep: int, scan: Scan, generated: string, left: set<nat>)
    returns (last: nat, current: nat)
    requires ScanOf(scan, clients, role, expected, keep) && End(clients, role) == |clients| && UniqueNames(clients)
    requires forall i | i in left ::
      i < |clients| && clients[i].name != generated && (clients[i].name in Protected(scan) || clients[i].name == CurrentName(scan, generated))
    ensures left <= Window(clients, role, expected, keep) + {last} + (if scan.current.Some? then {current} else {})
  {
    last, current := Positions(clients, role, expected, keep, scan);
    hide End, Window, Protected, CurrentName, ScanOf, UniqueNames;
    forall i | i in left
      ensures i in Window(clients, role, expected, keep) + {last} + (if scan.current.Some? then {current} else {})
    {
      SparedWhy(clients, role, expected, keep, scan, generated, last, current, i);
    }
  }

  lemma {:induction false} Positions(clients: seq<Client>, role: string, expected: int, keep: int, scan: Scan) returns (last: nat, current: nat)
    requires ScanOf(scan, clients, role, expected, keep) && End(clients, role) == |clients|
    ensures scan.last.Some? ==> last < |clients| && clients[last] == scan.last.value
    ensures scan.current.Some? ==> current < |clients| && clients[current].name == scan.current.value
  {
    hide End, LastCurrent, WindowName;
    assert clients[..|clients|] == clients;
    last, current := 0, 0;
    if scan.last.Some? { last :| last < |clients| && clients[last] == scan.last.value; }
    if scan.current.Some? {
      current :| current < |clients| && LastCurrent(clients, current, role, expected) && clients[current].name == scan.current.value;
    }
  }

  /** After a pass a role has at most the retained rotations and two more, a client to be created included. */
  lemma {:induction false} FewClientsLeft(clients: seq<Client>, req: Request, scans: seq<Scan>, deleted: set<string>, k: nat)
    requires Scanned(scans, clients, req) && req.keep >= 0
    requires forall name :: name in deleted <==> (exists j :: 0 <= j < |clients| && clients[j].name == name) && !Spared(scans, req, name)
    requires k < |req.roles| && End(clients, req.roles[k]) == |clients| && UniqueRotations(clients, req.roles[k])
    requires Separate(clients, req, req.roles[k])
    ensures |Left(clients, req.roles[k], deleted)| + (if scans[k].current.None? then 1 else 0) <= req.keep + 2
  {
    hide Int16, End, Protected, CurrentName, UniqueNames, UniqueRotations, Spared, Left;
    var role := req.roles[k];
    var left := Left(clients, role, deleted);
    forall i | i in left
      ensures i < |clients| && (clients[i].name in Protected(scans[k]) || clients[i].name == CurrentName(scans[k], req.generated(role)))
    {
      LeftInRange(clients, role, deleted, i);
      LeftIsKept(clients, req, scans, deleted, k, i);
    }
    var last, current := LeftWithin(clients, role, req.expected, req.keep, scans[k], req.generated(role), left);
    var window := Window(clients, role, req.expected, req.keep);
    WindowSize(clients, role, req.expected, req.keep);
    Smaller(left, window + {last} + (if scans[k].current.Some? then {current} else {}));
  }

  lemma {:induction false} LeftInRange(clients: seq<Client>, role: string, deleted: set<string>, i: nat)
    requires i in Left(clients, role, deleted)
    ensures i < |clients|
  {
  }

  lemma {:induction false} Smaller(a: set<nat>, b: set<nat>)
    requires a <= b
    ensures |a| <= |b|
  {
    assert b == a + (b - a);
  }

  lemma {:induction false} TwinsScanned(a: Client, b: Client)
    requires a.role == b.role == "nova" && a.rotation == b.rotation == Rotated(1) && a.ready
    ensures ScanOf(Scan(Some(b.name), true, {}, None), [a, b], "nova", 1, 1)
    ensures Own(a, "nova")
  {
    var clients := [a, b];
    assert End(clients, "nova") == 2 by { assert clients[1..] == [b] && [b][1..] == []; }
    assert clients[..2] == clients;
    assert Current(clients[0], "nova", 1) && Current(clients[1], "nova", 1);
    assert LastCurrent(clients, 1, "nova", 1);
  }

  /** Two clients of the expected rotation, only the first ready: the pass spares the second and deletes the role's only ready client. */
  lemma {:induction false} TwinsLoseTheReadyOne()
    ensures exists clients: seq<Client>, req: Request, scans: seq<Scan> ::
      && Scanned(scans, clients, req) && |req.roles| == 1 && Separate(clients, req, req.roles[0])
      && Served(clients, req.roles[0], {})
      && forall deleted: set<string> ::
           (forall j :: 0 <= j < |clients| && !Spared(scans, req, clients[j].name) ==> clients[j].name in deleted)
           ==> !Served(clients, req.roles[0], deleted)
  {
    var a := Client("nova-a", "a", "nova", Rotated(1), true);
    var b := Client("nova-b", "b", "nova", Rotated(1), false);
    var clients := [a, b];
    var req := Request({}, ["nova"], 1, 1, (r: string) => "new");
    var scans := [Scan(Some("nova-b"), true, {}, None)];
    TwinsScanned(a, b);
    hide ScanOf, Int16, End;
    assert Scanned(scans, clients, req);
    assert "nova-a"[5] != "nova-b"[5] && |"new"| != |"nova-a"|;
    assert Separate(clients, req, "nova");
    assert Own(clients[0], "nova") && Served(clients, "nova", {});
    assert !Spared(scans, req, "nova-a");
  }
}
