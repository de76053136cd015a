/** The device-tree inventory of a kernel bundle: routes are not shared, and the boot
    platforms it advertises. */
module KernelInventory {
  import opened KernelEvidence

  datatype Delivery = Embedded | ExternalRequired | Unsupported

  predicate StableIdentifier(s: string) {
    0 < |s| <= 128 && ('a' <= s[0] <= 'z' || '0' <= s[0] <= '9')
    && forall i :: 0 < i < |s| ==> 'a' <= s[i] <= 'z' || '0' <= s[i] <= '9' || s[i] in "._-"
  }

  function Components(path: string): (parts: seq<string>)
    ensures |parts| > 0
  {
    if path == [] then [""]
    else
      var before := Components(path[..|path| - 1]);
      var c := path[|path| - 1];
      if c == '/' then before + [""] else before[..|before| - 1] + [before[|before| - 1] + [c]]
  }

  /** A clean relative path below a fixed prefix. */
  predicate CleanBelow(path: string, prefix: string) {
    prefix <= path && '\\' !in path &&
    forall part :: part in Components(path) ==> part != "" && part != "." && part != ".."
  }

  predicate EndsWith(s: string, suffix: string) {
    |suffix| <= |s| && s[|s| - |suffix|..] == suffix
  }

  predicate SelectorLess(a: Selector, b: Selector) {
    if a.kind == b.kind then Less(a.value, b.value) else a.kind.CompatibleRoute?
  }

  predicate SelectorsOK(t: DeviceTree) {
    && 0 < |t.selectors| <= MAXIMUM_SELECTORS
    && (forall i :: 0 <= i < |t.selectors| ==> ValidSelectorValue(t.selectors[i].value))
    && (forall i ::
          0 <= i < |t.selectors| && t.selectors[i].kind.CompatibleRoute? ==> t.selectors[i].value in t.compatibles)
    && (forall i :: 0 < i < |t.selectors| ==> SelectorLess(t.selectors[i - 1], t.selectors[i]))
  }

  /** What one device tree must be, apart from the others. */
  predicate TreeOK(abi: string, delivery: Delivery, t: DeviceTree) {
    && StableIdentifier(t.device) && CleanBelow(t.path, "usr/lib/firmware/" + abi + "/device-tree/")
    && t.basename != "" && Components(t.path)[|Components(t.path)| - 1] == t.basename && EndsWith(t.basename, ".dtb")
    && ValidSHA256(t.sha256)
    && 0 < |t.compatibles| <= 64 && (forall i :: 0 <= i < |t.compatibles| ==> ValidCompatible(t.compatibles[i]))
    && (forall i, j :: 0 <= i < j < |t.compatibles| ==> t.compatibles[i] != t.compatibles[j])
    && SelectorsOK(t) && 0 <= t.matches <= 1
    && (t.required && delivery.Embedded? ==> t.matches == 1) && (delivery.ExternalRequired? ==> t.matches == 0)
  }

  /** Two device trees share a route only in an ordered inventory, as optional ones. */
  ghost predicate RoutesDisjoint(trees: seq<DeviceTree>, ordered: bool) {
    forall i, j, s :: 0 <= i < j < |trees| && s in trees[i].selectors && s in trees[j].selectors ==>
      ordered && !trees[i].required && !trees[j].required
  }

  ghost predicate DistinctPaths(trees: seq<DeviceTree>) {
    forall i, j :: 0 <= i < j < |trees| ==> trees[i].path != trees[j].path
  }

  function Matches(trees: seq<DeviceTree>): int {
    if trees == [] then 0 else Matches(trees[..|trees| - 1]) + trees[|trees| - 1].matches
  }

  function Required(trees: seq<DeviceTree>): nat {
    if trees == [] then 0 else Required(trees[..|trees| - 1]) + (if trees[|trees| - 1].required then 1 else 0)
  }

  lemma {:induction false} RequiredCounts(trees: seq<DeviceTree>)
    ensures Required(trees) != 0 <==> exists i :: 0 <= i < |trees| && trees[i].required
  {
    if trees != [] {
      var less := trees[..|trees| - 1];
      RequiredCounts(less);
      if i :| 0 <= i < |less| && less[i].required { assert trees[i].required; }
      if i :| 0 <= i < |trees| && trees[i].required && i < |less| { assert less[i].required; }
    }
  }

  ghost predicate InventoryOK(abi: string, delivery: Delivery, count: int, trees: seq<DeviceTree>, ordered: bool) {
    && 0 < |trees| <= MAXIMUM_TREES
    && (forall i :: 0 <= i < |trees| ==> TreeOK(abi, delivery, trees[i]))
    && DistinctDevices(trees) && DistinctPaths(trees) && RoutesDisjoint(trees, ordered)
    && (delivery.Embedded? ==> Matches(trees) != 0) && (exists i :: 0 <= i < |trees| && trees[i].required)
    && count == Matches(trees) && (delivery.ExternalRequired? ==> count == 0)
  }

  /** Whether each device is required; a later tree replaces an earlier one. */
  method RequiredOwners(trees: seq<DeviceTree>) returns (required: map<string, bool>)
    ensures forall i :: 0 <= i < |trees| ==> trees[i].device in required
    ensures DistinctDevices(trees) ==> forall i :: 0 <= i < |trees| ==> required[trees[i].device] == trees[i].required
  {
    required := map[];
    var i := 0;
    while i < |trees|
      invariant i <= |trees| && forall j :: 0 <= j < i ==> trees[j].device in required
      invariant DistinctDevices(trees) ==> forall j :: 0 <= j < i ==> required[trees[j].device] == trees[j].required
    {
      required := required[trees[i].device := trees[i].required];
      i := i + 1;
    }
  }

  /** Who declared a route last, among the first trees. */
  ghost predicate LastOwner(trees: seq<DeviceTree>, n: nat, s: Selector, i: nat)
    requires n <= |trees|
  {
    i < n && s in trees[i].selectors && forall j :: i < j < n ==> s !in trees[j].selectors
  }

  ghost predicate OwnedBy(trees: seq<DeviceTree>, n: nat, s: Selector, device: string)
    requires n <= |trees|
  {
    exists i: nat :: LastOwner(trees, n, s, i) && trees[i].device == device
  }

  ghost predicate OwnersKnown(trees: seq<DeviceTree>, n: nat, routes: map<Selector, string>)
    requires n <= |trees|
  {
    && (forall s :: s in routes ==> OwnedBy(trees, n, s, routes[s]))
    && (forall i, s :: 0 <= i < n && s in trees[i].selectors ==> s in routes)
  }

  /** No route of a tree is taken by a latest owner it must not share with. */
  predicate RoutesFree(t: DeviceTree, selectors: seq<Selector>, ordered: bool, required: map<string, bool>,
          routes: map<Selector, string>) {
    forall s ::
      s in selectors && s in routes ==> ordered && !t.required && routes[s] in required && !required[routes[s]]
  }

  lemma OwnersRequired(trees: seq<DeviceTree>, n: nat, routes: map<Selector, string>, required: map<string, bool>,
          s: Selector)
    requires n <= |trees| && OwnersKnown(trees, n, routes) && s in routes
    requires forall i :: 0 <= i < |trees| ==> trees[i].device in required
    ensures routes[s] in required
  {
    assert OwnedBy(trees, n, s, routes[s]);
  }

  /** Enters the routes of one tree.  Only the latest owner of a route is kept. */
  method EnterRoutes(trees: seq<DeviceTree>, n: nat, ordered: bool, required: map<string, bool>, routes: map<Selector,
          string>)
      returns (ok: bool, more: map<Selector, string>)
    requires n < |trees| && OwnersKnown(trees, n, routes) && SelectorsOK(trees[n])
    requires forall i :: 0 <= i < |trees| ==> trees[i].device in required
    ensures ok ==> OwnersKnown(trees, n + 1, more)
    ensures ok <==> RoutesFree(trees[n], trees[n].selectors, ordered, required, routes)
  {
    hide OwnersKnown, SelectorsOK, OwnedBy;
    more := routes;
    var t := trees[n];
    var k := 0;
    while k < |t.selectors|
      invariant k <= |t.selectors|
      invariant forall s :: s in more <==> s in routes || s in t.selectors[..k]
      invariant forall s :: s in more ==> more[s] == if s in t.selectors[..k] then t.device else routes[s]
      invariant RoutesFree(t, t.selectors[..k], ordered, required, routes)
    {
      var s := t.selectors[k];
      SelectorsDistinct(t, k);
      assert s in t.selectors;
      if s in more {
        OwnersRequired(trees, n, routes, required, s);
        if !ordered || t.required || required[more[s]] { return false, more; }
      }
      assert t.selectors[..k + 1] == t.selectors[..k] + [s];
      more := more[s := t.device];
      k := k + 1;
    }
    assert t.selectors[..k] == t.selectors;
    ok := true;
    OwnersEntered(trees, n, routes, more);
  }

  lemma OwnersEntered(trees: seq<DeviceTree>, n: nat, routes: map<Selector, string>, more: map<Selector, string>)
    requires n < |trees| && OwnersKnown(trees, n, routes)
    requires forall s :: s in more <==> s in routes || s in trees[n].selectors
    requires forall s :: s in more ==> more[s] == if s in trees[n].selectors then trees[n].device else routes[s]
    ensures OwnersKnown(trees, n + 1, more)
  {
    forall s | s in more ensures OwnedBy(trees, n + 1, s, more[s]) {
      if s in trees[n].selectors {
        assert LastOwner(trees, n + 1, s, n);
      } else {
        assert OwnedBy(trees, n, s, routes[s]);
        var i: nat :| LastOwner(trees, n, s, i) && trees[i].device == routes[s];
        assert LastOwner(trees, n + 1, s, i);
      }
    }
  }

  lemma LessIrreflexive(a: string)
    ensures !Less(a, a)
  {
  }

  lemma {:induction false} LessTransitive(a: string, b: string, c: string)
    requires Less(a, b) && Less(b, c)
    ensures Less(a, c)
  {
    if a != [] && a[0] == b[0] && b[0] == c[0] { LessTransitive(a[1..], b[1..], c[1..]); }
  }

  lemma {:induction false} SelectorsAscend(t: DeviceTree, i: nat, k: nat)
    requires SelectorsOK(t) && i < k < |t.selectors|
    ensures SelectorLess(t.selectors[i], t.selectors[k])
    decreases k - i
  {
    if i < k - 1 {
      SelectorsAscend(t, i, k - 1);
      if t.selectors[i].kind == t.selectors[k - 1].kind == t.selectors[k].kind {
        LessTransitive(t.selectors[i].value, t.selectors[k - 1].value, t.selectors[k].value);
      }
    }
  }

  lemma SelectorsDistinct(t: DeviceTree, k: nat)
    requires SelectorsOK(t) && k < |t.selectors|
    ensures t.selectors[k] !in t.selectors[..k]
  {
    forall i | 0 <= i < k ensures t.selectors[i] != t.selectors[k] {
      SelectorsAscend(t, i, k);
      LessIrreflexive(t.selectors[k].value);
    }
  }

  /** Comparing with the latest owner of each route is enough. */
  lemma LatestOwnerSuffices(trees: seq<DeviceTree>, n: nat, ordered: bool, required: map<string, bool>,
          routes: map<Selector, string>)
    requires n < |trees| && OwnersKnown(trees, n, routes) && RoutesDisjoint(trees[..n], ordered)
    requires forall i ::
               0 <= i < |trees| ==> trees[i].device in required && required[trees[i].device] == trees[i].required
    ensures RoutesFree(trees[n], trees[n].selectors, ordered, required, routes) <==>
              RoutesDisjoint(trees[..n + 1], ordered)
  {
    var more, less := trees[..n + 1], trees[..n];
    if RoutesFree(trees[n], trees[n].selectors, ordered, required, routes) {
      forall i, j, s | 0 <= i < j < |more| && s in more[i].selectors && s in more[j].selectors
        ensures ordered && !more[i].required && !more[j].required
      {
        if j < n {
          assert less[i] == more[i] && less[j] == more[j];
        } else {
          assert OwnedBy(trees, n, s, routes[s]);
          var o: nat :| LastOwner(trees, n, s, o) && trees[o].device == routes[s];
          if i < o { assert less[i] == more[i] && less[o] == more[o]; }
        }
      }
    }
    if RoutesDisjoint(more, ordered) {
      forall s | s in trees[n].selectors && s in routes
        ensures ordered && !trees[n].required && routes[s] in required && !required[routes[s]]
      {
        assert OwnedBy(trees, n, s, routes[s]);
        var o: nat :| LastOwner(trees, n, s, o) && trees[o].device == routes[s];
        assert more[o] == trees[o] && more[n] == trees[n];
      }
    }
  }

  lemma RoutesOfPrefix(trees: seq<DeviceTree>, n: nat, ordered: bool)
    requires n <= |trees| && RoutesDisjoint(trees, ordered)
    ensures RoutesDisjoint(trees[..n], ordered)
  {
    var less := trees[..n];
    forall i, j, s | 0 <= i < j < n && s in less[i].selectors && s in less[j].selectors
      ensures ordered && !less[i].required && !less[j].required
    {
      assert less[i] == trees[i] && less[j] == trees[j];
    }
  }

  /** Checks one tree by itself, and its routes against those of the trees before. */
  method AdmitTree(abi: string, delivery: Delivery, trees: seq<DeviceTree>, n: nat, ordered: bool,
          required: map<string, bool>, routes: map<Selector, string>)
      returns (ok: bool, more: map<Selector, string>)
    requires n < |trees| && OwnersKnown(trees, n, routes)
    requires DistinctDevices(trees) ==> RoutesDisjoint(trees[..n], ordered)
    requires forall i :: 0 <= i < |trees| ==> trees[i].device in required
    requires DistinctDevices(trees) ==> forall i :: 0 <= i < |trees| ==> required[trees[i].device] == trees[i].required
    ensures ok ==>
              TreeOK(abi, delivery, trees[n]) && OwnersKnown(trees, n + 1, more) &&
              (DistinctDevices(trees) ==> RoutesDisjoint(trees[..n + 1], ordered))
    ensures !ok ==> !(TreeOK(abi, delivery, trees[n]) && DistinctDevices(trees) && RoutesDisjoint(trees, ordered))
  {
    hide TreeOK, RoutesDisjoint, OwnersKnown, RoutesFree, SelectorsOK, DistinctDevices;
    more := routes;
    ok := TreeOK(abi, delivery, trees[n]);
    if !ok { return; }
    TreeSelectors(abi, delivery, trees[n]);
    if DistinctDevices(trees) { LatestOwnerSuffices(trees, n, ordered, required, routes); }
    if RoutesDisjoint(trees, ordered) { RoutesOfPrefix(trees, n + 1, ordered); }
    ok, more := EnterRoutes(trees, n, ordered, required, routes);
  }

  ghost predicate NamesDiffer(trees: seq<DeviceTree>, n: nat) {
    n <= |trees| &&
    forall i, j :: 0 <= i < j < n ==> trees[i].device != trees[j].device && trees[i].path != trees[j].path
  }

  function Devices(trees: seq<DeviceTree>): set<string> {
    set t | t in trees :: t.device
  }

  function Paths(trees: seq<DeviceTree>): set<string> {
    set t | t in trees :: t.path
  }

  lemma NoNames(trees: seq<DeviceTree>)
    ensures NamesDiffer(trees, 0) && Devices([]) == {} && Paths([]) == {}
  {
  }

  lemma NamesOfMore(trees: seq<DeviceTree>, t: DeviceTree)
    ensures Devices(trees + [t]) == Devices(trees) + {t.device} && Paths(trees + [t]) == Paths(trees) + {t.path}
  {
    assert forall x :: x in trees + [t] <==> x in trees || x == t;
  }

  lemma NamedBefore(trees: seq<DeviceTree>, n: nat, j: nat)
    requires j < n <= |trees|
    ensures trees[j].device in Devices(trees[..n]) && trees[j].path in Paths(trees[..n])
  {
    assert trees[..n][j] in trees[..n];
  }

  lemma WhoseDevice(trees: seq<DeviceTree>, n: nat, device: string) returns (j: nat)
    requires n <= |trees| && device in Devices(trees[..n])
    ensures j < n && trees[j].device == device
  {
    var t :| t in trees[..n] && t.device == device;
    j :| 0 <= j < n && trees[..n][j] == t;
  }

  lemma WhosePath(trees: seq<DeviceTree>, n: nat, path: string) returns (j: nat)
    requires n <= |trees| && path in Paths(trees[..n])
    ensures j < n && trees[j].path == path
  {
    var t :| t in trees[..n] && t.path == path;
    j :| 0 <= j < n && trees[..n][j] == t;
  }

  lemma NextName(trees: seq<DeviceTree>, n: nat)
    requires n < |trees| && NamesDiffer(trees, n)
    ensures trees[n].device in Devices(trees[..n]) ==> !DistinctDevices(trees)
    ensures trees[n].path in Paths(trees[..n]) ==> !DistinctPaths(trees)
    ensures trees[n].device !in Devices(trees[..n]) && trees[n].path !in Paths(trees[..n]) ==> NamesDiffer(trees, n + 1)
    ensures Devices(trees[..n + 1]) == Devices(trees[..n]) + {trees[n].device}
    ensures Paths(trees[..n + 1]) == Paths(trees[..n]) + {trees[n].path}
  {
    hide Devices, Paths;
    assert trees[..n + 1] == trees[..n] + [trees[n]];
    NamesOfMore(trees[..n], trees[n]);
    if trees[n].device in Devices(trees[..n]) { var j := WhoseDevice(trees, n, trees[n].device); }
    if trees[n].path in Paths(trees[..n]) { var j := WhosePath(trees, n, trees[n].path); }
    forall j | 0 <= j < n ensures trees[j].device in Devices(trees[..n]) && trees[j].path in Paths(trees[..n]) {
      NamedBefore(trees, n, j);
    }
  }

  lemma AllNamed(trees: seq<DeviceTree>)
    requires NamesDiffer(trees, |trees|)
    ensures DistinctDevices(trees) && DistinctPaths(trees)
  {
  }

  lemma CountNext(trees: seq<DeviceTree>, n: nat)
    requires n < |trees|
    ensures Matches(trees[..n + 1]) == Matches(trees[..n]) + trees[n].matches
    ensures Required(trees[..n + 1]) == Required(trees[..n]) + (if trees[n].required then 1 else 0)
  {
    assert trees[..n + 1][..n] == trees[..n];
  }

  lemma CountNone()
    ensures Matches([]) == 0 && Required([]) == 0
  {
  }

  /** validateDeviceTreeInventory, as accept or reject. */
  method ValidateInventory(abi: string, delivery: Delivery, count: int, trees: seq<DeviceTree>, ordered: bool)
        returns (ok: bool)
    ensures ok <==> InventoryOK(abi, delivery, count, trees, ordered)
  {
    hide TreeOK, RoutesDisjoint, OwnersKnown, RoutesFree, SelectorsOK, Devices, Paths, NamesDiffer, DistinctDevices,
      DistinctPaths, Matches, Required;
    if trees == [] || |trees| > MAXIMUM_TREES { return false; }
    var required := RequiredOwners(trees);
    var devices: set<string>, paths: set<string> := {}, {};
    var routes: map<Selector, string> := map[];
    var embedded, needed, n := 0, 0, 0;
    NoOwners(trees, ordered);
    NoNames(trees);
    CountNone();
    assert trees[..0] == [];
    while n < |trees|
      invariant n <= |trees| && forall j :: 0 <= j < n ==> TreeOK(abi, delivery, trees[j])
      invariant NamesDiffer(trees, n) && devices == Devices(trees[..n]) && paths == Paths(trees[..n])
      invariant OwnersKnown(trees, n, routes) && (DistinctDevices(trees) ==> RoutesDisjoint(trees[..n], ordered))
      invariant embedded == Matches(trees[..n]) && needed == Required(trees[..n])
    {
      var t := trees[n];
      NextName(trees, n);
      if t.device in devices || t.path in paths { return false; }
      var admitted, more := AdmitTree(abi, delivery, trees, n, ordered, required, routes);
      if !admitted { return false; }
      routes := more;
      devices, paths := devices + {t.device}, paths + {t.path};
      if t.required { needed := needed + 1; }
      CountNext(trees, n);
      embedded := embedded + t.matches;
      n := n + 1;
    }
    assert trees[..n] == trees;
    AllNamed(trees);
    RequiredCounts(trees);
    ok := (delivery.Embedded? ==> embedded != 0) && needed != 0 && count == embedded &&
          (delivery.ExternalRequired? ==> count == 0);
  }

  lemma NoOwners(trees: seq<DeviceTree>, ordered: bool)
    ensures OwnersKnown(trees, 0, map[]) && RoutesDisjoint(trees[..0], ordered)
  {
  }

  lemma TreeSelectors(abi: string, delivery: Delivery, t: DeviceTree)
    requires TreeOK(abi, delivery, t)
    ensures SelectorsOK(t)
  {
  }

  /** Whether the declared boot contract selects a device. */
  predicate Selected(orderedSchema: bool, delivery: Delivery, t: DeviceTree) {
    && (orderedSchema ==> t.required)
    && ((delivery.Embedded? && t.matches == 1 && t.selectors != []) || (delivery.ExternalRequired? && t.required))
  }

  /** The platforms a bundle advertises, in inventory order. */
  method BootPlatforms(orderedSchema: bool, delivery: Delivery, trees: seq<DeviceTree>) returns (platforms: seq<string>)
    ensures forall d ::
              d in platforms <==>
                exists i :: 0 <= i < |trees| && trees[i].device == d && Selected(orderedSchema, delivery, trees[i])
    ensures DistinctDevices(trees) ==> forall i, j :: 0 <= i < j < |platforms| ==> platforms[i] != platforms[j]
  {
    platforms := [];
    var n := 0;
    while n < |trees|
      invariant n <= |trees|
      invariant forall d ::
                  d in platforms <==>
                    exists i :: 0 <= i < n && trees[i].device == d && Selected(orderedSchema, delivery, trees[i])
      invariant DistinctDevices(trees) ==> forall i, j :: 0 <= i < j < |platforms| ==> platforms[i] != platforms[j]
    {
      if Selected(orderedSchema, delivery, trees[n]) {
        assert DistinctDevices(trees) ==> trees[n].device !in platforms;
        platforms := platforms + [trees[n].device];
      }
      n := n + 1;
    }
  }

  /** An accepted bundle advertises at least one platform, none twice, and every
      device that its profile requires. */
  method AcceptedPlatforms(abi: string, delivery: Delivery, count: int, trees: seq<DeviceTree>, ordered: bool)
        returns (platforms: seq<string>)
    requires InventoryOK(abi, delivery, count, trees, ordered) && !delivery.Unsupported?
    ensures platforms != [] && forall i, j :: 0 <= i < j < |platforms| ==> platforms[i] != platforms[j]
    ensures forall i :: 0 <= i < |trees| && trees[i].required ==> trees[i].device in platforms
  {
    platforms := BootPlatforms(ordered, delivery, trees);
    forall i | 0 <= i < |trees| && trees[i].required ensures trees[i].device in platforms {
      assert TreeOK(abi, delivery, trees[i]);
    }
  }
}
