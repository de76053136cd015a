/** The ordered Stubble inventory: payloads may overlap, but a required device tree
    is never shadowed by another one. */
module KernelStubble {
  import opened Wrappers
  import opened KernelEvidence

  predicate Primary(byDevice: map<string, DeviceTree>, device: string, compatible: string) {
    device in byDevice && byDevice[device].compatibles != [] && byDevice[device].compatibles[0] == compatible
  }

  /** The payload that the boot stub takes for a compatible: the first one, in image
      order, whose primary compatible it is. */
  function Choice(order: seq<string>, byDevice: map<string, DeviceTree>, compatible: string): Option<string> {
    if order == [] then None
    else
      var before := Choice(order[..|order| - 1], byDevice, compatible);
      var last := order[|order| - 1];
      if before.Some? then before
      else if Primary(byDevice, last, compatible) then Some(last)
      else None
  }

  /** The payload at this place is the first one with the compatible. */
  predicate FirstAt(order: seq<string>, byDevice: map<string, DeviceTree>, compatible: string, i: nat) {
    i < |order| && Primary(byDevice, order[i], compatible) &&
    forall j :: 0 <= j < i ==> !Primary(byDevice, order[j], compatible)
  }

  /** The choice is the first payload in image order with the compatible, if there is any. */
  lemma {:induction false} ChoiceIsFirst(order: seq<string>, byDevice: map<string, DeviceTree>, compatible: string)
    ensures forall d :: Choice(order, byDevice, compatible) == Some(d) <==>
              exists i: nat :: FirstAt(order, byDevice, compatible, i) && order[i] == d
    ensures Choice(order, byDevice, compatible).None? <==>
              forall i :: 0 <= i < |order| ==> !Primary(byDevice, order[i], compatible)
  {
    if order != [] {
      var n := |order| - 1;
      var less := order[..n];
      ChoiceIsFirst(less, byDevice, compatible);
      var before := Choice(less, byDevice, compatible);
      if before.Some? {
        var i: nat :| FirstAt(less, byDevice, compatible, i) && less[i] == before.value;
        assert FirstAt(order, byDevice, compatible, i);
      } else {
        assert forall i :: 0 <= i < n ==> less[i] == order[i];
        if Primary(byDevice, order[n], compatible) { assert FirstAt(order, byDevice, compatible, n); }
      }
      forall i: nat, k: nat | FirstAt(order, byDevice, compatible, i) &&
      FirstAt(order, byDevice, compatible, k) ensures i == k { }
    }
  }

  /** The encoded table maps a HWID to a compatible. */
  ghost predicate Encodes(records: seq<HWIDRecord>, hwid: string, compatible: string) {
    exists i :: 0 <= i < |records| && records[i] == HWIDRecord(hwid, compatible)
  }

  ghost predicate Expected(records: seq<SelectionRecord>, hwid: string) {
    exists i :: 0 <= i < |records| && hwid in records[i].hwids
  }

  ghost predicate InOrder(order: seq<string>, byDevice: map<string, DeviceTree>) {
    && (forall i :: 0 <= i < |order| ==> order[i] in byDevice)
    && (forall i, j :: 0 <= i < j < |order| ==> order[i] != order[j])
  }

  predicate TableRecordOK(r: HWIDRecord) {
    CanonicalUUID(r.hwid) && r.hwid != NIL_UUID && ValidCompatible(r.compatible)
  }

  /** The table holds exactly the attributed HWIDs of a tree; a required tree shares
      none of them with another compatible. */
  ghost predicate RoutesOK(e: Evidence, byDevice: map<string, DeviceTree>, table: seq<HWIDRecord>) {
    && (forall i :: 0 <= i < |e.records| ==> e.records[i].source == "hwids")
    && e.device in byDevice && byDevice[e.device].compatibles != []
    && var tree, primary := byDevice[e.device], byDevice[e.device].compatibles[0];
       && (forall h :: Encodes(table, h, primary) <==> Expected(e.records, h))
       && (tree.required ==> forall h, c :: Expected(e.records, h) && Encodes(table, h, c) ==> c == primary)
  }

  ghost predicate PayloadsOK(order: seq<string>, trees: seq<DeviceTree>) {
    && |order| == |trees| && 0 < |trees| <= MAXIMUM_TREES
    && (forall t :: t in trees ==> t.matches == 1 && t.compatibles != [])
    && InOrder(order, ByDevice(trees))
    && (forall t :: t in trees && t.required ==> Choice(order, ByDevice(trees), t.compatibles[0]) == Some(t.device))
  }

  ghost predicate OrderedOK(p: Provenance, trees: seq<DeviceTree>) {
    p.ordered.Some? ==>
      var s := p.ordered.value;
      && p.tool == "stubble" && p.machdb == "" && s.policy == ORDER_POLICY && ValidSHA256(s.imageSHA256)
      && ValidSHA256(s.tableSHA256)
      && PayloadsOK(s.payloadOrder, trees)
      && 0 < |s.records| <= MAXIMUM_HWID_RECORDS && (forall i :: 0 <= i < |s.records| ==> TableRecordOK(s.records[i]))
      && (forall i :: 0 <= i < |p.selections| ==> RoutesOK(p.selections[i], ByDevice(trees), s.records))
  }

  /** The first payload of every primary compatible, in image order. */
  method FirstCompatibles(order: seq<string>, byDevice: map<string, DeviceTree>)
        returns (ok: bool, first: map<string, string>)
    requires forall d :: d in byDevice ==> byDevice[d].compatibles != []
    ensures ok <==> InOrder(order, byDevice)
    ensures ok ==> forall c :: (if c in first then Some(first[c]) else None) == Choice(order, byDevice, c)
  {
    first := map[];
    var seen: set<string> := {};
    var i := 0;
    while i < |order|
      invariant i <= |order| && InOrder(order[..i], byDevice)
      invariant forall d :: d in seen <==> exists j :: 0 <= j < i && order[j] == d
      invariant forall c :: (if c in first then Some(first[c]) else None) == Choice(order[..i], byDevice, c)
    {
      var device := order[i];
      if device !in byDevice || device in seen { return false, first; }
      var compatible := byDevice[device].compatibles[0];
      assert order[..i + 1][..i] == order[..i] && order[..i + 1][i] == device;
      if compatible !in first { first := first[compatible := device]; }
      seen := seen + {device};
      i := i + 1;
    }
    assert order[..i] == order;
    ok := true;
  }

  method CheckPayloads(order: seq<string>, trees: seq<DeviceTree>) returns (ok: bool)
    ensures ok <==> PayloadsOK(order, trees)
  {
    if |order| != |trees| || trees == [] || |trees| > MAXIMUM_TREES { return false; }
    var i := 0;
    while i < |trees|
      invariant i <= |trees| && forall j :: 0 <= j < i ==> trees[j].matches == 1 && trees[j].compatibles != []
    {
      if trees[i].matches != 1 || trees[i].compatibles == [] {
        assert trees[i] in trees;
        return false;
      }
      i := i + 1;
    }
    var byDevice := IndexTrees(trees);
    forall d | d in byDevice ensures byDevice[d].compatibles != [] { ByDeviceFrom(trees, d); }
    var first;
    ok, first := FirstCompatibles(order, byDevice);
    if !ok { return; }
    i := 0;
    while i < |trees|
      invariant i <= |trees| &&
                forall j ::
                  0 <= j < i && trees[j].required ==>
                    Choice(order, byDevice, trees[j].compatibles[0]) == Some(trees[j].device)
    {
      var primary := trees[i].compatibles[0];
      assert (if primary in first then Some(first[primary]) else None) == Choice(order, byDevice, primary);
      if trees[i].required && (primary !in first || first[primary] != trees[i].device) {
        assert trees[i] in trees;
        return false;
      }
      i := i + 1;
    }
  }

  function Under(table: map<string, set<string>>, key: string): set<string> {
    if key in table then table[key] else {}
  }

  /** Reads the table into its two indexes. */
  method IndexTable(records: seq<HWIDRecord>)
        returns (ok: bool, observed: map<string, set<string>>, routes: map<string, set<string>>)
    ensures ok <==> forall i :: 0 <= i < |records| ==> TableRecordOK(records[i])
    ensures ok ==> forall h, c :: h in Under(observed, c) <==> Encodes(records, h, c)
    ensures ok ==> forall h, c :: c in Under(routes, h) <==> Encodes(records, h, c)
  {
    observed, routes := map[], map[];
    var i := 0;
    while i < |records|
      invariant i <= |records| && forall j :: 0 <= j < i ==> TableRecordOK(records[j])
      invariant forall h, c :: h in Under(observed, c) <==> Encodes(records[..i], h, c)
      invariant forall h, c :: c in Under(routes, h) <==> Encodes(records[..i], h, c)
    {
      var r := records[i];
      if !TableRecordOK(r) { return false, observed, routes; }
      EncodesMore(records, i);
      observed := observed[r.compatible := Under(observed, r.compatible) + {r.hwid}];
      routes := routes[r.hwid := Under(routes, r.hwid) + {r.compatible}];
      i := i + 1;
    }
    assert records[..i] == records;
    ok := true;
  }

  lemma EncodesMore(records: seq<HWIDRecord>, i: nat)
    requires i < |records|
    ensures forall h, c ::
              Encodes(records[..i + 1], h, c) <==> Encodes(records[..i], h, c) || records[i] == HWIDRecord(h, c)
  {
    var more, less := records[..i + 1], records[..i];
    assert more == less + [records[i]];
    forall h, c ensures Encodes(more, h, c) <==> Encodes(less, h, c) || records[i] == HWIDRecord(h, c) {
      if j :| 0 <= j < |less| && less[j] == HWIDRecord(h, c) { assert more[j] == HWIDRecord(h, c); }
      if records[i] == HWIDRecord(h, c) { assert more[i] == HWIDRecord(h, c); }
    }
  }

  /** Collects the attributed HWIDs of one device. */
  method ExpectedHWIDs(records: seq<SelectionRecord>) returns (ok: bool, expected: set<string>)
    ensures ok <==> forall i :: 0 <= i < |records| ==> records[i].source == "hwids"
    ensures ok ==> forall h :: h in expected <==> Expected(records, h)
  {
    expected := {};
    var i := 0;
    while i < |records|
      invariant i <= |records| && forall j :: 0 <= j < i ==> records[j].source == "hwids"
      invariant forall h :: h in expected <==> exists j :: 0 <= j < i && h in records[j].hwids
    {
      if records[i].source != "hwids" { return false, expected; }
      expected := expected + (set h | h in records[i].hwids);
      i := i + 1;
    }
    ok := true;
  }

  /** Compares the table with the evidence of one device. */
  method CheckRoutes(e: Evidence, byDevice: map<string, DeviceTree>, ghost table: seq<HWIDRecord>,
          observed: map<string, set<string>>, routes: map<string, set<string>>)
      returns (ok: bool)
    requires forall h, c :: h in Under(observed, c) <==> Encodes(table, h, c)
    requires forall h, c :: c in Under(routes, h) <==> Encodes(table, h, c)
    ensures ok <==> RoutesOK(e, byDevice, table)
  {
    hide Encodes, Expected;
    var expected;
    ok, expected := ExpectedHWIDs(e.records);
    if !ok { return; }
    ok := e.device in byDevice && byDevice[e.device].compatibles != [];
    if !ok { return; }
    var tree := byDevice[e.device];
    var primary := tree.compatibles[0];
    var actual := Under(observed, primary);
    if |expected| != |actual| {
      DifferentSizes(expected, actual);
      return false;
    }
    var rest := expected;
    while rest != {}
      invariant rest <= expected && forall h :: h in expected - rest ==> h in actual
      invariant tree.required ==> forall h, c :: h in expected - rest && c in Under(routes, h) ==> c == primary
      decreases |rest|
    {
      var h :| h in rest;
      if h !in actual { return false; }
      assert primary in Under(routes, h);
      if tree.required && (|Under(routes, h)| != 1 || primary !in Under(routes, h)) {
        SeveralRoutes(Under(routes, h), primary);
        return false;
      }
      OnlyRoute(Under(routes, h), primary);
      rest := rest - {h};
    }
    SubsetOfSameSize(expected, actual);
    ok := true;
  }

  lemma DifferentSizes(a: set<string>, b: set<string>)
    requires |a| != |b|
    ensures exists h :: (h in a) != (h in b)
  {
    assert a != b;
  }

  lemma SeveralRoutes(s: set<string>, c: string)
    requires c in s && |s| != 1
    ensures exists d :: d in s && d != c
  {
    assert |s - {c}| > 0;
    var d :| d in s - {c};
  }

  lemma OnlyRoute(s: set<string>, c: string)
    requires c in s
    ensures |s| == 1 ==> forall d :: d in s ==> d == c
  {
    if |s| == 1 { assert |s - {c}| == 0; }
    assert forall d :: d in s && d != c ==> d in s - {c};
  }

  /** validateStubbleSelection, as accept or reject. */
  method ValidateStubbleSelection(p: Provenance, trees: seq<DeviceTree>) returns (ok: bool)
    ensures ok <==> OrderedOK(p, trees)
  {
    hide PayloadsOK, RoutesOK, ByDevice, Encodes;
    if p.ordered.None? { return true; }
    var s := p.ordered.value;
    if p.tool != "stubble" || p.machdb != "" || s.policy != ORDER_POLICY { return false; }
    if !ValidSHA256(s.imageSHA256) || !ValidSHA256(s.tableSHA256) { return false; }
    ok := CheckPayloads(s.payloadOrder, trees);
    if !ok { return; }
    var byDevice := IndexTrees(trees);
    if s.records == [] || |s.records| > MAXIMUM_HWID_RECORDS { return false; }
    var observed, routes;
    ok, observed, routes := IndexTable(s.records);
    if !ok { return; }
    var i := 0;
    while i < |p.selections|
      invariant i <= |p.selections| && forall j :: 0 <= j < i ==> RoutesOK(p.selections[j], ByDevice(trees), s.records)
    {
      ok := CheckRoutes(p.selections[i], byDevice, s.records, observed, routes);
      if !ok { return; }
      i := i + 1;
    }
  }

  /** What all validators together accept. */
  ghost predicate AcceptedOrdered(p: Provenance, trees: seq<DeviceTree>) {
    p.ordered.Some? && EvidenceOK(p, trees) && OrderedOK(p, trees) && DistinctDevices(trees)
  }

  lemma EvidenceFor(p: Provenance, trees: seq<DeviceTree>, t: DeviceTree) returns (e: Evidence)
    requires AcceptedOrdered(p, trees) && t in trees
    ensures e in p.selections && e.device == t.device && t.device in ByDevice(trees)
    ensures ByDevice(trees)[t.device] == t && t.compatibles != []
    ensures EvidenceItemOK(e, ByDevice(trees)) && RoutesOK(e, ByDevice(trees), p.ordered.value.records)
  {
    hide EvidenceItemOK, RoutesOK;
    var n :| 0 <= n < |trees| && trees[n] == t;
    ByDeviceKnows(trees, n);
    var i :| 0 <= i < |p.selections| && p.selections[i].device == t.device;
    e := p.selections[i];
  }

  /** In an accepted ordered bundle, the declared HWIDs of a device are exactly the
      ones that the table maps to its primary compatible. */
  lemma DeclaredHWIDs(p: Provenance, trees: seq<DeviceTree>, t: DeviceTree, hwid: string)
    requires AcceptedOrdered(p, trees) && t in trees
    ensures t.compatibles != []
    ensures Selector(HWIDRoute, hwid) in t.selectors <==> Encodes(p.ordered.value.records, hwid, t.compatibles[0])
  {
    var e := EvidenceFor(p, trees, t);
    assert Selector(HWIDRoute, hwid) in t.selectors <==> Accounted(e.records, Selector(HWIDRoute, hwid));
    assert Accounted(e.records, Selector(HWIDRoute, hwid)) <==> Expected(e.records, hwid);
  }

  /** A required device tree cannot be shadowed.  Whichever record of the table matches
      one of its HWIDs, the first payload in image order with that record's compatible
      is the device itself; and at least one record matches. */
  lemma RequiredIsNotShadowed(p: Provenance, trees: seq<DeviceTree>, t: DeviceTree, hwid: string)
    requires AcceptedOrdered(p, trees) && t in trees && t.required && Selector(HWIDRoute, hwid) in t.selectors
    ensures forall c ::
              Encodes(p.ordered.value.records, hwid, c) ==>
                Choice(p.ordered.value.payloadOrder, ByDevice(trees), c) == Some(t.device)
    ensures exists c :: Encodes(p.ordered.value.records, hwid, c)
  {
    DeclaredHWIDs(p, trees, t, hwid);
    var e := EvidenceFor(p, trees, t);
    assert Encodes(p.ordered.value.records, hwid, t.compatibles[0]);
    assert Expected(e.records, hwid);
  }
}
