/** The device-tree evidence of a kernel bundle: what its validators accept, and what
    their acceptance together means for the device tree that a board gets at boot. */
module KernelEvidence {
  import opened Wrappers

  datatype SelectorKind = CompatibleRoute | HWIDRoute

  datatype Selector = Selector(kind: SelectorKind, value: string)

  datatype DeviceTree = DeviceTree(device: string, basename: string, path: string, compatibles: seq<string>,
      sha256: string, matches: int,
                                   selectors: seq<Selector>, required: bool)

  datatype SelectionRecord = SelectionRecord(source: string, compatible: string, hwids: seq<string>,
      models: seq<string>)

  datatype Evidence = Evidence(device: string, records: seq<SelectionRecord>)

  datatype HWIDRecord = HWIDRecord(hwid: string, compatible: string)

  datatype OrderedSelection = OrderedSelection(policy: string, imageSHA256: string, tableSHA256: string,
      payloadOrder: seq<string>, records: seq<HWIDRecord>)

  datatype Provenance = Provenance(tool: string, machdb: string, selections: seq<Evidence>,
      ordered: Option<OrderedSelection>)

  const ORDER_POLICY := "stubble-inventory-order-v1"
  const MAXIMUM_TREES := 64
  const MAXIMUM_SELECTORS := 128
  const MAXIMUM_RECORDS := 64
  const MAXIMUM_HWID_RECORDS := 8192
  const NIL_UUID := "00000000-0000-0000-0000-000000000000"

  /** Byte-wise order of strings. */
  predicate Less(a: string, b: string) {
    b != [] && (a == [] || a[0] < b[0] || (a[0] == b[0] && Less(a[1..], b[1..])))
  }

  predicate Increasing(values: seq<string>) {
    forall i :: 0 < i < |values| ==> Less(values[i - 1], values[i])
  }

  predicate Hexadecimal(c: char) {
    '0' <= c <= '9' || 'a' <= c <= 'f'
  }

  predicate ValidSHA256(s: string) {
    |s| == 64 && forall i :: 0 <= i < 64 ==> Hexadecimal(s[i])
  }

  predicate CanonicalUUID(s: string) {
    |s| == 36 && forall i :: 0 <= i < 36 ==> if i in {8, 13, 18, 23} then s[i] == '-' else Hexadecimal(s[i])
  }

  predicate ValidCompatible(s: string) {
    0 < |s| <= 256 && ('a' <= s[0] <= 'z' || '0' <= s[0] <= '9')
    && forall i :: 0 < i < |s| ==> 'a' <= s[i] <= 'z' || '0' <= s[i] <= '9' || s[i] in ",._+-"
  }

  predicate ValidSelectorValue(s: string) {
    0 < |s| <= 512 && s[0] != ' ' && s[|s| - 1] != ' ' &&
    forall i :: 0 <= i < |s| ==> s[i] >= ' ' && s[i] != 127 as char
  }

  /** The device trees by identifier; a later one replaces an earlier one. */
  function ByDevice(trees: seq<DeviceTree>): map<string, DeviceTree> {
    if trees == [] then map[] else ByDevice(trees[..|trees| - 1])[trees[|trees| - 1].device := trees[|trees| - 1]]
  }

  ghost predicate DistinctDevices(trees: seq<DeviceTree>) {
    forall i, j :: 0 <= i < j < |trees| ==> trees[i].device != trees[j].device
  }

  lemma {:induction false} ByDeviceKnows(trees: seq<DeviceTree>, i: nat)
    requires i < |trees|
    ensures trees[i].device in ByDevice(trees)
    ensures DistinctDevices(trees) ==> ByDevice(trees)[trees[i].device] == trees[i]
  {
    var n := |trees| - 1;
    if i < n {
      ByDeviceKnows(trees[..n], i);
      assert trees[..n][i] == trees[i];
    }
  }

  lemma {:induction false} ByDeviceFrom(trees: seq<DeviceTree>, device: string)
    requires device in ByDevice(trees)
    ensures ByDevice(trees)[device] in trees && ByDevice(trees)[device].device == device
  {
    var n := |trees| - 1;
    if trees[n].device != device { ByDeviceFrom(trees[..n], device); }
  }

  method IndexTrees(trees: seq<DeviceTree>) returns (byDevice: map<string, DeviceTree>)
    ensures byDevice == ByDevice(trees)
  {
    byDevice := map[];
    var i := 0;
    while i < |trees|
      invariant i <= |trees| && byDevice == ByDevice(trees[..i])
    {
      assert trees[..i + 1][..i] == trees[..i];
      byDevice := byDevice[trees[i].device := trees[i]];
      i := i + 1;
    }
    assert trees[..i] == trees;
  }

  /** What one attribution record must be. */
  predicate RecordOK(r: SelectionRecord, primary: string) {
    && r.compatible == primary
    && ((r.source == "hwids" && 0 < |r.hwids| <= MAXIMUM_SELECTORS && r.models == []
         && Increasing(r.hwids) && forall i :: 0 <= i < |r.hwids| ==> CanonicalUUID(r.hwids[i]))
        || (r.source == "machdb" && 0 < |r.models| <= MAXIMUM_SELECTORS && r.hwids == []
            && Increasing(r.models) && forall i :: 0 <= i < |r.models| ==> ValidSelectorValue(r.models[i])))
  }

  /** The selectors that the records account for. */
  ghost predicate Accounted(records: seq<SelectionRecord>, s: Selector) {
    exists i ::
      0 <= i < |records| &&
      (if s.kind.CompatibleRoute? then records[i].compatible == s.value
       else records[i].source == "hwids" && s.value in records[i].hwids)
  }

  ghost predicate RecordsOK(records: seq<SelectionRecord>, primary: string) {
    && (forall i :: 0 <= i < |records| ==> RecordOK(records[i], primary))
    && (forall i, j :: 0 <= i < j < |records| ==> records[i].source != records[j].source)
  }

  ghost predicate EvidenceItemOK(e: Evidence, byDevice: map<string, DeviceTree>) {
    && e.device in byDevice && byDevice[e.device].matches == 1 && byDevice[e.device].compatibles != []
    && 0 < |e.records| <= MAXIMUM_RECORDS && RecordsOK(e.records, byDevice[e.device].compatibles[0])
    && (forall s :: s in byDevice[e.device].selectors <==> Accounted(e.records, s))
  }

  ghost predicate UsesMachDB(selections: seq<Evidence>) {
    exists i, j ::
      0 <= i < |selections| && 0 <= j < |selections[i].records| && selections[i].records[j].source == "machdb"
  }

  /** Exact agreement between the attribution records and the selector inventory. */
  ghost predicate EvidenceOK(p: Provenance, trees: seq<DeviceTree>) {
    && (forall i :: 0 <= i < |p.selections| ==> EvidenceItemOK(p.selections[i], ByDevice(trees)))
    && (forall i, j :: 0 <= i < j < |p.selections| ==> p.selections[i].device != p.selections[j].device)
    && (forall t ::
          t in trees && t.matches == 1 ==> exists i :: 0 <= i < |p.selections| && p.selections[i].device == t.device)
    && (UsesMachDB(p.selections) <==> p.machdb != "")
  }

  predicate ValueOK(isModel: bool, value: string) {
    if isModel then ValidSelectorValue(value) else CanonicalUUID(value)
  }

  /** Values must be well formed and strictly increasing. */
  method CheckValues(values: seq<string>, isModel: bool) returns (ok: bool)
    ensures ok <==> Increasing(values) && forall i :: 0 <= i < |values| ==> ValueOK(isModel, values[i])
  {
    hide ValueOK, Less;
    var previous := "";
    var i := 0;
    AnythingAfterEmpty();
    while i < |values|
      invariant i <= |values| && Increasing(values[..i]) && forall j :: 0 <= j < i ==> ValueOK(isModel, values[j])
      invariant previous == if i == 0 then "" else values[i - 1]
    {
      if !ValueOK(isModel, values[i]) { return false; }
      NotEmpty(isModel, values[i]);
      if !Less(previous, values[i]) {
        assert i > 0;
        return false;
      }
      assert values[..i + 1] == values[..i] + [values[i]];
      previous := values[i];
      i := i + 1;
    }
    assert values[..i] == values;
    ok := true;
  }

  lemma AnythingAfterEmpty()
    ensures forall s: string :: s != "" ==> Less("", s)
  {
  }

  lemma NotEmpty(isModel: bool, value: string)
    requires ValueOK(isModel, value)
    ensures value != ""
  {
  }

  lemma MoreRecords(records: seq<SelectionRecord>, i: nat)
    requires i < |records|
    ensures forall s :: Accounted(records[..i + 1], s) <==> Accounted(records[..i], s) || Accounted([records[i]], s)
  {
    var more, less := records[..i + 1], records[..i];
    assert more == less + [records[i]];
    forall s ensures Accounted(more, s) <==> Accounted(less, s) || Accounted([records[i]], s) {
      if Accounted(less, s) {
        var j :| 0 <= j < |less| &&
        (if s.kind.CompatibleRoute? then less[j].compatible == s.value
         else less[j].source == "hwids" && s.value in less[j].hwids);
        assert more[j] == less[j];
      }
      if Accounted([records[i]], s) { assert more[i] == [records[i]][0]; }
      if Accounted(more, s) {
        var j :| 0 <= j < |more| &&
        (if s.kind.CompatibleRoute? then more[j].compatible == s.value
         else more[j].source == "hwids" && s.value in more[j].hwids);
        if j < i { assert less[j] == more[j]; } else { assert [records[i]][0] == more[j]; }
      }
    }
  }

  /** The selectors one record accounts for. */
  method RecordSelectors(r: SelectionRecord) returns (expected: set<Selector>)
    ensures forall s :: s in expected <==> Accounted([r], s)
  {
    expected := {Selector(CompatibleRoute, r.compatible)};
    if r.source == "hwids" {
      var i := 0;
      while i < |r.hwids|
        invariant i <= |r.hwids|
        invariant forall s ::
                    s in expected <==>
                      (if s.kind.CompatibleRoute? then s.value == r.compatible else s.value in r.hwids[..i])
      {
        expected := expected + {Selector(HWIDRoute, r.hwids[i])};
        i := i + 1;
      }
      assert r.hwids[..i] == r.hwids;
    }
    forall s ensures s in expected <==> Accounted([r], s) { assert [r][0] == r; }
  }

  /** Checks the records of one device and collects the selectors they account for. */
  method CheckRecords(records: seq<SelectionRecord>, primary: string)
        returns (ok: bool, expected: set<Selector>, machdb: bool)
    ensures ok <==> RecordsOK(records, primary)
    ensures ok ==> forall s :: s in expected <==> Accounted(records, s)
    ensures ok ==> (machdb <==> exists j :: 0 <= j < |records| && records[j].source == "machdb")
  {
    expected, machdb := {}, false;
    var seen: set<(string, string)> := {};
    var i := 0;
    while i < |records|
      invariant i <= |records| && RecordsOK(records[..i], primary)
      invariant forall k :: k in seen <==> exists j :: 0 <= j < i && (records[j].source, records[j].compatible) == k
      invariant forall s :: s in expected <==> Accounted(records[..i], s)
      invariant machdb <==> exists j :: 0 <= j < i && records[j].source == "machdb"
    {
      var r := records[i];
      if (r.source, r.compatible) in seen || r.compatible != primary {
        if r.compatible == primary {
          var j :| 0 <= j < i && (records[j].source, records[j].compatible) == (r.source, r.compatible);
          assert records[j].source == records[i].source;
        }
        return false, expected, machdb;
      }
      var values;
      if r.source == "hwids" {
        if r.hwids == [] || |r.hwids| > MAXIMUM_SELECTORS || r.models != [] { return false, expected, machdb; }
        values := CheckValues(r.hwids, false);
      } else if r.source == "machdb" {
        machdb := true;
        if r.models == [] || |r.models| > MAXIMUM_SELECTORS || r.hwids != [] { return false, expected, machdb; }
        values := CheckValues(r.models, true);
      } else {
        values := false;
      }
      if !values { return false, expected, machdb; }
      var more := RecordSelectors(r);
      MoreRecords(records, i);
      expected := expected + more;
      seen := seen + {(r.source, r.compatible)};
      i := i + 1;
    }
    assert records[..i] == records;
    ok := true;
  }

  /** The selector set of a tree, compared by size and one inclusion. */
  method SameSelectors(selectors: seq<Selector>, expected: set<Selector>) returns (same: bool)
    ensures same <==> forall s :: s in selectors <==> s in expected
  {
    var actual: set<Selector> := {};
    var i := 0;
    while i < |selectors|
      invariant i <= |selectors| && forall s :: s in actual <==> s in selectors[..i]
    {
      actual := actual + {selectors[i]};
      i := i + 1;
    }
    assert selectors[..i] == selectors;
    if |actual| != |expected| {
      if actual == expected { assert false; }
      return false;
    }
    var rest := expected;
    while rest != {}
      invariant rest <= expected && forall s :: s in expected - rest ==> s in actual
      decreases |rest|
    {
      var s :| s in rest;
      if s !in actual { return false; }
      rest := rest - {s};
    }
    SubsetOfSameSize(expected, actual);
    same := true;
  }

  lemma SubsetOfSameSize<T>(a: set<T>, b: set<T>)
    requires a <= b && |a| == |b|
    ensures a == b
  {
    assert |b - a| == |b| - |a|;
  }

  lemma MoreSelections(selections: seq<Evidence>, i: nat)
    requires i < |selections|
    ensures UsesMachDB(selections[..i + 1]) <==>
              UsesMachDB(selections[..i]) ||
              exists j :: 0 <= j < |selections[i].records| && selections[i].records[j].source == "machdb"
  {
    var more, less := selections[..i + 1], selections[..i];
    assert forall k :: 0 <= k < i ==> more[k] == less[k];
    if k, j :| 0 <= k < |more| && 0 <= j < |more[k].records| && more[k].records[j].source == "machdb" {
      if k < i { assert less[k].records[j].source == "machdb"; }
    }
    if k, j :| 0 <= k < |less| && 0 <= j < |less[k].records| && less[k].records[j].source == "machdb" {
      assert more[k].records[j].source == "machdb";
    }
    if j :| 0 <= j < |selections[i].records| && selections[i].records[j].source == "machdb" {
      assert more[i].records[j].source == "machdb";
    }
  }

  /** Checks the detailed evidence of one device. */
  method CheckEvidence(e: Evidence, byDevice: map<string, DeviceTree>) returns (ok: bool, machdb: bool)
    ensures ok <==> EvidenceItemOK(e, byDevice)
    ensures ok ==> (machdb <==> exists j :: 0 <= j < |e.records| && e.records[j].source == "machdb")
  {
    ok, machdb := false, false;
    if e.device !in byDevice { return; }
    var tree := byDevice[e.device];
    if tree.matches != 1 || tree.compatibles == [] { return; }
    if e.records == [] || |e.records| > MAXIMUM_RECORDS { return; }
    var expected;
    ok, expected, machdb := CheckRecords(e.records, tree.compatibles[0]);
    if !ok { return; }
    ok := SameSelectors(tree.selectors, expected);
  }

  /** validateDTBSelectionEvidence, as accept or reject. */
  method ValidateEvidence(p: Provenance, trees: seq<DeviceTree>) returns (ok: bool)
    ensures ok <==> EvidenceOK(p, trees)
  {
    hide EvidenceItemOK, ByDevice, UsesMachDB;
    var byDevice := IndexTrees(trees);
    var seen: set<string> := {};
    var machdb := false;
    NoSelections();
    var i := 0;
    while i < |p.selections|
      invariant i <= |p.selections| && forall j :: 0 <= j < i ==> EvidenceItemOK(p.selections[j], ByDevice(trees))
      invariant forall j, k :: 0 <= j < k < i ==> p.selections[j].device != p.selections[k].device
      invariant forall d :: d in seen <==> exists j :: 0 <= j < i && p.selections[j].device == d
      invariant machdb <==> UsesMachDB(p.selections[..i])
    {
      if p.selections[i].device in seen { return false; }
      var one, uses := CheckEvidence(p.selections[i], byDevice);
      if !one { return false; }
      MoreSelections(p.selections, i);
      machdb := machdb || uses;
      seen := seen + {p.selections[i].device};
      i := i + 1;
    }
    assert p.selections[..i] == p.selections;
    var n := 0;
    while n < |trees|
      invariant n <= |trees| && forall j :: 0 <= j < n && trees[j].matches == 1 ==> trees[j].device in seen
    {
      if trees[n].matches == 1 && trees[n].device !in seen {
        assert trees[n] in trees;
        return false;
      }
      n := n + 1;
    }
    ok := machdb <==> p.machdb != "";
  }

  lemma NoSelections()
    ensures !UsesMachDB([])
  {
  }
}
