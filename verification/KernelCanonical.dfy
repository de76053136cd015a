/** The canonical order of a bundle's parts, and what acceptance does not depend on. */
module KernelCanonical {
  import opened Wrappers
  import opened Sorting
  import opened KernelEvidence
  import opened KernelStubble
  import opened KernelInventory

  // ---- the orders that bundles are sorted by

  predicate RecordLess(a: SelectionRecord, b: SelectionRecord) {
    if a.source != b.source then Less(a.source, b.source) else Less(a.compatible, b.compatible)
  }

  predicate EvidenceLess(a: Evidence, b: Evidence) { Less(a.device, b.device) }

  predicate TreeLess(a: DeviceTree, b: DeviceTree) {
    if a.device != b.device then Less(a.device, b.device) else Less(a.path, b.path)
  }

  lemma {:induction false} LessTotal(a: string, b: string)
    ensures a != b ==> Less(a, b) || Less(b, a)
  {
    if a != [] && b != [] && a[0] == b[0] {
      LessTotal(a[1..], b[1..]);
      assert a == [a[0]] + a[1..] && b == [b[0]] + b[1..];
    }
  }

  lemma {:induction false} LessIsStrict()
    ensures Strict(Less) && Strict(SelectorLess) && Strict(RecordLess) && Strict(EvidenceLess) && Strict(TreeLess)
  {
    forall x ensures !Less(x, x) { LessIrreflexive(x); }
    forall x, y, z | Less(x, y) && Less(y, z) ensures Less(x, z) { LessTransitive(x, y, z); }
    assert Strict(Less);
  }

  // ---- normal forms

  function NormalTree(t: DeviceTree): DeviceTree {
    t.(selectors := Sort(SelectorLess, t.selectors))
  }

  function NormalRecord(r: SelectionRecord): SelectionRecord {
    r.(hwids := Sort(Less, r.hwids), models := Sort(Less, r.models))
  }

  function NormalEvidence(e: Evidence): Evidence {
    e.(records := Sort(RecordLess, Map(NormalRecord, e.records)))
  }

  function NormalProvenance(p: Provenance): Provenance {
    p.(selections := Sort(EvidenceLess, Map(NormalEvidence, p.selections)))
  }

  /** Selectors and HWIDs in any order have one normal form. */
  lemma AnyOrder(t: DeviceTree, selectors: seq<Selector>, r: SelectionRecord, hwids: seq<string>, models: seq<string>)
    requires multiset(selectors) == multiset(t.selectors) && multiset(hwids) == multiset(r.hwids)
    requires multiset(models) == multiset(r.models)
    ensures NormalTree(t.(selectors := selectors)) == NormalTree(t)
    ensures NormalRecord(r.(hwids := hwids, models := models)) == NormalRecord(r)
  {
    LessIsStrict();
    AllTotal(selectors, hwids);
    AllTotal(selectors, models);
    SortIsDetermined(SelectorLess, selectors, t.selectors);
    SortIsDetermined(Less, hwids, r.hwids);
    SortIsDetermined(Less, models, r.models);
  }

  lemma AllTotal(selectors: seq<Selector>, values: seq<string>)
    ensures NoTies(SelectorLess, selectors) && NoTies(Less, values)
  {
    forall x, y | x in values && y in values && x != y ensures Less(x, y) || Less(y, x) { LessTotal(x, y); }
    forall x, y | x in selectors && y in selectors && x != y ensures SelectorLess(x, y) || SelectorLess(y, x) {
      LessTotal(x.value, y.value);
    }
  }

  lemma NormalTwice(t: DeviceTree, r: SelectionRecord)
    ensures NormalTree(NormalTree(t)) == NormalTree(t) && NormalRecord(NormalRecord(r)) == NormalRecord(r)
  {
    LessIsStrict();
    SortSorts(SelectorLess, t.selectors);
    SortSorts(Less, r.hwids);
    SortSorts(Less, r.models);
    AnyOrder(t, Sort(SelectorLess, t.selectors), r, Sort(Less, r.hwids), Sort(Less, r.models));
  }

  // ---- the trees in any order

  lemma {:induction false} SumsSplit(a: seq<DeviceTree>, b: seq<DeviceTree>)
    ensures Matches(a + b) == Matches(a) + Matches(b)
  {
    if b == [] {
      assert a + b == a;
    } else {
      SumsSplit(a, b[..|b| - 1]);
      assert (a + b)[..|a + b| - 1] == a + b[..|b| - 1];
    }
  }

  lemma {:induction false} SumsStay(s: seq<DeviceTree>, t: seq<DeviceTree>)
    requires multiset(s) == multiset(t)
    ensures Matches(s) == Matches(t)
    decreases |s|
  {
    SameElements(s, t);
    if s != [] {
      var j := TakeOut(s, t);
      SumsStay(s[1..], t[..j] + t[j + 1..]);
      SumsSplit([s[0]], s[1..]);
      SumsSplit(t[..j], [t[j]] + t[j + 1..]);
      SumsSplit([t[j]], t[j + 1..]);
      SumsSplit(t[..j], t[j + 1..]);
      assert s == [s[0]] + s[1..] && t == t[..j] + ([t[j]] + t[j + 1..]);
    }
  }

  lemma NamesStayDistinct(s: seq<DeviceTree>, t: seq<DeviceTree>)
    requires multiset(s) == multiset(t)
    ensures (DistinctDevices(s) <==> DistinctDevices(t)) && (DistinctPaths(s) <==> DistinctPaths(t))
  {
    var device, path := (x: DeviceTree) => x.device, (x: DeviceTree) => x.path;
    MapKeeps(device, s, t);
    MapKeeps(path, s, t);
    DistinctStays(Map(device, s), Map(device, t));
    DistinctStays(Map(path, s), Map(path, t));
    assert forall u: seq<DeviceTree> {:trigger DistinctDevices(u)} {:trigger Map(device, u)} ::
             DistinctDevices(u) <==> Distinct(Map(device, u));
    assert forall u: seq<DeviceTree> {:trigger DistinctPaths(u)} {:trigger Map(path, u)} ::
             DistinctPaths(u) <==> Distinct(Map(path, u));
  }

  lemma RoutesStayDisjoint(s: seq<DeviceTree>, t: seq<DeviceTree>, ordered: bool)
    requires multiset(s) == multiset(t) && DistinctDevices(s) && DistinctDevices(t) && RoutesDisjoint(s, ordered)
    ensures RoutesDisjoint(t, ordered)
  {
    SameElements(s, t);
    forall i, j, r | 0 <= i < j < |t| && r in t[i].selectors && r in t[j].selectors
      ensures ordered && !t[i].required && !t[j].required
    {
      assert t[i] in s && t[j] in s;
      var k :| 0 <= k < |s| && s[k] == t[i];
      var l :| 0 <= l < |s| && s[l] == t[j];
      assert k != l;
      if k < l { assert r in s[k].selectors && r in s[l].selectors; } else {
        assert r in s[l].selectors && r in s[k].selectors;
      }
    }
  }

  lemma InventoryStays(abi: string, delivery: Delivery, count: int, s: seq<DeviceTree>, t: seq<DeviceTree>,
          ordered: bool)
    requires multiset(s) == multiset(t) && InventoryOK(abi, delivery, count, s, ordered)
    ensures InventoryOK(abi, delivery, count, t, ordered)
  {
    hide TreeOK, DistinctDevices, DistinctPaths, RoutesDisjoint;
    SameElements(s, t);
    NamesStayDistinct(s, t);
    RoutesStayDisjoint(s, t, ordered);
    SumsStay(s, t);
    forall i | 0 <= i < |t| ensures TreeOK(abi, delivery, t[i]) {
      assert t[i] in s;
    }
    var i :| 0 <= i < |s| && s[i].required;
    assert s[i] in t;
  }

  /** The index by device does not depend on the order when devices differ. */
  lemma SameIndex(s: seq<DeviceTree>, t: seq<DeviceTree>)
    requires multiset(s) == multiset(t) && DistinctDevices(s)
    ensures ByDevice(s) == ByDevice(t)
  {
    SameElements(s, t);
    NamesStayDistinct(s, t);
    IndexIncluded(s, t);
    IndexIncluded(t, s);
    assert forall d :: d in ByDevice(s) ==> ByDevice(s)[d] == ByDevice(t)[d];
  }

  lemma IndexIncluded(s: seq<DeviceTree>, t: seq<DeviceTree>)
    requires (forall x :: x in s ==> x in t) && DistinctDevices(t)
    ensures forall d :: d in ByDevice(s) ==> d in ByDevice(t) && ByDevice(t)[d] == ByDevice(s)[d]
  {
    hide DistinctDevices;
    forall d | d in ByDevice(s) ensures d in ByDevice(t) && ByDevice(t)[d] == ByDevice(s)[d] {
      ByDeviceFrom(s, d);
      var i :| 0 <= i < |t| && t[i] == ByDevice(s)[d];
      ByDeviceKnows(t, i);
    }
  }

  // ---- the evidence in any order

  /** One device's evidence without any order. */
  datatype EvidenceView = EvidenceView(device: string, records: multiset<SelectionRecord>)

  function View(e: Evidence): EvidenceView {
    EvidenceView(e.device, multiset(Map(NormalRecord, e.records)))
  }

  predicate ViewLess(a: EvidenceView, b: EvidenceView) { Less(a.device, b.device) }

  /** The same evidence, apart from the order of selections, records and their values. */
  predicate SameEvidence(p: Provenance, q: Provenance) {
    p.(selections := []) == q.(selections := []) &&
    multiset(Map(View, p.selections)) == multiset(Map(View, q.selections))
  }

  /** Evidence whose records have their values in order. */
  ghost predicate Normal(e: Evidence) {
    Map(NormalRecord, e.records) == e.records && Ordered(RecordLess, e.records)
  }

  lemma NormalIsNormal(e: Evidence)
    ensures Normal(NormalEvidence(e)) && View(NormalEvidence(e)) == View(e)
  {
    LessIsStrict();
    var records := Map(NormalRecord, e.records);
    SortSorts(RecordLess, records);
    var sorted := Sort(RecordLess, records);
    SameElements(sorted, records);
    forall i | 0 <= i < |sorted| ensures NormalRecord(sorted[i]) == sorted[i] {
      assert sorted[i] in records;
      var j :| 0 <= j < |records| && records[j] == sorted[i];
      var t := DeviceTree("", "", "", [], "", 0, [], false);
      NormalTwice(t, e.records[j]);
    }
    assert Map(NormalRecord, sorted) == sorted;
  }

  /** The canonical provenance holds normal evidence, in order, and shows the same. */
  lemma CanonicalShows(p: Provenance)
    ensures SameEvidence(NormalProvenance(p), p)
    ensures forall e :: e in NormalProvenance(p).selections ==> Normal(e)
    ensures Ordered(EvidenceLess, NormalProvenance(p).selections)
  {
    LessIsStrict();
    var normal := Map(NormalEvidence, p.selections);
    SortSorts(EvidenceLess, normal);
    MapKeeps(View, NormalProvenance(p).selections, normal);
    forall i | 0 <= i < |normal| ensures View(normal[i]) == View(p.selections[i]) && Normal(normal[i]) {
      NormalIsNormal(p.selections[i]);
    }
    assert Map(View, normal) == Map(View, p.selections);
    SameElements(NormalProvenance(p).selections, normal);
  }

  lemma RecordsStay(e: Evidence, f: Evidence)
    requires Normal(e) && Normal(f) && View(e) == View(f)
    ensures multiset(e.records) == multiset(f.records) && e.device == f.device
  {
  }

  lemma ItemStays(e: Evidence, f: Evidence, byDevice: map<string, DeviceTree>)
    requires Normal(e) && Normal(f) && View(e) == View(f) && EvidenceItemOK(e, byDevice)
    ensures EvidenceItemOK(f, byDevice)
  {
    hide RecordOK, Normal;
    RecordsStay(e, f);
    SameElements(e.records, f.records);
    var primary := byDevice[e.device].compatibles[0];
    forall i | 0 <= i < |f.records| ensures RecordOK(f.records[i], primary) { assert f.records[i] in e.records; }
    var source := (r: SelectionRecord) => r.source;
    MapKeeps(source, e.records, f.records);
    assert Distinct(Map(source, e.records));
    DistinctStays(Map(source, e.records), Map(source, f.records));
    forall i, j | 0 <= i < j < |f.records| ensures f.records[i].source != f.records[j].source {
      assert Map(source, f.records)[i] != Map(source, f.records)[j];
    }
    forall s ensures Accounted(e.records, s) <==> Accounted(f.records, s) {
      if Accounted(e.records, s) { AccountedStays(e.records, f.records, s); }
      if Accounted(f.records, s) { AccountedStays(f.records, e.records, s); }
    }
  }

  lemma AccountedStays(a: seq<SelectionRecord>, b: seq<SelectionRecord>, s: Selector)
    requires (forall r :: r in a ==> r in b) && Accounted(a, s)
    ensures Accounted(b, s)
  {
    var i :| 0 <= i < |a| &&
    (if s.kind.CompatibleRoute? then a[i].compatible == s.value else a[i].source == "hwids" && s.value in a[i].hwids);
    assert a[i] in b;
    var j :| 0 <= j < |b| && b[j] == a[i];
  }

  /** Each piece of evidence on one side has its like on the other. */
  lemma Alike(p: Provenance, q: Provenance, i: nat) returns (j: nat)
    requires SameEvidence(p, q) && i < |p.selections|
    ensures j < |q.selections| && View(q.selections[j]) == View(p.selections[i])
  {
    SameElements(Map(View, p.selections), Map(View, q.selections));
    assert Map(View, p.selections)[i] in Map(View, q.selections);
    j :| 0 <= j < |q.selections| && Map(View, q.selections)[j] == Map(View, p.selections)[i];
  }

  ghost predicate AllNormal(p: Provenance) {
    forall e :: e in p.selections ==> Normal(e)
  }

  lemma EvidenceStays(p: Provenance, q: Provenance, s: seq<DeviceTree>, t: seq<DeviceTree>)
    requires SameEvidence(p, q) && AllNormal(p) && AllNormal(q) && multiset(s) == multiset(t) && DistinctDevices(s)
    requires EvidenceOK(p, s)
    ensures EvidenceOK(q, t)
  {
    hide EvidenceItemOK, Normal, View, DistinctDevices;
    SameIndex(s, t);
    SameElements(s, t);
    forall i | 0 <= i < |q.selections| ensures EvidenceItemOK(q.selections[i], ByDevice(t)) {
      var j := Alike(q, p, i);
      assert Normal(p.selections[j]) && Normal(q.selections[i]);
      ItemStays(p.selections[j], q.selections[i], ByDevice(s));
    }
    DevicesStay(p, q);
    forall x | x in t && x.matches == 1
      ensures exists i :: 0 <= i < |q.selections| && q.selections[i].device == x.device
    {
      var i :| 0 <= i < |p.selections| && p.selections[i].device == x.device;
      var j := Alike(p, q, i);
      SameDevice(p.selections[i], q.selections[j]);
    }
    if UsesMachDB(p.selections) { MachDBStays(p, q); }
    if UsesMachDB(q.selections) { MachDBStays(q, p); }
  }

  lemma SameDevice(e: Evidence, f: Evidence)
    requires View(e) == View(f)
    ensures e.device == f.device
  {
  }

  lemma DevicesStay(p: Provenance, q: Provenance)
    requires SameEvidence(p, q)
    requires forall i, j :: 0 <= i < j < |p.selections| ==> p.selections[i].device != p.selections[j].device
    ensures forall i, j :: 0 <= i < j < |q.selections| ==> q.selections[i].device != q.selections[j].device
  {
    var device := (v: EvidenceView) => v.device;
    var a, b := Map(View, p.selections), Map(View, q.selections);
    MapKeeps(device, a, b);
    assert forall i :: 0 <= i < |a| ==> Map(device, a)[i] == p.selections[i].device;
    DistinctStays(Map(device, a), Map(device, b));
    forall i, j | 0 <= i < j < |q.selections| ensures q.selections[i].device != q.selections[j].device {
      assert Map(device, b)[i] != Map(device, b)[j];
    }
  }

  lemma MachDBStays(p: Provenance, q: Provenance)
    requires SameEvidence(p, q) && AllNormal(p) && AllNormal(q) && UsesMachDB(p.selections)
    ensures UsesMachDB(q.selections)
  {
    hide Normal, View;
    var i, k :| 0 <= i < |p.selections| && 0 <= k < |p.selections[i].records| &&
    p.selections[i].records[k].source == "machdb";
    var j := Alike(p, q, i);
    assert Normal(p.selections[i]) && Normal(q.selections[j]);
    RecordsStay(p.selections[i], q.selections[j]);
    SameElements(p.selections[i].records, q.selections[j].records);
    assert p.selections[i].records[k] in q.selections[j].records;
  }

  lemma OrderedStays(p: Provenance, q: Provenance, s: seq<DeviceTree>, t: seq<DeviceTree>)
    requires SameEvidence(p, q) && AllNormal(p) && AllNormal(q) && multiset(s) == multiset(t) && DistinctDevices(s)
    requires OrderedOK(p, s)
    ensures OrderedOK(q, t)
  {
    hide Normal, View, DistinctDevices, RoutesOK, InOrder;
    SameIndex(s, t);
    SameElements(s, t);
    if q.ordered.Some? {
      forall i | 0 <= i < |q.selections| ensures RoutesOK(q.selections[i], ByDevice(t), q.ordered.value.records) {
        var j := Alike(q, p, i);
        assert Normal(p.selections[j]) && Normal(q.selections[i]);
        RoutesStay(p.selections[j], q.selections[i], ByDevice(s), p.ordered.value.records);
      }
    }
  }

  lemma RoutesStay(e: Evidence, f: Evidence, byDevice: map<string, DeviceTree>, table: seq<HWIDRecord>)
    requires Normal(e) && Normal(f) && View(e) == View(f) && RoutesOK(e, byDevice, table)
    ensures RoutesOK(f, byDevice, table)
  {
    hide Normal, Encodes;
    RecordsStay(e, f);
    SameElements(e.records, f.records);
    forall i | 0 <= i < |f.records| ensures f.records[i].source == "hwids" { assert f.records[i] in e.records; }
    forall h ensures Expected(e.records, h) <==> Expected(f.records, h) {
      if i :| 0 <= i < |e.records| && h in e.records[i].hwids { assert e.records[i] in f.records; }
      if i :| 0 <= i < |f.records| && h in f.records[i].hwids { assert f.records[i] in e.records; }
    }
  }

  // ---- accepted parts have one canonical form

  lemma OneTreeOrder(s: seq<DeviceTree>, t: seq<DeviceTree>)
    requires multiset(s) == multiset(t) && DistinctDevices(s)
    ensures Sort(TreeLess, s) == Sort(TreeLess, t)
  {
    LessIsStrict();
    forall x, y | x in s && y in s && x != y ensures TreeLess(x, y) || TreeLess(y, x) { LessTotal(x.device, y.device); }
    SortIsDetermined(TreeLess, s, t);
  }

  /** Accepted normal evidence is the same as soon as it shows the same. */
  lemma OneEvidence(e: Evidence, f: Evidence, byDevice: map<string, DeviceTree>)
    requires Normal(e) && Normal(f) && View(e) == View(f) && EvidenceItemOK(e, byDevice)
    ensures e == f
  {
    hide RecordOK;
    RecordsStay(e, f);
    forall x, y | x in e.records && y in e.records && x != y ensures RecordLess(x, y) || RecordLess(y, x) {
      LessTotal(x.source, y.source);
    }
    OneOrder(RecordLess, e.records, f.records);
  }

  lemma OneProvenance(p: Provenance, q: Provenance, trees: seq<DeviceTree>)
    requires SameEvidence(p, q) && AllNormal(p) && AllNormal(q) && EvidenceOK(p, trees)
    requires Ordered(EvidenceLess, p.selections) && Ordered(EvidenceLess, q.selections)
    ensures p == q
  {
    hide Normal, EvidenceItemOK, UsesMachDB;
    var a, b := Map(View, p.selections), Map(View, q.selections);
    forall x, y | x in a && y in a && x != y ensures ViewLess(x, y) || ViewLess(y, x) {
      LessTotal(x.device, y.device);
      DifferentDevices(p, x, y);
    }
    OneOrder(ViewLess, a, b);
    forall i | 0 <= i < |a| ensures p.selections[i] == q.selections[i] {
      assert a[i] == b[i] && Normal(p.selections[i]) && Normal(q.selections[i]) &&
             EvidenceItemOK(p.selections[i], ByDevice(trees));
      OneEvidence(p.selections[i], q.selections[i], ByDevice(trees));
    }
    assert p.selections == q.selections;
  }

  lemma DifferentDevices(p: Provenance, x: EvidenceView, y: EvidenceView)
    requires forall i, j :: 0 <= i < j < |p.selections| ==> p.selections[i].device != p.selections[j].device
    requires x in Map(View, p.selections) && y in Map(View, p.selections) && x != y
    ensures x.device != y.device
  {
    var i :| 0 <= i < |p.selections| && Map(View, p.selections)[i] == x;
    var j :| 0 <= j < |p.selections| && Map(View, p.selections)[j] == y;
  }
}
