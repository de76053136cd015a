/** Building a bundle: what is accepted, and the one canonical bundle that it becomes. */
module KernelBundle {
  import opened Wrappers
  import opened Sorting
  import opened KernelEvidence
  import opened KernelStubble
  import opened KernelInventory
  import opened KernelCanonical
  import opened PackageNames

  datatype Package = Package(role: Role, name: string, path: string, url: string, sha256: string, size: int,
      verified: bool)

  datatype Mode = SourceMode | StubbleMode | NoStubbleMode | OtherMode

  /** The identities of the tools that built an image. */
  datatype Tooling = Tooling(version: string, databaseSHA256: string, stubSHA256: string, helperSHA256: string,
      sbatSHA256: string,
    ukifyTool: string, ukifyPackage: string, ukifyVersion: string, ukifySHA256: string)

  datatype Origin = Origin(tooling: Tooling, selection: Provenance)

  datatype Options = Options(release: string, repository: string, mode: Mode, delivery: Delivery, count: int,
      origin: Option<Origin>,
    packages: seq<Package>, trees: seq<DeviceTree>)

  datatype Bundle = Bundle(schema: int, release: string, repository: string, abi: string, version: string, mode: Mode,
      delivery: Delivery,
    count: int, origin: Option<Origin>, packages: seq<Package>, trees: seq<DeviceTree>)

  const UNIQUE_ROUTES := 2
  const ORDERED_INVENTORY := 3
  const MAXIMUM_PACKAGES := 5
  const SURFACE := "-qcom-x1e"

  // ---- what package names say

  function PartsOf(p: Package): Parsed {
    match ParsePackageName(p.name) case Some(parsed) => parsed case None => Parsed(Unstated, [], [])
  }

  function RoleOf(p: Package): Role { PartsOf(p).role }

  function Resolved(p: Package): Package {
    p.(role := RoleOf(p))
  }

  // ---- the packages of a bundle

  predicate StatedOK(p: Package) { p.role.Unstated? || p.role == RoleOf(p) }

  predicate PackageOK(p: Package) {
    && ParsePackageName(p.name).Some? && (KernelRole(RoleOf(p)) ==> EndsWith(PartsOf(p).abi, SURFACE))
    && ValidSHA256(p.sha256) && p.size > 0
  }

  ghost predicate Has(packages: seq<Package>, role: Role) {
    exists p :: p in packages && RoleOf(p) == role
  }

  /** One package of each role, of one kernel and one version. */
  ghost predicate Coherent(packages: seq<Package>) {
    && (forall p :: p in packages ==> PackageOK(p))
    && (forall i, j :: 0 <= i < j < |packages| ==> RoleOf(packages[i]) != RoleOf(packages[j]))
    && (forall p, q ::
          p in packages && q in packages && KernelRole(RoleOf(p)) && KernelRole(RoleOf(q)) ==>
            PartsOf(p).abi == PartsOf(q).abi)
    && (forall p, q ::
          p in packages && q in packages && !RoleOf(p).BootSupportRole? && !RoleOf(q).BootSupportRole? ==>
            PartsOf(p).version == PartsOf(q).version)
  }

  ghost predicate CompleteSet(packages: seq<Package>, delivery: Delivery) {
    && 2 <= |packages| <= MAXIMUM_PACKAGES && Has(packages, ModulesRole) && Has(packages, ImageRole)
    && (Has(packages, HeadersRole) <==> Has(packages, CommonHeadersRole))
    && match delivery
       case Embedded => |packages| in {2, 4} && !Has(packages, BootSupportRole)
       case ExternalRequired =>
         |packages| in {3, 5} && Has(packages, BootSupportRole) &&
         forall p, q :: p in packages && q in packages ==> PartsOf(p).version == PartsOf(q).version
       case Unsupported => false
  }

  ghost predicate PackagesOK(packages: seq<Package>, delivery: Delivery) {
    (forall p :: p in packages ==> StatedOK(p)) && Coherent(packages) && CompleteSet(packages, delivery)
  }

  /** The ABI that packages name first; empty while none does. */
  function FirstABI(packages: seq<Package>): string {
    if packages == [] then []
    else
      var before, last := FirstABI(packages[..|packages| - 1]), packages[|packages| - 1];
      if before == [] && KernelRole(RoleOf(last)) then PartsOf(last).abi else before
  }

  /** The version of the first package besides the boot support. */
  function FirstVersion(packages: seq<Package>): string {
    if packages == [] then []
    else
      var before, last := FirstVersion(packages[..|packages| - 1]), packages[|packages| - 1];
      if before == [] && !RoleOf(last).BootSupportRole? then PartsOf(last).version else before
  }

  predicate PackageLess(a: Package, b: Package) { Less(a.name, b.name) }

  // ---- acceptance and the canonical bundle

  predicate ToolingOK(tool: string, t: Tooling) {
    && StableIdentifier(tool) && ValidSelectorValue(t.version) && ValidSHA256(t.databaseSHA256)
    && ValidSHA256(t.stubSHA256) && ValidSHA256(t.helperSHA256) && ValidSHA256(t.sbatSHA256)
    && ValidSHA256(t.ukifySHA256)
    && StableIdentifier(t.ukifyTool) && ValidSelectorValue(t.ukifyPackage) && ValidSelectorValue(t.ukifyVersion)
  }

  ghost predicate OriginOK(o: Origin, trees: seq<DeviceTree>) {
    && ToolingOK(o.selection.tool, o.tooling) && (o.selection.machdb == "" || ValidSHA256(o.selection.machdb))
    && 0 < |o.selection.selections| <= MAXIMUM_TREES && EvidenceOK(o.selection, trees) && OrderedOK(o.selection, trees)
  }

  predicate ModeOK(mode: Mode, delivery: Delivery) {
    !mode.OtherMode? && !delivery.Unsupported? && (mode.StubbleMode? ==> delivery.Embedded?) &&
    (mode.NoStubbleMode? ==> delivery.ExternalRequired?)
  }

  predicate IsOrdered(origin: Option<Origin>) {
    origin.Some? && origin.value.selection.ordered.Some?
  }

  function CloneOrigin(origin: Option<Origin>): Option<Origin> {
    match origin case None => None case Some(o) => Some(o.(selection := NormalProvenance(o.selection)))
  }

  ghost predicate Acceptable(o: Options) {
    var origin, trees := CloneOrigin(o.origin), Map(NormalTree, o.trees);
    && ModeOK(o.mode, o.delivery) && PackagesOK(o.packages, o.delivery)
    && (o.delivery.Embedded? ==> origin.Some? && OriginOK(origin.value, trees))
    && (o.delivery.ExternalRequired? ==> origin.None?)
    && InventoryOK(FirstABI(o.packages), o.delivery, o.count, trees, IsOrdered(origin) && o.delivery.Embedded?)
  }

  function Canonical(o: Options): Bundle {
    Bundle(if IsOrdered(o.origin) then ORDERED_INVENTORY
           else UNIQUE_ROUTES, o.release, o.repository, FirstABI(o.packages), FirstVersion(o.packages),
           o.mode, o.delivery, o.count, CloneOrigin(o.origin), Sort(PackageLess, Map(Resolved, o.packages)),
           Sort(TreeLess, Map(NormalTree, o.trees)))
  }

  // ---- the operation

  method CloneDeviceTrees(source: seq<DeviceTree>) returns (result: seq<DeviceTree>)
    ensures result == Map(NormalTree, source)
  {
    result := [];
    for i := 0 to |source|
      invariant result == Map(NormalTree, source)[..i]
    {
      result := result + [source[i].(selectors := Sort(SelectorLess, source[i].selectors))];
    }
  }

  method CloneProvenance(source: Provenance) returns (copy: Provenance)
    ensures copy == NormalProvenance(source)
  {
    var selections: seq<Evidence> := [];
    for i := 0 to |source.selections|
      invariant selections == Map(NormalEvidence, source.selections)[..i]
    {
      var records: seq<SelectionRecord> := [];
      for j := 0 to |source.selections[i].records|
        invariant records == Map(NormalRecord, source.selections[i].records)[..j]
      {
        var record := source.selections[i].records[j];
        records := records + [record.(hwids := Sort(Less, record.hwids), models := Sort(Less, record.models))];
      }
      assert records == Map(NormalRecord, source.selections[i].records);
      selections := selections + [source.selections[i].(records := Sort(RecordLess, records))];
    }
    assert selections == Map(NormalEvidence, source.selections);
    copy := source.(selections := Sort(EvidenceLess, selections));
  }

  lemma CoherentBefore(packages: seq<Package>)
    requires packages != [] && Coherent(packages)
    ensures Coherent(packages[..|packages| - 1])
  {
  }

  /** In coherent packages the first ABI and version are those of every package. */
  lemma {:induction false} FirstIsCommon(packages: seq<Package>)
    requires Coherent(packages)
    ensures forall p :: p in packages && KernelRole(RoleOf(p)) ==> PartsOf(p).abi == FirstABI(packages) != []
    ensures FirstABI(packages) != [] ==>
              exists p :: p in packages && KernelRole(RoleOf(p)) && PartsOf(p).abi == FirstABI(packages)
    ensures forall p ::
              p in packages && !RoleOf(p).BootSupportRole? ==> PartsOf(p).version == FirstVersion(packages) != []
    ensures FirstVersion(packages) != [] ==>
              exists p :: p in packages && !RoleOf(p).BootSupportRole? && PartsOf(p).version == FirstVersion(packages)
  {
    hide ParsePackageName, ValidSHA256;
    if packages != [] {
      var n := |packages| - 1;
      var last := packages[n];
      CoherentBefore(packages);
      FirstIsCommon(packages[..n]);
      assert PackageOK(last);
      ParsedParts(last.name);
      assert packages == packages[..n] + [last];
    }
  }

  ghost predicate Fine(packages: seq<Package>) {
    (forall p :: p in packages ==> StatedOK(p)) && Coherent(packages)
  }

  /** One more package fits the packages so far. */
  ghost predicate Fits(packages: seq<Package>, p: Package) {
    && StatedOK(p) && PackageOK(p) && !Has(packages, RoleOf(p))
    && (KernelRole(RoleOf(p)) ==> FirstABI(packages) == [] || FirstABI(packages) == PartsOf(p).abi)
    && (!RoleOf(p).BootSupportRole? ==> FirstVersion(packages) == [] || FirstVersion(packages) == PartsOf(p).version)
  }

  lemma FineStep(packages: seq<Package>, p: Package)
    ensures Fine(packages + [p]) <==> Fine(packages) && Fits(packages, p)
  {
    hide PackageOK, StatedOK, ParsePackageName, PartsOf;
    var more := packages + [p];
    assert more[..|more| - 1] == packages;
    if Fine(more) {
      CoherentBefore(more);
      FirstIsCommon(packages);
      assert p in more;
      forall q | q in packages ensures RoleOf(q) != RoleOf(p) {
        var i :| 0 <= i < |packages| && packages[i] == q;
        assert more[i] == q && more[|packages|] == p;
      }
    }
    if Fine(packages) && Fits(packages, p) {
      FirstIsCommon(packages);
      forall i, j | 0 <= i < j < |more| ensures RoleOf(more[i]) != RoleOf(more[j]) {
        if j == |packages| { assert packages[i] in packages; }
      }
    }
  }

  lemma HasMore(packages: seq<Package>, p: Package)
    ensures forall r :: Has(packages + [p], r) <==> Has(packages, r) || r == RoleOf(p)
  {
    hide ParsePackageName;
    forall r ensures Has(packages + [p], r) <==> Has(packages, r) || r == RoleOf(p) {
      assert p in packages + [p];
      if Has(packages, r) {
        var q :| q in packages && RoleOf(q) == r;
        assert q in packages + [p];
      }
    }
  }

  lemma HasNone(packages: seq<Package>, r: Role)
    ensures !Has(packages, r) ==> forall p :: p in packages ==> RoleOf(p) != r
  {
    hide ParsePackageName;
  }

  /** Reads the package names, and compares what they say. */
  method GatherPackages(packages: seq<Package>)
        returns (ok: bool, resolved: seq<Package>, abi: string, version: string, support: string, seen: set<Role>)
    ensures ok <==> Fine(packages)
    ensures ok ==> resolved == Map(Resolved, packages) && abi == FirstABI(packages) && version == FirstVersion(packages)
    ensures ok ==> forall r :: r in seen <==> Has(packages, r)
    ensures ok ==> forall p :: p in packages && RoleOf(p).BootSupportRole? ==> PartsOf(p).version == support
  {
    hide ParsePackageName, ValidSHA256, Coherent, Has, EndsWith;
    ok, resolved, abi, version, support, seen := true, [], [], [], [], {};
    NothingGathered();
    for i := 0 to |packages|
      invariant ok <==> Fine(packages[..i])
      invariant ok ==>
                  resolved == Map(Resolved, packages)[..i] && abi == FirstABI(packages[..i]) &&
                  version == FirstVersion(packages[..i])
      invariant ok ==> forall r :: r in seen <==> Has(packages[..i], r)
      invariant ok ==> forall p :: p in packages[..i] && RoleOf(p).BootSupportRole? ==> PartsOf(p).version == support
    {
      var p := packages[i];
      assert packages[..i + 1] == packages[..i] + [p];
      assert packages[..i + 1][..i] == packages[..i];
      FineStep(packages[..i], p);
      HasMore(packages[..i], p);
      HasNone(packages[..i], RoleOf(p));
      if ParsePackageName(p.name).None? {
        ok := false;
        continue;
      }
      var parts := ParsePackageName(p.name).value;
      if !p.role.Unstated? && p.role != parts.role {
        ok := false;
        continue;
      }
      resolved := resolved + [p.(role := parts.role)];
      if parts.role in seen { ok := false; }
      seen := seen + {parts.role};
      if KernelRole(parts.role) {
        if !EndsWith(parts.abi, SURFACE) { ok := false; }
        if abi == [] { abi := parts.abi; } else if abi != parts.abi { ok := false; }
      }
      if parts.role.BootSupportRole? {
        support := parts.version;
      } else if version == [] {
        version := parts.version;
      } else if version != parts.version {
        ok := false;
      }
      if !ValidSHA256(p.sha256) { ok := false; }
      if p.size <= 0 { ok := false; }
    }
    assert packages[..|packages|] == packages;
  }

  lemma NothingGathered()
    ensures Fine([]) && forall r :: !Has([], r)
  {
  }

  method ValidateOrigin(origin: Option<Origin>, trees: seq<DeviceTree>) returns (ok: bool)
    ensures ok <==> origin.Some? && OriginOK(origin.value, trees)
  {
    hide EvidenceOK, OrderedOK;
    if origin.None? { return false; }
    var o := origin.value;
    if !ToolingOK(o.selection.tool, o.tooling) { return false; }
    if o.selection.machdb != "" && !ValidSHA256(o.selection.machdb) { return false; }
    if o.selection.selections == [] || |o.selection.selections| > MAXIMUM_TREES { return false; }
    ok := ValidateEvidence(o.selection, trees);
    if !ok { return; }
    ok := ValidateStubbleSelection(o.selection, trees);
  }

  // ---- what the names of a bundle's packages say

  /** The role of a package is the one that its filename is printed with; so are the ABI and
      the version of the bundle. */
  ghost predicate NamedIn(b: Bundle, p: Package) {
    exists abi, version ::
      && Nameable(p.role, abi, version) && Base(p.name) == PackageName(p.role, abi, version)
      && (KernelRole(p.role) ==> abi == b.abi) && (!p.role.BootSupportRole? ==> version == b.version)
      && (b.delivery.ExternalRequired? ==> version == b.version)
  }

  ghost predicate AllNamed(b: Bundle) {
    && (forall p :: p in b.packages ==> NamedIn(b, p))
    && (forall p, q :: p in b.packages && q in b.packages && p.role == q.role ==> p == q)
    && Carries(b, ImageRole) && Carries(b, ModulesRole) && (Carries(b, HeadersRole) <==> Carries(b, CommonHeadersRole))
    && (Carries(b, BootSupportRole) <==> b.delivery.ExternalRequired?)
  }

  ghost predicate Carries(b: Bundle, role: Role) {
    exists p :: p in b.packages && p.role == role
  }

  lemma ResolvedIsNamed(o: Options, p: Package)
    requires PackagesOK(o.packages, o.delivery) && p in o.packages
    ensures NamedIn(Canonical(o), Resolved(p))
  {
    hide ParsePackageName, ValidSHA256, PackageName, Base, Nameable, CloneOrigin;
    var b, parts := Canonical(o), PartsOf(p);
    assert PackageOK(p);
    FirstIsCommon(o.packages);
    NamesAreExact(p.name, parts);
    var abi :| && Nameable(parts.role, abi, parts.version)
               && Base(p.name) == PackageName(parts.role, abi, parts.version) && parts.abi == ShownABI(parts.role, abi);
    if o.delivery.ExternalRequired? {
      var image :| image in o.packages && RoleOf(image) == ImageRole;
    }
  }

  lemma CarriesResolved(packages: seq<Package>, b: Bundle, role: Role)
    requires b.packages == Sort(PackageLess, Map(Resolved, packages))
    ensures Carries(b, role) <==> Has(packages, role)
  {
    hide ParsePackageName;
    var resolved := Map(Resolved, packages);
    ResolvedSorted(packages);
    if Has(packages, role) {
      var p :| p in packages && RoleOf(p) == role;
      var i :| 0 <= i < |packages| && packages[i] == p;
      assert resolved[i] in b.packages;
    }
    if Carries(b, role) {
      var p :| p in b.packages && p.role == role;
      var i :| 0 <= i < |resolved| && resolved[i] == p;
      assert packages[i] in packages;
    }
  }

  lemma ResolvedSorted(packages: seq<Package>)
    ensures forall p :: p in Sort(PackageLess, Map(Resolved, packages)) <==> p in Map(Resolved, packages)
  {
    LessIsStrict();
    assert Strict(PackageLess);
    SortSorts(PackageLess, Map(Resolved, packages));
    SameElements(Sort(PackageLess, Map(Resolved, packages)), Map(Resolved, packages));
  }

  /** In an accepted bundle every role, the ABI and the version are those in the names. */
  lemma BundleIsNamed(o: Options)
    requires PackagesOK(o.packages, o.delivery)
    ensures AllNamed(Canonical(o))
  {
    hide ParsePackageName, NamedIn, PackageOK, StatedOK, FirstABI, FirstVersion, CloneOrigin, PartsOf, Has, Carries;
    var b, resolved := Canonical(o), Map(Resolved, o.packages);
    ResolvedSorted(o.packages);
    forall p | p in b.packages ensures NamedIn(b, p) {
      var i :| 0 <= i < |resolved| && resolved[i] == p;
      ResolvedIsNamed(o, o.packages[i]);
    }
    forall p, q | p in b.packages && q in b.packages && p.role == q.role ensures p == q {
      var i :| 0 <= i < |resolved| && resolved[i] == p;
      var j :| 0 <= j < |resolved| && resolved[j] == q;
    }
    forall role ensures Carries(b, role) <==> Has(o.packages, role) { CarriesResolved(o.packages, b, role); }
  }

  /** Builds a canonical bundle, or refuses. */
  method NewBundle(o: Options) returns (r: Option<Bundle>)
    ensures r.Some? <==> Acceptable(o)
    ensures r.Some? ==> r.value == Canonical(o) && AllNamed(r.value)
  {
    hide AllNamed, OriginOK, InventoryOK, Coherent, ParsePackageName, Has;
    var origin := o.origin;
    if o.origin.Some? {
      var selection := CloneProvenance(o.origin.value.selection);
      origin := Some(o.origin.value.(selection := selection));
    }
    var trees := CloneDeviceTrees(o.trees);
    var schema := if IsOrdered(origin) then ORDERED_INVENTORY else UNIQUE_ROUTES;
    var problems := 0;
    if !ModeOK(o.mode, o.delivery) { problems := problems + 1; }
    if |o.packages| < 2 || |o.packages| > MAXIMUM_PACKAGES { problems := problems + 1; }
    var named, resolved, abi, version, support, seen := GatherPackages(o.packages);
    if !named { problems := problems + 1; }
    if ModulesRole !in seen || ImageRole !in seen { problems := problems + 1; }
    if (HeadersRole in seen) != (CommonHeadersRole in seen) { problems := problems + 1; }
    match o.delivery {
      case Embedded =>
        if |o.packages| != 2 && |o.packages| != 4 { problems := problems + 1; }
        if BootSupportRole in seen { problems := problems + 1; }
        var ok := ValidateOrigin(origin, trees);
        if !ok { problems := problems + 1; }
      case ExternalRequired =>
        if |o.packages| != 3 && |o.packages| != 5 { problems := problems + 1; }
        if BootSupportRole !in seen { problems := problems + 1; }
        if origin.Some? { problems := problems + 1; }
        if support != [] && version != [] && support != version { problems := problems + 1; }
      case Unsupported =>
    }
    var inventory := ValidateInventory(abi, o.delivery, o.count, trees, IsOrdered(origin) && o.delivery.Embedded?);
    if !inventory { problems := problems + 1; }
    if named { VersionsAgree(o.packages, support, version); }
    if problems != 0 { return None; }
    BundleIsNamed(o);
    r := Some(Bundle(schema, o.release, o.repository, abi, version, o.mode, o.delivery, o.count, origin,
                     Sort(PackageLess, resolved), Sort(TreeLess, trees)));
  }

  /** With a boot support package and a kernel image, comparing the two versions that were
      gathered compares all versions. */
  lemma VersionsAgree(packages: seq<Package>, support: string, version: string)
    requires Fine(packages) && version == FirstVersion(packages)
    requires forall p :: p in packages && RoleOf(p).BootSupportRole? ==> PartsOf(p).version == support
    ensures Has(packages, BootSupportRole) && Has(packages, ImageRole) ==>
      ((support == [] || version == [] || support == version) <==>
         forall p, q :: p in packages && q in packages ==> PartsOf(p).version == PartsOf(q).version)
  {
    hide ParsePackageName, ValidSHA256;
    FirstIsCommon(packages);
    if Has(packages, BootSupportRole) && Has(packages, ImageRole) {
      var p :| p in packages && RoleOf(p) == BootSupportRole;
      var q :| q in packages && RoleOf(q) == ImageRole;
      assert PackageOK(p);
      ParsedParts(p.name);
      assert PartsOf(p).version == support && PartsOf(q).version == version;
    }
  }

  // ---- neither acceptance nor the bundle depends on the order of its parts

  ghost predicate SamePackages(a: seq<Package>, b: seq<Package>) {
    multiset(Map(Resolved, a)) == multiset(Map(Resolved, b)) &&
    ((forall p :: p in a ==> StatedOK(p)) <==> forall p :: p in b ==> StatedOK(p))
  }

  ghost predicate SameOrigin(a: Option<Origin>, b: Option<Origin>) {
    match (a, b)
    case (None, None) => true
    case (Some(x), Some(y)) => x.tooling == y.tooling && SameEvidence(x.selection, y.selection)
    case _ => false
  }

  /** The same inputs, apart from the order of packages, device trees, selectors, evidence,
      its records and their values, and from roles that a filename states already. */
  ghost predicate Reordered(o: Options, q: Options) {
    && o.(origin := None, packages := [], trees := []) == q.(origin := None, packages := [], trees := [])
    && SameOrigin(o.origin, q.origin) && SamePackages(o.packages, q.packages)
    && multiset(Map(NormalTree, o.trees)) == multiset(Map(NormalTree, q.trees))
  }

  lemma PermutedPackages(a: seq<Package>, b: seq<Package>)
    requires multiset(a) == multiset(b)
    ensures SamePackages(a, b)
  {
    MapKeeps(Resolved, a, b);
    SameElements(a, b);
  }

  /** Packages that say the same, place by place. */
  ghost predicate Alike(a: seq<Package>, b: seq<Package>) {
    |a| == |b| && forall i :: 0 <= i < |a| ==> PartsOf(a[i]) == PartsOf(b[i]) && (PackageOK(a[i]) <==> PackageOK(b[i]))
  }

  lemma AlikeCoherent(a: seq<Package>, b: seq<Package>)
    requires Alike(a, b) && Coherent(a)
    ensures Coherent(b)
  {
    hide PackageOK, PartsOf;
    forall p | p in b ensures exists q :: q in a && PartsOf(q) == PartsOf(p) && (PackageOK(q) <==> PackageOK(p)) {
      var i :| 0 <= i < |b| && b[i] == p;
      assert a[i] in a;
    }
  }

  lemma AlikeHas(a: seq<Package>, b: seq<Package>, r: Role)
    requires Alike(a, b) && Has(a, r)
    ensures Has(b, r)
  {
    hide PackageOK, PartsOf;
    var p :| p in a && RoleOf(p) == r;
    var i :| 0 <= i < |a| && a[i] == p;
    assert b[i] in b;
  }

  lemma AlikeComplete(a: seq<Package>, b: seq<Package>, delivery: Delivery)
    requires Alike(a, b) && CompleteSet(a, delivery)
    ensures CompleteSet(b, delivery)
  {
    hide PackageOK, PartsOf, Has;
    forall r ensures Has(a, r) <==> Has(b, r) {
      if Has(a, r) { AlikeHas(a, b, r); }
      if Has(b, r) { AlikeHas(b, a, r); }
    }
    forall p | p in b ensures exists q :: q in a && PartsOf(q) == PartsOf(p) {
      var i :| 0 <= i < |b| && b[i] == p;
      assert a[i] in a;
    }
  }

  /** What a package says depends on its filename only. */
  lemma ResolvedIsAlike(packages: seq<Package>)
    ensures Alike(packages, Map(Resolved, packages)) && Alike(Map(Resolved, packages), packages)
  {
    hide ParsePackageName, ValidSHA256;
  }

  lemma CoherentStays(a: seq<Package>, b: seq<Package>)
    requires multiset(a) == multiset(b) && Coherent(a)
    ensures Coherent(b)
  {
    hide PackageOK, PartsOf;
    SameElements(a, b);
    MapKeeps(RoleOf, a, b);
    assert Distinct(Map(RoleOf, a));
    DistinctStays(Map(RoleOf, a), Map(RoleOf, b));
    forall i, j | 0 <= i < j < |b| ensures RoleOf(b[i]) != RoleOf(b[j]) {
      assert Map(RoleOf, b)[i] != Map(RoleOf, b)[j];
    }
  }

  lemma CompleteStays(a: seq<Package>, b: seq<Package>, delivery: Delivery)
    requires multiset(a) == multiset(b) && CompleteSet(a, delivery)
    ensures CompleteSet(b, delivery)
  {
    hide PartsOf;
    SameElements(a, b);
    assert forall r :: Has(a, r) <==> Has(b, r);
  }

  /** The same packages are accepted alike, and name the same kernel. */
  lemma PackagesStay(a: seq<Package>, b: seq<Package>, delivery: Delivery)
    requires SamePackages(a, b) && PackagesOK(a, delivery)
    ensures PackagesOK(b, delivery) && FirstABI(a) == FirstABI(b) && FirstVersion(a) == FirstVersion(b)
    ensures Sort(PackageLess, Map(Resolved, a)) == Sort(PackageLess, Map(Resolved, b))
  {
    hide Coherent, CompleteSet, Alike, PackageOK, PartsOf;
    var ra, rb := Map(Resolved, a), Map(Resolved, b);
    ResolvedIsAlike(a);
    ResolvedIsAlike(b);
    AlikeCoherent(a, ra);
    CoherentStays(ra, rb);
    AlikeCoherent(rb, b);
    AlikeComplete(a, ra, delivery);
    CompleteStays(ra, rb, delivery);
    AlikeComplete(rb, b, delivery);
    OneKernel(a, b, delivery);
    OnePackageOrder(ra, rb);
  }

  lemma OnePackageOrder(a: seq<Package>, b: seq<Package>)
    requires multiset(a) == multiset(b) && Coherent(a)
    ensures Sort(PackageLess, a) == Sort(PackageLess, b)
  {
    hide PackageOK, ParsePackageName;
    LessIsStrict();
    assert Strict(PackageLess);
    forall x, y | x in a && y in a && x != y ensures PackageLess(x, y) || PackageLess(y, x) {
      LessTotal(x.name, y.name);
      var i :| 0 <= i < |a| && a[i] == x;
      var j :| 0 <= j < |a| && a[j] == y;
      assert RoleOf(a[i]) != RoleOf(a[j]);
    }
    SortIsDetermined(PackageLess, a, b);
  }

  lemma OneKernel(a: seq<Package>, b: seq<Package>, delivery: Delivery)
    requires SamePackages(a, b) && Coherent(a) && Coherent(b) && CompleteSet(a, delivery)
    ensures FirstABI(a) == FirstABI(b) && FirstVersion(a) == FirstVersion(b)
  {
    hide PackageOK, ParsePackageName, FirstABI, FirstVersion, Coherent;
    FirstIsCommon(a);
    FirstIsCommon(b);
    var ra, rb := Map(Resolved, a), Map(Resolved, b);
    SameElements(ra, rb);
    var p :| p in a && RoleOf(p) == ImageRole;
    var i :| 0 <= i < |a| && a[i] == p;
    assert ra[i] in rb;
    var j :| 0 <= j < |b| && rb[j] == ra[i];
    assert b[j] in b && PartsOf(b[j]) == PartsOf(p);
  }

  lemma EvidenceSameTwice(p: Provenance, q: Provenance)
    requires SameEvidence(p, q)
    ensures SameEvidence(NormalProvenance(p), NormalProvenance(q))
  {
    CanonicalShows(p);
    CanonicalShows(q);
  }

  /** Accepted evidence stays accepted, and its canonical form is the same. */
  lemma OriginStays(a: Origin, b: Origin, s: seq<DeviceTree>, t: seq<DeviceTree>)
    requires a.tooling == b.tooling && SameEvidence(a.selection, b.selection) && multiset(s) == multiset(t)
    requires DistinctDevices(s)
    requires OriginOK(CloneOrigin(Some(a)).value, s)
    ensures CloneOrigin(Some(a)) == CloneOrigin(Some(b)) && OriginOK(CloneOrigin(Some(b)).value, t)
  {
    hide EvidenceOK, OrderedOK, DistinctDevices, NormalProvenance, SameEvidence;
    var p, q := NormalProvenance(a.selection), NormalProvenance(b.selection);
    CanonicalShows(a.selection);
    CanonicalShows(b.selection);
    EvidenceSameTwice(a.selection, b.selection);
    assert AllNormal(p) && AllNormal(q);
    OneProvenance(p, q, s);
    EvidenceStays(p, q, s, t);
    OrderedStays(p, q, s, t);
  }

  lemma InventoryNames(abi: string, delivery: Delivery, count: int, trees: seq<DeviceTree>, ordered: bool)
    requires InventoryOK(abi, delivery, count, trees, ordered)
    ensures DistinctDevices(trees)
  {
  }

  /** Inputs in another order are accepted alike and give the same bundle. */
  lemma OrderDoesNotMatter(o: Options, q: Options)
    requires Reordered(o, q) && Acceptable(o)
    ensures Acceptable(q) && Canonical(o) == Canonical(q)
  {
    hide PackagesOK, OriginOK, InventoryOK, DistinctDevices, SamePackages, NormalTree;
    var s, t := Map(NormalTree, o.trees), Map(NormalTree, q.trees);
    PackagesStay(o.packages, q.packages, o.delivery);
    var ordered := IsOrdered(CloneOrigin(o.origin)) && o.delivery.Embedded?;
    InventoryNames(FirstABI(o.packages), o.delivery, o.count, s, ordered);
    InventoryStays(FirstABI(o.packages), o.delivery, o.count, s, t, ordered);
    OneTreeOrder(s, t);
    if o.origin.Some? {
      OriginStays(o.origin.value, q.origin.value, s, t);
    }
  }

  lemma ReorderedBack(o: Options, q: Options)
    requires Reordered(o, q)
    ensures Reordered(q, o)
  {
  }

  /** Acceptance itself does not depend on the order, either way. */
  lemma AcceptedAlike(o: Options, q: Options)
    requires Reordered(o, q)
    ensures Acceptable(o) <==> Acceptable(q)
  {
    hide Acceptable, Reordered;
    ReorderedBack(o, q);
    if Acceptable(o) { OrderDoesNotMatter(o, q); }
    if Acceptable(q) { OrderDoesNotMatter(q, o); }
  }

  // ---- what an ordered bundle boots

  /** The evidence and the trees of an ordered bundle, as it holds them, satisfy all
      validators together. */
  lemma BundleIsOrdered(o: Options)
    requires Acceptable(o) && IsOrdered(o.origin)
    ensures o.delivery.Embedded? && Canonical(o).origin.Some? && Canonical(o).schema == ORDERED_INVENTORY
    ensures AcceptedOrdered(Canonical(o).origin.value.selection, Canonical(o).trees)
  {
    hide EvidenceOK, OrderedOK, DistinctDevices, InventoryOK, PackagesOK, NormalProvenance, NormalTree, Normal, View,
      ToolingOK;
    LessIsStrict();
    var selection, trees := NormalProvenance(o.origin.value.selection), Map(NormalTree, o.trees);
    CanonicalShows(o.origin.value.selection);
    OrderedRemains(o.origin.value.selection);
    InventoryNames(FirstABI(o.packages), o.delivery, o.count, trees, IsOrdered(CloneOrigin(o.origin)) &&
                   o.delivery.Embedded?);
    SortSorts(TreeLess, trees);
    var sorted := Sort(TreeLess, trees);
    EvidenceStays(selection, selection, trees, sorted);
    OrderedStays(selection, selection, trees, sorted);
    NamesStayDistinct(trees, sorted);
  }

  lemma OrderedRemains(p: Provenance)
    ensures NormalProvenance(p).ordered == p.ordered
  {
  }

  /** No required device tree of an accepted ordered bundle is shadowed: whatever record
      of the encoded table matches one of its HWIDs, the boot stub takes the payload of
      that very device; at least one record matches, and the HWIDs that the bundle
      declares for it are exactly the ones that the table maps to its compatible. */
  lemma BundleIsNotShadowed(o: Options, t: DeviceTree, hwid: string)
    requires Acceptable(o) && IsOrdered(o.origin) && t in Canonical(o).trees && t.required
    ensures Canonical(o).origin.Some? && Canonical(o).origin.value.selection.ordered.Some? && t.compatibles != []
    ensures var ordered := Canonical(o).origin.value.selection.ordered.value;
      && (Selector(HWIDRoute, hwid) in t.selectors <==> Encodes(ordered.records, hwid, t.compatibles[0]))
      && (Selector(HWIDRoute, hwid) in t.selectors ==>
           forall c ::
             Encodes(ordered.records, hwid, c) ==>
               Choice(ordered.payloadOrder, ByDevice(Canonical(o).trees), c) == Some(t.device))
  {
    hide EvidenceOK, OrderedOK, DistinctDevices, InventoryOK, PackagesOK, Canonical, Acceptable, Choice, Encodes;
    BundleIsOrdered(o);
    var selection, trees := Canonical(o).origin.value.selection, Canonical(o).trees;
    DeclaredHWIDs(selection, trees, t, hwid);
    if Selector(HWIDRoute, hwid) in t.selectors { RequiredIsNotShadowed(selection, trees, t, hwid); }
  }

  /** Every tree that was required in the inputs is one of the bundle, with its routes. */
  lemma RequiredIsCarried(o: Options, i: nat)
    requires i < |o.trees|
    ensures exists t ::
              t in Canonical(o).trees && t == o.trees[i].(selectors := t.selectors) &&
              multiset(t.selectors) == multiset(o.trees[i].selectors)
  {
    LessIsStrict();
    var trees := Map(NormalTree, o.trees);
    SortSorts(TreeLess, trees);
    SameElements(trees, Sort(TreeLess, trees));
    SortSorts(SelectorLess, o.trees[i].selectors);
    assert trees[i] in Canonical(o).trees;
  }

  /** The inputs that a bundle states itself. */
  function Restated(b: Bundle): Options {
    Options(b.release, b.repository, b.mode, b.delivery, b.count, b.origin, b.packages, b.trees)
  }

  lemma RestatedPackages(packages: seq<Package>)
    requires forall p :: p in packages ==> StatedOK(p)
    ensures SamePackages(packages, Sort(PackageLess, Map(Resolved, packages)))
  {
    hide ParsePackageName;
    LessIsStrict();
    assert Strict(PackageLess);
    var resolved := Map(Resolved, packages);
    var sorted := Sort(PackageLess, resolved);
    SortSorts(PackageLess, resolved);
    MapKeeps(Resolved, sorted, resolved);
    assert Map(Resolved, resolved) == resolved;
    SameElements(sorted, resolved);
    forall p | p in sorted ensures StatedOK(p) {
      var i :| 0 <= i < |resolved| && resolved[i] == p;
    }
  }

  lemma RestatedTrees(trees: seq<DeviceTree>)
    ensures multiset(Map(NormalTree, Sort(TreeLess, Map(NormalTree, trees)))) == multiset(Map(NormalTree, trees))
  {
    hide NormalTree;
    LessIsStrict();
    var normal := Map(NormalTree, trees);
    SortSorts(TreeLess, normal);
    MapKeeps(NormalTree, Sort(TreeLess, normal), normal);
    forall i | 0 <= i < |trees| ensures NormalTree(normal[i]) == normal[i] {
      NormalTwice(trees[i], SelectionRecord("", "", [], []));
    }
    assert Map(NormalTree, normal) == normal;
  }

  /** Rebuilding an accepted bundle from its own fields gives the same bundle. */
  lemma RebuildingChangesNothing(o: Options)
    requires Acceptable(o)
    ensures Acceptable(Restated(Canonical(o))) && Canonical(Restated(Canonical(o))) == Canonical(o)
  {
    hide CompleteSet, Coherent, OriginOK, InventoryOK, SamePackages, NormalTree, SameEvidence, ParsePackageName;
    RestatedPackages(o.packages);
    RestatedTrees(o.trees);
    if o.origin.Some? {
      CanonicalShows(o.origin.value.selection);
      ShownBack(o.origin.value.selection);
    }
    OrderDoesNotMatter(o, Restated(Canonical(o)));
  }

  lemma ShownBack(p: Provenance)
    ensures SameEvidence(p, NormalProvenance(p))
  {
    CanonicalShows(p);
  }
}
