/** The public paths of a receipt: what the validator recomputes from the compiled rules,
    and what a run writes into its receipts. */
module CleanupReceipts {
  import opened Wrappers

  /** An absolute path as its slashes divide it; parts may be empty, "." or "..". */
  type Path = seq<string>

  // ---- lexical paths

  predicate Plain(part: string) { part != "" && part != "." && part != ".." && '/' !in part }

  predicate CleanParts(p: Path) {
    forall i :: 0 <= i < |p| ==> Plain(p[i])
  }

  /** Drops empty parts and dots, and lets ".." take back the part before it. */
  function Clean(p: Path): Path {
    if p == [] then []
    else
      var before, last := Clean(p[..|p| - 1]), p[|p| - 1];
      if last == "" || last == "." then before
      else if last == ".." then (if before == [] then [] else before[..|before| - 1])
      else before + [last]
  }

  function Join(base: Path, more: Path): Path { Clean(base + more) }

  function Dir(p: Path): Path { if p == [] then [] else Clean(p[..|p| - 1]) }

  /** The last part that is not empty. */
  function Base(p: Path): string {
    if p == [] then "/" else if p[|p| - 1] == "" then Base(p[..|p| - 1]) else p[|p| - 1]
  }

  /** What leads from a base to a path below it. */
  function Below(base: Path, p: Path): Option<Path> {
    if base <= p then Some(p[|base|..]) else None
  }

  lemma {:induction false} CleanStays(p: Path)
    requires CleanParts(p)
    ensures Clean(p) == p
  {
    if p != [] {
      CleanStays(p[..|p| - 1]);
      assert Plain(p[|p| - 1]);
      assert p == p[..|p| - 1] + [p[|p| - 1]];
    }
  }

  lemma CleanJoin(base: Path, more: Path)
    requires CleanParts(base) && CleanParts(more)
    ensures Join(base, more) == base + more && CleanParts(base + more)
  {
    CleanStays(base + more);
  }

  lemma CleanDir(p: Path, last: string)
    requires CleanParts(p) && Plain(last)
    ensures Dir(p + [last]) == p && Base(p + [last]) == last && Clean(p + [last]) == p + [last]
    ensures CleanParts(p + [last])
  {
    assert (p + [last])[..|p|] == p;
    CleanStays(p);
    CleanStays(p + [last]);
  }

  // ---- receipts

  datatype Scope = SystemScope | UserScope

  datatype Rule = Rule(id: string, path: Path, scope: Scope, isPrivate: bool)

  datatype Kind = FileKind | LinkKind | OtherKind

  datatype Change = Change(rule: string, original: Path, backup: Path, quarantine: Option<Path>, kind: Kind,
    sha256: string, hmac: string, target: string, size: int, mode: int)

  datatype Identity = Identity(device: nat, inode: nat)

  datatype State = Prepared | Complete | OtherState

  datatype Receipt = Receipt(state: State, root: Path, rootIdentity: Identity, userHome: Option<Path>,
      userIdentity: Option<Identity>,
    backup: Option<Path>, changes: seq<Change>)

  const BACKUPS: Path := ["var", "lib", "lexr", "backups"]
  const QUARANTINE := ".lexr-cleanup-"
  const MAXIMUM_MODE := 511

  predicate HexDigit(c: char) { '0' <= c <= '9' || 'a' <= c <= 'f' || 'A' <= c <= 'F' }

  predicate HexDigest(s: string) {
    |s| == 64 && forall i :: 0 <= i < 64 ==> HexDigit(s[i])
  }

  predicate EndsWith(s: string, suffix: string) {
    |suffix| <= |s| && s[|s| - |suffix|..] == suffix
  }

  predicate ValidIdentity(i: Identity) { i.inode != 0 }

  /** Which paths the file system resolves to themselves: the root, and a home below it. */
  datatype Resolver = Resolver(root: Path -> bool, home: (Path, Path) -> bool)

  predicate HeaderOK(r: Receipt, fs: Resolver) {
    && !r.state.OtherState? && fs.root(r.root) && (r.userHome.Some? ==> fs.home(r.root, r.userHome.value))
    && ValidIdentity(r.rootIdentity)
    && (if r.userHome.Some? then r.userIdentity.Some? && ValidIdentity(r.userIdentity.value) else r.userIdentity.None?)
  }

  /** Where the target of a rule lies; nowhere for a user rule without a home. */
  function Expected(root: Path, home: Option<Path>, rule: Rule): Option<Path> {
    match rule.scope
    case SystemScope => Some(Join(root, rule.path))
    case UserScope => if home.None? then None else Some(Join(Join(root, home.value), rule.path))
  }

  predicate QuarantineOK(c: Change) {
    c.quarantine.Some? ==>
      var q := c.quarantine.value;
      && Dir(Dir(Clean(q))) == Dir(c.original) && Base(q) == Base(c.original)
      && QUARANTINE <= Base(Dir(Clean(q))) && EndsWith(Base(Dir(Clean(q))), "-" + c.rule)
  }

  predicate EvidenceOK(c: Change, rule: Rule) {
    match c.kind
    case FileKind =>
      c.size >= 0 && c.mode <= MAXIMUM_MODE && if rule.isPrivate then c.sha256 == "" &&
      HexDigest(c.hmac) else c.hmac == "" && HexDigest(c.sha256)
    case LinkKind => c.target != "" && c.sha256 == "" && c.hmac == "" && c.mode <= MAXIMUM_MODE
    case OtherKind => false
  }

  predicate ChangeOK(c: Change, r: Receipt, rules: map<string, Rule>)
    requires r.backup.Some?
  {
    && c.rule in rules && Expected(r.root, r.userHome, rules[c.rule]).Some?
    && var original := Expected(r.root, r.userHome, rules[c.rule]).value;
    && Clean(c.original) == original && Below(r.root, original).Some?
    && Clean(c.backup) == Join(r.backup.value, Below(r.root, original).value)
    && QuarantineOK(c) && EvidenceOK(c, rules[c.rule])
  }

  predicate ReceiptOK(r: Receipt, rules: map<string, Rule>, fs: Resolver) {
    && HeaderOK(r, fs)
    && (r.changes != [] || r.backup.Some? ==>
      (r.backup.Some? && Dir(Clean(r.backup.value)) == Join(r.root, BACKUPS)
       && (forall i :: 0 <= i < |r.changes| ==> ChangeOK(r.changes[i], r, rules))
       && forall i, j :: 0 <= i < j < |r.changes| ==> r.changes[i].rule != r.changes[j].rule))
  }

  /** validateReceipt, as accept or reject. */
  method ValidateReceipt(r: Receipt, rules: map<string, Rule>, fs: Resolver) returns (ok: bool)
    ensures ok <==> ReceiptOK(r, rules, fs)
  {
    hide ChangeOK, Clean, Join;
    if !HeaderOK(r, fs) { return false; }
    if r.changes == [] && r.backup.None? { return true; }
    if r.backup.None? || Dir(Clean(r.backup.value)) != Join(r.root, BACKUPS) { return false; }
    var seen: set<string> := {};
    for i := 0 to |r.changes|
      invariant forall j :: 0 <= j < i ==> ChangeOK(r.changes[j], r, rules) && r.changes[j].rule in seen
      invariant forall j, k :: 0 <= j < k < i ==> r.changes[j].rule != r.changes[k].rule
      invariant forall id :: id in seen ==> exists j :: 0 <= j < i && r.changes[j].rule == id
    {
      if r.changes[i].rule in seen || !ChangeOK(r.changes[i], r, rules) { return false; }
      seen := seen + {r.changes[i].rule};
    }
    ok := true;
  }

  // ---- what an accepted receipt means

  predicate CleanRules(rules: map<string, Rule>) {
    forall id :: id in rules ==> CleanParts(rules[id].path) && rules[id].path != [] && rules[id].id == id
  }

  predicate CleanBases(root: Path, home: Option<Path>) {
    CleanParts(root) && (home.Some? ==> CleanParts(home.value))
  }

  /** The target of a rule below the root. */
  function Target(home: Option<Path>, rule: Rule): Path
    requires rule.scope.UserScope? ==> home.Some?
  {
    (if rule.scope.UserScope? then home.value else []) + rule.path
  }

  lemma ExpectedTarget(root: Path, home: Option<Path>, rule: Rule)
    requires CleanBases(root, home) && CleanParts(rule.path) && (rule.scope.UserScope? ==> home.Some?)
    ensures Expected(root, home, rule) == Some(root + Target(home, rule)) && CleanParts(Target(home, rule))
    ensures Below(root, root + Target(home, rule)) == Some(Target(home, rule))
  {
    hide Clean, Plain, Join;
    CleanJoin(root, rule.path);
    CleanTarget(home, rule);
    assert [] + rule.path == rule.path;
    if rule.scope.UserScope? {
      CleanJoin(root, home.value);
      CleanJoin(root + home.value, rule.path);
      assert root + home.value + rule.path == root + (home.value + rule.path);
    }
  }

  lemma CleanTarget(home: Option<Path>, rule: Rule)
    requires CleanParts(rule.path) && (rule.scope.UserScope? ==> home.Some? && CleanParts(home.value))
    ensures CleanParts(Target(home, rule))
  {
    hide Plain;
  }

  /** Every path of an accepted change is where the compiled rule says: the original in
      the root, and the backup at the same place in one backup directory. */
  lemma AcceptedPlaces(r: Receipt, rules: map<string, Rule>, fs: Resolver, i: nat)
    requires ReceiptOK(r, rules, fs) && i < |r.changes| && CleanBases(r.root, r.userHome) && CleanRules(rules)
    ensures r.backup.Some? && Dir(Clean(r.backup.value)) == r.root + BACKUPS && r.changes[i].rule in rules
    ensures var rule := rules[r.changes[i].rule];
      && (rule.scope.UserScope? ==> r.userHome.Some?)
      && Clean(r.changes[i].original) == r.root + Target(r.userHome, rule)
      && Clean(r.changes[i].backup) == Join(r.backup.value, Target(r.userHome, rule))
  {
    hide Clean, QuarantineOK, EvidenceOK;
    assert ChangeOK(r.changes[i], r, rules);
    ExpectedTarget(r.root, r.userHome, rules[r.changes[i].rule]);
    CleanJoin(r.root, BACKUPS);
  }

  // ---- what a run writes

  /** A finding that revalidation recognised, with its keyed tag where it is private. */
  datatype Finding = Finding(rule: string, kind: Kind, sha256: string, target: string, size: int, mode: int,
      tag: string)

  predicate FindingOK(f: Finding, home: Option<Path>, rules: map<string, Rule>) {
    && f.rule in rules && (rules[f.rule].scope.UserScope? ==> home.Some?) && 0 <= f.mode <= MAXIMUM_MODE
    && match f.kind
       case FileKind => f.size >= 0 && HexDigest(f.sha256) && HexDigest(f.tag)
       case LinkKind => f.target != "" && f.sha256 == "" && !rules[f.rule].isPrivate
       case OtherKind => false
  }

  predicate PlanOK(findings: seq<Finding>, home: Option<Path>, rules: map<string, Rule>) {
    && (forall i :: 0 <= i < |findings| ==> FindingOK(findings[i], home, rules))
    && forall i, j :: 0 <= i < j < |findings| ==> findings[i].rule != findings[j].rule
  }

  function PublicBase(root: Path, home: Option<Path>, scope: Scope): Path {
    if scope.UserScope? && home.Some? then Join(root, home.value) else root
  }

  /** The receipt item of one finding. */
  method WriteChange(root: Path, home: Option<Path>, stamp: string, backup: Path, f: Finding, rules: map<string, Rule>)
        returns (c: Change)
    requires CleanBases(root, home) && CleanRules(rules) && FindingOK(f, home, rules)
    requires Plain(stamp) && backup == root + BACKUPS + [stamp] && Plain(QUARANTINE + stamp + "-" + f.rule)
    ensures forall r: Receipt ::
              r.root == root && r.userHome == home && r.backup == Some(backup) ==> ChangeOK(c, r, rules)
    ensures c.rule == f.rule
  {
    hide Clean, HexDigest, Plain, Base, Dir, EndsWith, Join;
    var rule := rules[f.rule];
    var base := PublicBase(root, home, rule.scope);
    var original := Join(base, rule.path);
    ExpectedTarget(root, home, rule);
    ghost var target := Target(home, rule);
    assert original == root + target;
    var relative := Below(root, original).value;
    var name := QUARANTINE + stamp + "-" + f.rule;
    var directory := Join(Dir(original), [name]);
    var quarantine := Join(directory, [Base(rule.path)]);
    c := Change(f.rule, original, Join(backup, relative), Some(quarantine), f.kind, if rule.isPrivate &&
                f.kind.FileKind? then "" else f.sha256,
      if rule.isPrivate then f.tag else "", f.target, f.size, f.mode);
    Backed(root, stamp, target);
    ghost var parent := LeafOf(root, target, rule.path);
    Siblings(parent, Base(rule.path), name);
    NamedAfter(name, stamp, f.rule);
  }

  lemma Backed(root: Path, stamp: string, target: Path)
    requires CleanParts(root) && Plain(stamp) && CleanParts(target)
    ensures var backup := root + BACKUPS + [stamp];
      Clean(Join(backup, target)) == Join(backup, target) && Clean(root + target) == root + target
  {
    CleanJoin(root, BACKUPS);
    CleanDir(root + BACKUPS, stamp);
    CleanJoin(root + BACKUPS + [stamp], target);
    CleanStays(root + BACKUPS + [stamp] + target);
    CleanJoin(root, target);
  }

  /** A clean target ends in its rule's leaf, below a clean parent. */
  lemma LeafOf(root: Path, target: Path, path: Path) returns (parent: Path)
    requires CleanParts(root) && CleanParts(target) && path != [] && |path| <= |target|
    requires target[|target| - |path|..] == path
    ensures CleanParts(parent) && root + target == parent + [Base(path)] && Plain(Base(path))
  {
    LastIsPlain(root, target, path);
    parent := root + target[..|target| - 1];
    assert target == target[..|target| - 1] + [target[|target| - 1]];
  }

  lemma NamedAfter(name: string, stamp: string, rule: string)
    requires name == QUARANTINE + stamp + "-" + rule
    ensures QUARANTINE <= name && EndsWith(name, "-" + rule)
  {
    assert name[|name| - |"-" + rule|..] == "-" + rule;
  }

  /** The quarantine lies beside the original and keeps its name. */
  lemma Siblings(parent: Path, leaf: string, name: string)
    requires CleanParts(parent) && Plain(leaf) && Plain(name)
    ensures var original := parent + [leaf];
      var q := Join(Join(Dir(original), [name]), [leaf]);
      && Dir(Dir(Clean(q))) == Dir(original) && Base(q) == Base(original) == leaf && Base(Dir(Clean(q))) == name
  {
    hide Clean, Join, Dir, Base, Plain;
    CleanDir(parent, leaf);
    CleanDir(parent, name);
    CleanDir(parent + [name], leaf);
    CleanJoin(parent, [name]);
    CleanJoin(parent + [name], [leaf]);
  }

  lemma LastIsPlain(root: Path, target: Path, path: Path)
    requires CleanParts(root) && CleanParts(target) && path != [] && |path| <= |target|
    requires target[|target| - |path|..] == path
    ensures Plain(target[|target| - 1]) && Base(path) == target[|target| - 1]
    ensures CleanParts(root + target[..|target| - 1])
  {
    assert path[|path| - 1] == target[|target| - 1];
    assert Plain(target[|target| - 1]);
  }

  /** Writes the prepared receipt of a plan, and the completed one. */
  method WriteReceipt(state: State, root: Path, rootIdentity: Identity, home: Option<Path>,
          homeIdentity: Option<Identity>, stamp: string,
      findings: seq<Finding>, rules: map<string, Rule>, fs: Resolver) returns (r: Receipt)
    requires CleanBases(root, home) && CleanRules(rules) && PlanOK(findings, home, rules) && Plain(stamp)
    requires forall i :: 0 <= i < |findings| ==> Plain(QUARANTINE + stamp + "-" + findings[i].rule)
    requires !state.OtherState? && HeaderOK(Receipt(state, root, rootIdentity, home, homeIdentity, None, []), fs)
    ensures ReceiptOK(r, rules, fs)
    ensures r.state == state && |r.changes| == |findings| &&
            forall i :: 0 <= i < |findings| ==> r.changes[i].rule == findings[i].rule
  {
    hide ChangeOK, FindingOK, Clean, CleanParts, CleanRules, Plain, HeaderOK;
    if findings == [] { return Receipt(state, root, rootIdentity, home, homeIdentity, None, []); }
    var backup := root + BACKUPS + [stamp];
    BackupPlace(root, stamp);
    var changes: seq<Change> := [];
    for i := 0 to |findings|
      invariant |changes| == i && forall j :: 0 <= j < i ==> changes[j].rule == findings[j].rule
      invariant forall j, r: Receipt ::
                  0 <= j < i && r.root == root && r.userHome == home && r.backup == Some(backup) ==>
                    ChangeOK(changes[j], r, rules)
    {
      var c := WriteChange(root, home, stamp, backup, findings[i], rules);
      changes := changes + [c];
    }
    r := Receipt(state, root, rootIdentity, home, homeIdentity, Some(backup), changes);
    SameHeader(state, root, rootIdentity, home, homeIdentity, Some(backup), changes, fs);
  }

  lemma BackupPlace(root: Path, stamp: string)
    requires CleanParts(root) && Plain(stamp)
    ensures Dir(Clean(root + BACKUPS + [stamp])) == Join(root, BACKUPS)
  {
    CleanJoin(root, BACKUPS);
    CleanDir(root + BACKUPS, stamp);
  }

  lemma SameHeader(state: State, root: Path, rootIdentity: Identity, home: Option<Path>, homeIdentity: Option<Identity>,
          backup: Option<Path>, changes: seq<Change>, fs: Resolver)
    requires HeaderOK(Receipt(state, root, rootIdentity, home, homeIdentity, None, []), fs)
    ensures HeaderOK(Receipt(state, root, rootIdentity, home, homeIdentity, backup, changes), fs)
  {
  }
}
