/** Receipt items, named by directory entries, as the paths that a receipt holds: both
    validators say the same about them. */
module CleanupReceiptItems {
  import opened Wrappers
  import opened CleanupTypes
  import opened Pledges
  import Paths = CleanupReceipts
  import Parts = CleanupRestore
  import opened CleanupBackup
  import opened CleanupRecovery

  /** How digests and tags are printed. */
  datatype Printer = Printer(digest: Digest -> string, tag: Tag -> string)

  ghost predicate Hexadecimal(p: Printer) {
    (forall d :: Paths.HexDigest(p.digest(d))) && forall t :: Paths.HexDigest(p.tag(t))
  }

  /** The names of an item are names of directory entries. */
  predicate WellNamed(item: Item) {
    && Paths.CleanParts(item.dirs) && Paths.Plain(item.leaf)
    && (item.quarantine.Some? ==> Paths.Plain(item.quarantine.value))
  }

  function ChangeOf(root: Paths.Path, backup: Paths.Path, p: Printer, item: Item): Paths.Change {
    var target := item.dirs + [item.leaf];
    var quarantine := match item.quarantine case None =>
                        None case Some(q) => Some(root + item.dirs + [q] + [item.leaf]);
    match item.evidence
    case Public(digest, size) =>
      Paths.Change(item.rule, root + target, backup + target, quarantine, Paths.FileKind, p.digest(digest), "", "",
                   size, item.meta.mode)
    case Private(tag, size) =>
      Paths.Change(item.rule, root + target, backup + target, quarantine, Paths.FileKind, "", p.tag(tag), "", size,
                   item.meta.mode)
    case Link(text) =>
      Paths.Change(item.rule, root + target, backup + target, quarantine, Paths.LinkKind, "", "", text, 0,
                   item.meta.mode)
  }

  /** The rules that have a target, by the entries that lead to it. */
  function RulesByParts(home: Option<Paths.Path>, rules: map<string, Paths.Rule>): map<string, Parts.Rule>
    requires Paths.CleanRules(rules)
  {
    map id | id in rules && (rules[id].scope.UserScope? ==> home.Some?) ::
      var target := Paths.Target(home, rules[id]);
      Parts.Rule(target[..|target| - 1], target[|target| - 1], rules[id].isPrivate)
  }

  /** A receipt as a run writes it: header, backup directory and items. */
  datatype Place = Place(root: Paths.Path, home: Option<Paths.Path>, stamp: string)

  function Backup(at: Place): Paths.Path { at.root + Paths.BACKUPS + [at.stamp] }

  function ReceiptOf(header: Paths.Receipt, at: Place, p: Printer, items: seq<Item>): Paths.Receipt {
    header.(root := at.root, userHome := at.home, backup := Some(Backup(at)),
            changes := seq(|items|, i requires 0 <= i < |items| => ChangeOf(at.root, Backup(at), p, items[i])))
  }

  predicate CleanPlace(at: Place) {
    Paths.CleanBases(at.root, at.home) && Paths.Plain(at.stamp)
  }

  /** A target below a directory has one parent and one leaf. */
  lemma SameTarget(base: Paths.Path, target: Paths.Path, dirs: Paths.Path, leaf: string)
    requires target != []
    ensures base + (dirs + [leaf]) == base + target <==> dirs == target[..|target| - 1] && leaf == target[|target| - 1]
  {
    assert target == target[..|target| - 1] + [target[|target| - 1]];
    if base + (dirs + [leaf]) == base + target {
      assert (base + (dirs + [leaf]))[|base|..] == dirs + [leaf] && (base + target)[|base|..] == target;
      assert (dirs + [leaf])[..|dirs|] == dirs;
    }
  }

  lemma CleanItem(base: Paths.Path, item: Item)
    requires Paths.CleanParts(base) && WellNamed(item)
    ensures Paths.Clean(base + (item.dirs + [item.leaf])) == base + (item.dirs + [item.leaf])
    ensures Paths.CleanParts(base + item.dirs)
  {
    hide Paths.Plain, Paths.Clean;
    assert Paths.CleanParts(base + (item.dirs + [item.leaf]));
    Paths.CleanStays(base + (item.dirs + [item.leaf]));
  }

  lemma PlacesAgree(at: Place, rules: map<string, Paths.Rule>, p: Printer, item: Item)
    requires CleanPlace(at) && Paths.CleanRules(rules) && WellNamed(item)
    requires item.rule in rules && (rules[item.rule].scope.UserScope? ==> at.home.Some?)
    ensures var c, rule := ChangeOf(at.root, Backup(at), p, item), RulesByParts(at.home, rules)[item.rule];
      var expected := Paths.Expected(at.root, at.home, rules[item.rule]);
      && expected.Some? && Paths.Below(at.root, expected.value).Some?
      && (Paths.Clean(c.original) == expected.value <==> item.dirs == rule.dirs && item.leaf == rule.leaf)
      && (Paths.Clean(c.backup) == Paths.Join(Backup(at), Paths.Below(at.root, expected.value).value)
          <==> item.dirs == rule.dirs && item.leaf == rule.leaf)
  {
    hide Paths.Plain, Paths.Clean, Paths.Join, Paths.Expected, Paths.Below;
    var target := Paths.Target(at.home, rules[item.rule]);
    Paths.ExpectedTarget(at.root, at.home, rules[item.rule]);
    CleanBackupPlace(at);
    Paths.CleanJoin(Backup(at), target);
    CleanItem(at.root, item);
    CleanItem(Backup(at), item);
    SameTarget(at.root, target, item.dirs, item.leaf);
    SameTarget(Backup(at), target, item.dirs, item.leaf);
  }

  lemma CleanBackupPlace(at: Place)
    requires CleanPlace(at)
    ensures Paths.CleanParts(Backup(at)) && Paths.Dir(Paths.Clean(Backup(at))) == Paths.Join(at.root, Paths.BACKUPS)
  {
    hide Paths.Clean, Paths.Join, Paths.Dir;
    Paths.CleanDir(at.root + Paths.BACKUPS, at.stamp);
    Paths.BackupPlace(at.root, at.stamp);
  }

  lemma QuarantinesAgree(at: Place, p: Printer, item: Item)
    requires CleanPlace(at) && WellNamed(item)
    ensures Paths.QuarantineOK(ChangeOf(at.root, Backup(at), p, item)) <==>
              (item.quarantine.Some? ==>
                 QuarantineName(item.quarantine.value) && Parts.EndsWith(item.quarantine.value, "-" + item.rule))
  {
    hide Paths.Plain, Paths.Clean, Paths.Join, Paths.Dir, Paths.Base;
    if item.quarantine.Some? {
      var parent, name := at.root + item.dirs, item.quarantine.value;
      CleanItem(at.root, item);
      assert at.root + (item.dirs + [item.leaf]) == parent + [item.leaf];
      Paths.Siblings(parent, item.leaf, name);
      Paths.CleanDir(parent, item.leaf);
      Paths.CleanDir(parent, name);
      Paths.CleanJoin(parent, [name]);
      Paths.CleanJoin(parent + [name], [item.leaf]);
    }
  }

  /** One item passes by its paths exactly when it passes by its parts. */
  lemma ItemsAgree(r: Paths.Receipt, at: Place, rules: map<string, Paths.Rule>, p: Printer, item: Item)
    requires CleanPlace(at) && Paths.CleanRules(rules) && WellNamed(item) && Hexadecimal(p)
    requires r.root == at.root && r.userHome == at.home && r.backup == Some(Backup(at))
    ensures Paths.ChangeOK(ChangeOf(at.root, Backup(at), p, item), r, rules) <==>
              Parts.AcceptsItem(RulesByParts(at.home, rules), item)
  {
    hide Paths.Plain, Paths.Clean, Paths.Join, Paths.Dir, Paths.Base, Paths.QuarantineOK, Paths.CleanRules,
      Paths.CleanParts, Parts.EndsWith, Paths.Below, Paths.HexDigest;
    NoDigest();
    QuarantinesAgree(at, p, item);
    if item.rule in rules && (rules[item.rule].scope.UserScope? ==> at.home.Some?) {
      PlacesAgree(at, rules, p, item);
    }
  }

  lemma NoDigest()
    ensures !Paths.HexDigest("")
  {
  }

  /** The path-level validator accepts a receipt exactly when its header is in order and
      the items are acceptable by their parts: both validators are one. */
  lemma ValidatorsAgree(header: Paths.Receipt, at: Place, rules: map<string, Paths.Rule>, fs: Paths.Resolver,
          p: Printer, items: seq<Item>)
    requires CleanPlace(at) && Paths.CleanRules(rules) && Hexadecimal(p) &&
             forall i :: 0 <= i < |items| ==> WellNamed(items[i])
    ensures Paths.ReceiptOK(ReceiptOf(header, at, p, items), rules, fs) <==>
              Paths.HeaderOK(ReceiptOf(header, at, p, items), fs) && Parts.Accepts(RulesByParts(at.home, rules), items)
  {
    hide Paths.ChangeOK, Parts.AcceptsItem, Paths.HeaderOK, Paths.CleanRules, WellNamed, Hexadecimal, CleanPlace,
      Paths.Clean, Paths.Join, Paths.Dir, Backup;
    var r := ReceiptOf(header, at, p, items);
    CleanBackupPlace(at);
    forall i | 0 <= i < |items|
      ensures Paths.ChangeOK(r.changes[i], r, rules) <==> Parts.AcceptsItem(RulesByParts(at.home, rules), items[i])
    {
      ItemsAgree(r, at, rules, p, items[i]);
    }
    assert forall i :: 0 <= i < |items| ==> r.changes[i].rule == items[i].rule;
  }

  lemma TargetIsClean(home: Option<Paths.Path>, rules: map<string, Paths.Rule>, id: string)
    requires Paths.CleanRules(rules) && (home.Some? ==> Paths.CleanParts(home.value)) && id in RulesByParts(home, rules)
    ensures Paths.CleanParts(RulesByParts(home, rules)[id].dirs) && Paths.Plain(RulesByParts(home, rules)[id].leaf)
  {
    Paths.CleanTarget(home, rules[id]);
  }

  /** The receipts of a run on a planned set of findings pass the path-level validator,
      before and after the removals, as soon as their header is in order. */
  lemma WrittenIsValid(header: Paths.Receipt, at: Place, rules: map<string, Paths.Rule>, fs: Paths.Resolver, p: Printer,
                       findings: seq<Finding>, items: seq<Item>, secret: nat)
    requires CleanPlace(at) && Paths.CleanRules(rules) && Hexadecimal(p) && |items| == |findings|
    requires Planned(RulesByParts(at.home, rules), findings)
    requires forall i :: 0 <= i < |findings| ==> Describes(items[i], findings[i], at.stamp, secret)
    requires forall i :: 0 <= i < |findings| ==> Paths.Plain(QuarantineDirectory(at.stamp, findings[i].rule))
    requires Paths.HeaderOK(ReceiptOf(header, at, p, items), fs)
    ensures Paths.ReceiptOK(ReceiptOf(header, at, p, items), rules, fs)
  {
    hide Paths.ReceiptOK, Paths.HeaderOK, Paths.Plain, QuarantineDirectory, Attests, ReceiptOf, RulesByParts,
      Paths.CleanRules;
    WrittenIsAccepted(RulesByParts(at.home, rules), findings, items, at.stamp, secret);
    forall i | 0 <= i < |items| ensures WellNamed(items[i]) {
      assert Describes(items[i], findings[i], at.stamp, secret) &&
             PlannedFinding(RulesByParts(at.home, rules), findings[i]);
      TargetIsClean(at.home, rules, findings[i].rule);
    }
    ValidatorsAgree(header, at, rules, fs, p, items);
  }
}
