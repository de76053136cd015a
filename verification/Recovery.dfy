/** What a crash leaves of a clean-up, and how Restore brings everything back. */
module CleanupRecovery {
  import opened Wrappers
  import opened CleanupTypes
  import opened Disks
  import opened Ledgers
  import opened Pledges
  import opened Machines
  import opened CleanupSteps
  import opened CleanupRoutes
  import opened CleanupBackup
  import opened CleanupApply
  import opened CleanupPublish
  import opened CleanupRestore

  /** A process that starts alone on a disk where everything visible is durable. */
  ghost function Survey(c: Disk): Ledger {
    Ledger(true, false, c.next, c.vis, c.vis.Keys, c.nodes, c.nodes.Keys, map[], {}, {}, map[], {})
  }

  ghost predicate Quiet(c: Disk) {
    WellFormed(c) && c.stale == {} && c.moves == {} && c.dirty == {}
  }

  lemma SurveyUpholds(c: Disk)
    requires Quiet(c)
    ensures Upholds(c, Survey(c)) && Newborn(Survey(c)) && Steady(Survey(c)) && Reached(Survey(c), [], ROOT)
    ensures Settled(Survey(c))
  {
    var g := Survey(c);
    assert Names(c, g) && Sole(c, g) && Empty(c, g) && Inodes(c, g) && Ledgers.Found(c, g) && Ledgers.Complete(c, g);
  }

  /** Where a calm Apply may start: alone, on a disk that has settled. */
  lemma CalmStart(c: Disk)
    requires Quiet(c)
    ensures var g := Survey(c).(calm := true);
      Upholds(c, g) && Newborn(g) && Steady(g) && Reached(g, [], ROOT) && Settled(g)
  {
    var g := Survey(c).(calm := true);
    SurveyUpholds(c);
    assert Calm(c, g);
    assert Names(c, g) && Sole(c, g) && Empty(c, g) && Inodes(c, g) && Ledgers.Found(c, g) && Ledgers.Complete(c, g);
  }

  /** What a process knows that has only opened the root, among others. */
  function Opened(d: Disk): Ledger
    requires ROOT in d.nodes
  {
    Ledger(false, false, d.next, map[], {}, map[ROOT := d.nodes[ROOT]], {ROOT}, map[], {}, {}, map[], {})
  }

  /** Where Apply and Restore may start among other processes: directories are settled. */
  lemma CrowdedStart(d: Disk)
    requires WellFormed(d) && ROOT !in d.dirty
    requires forall k :: NamesDirectory(d, k) ==> d.vis[k] !in d.dirty && forall v :: (k, v) !in d.stale
    ensures var g := Opened(d);
      Upholds(d, g) && Guarded(d.owner, g) && Newborn(g) && Steady(g) && Reached(g, [], ROOT)
  {
    var g := Opened(d);
    assert Names(d, g) && Sole(d, g) && Empty(d, g) && Inodes(d, g);
    assert Ledgers.Found(d, g) by {
      forall p | p in d.stale ensures !NamesDirectory(d, p.0) { assert (p.0, p.1) == p; }
    }
  }

  lemma SurveyKeeps(c: Disk)
    ensures KeptNames(Survey(c)) == c.vis && KeptNodes(Survey(c)) == c.nodes
  {
  }

  /** Durable routes lead to the same directories after a crash. */
  lemma RouteSurvives(d: Disk, g: Ledger, c: Disk, dirs: seq<string>)
    requires Upholds(d, g) && ImageOf(d, c) && KeptDirectory(g, dirs).Some? && CleanPath(dirs)
    ensures KeptDirectory(Survey(c), dirs) == KeptDirectory(g, dirs)
  {
    hide Upholds, ImageOf, CleanPath;
    CrashKeeps(d, g, c);
    SurveyKeeps(c);
    LookupStays(KeptNames(g), KeptNodes(g), c.vis, c.nodes, dirs);
  }

  lemma LevelSurvives(d: Disk, g: Ledger, c: Disk, owner: nat, stamp: string, n: nat)
    requires Upholds(d, g) && ImageOf(d, c) && 1 <= n <= 5 && HierarchyLevel(g, owner, stamp, n)
    requires !QuarantineName(stamp)
    ensures HierarchyLevel(Survey(c), owner, stamp, n)
  {
    hide Upholds, ImageOf;
    OrdinaryNames();
    RouteSurvives(d, g, c, BackupDirs(stamp)[..n]);
    CrashKeeps(d, g, c);
  }

  /** A kept file of this process keeps its one name. */
  lemma FileSurvives(d: Disk, g: Ledger, c: Disk, k: Key)
    requires Upholds(d, g) && ImageOf(d, c) && KeptFile(g, k)
    ensures var s := Survey(c);
      Seen(s, k) && s.seen[k] == g.seen[k] && NodeAt(s, k) == KeptNode(g, k) && Links(s.seen, s.seen[k]) == {k}
  {
    hide Upholds, ImageOf;
    CrashKeeps(d, g, c);
    assert c.vis[k] == g.seen[k] && c.vis[k] in g.sole;
    assert forall j :: j in c.vis && c.vis[j] == c.vis[k] ==> j == k;
  }

  lemma BackupSurvives(d: Disk, g: Ledger, c: Disk, stamp: string, item: Item)
    requires Upholds(d, g) && ImageOf(d, c) && BackupKept(g, stamp, item) && CleanPath(item.dirs)
    requires !QuarantineName(stamp)
    ensures BackupThere(Survey(c), stamp, item)
  {
    hide Upholds, ImageOf, Fits;
    CleanBackup(stamp, item.dirs);
    var dirs := BackupDirs(stamp) + item.dirs;
    RouteSurvives(d, g, c, dirs);
    FileSurvives(d, g, c, Key(KeptDirectory(g, dirs).value, item.leaf));
  }

  /** A file of the transaction, visible under its name. */
  ghost predicate FileThere(s: Ledger, stamp: string, name: string, content: Content, owner: nat) {
    var b := KeptDirectory(s, BackupDirs(stamp));
    b.Some? && Seen(s, Key(b.value, name)) &&
    var node := NodeAt(s, Key(b.value, name));
    node.Regular? && node.content == content && node.meta.mode == MODE_0600 && node.meta.uid == owner
  }

  lemma FileKeptSurvives(d: Disk, g: Ledger, c: Disk, stamp: string, name: string, content: Content, owner: nat)
    requires Upholds(d, g) && ImageOf(d, c) && FileKept(g, stamp, name, content, owner) && !QuarantineName(stamp)
    ensures FileThere(Survey(c), stamp, name, content, owner)
  {
    hide Upholds, ImageOf;
    CleanBackup(stamp, []);
    RouteSurvives(d, g, c, BackupDirs(stamp));
    FileSurvives(d, g, c, Key(KeptDirectory(g, BackupDirs(stamp)).value, name));
  }

  /** What an operator finds on a disk once Apply has made its pledge: every reviewed
      entry has a verifiable copy under one name, a receipt tells about it, and the
      recovery hierarchy is fit to be opened. */
  ghost predicate Safe(s: Ledger, p: Pledge) {
    && (forall i :: 0 <= i < |p.items| ==> BackupThere(s, p.stamp, p.items[i]))
    && (FileThere(s, p.stamp, PENDING, ReceiptFile(Receipt(Prepared, p.stamp, p.items)), p.owner) ||
        FileThere(s, p.stamp, COMPLETE, ReceiptFile(Receipt(Complete, p.stamp, p.items)), p.owner))
    && (NeedsKey(p.items) ==> FileThere(s, p.stamp, KEY_NAME, KeyFile(p.secret), p.owner))
    && (forall n :: 1 <= n <= 5 ==> HierarchyLevel(s, p.owner, p.stamp, n))
  }

  lemma SecuredSurvives(d: Disk, g: Ledger, c: Disk, p: Pledge)
    requires Upholds(d, g) && ImageOf(d, c) && Secured(g, p)
    ensures Safe(Survey(c), p)
  {
    hide Upholds, ImageOf, BackupKept, FileKept, BackupThere, FileThere, HierarchyLevel, CleanPath, QuarantineName,
      Placed;
    forall i | 0 <= i < |p.items| ensures BackupThere(Survey(c), p.stamp, p.items[i]) {
      BackupSurvives(d, g, c, p.stamp, p.items[i]);
    }
    forall n | 1 <= n <= 5 ensures HierarchyLevel(Survey(c), p.owner, p.stamp, n) {
      LevelSurvives(d, g, c, p.owner, p.stamp, n);
    }
    if NeedsKey(p.items) { FileKeptSurvives(d, g, c, p.stamp, KEY_NAME, KeyFile(p.secret), p.owner); }
    var prepared := ReceiptFile(Receipt(Prepared, p.stamp, p.items));
    var complete := ReceiptFile(Receipt(Complete, p.stamp, p.items));
    if FileKept(g, p.stamp, PENDING, prepared, p.owner) {
      FileKeptSurvives(d, g, c, p.stamp, PENDING, prepared, p.owner);
    } else {
      FileKeptSurvives(d, g, c, p.stamp, COMPLETE, complete, p.owner);
    }
  }

  /** Nothing that was durable when the process started has been lost or changed. */
  ghost predicate Untouched(start: Ledger, c: Disk) {
    && (forall k :: k in start.kept && k in start.seen ==> k in c.vis && c.vis[k] == start.seen[k])
    && (forall i :: i in start.synced && i in start.known ==> i in c.nodes && c.nodes[i] == start.known[i])
  }

  lemma KeptIsUntouched(d: Disk, start: Ledger, g: Ledger, c: Disk)
    requires Upholds(d, g) && ImageOf(d, c) && Keeps(start, g)
    ensures Untouched(start, c)
  {
    hide Upholds, ImageOf;
    CrashKeeps(d, g, c);
  }

  /** Every finding has its item, and the item its verifiable copy under one name. */
  ghost predicate AllIntact(s: Ledger, p: Pledge, findings: seq<Finding>) {
    && |p.items| == |findings|
    && forall i ::
         0 <= i < |findings| ==>
           Describes(p.items[i], findings[i], p.stamp, p.secret) && BackupThere(s, p.stamp, p.items[i])
  }

  /** Crash safety of Apply, whether it succeeded or failed at any step.  Whenever the
      machine crashes, or another process looks: before the commit nothing durable was
      touched; from then on, which is before every rename, every entry that was reviewed
      has a copy exactly as reviewed, described by a durable receipt. */
  lemma CrashSafety(m: Machine, findings: seq<Finding>, stamp: string, secret: nat, j: nat, c: Disk)
    requires m.Valid() && Ran(m, findings, stamp, secret) && j < |m.history| && ImageOf(m.history[j].disk, c)
    ensures if m.history[j].committed then m.committed && Safe(Survey(c), m.pledge) &&
            AllIntact(Survey(c), m.pledge, findings)
            else Untouched(m.start, c)
    ensures m.history[j].action.Renamed? ==> m.history[j].committed
  {
    hide Upholds, ImageOf, Untouched, Secured, Keeps, Standing, Warranted, Describes, BackupThere, FileThere,
      HierarchyLevel;
    assert Disciplined(m.start, m.pledge, m.committed, m.history[j]);
    assert Upholds(m.history[j].disk, m.history[j].ledger);
    if m.history[j].committed {
      SecuredSurvives(m.history[j].disk, m.history[j].ledger, c, m.pledge);
    } else {
      KeptIsUntouched(m.history[j].disk, m.start, m.history[j].ledger, c);
    }
  }

  /** One process, and one disk's owner, through the whole history. */
  lemma {:induction false} SameThroughout(m: Machine, j: nat)
    requires m.Valid() && j < |m.history|
    ensures m.history[j].ledger.calm == m.start.calm && m.history[j].ledger.alone == m.start.alone
    ensures m.history[j].disk.owner == m.history[0].disk.owner
    decreases j
  {
    hide Upholds, Disciplined, Warranted, Standing, Secured, Keeps, Shown, Untampered;
    if j > 0 {
      SameThroughout(m, j - 1);
      assert Faithful(m.others, m.history[j - 1], m.history[j]);
    }
  }

  /** An original that was never renamed is found again, under its only name. */
  lemma AtRestSurvives(d: Disk, g: Ledger, c: Disk, k: Key, item: Item)
    requires Upholds(d, g) && g.calm && ImageOf(d, c) && AtRest(g, k, item)
    ensures IsEntry(Survey(c), k, item.evidence, item.meta, 1) && c.nodes[c.vis[k]] == g.known[g.seen[k]]
  {
    hide Upholds, ImageOf, Fits;
    CrashKeeps(d, g, c);
    if g.known[g.seen[k]].Regular? {
      CrashKeepsOriginal(d, g, c, k);
      assert Links(c.vis, c.vis[k]) == {k};
    }
  }

  /** A renamed original is back as it was, under its only name, or gone. */
  lemma AwaySurvives(d: Disk, g: Ledger, c: Disk, k: Key, item: Item)
    requires Upholds(d, g) && g.calm && ImageOf(d, c) && Away(g, k, item)
    ensures k in c.vis ==>
              IsEntry(Survey(c), k, item.evidence, item.meta, 1) && c.nodes[c.vis[k]] == g.known[g.moved[k].ino]
  {
    hide Upholds, ImageOf, Fits;
    CrashKeeps(d, g, c);
    CrashReturnsOriginal(d, g, c, k);
    if k in c.vis && g.known[g.moved[k].ino].Regular? {
      assert Links(c.vis, c.vis[k]) == {k};
    }
  }

  /** The node that a calm ledger knows for an item's original. */
  ghost function OriginalNode(g: Ledger, k: Key, item: Item): Node
    requires AtRest(g, k, item) || Away(g, k, item)
  {
    if AtRest(g, k, item) then g.known[g.seen[k]] else g.known[g.moved[k].ino]
  }

  lemma ItemSurvives(d: Disk, g: Ledger, c: Disk, p: Pledge, i: nat, nonce: string)
    requires Upholds(d, g) && g.calm && ImageOf(d, c) && Secured(g, p) && i < |p.items|
    requires NonceFree(c, p.items, nonce)
    ensures RestorableItem(Survey(c), p.stamp, p.items[i], nonce)
  {
    hide Upholds, ImageOf, Fits, IsEntry, BackupKept, ReceiptKept, KeyKept, HierarchyKept, CleanPath, QuarantineName,
      BackupThere, AtRest, Away;
    var item := p.items[i];
    assert CleanPath(item.dirs) && Placed(g, item) && BackupKept(g, p.stamp, item);
    RouteSurvives(d, g, c, item.dirs);
    var k := Key(KeptDirectory(g, item.dirs).value, item.leaf);
    BackupSurvives(d, g, c, p.stamp, item);
    if AtRest(g, k, item) {
      AtRestSurvives(d, g, c, k, item);
      IsEntryFits(Survey(c), k, item.evidence, item.meta, 1);
    } else {
      AwaySurvives(d, g, c, k, item);
    }
  }

  /** The fresh workspace names of Restore are not in use. */
  ghost predicate NonceFree(c: Disk, items: seq<Item>, nonce: string) {
    forall i, dir :: 0 <= i < |items| ==> Key(dir, RestoreDirectory(nonce, items[i].rule)) !in c.vis
  }

  /** Items that lead to the same original are about the same entry. */
  lemma ItemsAgree(d: Disk, g: Ledger, c: Disk, p: Pledge, i: nat, j: nat)
    requires Upholds(d, g) && g.calm && ImageOf(d, c) && Secured(g, p) && i < |p.items| && j < |p.items|
    requires SamePlace(Survey(c), p.items[i], p.items[j])
    ensures Agree(p.items[i], p.items[j])
  {
    hide Upholds, ImageOf, Fits, BackupKept, ReceiptKept, KeyKept, HierarchyKept, CleanPath, QuarantineName;
    var a, b := p.items[i], p.items[j];
    assert CleanPath(a.dirs) && CleanPath(b.dirs) && Placed(g, a) && Placed(g, b);
    RouteSurvives(d, g, c, a.dirs);
    RouteSurvives(d, g, c, b.dirs);
    LedgerIsOrdered(d, g);
    var k := Key(KeptDirectory(g, a.dirs).value, a.leaf);
    assert Fits(OriginalNode(g, k, a), a.evidence, a.meta) && Fits(OriginalNode(g, k, a), b.evidence, b.meta);
  }

  /** Every crash of a calm Apply leaves a disk from which Restore can recover. */
  lemma CrashIsRestorable(d: Disk, g: Ledger, c: Disk, p: Pledge, nonce: string)
    requires Upholds(d, g) && g.calm && ImageOf(d, c) && Secured(g, p) && NonceFree(c, p.items, nonce)
    ensures Restorable(Survey(c), p.owner, p.stamp, p.items, nonce, p.secret)
  {
    hide Upholds, ImageOf, BackupKept, ReceiptKept, HierarchyKept, CleanPath, QuarantineName, HierarchyLevel,
      RestorableItem, SamePlace, Agree, NonceFree, Placed, FileKept, NeedsKey, BackupThere, FileThere, Obstructs;
    SecuredSurvives(d, g, c, p);
    forall i | 0 <= i < |p.items| ensures RestorableItem(Survey(c), p.stamp, p.items[i], nonce) {
      ItemSurvives(d, g, c, p, i, nonce);
    }
    forall i, j | 0 <= i < |p.items| && 0 <= j < |p.items| && SamePlace(Survey(c), p.items[i], p.items[j])
      ensures Agree(p.items[i], p.items[j])
    {
      ItemsAgree(d, g, c, p, i, j);
    }
    if NeedsKey(p.items) { KeyIsThere(Survey(c), p.stamp, p.secret, p.owner); }
  }

  lemma KeyIsThere(s: Ledger, stamp: string, secret: nat, owner: nat)
    requires FileThere(s, stamp, KEY_NAME, KeyFile(secret), owner)
    ensures KeptDirectory(s, BackupDirs(stamp)).Some?
    ensures KeyThere(s, owner, KeptDirectory(s, BackupDirs(stamp)).value, secret)
  {
  }

  /** A machine on which nothing fails and nobody else acts, booted from disk `c`. */
  method Boot(c: Disk, umask: nat -> nat) returns (m: Machine)
    requires Quiet(c) && forall p :: p % 64 == 0 ==> umask(p) % 64 == 0
    ensures fresh(m) && m.Valid() && !m.committed && m.ledger == m.start == Survey(c) && m.disk == c && m.Faultless()
    ensures m.ledger.alone && !m.ledger.calm
    ensures Steady(m.ledger) && Reached(m.ledger, [], ROOT)
  {
    hide Upholds, Machine.Valid, Steady, Reached, Settled, Newborn, NodesKept;
    SurveyUpholds(c);
    NobodyActs();
    m := new Machine((n: nat) => false, (n: nat, d: Disk) => d, umask, c, Survey(c));
  }

  lemma NobodyActs()
    ensures forall d: Disk :: WellFormed(d) ==> Interference(d, d)
  {
  }

  lemma CrashIsQuiet(d: Disk, c: Disk)
    requires CrashOf(d, c)
    ensures Quiet(c) && ImageOf(d, c)
  {
  }

  /** Crash, then recover.  From any crash of a run of Apply after its commit, whatever
      the run did later, and with no further failure or interference, Restore succeeds
      with the run's receipt: every original that was reviewed is there as reviewed,
      restored and already present items partition the receipt, and no other name has
      changed. */
  method RecoverAfterCrash(ghost m: Machine, ghost findings: seq<Finding>, ghost secret: nat, ghost j: nat, c: Disk,
          rules: map<string, Rule>,
                           receipt: Receipt, nonce: string, umask: nat -> nat)
      returns (report: Report, ghost r: Machine, ghost keys: seq<Key>, ghost flags: seq<bool>)
    requires m.Valid() && Ran(m, findings, receipt.stamp, secret) && CompiledRules(rules) && Planned(rules, findings)
    requires m.start.calm
    requires j < |m.history| && m.history[j].committed && CrashOf(m.history[j].disk, c)
    requires receipt.changes == m.pledge.items
    requires NonceFree(c, receipt.changes, nonce) && forall p :: p % 64 == 0 ==> umask(p) % 64 == 0
    ensures fresh(r) && r.Valid() && r.start == Survey(c) && r.ledger.alone
    ensures Progress(r.start, r.ledger, receipt.changes, keys, flags)
    ensures |receipt.changes| == |findings|
    ensures forall i :: 0 <= i < |findings| ==> Describes(receipt.changes[i], findings[i], receipt.stamp, secret)
    ensures report == Report(Picked(receipt.changes, flags, false), Picked(receipt.changes, flags, true))
    ensures Restorable(r.start, c.owner, receipt.stamp, receipt.changes, nonce, secret)
  {
    hide Upholds, CrashOf, ImageOf, Secured, Progress, Restorable, Machine.Valid, Steady, Reached, QuarantineName,
      Keeps, Quiet, Accepts, CompiledRules, NonceFree, Describes, Planned;
    MomentFacts(m, j);
    SameOwners(m, j, c);
    WrittenIsAccepted(rules, findings, receipt.changes, receipt.stamp, secret);
    CrashIsQuiet(m.history[j].disk, c);
    CrashIsRestorable(m.history[j].disk, m.history[j].ledger, c, m.pledge, nonce);
    var machine := Boot(c, umask);
    var result;
    result, keys, flags := Restore(machine, rules, receipt, nonce, secret);
    report := result.value;
    r := machine;
  }

  lemma SameOwners(m: Machine, j: nat, c: Disk)
    requires m.Valid() && j < |m.history| && CrashOf(m.history[j].disk, c)
    ensures c.owner == m.disk.owner && m.history[j].ledger.calm == m.start.calm
  {
    hide Upholds, Recorded, Standing, Secured, Keeps;
    assert |m.history| > 0;
    SameThroughout(m, j);
    SameThroughout(m, |m.history| - 1);
  }

  lemma MomentFacts(m: Machine, j: nat)
    requires m.Valid() && j < |m.history| && m.history[j].committed
    ensures Upholds(m.history[j].disk, m.history[j].ledger) && Secured(m.history[j].ledger, m.pledge)
    ensures !QuarantineName(m.pledge.stamp)
    ensures m.committed
  {
    hide Upholds, Keeps, Standing, Warranted, BackupKept, ReceiptKept, KeyKept, HierarchyKept, Placed, QuarantineName;
    assert Disciplined(m.start, m.pledge, m.committed, m.history[j]);
  }

  /** A whole clean-up, alone and without failures, of a plan that can be secured: it
      commits, and finishes exactly if no two findings are about one name and none lies
      below a top-level directory that is called as the completed receipt is.  Then the originals
      are gone and every other name is as it was. */
  method ApplyAlone(c: Disk, findings: seq<Finding>, stamp: string, secret: nat, umask: nat -> nat)
      returns (receipt: Receipt, done: bool, ghost m: Machine, ghost jobs: seq<Job>)
    requires Quiet(c) && findings != [] && AllCompiled(findings, stamp)
    requires Securable(Survey(c), c.owner, findings, stamp) && forall p :: p % 64 == 0 ==> umask(p) % 64 == 0
    ensures fresh(m) && m.Valid() && m.start == Survey(c) && m.committed && Ran(m, findings, stamp, secret)
    ensures done <==> Separate(Survey(c), findings) && OffReceipt(findings)
    ensures done ==> receipt == Receipt(Complete, stamp, m.pledge.items) && OnlyOriginalsGone(m.start, m.ledger, jobs)
    ensures done ==>
              |jobs| == |findings| &&
              forall i :: 0 <= i < |jobs| ==> Original(jobs[i]) == PlaceOf(Survey(c), findings[i])
  {
    hide Machine.Valid, Quiet, Securable, AllCompiled, Steady, Reached, Separate, OffReceipt, OnlyOriginalsGone,
      Original, PlaceOf, Survey;
    var machine := Boot(c, umask);
    SurveyAlone(c);
    var result; ghost var removals;
    result, done, jobs, removals := Apply(machine, findings, stamp, secret);
    receipt := result.value;
    m := machine;
  }

  lemma SurveyAlone(c: Disk)
    ensures Survey(c).alone && !Survey(c).calm
  {
  }

  /** One directory under one or two names, and one file in it. */
  function OneDirectory(a: string, b: string): Disk {
    Disk(0, 0, 3, map[Key(0, a) := 1, Key(0, b) := 1, Key(1, "x") := 2], {}, {},
         map[0 := Directory(Meta(MODE_0755, 0, 0)), 1 := Directory(Meta(MODE_0755, 0, 0)),
             2 := Regular(Raw("x"), Meta(MODE_0600, 0, 0), true)], {})
  }

  function FileIn(rule: string, dir: string): Finding {
    Finding(rule, [dir], "x", ReviewedFile(Sha256(Raw("x")), 1), Meta(MODE_0600, 0, 0))
  }

  lemma FoundIn(a: string, b: string, rule: string, dir: string, stamp: string)
    requires dir == a || dir == b
    ensures var g := Survey(OneDirectory(a, b));
      && Current(g, FileIn(rule, dir)) && PlaceOf(g, FileIn(rule, dir)) == Key(1, "x")
      && WorkspaceOf(g, FileIn(rule, dir), stamp) == Key(1, QuarantineDirectory(stamp, rule))
      && WorkspaceOf(g, FileIn(rule, dir), stamp) !in g.seen
  {
    var c := OneDirectory(a, b);
    SurveyKeeps(c);
    assert [dir][..0] == [];
    assert Lookup(c.vis, c.nodes, [dir]) == Some(1);
    assert Links(c.vis, 2) == {Key(1, "x")};
    assert QuarantineDirectory(stamp, rule)[0] == QUARANTINE_PREFIX[0] == '.';
  }

  lemma OpenAbove(a: string, b: string, stamp: string)
    requires a != "var" && b != "var"
    ensures Quiet(OneDirectory(a, b)) && MayOpen(Survey(OneDirectory(a, b)), 0, stamp)
  {
    var c := OneDirectory(a, b);
    var g, dirs := Survey(c), BackupDirs(stamp);
    SurveyKeeps(c);
    assert dirs[..0] == [] && dirs[0] == "var" && GoneAt(g, dirs, 0);
    forall n | 1 <= n <= 4 ensures KeptDirectory(g, dirs[..n]).None? {
      assert dirs[..n][..1] == ["var"] && ["var"][..0] == [];
      if KeptDirectory(g, dirs[..n]).Some? { LookupPrefix(KeptNames(g), KeptNodes(g), dirs[..n], 1); }
    }
  }

  /** Two paths of one plan may be one name: this run is secured, and cannot finish. */
  lemma SharedDirectory(stamp: string)
    ensures var c, findings := OneDirectory("a", "b"), [FileIn("one", "a"), FileIn("two", "b")];
      Quiet(c) && Securable(Survey(c), c.owner, findings, stamp) && !Separate(Survey(c), findings)
  {
    hide MayOpen, Current, PlaceOf, WorkspaceOf, Quiet, Survey;
    var g, findings := Survey(OneDirectory("a", "b")), [FileIn("one", "a"), FileIn("two", "b")];
    FoundIn("a", "b", "one", "a", stamp);
    FoundIn("a", "b", "two", "b", stamp);
    OpenAbove("a", "b", stamp);
    assert PlaceOf(g, findings[0]) == PlaceOf(g, findings[1]);
    assert QuarantineDirectory(stamp, "one")[|QUARANTINE_PREFIX + stamp + "-"|..] == "one";
    assert QuarantineDirectory(stamp, "two")[|QUARANTINE_PREFIX + stamp + "-"|..] == "two";
    assert "one"[0] != "two"[0] && PathTo(findings[0])[0] == "a" && PathTo(findings[1])[0] == "b" && "a"[0] != "b"[0];
    assert KEY_NAME[0] == '.' && PENDING[0] == 'r';
  }

  /** A backup may take the name of the completed receipt: the same. */
  lemma ReceiptDirectory(stamp: string)
    ensures var c, findings := OneDirectory(COMPLETE, COMPLETE), [FileIn("one", COMPLETE)];
      Quiet(c) && Securable(Survey(c), c.owner, findings, stamp) && !OffReceipt(findings)
  {
    hide MayOpen, Current, PlaceOf, WorkspaceOf, Quiet, Survey;
    FoundIn(COMPLETE, COMPLETE, "one", COMPLETE, stamp);
    assert COMPLETE[0] != "var"[0];
    OpenAbove(COMPLETE, COMPLETE, stamp);
    assert KEY_NAME[0] == '.' && COMPLETE[0] == 'r' && PENDING[8] == 'p' && COMPLETE[8] == 'j';
  }

  /** The same visible disk once everything on it has reached stable storage. */
  function Settle(d: Disk): Disk {
    d.(stale := {}, moves := {}, dirty := {})
  }

  /** A later survey of the same visible disk. */
  ghost predicate Resurveyed(g: Ledger, s: Ledger) {
    s.seen == g.seen && s.known == g.known && g.kept <= s.kept && g.synced <= s.synced
  }

  lemma ResurveyedRoute(g: Ledger, s: Ledger, dirs: seq<string>)
    requires Resurveyed(g, s) && KeptDirectory(g, dirs).Some? && CleanPath(dirs)
    ensures KeptDirectory(s, dirs) == KeptDirectory(g, dirs)
  {
    LookupStays(KeptNames(g), KeptNodes(g), KeptNames(s), KeptNodes(s), dirs);
  }

  lemma SettledSurvey(d: Disk, g: Ledger)
    requires Upholds(d, g) && g.alone
    ensures Quiet(Settle(d)) && Resurveyed(g, Survey(Settle(d)))
  {
    AloneLists(d, g);
    assert Names(d, g) && Inodes(d, g);
  }

  lemma LevelResurveyed(g: Ledger, s: Ledger, owner: nat, stamp: string, n: nat)
    requires Resurveyed(g, s) && 1 <= n <= 5 && HierarchyLevel(g, owner, stamp, n) && !QuarantineName(stamp)
    ensures HierarchyLevel(s, owner, stamp, n)
  {
    OrdinaryNames();
    ResurveyedRoute(g, s, BackupDirs(stamp)[..n]);
  }

  lemma KeyResurveyed(start: Ledger, g: Ledger, s: Ledger, owner: nat, stamp: string, secret: nat)
    requires Grows(start, g) && Resurveyed(g, s) && !QuarantineName(stamp)
    requires KeptDirectory(start, BackupDirs(stamp)).Some?
    requires KeyThere(start, owner, KeptDirectory(start, BackupDirs(stamp)).value, secret)
    ensures KeptDirectory(s, BackupDirs(stamp)).Some?
    ensures KeyThere(s, owner, KeptDirectory(s, BackupDirs(stamp)).value, secret)
  {
    CleanBackup(stamp, []);
    PlaceStays(start, g, BackupDirs(stamp));
    ResurveyedRoute(g, s, BackupDirs(stamp));
  }

  lemma PresentItem(start: Ledger, g: Ledger, s: Ledger, stamp: string, items: seq<Item>, keys: seq<Key>,
          flags: seq<bool>, i: nat, nonce: string)
    requires Progress(start, g, items, keys, flags) && Resurveyed(g, s) && i < |items| && CleanPath(items[i].dirs)
    requires g.alone
    ensures RestorableItem(s, stamp, items[i], nonce) && Place(s, items[i]) == keys[i] && keys[i] in s.seen
    ensures IsEntry(s, keys[i], items[i].evidence, items[i].meta, 1)
  {
    hide Grows, Fits;
    ResurveyedRoute(g, s, items[i].dirs);
    assert Located(g, items[i], keys[i]) && IsEntry(g, keys[i], items[i].evidence, items[i].meta, 1);
    EntryResurveyed(g, s, keys[i], items[i]);
  }

  lemma EntryResurveyed(g: Ledger, s: Ledger, k: Key, item: Item)
    requires IsEntry(g, k, item.evidence, item.meta, 1) && Resurveyed(g, s) && g.alone
    ensures IsEntry(s, k, item.evidence, item.meta, 1)
  {
  }

  /** A finished Restore leaves a disk on which everything is present. */
  lemma AllPresent(start: Ledger, g: Ledger, s: Ledger, owner: nat, stamp: string, items: seq<Item>, keys: seq<Key>,
          flags: seq<bool>, nonce: string,
                   again: string, secret: nat)
    requires Progress(start, g, items, keys, flags) && Resurveyed(g, s)
    requires Restorable(start, owner, stamp, items, nonce, secret) && g.alone
    requires !QuarantineName(stamp) && forall i :: 0 <= i < |items| ==> CleanPath(items[i].dirs)
    ensures Restorable(s, owner, stamp, items, again, secret)
    ensures forall i :: 0 <= i < |items| ==> Place(s, items[i]) in s.seen
  {
    hide Progress, Resurveyed, RestorableItem, Grows, IsEntry, CleanPath, QuarantineName, HierarchyLevel, NeedsKey,
      KeyThere;
    assert Grows(start, g) by { ProgressGrows(start, g, items, keys, flags); }
    forall n | 1 <= n <= 5 ensures HierarchyLevel(s, owner, stamp, n) {
      LevelGrows(start, g, owner, stamp, n);
      LevelResurveyed(g, s, owner, stamp, n);
    }
    if NeedsKey(items) { KeyResurveyed(start, g, s, owner, stamp, secret); }
    forall i | 0 <= i < |items|
      ensures RestorableItem(s, stamp, items[i], again) && Place(s, items[i]) in s.seen
      ensures IsEntry(s, Place(s, items[i]), items[i].evidence, items[i].meta, 1)
    {
      PresentItem(start, g, s, stamp, items, keys, flags, i, again);
    }
    forall i, j | 0 <= i < |items| && 0 <= j < |items| && SamePlace(s, items[i], items[j])
      ensures Agree(items[i], items[j])
    {
      IsEntryFits(s, Place(s, items[i]), items[i].evidence, items[i].meta, 1);
      IsEntryFits(s, Place(s, items[j]), items[j].evidence, items[j].meta, 1);
    }
  }

  lemma ProgressGrows(start: Ledger, g: Ledger, items: seq<Item>, keys: seq<Key>, flags: seq<bool>)
    requires Progress(start, g, items, keys, flags)
    ensures Grows(start, g)
  {
  }

  /** When every original was there, nothing is restored and no name changes. */
  lemma NothingRestored(start: Ledger, g: Ledger, items: seq<Item>, keys: seq<Key>, flags: seq<bool>)
    requires Progress(start, g, items, keys, flags) &&
             forall i ::
               0 <= i < |items| ==> Place(start, items[i]) in start.seen && KeptDirectory(start, items[i].dirs).Some?
    requires forall i :: 0 <= i < |items| ==> CleanPath(items[i].dirs)
    ensures Picked(items, flags, false) == [] && Picked(items, flags, true) == items && g.seen == start.seen
  {
    hide Grows, IsEntry, CleanPath;
    GrowsSteady(start, g);
    forall i | 0 <= i < |items| ensures keys[i] in start.seen && flags[i] {
      assert Located(g, items[i], keys[i]) && Flagged(start, keys, flags, i);
      PlaceStays(start, g, items[i].dirs);
      PlaceIs(g, items[i], keys[i]);
    }
    PickedAll(items, flags);
    assert forall k :: k in keys ==> k in start.seen;
  }

  /** A second Restore finds every original present, restores nothing and leaves
      every name as it is. */
  method RestoreAgain(ghost r: Machine, c: Disk, rules: map<string, Rule>, receipt: Receipt, nonce: string,
          umask: nat -> nat,
                      ghost first: string, ghost secret: nat, ghost keys: seq<Key>, ghost flags: seq<bool>)
      returns (report: Report, ghost again: Machine)
    requires r.Valid() && r.ledger.alone && c == Settle(r.disk)
    requires Restorable(r.start, c.owner, receipt.stamp, receipt.changes, first, secret)
    requires Progress(r.start, r.ledger, receipt.changes, keys, flags)
    requires CompiledRules(rules) && Accepts(rules, receipt.changes) && !QuarantineName(receipt.stamp)
    requires forall p :: p % 64 == 0 ==> umask(p) % 64 == 0
    ensures report == Report([], receipt.changes) && fresh(again) && again.Valid() && again.ledger.alone
    ensures again.ledger.seen == c.vis
  {
    hide Upholds, Progress, Restorable, Machine.Valid, Steady, Reached, QuarantineName, Keeps, Quiet, Accepts,
      CompiledRules, Resurveyed, Place, CleanPath;
    ValidUpholds(r);
    SettledSurvey(r.disk, r.ledger);
    AcceptedFacts(rules, receipt.changes);
    var stamp, items := receipt.stamp, receipt.changes;
    AllPresent(r.start, r.ledger, Survey(c), c.owner, stamp, items, keys, flags, first, nonce, secret);
    var machine := Boot(c, umask);
    var result; ghost var found, marks;
    result, found, marks := Restore(machine, rules, receipt, nonce, secret);
    RestorablePlaces(Survey(c), c.owner, receipt.stamp, receipt.changes, nonce, secret);
    NothingRestored(Survey(c), machine.ledger, receipt.changes, found, marks);
    report := result.value;
    again := machine;
  }

  lemma RestorablePlaces(g: Ledger, owner: nat, stamp: string, items: seq<Item>, nonce: string, secret: nat)
    requires Restorable(g, owner, stamp, items, nonce, secret)
    ensures forall i :: 0 <= i < |items| ==> KeptDirectory(g, items[i].dirs).Some?
  {
    forall i | 0 <= i < |items| ensures KeptDirectory(g, items[i].dirs).Some? {
      assert RestorableItem(g, stamp, items[i], nonce);
    }
  }

  /** The window in which a restored file still has its temporary name.  At the moment of
      a run that gives it its public name, every crash which keeps that name leaves the
      file under both of its names, so that a fresh Restore does not accept it as the
      present original, whatever the receipt says about it. */
  lemma LinkWindow(m: Machine, j: nat, c: Disk, evidence: Evidence, meta: Meta)
    requires m.Valid() && j < |m.history| && m.history[j].action.Linked? && ImageOf(m.history[j].disk, c)
    requires m.history[j].action.key in c.vis && c.vis[m.history[j].action.key] == m.history[j].action.ino
    ensures var tmp, dst, f := m.history[j].action.from, m.history[j].action.key, m.history[j].action.ino;
      && tmp != dst && {tmp, dst} <= Links(c.vis, f) && |Links(c.vis, f)| > 1
      && f in c.nodes && c.nodes[f].Regular? && c.nodes[f] == m.history[j].disk.nodes[f]
    ensures !IsEntry(Survey(c), m.history[j].action.key, evidence, meta, 1)
  {
    hide Upholds, ImageOf, Standing, Secured, Keeps, Disciplined, Faithful;
    assert Upholds(m.history[j].disk, m.history[j].ledger) && Warranted(m.pledge, m.history, j);
    var tmp, dst, f := m.history[j].action.from, m.history[j].action.key, m.history[j].action.ino;
    CrashKeeps(m.history[j].disk, m.history[j].ledger, c);
    KnownInodes(m.history[j].disk, m.history[j].ledger);
    TwoOrMore(Links(c.vis, f), tmp, dst);
  }

  lemma TwoOrMore(s: set<Key>, a: Key, b: Key)
    requires a in s && b in s && a != b
    ensures |s| > 1
  {
    assert b in s - {a} && |s - {a}| > 0;
  }

  /** A present original is accepted exactly when it is the reviewed entry and, for a
      file, has one name; anything else is refused and stays as it is. */
  method RetryAfterCrash(c: Disk, b: Ino, ghost stamp: string, item: Item, secret: Option<nat>, nonce: string,
          umask: nat -> nat)
        returns (outcome: Outcome)
    requires Quiet(c) && forall p :: p % 64 == 0 ==> umask(p) % 64 == 0
    requires Reached(Survey(c), BackupDirs(stamp), b) && !QuarantineName(stamp) && CleanPath(item.dirs)
    requires !(RESTORE_PREFIX <= item.leaf)
    requires Occupied(Survey(c), item) && HasSecret(item.evidence, secret)
    ensures outcome == AlreadyPresent <==>
              var node := c.nodes[c.vis[Place(Survey(c), item)]];
              Fits(node, item.evidence, item.meta) &&
              (node.Regular? ==> |Links(c.vis, c.vis[Place(Survey(c), item)])| == 1)
    ensures outcome != Restored
  {
    hide Machine.Valid, Steady, Reached, Fits, CleanPath, QuarantineName, Occupied;
    OccupiedFacts(c, item);
    OccupiedItem(Survey(c), stamp, item, nonce);
    var m := Boot(c, umask);
    ghost var dst;
    outcome, dst := RestoreItem(m, b, stamp, item, secret, nonce);
  }

  lemma OccupiedFacts(c: Disk, item: Item)
    requires Quiet(c) && Occupied(Survey(c), item)
    ensures Seen(Survey(c), Place(Survey(c), item))
  {
  }

  /** The name leads to an inode that is exactly the reviewed entry. */
  predicate IsAt(d: Disk, k: Key, i: Ino, evidence: Evidence, meta: Meta) {
    k in d.vis && d.vis[k] == i && i in d.nodes && Fits(d.nodes[i], evidence, meta)
  }

  /** Three moments before an unlink: the inode was, exactly as the plan reviewed it, the
      entry of one of its items under the item's public name; it was renamed from there
      to an unused name; and it was verified under that name. */
  ghost predicate VerifiedTwiceBefore(p: Pledge, history: seq<Moment>, k: Key, i: Ino, j: nat, n: nat, a: nat, b: nat,
          c: nat) {
    && n < |p.items| && 0 < a < b < c < j < |history| && history[a].committed
    && history[b].action.Renamed? && history[b].action.to == k && history[b].action.ino == i
    && k !in history[b - 1].disk.vis
    && IsOriginal(history[a].disk, p.items[n], history[b].action.from)
    && IsAt(history[a].disk, history[b].action.from, i, p.items[n].evidence, p.items[n].meta)
    && history[c].action.Checked? && IsAt(history[c].disk, k, i, p.items[n].evidence, p.items[n].meta)
  }

  /** What lexr may take a name away for: its own work, an entry that was verified twice
      against the plan, or the rename of an original of the plan. */
  ghost predicate MayVanish(m: Machine, j: nat, k: Key, i: Ino)
    requires j < |m.history|
    reads m
  {
    var now := m.history[j];
    || (now.action.Removed? && now.action.key == k && i in now.ledger.made)
    || (now.action.Renamed? && now.action.from == k && now.action.ino == i && now.committed
        && now.action.sighted < j && Spotted(m.pledge, m.history[now.action.sighted], now.action.item, k))
    || exists n: nat, a: nat, b: nat, c: nat :: VerifiedTwiceBefore(m.pledge, m.history, k, i, j, n, a, b, c)
  }

  lemma ReviewedIsVerified(m: Machine, j: nat, k: Key, i: Ino)
    requires m.Valid() && j < |m.history| && m.history[j].action.Removed? && m.history[j].action.key == k
    requires m.history[j].action.ino == i
    requires m.history[j].action.warrant.Reviewed?
    ensures exists n: nat, a: nat, b: nat, c: nat :: VerifiedTwiceBefore(m.pledge, m.history, k, i, j, n, a, b, c)
  {
    hide Upholds, Disciplined, Standing, Secured, Keeps, Faithful, SameEntry, VerifiedTwiceBefore;
    var warrant := m.history[j].action.warrant;
    var n, a, b, c := warrant.item, warrant.before, warrant.rename, warrant.after;
    assert Warranted(m.pledge, m.history, j);
    SightedIsLater(m.pledge, n, m.history[0], m.history[a], m.history[b], m.history[c], k, i);
    assert Faithful(m.others, m.history[a - 1], m.history[a]) && Faithful(m.others, m.history[b - 1], m.history[b]);
    assert Faithful(m.others, m.history[c - 1], m.history[c]);
    SameEntryIsVerified(m.others, m.pledge, m.history, k, i, j, n, a, b, c);
  }

  lemma SightedIsLater(p: Pledge, n: nat, first: Moment, a: Moment, b: Moment, c: Moment, k: Key, i: Ino)
    requires SameEntry(p, n, a, b, c, k, i) && first.action.Noted?
    ensures a != first
  {
  }

  lemma SameEntryIsVerified(others: Environment, p: Pledge, h: seq<Moment>, k: Key, i: Ino, j: nat, n: nat, a: nat,
          b: nat, c: nat)
    requires 0 < a < b < c < j < |h| && SameEntry(p, n, h[a], h[b], h[c], k, i)
    requires Faithful(others, h[a - 1], h[a]) && Faithful(others, h[b - 1], h[b]) && Faithful(others, h[c - 1], h[c])
    ensures VerifiedTwiceBefore(p, h, k, i, j, n, a, b, c)
  {
    hide Fits, Outline, IsOriginal, Untampered, SameProcess;
  }

  /** What counts as lexr's own work was created by it under a free name. */
  lemma {:induction false} OwnWorkIsMade(m: Machine, j: nat, i: Ino)
    requires m.Valid() && j < |m.history| && i in m.history[j].ledger.made
    ensures exists a: nat :: 0 < a <= j && CreatedAt(m.history, a, i)
    decreases j
  {
    hide Upholds, Disciplined, Warranted, Standing, Secured, Keeps, Untampered;
    if j > 0 {
      assert Faithful(m.others, m.history[j - 1], m.history[j]);
      if i in m.history[j - 1].ledger.made {
        OwnWorkIsMade(m, j - 1, i);
      } else {
        assert CreatedAt(m.history, j, i);
      }
    }
  }

  ghost predicate CreatedAt(history: seq<Moment>, a: nat, i: Ino) {
    && 0 < a < |history| && history[a].action.Made? && history[a].action.ino == i
    && i !in history[a - 1].disk.nodes && history[a].action.key !in history[a - 1].disk.vis
  }

  /** What other processes did to a name between two moments. */
  lemma ElsewhereIsPublic(m: Machine, j: nat, k: Key)
    requires m.Valid() && 0 < j < |m.history| && m.history[j].action.Elsewhere?
    requires View(m.history[j].disk.vis, k) != View(m.history[j - 1].disk.vis, k)
    ensures OthersChanged(m, j, k)
  {
    hide Names, Sole, Empty, Inodes, Ledgers.Found, Ledgers.Complete, Calm, Disciplined, Warranted, Standing, Secured,
      Keeps;
    assert Faithful(m.others, m.history[j - 1], m.history[j]);
    assert Upholds(m.history[j - 1].disk, m.history[j - 1].ledger);
    var n :| m.history[j].disk == m.others(n, m.history[j - 1].disk);
    assert Interference(m.history[j - 1].disk, m.others(n, m.history[j - 1].disk));
  }

  /** The step was other processes' and the name is a public leaf, which nobody else
      could change if lexr were alone. */
  ghost predicate OthersChanged(m: Machine, j: nat, k: Key)
    requires 0 < j < |m.history|
    reads m
  {
    m.history[j].action.Elsewhere? && ActedElsewhere(m.others, m.history[j - 1].disk, m.history[j].disk) &&
    !m.Alone() &&
    PublicLeaf(m.history[j - 1].disk, k)
  }

  /** No name ever vanishes by lexr's hand but those of its own work, of originals that
      the plan names and that were just sighted there, and of quarantined entries whose
      inode was verified against that item of the plan on both sides of its rename.
      Whatever else vanishes is a public leaf that another process took. */
  lemma OnlyVerifiedIsUnlinked(m: Machine, j: nat, k: Key)
    requires m.Valid() && 0 < j < |m.history| && k in m.history[j - 1].disk.vis && k !in m.history[j].disk.vis
    ensures MayVanish(m, j, k, m.history[j - 1].disk.vis[k]) || OthersChanged(m, j, k)
  {
    hide Upholds, Keeps, Standing, Secured, Spotted, Untampered, SameEntry, OthersChanged;
    var now := m.history[j];
    if now.action.Elsewhere? {
      ElsewhereIsPublic(m, j, k);
    } else {
      assert Faithful(m.others, m.history[j - 1], now) && Warranted(m.pledge, m.history, j) &&
             Disciplined(m.start, m.pledge, m.committed, now);
      if now.action.Removed? && now.action.warrant.Reviewed? {
        ReviewedIsVerified(m, j, k, m.history[j - 1].disk.vis[k]);
      }
    }
  }

  /** A name that is there before and after a step leads to the same inode, unless it is a
      public leaf that another process replaced: creating, linking and renaming never
      replace anything. */
  lemma NothingIsReplaced(m: Machine, j: nat, k: Key)
    requires m.Valid() && 0 < j < |m.history| && k in m.history[j - 1].disk.vis && k in m.history[j].disk.vis
    ensures m.history[j].disk.vis[k] == m.history[j - 1].disk.vis[k] || OthersChanged(m, j, k)
  {
    hide Upholds, Keeps, Standing, Secured, Warranted, Disciplined, Untampered, OthersChanged;
    if m.history[j].action.Elsewhere? {
      if m.history[j].disk.vis[k] != m.history[j - 1].disk.vis[k] { ElsewhereIsPublic(m, j, k); }
    } else {
      assert Faithful(m.others, m.history[j - 1], m.history[j]);
    }
  }

  /** No inode that lexr did not make is ever changed or lost. */
  lemma NothingIsRewritten(m: Machine, j: nat, i: Ino)
    requires m.Valid() && 0 < j < |m.history| && i in m.history[j - 1].disk.nodes && i !in m.history[j].ledger.made
    ensures i in m.history[j].disk.nodes && m.history[j].disk.nodes[i] == m.history[j - 1].disk.nodes[i]
  {
    hide Names, Sole, Empty, Inodes, Ledgers.Found, Ledgers.Complete, Calm, Keeps, Standing, Secured, Warranted,
      Disciplined, Shown;
    assert Faithful(m.others, m.history[j - 1], m.history[j]) &&
           Upholds(m.history[j - 1].disk, m.history[j - 1].ledger);
    if m.history[j].action.Elsewhere? {
      var n :| m.history[j].disk == m.others(n, m.history[j - 1].disk);
      assert Interference(m.history[j - 1].disk, m.others(n, m.history[j - 1].disk));
    }
  }

  /** A plan for compiled rules: each finding lies where its rule says, and is private
      exactly where the rule is. */
  predicate Planned(rules: map<string, Rule>, findings: seq<Finding>) {
    && (forall i :: 0 <= i < |findings| ==> PlannedFinding(rules, findings[i]))
    && (forall i, j :: 0 <= i < j < |findings| ==> findings[i].rule != findings[j].rule)
  }

  predicate PlannedFinding(rules: map<string, Rule>, f: Finding) {
    && f.rule in rules && f.dirs == rules[f.rule].dirs && f.leaf == rules[f.rule].leaf && f.meta.mode <= MODE_0777
    && match f.reviewed
       case ReviewedFile(_, _) => !rules[f.rule].isPrivate
       case ReviewedPrivateFile(_) => rules[f.rule].isPrivate
       case ReviewedLink(target) => target != ""
  }

  /** What a run writes for a planned finding is what the validator accepts. */
  lemma WrittenIsAccepted(rules: map<string, Rule>, findings: seq<Finding>, changes: seq<Item>, stamp: string,
          secret: nat)
    requires Planned(rules, findings) && |changes| == |findings|
    requires forall i :: 0 <= i < |findings| ==> Describes(changes[i], findings[i], stamp, secret)
    ensures Accepts(rules, changes)
  {
    forall i | 0 <= i < |changes| ensures AcceptsItem(rules, changes[i]) && changes[i].rule == findings[i].rule {
      assert PlannedFinding(rules, findings[i]) && Describes(changes[i], findings[i], stamp, secret);
      var name := QuarantineDirectory(stamp, findings[i].rule);
      assert name[|name| - |"-" + findings[i].rule|..] == "-" + findings[i].rule;
    }
  }
}
