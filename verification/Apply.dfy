/** Applying a reviewed clean-up plan.  Once every entry is backed up and a receipt
    is durable, each original is verified, renamed into its quarantine, verified
    again and unlinked; the completed receipt then supersedes the pending one. */
module CleanupApply {
  import opened Wrappers
  import opened CleanupTypes
  import opened Disks
  import opened Ledgers
  import opened Pledges
  import opened Machines
  import opened CleanupSteps
  import opened CleanupRoutes
  import opened CleanupBackup

  function Items(jobs: seq<Job>): (items: seq<Item>)
    ensures |items| == |jobs| && forall i :: 0 <= i < |jobs| ==> items[i] == jobs[i].item
  {
    seq(|jobs|, i requires 0 <= i < |jobs| => jobs[i].item)
  }

  function Quarantined(job: Job): Key {
    Key(job.quarantine, job.item.leaf)
  }

  /** Renamed originals never came from the vault or from a quarantine. */
  ghost predicate MovedClear(g: Ledger, vault: set<Ino>) {
    forall k :: k in g.moved ==> k.dir !in vault && !Quarantine(g, k.dir)
  }

  /** The job may begin. */
  ghost predicate Staged(g: Ledger, job: Job, stamp: string, vault: set<Ino>) {
    Ready(g, job) && CompiledPath(job.item.dirs, job.item.leaf, stamp) && job.parent !in vault &&
    !Quarantine(g, job.parent)
  }

  /** The original that was just verified is nobody's private file. */
  lemma OriginalIsPublic(d: Disk, g: Ledger, job: Job, stamp: string, vault: set<Ino>, i: Ino)
    requires Upholds(d, g) && Shelter(g, stamp, vault) && job.parent !in vault
    requires Original(job) in d.vis && d.vis[Original(job)] == i && i in d.nodes && !d.nodes[i].Directory?
    ensures i !in g.sole && !NamesDirectory(d, Original(job))
  {
    hide Upholds;
    SeenNames(d, g);
    KnownInodes(d, g);
    SoundLedger(d, g);
  }

  /** The opened parent is where the item's path leads. */
  lemma OriginalIsThere(d: Disk, g: Ledger, job: Job, stamp: string, vault: set<Ino>)
    requires Upholds(d, g) && Staged(g, job, stamp, vault)
    ensures IsOriginal(d, job.item, Original(job))
  {
    hide Upholds;
    SeenNames(d, g);
    KnownInodes(d, g);
    CompiledPathIsClean(job.item.dirs, job.item.leaf, stamp);
    LookupStays(KeptNames(g), KeptNodes(g), d.vis, d.nodes, job.item.dirs);
  }

  lemma OutlineIsLeaf(node: Node, evidence: Evidence, meta: Meta)
    requires Outline(node, evidence, meta)
    ensures !node.Directory?
  {
  }

  /** When calm, the pledge says where the original is. */
  lemma CalmOriginal(g: Ledger, p: Pledge, n: nat, job: Job, stamp: string, vault: set<Ino>)
    requires Secured(g, p) && Ordered(g) && g.calm && n < |p.items| && p.items[n] == job.item
    requires Staged(g, job, stamp, vault)
    requires MovedClear(g, vault) && Original(job) in g.seen
    ensures CalmRename(g, Original(job), Quarantined(job), g.seen[Original(job)])
  {
    assert Placed(g, p.items[n]);
    assert Quarantine(g, job.quarantine);
  }

  lemma StagedFacts(g: Ledger, job: Job, stamp: string, vault: set<Ino>)
    requires Staged(g, job, stamp, vault)
    ensures Original(job).dir != Quarantined(job).dir && job.quarantine in g.empty && job.quarantine in g.known
    ensures job.parent in g.known
    ensures Quarantine(g, job.quarantine) && job.quarantine in g.made && job.quarantine in g.sole
    ensures !QuarantineName(job.item.leaf)
    ensures job.item.quarantine.Some? && Workspace(job) in g.seen && g.seen[Workspace(job)] == job.quarantine
    ensures QuarantineName(Workspace(job).name) && job.parent !in vault
  {
  }

  /** The ledger after the original was renamed and both directories were synced. */
  function InQuarantine(g: Ledger, from: Key, to: Key, i: Ino, node: Node): Ledger {
    NoteSync(NoteSync(NoteRename(g, from, to, i, node), from.dir), to.dir)
  }

  /** The warrant is for this very job. */
  ghost predicate Warrants(p: Pledge, history: seq<Moment>, job: Job, i: Ino, warrant: Warrant) {
    && VerifiedTwice(p, history, Quarantined(job), i, warrant) && p.items[warrant.item] == job.item
    && history[warrant.rename].action.from == Original(job)
  }

  ghost predicate Moving(g: Ledger, from: Key, to: Key, i: Ino, node: Node) {
    && !node.Directory? && i !in g.sole && to !in g.seen
    && (i in g.known ==> g.known[i] == node) && (from in g.seen ==> g.seen[from] == i)
  }

  lemma InQuarantineFacts(g: Ledger, from: Key, to: Key, i: Ino, node: Node)
    requires from != to
    ensures var h := InQuarantine(g, from, to, i, node);
      && to in h.seen && h.seen[to] == i && h.seen == (g.seen - {from})[to := i] && h.known == g.known[i := node]
      && h.sole == g.sole && h.made == g.made && h.calm == g.calm && h.birth == g.birth
      && (g.calm ==> i in h.gone)
  {
  }

  /** What is known about an original at the moment its verification ended. */
  ghost predicate Sighting(g: Ledger, now: Disk, moment: Moment, job: Job, i: Ino) {
    && IsOriginal(now, job.item, Original(job))
    && moment == Moment(now, g, Sighted(Original(job), i, job.item.evidence, job.item.meta), true)
    && i !in g.sole && !NamesDirectory(now, Original(job)) && i in now.nodes && !now.nodes[i].Directory?
    && Original(job) in now.vis && now.vis[Original(job)] == i
    && (i in g.known ==> g.known[i] == now.nodes[i]) && (Original(job) in g.seen ==> g.seen[Original(job)] == i)
  }

  /** Nothing keeps this job's original from being removed. */
  ghost predicate Removable(m: Machine, g: Ledger, job: Job, secret: nat) {
    m.Faultless() && g.alone && ThereFor(g, job, secret)
  }

  /** Verifies the original under its public name. */
  method VerifyOriginal(m: Machine, job: Job, secret: nat, ghost n: nat, ghost stamp: string, ghost vault: set<Ino>)
      returns (ino: Option<Ino>, ghost first: nat)
    requires m.Valid() && m.committed && n < |m.pledge.items| && m.pledge.items[n] == job.item
    requires Staged(m.ledger, job, stamp, vault) && Shelter(m.ledger, stamp, vault) && MovedClear(m.ledger, vault)
    modifies m
    ensures m.Valid() && m.OnlyRead()
    ensures ino.Some? ==> first < |m.history| && Sighting(m.ledger, m.disk, m.history[first], job, ino.value)
    ensures ino.Some? && m.ledger.calm ==>
              Original(job) in m.ledger.seen &&
              CalmRename(m.ledger, Original(job), Quarantined(job), m.ledger.seen[Original(job)])
    ensures ino.Some? && m.ledger.alone ==> Original(job) in m.ledger.seen
    ensures Removable(m, m.ledger, job, secret) ==> ino.Some?
  {
    hide Machine.Valid, Passed, Upholds, Staged, Shelter, MovedClear, Secured, Ordered, CalmRename, Fits, Outline,
      IsEntry, IsOriginal, HasSecret;
    var from := Original(job);
    ghost var g := m.ledger;
    first := 0;
    StagedFacts(g, job, stamp, vault);
    ino := VerifyEntry(m, from, job.item.evidence, job.item.meta, Some(secret), 1, true);
    if ino.None? { return; }
    OutlineIsLeaf(m.disk.nodes[ino.value], job.item.evidence, job.item.meta);
    ValidUpholds(m);
    OriginalIsPublic(m.disk, g, job, stamp, vault, ino.value);
    OriginalIsThere(m.disk, g, job, stamp, vault);
    KnownInodes(m.disk, g);
    SeenNames(m.disk, g);
    first := m.Sight(from, ino.value, job.item.evidence, job.item.meta);
    if g.calm {
      ValidSecured(m);
      CalmOriginal(g, m.pledge, n, job, stamp, vault);
    }
  }

  /** Verifies the renamed entry inside its quarantine. */
  method VerifyQuarantined(m: Machine, job: Job, secret: nat, i: Ino) returns (ok: bool, ghost last: nat)
    requires m.Valid() && Seen(m.ledger, Quarantined(job))
    modifies m
    ensures m.Valid() && m.OnlyRead()
    ensures ok ==>
              m.ledger.seen[Quarantined(job)] == i &&
              Fits(NodeAt(m.ledger, Quarantined(job)), job.item.evidence, job.item.meta)
    ensures ok ==>
              |old(m.history)| <= last < |m.history| &&
              m.history[last].action == Checked(Quarantined(job), i, job.item.evidence, job.item.meta)
    ensures m.Faultless() && m.ledger.alone && HasSecret(job.item.evidence, Some(secret)) &&
            IsEntry(m.ledger, Quarantined(job), job.item.evidence, job.item.meta, 1) &&
            m.ledger.seen[Quarantined(job)] == i ==>
              ok
  {
    hide Machine.Valid, Passed, Upholds, Fits, Outline, IsEntry, HasSecret;
    var to := Quarantined(job);
    ok, last := false, 0;
    var after := VerifyEntry(m, to, job.item.evidence, job.item.meta, Some(secret), 1, true);
    if after != Some(i) { return; }
    ValidUpholds(m);
    KnownInodes(m.disk, m.ledger);
    SeenNames(m.disk, m.ledger);
    IsEntryFits(m.ledger, to, job.item.evidence, job.item.meta, 1);
    last := m.Check(to, i, job.item.evidence, job.item.meta);
    ok := true;
  }

  /** Verifies the original, moves it into its quarantine, and verifies it there. */
  method QuarantineItem(m: Machine, job: Job, secret: nat, ghost n: nat, ghost stamp: string, ghost vault: set<Ino>)
      returns (ok: bool, ghost i: Ino, ghost node: Node, ghost warrant: Warrant)
    requires m.Valid() && m.committed && n < |m.pledge.items| && m.pledge.items[n] == job.item
    requires Staged(m.ledger, job, stamp, vault) && Shelter(m.ledger, stamp, vault) && MovedClear(m.ledger, vault)
    modifies m
    ensures m.Valid() && m.committed && m.pledge == old(m.pledge) && m.Onward()
    ensures ok ==> Moving(old(m.ledger), Original(job), Quarantined(job), i, node)
    ensures ok ==> m.ledger == InQuarantine(old(m.ledger), Original(job), Quarantined(job), i, node)
    ensures ok ==> Warrants(m.pledge, m.history, job, i, warrant)
    ensures ok && old(m.ledger).alone ==> Original(job) in old(m.ledger).seen
    ensures Removable(m, old(m.ledger), job, secret) ==> ok
  {
    hide Machine.Valid, Passed, Upholds, Staged, Shelter, MovedClear, Secured, Ordered, NoteRename, NoteSync,
      CalmRename, Fits, IsOriginal, IsEntry, HasSecret;
    var from, to := Original(job), Quarantined(job);
    ghost var g := m.ledger;
    ok, i, node, warrant := false, 0, Special, Warrant.OwnWork;
    StagedFacts(g, job, stamp, vault);
    var before, first := VerifyOriginal(m, job, secret, n, stamp, vault);
    if before.None? { return; }
    i := before.value;
    NotYetNamed(m, to);
    var moved := m.Rename(from, to, n, first);
    if moved.None? { return; }
    node := m.disk.nodes[moved.value];
    ghost var second := |m.history| - 1;
    InQuarantineFacts(g, from, to, moved.value, node);
    if Removable(m, g, job, secret) { MovedIsEntry(g, from, to, moved.value, node, job.item.evidence, job.item.meta); }
    ok := m.SyncDirectory(from.dir);
    if !ok { return; }
    ok := m.SyncDirectory(to.dir);
    if !ok { return; }
    ghost var third;
    ok, third := VerifyQuarantined(m, job, secret, before.value);
    warrant := Reviewed(n, first, second, third);
  }

  /** A renamed entry that nobody else changed is what it was. */
  lemma MovedIsEntry(g: Ledger, from: Key, to: Key, i: Ino, node: Node, evidence: Evidence, meta: Meta)
    requires IsEntry(g, from, evidence, meta, 1) && Moving(g, from, to, i, node) && from != to && g.seen[from] == i
    ensures IsEntry(InQuarantine(g, from, to, i, node), to, evidence, meta, 1)
  {
    hide InQuarantine, Fits;
    InQuarantineFacts(g, from, to, i, node);
    var h := InQuarantine(g, from, to, i, node);
    InQuarantineAlone(g, from, to, i, node);
    if g.alone && node.Regular? {
      forall k | k in Links(h.seen, i) ensures k == to {
        if k != to { OneName(g.seen, from, k); }
      }
      assert Links(h.seen, i) == {to};
    }
  }

  lemma InQuarantineAlone(g: Ledger, from: Key, to: Key, i: Ino, node: Node)
    ensures InQuarantine(g, from, to, i, node).alone == g.alone
  {
  }

  lemma ValidSecured(m: Machine)
    requires m.Valid() && m.committed
    ensures Secured(m.ledger, m.pledge) && Ordered(m.ledger)
    ensures m.ledger.calm ==> m.ledger.alone
  {
    hide Upholds, Secured, Recorded, Ordered, Keeps;
    LedgerIsOrdered(m.disk, m.ledger);
    CalmIsAlone(m.disk, m.ledger);
  }

  lemma NotYetNamed(m: Machine, k: Key)
    requires m.Valid() && k.dir in m.ledger.empty
    ensures k !in m.ledger.seen
  {
    hide Upholds, Secured, Recorded, Ordered, Keeps;
    SeenNames(m.disk, m.ledger);
  }

  /** The ledger after the quarantined entry and its directory were removed. */
  function Emptied(h: Ledger, to: Key, ws: Key): Ledger {
    NoteSync(NoteEntry(NoteSync(NoteEntry(h, to, None, true), to.dir), ws, None, true), ws.dir)
  }

  lemma QuarantinedMayGo(g: Ledger, h: Ledger, p: Pledge, job: Job, i: Ino, node: Node, stamp: string, vault: set<Ino>)
    requires Staged(g, job, stamp, vault) && Moving(g, Original(job), Quarantined(job), i, node)
    requires h == InQuarantine(g, Original(job), Quarantined(job), i, node) && Secured(h, p) && Ordered(h)
    ensures Secured(NoteEntry(h, Quarantined(job), None, true), p)
    ensures Quarantined(job) in h.seen && h.seen[Quarantined(job)] == i && job.quarantine in h.known
    ensures h.calm ==> CalmRemove(h, Quarantined(job))
  {
    hide Secured, Ordered, Staged;
    StagedFacts(g, job, stamp, vault);
    InQuarantineFacts(g, Original(job), Quarantined(job), i, node);
    SecuredRemove(h, p, Quarantined(job));
  }

  lemma WorkspaceMayGo(g: Ledger, h: Ledger, p: Pledge, job: Job, i: Ino, node: Node, stamp: string, vault: set<Ino>)
    requires Staged(g, job, stamp, vault) && Moving(g, Original(job), Quarantined(job), i, node)
    requires h == NoteSync(NoteEntry(InQuarantine(g, Original(job), Quarantined(job), i, node), Quarantined(job), None,
                                     true), job.quarantine)
    requires Secured(h, p) && Ordered(h)
    ensures Secured(NoteEntry(h, Workspace(job), None, true), p)
    ensures Workspace(job) in h.seen && h.seen[Workspace(job)] == job.quarantine && job.quarantine in h.made
    ensures job.parent in h.known
    ensures h.calm ==> CalmRemove(h, Workspace(job))
  {
    hide Secured, Staged, InQuarantine, NoteSync;
    StagedFacts(g, job, stamp, vault);
    InQuarantineFacts(g, Original(job), Quarantined(job), i, node);
    SyncFacts(NoteEntry(InQuarantine(g, Original(job), Quarantined(job), i, node), Quarantined(job), None, true),
              job.quarantine);
    SecuredRemove(h, p, Workspace(job));
  }

  /** The moment in which a job's entry was unlinked. */
  ghost predicate RemovedAt(p: Pledge, history: seq<Moment>, job: Job, at: nat) {
    && at < |history| && history[at].action.Removed? && history[at].action.key == Quarantined(job)
    && history[at].action.warrant.Reviewed?
    && Warrants(p, history[..at], job, history[at].action.ino, history[at].action.warrant)
  }

  /** Unlinks the quarantined entry and then its empty directory. */
  method UnlinkItem(m: Machine, job: Job, ghost g: Ledger, ghost i: Ino, ghost node: Node, ghost warrant: Warrant,
          ghost stamp: string, ghost vault: set<Ino>)
      returns (ok: bool, ghost at: nat)
    requires m.Valid() && m.committed && Staged(g, job, stamp, vault)
    requires Moving(g, Original(job), Quarantined(job), i, node)
    requires m.ledger == InQuarantine(g, Original(job), Quarantined(job), i, node)
    requires Warrants(m.pledge, m.history, job, i, warrant)
    modifies m
    ensures m.Valid() && m.committed && m.pledge == old(m.pledge) && m.Onward()
    ensures ok ==>
              m.ledger == Emptied(old(m.ledger), Quarantined(job), Workspace(job)) &&
              RemovedAt(m.pledge, m.history, job, at)
    ensures m.Faultless() && g.alone && EmptyRoom(g, job) ==> ok
  {
    hide Machine.Valid, Passed, Upholds, Staged, Secured, Ordered, NoteSync, NoteEntry, Fits, InQuarantine, SameEntry;
    StagedFacts(g, job, stamp, vault);
    var to, ws := Quarantined(job), Workspace(job);
    ValidSecured(m);
    QuarantinedMayGo(g, m.ledger, m.pledge, job, i, node, stamp, vault);
    IsLeaf(g, job, i, node);
    ok := m.Remove(to, warrant);
    at := |m.history| - 1;
    if !ok {
      LeafIsRemovable(m, to);
      return;
    }
    assert RemovedAt(m.pledge, m.history, job, at);
    ghost var seen := m.history;
    ok := DropWorkspace(m, job, g, i, node, stamp, vault);
    assert m.history[..at + 1] == seen[..at + 1];
  }

  /** Nothing is listed in the job's quarantine. */
  ghost predicate EmptyRoom(g: Ledger, job: Job) {
    forall k :: k in g.seen ==> k.dir != job.quarantine
  }

  lemma IsLeaf(g: Ledger, job: Job, i: Ino, node: Node)
    requires Moving(g, Original(job), Quarantined(job), i, node) && Original(job) != Quarantined(job)
    ensures var h := InQuarantine(g, Original(job), Quarantined(job), i, node);
      Seen(h, Quarantined(job)) && !NodeAt(h, Quarantined(job)).Directory?
  {
    hide InQuarantine;
    InQuarantineFacts(g, Original(job), Quarantined(job), i, node);
  }

  lemma RoomStaysEmpty(g: Ledger, job: Job, i: Ino, node: Node)
    requires EmptyRoom(g, job)
    ensures var h := NoteSync(NoteEntry(InQuarantine(g, Original(job), Quarantined(job), i, node), Quarantined(job),
                                        None, true), job.quarantine);
      EmptyRoom(h, job) && h.alone == g.alone
  {
  }

  /** Syncs the unlink, and removes the directory that is empty now. */
  method DropWorkspace(m: Machine, job: Job, ghost g: Ledger, ghost i: Ino, ghost node: Node, ghost stamp: string,
          ghost vault: set<Ino>)
        returns (ok: bool)
    requires m.Valid() && m.committed && Staged(g, job, stamp, vault)
    requires Moving(g, Original(job), Quarantined(job), i, node)
    requires m.ledger == NoteEntry(InQuarantine(g, Original(job), Quarantined(job), i, node), Quarantined(job), None,
                                   true)
    modifies m
    ensures m.Valid() && m.committed && m.pledge == old(m.pledge) && m.Onward()
    ensures ok ==>
              m.ledger == Emptied(InQuarantine(g, Original(job), Quarantined(job), i, node), Quarantined(job),
                                  Workspace(job))
    ensures m.Faultless() && g.alone && EmptyRoom(g, job) ==> ok
  {
    hide Machine.Valid, Passed, Upholds, Staged, Secured, Ordered, NoteSync, NoteEntry, Fits, InQuarantine, SameEntry,
      Longer;
    HistoryGrows();
    var ws := Workspace(job);
    ok := m.SyncDirectory(Quarantined(job).dir);
    if !ok { return; }
    ValidSecured(m);
    WorkspaceMayGo(g, m.ledger, m.pledge, job, i, node, stamp, vault);
    var look := m.Inspect(ws);
    ok := look.Found? && look.ino == job.quarantine;
    if !ok { return; }
    if EmptyRoom(g, job) { RoomStaysEmpty(g, job, i, node); }
    ok := m.Remove(ws, Warrant.OwnWork);
    if !ok {
      if g.alone && EmptyRoom(g, job) { RoomIsEmpty(m, ws); }
      return;
    }
    ok := m.SyncDirectory(ws.dir);
  }

  /** What removing one original changed in the ledger. */
  ghost predicate Drains(g: Ledger, h: Ledger, job: Job, i: Ino, node: Node) {
    && h.calm == g.calm && h.alone == g.alone && h.birth == g.birth
    && h.seen == g.seen - {Original(job), Workspace(job)}
    && (forall k :: k in g.kept && k in h.seen ==> k in h.kept)
    && h.known == g.known[i := node] && g.synced <= h.synced && h.sole == g.sole && h.made == g.made
    && (forall j :: j in g.empty && j != job.quarantine ==> j in h.empty)
    && (forall k :: k in h.moved ==> k in g.moved || k == Original(job))
  }

  lemma DrainedFacts(g: Ledger, job: Job, i: Ino, node: Node, stamp: string, vault: set<Ino>)
    requires Staged(g, job, stamp, vault) && Moving(g, Original(job), Quarantined(job), i, node) && Sound(g)
    ensures var h := InQuarantine(g, Original(job), Quarantined(job), i, node);
      Drains(g, Emptied(h, Quarantined(job), Workspace(job)), job, i, node)
  {
    StagedFacts(g, job, stamp, vault);
  }

  lemma DrainStands(g: Ledger, h: Ledger, job: Job, i: Ino, node: Node)
    requires QuarantineName(Workspace(job).name)
    requires Drains(g, h, job, i, node) && Moving(g, Original(job), Quarantined(job), i, node) && Sound(g)
    ensures Stands(g, h, None)
  {
  }

  lemma DrainShelter(g: Ledger, h: Ledger, job: Job, i: Ino, node: Node, stamp: string, vault: set<Ino>)
    requires Staged(g, job, stamp, vault)
    requires Drains(g, h, job, i, node) && Moving(g, Original(job), Quarantined(job), i, node) && Sound(g)
    requires Shelter(g, stamp, vault) && MovedClear(g, vault) && Steady(g)
    ensures Shelter(h, stamp, vault) && MovedClear(h, vault) && Steady(h)
  {
    StagedFacts(g, job, stamp, vault);
  }

  lemma RootedStands(g: Ledger, h: Ledger, owner: nat, stamp: string, b: Ino)
    requires Rooted(g, owner, stamp, b) && Stands(g, h, None) && !QuarantineName(stamp)
    ensures Rooted(h, owner, stamp, b)
  {
    OrdinaryNames();
    CleanHierarchy(stamp, 4);
    DirectoryStands(g, h, BackupDirs(stamp), None);
    forall n | 1 <= n <= 5 ensures HierarchyLevel(h, owner, stamp, n) {
      assert HierarchyLevel(g, owner, stamp, n);
      DirectoryStands(g, h, BackupDirs(stamp)[..n], None);
    }
  }

  lemma DrainStaged(g: Ledger, h: Ledger, job: Job, i: Ino, node: Node, other: Job, stamp: string, vault: set<Ino>)
    requires Staged(g, job, stamp, vault) && Staged(g, other, stamp, vault) && other.quarantine != job.quarantine
    requires Drains(g, h, job, i, node) && Moving(g, Original(job), Quarantined(job), i, node) && Stands(g, h, None)
    ensures Staged(h, other, stamp, vault)
  {
    StagedFacts(g, job, stamp, vault);
    StagedFacts(g, other, stamp, vault);
    CompiledPathIsClean(other.item.dirs, other.item.leaf, stamp);
    DirectoryStands(g, h, other.item.dirs, None);
    assert Workspace(other) != Workspace(job) && Workspace(other) != Original(job);
  }

  lemma CompiledPathIsClean(dirs: seq<string>, leaf: string, stamp: string)
    requires CompiledPath(dirs, leaf, stamp)
    ensures CleanPath(dirs)
  {
  }

  /** What stays true while originals are removed one after another. */
  ghost predicate Draining(g: Ledger, owner: nat, b: Ino, vault: set<Ino>, jobs: seq<Job>, done: nat, p: Pledge) {
    && Vaulted(g, owner, p.stamp, b, vault) && MovedClear(g, vault)
    && FileKept(g, p.stamp, PENDING, ReceiptFile(Receipt(Prepared, p.stamp, p.items)), p.owner)
    && (forall j :: done <= j < |jobs| ==> Staged(g, jobs[j], p.stamp, vault))
  }

  ghost predicate Distinct(jobs: seq<Job>) {
    forall i, j :: 0 <= i < j < |jobs| ==> jobs[i].quarantine != jobs[j].quarantine
  }

  lemma DrainOne(g: Ledger, h: Ledger, owner: nat, b: Ino, vault: set<Ino>, jobs: seq<Job>, n: nat, p: Pledge, i: Ino,
          node: Node)
    requires Draining(g, owner, b, vault, jobs, n, p) && n < |jobs| && Distinct(jobs) && Sound(g)
    requires !QuarantineName(p.stamp)
    requires Moving(g, Original(jobs[n]), Quarantined(jobs[n]), i, node)
    requires Drains(g, h, jobs[n], i, node)
    ensures Draining(h, owner, b, vault, jobs, n + 1, p)
  {
    hide Drains, Moving, Shelter, MovedClear, Steady, Rooted, Staged, FileKept, Stands, Sound;
    StagedFacts(g, jobs[n], p.stamp, vault);
    DrainStands(g, h, jobs[n], i, node);
    DrainShelter(g, h, jobs[n], i, node, p.stamp, vault);
    RootedStands(g, h, owner, p.stamp, b);
    OrdinaryNames();
    FileKeptStands(g, h, p.stamp, PENDING, ReceiptFile(Receipt(Prepared, p.stamp, p.items)), p.owner, None);
    forall j | n + 1 <= j < |jobs| ensures Staged(h, jobs[j], p.stamp, vault) {
      DrainStaged(g, h, jobs[n], i, node, jobs[j], p.stamp, vault);
    }
  }

  /** Takes one original off the disk: quarantine, re-verify, unlink. */
  method RemoveItem(m: Machine, jobs: seq<Job>, n: nat, secret: nat, ghost b: Ino, ghost vault: set<Ino>)
        returns (ok: bool, ghost at: nat)
    requires m.Valid() && m.committed && n < |jobs| && m.pledge.items == Items(jobs) && Distinct(jobs)
    requires !QuarantineName(m.pledge.stamp)
    requires Draining(m.ledger, m.disk.owner, b, vault, jobs, n, m.pledge)
    modifies m
    ensures m.Valid() && m.committed && m.pledge == old(m.pledge) && m.Onward()
    ensures ok ==>
              Draining(m.ledger, m.disk.owner, b, vault, jobs, n + 1, m.pledge) &&
              RemovedAt(m.pledge, m.history, jobs[n], at)
    ensures ok ==> m.ledger.seen == old(m.ledger).seen - {Original(jobs[n]), Workspace(jobs[n])}
    ensures ok ==> m.ledger.made == old(m.ledger).made && m.ledger.alone == old(m.ledger).alone
    ensures ok ==> KnownStays(old(m.ledger), m.ledger)
    ensures ok && old(m.ledger).alone ==> Original(jobs[n]) in old(m.ledger).seen
    ensures Removable(m, old(m.ledger), jobs[n], secret) ==> ok
  {
    hide Machine.Valid, Passed, Upholds, Staged, Secured, Ordered, InQuarantine, Emptied, Moving, Draining, Warrants,
      RemovedAt, Sound, Shelter, MovedClear, Items, Distinct, QuarantineName, Longer, ThereFor, EmptyRoom;
    HistoryGrows();
    var job := jobs[n];
    at := 0;
    ghost var g := m.ledger;
    DrainingFacts(g, m.disk.owner, b, vault, jobs, n, m.pledge);
    StagedFacts(g, job, m.pledge.stamp, vault);
    ValidSound(m);
    RoomAtFirst(m, job);
    ghost var i, node, warrant;
    ok, i, node, warrant := QuarantineItem(m, job, secret, n, m.pledge.stamp, vault);
    if !ok { return; }
    MovingKnown(g, job, i, node);
    ok, at := UnlinkItem(m, job, g, i, node, warrant, m.pledge.stamp, vault);
    if !ok { return; }
    DrainedFacts(g, job, i, node, m.pledge.stamp, vault);
    DrainOne(g, m.ledger, m.disk.owner, b, vault, jobs, n, m.pledge, i, node);
  }

  /** What was known about inodes is known still. */
  ghost predicate KnownStays(g: Ledger, h: Ledger) {
    forall i :: i in g.known ==> i in h.known && h.known[i] == g.known[i]
  }

  lemma MovingKnown(g: Ledger, job: Job, i: Ino, node: Node)
    requires Moving(g, Original(job), Quarantined(job), i, node)
    ensures forall j :: j in g.known ==> g.known[i := node][j] == g.known[j]
  {
  }

  lemma RoomAtFirst(m: Machine, job: Job)
    requires m.Valid() && job.quarantine in m.ledger.empty
    ensures EmptyRoom(m.ledger, job)
  {
    hide Upholds, Secured, Recorded, Ordered, Keeps;
    SeenNames(m.disk, m.ledger);
  }

  lemma DrainingFacts(g: Ledger, owner: nat, b: Ino, vault: set<Ino>, jobs: seq<Job>, n: nat, p: Pledge)
    requires Draining(g, owner, b, vault, jobs, n, p)
    ensures Shelter(g, p.stamp, vault) && MovedClear(g, vault) && (n < |jobs| ==> Staged(g, jobs[n], p.stamp, vault))
    ensures Vaulted(g, owner, p.stamp, b, vault)
    ensures FileKept(g, p.stamp, PENDING, ReceiptFile(Receipt(Prepared, p.stamp, p.items)), p.owner)
  {
  }

  /** The names that are gone once the first n jobs are done. */
  function Vacated(jobs: seq<Job>, n: nat): set<Key>
    requires n <= |jobs|
  {
    if n == 0 then {} else Vacated(jobs, n - 1) + {Original(jobs[n - 1]), Workspace(jobs[n - 1])}
  }

  lemma RemovedStays(p: Pledge, h: seq<Moment>, l: seq<Moment>, job: Job, at: nat)
    requires RemovedAt(p, h, job, at) && Longer(h, l)
    ensures RemovedAt(p, l, job, at)
  {
    hide Warrants;
    assert h[..at] == l[..at];
  }

  /** No two of the first jobs are about one name. */
  ghost predicate ApartUpTo(jobs: seq<Job>, n: nat)
    requires n <= |jobs|
  {
    forall i, j :: 0 <= i < j < n ==> Original(jobs[i]) != Original(jobs[j])
  }

  lemma ApartMore(g: Ledger, h: Ledger, jobs: seq<Job>, n: nat)
    requires n < |jobs| && ApartUpTo(jobs, n) && h.seen == g.seen - Vacated(jobs, n) && Original(jobs[n]) in h.seen
    ensures ApartUpTo(jobs, n + 1)
  {
    hide Original, Workspace, Vacated;
    forall i | 0 <= i < n ensures Original(jobs[i]) != Original(jobs[n]) { Vacates(jobs, n, i); }
  }

  /** The originals from the n-th on are there as reviewed. */
  ghost predicate StillThere(g: Ledger, jobs: seq<Job>, n: nat, secret: nat) {
    forall j :: n <= j < |jobs| ==> ThereFor(g, jobs[j], secret)
  }

  lemma StillThereNow(g: Ledger, jobs: seq<Job>, n: nat, secret: nat)
    requires n < |jobs| && StillThere(g, jobs, n, secret)
    ensures ThereFor(g, jobs[n], secret)
  {
  }

  /** Removing one original and its workspace leaves the others. */
  lemma StillThereLess(g: Ledger, h: Ledger, jobs: seq<Job>, n: nat, secret: nat)
    requires n < |jobs| && StillThere(g, jobs, n, secret) && ApartUpTo(jobs, |jobs|) && KnownStays(g, h)
    requires h.seen == g.seen - {Original(jobs[n]), Workspace(jobs[n])} && h.alone == g.alone
    requires forall j :: n <= j < |jobs| ==> Original(jobs[j]) != Workspace(jobs[n])
    ensures StillThere(h, jobs, n + 1, secret)
  {
    hide HasSecret, Original, Workspace;
    forall j | n + 1 <= j < |jobs| ensures ThereFor(h, jobs[j], secret) {
      assert ThereFor(g, jobs[j], secret);
      EntryLeft(g, h, Original(jobs[j]), jobs[j].item.evidence, jobs[j].item.meta, Original(jobs[n]),
                Workspace(jobs[n]));
    }
  }

  lemma EntryLeft(g: Ledger, h: Ledger, k: Key, evidence: Evidence, meta: Meta, a: Key, b: Key)
    requires IsEntry(g, k, evidence, meta, 1) && h.seen == g.seen - {a, b} && KnownStays(g, h) && h.alone == g.alone
    requires k != a && k != b
    ensures IsEntry(h, k, evidence, meta, 1)
  {
    hide Fits;
    var i := g.seen[k];
    if g.alone && g.known[i].Regular? {
      forall j | j in Links(h.seen, i) ensures j == k { OneName(g.seen, k, j); }
      assert Links(h.seen, i) == {k};
    }
  }

  lemma DrainingNames(g: Ledger, owner: nat, b: Ino, vault: set<Ino>, jobs: seq<Job>, n: nat, p: Pledge)
    requires Draining(g, owner, b, vault, jobs, n, p) && n < |jobs|
    ensures forall j :: n <= j < |jobs| ==> Original(jobs[j]) != Workspace(jobs[n])
  {
    hide Staged;
    forall j | n <= j < |jobs| ensures Original(jobs[j]) != Workspace(jobs[n]) {
      StagedFacts(g, jobs[j], p.stamp, vault);
      StagedFacts(g, jobs[n], p.stamp, vault);
    }
  }

  /** Takes every original off the disk, in the order of the receipt. */
  method RemoveAll(m: Machine, jobs: seq<Job>, secret: nat, ghost b: Ino, ghost vault: set<Ino>)
        returns (ok: bool, ghost removals: seq<nat>)
    requires m.Valid() && m.committed && m.pledge.items == Items(jobs) && Distinct(jobs)
    requires !QuarantineName(m.pledge.stamp)
    requires Draining(m.ledger, m.disk.owner, b, vault, jobs, 0, m.pledge)
    modifies m
    ensures m.Valid() && m.committed && m.pledge == old(m.pledge) && m.Onward()
    ensures ok ==> Draining(m.ledger, m.disk.owner, b, vault, jobs, |jobs|, m.pledge)
    ensures ok ==>
              |removals| == |jobs| &&
              forall j :: 0 <= j < |jobs| ==> RemovedAt(m.pledge, m.history, jobs[j], removals[j])
    ensures ok ==> m.ledger.seen == old(m.ledger).seen - Vacated(jobs, |jobs|)
    ensures ok ==> m.ledger.alone == old(m.ledger).alone && m.ledger.made == old(m.ledger).made
    ensures ok ==> old(m.ledger).known.Keys <= m.ledger.known.Keys
    ensures ok && old(m.ledger).alone ==> ApartUpTo(jobs, |jobs|)
    ensures m.Faultless() && old(m.ledger).alone && ApartUpTo(jobs, |jobs|) &&
            StillThere(old(m.ledger), jobs, 0, secret) ==>
              ok
  {
    hide Machine.Valid, Draining, RemovedAt, Items, Distinct, QuarantineName, Longer, StillThere, ThereFor,
      Original, Workspace;
    HistoryGrows();
    ghost var g := m.ledger;
    ghost var sure := m.Faultless() && g.alone && ApartUpTo(jobs, |jobs|) && StillThere(g, jobs, 0, secret);
    ok, removals := false, [];
    var n := 0;
    while n < |jobs|
      invariant n <= |jobs| && m.Valid() && m.committed && m.pledge == old(m.pledge) && m.Onward()
      invariant Draining(m.ledger, m.disk.owner, b, vault, jobs, n, m.pledge)
      invariant |removals| == n && forall j :: 0 <= j < n ==> RemovedAt(m.pledge, m.history, jobs[j], removals[j])
      invariant m.ledger.seen == old(m.ledger).seen - Vacated(jobs, n)
      invariant m.ledger.alone == old(m.ledger).alone && m.ledger.made == old(m.ledger).made
      invariant KnownStays(g, m.ledger)
      invariant g.alone ==> ApartUpTo(jobs, n)
      invariant sure ==> StillThere(m.ledger, jobs, n, secret)
    {
      ghost var before, h := m.history, m.ledger;
      ghost var at;
      if sure { StillThereNow(h, jobs, n, secret); }
      DrainingNames(h, m.disk.owner, b, vault, jobs, n, m.pledge);
      ok, at := RemoveItem(m, jobs, n, secret, b, vault);
      if !ok { return; }
      if g.alone { ApartMore(g, h, jobs, n); }
      if sure { StillThereLess(h, m.ledger, jobs, n, secret); }
      forall j | 0 <= j < n ensures RemovedAt(m.pledge, m.history, jobs[j], removals[j]) {
        RemovedStays(m.pledge, before, m.history, jobs[j], removals[j]);
      }
      removals := removals + [at];
      n := n + 1;
    }
    ok := true;
  }

  lemma PendingMayGo(g: Ledger, p: Pledge, owner: nat, b: Ino, vault: set<Ino>)
    requires Secured(g, p) && Ordered(g) && Vaulted(g, owner, p.stamp, b, vault)
    requires FileKept(g, p.stamp, PENDING, ReceiptFile(Receipt(Prepared, p.stamp, p.items)), p.owner)
    requires FileKept(g, p.stamp, COMPLETE, ReceiptFile(Receipt(Complete, p.stamp, p.items)), p.owner)
    ensures var k := Key(b, PENDING);
      Secured(NoteEntry(g, k, None, true), p) && k in g.seen && g.seen[k] in g.made && b in g.known
      && g.seen[k] in g.known && !g.known[g.seen[k]].Directory?
  {
    hide Secured;
    assert KeptDirectory(g, BackupDirs(p.stamp)) == Some(b);
    SecuredRemovePending(g, p, Key(b, PENDING));
  }

  lemma CompleteRemains(g: Ledger, p: Pledge, b: Ino)
    requires Secured(g, p) && Key(b, PENDING) !in g.seen && KeptDirectory(g, BackupDirs(p.stamp)) == Some(b)
    ensures FileKept(g, p.stamp, COMPLETE, ReceiptFile(Receipt(Complete, p.stamp, p.items)), p.owner)
  {
  }

  /** Replaces the pending receipt by the completed one. */
  method Finish(m: Machine, jobs: seq<Job>, stamp: string, b: Ino, ghost vault: set<Ino>) returns (ok: bool)
    requires m.Valid() && m.committed && m.pledge.items == Items(jobs) && m.pledge.stamp == stamp
    requires m.pledge.owner == m.disk.owner && !QuarantineName(m.pledge.stamp)
    requires Draining(m.ledger, m.disk.owner, b, vault, jobs, |jobs|, m.pledge)
    modifies m
    ensures m.Valid() && m.committed && m.pledge == old(m.pledge) && m.Onward()
    ensures ok ==>
              Secured(m.ledger, m.pledge) && Key(b, PENDING) !in m.ledger.seen &&
              KeptDirectory(m.ledger, BackupDirs(m.pledge.stamp)) == Some(b)
    ensures ok ==>
              Key(b, PENDING) in old(m.ledger).seen && old(m.ledger).seen[Key(b, PENDING)] in old(m.ledger).made &&
              Key(b, COMPLETE) !in old(m.ledger).seen
    ensures ok ==> Superseded(old(m.ledger), m.ledger, Key(b, PENDING), Key(b, COMPLETE))
    ensures m.Faultless() && old(m.ledger).alone && Key(b, COMPLETE) !in old(m.ledger).seen ==> ok
  {
    hide Machine.Valid, Passed, Secured, Ordered, Draining, Upholds, NoteSync, Vaulted, Sound, MovedClear, FileKept,
      Grows, Items, QuarantineName, Longer;
    HistoryGrows();
    ghost var g, p := m.ledger, m.pledge;
    DrainingFacts(g, m.disk.owner, b, vault, jobs, |jobs|, p);
    ReceiptIsFresh(g, m.disk.owner, b, vault, p.stamp);
    ValidSecured(m);
    PendingName(g, p, m.disk.owner, b, vault);
    var written, settled := WriteDurable(m, b, COMPLETE, ReceiptFile(Receipt(Complete, stamp, Items(jobs))), p.stamp,
                                         vault);
    ok := settled;
    if !ok { return; }
    ghost var h := m.ledger;
    FileGrows(g, h, p.stamp, PENDING, ReceiptFile(Receipt(Prepared, p.stamp, p.items)), p.owner);
    ValidSecured(m);
    PendingMayGo(h, p, m.disk.owner, b, vault);
    MadeIsNew(m, m.ledger.seen[Key(b, PENDING)]);
    ok := m.Remove(Key(b, PENDING), Warrant.OwnWork);
    if !ok {
      LeafIsRemovable(m, Key(b, PENDING));
      return;
    }
    ok := m.SyncDirectory(b);
    ValidSecured(m);
    SyncFacts(NoteEntry(h, Key(b, PENDING), None, true), b);
    PendingGone(g, h, Key(b, PENDING), Key(b, COMPLETE), b);
    VaultDirectory(h, m.disk.owner, p.stamp, b, vault, Key(b, PENDING));
  }

  lemma ReceiptIsFresh(g: Ledger, owner: nat, b: Ino, vault: set<Ino>, stamp: string)
    requires Vaulted(g, owner, stamp, b, vault) && MovedClear(g, vault)
    ensures Key(b, COMPLETE) !in g.moved
  {
    hide Rooted, Shelter, Steady;
  }

  lemma PendingName(g: Ledger, p: Pledge, owner: nat, b: Ino, vault: set<Ino>)
    requires Vaulted(g, owner, p.stamp, b, vault)
    requires FileKept(g, p.stamp, PENDING, ReceiptFile(Receipt(Prepared, p.stamp, p.items)), p.owner)
    requires Ordered(g)
    ensures Key(b, PENDING) in g.seen && g.seen[Key(b, PENDING)] in g.made
    ensures KeptDirectory(g, BackupDirs(p.stamp)) == Some(b)
  {
    hide Shelter, Steady;
  }

  /** One name went, another came; when nobody else acts, nothing else changed. */
  ghost predicate Superseded(g: Ledger, h: Ledger, gone: Key, new': Key) {
    && h.alone == g.alone
    && (forall k :: k in g.seen && k != gone ==> k in h.seen && h.seen[k] == g.seen[k])
    && (g.alone ==> h.seen.Keys == g.seen.Keys + {new'} - {gone} && new' in h.seen && h.seen[new'] !in g.known)
  }

  lemma PendingGone(g: Ledger, h: Ledger, gone: Key, new': Key, dir: Ino)
    requires Grows(g, h) && gone in g.seen && new' !in g.seen && gone != new'
    requires g.alone ==> h.seen.Keys == g.seen.Keys + {new'}
    ensures Superseded(g, NoteSync(NoteEntry(h, gone, None, true), dir), gone, new')
  {
  }

  lemma VaultDirectory(g: Ledger, owner: nat, stamp: string, b: Ino, vault: set<Ino>, k: Key)
    requires Vaulted(g, owner, stamp, b, vault) && k in g.seen && g.seen[k] in g.known
    requires !g.known[g.seen[k]].Directory? && !QuarantineName(stamp)
    ensures KeptDirectory(NoteSync(NoteEntry(g, k, None, true), b), BackupDirs(stamp)) == Some(b)
  {
    var h := NoteSync(NoteEntry(g, k, None, true), b);
    OrdinaryNames();
    SyncFacts(NoteEntry(g, k, None, true), b);
    LookupStays(KeptNames(g), KeptNodes(g), KeptNames(h), KeptNodes(h), BackupDirs(stamp));
  }

  predicate HasPrivate(findings: seq<Finding>) {
    exists i :: 0 <= i < |findings| && findings[i].reviewed.ReviewedPrivateFile?
  }

  /** A process that starts on a settled disk. */
  ghost predicate Settled(g: Ledger) {
    (forall k :: k in g.seen ==> k in g.kept) && (forall i :: i in g.known ==> i in g.synced)
  }

  lemma OneName(names: map<Key, Ino>, k: Key, j: Key)
    requires k in names && j in names && names[j] == names[k] && |Links(names, names[k])| == 1
    ensures j == k
  {
    var s := Links(names, names[k]);
    assert k in s && j in s;
    assert |s - {k}| == 0;
    assert j !in s - {k};
  }

  /** On a settled disk an original that was verified lies where the plan found it. */
  lemma SettledOriginal(start: Ledger, g: Ledger, f: Finding, job: Job)
    requires Newborn(start) && Settled(start) && Grows(start, g) && g.alone && Current(start, f)
    requires job.item.dirs == f.dirs && job.item.leaf == f.leaf
    requires CleanPath(f.dirs) && Reached(g, job.item.dirs, job.parent)
    requires IsEntry(g, Original(job), job.item.evidence, job.item.meta, 1)
    ensures Placed(g, job.item) && Original(job) in start.seen
  {
    LookupStays(KeptNames(start), KeptNodes(start), KeptNames(g), KeptNodes(g), f.dirs);
    var k := Original(job);
    assert k in start.seen && g.seen[k] == start.seen[k];
    if g.known[g.seen[k]].Regular? {
      forall j | j in g.seen && g.seen[j] == g.seen[k] ensures j == k { OneName(g.seen, k, j); }
    }
  }

  /** Everything a pledge needs, once the pending receipt is durable. */
  lemma NowSecured(start: Ledger, g: Ledger, owner: nat, stamp: string, secret: nat, b: Ino, vault: set<Ino>,
          findings: seq<Finding>, jobs: seq<Job>)
    requires AllReady(g, jobs, findings, stamp, secret) && AllCompiled(findings, stamp) && |jobs| == |findings|
    requires Vaulted(g, owner, stamp, b, vault)
    requires forall i :: 0 <= i < |jobs| ==> BackedUp(g, stamp, jobs[i])
    requires FileKept(g, stamp, PENDING, ReceiptFile(Receipt(Prepared, stamp, Items(jobs))), owner)
    requires HasPrivate(findings) ==> FileKept(g, stamp, KEY_NAME, KeyFile(secret), owner)
    requires g.calm ==>
               g.alone && Newborn(start) && Settled(start) && Grows(start, g) &&
               forall i :: 0 <= i < |findings| ==> Current(start, findings[i])
    ensures Secured(g, Pledge(owner, stamp, Items(jobs), secret))
  {
    hide FileKept, BackupKept, IsEntry, Grows, Settled, Newborn, Current, Shelter, Steady, HierarchyLevel, Reached,
      QuarantineName, Placed, Fits;
    var items := Items(jobs);
    forall i | 0 <= i < |items|
      ensures CleanPath(items[i].dirs) && !QuarantineName(items[i].leaf) && BackupKept(g, stamp, items[i])
      ensures items[i].evidence.Private? ==>
                items[i].evidence.tag.secret == secret && findings[i].reviewed.ReviewedPrivateFile?
      ensures g.calm ==> Placed(g, items[i])
    {
      assert Compiled(findings[i], stamp) && Describes(jobs[i].item, findings[i], stamp, secret) &&
             BackedUp(g, stamp, jobs[i]) && Ready(g, jobs[i]);
      if g.calm { SettledOriginal(start, g, findings[i], jobs[i]); }
    }
    assert HierarchyKept(g, Pledge(owner, stamp, items, secret));
  }

  lemma NowDraining(g: Ledger, owner: nat, b: Ino, vault: set<Ino>, findings: seq<Finding>, jobs: seq<Job>, p: Pledge)
    requires AllReady(g, jobs, findings, p.stamp, p.secret) && AllCompiled(findings, p.stamp)
    requires Vaulted(g, owner, p.stamp, b, vault) && Ordered(g)
    requires FileKept(g, p.stamp, PENDING, ReceiptFile(Receipt(Prepared, p.stamp, p.items)), p.owner)
    requires g.moved == map[]
    ensures Draining(g, owner, b, vault, jobs, 0, p) && Distinct(jobs)
  {
    hide FileKept, Rooted, Shelter, Steady, Ready, Reached, QuarantineName, Ordered, Attests, CompiledPath;
    forall j | 0 <= j < |jobs| ensures Staged(g, jobs[j], p.stamp, vault) {
      PreparedPath(g, jobs, findings, p.stamp, p.secret, j);
      CompiledFacts(jobs[j].item.dirs, jobs[j].item.leaf, p.stamp);
      ReadyFacts(g, jobs[j]);
      OutsideParent(g, p.stamp, vault, jobs[j].item.dirs, jobs[j].parent);
      ReachedFacts(g, jobs[j].item.dirs, jobs[j].parent);
    }
  }

  lemma ReadyFacts(g: Ledger, job: Job)
    requires Ready(g, job)
    ensures Reached(g, job.item.dirs, job.parent)
    ensures Workspace(job) in g.seen && g.seen[Workspace(job)] == job.quarantine && job.quarantine in g.made
  {
  }

  /** The key under which private bytes are authenticated, when there are any. */
  method MakeKey(m: Machine, findings: seq<Finding>, stamp: string, secret: nat, b: Ino, ghost vault: set<Ino>)
        returns (ok: bool)
    requires m.Valid() && !m.committed && Vaulted(m.ledger, m.disk.owner, stamp, b, vault) && !QuarantineName(stamp)
    modifies m
    ensures m.Valid() && !m.committed && m.Onward() && Grows(old(m.ledger), m.ledger)
    ensures Vaulted(m.ledger, m.disk.owner, stamp, b, vault)
    ensures ok && HasPrivate(findings) ==> FileKept(m.ledger, stamp, KEY_NAME, KeyFile(secret), m.disk.owner)
    ensures ok && old(m.ledger).alone ==> AddsOrdinary(old(m.ledger), m.ledger)
    ensures ok && old(m.ledger).alone &&
            TidyAt(old(m.ledger), old(m.disk).owner, b, vault, {}, Plan(findings), b, []) ==>
              Untouched(m.ledger, m.disk.owner, b, vault, findings)
    ensures m.Faultless() && old(m.ledger).alone && Key(b, KEY_NAME) !in old(m.ledger).seen ==> ok
  {
    hide Machine.Valid, Vaulted, FileKept, Grows, QuarantineName, Upholds, Sound, Ordered, Longer, TidyAt, AddsOrdinary,
      AddsFile, Plan;
    HistoryGrows();
    ghost var g, owner := m.ledger, m.disk.owner;
    GrowsReflexive(g);
    NothingAdded(g);
    ok := true;
    if i :| 0 <= i < |findings| && findings[i].reviewed.ReviewedPrivateFile? {
      Uncommitted(m);
      var written;
      written, ok := WriteDurable(m, b, KEY_NAME, KeyFile(secret), stamp, vault);
      if ok && g.alone { KeyAdded(g, m.ledger, owner, b, vault, findings); }
    } else if TidyAt(g, owner, b, vault, {}, Plan(findings), b, []) {
      TidyFiles(g, owner, b, vault, {}, {[KEY_NAME]}, Plan(findings));
    }
  }

  lemma KeyAdded(g: Ledger, h: Ledger, owner: nat, b: Ino, vault: set<Ino>, findings: seq<Finding>)
    requires AddsFile(g, h, Key(b, KEY_NAME)) && Grows(g, h)
    ensures AddsOrdinary(g, h)
    ensures TidyAt(g, owner, b, vault, {}, Plan(findings), b, []) ==> Untouched(h, owner, b, vault, findings)
  {
    hide TidyAt, Grows, QuarantineName, Plan;
    OrdinaryNames();
    if TidyAt(g, owner, b, vault, {}, Plan(findings), b, []) {
      var none: set<seq<string>> := {};
      TidyFile(g, h, owner, b, vault, none, Plan(findings), b, [], KEY_NAME);
      assert [] + [KEY_NAME] == [KEY_NAME];
      assert none + {[] + [KEY_NAME]} == {[KEY_NAME]};
    }
  }

  /** Revalidates every finding, and makes the private directory and the key. */
  method Open(m: Machine, findings: seq<Finding>, stamp: string, secret: nat) returns (ok: bool, b: Ino)
    requires m.Valid() && !m.committed && Newborn(m.ledger) && Steady(m.ledger) && Reached(m.ledger, [], ROOT)
    requires AllCompiled(findings, stamp)
    requires !QuarantineName(stamp)
    modifies m
    ensures m.Valid() && !m.committed && m.Onward()
    ensures ok ==>
              Grows(old(m.ledger), m.ledger) && Vaulted(m.ledger, m.disk.owner, stamp, b, {b}) &&
              Reached(m.ledger, [], ROOT)
    ensures ok && HasPrivate(findings) ==> FileKept(m.ledger, stamp, KEY_NAME, KeyFile(secret), m.disk.owner)
    ensures ok && old(m.ledger).alone ==> AllCurrent(old(m.ledger), findings)
    ensures ok && old(m.ledger).alone ==> AddsOrdinary(old(m.ledger), m.ledger)
    ensures ok && old(m.ledger).alone ==> Untouched(m.ledger, m.disk.owner, b, {b}, findings)
    ensures m.Faultless() && old(m.ledger).alone && AllCurrent(old(m.ledger), findings) &&
            MayOpen(old(m.ledger), old(m.disk).owner, stamp) ==>
              ok
  {
    hide Machine.Valid, Vaulted, FileKept, Grows, QuarantineName, Upholds, Sound, Ordered, Steady, Reached, Current,
      Discovers, NoLeaves, HasPrivate, Newborn, Passed, Longer, NodesKept, Compiled, TidyAt, Plan, MayOpen,
      AddsOrdinary, NothingIn, Rooted, Shelter;
    HistoryGrows();
    ghost var start := m.ledger;
    b := ROOT;
    ok := Revalidate(m, findings, stamp);
    ghost var g := m.ledger;
    DiscoversGrows(start, g);
    GrowsKnown(start, g);
    if !ok { return; }
    ok := false;
    NothingMade(start, g);
    var made := MakeVault(m, stamp);
    GrowsTransitive(start, g, m.ledger);
    if made.None? { return; }
    b := made.value;
    VaultedAt(m.ledger, m.disk.owner, stamp, b);
    ghost var h := m.ledger;
    GrowsKnown(start, h);
    if h.alone { NewVault(h, m.disk.owner, stamp, b, findings); }
    ok := MakeKey(m, findings, stamp, secret, b, {b});
    GrowsTransitive(start, h, m.ledger);
    GrowsKnown(start, m.ledger);
    RootStays(start, m.ledger);
    if ok && h.alone { AddsOrdinaryMore(start, h, m.ledger); }
  }

  lemma NewVault(g: Ledger, owner: nat, stamp: string, b: Ino, findings: seq<Finding>)
    requires NothingIn(g, b) && Rooted(g, owner, stamp, b)
    ensures TidyAt(g, owner, b, {b}, {}, Plan(findings), b, []) && Key(b, KEY_NAME) !in g.seen
  {
    TidyNew(g, owner, b, Plan(findings));
  }

  lemma WorkspacesOrdinary(g: Ledger, h: Ledger, findings: seq<Finding>, stamp: string)
    requires WorkspacesFree(g, findings, 0, stamp) && AddsOrdinary(g, h)
    requires forall i :: 0 <= i < |findings| ==> PlaceOf(h, findings[i]) == PlaceOf(g, findings[i])
    ensures WorkspacesFree(h, findings, 0, stamp)
  {
    hide PlaceOf, QuarantineName, QuarantineDirectory;
    forall i | 0 <= i < |findings|
      ensures WorkspaceOf(h, findings[i], stamp) == WorkspaceOf(g, findings[i], stamp)
      ensures WorkspaceOf(h, findings[i], stamp) !in h.seen
    {
      IsQuarantineName(stamp, findings[i].rule);
      assert WorkspaceOf(g, findings[i], stamp) !in g.seen;
    }
  }

  /** No two findings are about one name. */
  ghost predicate Separate(g: Ledger, findings: seq<Finding>) {
    forall i, j :: 0 <= i < j < |findings| ==> PlaceOf(g, findings[i]) != PlaceOf(g, findings[j])
  }

  /** No finding lies below a top-level directory that is called as the completed receipt is. */
  ghost predicate OffReceipt(findings: seq<Finding>) {
    forall i :: 0 <= i < |findings| && findings[i].dirs != [] ==> findings[i].dirs[0] != COMPLETE
  }

  /** What a faultless run alone needs to secure a plan: it is current, the backups fit
      beside each other, and the run's directory and its quarantines have free names. */
  ghost predicate Securable(g: Ledger, owner: nat, findings: seq<Finding>, stamp: string) {
    AllCurrent(g, findings) && PlansFit(findings) && MayOpen(g, owner, stamp) && WorkspacesFree(g, findings, 0, stamp)
  }

  /** A reviewed entry is no directory on the way to another. */
  lemma NotBelow(g: Ledger, f: Finding, other: Finding)
    requires Current(g, f) && Current(g, other) && PathTo(f) <= PathTo(other)
    ensures PlaceOf(g, f) == PlaceOf(g, other)
  {
    var n := |PathTo(f)|;
    if n == |PathTo(other)| {
      assert PathTo(f) == PathTo(other) && f.dirs == PathTo(f)[..n - 1] && other.dirs == PathTo(other)[..n - 1];
      assert f.leaf == PathTo(f)[n - 1] && other.leaf == PathTo(other)[n - 1];
    } else {
      assert PathTo(f) == other.dirs[..n] by { assert PathTo(other)[..n] == other.dirs[..n]; }
      assert PathTo(f)[..n - 1] == f.dirs && PathTo(f)[n - 1] == f.leaf;
      LookupPrefix(KeptNames(g), KeptNodes(g), other.dirs, n);
    }
  }

  /** On a disk, different names have backups that fit. */
  lemma PlansFitOnDisk(g: Ledger, findings: seq<Finding>)
    requires AllCurrent(g, findings) && Separate(g, findings)
    requires forall i :: 0 <= i < |findings| ==> OffReserved(findings[i])
    ensures PlansFit(findings)
  {
    hide Current, PlaceOf, PathTo;
    forall i, j | 0 <= i < |findings| && 0 <= j < |findings| && i != j
      ensures !(PathTo(findings[i]) <= PathTo(findings[j]))
    {
      if PathTo(findings[i]) <= PathTo(findings[j]) { NotBelow(g, findings[i], findings[j]); }
    }
  }

  /** The names of the receipts are free after the backups. */
  lemma NoReceiptYet(g: Ledger, owner: nat, b: Ino, vault: set<Ino>, jobs: seq<Job>, findings: seq<Finding>,
          stamp: string, secret: nat, extra: set<seq<string>>, name: string)
    requires AllReady(g, jobs, findings, stamp, secret) && AllCompiled(findings, stamp)
    requires TidyAt(g, owner, b, vault, Written(jobs, |jobs|) + extra, Plan(findings), b, [])
    requires (name == PENDING || name == COMPLETE) && [name] !in extra
    requires forall i :: 0 <= i < |findings| && findings[i].dirs != [] ==> findings[i].dirs[0] != name
    ensures Key(b, name) !in g.seen
  {
    hide TidyAt, Ready, Attests, QuarantineName, CleanPath, Ensurable, LeadsTo, Written, Plan, AllReady;
    assert [] + [name] == [name];
    NotWritten(g, jobs, findings, stamp, secret, name);
    NothingUnder(findings, stamp, name);
    TidyChild(g, owner, b, vault, Written(jobs, |jobs|) + extra, Plan(findings), b, [], name);
  }

  lemma NotWritten(g: Ledger, jobs: seq<Job>, findings: seq<Finding>, stamp: string, secret: nat, name: string)
    requires AllReady(g, jobs, findings, stamp, secret) && AllCompiled(findings, stamp)
    requires name == PENDING || name == COMPLETE
    ensures [name] !in Written(jobs, |jobs|)
  {
    hide Ready, Attests, QuarantineName, CleanPath;
    assert KEY_NAME[0] == '.' && PENDING[0] == 'r' && COMPLETE[0] == 'r';
    forall j | 0 <= j < |jobs| ensures PathOf(jobs[j].item) != [name] {
      assert Compiled(findings[j], stamp) && Describes(jobs[j].item, findings[j], stamp, secret);
      assert PathOf(jobs[j].item)[|jobs[j].item.dirs|] == jobs[j].item.leaf;
    }
  }

  lemma NothingUnder(findings: seq<Finding>, stamp: string, name: string)
    requires forall i :: 0 <= i < |findings| && findings[i].dirs != [] ==> findings[i].dirs[0] != name
    ensures !LeadsTo(Plan(findings), [name])
  {
    forall p | p in Plan(findings) ensures !([name] < p) {
      if i :| 0 <= i < |findings| && PathTo(findings[i]) == p {
        assert findings[i].dirs != [] ==> p[0] == findings[i].dirs[0];
      }
    }
  }

  /** A backup below a directory of that name keeps the completed receipt out. */
  lemma ReceiptIsTaken(g: Ledger, stamp: string, job: Job, b: Ino)
    requires BackupKept(g, stamp, job.item) && KeptDirectory(g, BackupDirs(stamp)) == Some(b)
    requires job.item.dirs != [] && job.item.dirs[0] == COMPLETE
    ensures Key(b, COMPLETE) in g.seen
  {
    var dirs, n := BackupDirs(stamp) + job.item.dirs, |BackupDirs(stamp)|;
    LookupPrefix(KeptNames(g), KeptNodes(g), dirs, n + 1);
    assert dirs[..n + 1][..n] == BackupDirs(stamp) && dirs[..n + 1][n] == COMPLETE;
  }

  /** What the commit leaves to a run alone: every original is where the plan found it
      and as reviewed, and whether the completed receipt can be written. */
  ghost predicate Poised(start: Ledger, g: Ledger, findings: seq<Finding>, jobs: seq<Job>, b: Ino, secret: nat) {
    && AllThere(g, jobs, secret) && |jobs| == |findings|
    && (forall i :: 0 <= i < |jobs| ==> Original(jobs[i]) == PlaceOf(start, findings[i]))
    && (Key(b, COMPLETE) !in g.seen <==> OffReceipt(findings))
  }

  lemma BackedUpIsThere(g: Ledger, jobs: seq<Job>, findings: seq<Finding>, stamp: string, secret: nat)
    requires AllReady(g, jobs, findings, stamp, secret) && g.alone
    requires forall i :: 0 <= i < |jobs| ==> BackedUp(g, stamp, jobs[i])
    ensures AllThere(g, jobs, secret)
  {
    hide Ready, BackupKept, IsEntry;
    forall i | 0 <= i < |jobs| ensures ThereFor(g, jobs[i], secret) {
      assert Describes(jobs[i].item, findings[i], stamp, secret) && BackedUp(g, stamp, jobs[i]);
    }
  }

  lemma AllAtPlace(start: Ledger, g: Ledger, jobs: seq<Job>, findings: seq<Finding>, stamp: string, secret: nat)
    requires AllReady(g, jobs, findings, stamp, secret) && AllCompiled(findings, stamp) && Grows(start, g)
    requires AllCurrent(start, findings) && |jobs| == |findings|
    ensures forall i :: 0 <= i < |jobs| ==> Original(jobs[i]) == PlaceOf(start, findings[i])
  {
    hide Grows, AsReviewed, CleanPath, Reached, AllReady;
    forall i | 0 <= i < |jobs| ensures Original(jobs[i]) == PlaceOf(start, findings[i]) {
      PreparedPath(g, jobs, findings, stamp, secret, i);
      JobDescribes(g, jobs, findings, stamp, secret, i);
      CurrentNow(start, findings, i);
      SameRoute(start, g, findings[i].dirs, jobs[i].parent);
    }
  }

  lemma JobDescribes(g: Ledger, jobs: seq<Job>, findings: seq<Finding>, stamp: string, secret: nat, i: nat)
    requires AllReady(g, jobs, findings, stamp, secret) && i < |jobs|
    ensures i < |findings| && jobs[i].item.dirs == findings[i].dirs && jobs[i].item.leaf == findings[i].leaf
    ensures Reached(g, jobs[i].item.dirs, jobs[i].parent)
  {
    hide Attests;
    assert Describes(jobs[i].item, findings[i], stamp, secret) && Ready(g, jobs[i]);
  }

  /** Everything before the first rename: revalidation, the private directory, the
      quarantines, the backups and the pending receipt. */
  method Secure(m: Machine, findings: seq<Finding>, stamp: string, secret: nat)
      returns (ok: bool, jobs: seq<Job>, b: Ino, ghost vault: set<Ino>)
    requires m.Valid() && !m.committed && m.ledger == m.start && Steady(m.ledger) && Reached(m.ledger, [], ROOT)
    requires AllCompiled(findings, stamp) && (m.ledger.calm ==> Settled(m.ledger))
    modifies m
    ensures m.Valid() && m.Onward() && m.committed == ok
    ensures ok ==> m.pledge == Pledge(m.disk.owner, stamp, Items(jobs), secret) && Grows(old(m.ledger), m.ledger)
    ensures ok ==> |jobs| == |findings| && AllReady(m.ledger, jobs, findings, stamp, secret)
    ensures ok ==> Distinct(jobs) && Draining(m.ledger, m.disk.owner, b, vault, jobs, 0, m.pledge)
    ensures ok && m.ledger.alone ==> AllCurrent(old(m.ledger), findings)
    ensures ok && m.ledger.alone ==>
              forall i ::
                0 <= i < |jobs| ==> Original(jobs[i]) in m.ledger.seen && Original(jobs[i]) in old(m.ledger).seen
    ensures ok && m.ledger.alone ==> Poised(old(m.ledger), m.ledger, findings, jobs, b, secret)
    ensures m.Faultless() && old(m.ledger).alone &&
            Securable(old(m.ledger), old(m.disk).owner, findings, stamp) ==>
              ok
  {
    hide Machine.Valid, Vaulted, FileKept, Grows, QuarantineName, Upholds, Sound, Ordered, Steady, Reached, Settled,
      Current, AllReady, Draining, Distinct, Discovers, BackedUp, Discardable, NoLeaves, HasPrivate, Secured, Newborn,
      Items, Passed, Longer, NodesKept, Compiled, TidyAt, Plan, MayOpen, AddsOrdinary, AddsOutside, AllThere, AddsFile,
      WorkspacesFree, PlansFit, Poised, AllCurrent;
    HistoryGrows();
    ghost var start, owner := m.ledger, m.disk.owner;
    ghost var sure := m.Faultless() && start.alone && Securable(start, owner, findings, stamp);
    AtStart(m);
    ok, jobs, b, vault := false, [], ROOT, {};
    var began, place := Open(m, findings, stamp, secret);
    if !began { return; }
    b, vault := place, {place};
    ghost var h := m.ledger;
    GrowsKnown(start, h);
    if start.alone { AllCurrentGrows(start, h, findings, stamp); }
    if sure { WorkspacesOrdinary(start, h, findings, stamp); }
    var prepared, all, workspaces := Prepare(m, findings, stamp, secret, b, vault);
    jobs := all;
    if !prepared { return; }
    GrowsTransitive(start, h, m.ledger);
    GrowsKnown(h, m.ledger);
    KeyStays(h, m.ledger, findings, stamp, secret, m.disk.owner);
    if start.alone { TidyStays(h, m.ledger, owner, b, vault, {[KEY_NAME]}, Plan(findings)); }
    h := m.ledger;
    var backed, grown := BackUp(m, jobs, workspaces, stamp, secret, b, vault, findings);
    if !backed { return; }
    vault := grown;
    GrowsTransitive(start, h, m.ledger);
    GrowsKnown(h, m.ledger);
    KeyStays(h, m.ledger, findings, stamp, secret, m.disk.owner);
    GrowsKnown(start, m.ledger);
    ghost var l := m.ledger;
    if sure { PendingIsFree(l, owner, b, vault, jobs, findings, stamp, secret); }
    NamesCurrent(start, findings);
    ok := WritePending(m, start, stamp, secret, b, vault, findings, jobs, workspaces);
    if ok && start.alone { NowPoised(start, l, m.ledger, owner, b, vault, jobs, findings, stamp, secret); }
  }

  lemma NamesCurrent(g: Ledger, findings: seq<Finding>)
    ensures AllCurrent(g, findings) <==> forall i :: 0 <= i < |findings| ==> Current(g, findings[i])
  {
  }

  lemma PendingIsFree(g: Ledger, owner: nat, b: Ino, vault: set<Ino>, jobs: seq<Job>, findings: seq<Finding>,
          stamp: string, secret: nat)
    requires AllReady(g, jobs, findings, stamp, secret) && AllCompiled(findings, stamp)
    requires TidyAt(g, owner, b, vault, Written(jobs, |jobs|), Plan(findings), b, [])
    requires PlansFit(findings)
    ensures Key(b, PENDING) !in g.seen
  {
    hide AllReady, TidyAt, Written, Plan, QuarantineName, Compiled, PathTo;
    forall i | 0 <= i < |findings| && findings[i].dirs != [] ensures findings[i].dirs[0] != PENDING {
      assert OffReserved(findings[i]);
    }
    assert Written(jobs, |jobs|) + {} == Written(jobs, |jobs|);
    NoReceiptYet(g, owner, b, vault, jobs, findings, stamp, secret, {}, PENDING);
  }

  lemma NowPoised(start: Ledger, g: Ledger, h: Ledger, owner: nat, b: Ino, vault: set<Ino>, jobs: seq<Job>,
          findings: seq<Finding>, stamp: string, secret: nat)
    requires AllReady(g, jobs, findings, stamp, secret) && AllCompiled(findings, stamp) && |jobs| == |findings|
    requires AllReady(h, jobs, findings, stamp, secret) && g.alone
    requires forall i :: 0 <= i < |jobs| ==> BackedUp(g, stamp, jobs[i])
    requires TidyAt(g, owner, b, vault, Written(jobs, |jobs|), Plan(findings), b, [])
    requires AddsFile(g, h, Key(b, PENDING)) && Grows(g, h) && Grows(start, h) && AllCurrent(start, findings)
    requires Vaulted(g, owner, stamp, b, vault)
    ensures Poised(start, h, findings, jobs, b, secret)
  {
    hide Vaulted, Reached, KeptDirectory, AllReady, TidyAt, Written, Plan, QuarantineName, Compiled, Grows, AllThere,
      AllCurrent, BackedUp, Current, AddsFile, Original, PlaceOf;
    VaultedRoot(g, owner, stamp, b, vault);
    ReachedIsKept(g, BackupDirs(stamp), b);
    BackedUpIsThere(g, jobs, findings, stamp, secret);
    AllThereGrows(g, h, jobs, secret);
    AllAtPlace(start, h, jobs, findings, stamp, secret);
    GrowsKnown(g, h);
    if OffReceipt(findings) {
      TidyFile(g, h, owner, b, vault, Written(jobs, |jobs|), Plan(findings), b, [], PENDING);
      ReceiptsDiffer();
      assert [] + [PENDING] == [PENDING];
      NoReceiptYet(h, owner, b, vault, jobs, findings, stamp, secret, {[PENDING]}, COMPLETE);
    } else {
      var i :| 0 <= i < |findings| && findings[i].dirs != [] && findings[i].dirs[0] == COMPLETE;
      JobDescribes(g, jobs, findings, stamp, secret, i);
      KeptBackup(g, stamp, jobs[i]);
      ReceiptIsTaken(g, stamp, jobs[i], b);
    }
  }

  lemma ReceiptsDiffer()
    ensures PENDING != COMPLETE && [PENDING] != [COMPLETE]
  {
    assert PENDING[8] == 'p' && COMPLETE[8] == 'j';
    assert [PENDING][0] != [COMPLETE][0];
  }

  lemma KeptBackup(g: Ledger, stamp: string, job: Job)
    requires BackedUp(g, stamp, job)
    ensures BackupKept(g, stamp, job.item)
  {
  }

  /** Writes the pending receipt, and commits once it is durable. */
  method WritePending(m: Machine, ghost start: Ledger, stamp: string, secret: nat, b: Ino, ghost vault: set<Ino>,
          findings: seq<Finding>,
                      jobs: seq<Job>, workspaces: seq<Key>) returns (ok: bool)
    requires m.Valid() && !m.committed && AllReady(m.ledger, jobs, findings, stamp, secret)
    requires AllCompiled(findings, stamp) && |jobs| == |findings|
    requires Vaulted(m.ledger, m.disk.owner, stamp, b, vault) &&
             forall i :: 0 <= i < |jobs| ==> BackedUp(m.ledger, stamp, jobs[i])
    requires HasPrivate(findings) ==> FileKept(m.ledger, stamp, KEY_NAME, KeyFile(secret), m.disk.owner)
    requires Newborn(start) && (start.calm ==> Settled(start)) && Grows(start, m.ledger)
    requires m.ledger.calm == start.calm && m.ledger.alone == start.alone
    requires m.ledger.alone ==> forall i :: 0 <= i < |findings| ==> Current(start, findings[i])
    requires forall i :: 0 <= i < |workspaces| ==> Discardable(m.ledger, workspaces[i])
    requires forall i, j :: 0 <= i < j < |workspaces| ==> workspaces[i] != workspaces[j]
    requires !QuarantineName(stamp)
    modifies m
    ensures m.Valid() && m.Onward() && m.committed == ok
    ensures ok ==> m.pledge == Pledge(m.disk.owner, stamp, Items(jobs), secret) && Grows(start, m.ledger)
    ensures ok ==> AllReady(m.ledger, jobs, findings, stamp, secret)
    ensures ok ==> Distinct(jobs) && Draining(m.ledger, m.disk.owner, b, vault, jobs, 0, m.pledge)
    ensures ok && m.ledger.alone ==>
              forall i :: 0 <= i < |jobs| ==> Original(jobs[i]) in m.ledger.seen && Original(jobs[i]) in start.seen
    ensures ok ==> m.ledger.alone == start.alone && Grows(old(m.ledger), m.ledger)
    ensures ok && old(m.ledger).alone ==> AddsFile(old(m.ledger), m.ledger, Key(b, PENDING))
    ensures m.Faultless() && old(m.ledger).alone && Key(b, PENDING) !in old(m.ledger).seen ==> ok
  {
    hide Machine.Valid, Vaulted, FileKept, Grows, QuarantineName, Upholds, Sound, Ordered, Settled, Current, AllReady,
      Draining, Distinct, Discovers, BackedUp, Discardable, HasPrivate, Secured, Newborn, Items, Passed, Longer,
      NodesKept, Compiled, AddsFile;
    HistoryGrows();
    ghost var h := m.ledger;
    Uncommitted(m);
    var receipt := Receipt(Prepared, stamp, Items(jobs));
    var written, settled := WriteDurable(m, b, PENDING, ReceiptFile(receipt), stamp, vault);
    ok := settled;
    if !settled {
      if !written {
        forall i | 0 <= i < |workspaces| ensures Discardable(m.ledger, workspaces[i]) {
          DiscardableGrows(h, m.ledger, workspaces[i]);
        }
        Discard(m, workspaces);
      }
      return;
    }
    GrowsTransitive(start, h, m.ledger);
    GrowsKnown(start, m.ledger);
    KeyStays(h, m.ledger, findings, stamp, secret, m.disk.owner);
    PreparedGrows(h, m.ledger, jobs, findings, stamp, secret);
    AllBackedUp(h, m.ledger, jobs, findings, stamp, secret);
    PledgeSecured(m, start, stamp, secret, b, vault, findings, jobs);
  }

  /** From here on the pledge holds: the first rename may follow. */
  method PledgeSecured(m: Machine, ghost start: Ledger, stamp: string, secret: nat, b: Ino, ghost vault: set<Ino>,
          findings: seq<Finding>, jobs: seq<Job>)
    requires m.Valid() && !m.committed && AllReady(m.ledger, jobs, findings, stamp, secret)
    requires AllCompiled(findings, stamp) && |jobs| == |findings|
    requires Vaulted(m.ledger, m.disk.owner, stamp, b, vault) &&
             forall i :: 0 <= i < |jobs| ==> BackedUp(m.ledger, stamp, jobs[i])
    requires FileKept(m.ledger, stamp, PENDING, ReceiptFile(Receipt(Prepared, stamp, Items(jobs))), m.disk.owner)
    requires HasPrivate(findings) ==> FileKept(m.ledger, stamp, KEY_NAME, KeyFile(secret), m.disk.owner)
    requires Newborn(start) && (start.calm ==> Settled(start)) && Grows(start, m.ledger)
    requires m.ledger.calm == start.calm && m.ledger.alone == start.alone
    requires m.ledger.alone ==> forall i :: 0 <= i < |findings| ==> Current(start, findings[i])
    modifies m
    ensures m.Valid() && m.Onward() && m.committed && m.ledger == old(m.ledger) && m.disk == old(m.disk)
    ensures m.pledge == Pledge(m.disk.owner, stamp, Items(jobs), secret)
    ensures Distinct(jobs) && Draining(m.ledger, m.disk.owner, b, vault, jobs, 0, m.pledge)
    ensures m.ledger.alone ==>
              forall i :: 0 <= i < |jobs| ==> Original(jobs[i]) in m.ledger.seen && Original(jobs[i]) in start.seen
  {
    hide Machine.Valid, Vaulted, FileKept, Grows, QuarantineName, Upholds, Sound, Ordered, Settled, Current, AllReady,
      Draining, Distinct, BackedUp, HasPrivate, Secured, Newborn, Items, Compiled;
    ghost var p := Pledge(m.disk.owner, stamp, Items(jobs), secret);
    CalmAlone(m);
    NowSecured(start, m.ledger, m.disk.owner, stamp, secret, b, vault, findings, jobs);
    Uncommitted(m);
    NowDraining(m.ledger, m.disk.owner, b, vault, findings, jobs, p);
    if m.ledger.alone { AllSeen(start, m.ledger, jobs, findings, stamp, secret); }
    m.Commit(p);
  }

  lemma AtStart(m: Machine)
    requires m.Valid() && m.ledger == m.start
    ensures Newborn(m.ledger)
  {
    hide Upholds, Secured, Recorded, Keeps, Newborn;
  }

  lemma CalmAlone(m: Machine)
    requires m.Valid()
    ensures m.ledger.calm ==> m.ledger.alone
  {
    hide Upholds, Secured, Recorded, Keeps, Newborn;
    CalmIsAlone(m.disk, m.ledger);
  }

  lemma NothingMade(start: Ledger, g: Ledger)
    requires Newborn(start) && Discovers(start, g) && Reached(start, [], ROOT)
    ensures NoLeaves(g) && Reached(g, [], ROOT)
  {
  }

  lemma RootStays(g: Ledger, h: Ledger)
    requires Reached(g, [], ROOT) && Grows(g, h)
    ensures Reached(h, [], ROOT)
  {
  }

  lemma VaultedAt(g: Ledger, owner: nat, stamp: string, b: Ino)
    requires Steady(g) && Rooted(g, owner, stamp, b) && Shelter(g, stamp, {b})
    ensures Vaulted(g, owner, stamp, b, {b})
  {
  }

  lemma KeyStays(g: Ledger, h: Ledger, findings: seq<Finding>, stamp: string, secret: nat, owner: nat)
    requires Grows(g, h) && !QuarantineName(stamp)
    requires HasPrivate(findings) ==> FileKept(g, stamp, KEY_NAME, KeyFile(secret), owner)
    ensures HasPrivate(findings) ==> FileKept(h, stamp, KEY_NAME, KeyFile(secret), owner)
  {
    hide FileKept, Grows, HasPrivate;
    if HasPrivate(findings) { FileGrows(g, h, stamp, KEY_NAME, KeyFile(secret), owner); }
  }

  lemma AllBackedUp(g: Ledger, h: Ledger, jobs: seq<Job>, findings: seq<Finding>, stamp: string, secret: nat)
    requires AllReady(g, jobs, findings, stamp, secret) && AllCompiled(findings, stamp) && Grows(g, h)
    requires forall i :: 0 <= i < |jobs| ==> BackedUp(g, stamp, jobs[i])
    ensures forall i :: 0 <= i < |jobs| ==> BackedUp(h, stamp, jobs[i])
  {
    hide AllReady, BackedUp, Grows;
    forall i | 0 <= i < |jobs| ensures BackedUp(h, stamp, jobs[i]) {
      PreparedPath(g, jobs, findings, stamp, secret, i);
      BackedUpGrows(g, h, stamp, jobs[i]);
    }
  }

  lemma AllSeen(start: Ledger, g: Ledger, jobs: seq<Job>, findings: seq<Finding>, stamp: string, secret: nat)
    requires AllReady(g, jobs, findings, stamp, secret) && AllCompiled(findings, stamp) && Grows(start, g) && g.alone
    requires |jobs| == |findings|
    requires forall i :: 0 <= i < |jobs| ==> BackedUp(g, stamp, jobs[i])
    requires forall i :: 0 <= i < |findings| ==> Current(start, findings[i])
    ensures forall i :: 0 <= i < |jobs| ==> Original(jobs[i]) in g.seen && Original(jobs[i]) in start.seen
  {
    hide BackupKept, Grows;
    forall i | 0 <= i < |jobs| ensures Original(jobs[i]) in g.seen && Original(jobs[i]) in start.seen {
      PreparedPath(g, jobs, findings, stamp, secret, i);
      assert Describes(jobs[i].item, findings[i], stamp, secret) && BackedUp(g, stamp, jobs[i]);
      SameRoute(start, g, findings[i].dirs, jobs[i].parent);
    }
  }

  lemma SameRoute(start: Ledger, g: Ledger, dirs: seq<string>, parent: Ino)
    requires Grows(start, g) && CleanPath(dirs) && KeptDirectory(start, dirs).Some? && Reached(g, dirs, parent)
    ensures KeptDirectory(start, dirs) == Some(parent)
  {
    LookupStays(KeptNames(start), KeptNodes(start), KeptNames(g), KeptNodes(g), dirs);
  }

  /** Seen from the start: the originals are gone, everything else that was visible
      is as it was, and every other name leads to an inode that is new. */
  ghost predicate OnlyOriginalsGone(start: Ledger, g: Ledger, jobs: seq<Job>) {
    && (forall j :: 0 <= j < |jobs| ==> Original(jobs[j]) in start.seen && Original(jobs[j]) !in g.seen)
    && (forall k ::
          k in start.seen && (forall j :: 0 <= j < |jobs| ==> k != Original(jobs[j])) ==>
            k in g.seen && g.seen[k] == start.seen[k])
    && (forall k :: k in g.seen && k !in start.seen ==> g.seen[k] !in start.known)
  }

  lemma {:induction false} Vacates(jobs: seq<Job>, n: nat, j: nat)
    requires j < n <= |jobs|
    ensures Original(jobs[j]) in Vacated(jobs, n)
  {
    if j < n - 1 { Vacates(jobs, n - 1, j); }
  }

  lemma {:induction false} VacatesNoOther(jobs: seq<Job>, n: nat, k: Key)
    requires n <= |jobs| && forall j :: 0 <= j < n ==> k != Original(jobs[j]) && k != Workspace(jobs[j])
    ensures k !in Vacated(jobs, n)
  {
    if n > 0 { VacatesNoOther(jobs, n - 1, k); }
  }

  lemma WorkspacesAreNew(start: Ledger, g: Ledger, jobs: seq<Job>)
    requires Newborn(start) && Grows(start, g) && Sound(g) && forall j :: 0 <= j < |jobs| ==> Ready(g, jobs[j])
    ensures forall j :: 0 <= j < |jobs| ==> Workspace(jobs[j]) !in start.seen
  {
    hide Ready, Newborn, Sound, Grows, Keeps;
    GrowsKeeps(start, g);
    forall j | 0 <= j < |jobs| ensures Workspace(jobs[j]) !in start.seen {
      ReadyFacts(g, jobs[j]);
      StartIsOld(start, g, jobs[j].quarantine);
    }
  }

  lemma GrowsKeeps(g: Ledger, h: Ledger)
    requires Grows(g, h)
    ensures Keeps(g, h) && (g.alone ==> forall k :: k in h.seen && k !in g.seen ==> h.seen[k] !in g.known)
  {
  }

  lemma GrowsSeen(g: Ledger, h: Ledger)
    requires Grows(g, h)
    ensures forall k :: k in g.seen ==> k in h.seen && h.seen[k] == g.seen[k]
    ensures h.alone == g.alone && (g.alone ==> forall k :: k in h.seen && k !in g.seen ==> h.seen[k] !in g.known)
  {
    GrowsKeeps(g, h);
  }

  lemma AfterRemovals(start: Ledger, g: Ledger, h: Ledger, jobs: seq<Job>)
    requires Newborn(start) && Grows(start, g) && Sound(g) && g.alone
    requires forall j :: 0 <= j < |jobs| ==> Original(jobs[j]) in start.seen && Ready(g, jobs[j])
    requires h.seen == g.seen - Vacated(jobs, |jobs|)
    ensures OnlyOriginalsGone(start, h, jobs)
  {
    hide Ready, Newborn, Sound, Grows, Keeps, Original, Workspace, Vacated;
    GrowsSeen(start, g);
    WorkspacesAreNew(start, g, jobs);
    VacatedOriginals(start.seen.Keys, jobs);
    WithoutVacated(start, g, h, jobs, Vacated(jobs, |jobs|));
  }

  lemma WithoutVacated(start: Ledger, g: Ledger, h: Ledger, jobs: seq<Job>, vacated: set<Key>)
    requires forall k :: k in start.seen ==> k in g.seen && g.seen[k] == start.seen[k]
    requires forall k :: k in g.seen && k !in start.seen ==> g.seen[k] !in start.known
    requires h.seen == g.seen - vacated &&
             forall j :: 0 <= j < |jobs| ==> Original(jobs[j]) in start.seen && Original(jobs[j]) in vacated
    requires forall k :: k in start.seen && (forall j :: 0 <= j < |jobs| ==> k != Original(jobs[j])) ==> k !in vacated
    ensures OnlyOriginalsGone(start, h, jobs)
  {
    hide Original;
  }

  /** Of the names that were there, exactly the originals are vacated. */
  lemma VacatedOriginals(old': set<Key>, jobs: seq<Job>)
    requires forall j :: 0 <= j < |jobs| ==> Original(jobs[j]) in old' && Workspace(jobs[j]) !in old'
    ensures forall j :: 0 <= j < |jobs| ==> Original(jobs[j]) in Vacated(jobs, |jobs|)
    ensures forall k ::
              k in old' && (forall j :: 0 <= j < |jobs| ==> k != Original(jobs[j])) ==> k !in Vacated(jobs, |jobs|)
  {
    hide Original, Workspace, Vacated;
    forall j | 0 <= j < |jobs| ensures Original(jobs[j]) in Vacated(jobs, |jobs|) {
      Vacates(jobs, |jobs|, j);
    }
    forall k | k in old' && (forall j :: 0 <= j < |jobs| ==> k != Original(jobs[j]))
      ensures k !in Vacated(jobs, |jobs|)
    {
      VacatesNoOther(jobs, |jobs|, k);
    }
  }

  lemma AfterReceipt(start: Ledger, h: Ledger, l: Ledger, jobs: seq<Job>, gone: Key, new': Key)
    requires OnlyOriginalsGone(start, h, jobs) && Superseded(h, l, gone, new') && h.alone && gone !in start.seen
    requires start.known.Keys <= h.known.Keys
    requires forall j :: 0 <= j < |jobs| ==> Original(jobs[j]) != new'
    ensures OnlyOriginalsGone(start, l, jobs)
  {
    hide Original;
  }

  /** What a run for these findings owes: one item for each of them, in order. */
  ghost predicate Pledged(p: Pledge, owner: nat, findings: seq<Finding>, stamp: string, secret: nat) {
    && p.owner == owner && p.stamp == stamp && p.secret == secret && |p.items| == |findings|
    && forall i :: 0 <= i < |findings| ==> Describes(p.items[i], findings[i], stamp, secret)
  }

  /** A run of Apply for these findings, however it ended: as soon as an original may be
      renamed, the machine owes exactly what the findings say. */
  ghost predicate Ran(m: Machine, findings: seq<Finding>, stamp: string, secret: nat)
    reads m
  {
    m.committed ==> Pledged(m.pledge, m.disk.owner, findings, stamp, secret)
  }

  /** Every original was removed, in the order of the receipt, each with its warrant. */
  ghost predicate AllRemoved(m: Machine, jobs: seq<Job>, removals: seq<nat>)
    reads m
  {
    && m.committed && m.pledge.items == Items(jobs) && |removals| == |jobs|
    && forall i :: 0 <= i < |jobs| ==> RemovedAt(m.pledge, m.history, jobs[i], removals[i])
  }

  /** What a successful run leaves besides: the durable receipt, and when nobody else
      acts exactly the originals gone. */
  ghost predicate Applied(m: Machine, findings: seq<Finding>, receipt: Receipt, jobs: seq<Job>)
    reads m
  {
    && FileKept(m.ledger, m.pledge.stamp, COMPLETE, ReceiptFile(receipt), m.disk.owner)
    && (m.start.alone ==>
          m.ledger.alone && OnlyOriginalsGone(m.start, m.ledger, jobs) && |jobs| == |findings| &&
          AllCurrent(m.start, findings) &&
          forall i :: 0 <= i < |jobs| ==> Original(jobs[i]) == PlaceOf(m.start, findings[i]))
  }

  /** Apply, from a fresh process on an opened root, for the recognised findings of
      a reviewed plan.  Whatever fails, and whatever others do, the machine stays valid
      and owes what the plan says from before the first rename; the receipt is returned
      from then on, prepared while originals are being removed, and complete when every
      one of them was.  Alone and without failures a plan that can be secured is, and
      then the run finishes exactly if no two findings are about one name and none lies
      below a top-level directory that is called as the completed receipt is. */
  method Apply(m: Machine, findings: seq<Finding>, stamp: string, secret: nat)
      returns (receipt: Option<Receipt>, done: bool, ghost jobs: seq<Job>, ghost removals: seq<nat>)
    requires m.Valid() && !m.committed && m.ledger == m.start && Steady(m.ledger) && Reached(m.ledger, [], ROOT)
    requires AllCompiled(findings, stamp) && (m.ledger.calm ==> Settled(m.ledger))
    modifies m
    ensures m.Valid() && m.Onward() && Ran(m, findings, stamp, secret)
    ensures findings == [] ==>
              done && receipt == Some(Receipt(Complete, "", [])) && m.disk == old(m.disk) && !m.committed
    ensures findings != [] ==> (receipt.Some? <==> m.committed) && (done ==> receipt.Some?)
    ensures m.committed ==> receipt.value.stamp == stamp && receipt.value.changes == m.pledge.items
    ensures m.committed && receipt.value.state.Complete? ==> AllRemoved(m, jobs, removals)
    ensures m.committed && done ==> receipt.value.state.Complete? && Applied(m, findings, receipt.value, jobs)
    ensures m.Faultless() && m.start.alone && m.committed ==>
              (done <==> Separate(m.start, findings) && OffReceipt(findings))
    ensures m.Faultless() && m.start.alone && findings != [] &&
            Securable(m.start, old(m.disk).owner, findings, stamp) ==>
              m.committed
  {
    hide Machine.Valid, Draining, FileKept, Grows, QuarantineName, Sound, Ordered, Steady, Reached, Settled, Current,
      AllReady, Distinct, Secured, Newborn, Items, Passed, Compiled, RemovedAt, OnlyOriginalsGone, Describes, Vacated,
      Ready, Original, Longer, Securable, Separate, OffReceipt, Poised, ApartUpTo, StillThere, AllCurrent, PlaceOf;
    HistoryGrows();
    jobs, removals, receipt, done := [], [], None, false;
    if findings == [] { return Some(Receipt(Complete, "", [])), true, jobs, removals; }
    AtStart(m);
    var ok, all, b, vault := Secure(m, findings, stamp, secret);
    jobs := all;
    if !ok { return; }
    ghost var g := m.ledger;
    ValidSound(m);
    DrainingStamp(findings, stamp);
    GrowsKnown(m.start, g);
    DescribedAll(g, all, findings, stamp, secret);
    if g.alone { PoisedFacts(m.start, g, findings, all, b, secret); }
    receipt := Some(Receipt(Prepared, stamp, Items(all)));
    ok, removals := RemoveAll(m, all, secret, b, vault);
    if !ok { return; }
    ghost var h, drained := m.ledger, m.history;
    ReceiptNameStays(g, h, all, b);
    receipt := Some(Receipt(Complete, stamp, Items(all)));
    done := Finish(m, all, stamp, b, vault);
    forall j | 0 <= j < |all| ensures RemovedAt(m.pledge, m.history, all[j], removals[j]) {
      RemovedStays(m.pledge, drained, m.history, all[j], removals[j]);
    }
    if !done { return; }
    CompleteRemains(m.ledger, m.pledge, b);
    if g.alone {
      GrowsKnown(m.start, g);
      AfterRemovals(m.start, g, h, all);
      PendingIsNew(m.start, g, h, all, b);
      AfterReceipt(m.start, h, m.ledger, all, Key(b, PENDING), Key(b, COMPLETE));
    }
  }

  lemma PoisedFacts(start: Ledger, g: Ledger, findings: seq<Finding>, jobs: seq<Job>, b: Ino, secret: nat)
    requires Poised(start, g, findings, jobs, b, secret)
    ensures StillThere(g, jobs, 0, secret) && |jobs| == |findings|
    ensures forall i :: 0 <= i < |jobs| ==> Original(jobs[i]) == PlaceOf(start, findings[i])
    ensures ApartUpTo(jobs, |jobs|) <==> Separate(start, findings)
    ensures Key(b, COMPLETE) !in g.seen <==> OffReceipt(findings)
  {
    hide Original, PlaceOf, ThereFor, OffReceipt;
    if ApartUpTo(jobs, |jobs|) {
      forall i, j | 0 <= i < j < |findings| ensures PlaceOf(start, findings[i]) != PlaceOf(start, findings[j]) {
        assert Original(jobs[i]) != Original(jobs[j]);
      }
    }
  }

  lemma ReceiptNameStays(g: Ledger, h: Ledger, jobs: seq<Job>, b: Ino)
    requires h.seen == g.seen - Vacated(jobs, |jobs|) && forall j :: 0 <= j < |jobs| ==> Ready(g, jobs[j])
    requires forall j :: 0 <= j < |jobs| ==> Original(jobs[j]) != Key(b, COMPLETE)
    ensures Key(b, COMPLETE) in h.seen <==> Key(b, COMPLETE) in g.seen
  {
    hide Vacated, Original, Beside;
    OrdinaryNames();
    forall j | 0 <= j < |jobs| ensures Workspace(jobs[j]) != Key(b, COMPLETE) { assert Ready(g, jobs[j]); }
    VacatesNoOther(jobs, |jobs|, Key(b, COMPLETE));
  }

  lemma DrainingStamp(findings: seq<Finding>, stamp: string)
    requires AllCompiled(findings, stamp)
    ensures !QuarantineName(stamp)
  {
  }

  lemma DescribedAll(g: Ledger, jobs: seq<Job>, findings: seq<Finding>, stamp: string, secret: nat)
    requires AllReady(g, jobs, findings, stamp, secret) && AllCompiled(findings, stamp)
    ensures forall i :: 0 <= i < |jobs| ==> Describes(jobs[i].item, findings[i], stamp, secret) && Ready(g, jobs[i])
    ensures forall i, b :: 0 <= i < |jobs| ==> Original(jobs[i]) != Key(b, COMPLETE)
  {
    hide Ready, Attests;
    forall i | 0 <= i < |jobs| ensures jobs[i].item.leaf != COMPLETE {
      assert Compiled(findings[i], stamp) && Describes(jobs[i].item, findings[i], stamp, secret);
    }
  }

  lemma PendingIsNew(start: Ledger, g: Ledger, h: Ledger, jobs: seq<Job>, b: Ino)
    requires Newborn(start) && Grows(start, g) && Sound(g) && h.made == g.made
    requires h.seen == g.seen - Vacated(jobs, |jobs|)
    requires Key(b, PENDING) in h.seen && h.seen[Key(b, PENDING)] in h.made
    ensures Key(b, PENDING) !in start.seen
  {
    hide Newborn, Sound, Grows, Keeps, Vacated;
    GrowsKeeps(start, g);
    StartIsOld(start, g, g.seen[Key(b, PENDING)]);
  }
}
