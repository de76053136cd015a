/** What Apply does before it may touch an original: it makes one private directory
    for the transaction, a quarantine beside every original, and a verified durable
    copy of every reviewed entry. */
module CleanupBackup {
  import opened Wrappers
  import opened CleanupTypes
  import opened Disks
  import opened Ledgers
  import opened Pledges
  import opened Machines
  import opened CleanupSteps
  import opened CleanupRoutes

  /** What the compiled rules and the time stamp guarantee about a finding. */
  predicate Compiled(f: Finding, stamp: string) {
    CompiledPath(f.dirs, f.leaf, stamp)
  }

  predicate CompiledPath(dirs: seq<string>, leaf: string, stamp: string) {
    && CleanPath(dirs) && stamp !in dirs && !QuarantineName(leaf)
    && leaf != PENDING && leaf != COMPLETE && leaf != KEY_NAME
  }

  function QuarantineDirectory(stamp: string, rule: string): string {
    QUARANTINE_PREFIX + stamp + "-" + rule
  }

  /** The receipt item says what the finding says; only the digest of private bytes
      is replaced by a tag under the transaction's key. */
  predicate Describes(item: Item, f: Finding, stamp: string, secret: nat) {
    && item.rule == f.rule && item.dirs == f.dirs && item.leaf == f.leaf && item.meta == f.meta
    && item.quarantine == Some(QuarantineDirectory(stamp, f.rule))
    && Attests(item.evidence, f.reviewed, secret)
  }

  datatype Job = Job(item: Item, parent: Ino, quarantine: Ino)

  function Original(job: Job): Key {
    Key(job.parent, job.item.leaf)
  }

  function Workspace(job: Job): Key {
    Key(job.parent, if job.item.quarantine.Some? then job.item.quarantine.value else "")
  }

  /** An empty private directory beside an original, with its route. */
  ghost predicate Beside(g: Ledger, dirs: seq<string>, parent: Ino, name: string, q: Ino) {
    && Reached(g, dirs, parent) && IsDirectory(g, Key(parent, name), q) && q in g.empty && q in g.made
    && q in g.sole && g.sole[q] == Key(parent, name)
  }

  /** The job's parent is open and its quarantine is ready and empty. */
  ghost predicate Ready(g: Ledger, job: Job) {
    && job.item.quarantine.Some? && QuarantineName(job.item.quarantine.value)
    && Beside(g, job.item.dirs, job.parent, job.item.quarantine.value, job.quarantine)
  }

  lemma ReadyGrows(g: Ledger, h: Ledger, job: Job)
    requires Ready(g, job) && Grows(g, h) && CleanPath(job.item.dirs)
    ensures Ready(h, job)
  {
    ReachedGrows(g, h, job.item.dirs, job.parent);
  }

  /** What the transaction's own directories hold, by path below the private directory:
      `place` says where each of them is, every file is one of `files`, and every
      directory leads to one of the planned paths. */
  ghost predicate TidyBy(g: Ledger, owner: nat, place: map<Ino, seq<string>>, files: set<seq<string>>,
          plan: set<seq<string>>) {
    forall k :: k in g.seen && k.dir in place ==> Expected(g, owner, place, files, plan, k)
  }

  ghost predicate Expected(g: Ledger, owner: nat, place: map<Ino, seq<string>>, files: set<seq<string>>,
          plan: set<seq<string>>, k: Key)
    requires k in g.seen && k.dir in place
  {
    var path := place[k.dir] + [k.name];
    g.seen[k] in g.known &&
    if g.known[g.seen[k]].Directory? then
      g.seen[k] in place && place[g.seen[k]] == path && LeadsTo(plan, path) &&
      Acceptable(owner, MODE_0700, g.known[g.seen[k]].meta)
    else path in files
  }

  /** The path is a directory above a planned one. */
  ghost predicate LeadsTo(plan: set<seq<string>>, path: seq<string>) {
    exists p :: p in plan && path < p
  }

  /** The directory `dir` of the tidy vault lies at `path`. */
  ghost predicate TidyAt(g: Ledger, owner: nat, b: Ino, vault: set<Ino>, files: set<seq<string>>,
          plan: set<seq<string>>, dir: Ino, path: seq<string>) {
    exists place: map<Ino, seq<string>> :: IsTidy(g, owner, b, vault, files, plan, dir, path, place)
  }

  ghost predicate IsTidy(g: Ledger, owner: nat, b: Ino, vault: set<Ino>, files: set<seq<string>>,
          plan: set<seq<string>>, dir: Ino, path: seq<string>, place: map<Ino, seq<string>>) {
    && place.Keys == vault && vault <= g.known.Keys
    && b in place && place[b] == [] && dir in place && place[dir] == path
    && TidyBy(g, owner, place, files, plan)
  }

  ghost predicate NothingIn(g: Ledger, dir: Ino) {
    forall k :: k in g.seen ==> k.dir != dir
  }

  lemma TidyNew(g: Ledger, owner: nat, b: Ino, plan: set<seq<string>>)
    requires NothingIn(g, b) && b in g.known
    ensures TidyAt(g, owner, b, {b}, {}, plan, b, [])
  {
    assert IsTidy(g, owner, b, {b}, {}, plan, b, [], map[b := []]);
  }

  lemma TidyRoot(g: Ledger, owner: nat, b: Ino, vault: set<Ino>, files: set<seq<string>>, plan: set<seq<string>>,
          dir: Ino, path: seq<string>)
    requires TidyAt(g, owner, b, vault, files, plan, dir, path)
    ensures TidyAt(g, owner, b, vault, files, plan, b, [])
  {
    hide TidyBy;
    var place :| IsTidy(g, owner, b, vault, files, plan, dir, path, place);
    assert IsTidy(g, owner, b, vault, files, plan, b, [], place);
  }

  lemma TidyFiles(g: Ledger, owner: nat, b: Ino, vault: set<Ino>, files: set<seq<string>>, more: set<seq<string>>,
          plan: set<seq<string>>)
    requires TidyAt(g, owner, b, vault, files, plan, b, []) && files <= more
    ensures TidyAt(g, owner, b, vault, more, plan, b, [])
  {
    hide LeadsTo;
    var place :| IsTidy(g, owner, b, vault, files, plan, b, [], place);
    forall k | k in g.seen && k.dir in place ensures Expected(g, owner, place, more, plan, k) {
      assert Expected(g, owner, place, files, plan, k);
    }
    assert IsTidy(g, owner, b, vault, more, plan, b, [], place);
  }

  /** Nothing was added to the transaction's directories. */
  ghost predicate AddsOutside(g: Ledger, h: Ledger, vault: set<Ino>) {
    forall k :: k in h.seen && k.dir in vault ==> k in g.seen
  }

  lemma AddsOutsideMore(g: Ledger, h: Ledger, l: Ledger, vault: set<Ino>)
    requires AddsOutside(g, h, vault) && AddsOutside(h, l, vault)
    ensures AddsOutside(g, l, vault)
  {
  }

  lemma ExpectedStays(g: Ledger, h: Ledger, owner: nat, place: map<Ino, seq<string>>, files: set<seq<string>>,
          more: set<seq<string>>, plan: set<seq<string>>, k: Key)
    requires Grows(g, h) && k in g.seen && k.dir in place && Expected(g, owner, place, files, plan, k) && files <= more
    ensures k in h.seen && Expected(h, owner, place, more, plan, k)
  {
    hide LeadsTo, Grows;
    GrowsKnown(g, h);
  }

  lemma TidyStays(g: Ledger, h: Ledger, owner: nat, b: Ino, vault: set<Ino>, files: set<seq<string>>,
          plan: set<seq<string>>)
    requires TidyAt(g, owner, b, vault, files, plan, b, []) && Grows(g, h) && AddsOutside(g, h, vault)
    ensures TidyAt(h, owner, b, vault, files, plan, b, [])
  {
    hide Expected, Grows;
    GrowsKnown(g, h);
    var place :| IsTidy(g, owner, b, vault, files, plan, b, [], place);
    forall k | k in h.seen && k.dir in place ensures Expected(h, owner, place, files, plan, k) {
      ExpectedStays(g, h, owner, place, files, files, plan, k);
    }
    assert IsTidy(h, owner, b, vault, files, plan, b, [], place);
  }

  /** One entry was added, and it is not a directory. */
  ghost predicate AddsFile(g: Ledger, h: Ledger, k: Key) {
    k in h.seen && h.seen == g.seen[k := h.seen[k]] && h.seen[k] in h.known && !h.known[h.seen[k]].Directory?
  }

  lemma TidyFile(g: Ledger, h: Ledger, owner: nat, b: Ino, vault: set<Ino>, files: set<seq<string>>,
          plan: set<seq<string>>, dir: Ino, path: seq<string>, name: string)
    requires TidyAt(g, owner, b, vault, files, plan, dir, path) && Grows(g, h) && AddsFile(g, h, Key(dir, name))
    ensures TidyAt(h, owner, b, vault, files + {path + [name]}, plan, b, [])
  {
    hide Grows, LeadsTo, Acceptable;
    GrowsKnown(g, h);
    var more := files + {path + [name]};
    var place :| IsTidy(g, owner, b, vault, files, plan, dir, path, place);
    forall k | k in h.seen && k.dir in place ensures Expected(h, owner, place, more, plan, k) {
      if k != Key(dir, name) { ExpectedStays(g, h, owner, place, files, more, plan, k); }
    }
    assert IsTidy(h, owner, b, vault, more, plan, b, [], place);
  }

  lemma TidyDirectory(g: Ledger, h: Ledger, owner: nat, group: nat, b: Ino, vault: set<Ino>, files: set<seq<string>>,
          plan: set<seq<string>>, dir: Ino, path: seq<string>, name: string, i: Ino)
    requires TidyAt(g, owner, b, vault, files, plan, dir, path) && Grows(g, h) && LeadsTo(plan, path + [name])
    requires NewDirectory(owner, group, g, h, Key(dir, name), i, MODE_0700)
    ensures TidyAt(h, owner, b, vault + {i}, files, plan, i, path + [name])
  {
    hide Grows, LeadsTo;
    GrowsKnown(g, h);
    FreshIsNew(g, i);
    var place :| IsTidy(g, owner, b, vault, files, plan, dir, path, place);
    var wider := place[i := path + [name]];
    assert wider.Keys == vault + {i};
    forall k | k in h.seen && k.dir in wider ensures Expected(h, owner, wider, files, plan, k) {
      if k != Key(dir, name) { ExpectedStays(g, h, owner, place, files, files, plan, k); }
    }
    assert IsTidy(h, owner, b, vault + {i}, files, plan, i, path + [name], wider);
  }

  /** What is there already under a name on the way to a planned path. */
  lemma TidyChild(g: Ledger, owner: nat, b: Ino, vault: set<Ino>, files: set<seq<string>>, plan: set<seq<string>>,
          dir: Ino, path: seq<string>, name: string)
    requires TidyAt(g, owner, b, vault, files, plan, dir, path)
    ensures path + [name] !in files ==> Ensurable(g, owner, Key(dir, name), MODE_0700)
    ensures NamesKnownDirectory(g, Key(dir, name)) ==>
              TidyAt(g, owner, b, vault, files, plan, g.seen[Key(dir, name)], path + [name])
    ensures path + [name] !in files && !LeadsTo(plan, path + [name]) ==> Key(dir, name) !in g.seen
  {
    hide LeadsTo, Acceptable;
    var k := Key(dir, name);
    var place :| IsTidy(g, owner, b, vault, files, plan, dir, path, place);
    if k in g.seen {
      assert Expected(g, owner, place, files, plan, k);
      if g.known[g.seen[k]].Directory? {
        assert IsTidy(g, owner, b, vault, files, plan, g.seen[k], path + [name], place);
      }
    }
  }

  /** One directory of a backup path, with mode 0700. */
  method EnsurePrivateDirectory(m: Machine, dir: Ino, name: string, ghost dirs: seq<string>, ghost stamp: string,
          ghost vault: set<Ino>, ghost b: Ino, ghost files: set<seq<string>>, ghost plan: set<seq<string>>,
          ghost at: seq<string>)
      returns (child: Option<Ino>, ghost grown: set<Ino>)
    requires m.Valid() && !m.committed && Steady(m.ledger) && CleanPath(dirs) && !QuarantineName(name)
    requires Reached(m.ledger, dirs, dir) && Shelter(m.ledger, stamp, vault) && dir in vault
    modifies m
    ensures m.Valid() && !m.committed && m.Onward() && Grows(old(m.ledger), m.ledger)
    ensures child.Some? ==> Steady(m.ledger) && Reached(m.ledger, dirs + [name], child.value)
    ensures child.Some? ==> Closed(m.disk.owner, m.ledger, child.value) && child.value in grown
    ensures child.Some? ==> vault <= grown && Shelter(m.ledger, stamp, grown)
    ensures child.Some? && old(m.ledger).alone && LeadsTo(plan, at + [name]) &&
            TidyAt(old(m.ledger), old(m.disk).owner, b, vault, files, plan, dir, at) ==>
              TidyAt(m.ledger, m.disk.owner, b, grown, files, plan, child.value, at + [name])
    ensures m.Faultless() && old(m.ledger).alone && at + [name] !in files &&
            TidyAt(old(m.ledger), old(m.disk).owner, b, vault, files, plan, dir, at) ==>
              child.Some?
  {
    hide Machine.Valid, Passed, Longer, NodesKept, Grows, Steady, Reached, Shelter, Closed, Ensured, Acceptable,
      QuarantineName, Sound, Ordered, Upholds, CleanPath, TidyAt, LeadsTo, NewDirectory, Ensurable;
    HistoryGrows();
    ghost var g := m.ledger;
    Uncommitted(m);
    grown := vault;
    ghost var tidy := TidyAt(g, m.disk.owner, b, vault, files, plan, dir, at);
    if tidy { TidyChild(g, m.disk.owner, b, vault, files, plan, dir, at, name); }
    child := EnsureDirectory(m, dir, name, MODE_0700, dirs);
    if child.None? { return; }
    AcceptableFacts(m.disk.owner, m.ledger, child.value);
    var owner, group := m.disk.owner, m.disk.group;
    grown := ShelterChild(owner, group, g, m.ledger, stamp, vault, Key(dir, name), child.value, MODE_0700);
    if g.alone {
      GrownBy(owner, group, g, m.ledger, Key(dir, name), child.value);
      if Key(dir, name) !in g.seen && LeadsTo(plan, at + [name]) && tidy {
        TidyDirectory(g, m.ledger, owner, group, b, vault, files, plan, dir, at, name, child.value);
      }
    }
  }

  lemma GrownBy(owner: nat, group: nat, g: Ledger, h: Ledger, k: Key, i: Ino)
    requires if k in g.seen then h == g else NewDirectory(owner, group, g, h, k, i, MODE_0700)
    requires IsDirectory(h, k, i)
    ensures Discovers(g, h) <==> k in g.seen
    ensures k in g.seen ==> NamesKnownDirectory(g, k) && g.seen[k] == i
  {
    if k in g.seen { DiscoversReflexive(g); }
  }

  /** Every missing directory of a backup path. */
  method EnsurePrivateDirectories(m: Machine, b: Ino, parts: seq<string>, ghost stamp: string, ghost vault: set<Ino>,
          ghost files: set<seq<string>>, ghost plan: set<seq<string>>)
      returns (child: Option<Ino>, ghost grown: set<Ino>)
    requires m.Valid() && !m.committed && Steady(m.ledger) && !QuarantineName(stamp) && CleanPath(parts)
    requires Reached(m.ledger, BackupDirs(stamp), b) && Closed(m.disk.owner, m.ledger, b)
    requires Shelter(m.ledger, stamp, vault) && b in vault
    modifies m
    ensures m.Valid() && !m.committed && m.Onward() && Grows(old(m.ledger), m.ledger)
    ensures child.Some? ==> Steady(m.ledger) && Reached(m.ledger, BackupDirs(stamp) + parts, child.value)
    ensures child.Some? ==> Closed(m.disk.owner, m.ledger, child.value) && child.value in grown
    ensures child.Some? ==> vault <= grown && Shelter(m.ledger, stamp, grown)
    ensures child.Some? && old(m.ledger).alone && LeadsTo(plan, parts) &&
            TidyAt(old(m.ledger), old(m.disk).owner, b, vault, files, plan, b, []) ==>
              TidyAt(m.ledger, m.disk.owner, b, grown, files, plan, child.value, parts)
    ensures m.Faultless() && old(m.ledger).alone && LeadsTo(plan, parts) && OffFiles(files, parts) &&
            TidyAt(old(m.ledger), old(m.disk).owner, b, vault, files, plan, b, []) ==>
              child.Some?
  {
    hide Machine.Valid, Passed, Longer, NodesKept, Grows, Steady, Reached, Shelter, Closed, QuarantineName, CleanPath,
      BackupDirs, TidyAt, LeadsTo;
    HistoryGrows();
    ghost var g := m.ledger;
    ghost var tidy := g.alone && LeadsTo(plan, parts) && TidyAt(g, m.disk.owner, b, vault, files, plan, b, []);
    GrowsReflexive(g);
    assert parts[..0] == [];
    child, grown := Some(b), vault;
    var i := 0;
    assert BackupDirs(stamp) + parts[..0] == BackupDirs(stamp);
    while i < |parts|
      invariant i <= |parts| && m.Valid() && !m.committed && m.Onward() && Grows(g, m.ledger)
      invariant child.Some? && Steady(m.ledger) && Reached(m.ledger, BackupDirs(stamp) + parts[..i], child.value)
      invariant Closed(m.disk.owner, m.ledger, child.value) && child.value in grown
      invariant vault <= grown && Shelter(m.ledger, stamp, grown)
      invariant m.ledger.alone == g.alone
      invariant tidy ==> TidyAt(m.ledger, m.disk.owner, b, grown, files, plan, child.value, parts[..i])
    {
      ghost var h, v := m.ledger, grown;
      CleanBackupPath(stamp, parts, i);
      assert parts[..i + 1] == parts[..i] + [parts[i]];
      if tidy { LeadsToPrefix(plan, parts, i + 1); }
      child, grown := EnsurePrivateDirectory(m, child.value, parts[i], BackupDirs(stamp) + parts[..i], stamp, v, b,
                                             files, plan, parts[..i]);
      GrowsTransitive(g, h, m.ledger);
      GrowsKnown(h, m.ledger);
      if child.None? { return; }
      i := i + 1;
    }
    assert parts[..i] == parts;
  }

  /** No file is in the way of a directory at this path. */
  ghost predicate OffFiles(files: set<seq<string>>, parts: seq<string>) {
    forall n :: 0 < n <= |parts| ==> parts[..n] !in files
  }

  lemma LeadsToPrefix(plan: set<seq<string>>, parts: seq<string>, n: nat)
    requires LeadsTo(plan, parts) && n <= |parts|
    ensures LeadsTo(plan, parts[..n])
  {
    var p :| p in plan && parts < p;
    assert parts[..n] < p;
  }

  lemma CleanBackupPath(stamp: string, parts: seq<string>, i: nat)
    requires !QuarantineName(stamp) && CleanPath(parts) && i < |parts|
    ensures CleanPath(BackupDirs(stamp) + parts[..i]) && !QuarantineName(parts[i])
    ensures CleanPath(BackupDirs(stamp) + parts)
    ensures (BackupDirs(stamp) + parts[..i]) + [parts[i]] == BackupDirs(stamp) + parts[..i + 1]
  {
    OrdinaryNames();
  }

  /** This process has made nothing but directories. */
  ghost predicate NoLeaves(g: Ledger) {
    forall i :: i in g.sole && i in g.known ==> g.known[i].Directory?
  }

  lemma NoLeavesEnsured(owner: nat, group: nat, g: Ledger, h: Ledger, k: Key, i: Ino, mode: nat)
    requires NoLeaves(g) && Ensured(owner, group, g, h, k, i, mode) && Grows(g, h) && Sound(g)
    ensures NoLeaves(h)
  {
  }

  lemma FirstVault(owner: nat, group: nat, g: Ledger, h: Ledger, stamp: string, dir: Ino, b: Ino)
    requires NoLeaves(g) && NewDirectory(owner, group, g, h, Key(dir, stamp), b, MODE_0700) && Grows(g, h) && Sound(g)
    ensures Shelter(h, stamp, {b}) && Closed(owner, h, b) && Trustworthy(owner, 5, h.known[b].meta)
  {
  }

  /** The recovery hierarchy is fit to be used as far as it exists, and this run's own
      directory does not exist. */
  ghost predicate MayOpen(g: Ledger, owner: nat, stamp: string) {
    && Gone(g, BackupDirs(stamp))
    && forall n :: 1 <= n <= 4 && KeptDirectory(g, BackupDirs(stamp)[..n]).Some? ==> HierarchyLevel(g, owner, stamp, n)
  }

  /** No name of a quarantine was added. */
  ghost predicate AddsOrdinary(g: Ledger, h: Ledger) {
    forall k :: k in h.seen && k !in g.seen ==> !QuarantineName(k.name)
  }

  lemma AddsOrdinaryMore(g: Ledger, h: Ledger, l: Ledger)
    requires AddsOrdinary(g, h) && AddsOrdinary(h, l)
    ensures AddsOrdinary(g, l)
  {
  }

  lemma NothingAdded(g: Ledger)
    ensures AddsOrdinary(g, g)
  {
  }

  lemma MadeOrdinary(owner: nat, group: nat, g: Ledger, h: Ledger, k: Key, i: Ino, mode: nat)
    requires NewDirectory(owner, group, g, h, k, i, mode)
    ensures NothingIn(h, i) && (!QuarantineName(k.name) ==> AddsOrdinary(g, h))
  {
  }

  /** On the way down: the ledger of the start, or a directory without entries. */
  ghost predicate Opening(start: Ledger, g: Ledger, dir: Ino) {
    g == start || NothingIn(g, dir)
  }

  lemma OpeningStep(start: Ledger, g: Ledger, owner: nat, stamp: string, i: nat, dir: Ino)
    requires MayOpen(start, owner, stamp) && Opening(start, g, dir) && i <= 4 && Reached(g, BackupDirs(stamp)[..i], dir)
    ensures i < 4 ==> Ensurable(g, owner, Key(dir, BackupDirs(stamp)[i]), if i == 3 then MODE_0700 else MODE_0755)
    ensures i == 4 ==> Key(dir, stamp) !in g.seen
  {
    hide Gone;
    var parts := BackupDirs(stamp);
    if g == start {
      GoneIsNext(g, parts, i);
      assert parts[..5] == parts;
      if KeptDirectory(g, parts[..i + 1]).Some? {
        if i == 4 {
          GoneIsNext(g, parts, 5);
        } else {
          LevelDirectory(g, owner, stamp, i + 1, dir);
        }
      }
    }
  }

  /** Opens or creates the directories of the standard backup hierarchy. */
  method MakeHierarchy(m: Machine, stamp: string) returns (parent: Option<Ino>)
    requires m.Valid() && !m.committed && Steady(m.ledger) && Reached(m.ledger, [], ROOT) && NoLeaves(m.ledger)
    requires !QuarantineName(stamp)
    modifies m
    ensures m.Valid() && !m.committed && m.Onward() && Grows(old(m.ledger), m.ledger)
    ensures parent.Some? ==> Steady(m.ledger) && NoLeaves(m.ledger)
    ensures parent.Some? ==> Reached(m.ledger, BackupDirs(stamp)[..4], parent.value)
    ensures parent.Some? ==> forall n :: 1 <= n <= 4 ==> HierarchyLevel(m.ledger, m.disk.owner, stamp, n)
    ensures parent.Some? && old(m.ledger).alone ==> AddsOrdinary(old(m.ledger), m.ledger)
    ensures m.Faultless() && old(m.ledger).alone && MayOpen(old(m.ledger), old(m.disk).owner, stamp) ==>
              parent.Some? && Key(parent.value, stamp) !in m.ledger.seen
  {
    hide Machine.Valid, Passed, Longer, NodesKept, Grows, Steady, Reached, NoLeaves, Ensured, Sound, Ordered, Upholds,
      QuarantineName, HierarchyLevel, Acceptable, Discovers, MayOpen, Opening, AddsOrdinary, Ensurable, NewDirectory,
      Trustworthy, BackupDirs;
    HistoryGrows();
    var parts := BackupDirs(stamp);
    ghost var g, owner := m.ledger, m.disk.owner;
    ghost var sure := m.Faultless() && g.alone && MayOpen(g, owner, stamp);
    GrowsReflexive(g);
    NothingAdded(g);
    OpeningAtFirst(g, ROOT);
    parent := Some(ROOT);
    var i := 0;
    assert parts[..0] == [];
    assert |parts| == 5 by { FiveParts(stamp); }
    while i < 4
      invariant i <= 4 && m.Valid() && !m.committed && m.Onward() && Grows(g, m.ledger)
      invariant parent.Some? && Steady(m.ledger) && NoLeaves(m.ledger) && Reached(m.ledger, parts[..i], parent.value)
      invariant m.disk.owner == owner && m.ledger.alone == g.alone
      invariant g.alone ==> AddsOrdinary(g, m.ledger)
      invariant sure ==> Opening(g, m.ledger, parent.value)
      invariant forall n :: 1 <= n <= i ==> HierarchyLevel(m.ledger, owner, stamp, n)
    {
      ghost var h := m.ledger;
      Uncommitted(m);
      CleanHierarchy(stamp, i);
      assert parts[..i + 1] == parts[..i] + [parts[i]];
      var mode := if i == 3 then MODE_0700 else MODE_0755;
      ghost var k := Key(parent.value, parts[i]);
      if sure { OpeningStep(g, h, owner, stamp, i, parent.value); }
      parent := EnsureDirectory(m, parent.value, parts[i], mode, parts[..i]);
      GrowsTransitive(g, h, m.ledger);
      GrowsKnown(h, m.ledger);
      if parent.None? { return; }
      NoLeavesEnsured(m.disk.owner, m.disk.group, h, m.ledger, k, parent.value, mode);
      if g.alone { OpeningOn(owner, m.disk.group, g, h, m.ledger, k, parent.value, mode); }
      LevelAdded(h, m.ledger, owner, stamp, i, parent.value);
      i := i + 1;
    }
    if sure { OpeningStep(g, m.ledger, owner, stamp, 4, parent.value); }
  }

  lemma FiveParts(stamp: string)
    ensures |BackupDirs(stamp)| == 5 && BackupDirs(stamp)[..4] == BackupParent()
    ensures BackupParent() + [stamp] == BackupDirs(stamp)[..5] == BackupDirs(stamp) && BackupDirs(stamp)[4] == stamp
  {
  }

  /** Opens or creates the standard backup hierarchy, then validates it anew. */
  method EnsureBackupParent(m: Machine, stamp: string) returns (parent: Option<Ino>)
    requires m.Valid() && !m.committed && Steady(m.ledger) && Reached(m.ledger, [], ROOT) && NoLeaves(m.ledger)
    requires !QuarantineName(stamp)
    modifies m
    ensures m.Valid() && !m.committed && m.Onward() && Grows(old(m.ledger), m.ledger)
    ensures parent.Some? ==> Steady(m.ledger) && NoLeaves(m.ledger) && Reached(m.ledger, BackupParent(), parent.value)
    ensures parent.Some? ==> forall n :: 1 <= n <= 4 ==> HierarchyLevel(m.ledger, m.disk.owner, stamp, n)
    ensures parent.Some? && old(m.ledger).alone ==> AddsOrdinary(old(m.ledger), m.ledger)
    ensures m.Faultless() && old(m.ledger).alone && MayOpen(old(m.ledger), old(m.disk).owner, stamp) ==>
              parent.Some? && Key(parent.value, stamp) !in m.ledger.seen
  {
    hide Machine.Valid, Passed, Longer, NodesKept, Grows, Steady, Reached, NoLeaves, Ensured, Sound, Ordered, Upholds,
      QuarantineName, HierarchyLevel, Discovers, MayOpen, AddsOrdinary, BackupDirs;
    HistoryGrows();
    ghost var g := m.ledger;
    parent := MakeHierarchy(m, stamp);
    if parent.None? { return; }
    ghost var h, last := m.ledger, parent.value;
    GrowsKnown(g, h);
    Uncommitted(m);
    ReachedGrows(g, h, [], ROOT) by { NoPath(); }
    parent := OpenHierarchy(m, stamp, 4);
    DiscoversGrows(h, m.ledger);
    GrowsTransitive(g, h, m.ledger);
    NoLeavesEnsured(m.disk.owner, m.disk.group, h, m.ledger, Key(ROOT, ""), ROOT, MODE_0700) by {
      DiscoversEnsures(m.disk.owner, m.disk.group, h, m.ledger, Key(ROOT, ""), ROOT, MODE_0700);
    }
    FiveParts(stamp);
    if parent.Some? { ReachedOnce(m.ledger, BackupDirs(stamp)[..4], parent.value, h, last); }
  }

  lemma ReachedOnce(g: Ledger, dirs: seq<string>, dir: Ino, h: Ledger, other: Ino)
    requires Reached(g, dirs, dir) && Reached(h, dirs, other)
    ensures g == h ==> dir == other
  {
  }

  lemma OpeningAtFirst(g: Ledger, dir: Ino)
    ensures Opening(g, g, dir)
  {
  }

  lemma OpeningOn(owner: nat, group: nat, start: Ledger, g: Ledger, h: Ledger, k: Key, i: Ino, mode: nat)
    requires AddsOrdinary(start, g) && !QuarantineName(k.name)
    requires if k in g.seen then h == g else NewDirectory(owner, group, g, h, k, i, mode)
    ensures AddsOrdinary(start, h)
    ensures Opening(start, g, k.dir) ==> Opening(start, h, i)
  {
    hide NewDirectory;
    if k !in g.seen { MadeOrdinary(owner, group, g, h, k, i, mode); }
  }

  lemma LevelAdded(g: Ledger, h: Ledger, owner: nat, stamp: string, i: nat, dir: Ino)
    requires i < 4 && Grows(g, h) && !QuarantineName(stamp) && Reached(h, BackupDirs(stamp)[..i + 1], dir)
    requires Acceptable(owner, if i == 3 then MODE_0700 else MODE_0755, h.known[dir].meta)
    requires forall n :: 1 <= n <= i ==> HierarchyLevel(g, owner, stamp, n)
    ensures forall n :: 1 <= n <= i + 1 ==> HierarchyLevel(h, owner, stamp, n)
  {
    hide HierarchyLevel, Grows;
    forall n | 1 <= n <= i ensures HierarchyLevel(h, owner, stamp, n) { LevelGrows(g, h, owner, stamp, n); }
    LevelReached(h, owner, stamp, i + 1, dir);
  }

  lemma DiscoversEnsures(owner: nat, group: nat, g: Ledger, h: Ledger, k: Key, i: Ino, mode: nat)
    requires Discovers(g, h)
    ensures Ensured(owner, group, g, h, k, i, mode)
  {
  }

  /** Makes and opens the private directory of this transaction. */
  method MakeVault(m: Machine, stamp: string) returns (b: Option<Ino>)
    requires m.Valid() && !m.committed && Steady(m.ledger) && Reached(m.ledger, [], ROOT) && NoLeaves(m.ledger)
    requires !QuarantineName(stamp)
    modifies m
    ensures m.Valid() && !m.committed && m.Onward() && Grows(old(m.ledger), m.ledger)
    ensures b.Some? ==>
              Steady(m.ledger) && Rooted(m.ledger, m.disk.owner, stamp, b.value) && Shelter(m.ledger, stamp, {b.value})
    ensures b.Some? && old(m.ledger).alone ==> AddsOrdinary(old(m.ledger), m.ledger) && NothingIn(m.ledger, b.value)
    ensures m.Faultless() && old(m.ledger).alone && MayOpen(old(m.ledger), old(m.disk).owner, stamp) ==> b.Some?
  {
    hide Machine.Valid, Passed, Longer, NodesKept, Grows, Steady, Reached, NoLeaves, Sound, Ordered, Upholds,
      QuarantineName, Quarantine, Discovers, HierarchyLevel, NewDirectory, Shelter, Closed, Trustworthy, CleanPath,
      MayOpen, AddsOrdinary, NothingIn, BackupDirs, KeptDirectory, Rooted;
    HistoryGrows();
    ghost var g := m.ledger;
    var parent := EnsureBackupParent(m, stamp);
    if parent.None? { return None; }
    ghost var h := m.ledger;
    GrowsKnown(g, h);
    Uncommitted(m);
    CleanHierarchy(stamp, 4);
    FiveParts(stamp);
    ReachedFacts(h, BackupParent(), parent.value);
    var made, created := MakeDirectory(m, parent.value, stamp, MODE_0700);
    GrowsTransitive(g, h, m.ledger);
    if made.None? { return None; }
    ghost var l := m.ledger;
    Uncommitted(m);
    FirstVault(m.disk.owner, m.disk.group, h, l, stamp, parent.value, made.value);
    MadeOrdinary(m.disk.owner, m.disk.group, h, l, Key(parent.value, stamp), made.value, MODE_0700);
    if g.alone { AddsOrdinaryMore(g, h, l); }
    VaultReached(m.disk.owner, m.disk.group, h, l, stamp, parent.value, made.value);
    var missing;
    b, missing := StepInto(m, parent.value, stamp, BackupParent());
    DiscoversGrows(l, m.ledger);
    GrowsTransitive(g, l, m.ledger);
    if b.None? { return; }
    GrowsKnown(h, l);
    VaultOpened(m.disk.owner, h, l, m.ledger, stamp, parent.value, made.value, b.value);
  }

  lemma VaultReached(owner: nat, group: nat, g: Ledger, h: Ledger, stamp: string, parent: Ino, b: Ino)
    requires Reached(g, BackupParent(), parent) && NewDirectory(owner, group, g, h, Key(parent, stamp), b, MODE_0700)
    requires Grows(g, h)
    ensures Reached(h, BackupParent(), parent) && Reached(h, BackupDirs(stamp), b)
    ensures KeptDirectory(h, BackupParent() + [stamp]).Some? && Key(parent, stamp) in h.seen
    ensures h.seen[Key(parent, stamp)] == b
  {
    hide Grows, Reached;
    CleanVaultPath();
    FiveParts(stamp);
    ReachedGrows(g, h, BackupParent(), parent);
    NewDirectoryFacts(owner, group, g, h, Key(parent, stamp), b, MODE_0700);
    ReachedStep(h, BackupParent(), parent, stamp, b);
    ReachedIsKept(h, BackupParent() + [stamp], b);
  }

  lemma CleanVaultPath()
    ensures CleanPath(BackupParent())
  {
    OrdinaryNames();
  }

  lemma ReachedIsKept(g: Ledger, dirs: seq<string>, dir: Ino)
    requires Reached(g, dirs, dir)
    ensures KeptDirectory(g, dirs) == Some(dir)
  {
  }

  /** The new directory was opened: it is the one that was made, and the hierarchy stands. */
  lemma VaultOpened(owner: nat, g: Ledger, h: Ledger, l: Ledger, stamp: string, parent: Ino, made: Ino, b: Ino)
    requires Grows(g, h) && Discovers(h, l) && Sound(h) && !QuarantineName(stamp)
    requires Key(parent, stamp) in h.seen && h.seen[Key(parent, stamp)] == made
    requires IsDirectory(l, Key(parent, stamp), b) && Reached(l, BackupParent() + [stamp], b)
    requires Shelter(h, stamp, {made}) && Closed(owner, h, made) && Trustworthy(owner, 5, h.known[made].meta)
    requires forall n :: 1 <= n <= 4 ==> HierarchyLevel(g, owner, stamp, n)
    ensures b == made && Rooted(l, owner, stamp, b) && Shelter(l, stamp, {b})
  {
    hide Grows, Shelter, Closed, Trustworthy, HierarchyLevel, Reached, Sound;
    DiscoversGrows(h, l);
    GrowsKnown(h, l);
    FiveParts(stamp);
    ShelterDiscovers(h, l, stamp, {made});
    ClosedGrows(owner, h, l, made);
    ClosedIsKnown(owner, h, made);
    LevelReached(l, owner, stamp, 5, b);
    GrowsTransitive(g, h, l);
    forall n | 1 <= n <= 4 ensures HierarchyLevel(l, owner, stamp, n) { LevelGrows(g, l, owner, stamp, n); }
  }

  lemma ClosedIsKnown(owner: nat, g: Ledger, i: Ino)
    requires Closed(owner, g, i)
    ensures i in g.known
  {
  }

  /** A synced file whose directory has been synced too is kept. */
  lemma FileSettled(g: Ledger, h: Ledger, owner: nat, group: nat, stamp: string, b: Ino, name: string, content: Content,
          f: Ino)
    requires Own(g, h, Key(b, name), f, Regular(content, Meta(MODE_0600, owner, group), true)) && f in h.synced
    requires Reached(h, BackupDirs(stamp), b) && !QuarantineName(stamp)
    ensures FileKept(NoteSync(h, b), stamp, name, content, owner)
  {
    OrdinaryNames();
    SyncFacts(h, b);
    assert Stands(h, NoteSync(h, b), None);
    DirectoryStands(h, NoteSync(h, b), BackupDirs(stamp), None);
  }

  lemma FileGrows(g: Ledger, h: Ledger, stamp: string, name: string, content: Content, owner: nat)
    requires FileKept(g, stamp, name, content, owner) && Grows(g, h) && !QuarantineName(stamp)
    ensures FileKept(h, stamp, name, content, owner)
  {
    OrdinaryNames();
    LookupStays(KeptNames(g), KeptNodes(g), KeptNames(h), KeptNodes(h), BackupDirs(stamp));
  }

  /** What holds about the transaction's own files from its first one on. */
  ghost predicate Vaulted(g: Ledger, owner: nat, stamp: string, b: Ino, vault: set<Ino>) {
    Rooted(g, owner, stamp, b) && Shelter(g, stamp, vault) && b in vault && Steady(g)
  }

  lemma VaultedOwn(g: Ledger, h: Ledger, owner: nat, stamp: string, b: Ino, vault: set<Ino>, k: Key, f: Ino, node: Node,
          dir: Ino)
    requires Vaulted(g, owner, stamp, b, vault) && Own(g, h, k, f, node) && k.dir in vault && !node.Directory?
    requires Sound(g) && !QuarantineName(stamp)
    ensures Vaulted(h, owner, stamp, b, vault) && Vaulted(NoteSync(h, dir), owner, stamp, b, vault)
    ensures Grows(g, h) && Grows(g, NoteSync(h, dir))
  {
    hide Grows, Rooted, Shelter, Steady, NoteSync;
    GrowsSync(g, h, dir);
    SyncFacts(h, dir);
    RootedGrows(g, h, owner, stamp, b);
    RootedGrows(g, NoteSync(h, dir), owner, stamp, b);
    ShelterOwn(g, h, stamp, vault, k, f, node);
    ShelterSame(h, NoteSync(h, dir), stamp, vault);
    SteadyOwn(g, h, k, f, node, dir);
  }

  lemma VaultedFacts(g: Ledger, owner: nat, stamp: string, b: Ino, vault: set<Ino>)
    requires Vaulted(g, owner, stamp, b, vault) && Ordered(g) && !QuarantineName(stamp)
    ensures Reached(g, BackupDirs(stamp), b) && Closed(owner, g, b) && b in g.known && g.known[b].Directory?
    ensures !Quarantine(g, b)
    ensures b in vault && Steady(g) && Shelter(g, stamp, vault)
  {
    OrdinaryNames();
    NotQuarantine(g, BackupDirs(stamp));
  }

  /** Writes one private file of the transaction and then makes its name durable. */
  method WriteDurable(m: Machine, b: Ino, name: string, content: Content, ghost stamp: string, ghost vault: set<Ino>)
      returns (written: bool, settled: bool)
    requires m.Valid() && Vaulted(m.ledger, m.disk.owner, stamp, b, vault) && !QuarantineName(stamp)
    requires m.ledger.calm ==> Key(b, name) !in m.ledger.moved
    modifies m
    ensures m.Valid() && m.committed == old(m.committed) && m.pledge == old(m.pledge) && m.Onward()
    ensures Grows(old(m.ledger), m.ledger) && Vaulted(m.ledger, m.disk.owner, stamp, b, vault)
    ensures settled ==>
              written && Key(b, name) !in old(m.ledger).seen && FileKept(m.ledger, stamp, name, content, m.disk.owner)
    ensures settled && old(m.ledger).alone ==> m.ledger.seen.Keys == old(m.ledger).seen.Keys + {Key(b, name)}
    ensures settled && old(m.ledger).alone ==> AddsFile(old(m.ledger), m.ledger, Key(b, name))
    ensures m.Faultless() && old(m.ledger).alone && Key(b, name) !in old(m.ledger).seen ==> settled
  {
    hide Machine.Valid, Passed, NodesKept, Grows, Steady, Vaulted, FileKept, Sound, Ordered, Upholds, QuarantineName,
      Quarantine, NoteSync, Own, Closed, Reached, Shelter, Longer;
    HistoryGrows();
    ghost var g := m.ledger;
    GrowsReflexive(g);
    ValidSound(m);
    VaultedFacts(g, m.disk.owner, stamp, b, vault);
    var k := Key(b, name);
    var file, f, node, created := WriteFile(m, k, content, MODE_0600, Meta(MODE_0600, m.disk.owner, m.disk.group));
    written, settled := file.Some?, false;
    if created { VaultedOwn(g, m.ledger, m.disk.owner, stamp, b, vault, k, f, node, b); }
    if !written { return; }
    ghost var h := m.ledger;
    ValidSound(m);
    VaultedFacts(h, m.disk.owner, stamp, b, vault);
    FileSettled(g, h, m.disk.owner, m.disk.group, stamp, b, name, content, f);
    OwnFacts(g, h, k, f, node);
    OwnNames(g, h, k, f, node);
    SyncFacts(h, b);
    settled := m.SyncDirectory(b);
  }

  lemma OwnNames(g: Ledger, h: Ledger, k: Key, f: Ino, node: Node)
    requires Own(g, h, k, f, node)
    ensures h.seen == g.seen[k := f] && f in h.known && h.known[f] == node
  {
  }

  lemma VaultedDiscovers(g: Ledger, h: Ledger, owner: nat, stamp: string, b: Ino, vault: set<Ino>)
    requires Vaulted(g, owner, stamp, b, vault) && Discovers(g, h) && Steady(h) && Sound(g) && !QuarantineName(stamp)
    ensures Vaulted(h, owner, stamp, b, vault)
  {
    hide Rooted, Shelter, Steady, Grows;
    RootedGrows(g, h, owner, stamp, b);
    ShelterDiscovers(g, h, stamp, vault);
  }

  /** A new directory beside an original. */
  lemma VaultedBeside(g: Ledger, h: Ledger, owner: nat, group: nat, stamp: string, b: Ino, vault: set<Ino>, k: Key,
          q: Ino)
    requires Vaulted(g, owner, stamp, b, vault) && NewDirectory(owner, group, g, h, k, q, MODE_0700) && Grows(g, h)
    requires Steady(h)
    requires Sound(g) && !QuarantineName(stamp) && k.dir !in vault
    ensures Vaulted(h, owner, stamp, b, vault)
  {
    hide Rooted, Steady;
    RootedGrows(g, h, owner, stamp, b);
    assert forall j :: j in g.known ==> j in h.known && h.known[j] == g.known[j];
  }

  predicate Discardable(g: Ledger, k: Key) {
    k in g.seen && g.seen[k] in g.made && k.dir in g.known
  }

  lemma DiscardableGrows(g: Ledger, h: Ledger, k: Key)
    requires Discardable(g, k) && Grows(g, h)
    ensures Discardable(h, k)
  {
  }

  lemma QuarantineIsReady(owner: nat, group: nat, g: Ledger, h: Ledger, l: Ledger, dirs: seq<string>, k: Key, q: Ino)
    requires NewDirectory(owner, group, g, h, k, q, MODE_0700) && Discovers(h, l) && Reached(l, dirs, k.dir)
    ensures Beside(l, dirs, k.dir, k.name, q) && q !in g.known
  {
    FreshIsNew(g, q);
  }

  /** Makes and opens a quarantine directory beside an original. */
  method MakeQuarantine(m: Machine, parent: Ino, name: string, ghost dirs: seq<string>, ghost stamp: string,
          ghost b: Ino, ghost vault: set<Ino>)
      returns (q: Option<Ino>, created: bool)
    requires m.Valid() && !m.committed && Vaulted(m.ledger, m.disk.owner, stamp, b, vault) && !QuarantineName(stamp)
    requires Reached(m.ledger, dirs, parent) && CleanPath(dirs) && stamp !in dirs
    modifies m
    ensures m.Valid() && !m.committed && m.Onward() && Grows(old(m.ledger), m.ledger)
    ensures created ==> Discardable(m.ledger, Key(parent, name)) && Key(parent, name) !in old(m.ledger).seen
    ensures q.Some? ==> created && Vaulted(m.ledger, m.disk.owner, stamp, b, vault)
    ensures q.Some? ==> Beside(m.ledger, dirs, parent, name, q.value) && q.value !in old(m.ledger).known
    ensures q.Some? && old(m.ledger).alone ==> m.ledger.seen == old(m.ledger).seen[Key(parent, name) := q.value]
    ensures m.Faultless() && old(m.ledger).alone && Key(parent, name) !in old(m.ledger).seen ==> q.Some?
  {
    hide Machine.Valid, Passed, Longer, NodesKept, Grows, Steady, Vaulted, Sound, Ordered, Upholds, QuarantineName,
      Quarantine, Reached, Discovers, NewDirectory, CleanPath, Beside, Adds, Discardable;
    HistoryGrows();
    ghost var h := m.ledger;
    Uncommitted(m);
    VaultedFacts(h, m.disk.owner, stamp, b, vault);
    ReachedFacts(h, dirs, parent);
    ghost var k := Key(parent, name);
    var made;
    made, created := MakeDirectory(m, parent, name, MODE_0700);
    ghost var l := m.ledger;
    if created { AddsDiscardable(h, l, k); }
    if made.None? { return None, created; }
    Uncommitted(m);
    QuarantineMade(m.disk.owner, m.disk.group, h, l, stamp, b, vault, dirs, k, made.value);
    MadeIsNamed(m.disk.owner, m.disk.group, h, l, k, made.value);
    GrowsKnown(h, l);
    var missing;
    q, missing := OpenDirectory(m, parent, name);
    QuarantineOpened(m.disk.owner, m.disk.group, h, l, m.ledger, stamp, b, vault, dirs, k, made.value);
    BesideFacts(m.ledger, dirs, parent, name, made.value);
  }

  lemma QuarantineMade(owner: nat, group: nat, g: Ledger, h: Ledger, stamp: string, b: Ino, vault: set<Ino>,
          dirs: seq<string>, k: Key, q: Ino)
    requires Vaulted(g, owner, stamp, b, vault) && Ordered(g) && !QuarantineName(stamp) && Reached(g, dirs, k.dir)
    requires CleanPath(dirs) && stamp !in dirs
    requires NewDirectory(owner, group, g, h, k, q, MODE_0700) && Grows(g, h) && Steady(h)
    ensures Vaulted(h, owner, stamp, b, vault) && Reached(h, dirs, k.dir) && Steady(h)
  {
    hide Vaulted, Reached, NewDirectory, Grows, Steady, Shelter;
    VaultedFacts(g, owner, stamp, b, vault);
    OutsideParent(g, stamp, vault, dirs, k.dir);
    VaultedBeside(g, h, owner, group, stamp, b, vault, k, q);
    ReachedGrows(g, h, dirs, k.dir);
  }

  lemma QuarantineOpened(owner: nat, group: nat, g: Ledger, h: Ledger, l: Ledger, stamp: string, b: Ino,
          vault: set<Ino>, dirs: seq<string>,
                         k: Key, q: Ino)
    requires Vaulted(h, owner, stamp, b, vault) && Sound(h) && !QuarantineName(stamp) && Reached(h, dirs, k.dir)
    requires CleanPath(dirs)
    requires NewDirectory(owner, group, g, h, k, q, MODE_0700) && Grows(g, h) && Discovers(h, l) && Steady(l)
    requires Discardable(h, k)
    ensures Vaulted(l, owner, stamp, b, vault) && Grows(g, l) && Discardable(l, k)
    ensures Beside(l, dirs, k.dir, k.name, q) && q !in g.known
  {
    hide Vaulted, Reached, NewDirectory, Grows, Steady, Beside;
    GrowsTransitive(g, h, l);
    DiscardableGrows(h, l, k);
    VaultedDiscovers(h, l, owner, stamp, b, vault);
    ReachedGrows(h, l, dirs, k.dir);
    QuarantineIsReady(owner, group, g, h, l, dirs, k, q);
  }

  lemma MadeIsNamed(owner: nat, group: nat, g: Ledger, h: Ledger, k: Key, i: Ino)
    requires NewDirectory(owner, group, g, h, k, i, MODE_0700)
    ensures NamesKnownDirectory(h, k) && h.seen == g.seen[k := i]
  {
  }

  lemma BesideFacts(g: Ledger, dirs: seq<string>, parent: Ino, name: string, q: Ino)
    requires Beside(g, dirs, parent, name, q)
    ensures Key(parent, name) in g.seen && g.seen[Key(parent, name)] == q
  {
  }

  predicate Attests(evidence: Evidence, reviewed: Reviewed, secret: nat) {
    match reviewed
    case ReviewedFile(digest, size) => evidence == Public(digest, size)
    case ReviewedPrivateFile(size) => evidence.Private? && evidence.size == size && evidence.tag.secret == secret
    case ReviewedLink(target) => evidence == Link(target)
  }

  /** What the receipt retains tells of this very entry. */
  predicate Derived(evidence: Evidence, reviewed: Reviewed, secret: nat, node: Node) {
    match reviewed
    case ReviewedFile(digest, size) => evidence == Public(digest, size)
    case ReviewedPrivateFile(size) => node.Regular? && evidence == Private(Hmac(secret, node.content), size)
    case ReviewedLink(target) => evidence == Link(target)
  }

  predicate Attestable(reviewed: Reviewed, node: Node) {
    reviewed.ReviewedPrivateFile? ==> node.Regular? && Size(node.content) == reviewed.size <= MAXIMUM_LEGACY_FILE_BYTES
  }

  lemma ReviewedIsEntry(g: Ledger, k: Key, f: Finding, evidence: Evidence, secret: nat)
    requires AsReviewed(g, k, f)
    ensures Seen(g, k) && Attestable(f.reviewed, NodeAt(g, k))
    ensures Derived(evidence, f.reviewed, secret, NodeAt(g, k)) ==>
              IsEntry(g, k, evidence, f.meta, 1) && HasSecret(evidence, Some(secret))
  {
  }

  /** Where a finding lies, and the name of the quarantine beside it. */
  ghost function PlaceOf(g: Ledger, f: Finding): Key {
    Key(if KeptDirectory(g, f.dirs).Some? then KeptDirectory(g, f.dirs).value else ROOT, f.leaf)
  }

  ghost function WorkspaceOf(g: Ledger, f: Finding, stamp: string): Key {
    Key(PlaceOf(g, f).dir, QuarantineDirectory(stamp, f.rule))
  }

  lemma CurrentGrows(g: Ledger, h: Ledger, f: Finding)
    requires Current(g, f) && Grows(g, h) && g.alone && CleanPath(f.dirs)
    ensures Current(h, f) && PlaceOf(h, f) == PlaceOf(g, f) && KeptDirectory(g, f.dirs).Some?
  {
    LookupStays(KeptNames(g), KeptNodes(g), KeptNames(h), KeptNodes(h), f.dirs);
    var k := PlaceOf(g, f);
    assert Links(h.seen, g.seen[k]) == Links(g.seen, g.seen[k]);
  }

  /** What the receipt retains about a finding; private bytes are authenticated with
      the transaction's key. */
  method Attest(m: Machine, k: Key, reviewed: Reviewed, secret: nat) returns (evidence: Option<Evidence>)
    requires m.Valid()
    modifies m
    ensures m.Valid() && m.OnlyRead()
    ensures evidence.Some? ==> Attests(evidence.value, reviewed, secret)
    ensures evidence.Some? && Seen(m.ledger, k) ==> Derived(evidence.value, reviewed, secret, NodeAt(m.ledger, k))
    ensures m.Faultless() && Seen(m.ledger, k) && Attestable(reviewed, NodeAt(m.ledger, k)) ==> evidence.Some?
  {
    hide Machine.Valid, Passed;
    match reviewed
    case ReviewedFile(digest, size) => evidence := Some(Public(digest, size));
    case ReviewedLink(target) => evidence := Some(Link(target));
    case ReviewedPrivateFile(size) =>
      var data := ReadRegular(m, k, MAXIMUM_LEGACY_FILE_BYTES);
      evidence := None;
      if data.Some? && Size(data.value) == size { evidence := Some(Private(Hmac(secret, data.value), size)); }
  }

  /** Opens the parent of one finding and makes its quarantine there.  A failure
      after that point asks the caller to discard what was made. */
  method PrepareItem(m: Machine, f: Finding, stamp: string, secret: nat, ghost b: Ino, ghost vault: set<Ino>)
      returns (job: Option<Job>, workspace: Option<Key>, discard: bool)
    requires m.Valid() && !m.committed && Vaulted(m.ledger, m.disk.owner, stamp, b, vault)
    requires Reached(m.ledger, [], ROOT)
    requires Compiled(f, stamp) && !QuarantineName(stamp)
    modifies m
    ensures m.Valid() && !m.committed && m.Onward() && Grows(old(m.ledger), m.ledger)
    ensures workspace.Some? ==> Discardable(m.ledger, workspace.value) && workspace.value !in old(m.ledger).seen
    ensures job.Some? ==>
              workspace.Some? && Vaulted(m.ledger, m.disk.owner, stamp, b, vault) &&
              job.value.quarantine !in old(m.ledger).known
    ensures job.Some? ==>
              Ready(m.ledger, job.value) && Describes(job.value.item, f, stamp, secret) &&
              workspace.value == Workspace(job.value)
    ensures job.Some? && old(m.ledger).alone ==>
              m.ledger.seen == old(m.ledger).seen[Workspace(job.value) := job.value.quarantine] &&
              job.value.parent !in vault && Workspace(job.value) == WorkspaceOf(old(m.ledger), f, stamp)
    ensures job.Some? && old(m.ledger).alone && Current(old(m.ledger), f) ==> ThereFor(m.ledger, job.value, secret)
    ensures m.Faultless() && old(m.ledger).alone && Current(old(m.ledger), f) &&
            WorkspaceOf(old(m.ledger), f, stamp) !in old(m.ledger).seen ==>
              job.Some?
  {
    hide Machine.Valid, Passed, Longer, NodesKept, Grows, Steady, Vaulted, Sound, Ordered, Upholds, QuarantineName,
      Quarantine, Reached, Shelter, Closed, Discovers, CleanPath, Beside, Discardable, QuarantineDirectory, AsReviewed,
      IsEntry, HasSecret, KeptDirectory, Derived, Attestable, Attests;
    HistoryGrows();
    ghost var g := m.ledger;
    Uncommitted(m);
    VaultedFacts(g, m.disk.owner, stamp, b, vault);
    if Current(g, f) { CurrentRoute(g, f); }
    job, workspace, discard := None, None, false;
    assert [] + f.dirs == f.dirs;
    var parent, missing := OpenRoute(m, ROOT, f.dirs, []);
    ghost var h := m.ledger;
    DiscoversGrows(g, h);
    if parent.None? { return; }
    VaultedDiscovers(g, h, m.disk.owner, stamp, b, vault);
    if g.alone {
      OutsideParent(g, stamp, vault, f.dirs, parent.value);
      ReachedIsKept(g, f.dirs, parent.value);
    }
    discard := true;
    var name := QuarantineDirectory(stamp, f.rule);
    IsQuarantineName(stamp, f.rule);
    var q, created := MakeQuarantine(m, parent.value, name, f.dirs, stamp, b, vault);
    GrowsTransitive(g, h, m.ledger);
    GrowsKnown(g, h);
    if created { workspace := Some(Key(parent.value, name)); }
    if q.None? { return; }
    ghost var l := m.ledger;
    if g.alone && Current(g, f) {
      CurrentGrows(g, l, f);
      ReviewedHere(g, l, f, parent.value);
    }
    var evidence := Attest(m, Key(parent.value, f.leaf), f.reviewed, secret);
    if evidence.None? { return; }
    job := Some(Job(Item(f.rule, f.dirs, f.leaf, Some(name), evidence.value, f.meta), parent.value, q.value));
    discard := false;
    if g.alone && Current(g, f) { ReviewedIsEntry(l, Key(parent.value, f.leaf), f, evidence.value, secret); }
  }

  lemma ReviewedHere(g: Ledger, h: Ledger, f: Finding, parent: Ino)
    requires Current(h, f) && PlaceOf(h, f) == PlaceOf(g, f) && KeptDirectory(g, f.dirs) == Some(parent)
    ensures AsReviewed(h, Key(parent, f.leaf), f) && Seen(h, Key(parent, f.leaf))
    ensures Attestable(f.reviewed, NodeAt(h, Key(parent, f.leaf)))
  {
  }

  lemma IsQuarantineName(stamp: string, rule: string)
    ensures QuarantineName(QuarantineDirectory(stamp, rule))
  {
  }

  lemma AddsDiscardable(h: Ledger, l: Ledger, k: Key)
    requires Adds(h, l, k) && k.dir in h.known
    ensures Discardable(l, k) && k !in h.seen
  {
  }

  lemma OutsideParent(g: Ledger, stamp: string, vault: set<Ino>, dirs: seq<string>, parent: Ino)
    requires Shelter(g, stamp, vault) && Ordered(g) && stamp !in dirs && Reached(g, dirs, parent)
    ensures parent !in vault
  {
    OutsideVault(g, stamp, vault, dirs);
  }

  /** Removes prepared workspaces again, the last one first. */
  method Discard(m: Machine, workspaces: seq<Key>)
    requires m.Valid() && !m.committed
    requires forall i :: 0 <= i < |workspaces| ==> Discardable(m.ledger, workspaces[i])
    requires forall i, j :: 0 <= i < j < |workspaces| ==> workspaces[i] != workspaces[j]
    modifies m
    ensures m.Valid() && !m.committed && m.Onward()
  {
    hide Machine.Valid, Passed, Longer, NodesKept, Sound, Ordered, Upholds, NoteSync;
    HistoryGrows();
    var i := |workspaces|;
    while i > 0
      invariant i <= |workspaces| && m.Valid() && !m.committed && m.Onward()
      invariant forall j :: 0 <= j < i ==> Discardable(m.ledger, workspaces[j])
    {
      i := i - 1;
      MadeIsNew(m, m.ledger.seen[workspaces[i]]);
      var removed := m.Remove(workspaces[i], Warrant.OwnWork);
      SyncFacts(m.ledger, workspaces[i].dir);
      var synced := m.SyncDirectory(workspaces[i].dir);
    }
  }

  /** Every finding has its job, each with its own quarantine. */
  ghost predicate AllReady(g: Ledger, jobs: seq<Job>, findings: seq<Finding>, stamp: string, secret: nat) {
    && |jobs| <= |findings|
    && (forall i :: 0 <= i < |jobs| ==> Ready(g, jobs[i]) && Describes(jobs[i].item, findings[i], stamp, secret))
    && (forall i, j :: 0 <= i < j < |jobs| ==> jobs[i].quarantine != jobs[j].quarantine)
  }

  predicate AllCompiled(findings: seq<Finding>, stamp: string) {
    !QuarantineName(stamp) && forall i :: 0 <= i < |findings| ==> Compiled(findings[i], stamp)
  }

  lemma PreparedGrows(g: Ledger, h: Ledger, jobs: seq<Job>, findings: seq<Finding>, stamp: string, secret: nat)
    requires AllReady(g, jobs, findings, stamp, secret) && Grows(g, h) && AllCompiled(findings, stamp)
    ensures AllReady(h, jobs, findings, stamp, secret)
  {
    hide Ready, Grows, QuarantineName, Attests;
    forall i | 0 <= i < |jobs| ensures Ready(h, jobs[i]) {
      assert Describes(jobs[i].item, findings[i], stamp, secret) && Compiled(findings[i], stamp);
      ReadyGrows(g, h, jobs[i]);
    }
  }

  lemma PreparedMore(g: Ledger, h: Ledger, jobs: seq<Job>, findings: seq<Finding>, stamp: string, secret: nat, job: Job)
    requires AllReady(g, jobs, findings, stamp, secret) && Grows(g, h) && AllCompiled(findings, stamp)
    requires |jobs| < |findings|
    requires Ready(h, job) && Describes(job.item, findings[|jobs|], stamp, secret) && job.quarantine !in g.known
    ensures AllReady(h, jobs + [job], findings, stamp, secret)
  {
    hide Grows, QuarantineName, Attests, Describes, Compiled, Reached;
    PreparedGrows(g, h, jobs, findings, stamp, secret);
    forall i | 0 <= i < |jobs| ensures jobs[i].quarantine != job.quarantine {
      assert Ready(g, jobs[i]);
    }
  }

  /** Prepares every finding in turn; a failure discards what was prepared. */
  method Prepare(m: Machine, findings: seq<Finding>, stamp: string, secret: nat, ghost b: Ino, ghost vault: set<Ino>)
      returns (ok: bool, jobs: seq<Job>, workspaces: seq<Key>)
    requires m.Valid() && !m.committed && Vaulted(m.ledger, m.disk.owner, stamp, b, vault)
    requires Reached(m.ledger, [], ROOT)
    requires AllCompiled(findings, stamp)
    modifies m
    ensures m.Valid() && !m.committed && m.Onward()
    ensures ok ==> Grows(old(m.ledger), m.ledger) && Vaulted(m.ledger, m.disk.owner, stamp, b, vault)
    ensures ok ==> |jobs| == |findings| && AllReady(m.ledger, jobs, findings, stamp, secret)
    ensures ok ==> forall i :: 0 <= i < |workspaces| ==> Discardable(m.ledger, workspaces[i])
    ensures forall i, j :: 0 <= i < j < |workspaces| ==> workspaces[i] != workspaces[j]
    ensures ok && old(m.ledger).alone ==> AddsOutside(old(m.ledger), m.ledger, vault)
    ensures ok && old(m.ledger).alone && AllCurrent(old(m.ledger), findings) ==> AllThere(m.ledger, jobs, secret)
    ensures m.Faultless() && old(m.ledger).alone && AllCurrent(old(m.ledger), findings) &&
            WorkspacesFree(old(m.ledger), findings, 0, stamp) ==>
              ok
  {
    hide Machine.Valid, Passed, Longer, NodesKept, Grows, Vaulted, Reached, AllReady, Ready, Describes, Compiled,
      QuarantineName, AllCurrent, WorkspacesFree, AllThere, AddsOutside, WorkspaceOf, ThereFor, Current;
    HistoryGrows();
    ghost var g := m.ledger;
    ghost var current := g.alone && AllCurrent(g, findings);
    ghost var sure := current && m.Faultless() && WorkspacesFree(g, findings, 0, stamp);
    GrowsReflexive(g);
    NothingOutside(g, vault, secret);
    NothingPrepared(g, findings, stamp, secret);
    ok, jobs, workspaces := false, [], [];
    var i := 0;
    while i < |findings|
      invariant i <= |findings| && m.Valid() && !m.committed && m.Onward() && Grows(g, m.ledger)
      invariant Vaulted(m.ledger, m.disk.owner, stamp, b, vault) && |jobs| == i
      invariant AllReady(m.ledger, jobs, findings, stamp, secret)
      invariant forall j :: 0 <= j < |workspaces| ==> Discardable(m.ledger, workspaces[j])
      invariant forall j, k :: 0 <= j < k < |workspaces| ==> workspaces[j] != workspaces[k]
      invariant m.ledger.alone == g.alone && (g.alone ==> AddsOutside(g, m.ledger, vault))
      invariant current ==> AllCurrent(m.ledger, findings) && AllThere(m.ledger, jobs, secret)
      invariant sure ==> WorkspacesFree(m.ledger, findings, i, stamp)
    {
      ghost var h := m.ledger;
      ReachedGrows(g, h, [], ROOT);
      if current { CurrentNow(h, findings, i); }
      if sure { WorkspaceIsFree(h, findings, i, stamp); }
      var job, workspace, discard := PrepareItem(m, findings[i], stamp, secret, b, vault);
      GrowsTransitive(g, h, m.ledger);
      forall j | 0 <= j < |workspaces| ensures Discardable(m.ledger, workspaces[j]) {
        DiscardableGrows(h, m.ledger, workspaces[j]);
      }
      if workspace.Some? { workspaces := workspaces + [workspace.value]; }
      if job.None? {
        if discard { Discard(m, workspaces); }
        return;
      }
      PreparedMore(h, m.ledger, jobs, findings, stamp, secret, job.value);
      GrowsKnown(h, m.ledger);
      if g.alone { OutsideMore(g, h, m.ledger, vault, job.value); }
      if current { PreparedOn(h, m.ledger, findings, i, stamp, secret, jobs, job.value); }
      jobs := jobs + [job.value];
      i := i + 1;
    }
    ok := true;
  }

  ghost predicate AllCurrent(g: Ledger, findings: seq<Finding>) {
    forall i :: 0 <= i < |findings| ==> Current(g, findings[i])
  }

  lemma CurrentNow(g: Ledger, findings: seq<Finding>, i: nat)
    requires AllCurrent(g, findings) && i < |findings|
    ensures Current(g, findings[i])
  {
  }

  lemma AllCurrentGrows(g: Ledger, h: Ledger, findings: seq<Finding>, stamp: string)
    requires AllCurrent(g, findings) && Grows(g, h) && g.alone && AllCompiled(findings, stamp)
    ensures AllCurrent(h, findings)
    ensures forall i :: 0 <= i < |findings| ==> PlaceOf(h, findings[i]) == PlaceOf(g, findings[i])
  {
    hide Current, Grows, PlaceOf, QuarantineName;
    forall i | 0 <= i < |findings|
      ensures Current(h, findings[i]) && PlaceOf(h, findings[i]) == PlaceOf(g, findings[i])
    {
      assert Compiled(findings[i], stamp);
      CurrentGrows(g, h, findings[i]);
    }
  }

  /** The quarantines from the i-th on are not there, and no two of them are one. */
  ghost predicate WorkspacesFree(g: Ledger, findings: seq<Finding>, i: nat, stamp: string) {
    && (forall j :: i <= j < |findings| ==> WorkspaceOf(g, findings[j], stamp) !in g.seen)
    && (forall j, l ::
          i <= j < l < |findings| ==> WorkspaceOf(g, findings[j], stamp) != WorkspaceOf(g, findings[l], stamp))
  }

  lemma WorkspaceIsFree(g: Ledger, findings: seq<Finding>, i: nat, stamp: string)
    requires WorkspacesFree(g, findings, i, stamp) && i < |findings|
    ensures WorkspaceOf(g, findings[i], stamp) !in g.seen
  {
  }

  lemma WorkspacesStay(g: Ledger, h: Ledger, findings: seq<Finding>, i: nat, stamp: string, k: Key, q: Ino)
    requires WorkspacesFree(g, findings, i, stamp) && i < |findings| && k == WorkspaceOf(g, findings[i], stamp)
    requires h.seen == g.seen[k := q]
    requires forall j :: 0 <= j < |findings| ==> PlaceOf(h, findings[j]) == PlaceOf(g, findings[j])
    ensures WorkspacesFree(h, findings, i + 1, stamp)
  {
    hide PlaceOf, QuarantineDirectory;
    forall j | i + 1 <= j < |findings| ensures WorkspaceOf(h, findings[j], stamp) !in h.seen {
      assert WorkspaceOf(h, findings[j], stamp) == WorkspaceOf(g, findings[j], stamp) != k;
    }
    forall j, l | i + 1 <= j < l < |findings|
      ensures WorkspaceOf(h, findings[j], stamp) != WorkspaceOf(h, findings[l], stamp)
    {
      assert WorkspaceOf(g, findings[j], stamp) != WorkspaceOf(g, findings[l], stamp);
    }
  }

  lemma NothingOutside(g: Ledger, vault: set<Ino>, secret: nat)
    ensures AddsOutside(g, g, vault) && AllThere(g, [], secret)
  {
  }

  lemma OutsideMore(g: Ledger, h: Ledger, l: Ledger, vault: set<Ino>, job: Job)
    requires AddsOutside(g, h, vault) && l.seen == h.seen[Workspace(job) := job.quarantine] && job.parent !in vault
    ensures AddsOutside(g, l, vault)
  {
  }

  /** One more finding was prepared. */
  lemma PreparedOn(g: Ledger, h: Ledger, findings: seq<Finding>, i: nat, stamp: string, secret: nat, jobs: seq<Job>,
          job: Job)
    requires AllCurrent(g, findings) && AllThere(g, jobs, secret) && Grows(g, h) && g.alone && i < |findings|
    requires AllCompiled(findings, stamp) && ThereFor(h, job, secret)
    requires h.seen == g.seen[Workspace(job) := job.quarantine] && Workspace(job) == WorkspaceOf(g, findings[i], stamp)
    ensures AllCurrent(h, findings) && AllThere(h, jobs + [job], secret)
    ensures WorkspacesFree(g, findings, i, stamp) ==> WorkspacesFree(h, findings, i + 1, stamp)
  {
    hide AllCurrent, AllThere, ThereFor, Grows, WorkspacesFree, WorkspaceOf, PlaceOf, AllCompiled;
    AllCurrentGrows(g, h, findings, stamp);
    AllThereGrows(g, h, jobs, secret);
    AllThereMore(h, jobs, job, secret);
    if WorkspacesFree(g, findings, i, stamp) {
      WorkspacesStay(g, h, findings, i, stamp, Workspace(job), job.quarantine);
    }
  }

  lemma AllThereMore(g: Ledger, jobs: seq<Job>, job: Job, secret: nat)
    requires AllThere(g, jobs, secret) && ThereFor(g, job, secret)
    ensures AllThere(g, jobs + [job], secret)
  {
    hide ThereFor;
  }

  lemma NothingPrepared(g: Ledger, findings: seq<Finding>, stamp: string, secret: nat)
    ensures AllReady(g, [], findings, stamp, secret)
  {
  }

  /** When alone, nothing that is added gives an old inode another name. */
  lemma EntryGrows(g: Ledger, h: Ledger, k: Key, evidence: Evidence, meta: Meta, links: nat)
    requires g.alone && IsEntry(g, k, evidence, meta, links) && Grows(g, h)
    ensures IsEntry(h, k, evidence, meta, links)
  {
    assert Links(h.seen, g.seen[k]) == Links(g.seen, g.seen[k]);
  }

  lemma BackupSettled(g: Ledger, h: Ledger, stamp: string, item: Item, b: Ino, dir: Ino, f: Ino)
    requires Copied(g, h, Key(dir, item.leaf), f) && Reached(h, BackupDirs(stamp) + item.dirs, dir)
    requires Reached(h, BackupDirs(stamp), b)
    requires CompiledPath(item.dirs, item.leaf, stamp) && !QuarantineName(stamp)
    requires Fits(h.known[f], item.evidence, item.meta)
    ensures BackupKept(NoteSync(h, dir), stamp, item)
  {
    var l := NoteSync(h, dir);
    CleanBackup(stamp, item.dirs);
    SyncFacts(h, dir);
    assert Stands(h, l, None);
    DirectoryStands(h, l, BackupDirs(stamp), None);
    DirectoryStands(h, l, BackupDirs(stamp) + item.dirs, None);
  }

  lemma BackupGrows(g: Ledger, h: Ledger, stamp: string, item: Item)
    requires BackupKept(g, stamp, item) && Grows(g, h) && CleanPath(item.dirs) && !QuarantineName(stamp)
    ensures BackupKept(h, stamp, item)
  {
    CleanBackup(stamp, item.dirs);
    LookupStays(KeptNames(g), KeptNodes(g), KeptNames(h), KeptNodes(h), BackupDirs(stamp));
    LookupStays(KeptNames(g), KeptNodes(g), KeptNames(h), KeptNodes(h), BackupDirs(stamp) + item.dirs);
  }

  lemma VaultedGrown(g: Ledger, h: Ledger, owner: nat, stamp: string, b: Ino, vault: set<Ino>, grown: set<Ino>)
    requires Vaulted(g, owner, stamp, b, vault) && Grows(g, h) && Steady(h) && Shelter(h, stamp, grown)
    requires vault <= grown && !QuarantineName(stamp)
    ensures Vaulted(h, owner, stamp, b, grown)
  {
    hide Rooted, Shelter, Steady, Grows;
    RootedGrows(g, h, owner, stamp, b);
  }

  /** The path of an item's backup below the private directory. */
  function PathOf(item: Item): seq<string> {
    item.dirs + [item.leaf]
  }

  /** The planned path of an item is free, and no other planned path leads through it. */
  ghost predicate HasPlace(files: set<seq<string>>, plan: set<seq<string>>, item: Item) {
    PathOf(item) in plan && OffFiles(files, PathOf(item)) && !LeadsTo(plan, PathOf(item))
  }

  lemma PlaceFacts(files: set<seq<string>>, plan: set<seq<string>>, item: Item)
    ensures PathOf(item) in plan ==> LeadsTo(plan, item.dirs)
    ensures HasPlace(files, plan, item) ==>
              PathOf(item) in plan && OffFiles(files, item.dirs) && item.dirs + [item.leaf] !in files &&
              !LeadsTo(plan, item.dirs + [item.leaf])
  {
    assert item.dirs < PathOf(item);
    if HasPlace(files, plan, item) {
      forall n | 0 < n <= |item.dirs| ensures item.dirs[..n] !in files { assert PathOf(item)[..n] == item.dirs[..n]; }
      assert PathOf(item)[..|PathOf(item)|] == PathOf(item);
    }
  }

  /** Copies one reviewed entry to its place in the vault and reads the copy back. */
  method CopyToVault(m: Machine, item: Item, src: Key, dir: Ino, stamp: string, secret: nat, ghost b: Ino,
          ghost vault: set<Ino>, ghost files: set<seq<string>>, ghost plan: set<seq<string>>)
      returns (ok: bool)
    requires m.Valid() && !m.committed && Vaulted(m.ledger, m.disk.owner, stamp, b, vault)
    requires CompiledPath(item.dirs, item.leaf, stamp) && !QuarantineName(stamp)
    requires Reached(m.ledger, BackupDirs(stamp) + item.dirs, dir)
    requires dir in vault && Closed(m.disk.owner, m.ledger, dir)
    modifies m
    ensures m.Valid() && !m.committed && m.Onward() && Grows(old(m.ledger), m.ledger)
    ensures ok ==> Vaulted(m.ledger, m.disk.owner, stamp, b, vault) && BackupKept(m.ledger, stamp, item)
    ensures ok && old(m.ledger).alone &&
            TidyAt(old(m.ledger), old(m.disk).owner, b, vault, files, plan, dir, item.dirs) ==>
              TidyAt(m.ledger, m.disk.owner, b, vault, files + {PathOf(item)}, plan, b, [])
    ensures m.Faultless() && old(m.ledger).alone && HasSecret(item.evidence, Some(secret)) &&
            IsEntry(old(m.ledger), src, item.evidence, item.meta, 1) && Key(dir, item.leaf) !in old(m.ledger).seen ==>
              ok
  {
    hide Machine.Valid, Passed, Longer, NodesKept, Grows, Vaulted, Reached, Steady, Shelter, Sound, Ordered, Upholds,
      Quarantine, CompiledPath, BackupKept, IsEntry, Closed, Copied, CopyOf, NoteSync, QuarantineName, CleanPath,
      BackupDirs, Fits, Outline, TidyAt, HasSecret;
    HistoryGrows();
    ghost var h, owner := m.ledger, m.disk.owner;
    ok := false;
    CompiledFacts(item.dirs, item.leaf, stamp);
    Uncommitted(m);
    ReachedFacts(h, BackupDirs(stamp) + item.dirs, dir);
    var dst := Key(dir, item.leaf);
    if IsEntry(h, src, item.evidence, item.meta, 1) { EntryIsCopyable(h, src, item.evidence, item.meta); }
    var copy := CopyEntry(m, src, dst);
    if copy.None? { return; }
    ghost var l := m.ledger;
    CopiedIn(h, l, owner, stamp, b, vault, item, dst, copy.value);
    GrowsSync(h, l, dir);
    if TidyAt(h, owner, b, vault, files, plan, dir, item.dirs) {
      TidyCopy(h, l, owner, b, vault, files, plan, dir, item, copy.value);
    }
    if IsEntry(h, src, item.evidence, item.meta, 1) {
      CopyIsThere(h, l, src, dst, copy.value, item.evidence, item.meta);
    }
    SyncFacts(l, dir);
    GrowsKnown(h, l);
    ok := m.SyncDirectory(dir);
    if !ok { return; }
    var verified := VerifyEntry(m, dst, item.evidence, item.meta, Some(secret), 1, false);
    if verified.None? { ok := false; return; }
    assert BackupKept(m.ledger, stamp, item) by {
      IsEntryFits(m.ledger, dst, item.evidence, item.meta, 1);
      BackupSettled(h, l, stamp, item, b, dir, copy.value);
    }
  }

  /** Verifies one reviewed entry and copies it into the vault. */
  method BackUpItem(m: Machine, item: Item, src: Key, stamp: string, secret: nat, b: Ino, ghost vault: set<Ino>,
          ghost files: set<seq<string>>, ghost plan: set<seq<string>>)
      returns (ok: bool, ghost grown: set<Ino>)
    requires m.Valid() && !m.committed && Vaulted(m.ledger, m.disk.owner, stamp, b, vault)
    requires CompiledPath(item.dirs, item.leaf, stamp) && !QuarantineName(stamp)
    modifies m
    ensures m.Valid() && !m.committed && m.Onward() && Grows(old(m.ledger), m.ledger)
    ensures ok ==>
              vault <= grown && Vaulted(m.ledger, m.disk.owner, stamp, b, grown) && BackupKept(m.ledger, stamp, item)
    ensures ok && m.ledger.alone ==> IsEntry(m.ledger, src, item.evidence, item.meta, 1)
    ensures ok && old(m.ledger).alone && PathOf(item) in plan &&
            TidyAt(old(m.ledger), old(m.disk).owner, b, vault, files, plan, b, []) ==>
              TidyAt(m.ledger, m.disk.owner, b, grown, files + {PathOf(item)}, plan, b, [])
    ensures m.Faultless() && old(m.ledger).alone && HasSecret(item.evidence, Some(secret)) &&
            IsEntry(old(m.ledger), src, item.evidence, item.meta, 1) && HasPlace(files, plan, item) &&
            TidyAt(old(m.ledger), old(m.disk).owner, b, vault, files, plan, b, []) ==>
              ok
  {
    hide Machine.Valid, Passed, Longer, NodesKept, Grows, Vaulted, Reached, Steady, Shelter, Sound, Ordered, Upholds,
      Quarantine, CompiledPath, BackupKept, IsEntry, Closed, QuarantineName, CleanPath, BackupDirs, Fits, Outline,
      TidyAt, LeadsTo, HasSecret, HasPlace, OffFiles;
    HistoryGrows();
    ghost var g, owner := m.ledger, m.disk.owner;
    ghost var sure := m.Faultless() && g.alone && HasSecret(item.evidence, Some(secret)) &&
                      IsEntry(g, src, item.evidence, item.meta, 1) && HasPlace(files, plan, item) &&
                      TidyAt(g, owner, b, vault, files, plan, b, []);
    GrowsReflexive(g);
    ok, grown := false, vault;
    var original := VerifyEntry(m, src, item.evidence, item.meta, Some(secret), 1, true);
    if original.None? { return; }
    CompiledFacts(item.dirs, item.leaf, stamp);
    Uncommitted(m);
    VaultedFacts(g, owner, stamp, b, vault);
    PlaceFacts(files, plan, item);
    var dir;
    dir, grown := EnsurePrivateDirectories(m, b, item.dirs, stamp, vault, files, plan);
    if dir.None? { return; }
    ghost var h := m.ledger;
    VaultedGrown(g, h, owner, stamp, b, vault, grown);
    GrowsKnown(g, h);
    if g.alone && IsEntry(g, src, item.evidence, item.meta, 1) { EntryGrows(g, h, src, item.evidence, item.meta, 1); }
    if sure { TidyChild(h, owner, b, grown, files, plan, dir.value, item.dirs, item.leaf); }
    ok := CopyToVault(m, item, src, dir.value, stamp, secret, b, grown, files, plan);
    GrowsTransitive(g, h, m.ledger);
    GrowsKnown(h, m.ledger);
    if h.alone && IsEntry(h, src, item.evidence, item.meta, 1) {
      EntryGrows(h, m.ledger, src, item.evidence, item.meta, 1);
    }
  }

  lemma EntryIsCopyable(g: Ledger, k: Key, evidence: Evidence, meta: Meta)
    requires IsEntry(g, k, evidence, meta, 1)
    ensures Seen(g, k) &&
            (NodeAt(g, k).Symlink? ||
             (NodeAt(g, k).Regular? && Size(NodeAt(g, k).content) <= MAXIMUM_LEGACY_FILE_BYTES))
  {
  }

  lemma CopyIsThere(g: Ledger, h: Ledger, src: Key, dst: Key, f: Ino, evidence: Evidence, meta: Meta)
    requires Copied(g, h, dst, f) && Seen(g, src) && CopyOf(h.known[f], NodeAt(g, src))
    requires IsEntry(g, src, evidence, meta, 1)
    ensures IsEntry(NoteSync(h, dst.dir), dst, evidence, meta, 1)
  {
    hide Copied, CopyOf, Fits;
    CopyIsEntry(g, h, src, dst, f, evidence, meta);
  }

  lemma TidyCopy(g: Ledger, h: Ledger, owner: nat, b: Ino, vault: set<Ino>, files: set<seq<string>>,
          plan: set<seq<string>>, dir: Ino, item: Item, f: Ino)
    requires TidyAt(g, owner, b, vault, files, plan, dir, item.dirs) && Copied(g, h, Key(dir, item.leaf), f)
    ensures TidyAt(NoteSync(h, dir), owner, b, vault, files + {PathOf(item)}, plan, b, [])
  {
    hide TidyAt, Grows;
    var l := NoteSync(h, dir);
    GrowsSync(g, h, dir);
    assert AddsFile(g, l, Key(dir, item.leaf));
    TidyFile(g, l, owner, b, vault, files, plan, dir, item.dirs, item.leaf);
  }

  lemma CompiledFacts(dirs: seq<string>, leaf: string, stamp: string)
    requires CompiledPath(dirs, leaf, stamp) && !QuarantineName(stamp)
    ensures CleanPath(dirs) && !QuarantineName(leaf) && stamp !in dirs && CleanPath(BackupDirs(stamp) + dirs)
    ensures CleanPath(BackupDirs(stamp))
    ensures leaf != PENDING && leaf != COMPLETE && leaf != KEY_NAME
  {
    CleanBackup(stamp, dirs);
  }

  lemma CopiedIn(g: Ledger, h: Ledger, owner: nat, stamp: string, b: Ino, vault: set<Ino>, item: Item, k: Key, f: Ino)
    requires Vaulted(g, owner, stamp, b, vault) && Copied(g, h, k, f) && k.dir in vault && Sound(g)
    requires !QuarantineName(stamp)
    requires Reached(g, BackupDirs(stamp) + item.dirs, k.dir) && CompiledPath(item.dirs, item.leaf, stamp)
    ensures Grows(g, h) && Vaulted(NoteSync(h, k.dir), owner, stamp, b, vault)
    ensures Reached(h, BackupDirs(stamp) + item.dirs, k.dir) && Reached(h, BackupDirs(stamp), b)
    ensures f in h.known && Seen(NoteSync(h, k.dir), k) && NodeAt(NoteSync(h, k.dir), k) == h.known[f]
  {
    hide Grows, Shelter, Steady, Vaulted, NoteSync, Reached, FreshTo;
    CompiledFacts(item.dirs, item.leaf, stamp);
    VaultedOwn(g, h, owner, stamp, b, vault, k, f, h.known[f], k.dir);
    ReachedGrows(g, h, BackupDirs(stamp) + item.dirs, k.dir);
    assert Reached(h, BackupDirs(stamp), b) by { VaultedRoot(h, owner, stamp, b, vault); }
    SyncFacts(h, k.dir);
  }

  lemma VaultedRoot(g: Ledger, owner: nat, stamp: string, b: Ino, vault: set<Ino>)
    requires Vaulted(g, owner, stamp, b, vault)
    ensures Reached(g, BackupDirs(stamp), b)
  {
  }

  /** The job's entry is copied; when nobody else acts, its original is still there. */
  ghost predicate BackedUp(g: Ledger, stamp: string, job: Job) {
    BackupKept(g, stamp, job.item) && (g.alone ==> IsEntry(g, Original(job), job.item.evidence, job.item.meta, 1))
  }

  lemma BackedUpGrows(g: Ledger, h: Ledger, stamp: string, job: Job)
    requires BackedUp(g, stamp, job) && Grows(g, h) && CleanPath(job.item.dirs) && !QuarantineName(stamp)
    ensures BackedUp(h, stamp, job)
  {
    hide BackupKept, IsEntry, Grows;
    BackupGrows(g, h, stamp, job.item);
    GrowsKnown(g, h);
    if g.alone { EntryGrows(g, h, Original(job), job.item.evidence, job.item.meta, 1); }
  }

  lemma PreparedPath(g: Ledger, jobs: seq<Job>, findings: seq<Finding>, stamp: string, secret: nat, i: nat)
    requires AllReady(g, jobs, findings, stamp, secret) && AllCompiled(findings, stamp) && i < |jobs|
    ensures CompiledPath(jobs[i].item.dirs, jobs[i].item.leaf, stamp) && CleanPath(jobs[i].item.dirs)
    ensures Ready(g, jobs[i])
  {
    assert Compiled(findings[i], stamp) && Describes(jobs[i].item, findings[i], stamp, secret);
  }

  function PathTo(f: Finding): seq<string> {
    f.dirs + [f.leaf]
  }

  /** Every path that a run may write below its private directory. */
  ghost function Plan(findings: seq<Finding>): set<seq<string>> {
    (set i | 0 <= i < |findings| :: PathTo(findings[i])) + {[KEY_NAME], [PENDING], [COMPLETE]}
  }

  /** What may be there once the first n jobs are backed up. */
  ghost function Written(jobs: seq<Job>, n: nat): set<seq<string>>
    requires n <= |jobs|
  {
    {[KEY_NAME]} + (set i | 0 <= i < n :: PathOf(jobs[i].item))
  }

  /** The private directory holds at most the key. */
  ghost predicate Untouched(g: Ledger, owner: nat, b: Ino, vault: set<Ino>, findings: seq<Finding>) {
    TidyAt(g, owner, b, vault, {[KEY_NAME]}, Plan(findings), b, [])
  }

  /** The backups do not get into each other's way, nor into that of the run's own files. */
  ghost predicate PlansFit(findings: seq<Finding>) {
    && (forall i, j ::
          0 <= i < |findings| && 0 <= j < |findings| && i != j ==> !(PathTo(findings[i]) <= PathTo(findings[j])))
    && (forall i :: 0 <= i < |findings| ==> OffReserved(findings[i]))
  }

  predicate OffReserved(f: Finding) {
    f.dirs != [] ==> f.dirs[0] != KEY_NAME && f.dirs[0] != PENDING
  }

  /** Every job's original is there as reviewed, and the key of its tag is this one. */
  ghost predicate AllThere(g: Ledger, jobs: seq<Job>, secret: nat) {
    forall j :: 0 <= j < |jobs| ==> ThereFor(g, jobs[j], secret)
  }

  ghost predicate ThereFor(g: Ledger, job: Job, secret: nat) {
    IsEntry(g, Original(job), job.item.evidence, job.item.meta, 1) && HasSecret(job.item.evidence, Some(secret))
  }

  lemma AllThereGrows(g: Ledger, h: Ledger, jobs: seq<Job>, secret: nat)
    requires AllThere(g, jobs, secret) && Grows(g, h) && g.alone
    ensures AllThere(h, jobs, secret)
  {
    hide IsEntry, Grows, HasSecret;
    forall j | 0 <= j < |jobs| ensures ThereFor(h, jobs[j], secret) {
      assert ThereFor(g, jobs[j], secret);
      EntryGrows(g, h, Original(jobs[j]), jobs[j].item.evidence, jobs[j].item.meta, 1);
    }
  }

  lemma FirstWritten(g: Ledger, owner: nat, b: Ino, vault: set<Ino>, jobs: seq<Job>, findings: seq<Finding>)
    requires Untouched(g, owner, b, vault, findings)
    ensures TidyAt(g, owner, b, vault, Written(jobs, 0), Plan(findings), b, [])
  {
    hide TidyAt;
    assert Written(jobs, 0) == {[KEY_NAME]};
  }

  lemma WrittenMore(g: Ledger, jobs: seq<Job>, findings: seq<Finding>, stamp: string, secret: nat, n: nat)
    requires n < |jobs| && AllReady(g, jobs, findings, stamp, secret)
    ensures Written(jobs, n + 1) == Written(jobs, n) + {PathOf(jobs[n].item)}
    ensures n < |findings| && PathOf(jobs[n].item) == PathTo(findings[n]) && PathOf(jobs[n].item) in Plan(findings)
  {
    hide Ready, Attests;
    assert Describes(jobs[n].item, findings[n], stamp, secret);
  }

  lemma PlaceIsFree(g: Ledger, jobs: seq<Job>, findings: seq<Finding>, stamp: string, secret: nat, n: nat)
    requires n < |jobs| && AllReady(g, jobs, findings, stamp, secret) && AllCompiled(findings, stamp)
    requires PlansFit(findings)
    ensures HasPlace(Written(jobs, n), Plan(findings), jobs[n].item)
  {
    hide AllReady, PlansFit, Plan, Written, LeadsTo, OffFiles, QuarantineName;
    WrittenMore(g, jobs, findings, stamp, secret, n);
    OffWritten(g, jobs, findings, stamp, secret, n);
    NothingBelow(findings, n);
  }

  lemma OffWritten(g: Ledger, jobs: seq<Job>, findings: seq<Finding>, stamp: string, secret: nat, n: nat)
    requires n < |jobs| && AllReady(g, jobs, findings, stamp, secret) && AllCompiled(findings, stamp)
    requires PlansFit(findings) && n < |findings|
    ensures OffFiles(Written(jobs, n), PathTo(findings[n]))
  {
    hide Ready, Attests, QuarantineName, CleanPath, AllReady;
    var path := PathTo(findings[n]);
    assert Compiled(findings[n], stamp) && OffReserved(findings[n]);
    forall k | 0 < k <= |path| ensures path[..k] !in Written(jobs, n) {
      if path[..k] == [KEY_NAME] { assert path[0] == KEY_NAME; }
      if j :| 0 <= j < n && PathOf(jobs[j].item) == path[..k] {
        WrittenMore(g, jobs, findings, stamp, secret, j);
        assert PathTo(findings[j]) <= path;
      }
    }
  }

  lemma NothingBelow(findings: seq<Finding>, n: nat)
    requires PlansFit(findings) && n < |findings|
    ensures !LeadsTo(Plan(findings), PathTo(findings[n]))
  {
    var path := PathTo(findings[n]);
    forall p | p in Plan(findings) ensures !(path < p) {
      if i :| 0 <= i < |findings| && PathTo(findings[i]) == p { assert i != n ==> !(path <= PathTo(findings[i])); }
    }
  }

  lemma IsThere(g: Ledger, jobs: seq<Job>, i: nat, secret: nat)
    requires AllThere(g, jobs, secret) && i < |jobs|
    ensures ThereFor(g, jobs[i], secret)
  {
  }

  /** Backs up every job in turn; a failure discards the quarantines. */
  method BackUp(m: Machine, jobs: seq<Job>, workspaces: seq<Key>, stamp: string, secret: nat, b: Ino,
          ghost vault: set<Ino>, ghost findings: seq<Finding>)
      returns (ok: bool, ghost grown: set<Ino>)
    requires m.Valid() && !m.committed && Vaulted(m.ledger, m.disk.owner, stamp, b, vault)
    requires AllReady(m.ledger, jobs, findings, stamp, secret) && AllCompiled(findings, stamp)
    requires forall i :: 0 <= i < |workspaces| ==> Discardable(m.ledger, workspaces[i])
    requires forall i, j :: 0 <= i < j < |workspaces| ==> workspaces[i] != workspaces[j]
    modifies m
    ensures m.Valid() && !m.committed && m.Onward()
    ensures ok ==> Grows(old(m.ledger), m.ledger) && vault <= grown && Vaulted(m.ledger, m.disk.owner, stamp, b, grown)
    ensures ok ==> AllReady(m.ledger, jobs, findings, stamp, secret)
    ensures ok ==> forall i :: 0 <= i < |jobs| ==> BackedUp(m.ledger, stamp, jobs[i])
    ensures ok ==> forall i :: 0 <= i < |workspaces| ==> Discardable(m.ledger, workspaces[i])
    ensures ok && old(m.ledger).alone && Untouched(old(m.ledger), old(m.disk).owner, b, vault, findings) ==>
              TidyAt(m.ledger, m.disk.owner, b, grown, Written(jobs, |jobs|), Plan(findings), b, [])
    ensures m.Faultless() && old(m.ledger).alone && PlansFit(findings) && AllThere(old(m.ledger), jobs, secret) &&
            Untouched(old(m.ledger), old(m.disk).owner, b, vault, findings) ==>
              ok
  {
    hide Machine.Valid, Passed, Longer, NodesKept, Grows, Vaulted, AllReady, Ready, CompiledPath, QuarantineName,
      BackupKept, IsEntry, Discardable, CleanPath, TidyAt, PlansFit, HasPlace, HasSecret, Written, Plan, AllThere;
    HistoryGrows();
    ghost var g, plan, owner := m.ledger, Plan(findings), m.disk.owner;
    ghost var tidy := g.alone && Untouched(g, owner, b, vault, findings);
    ghost var sure := tidy && m.Faultless() && PlansFit(findings) && AllThere(g, jobs, secret);
    GrowsReflexive(g);
    if tidy { FirstWritten(g, owner, b, vault, jobs, findings); }
    ok, grown := false, vault;
    var i := 0;
    while i < |jobs|
      invariant i <= |jobs| && m.Valid() && !m.committed && m.Onward() && Grows(g, m.ledger)
      invariant vault <= grown && Vaulted(m.ledger, m.disk.owner, stamp, b, grown)
      invariant AllReady(m.ledger, jobs, findings, stamp, secret)
      invariant forall j :: 0 <= j < i ==> BackedUp(m.ledger, stamp, jobs[j])
      invariant forall j :: 0 <= j < |workspaces| ==> Discardable(m.ledger, workspaces[j])
      invariant m.ledger.alone == g.alone && m.disk.owner == owner
      invariant tidy ==> TidyAt(m.ledger, owner, b, grown, Written(jobs, i), plan, b, [])
      invariant sure ==> AllThere(m.ledger, jobs, secret)
    {
      ghost var h, v := m.ledger, grown;
      PreparedPath(h, jobs, findings, stamp, secret, i);
      WrittenMore(h, jobs, findings, stamp, secret, i);
      if sure {
        PlaceIsFree(h, jobs, findings, stamp, secret, i);
        IsThere(h, jobs, i, secret);
      }
      var done;
      done, grown := BackUpItem(m, jobs[i].item, Original(jobs[i]), stamp, secret, b, v, Written(jobs, i), plan);
      GrowsTransitive(g, h, m.ledger);
      GrowsKnown(h, m.ledger);
      if sure { AllThereGrows(h, m.ledger, jobs, secret); }
      forall j | 0 <= j < |workspaces| ensures Discardable(m.ledger, workspaces[j]) {
        DiscardableGrows(h, m.ledger, workspaces[j]);
      }
      if !done {
        Discard(m, workspaces);
        return;
      }
      PreparedGrows(h, m.ledger, jobs, findings, stamp, secret);
      forall j | 0 <= j < i ensures BackedUp(m.ledger, stamp, jobs[j]) {
        PreparedPath(h, jobs, findings, stamp, secret, j);
        BackedUpGrows(h, m.ledger, stamp, jobs[j]);
      }
      i := i + 1;
    }
    ok := true;
  }

  /** Whether an inode is what the plan says; private bytes are not digested. */
  predicate FitsReview(node: Node, f: Finding) {
    match (node, f.reviewed)
    case (Regular(content, meta, plain), ReviewedFile(digest, size)) =>
      plain && meta == f.meta && Size(content) == size <= MAXIMUM_LEGACY_FILE_BYTES && digest == Sha256(content)
    case (Regular(content, meta, plain), ReviewedPrivateFile(size)) =>
      plain && meta == f.meta && Size(content) == size <= MAXIMUM_LEGACY_FILE_BYTES
    case (Symlink(target, meta), ReviewedLink(wanted)) => meta == f.meta && target == wanted
    case _ => false
  }

  /** The name has what the plan says, and a file has no other name. */
  ghost predicate AsReviewed(g: Ledger, k: Key, f: Finding) {
    && Seen(g, k) && FitsReview(NodeAt(g, k), f)
    && (NodeAt(g, k).Regular? ==> |Links(g.seen, g.seen[k])| == 1)
  }

  /** Reads one planned target again and compares everything the plan recorded. */
  method Rescan(m: Machine, k: Key, f: Finding) returns (ok: bool)
    requires m.Valid()
    modifies m
    ensures m.Valid() && m.OnlyRead()
    ensures ok && m.ledger.alone ==> AsReviewed(m.ledger, k, f)
    ensures m.Faultless() && m.ledger.alone && AsReviewed(m.ledger, k, f) ==> ok
  {
    hide Machine.Valid, Passed;
    ok := false;
    var info := m.Inspect(k);
    if !info.Found? { return; }
    if f.reviewed.ReviewedLink? {
      if !info.node.Symlink? || info.node.meta != f.meta { return; }
      var link := ReadLink(m, k);
      ok := link.Some? && link.value.target == f.reviewed.target;
    } else {
      if !info.node.Regular? || info.node.meta != f.meta { return; }
      var data := ReadRegular(m, k, MAXIMUM_LEGACY_FILE_BYTES);
      if data.None? { return; }
      var plain := SupportedMetadata(m, k, info, 1);
      ok := plain && Size(data.value) == f.reviewed.size &&
            (f.reviewed.ReviewedFile? ==> f.reviewed.digest == Sha256(data.value));
    }
  }

  /** Every finding of the plan is on the disk just as it was reviewed. */
  ghost predicate Current(g: Ledger, f: Finding) {
    var p := KeptDirectory(g, f.dirs);
    p.Some? && AsReviewed(g, Key(p.value, f.leaf), f)
  }

  lemma CurrentFacts(g: Ledger, f: Finding, parent: Ino)
    requires Reached(g, f.dirs, parent)
    ensures Current(g, f) <==> AsReviewed(g, Key(parent, f.leaf), f)
  {
  }

  lemma CurrentRoute(g: Ledger, f: Finding)
    requires Current(g, f)
    ensures KeptDirectory(g, f.dirs).Some?
  {
  }

  /** Refuses a plan whose targets changed since it was reviewed. */
  method Revalidate(m: Machine, findings: seq<Finding>, stamp: string) returns (ok: bool)
    requires m.Valid() && !m.committed && Steady(m.ledger) && Reached(m.ledger, [], ROOT)
    requires AllCompiled(findings, stamp)
    modifies m
    ensures m.Valid() && !m.committed && m.Onward() && Discovers(old(m.ledger), m.ledger) && Steady(m.ledger)
    ensures old(m.ledger).alone ==> m.ledger == old(m.ledger)
    ensures ok && m.ledger.alone ==> forall i :: 0 <= i < |findings| ==> Current(m.ledger, findings[i])
    ensures m.Faultless() && old(m.ledger).alone &&
            (forall i :: 0 <= i < |findings| ==> Current(old(m.ledger), findings[i])) ==>
              ok
  {
    hide Machine.Valid, Passed, Longer, NodesKept, Grows, Steady, Reached, Discovers, QuarantineName, CleanPath,
      FitsReview, AsReviewed, Current;
    HistoryGrows();
    ghost var g := m.ledger;
    DiscoversReflexive(g);
    ok := false;
    var i := 0;
    while i < |findings|
      invariant i <= |findings| && m.Valid() && !m.committed && m.Onward()
      invariant Discovers(g, m.ledger) && Steady(m.ledger) && (g.alone ==> m.ledger == g)
      invariant m.ledger.alone == g.alone && Reached(m.ledger, [], ROOT)
      invariant g.alone ==> forall j :: 0 <= j < i ==> Current(g, findings[j])
    {
      ghost var h := m.ledger;
      assert Compiled(findings[i], stamp);
      assert [] + findings[i].dirs == findings[i].dirs;
      var parent, missing := OpenRoute(m, ROOT, findings[i].dirs, []);
      DiscoversTransitive(g, h, m.ledger);
      DiscoversGrows(h, m.ledger);
      GrowsKnown(h, m.ledger);
      NoPath();
      ReachedGrows(h, m.ledger, [], ROOT);
      if parent.None? {
        if Current(g, findings[i]) { CurrentRoute(g, findings[i]); }
        return;
      }
      if g.alone { CurrentFacts(g, findings[i], parent.value); }
      var same := Rescan(m, Key(parent.value, findings[i].leaf), findings[i]);
      if !same { return; }
      i := i + 1;
    }
    ok := true;
  }
}
