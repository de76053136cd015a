/** Routes: the recovery hierarchy and the directories that lead to an entry, opened
    or made one component at a time, and what keeps the transaction's own
    directories apart from every other route. */
module CleanupRoutes {
  import opened Wrappers
  import opened CleanupTypes
  import opened Disks
  import opened Ledgers
  import opened Pledges
  import opened Machines
  import opened CleanupSteps

  /** The directory at `dirs` is durable all the way from the root. */
  ghost predicate Reached(g: Ledger, dirs: seq<string>, dir: Ino) {
    && KeptDirectory(g, dirs) == Some(dir)
    && dir in g.known && g.known[dir].Directory? && dir in g.synced
  }

  lemma ReachedGrows(g: Ledger, h: Ledger, dirs: seq<string>, dir: Ino)
    requires Reached(g, dirs, dir) && Grows(g, h) && CleanPath(dirs)
    ensures Reached(h, dirs, dir)
  {
    LookupStays(KeptNames(g), KeptNodes(g), KeptNames(h), KeptNodes(h), dirs);
  }

  lemma ReachedStep(g: Ledger, dirs: seq<string>, dir: Ino, name: string, child: Ino)
    requires Reached(g, dirs, dir) && IsDirectory(g, Key(dir, name), child) && Key(dir, name) in g.kept
    requires child in g.synced
    ensures Reached(g, dirs + [name], child)
  {
    assert (dirs + [name])[..|dirs|] == dirs;
    assert KeptNames(g)[Key(dir, name)] == child && child in KeptNodes(g);
  }

  lemma ReachedFacts(g: Ledger, dirs: seq<string>, dir: Ino)
    requires Reached(g, dirs, dir) && Ordered(g) && CleanPath(dirs)
    ensures dir in g.known && g.known[dir].Directory? && dir in g.synced && !Quarantine(g, dir)
  {
    NotQuarantine(g, dirs);
  }

  lemma SteadyFacts(g: Ledger, k: Key, child: Ino)
    requires Steady(g) && IsDirectory(g, k, child) && !QuarantineName(k.name)
    ensures k in g.kept && child in g.synced
  {
  }

  predicate Acceptable(owner: nat, mode: nat, meta: Meta) {
    if mode == MODE_0700 then PrivateMeta(owner, meta) else TrustedMeta(owner, meta)
  }

  lemma NewDirectoryFacts(owner: nat, group: nat, g: Ledger, h: Ledger, k: Key, i: Ino, mode: nat)
    requires NewDirectory(owner, group, g, h, k, i, mode) && (mode == MODE_0700 || mode == MODE_0755)
    ensures IsDirectory(h, k, i) && k in h.kept && i in h.synced && Acceptable(owner, mode, h.known[i].meta)
  {
  }

  /** Nothing is in the way of a directory. */
  ghost predicate Ensurable(g: Ledger, owner: nat, k: Key, mode: nat) {
    k in g.seen ==> NamesKnownDirectory(g, k) && Acceptable(owner, mode, g.known[g.seen[k]].meta)
  }

  /** Nothing changed but directories that were found, or one that was made. */
  ghost predicate Ensured(owner: nat, group: nat, g: Ledger, h: Ledger, k: Key, child: Ino, mode: nat) {
    Discovers(g, h) || NewDirectory(owner, group, g, h, k, child, mode)
  }

  /** Opens or creates one directory of the recovery hierarchy and checks it. */
  method EnsureDirectory(m: Machine, dir: Ino, name: string, mode: nat, ghost dirs: seq<string>)
        returns (child: Option<Ino>)
    requires m.Valid() && !m.committed && Steady(m.ledger) && Reached(m.ledger, dirs, dir) && CleanPath(dirs)
    requires !QuarantineName(name)
    requires mode == MODE_0700 || mode == MODE_0755
    modifies m
    ensures m.Valid() && !m.committed && m.Onward() && Grows(old(m.ledger), m.ledger)
    ensures child.Some? ==> Steady(m.ledger) && Reached(m.ledger, dirs + [name], child.value)
    ensures child.Some? ==>
              IsDirectory(m.ledger, Key(dir, name), child.value) &&
              Acceptable(m.disk.owner, mode, m.ledger.known[child.value].meta)
    ensures child.Some? ==>
              Ensured(m.disk.owner, m.disk.group, old(m.ledger), m.ledger, Key(dir, name), child.value, mode)
    ensures child.Some? && old(m.ledger).alone ==>
              if Key(dir, name) in old(m.ledger).seen then m.ledger == old(m.ledger)
              else NewDirectory(m.disk.owner, m.disk.group, old(m.ledger), m.ledger, Key(dir, name), child.value, mode)
    ensures m.Faultless() && old(m.ledger).alone &&
            Ensurable(old(m.ledger), old(m.disk).owner, Key(dir, name), mode) ==>
              child.Some?
  {
    hide Machine.Valid, Passed, Longer, NodesKept, Grows, Steady, Reached, NewDirectory, Upholds, Sound, Ordered,
      Acceptable, Quarantine;
    HistoryGrows();
    ghost var g := m.ledger;
    GrowsReflexive(g);
    Uncommitted(m);
    ReachedFacts(g, dirs, dir);
    var k := Key(dir, name);
    child := None;
    var look := m.Inspect(k);
    if look.Failed? { return; }
    if look.Found? {
      if !look.node.Directory? || !Acceptable(m.disk.owner, mode, look.node.meta) { return; }
      LearnDirectory(m, k);
      ghost var h := m.ledger;
      var found, missing := OpenDirectory(m, dir, name);
      DiscoversTransitive(g, h, m.ledger);
      if found.None? { return; }
      GrowsKnown(h, m.ledger);
      ReachedGrows(g, m.ledger, dirs, dir);
      SteadyFacts(m.ledger, k, found.value);
      ReachedStep(m.ledger, dirs, dir, name, found.value);
      child := found;
    } else {
      var made, created := MakeDirectory(m, dir, name, mode);
      if made.None? { return; }
      ReachedGrows(g, m.ledger, dirs, dir);
      NewDirectoryFacts(m.disk.owner, m.disk.group, g, m.ledger, k, made.value, mode);
      ReachedStep(m.ledger, dirs, dir, name, made.value);
      child := made;
    }
  }

  /** The directories of one transaction: every inode this process named in them,
      and the directories themselves, have only the names given here. */
  ghost predicate Shelter(g: Ledger, stamp: string, vault: set<Ino>) {
    && (forall v ::
          v in vault ==>
            v in g.made && v in g.sole && v in g.known && (g.sole[v].dir in vault || g.sole[v].name == stamp))
    && (forall k ::
          k in g.seen && k.dir in vault && g.seen[k] in g.known && g.known[g.seen[k]].Directory? ==> g.seen[k] in vault)
    && (forall i :: i in g.sole && i in g.known ==> g.known[i].Directory? || g.sole[i].dir in vault)
  }

  lemma ShelterDiscovers(g: Ledger, h: Ledger, stamp: string, vault: set<Ino>)
    requires Shelter(g, stamp, vault) && Discovers(g, h) && Sound(g)
    ensures Shelter(h, stamp, vault)
  {
    forall k | k in h.seen && k.dir in vault && h.seen[k] in h.known && h.known[h.seen[k]].Directory?
      ensures h.seen[k] in vault
    {
      assert k in g.seen;
      assert g.seen[k] in g.known ==> h.known[g.seen[k]] == g.known[g.seen[k]];
    }
  }

  lemma ShelterDirectory(owner: nat, group: nat, g: Ledger, h: Ledger, stamp: string, vault: set<Ino>, k: Key, i: Ino,
          mode: nat)
    requires Shelter(g, stamp, vault) && NewDirectory(owner, group, g, h, k, i, mode) && Grows(g, h) && Sound(g)
    ensures k.dir in vault || k.name == stamp ==> Shelter(h, stamp, vault + {i})
  {
    assert forall j :: j in g.known ==> j in h.known && h.known[j] == g.known[j];
  }

  /** An entry of the vault that leads to a directory leads into the vault. */
  lemma ShelterChild(owner: nat, group: nat, g: Ledger, h: Ledger, stamp: string, vault: set<Ino>, k: Key, i: Ino,
          mode: nat)
      returns (grown: set<Ino>)
    requires Shelter(g, stamp, vault) && Sound(g) && k.dir in vault && Grows(g, h)
    requires Ensured(owner, group, g, h, k, i, mode) && IsDirectory(h, k, i)
    ensures vault <= grown && i in grown && Shelter(h, stamp, grown)
    ensures grown == if Discovers(g, h) then vault else vault + {i}
  {
    if Discovers(g, h) {
      ShelterDiscovers(g, h, stamp, vault);
      grown := vault;
    } else {
      ShelterDirectory(owner, group, g, h, stamp, vault, k, i, mode);
      grown := vault + {i};
    }
  }

  lemma ShelterOwn(g: Ledger, h: Ledger, stamp: string, vault: set<Ino>, k: Key, f: Ino, node: Node)
    requires Shelter(g, stamp, vault) && Own(g, h, k, f, node) && k.dir in vault && !node.Directory? && Sound(g)
    ensures Shelter(h, stamp, vault)
  {
    assert forall j :: j in g.known ==> j in h.known && h.known[j] == g.known[j];
  }

  lemma ShelterSame(g: Ledger, h: Ledger, stamp: string, vault: set<Ino>)
    requires Shelter(g, stamp, vault) && h.sole == g.sole && h.made == g.made && h.seen == g.seen && h.known == g.known
    ensures Shelter(h, stamp, vault)
  {
  }

  /** A route of ordinary names that does not pass through the transaction's
      directory ends outside of it. */
  lemma {:induction false} OutsideVault(g: Ledger, stamp: string, vault: set<Ino>, dirs: seq<string>)
    requires Shelter(g, stamp, vault) && Ordered(g) && stamp !in dirs && KeptDirectory(g, dirs).Some?
    ensures KeptDirectory(g, dirs).value !in vault
  {
    if dirs != [] {
      OutsideVault(g, stamp, vault, dirs[..|dirs| - 1]);
      var p := Lookup(KeptNames(g), KeptNodes(g), dirs[..|dirs| - 1]);
      var k := Key(p.value, dirs[|dirs| - 1]);
      assert KeptNames(g)[k] == KeptDirectory(g, dirs).value;
      assert k.name == dirs[|dirs| - 1] != stamp;
    }
  }

  lemma AcceptableFacts(owner: nat, g: Ledger, i: Ino)
    requires i in g.known && g.known[i].Directory? && Acceptable(owner, MODE_0700, g.known[i].meta)
    ensures Closed(owner, g, i)
  {
  }

  lemma ClosedGrows(owner: nat, g: Ledger, h: Ledger, i: Ino)
    requires Closed(owner, g, i) && Grows(g, h)
    ensures Closed(owner, h, i)
  {
  }

  /** The transaction's directory, durable from the root down. */
  ghost predicate Rooted(g: Ledger, owner: nat, stamp: string, b: Ino) {
    Reached(g, BackupDirs(stamp), b) && Closed(owner, g, b) &&
    forall n :: 1 <= n <= 5 ==> HierarchyLevel(g, owner, stamp, n)
  }

  lemma LevelGrows(g: Ledger, h: Ledger, owner: nat, stamp: string, n: nat)
    requires 1 <= n <= 5 && HierarchyLevel(g, owner, stamp, n) && Grows(g, h) && !QuarantineName(stamp)
    ensures HierarchyLevel(h, owner, stamp, n)
  {
    OrdinaryNames();
    LookupStays(KeptNames(g), KeptNodes(g), KeptNames(h), KeptNodes(h), BackupDirs(stamp)[..n]);
  }

  lemma RootedGrows(g: Ledger, h: Ledger, owner: nat, stamp: string, b: Ino)
    requires Rooted(g, owner, stamp, b) && Grows(g, h) && !QuarantineName(stamp)
    ensures Rooted(h, owner, stamp, b)
  {
    hide HierarchyLevel;
    OrdinaryNames();
    ReachedGrows(g, h, BackupDirs(stamp), b);
    forall n | 1 <= n <= 5 ensures HierarchyLevel(h, owner, stamp, n) {
      LevelGrows(g, h, owner, stamp, n);
    }
  }

  /** Opens one more directory of a route that is already durable. */
  method StepInto(m: Machine, dir: Ino, name: string, ghost dirs: seq<string>)
        returns (child: Option<Ino>, missing: bool)
    requires m.Valid() && !m.committed && Steady(m.ledger) && Reached(m.ledger, dirs, dir) && CleanPath(dirs)
    requires !QuarantineName(name)
    modifies m
    ensures m.Valid() && !m.committed && m.Onward() && Discovers(old(m.ledger), m.ledger) && Steady(m.ledger)
    ensures old(m.ledger).alone ==> m.ledger == old(m.ledger)
    ensures child.Some? ==>
              Reached(m.ledger, dirs + [name], child.value) && IsDirectory(m.ledger, Key(dir, name), child.value)
    ensures m.Faultless() && KeptDirectory(old(m.ledger), dirs + [name]).Some? ==> child.Some?
    ensures missing ==> child.None?
    ensures old(m.ledger).alone ==>
              if missing then Key(dir, name) !in old(m.ledger).seen
              else m.Faultless() ==> Key(dir, name) in old(m.ledger).seen
  {
    hide Machine.Valid, Passed, Longer, NodesKept, Grows, Steady, Reached;
    HistoryGrows();
    ghost var g := m.ledger;
    if KeptDirectory(g, dirs + [name]).Some? { ReachedName(g, dirs, dir, name); }
    child, missing := OpenDirectory(m, dir, name);
    ReachedGrows(g, m.ledger, dirs, dir);
    if child.Some? {
      SteadyFacts(m.ledger, Key(dir, name), child.value);
      ReachedStep(m.ledger, dirs, dir, name, child.value);
    }
  }

  lemma ReachedName(g: Ledger, dirs: seq<string>, dir: Ino, name: string)
    requires Reached(g, dirs, dir) && KeptDirectory(g, dirs + [name]).Some?
    ensures NamesKnownDirectory(g, Key(dir, name))
  {
    assert (dirs + [name])[..|dirs|] == dirs;
  }

  lemma {:induction false} LookupPrefix(names: map<Key, Ino>, nodes: map<Ino, Node>, dirs: seq<string>, n: nat)
    requires n <= |dirs| && Lookup(names, nodes, dirs).Some?
    ensures Lookup(names, nodes, dirs[..n]).Some?
  {
    if n < |dirs| {
      LookupPrefix(names, nodes, dirs[..|dirs| - 1], n);
      assert dirs[..|dirs| - 1][..n] == dirs[..n];
    } else {
      assert dirs[..n] == dirs;
    }
  }

  /** A component of a path is absent, and everything before it is there. */
  ghost predicate Gone(g: Ledger, dirs: seq<string>) {
    exists n :: 0 <= n < |dirs| && GoneAt(g, dirs, n)
  }

  ghost predicate GoneAt(g: Ledger, dirs: seq<string>, n: nat)
    requires n < |dirs|
  {
    KeptDirectory(g, dirs[..n]).Some? && Key(KeptDirectory(g, dirs[..n]).value, dirs[n]) !in g.seen
  }

  /** The first component that is not there is the absent one. */
  lemma GoneIsNext(g: Ledger, dirs: seq<string>, i: nat)
    requires i <= |dirs| && Gone(g, dirs) && KeptDirectory(g, dirs[..i]).Some?
    ensures i < |dirs| && (GoneAt(g, dirs, i) || KeptDirectory(g, dirs[..i + 1]).Some?)
  {
    var n :| 0 <= n < |dirs| && GoneAt(g, dirs, n);
    if n < i {
      assert dirs[..i][..n + 1] == dirs[..n + 1] && dirs[..n + 1][..n] == dirs[..n];
      LookupPrefix(KeptNames(g), KeptNodes(g), dirs[..i], n + 1);
    } else if i < n {
      LookupPrefix(KeptNames(g), KeptNodes(g), dirs[..n], i + 1);
      assert dirs[..n][..i + 1] == dirs[..i + 1];
    }
  }

  /** Opens every directory before an entry, one stable handle at a time, from an
      open directory down. */
  method OpenRoute(m: Machine, base: Ino, dirs: seq<string>, ghost above: seq<string>)
        returns (parent: Option<Ino>, missing: bool)
    requires m.Valid() && !m.committed && Steady(m.ledger) && Reached(m.ledger, above, base) && CleanPath(above + dirs)
    modifies m
    ensures m.Valid() && !m.committed && m.Onward() && Discovers(old(m.ledger), m.ledger) && Steady(m.ledger)
    ensures old(m.ledger).alone ==> m.ledger == old(m.ledger)
    ensures parent.Some? ==> Reached(m.ledger, above + dirs, parent.value)
    ensures missing ==> parent.None?
    ensures m.Faultless() && old(m.ledger).alone && KeptDirectory(old(m.ledger), above + dirs).Some? ==> parent.Some?
    ensures m.Faultless() && old(m.ledger).alone ==> (missing <==> Gone(old(m.ledger), above + dirs))
  {
    hide Machine.Valid, Passed, Longer, NodesKept, Grows, Steady, Reached, Discovers, QuarantineName, Gone, GoneAt;
    HistoryGrows();
    ghost var g := m.ledger;
    DiscoversReflexive(g);
    parent, missing := Some(base), false;
    var i := 0;
    assert above + dirs[..0] == above;
    while i < |dirs|
      invariant i <= |dirs| && m.Valid() && !m.committed && m.Onward()
      invariant Discovers(g, m.ledger) && Steady(m.ledger) && (g.alone ==> m.ledger == g)
      invariant parent.Some? && !missing && Reached(m.ledger, above + dirs[..i], parent.value)
    {
      ghost var h := m.ledger;
      NextOnRoute(g, above, dirs, i);
      ghost var start := parent.value;
      parent, missing := StepInto(m, parent.value, dirs[i], above + dirs[..i]);
      DiscoversTransitive(g, h, m.ledger);
      if parent.None? {
        if g.alone { StoppedAt(g, above, dirs, i, start, missing); }
        return;
      }
      i := i + 1;
    }
    assert above + dirs[..i] == above + dirs;
    if g.alone { ArrivedAt(g, above + dirs, parent.value); }
  }

  lemma ArrivedAt(g: Ledger, dirs: seq<string>, dir: Ino)
    requires Reached(g, dirs, dir)
    ensures !Gone(g, dirs)
  {
    hide Gone;
    assert dirs[..|dirs|] == dirs;
    if Gone(g, dirs) { GoneIsNext(g, dirs, |dirs|); }
  }

  /** Why a route ends before its last component. */
  lemma StoppedAt(g: Ledger, above: seq<string>, dirs: seq<string>, i: nat, dir: Ino, missing: bool)
    requires i < |dirs| && Reached(g, above + dirs[..i], dir)
    ensures missing && Key(dir, dirs[i]) !in g.seen ==> Gone(g, above + dirs)
    ensures !missing && Key(dir, dirs[i]) in g.seen && KeptDirectory(g, above + dirs[..i + 1]).None? ==>
              !Gone(g, above + dirs)
  {
    hide Gone, GoneAt;
    var all, n := above + dirs, |above| + i;
    assert all[..n] == above + dirs[..i] && all[n] == dirs[i] && all[..n + 1] == above + dirs[..i + 1];
    StopIs(g, all, n, dir);
    if Gone(g, all) { GoneIsNext(g, all, n); }
  }

  lemma StopIs(g: Ledger, dirs: seq<string>, n: nat, dir: Ino)
    requires n < |dirs| && Reached(g, dirs[..n], dir)
    ensures GoneAt(g, dirs, n) <==> Key(dir, dirs[n]) !in g.seen
    ensures GoneAt(g, dirs, n) ==> Gone(g, dirs)
    ensures KeptDirectory(g, dirs[..n]) == Some(dir)
  {
  }

  lemma NextOnRoute(g: Ledger, above: seq<string>, dirs: seq<string>, i: nat)
    requires CleanPath(above + dirs) && i < |dirs|
    ensures CleanPath(above + dirs[..i]) && !QuarantineName(dirs[i])
    ensures (above + dirs[..i]) + [dirs[i]] == above + dirs[..i + 1]
    ensures KeptDirectory(g, above + dirs).Some? ==> KeptDirectory(g, above + dirs[..i + 1]).Some?
  {
    assert (above + dirs)[|above| + i] == dirs[i] && above + dirs[..i] == (above + dirs)[..|above| + i];
    assert (above + dirs)[..|above| + i + 1] == above + dirs[..i + 1];
    if KeptDirectory(g, above + dirs).Some? { LookupPrefix(KeptNames(g), KeptNodes(g), above + dirs, |above| + i + 1); }
  }

  lemma DiscoversReflexive(g: Ledger)
    ensures Discovers(g, g)
  {
  }

  lemma DiscoversGrows(g: Ledger, h: Ledger)
    requires Discovers(g, h)
    ensures Grows(g, h)
  {
  }

  /** Opens and validates one component of the recovery hierarchy. */
  method StepLevel(m: Machine, stamp: string, n: nat, dir: Ino) returns (child: Option<Ino>)
    requires m.Valid() && !m.committed && Steady(m.ledger) && !QuarantineName(stamp)
    requires n < 5 && Reached(m.ledger, BackupDirs(stamp)[..n], dir)
    modifies m
    ensures m.Valid() && !m.committed && m.Onward() && Discovers(old(m.ledger), m.ledger) && Steady(m.ledger)
    ensures old(m.ledger).alone ==> m.ledger == old(m.ledger)
    ensures child.Some? ==> Reached(m.ledger, BackupDirs(stamp)[..n + 1], child.value)
    ensures child.Some? ==> HierarchyLevel(m.ledger, m.disk.owner, stamp, n + 1)
    ensures m.Faultless() && old(m.ledger).alone && HierarchyLevel(old(m.ledger), old(m.disk).owner, stamp, n + 1) ==>
              child.Some?
  {
    hide Machine.Valid, Passed, Longer, NodesKept, Grows, Steady, Reached, Discovers, HierarchyLevel, Trustworthy,
      CleanPath, QuarantineName;
    HistoryGrows();
    var parts := BackupDirs(stamp);
    CleanHierarchy(stamp, n);
    ghost var g := m.ledger;
    assert parts[..n + 1] == parts[..n] + [parts[n]];
    if g.alone && HierarchyLevel(g, m.disk.owner, stamp, n + 1) { LevelDirectory(g, m.disk.owner, stamp, n + 1, dir); }
    var k := Key(dir, parts[n]);
    var missing;
    child, missing := StepInto(m, dir, parts[n], parts[..n]);
    if child.None? { return; }
    var look := m.Inspect(k);
    if !look.Found? || !look.node.Directory? || !Trustworthy(m.disk.owner, n + 1, look.node.meta) { return None; }
    LevelReached(m.ledger, m.disk.owner, stamp, n + 1, child.value);
  }

  lemma CleanHierarchy(stamp: string, n: nat)
    requires !QuarantineName(stamp) && n < 5
    ensures CleanPath(BackupDirs(stamp)[..n]) && !QuarantineName(BackupDirs(stamp)[n]) && CleanPath(BackupDirs(stamp))
  {
    OrdinaryNames();
  }

  /** Opens and validates the fixed components of the recovery hierarchy: the first
      four, or with the transaction's own directory all five. */
  method OpenHierarchy(m: Machine, stamp: string, depth: nat) returns (dir: Option<Ino>)
    requires m.Valid() && !m.committed && Steady(m.ledger) && Reached(m.ledger, [], ROOT) && 4 <= depth <= 5
    requires !QuarantineName(stamp)
    modifies m
    ensures m.Valid() && !m.committed && m.Onward() && Discovers(old(m.ledger), m.ledger) && Steady(m.ledger)
    ensures old(m.ledger).alone ==> m.ledger == old(m.ledger)
    ensures dir.Some? ==> Reached(m.ledger, BackupDirs(stamp)[..depth], dir.value)
    ensures dir.Some? ==> forall n :: 1 <= n <= depth ==> HierarchyLevel(m.ledger, m.disk.owner, stamp, n)
    ensures m.Faultless() && old(m.ledger).alone &&
            (forall n :: 1 <= n <= depth ==> HierarchyLevel(old(m.ledger), old(m.disk).owner, stamp, n)) ==>
              dir.Some?
  {
    hide Machine.Valid, Passed, Longer, NodesKept, Grows, Steady, Reached, Discovers, HierarchyLevel, QuarantineName;
    HistoryGrows();
    ghost var g := m.ledger;
    DiscoversReflexive(g);
    dir := Some(ROOT);
    var i := 0;
    assert BackupDirs(stamp)[..0] == [];
    while i < depth
      invariant i <= depth && m.Valid() && !m.committed && m.Onward()
      invariant Discovers(g, m.ledger) && Steady(m.ledger) && (g.alone ==> m.ledger == g)
      invariant dir.Some? && Reached(m.ledger, BackupDirs(stamp)[..i], dir.value)
      invariant forall n :: 1 <= n <= i ==> HierarchyLevel(m.ledger, m.disk.owner, stamp, n)
    {
      ghost var h := m.ledger;
      dir := StepLevel(m, stamp, i, dir.value);
      DiscoversTransitive(g, h, m.ledger);
      if dir.None? { return; }
      DiscoversGrows(h, m.ledger);
      forall n | 1 <= n <= i ensures HierarchyLevel(m.ledger, m.disk.owner, stamp, n) {
        LevelGrows(h, m.ledger, m.disk.owner, stamp, n);
      }
      i := i + 1;
    }
  }

  lemma LevelReached(g: Ledger, owner: nat, stamp: string, n: nat, dir: Ino)
    requires 1 <= n <= 5 && Reached(g, BackupDirs(stamp)[..n], dir) && Trustworthy(owner, n, g.known[dir].meta)
    ensures HierarchyLevel(g, owner, stamp, n)
  {
  }

  lemma LevelDirectory(g: Ledger, owner: nat, stamp: string, n: nat, parent: Ino)
    requires 1 <= n <= 5 && HierarchyLevel(g, owner, stamp, n) && Reached(g, BackupDirs(stamp)[..n - 1], parent)
    ensures KeptDirectory(g, BackupDirs(stamp)[..n]).Some?
    ensures var k := Key(parent, BackupDirs(stamp)[n - 1]);
      k in g.seen && g.seen[k] in g.known && g.known[g.seen[k]].Directory? &&
      Trustworthy(owner, n, g.known[g.seen[k]].meta)
  {
    assert BackupDirs(stamp)[..n][..n - 1] == BackupDirs(stamp)[..n - 1];
  }

  lemma SteadyOwn(g: Ledger, h: Ledger, k: Key, f: Ino, node: Node, dir: Ino)
    requires Steady(g) && Own(g, h, k, f, node) && !node.Directory? && Sound(g)
    ensures Steady(h) && Steady(NoteSync(h, dir))
  {
    forall j | j in h.seen && h.seen[j] in h.known && h.known[h.seen[j]].Directory? && !QuarantineName(j.name)
      ensures j in h.kept && h.seen[j] in h.synced
    {
      assert j in g.seen && h.known[g.seen[j]] == g.known[g.seen[j]];
    }
    SyncFacts(h, dir);
  }

  lemma CleanBackup(stamp: string, parts: seq<string>)
    requires !QuarantineName(stamp) && CleanPath(parts)
    ensures CleanPath(BackupDirs(stamp) + parts) && CleanPath(BackupDirs(stamp))
  {
    OrdinaryNames();
  }

  lemma NoPath()
    ensures CleanPath([])
  {
  }
}
