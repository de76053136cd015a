/** What a running clean-up may rely on about the disk, whatever other processes
    do to leaf names: the entries and inodes it opened or made, which of them are
    on stable storage, and which inodes have one name only.  When the process is
    alone, the ledger lists the whole visible disk. */
module Ledgers {
  import opened Wrappers
  import opened CleanupTypes
  import opened Disks

  datatype Ledger = Ledger(
    alone: bool,                // nobody else acts: all visible entries are listed
    calm: bool,                 // alone, and the disk was settled at the start
    birth: Ino,                 // inodes found at the start are below this
    seen: map<Key, Ino>,        // visible entries
    kept: set<Key>,             // entries of seen that no crash can change
    known: map<Ino, Node>,      // inodes and what they hold
    synced: set<Ino>,           // inodes of known that no crash can change
    sole: map<Ino, Key>,        // inodes that never had another name
    empty: set<Ino>,            // directories without entries
    made: set<Ino>,             // inodes this process made
    moved: map<Key, Move>,      // when calm: originals renamed away
    gone: set<Ino>)             // when calm: the inodes that were renamed

  predicate Closed(owner: nat, g: Ledger, dir: Ino) {
    dir in g.known && g.known[dir].Directory? && ClosedMeta(owner, g.known[dir].meta)
  }

  ghost predicate Upholds(d: Disk, g: Ledger) {
    && WellFormed(d)
    && Names(d, g) && Sole(d, g) && Empty(d, g) && Inodes(d, g) && Found(d, g)
    && (g.alone ==> Complete(d, g))
    && (g.calm ==> g.alone && Calm(d, g))
  }

  ghost predicate Names(d: Disk, g: Ledger) {
    && (forall k :: k in g.seen ==> k in d.vis && d.vis[k] == g.seen[k])
    && (forall k :: k in g.kept ==> k in g.seen)
    && (forall p :: p in d.stale ==> p.0 !in g.kept)
  }

  ghost predicate Sole(d: Disk, g: Ledger) {
    && (forall i :: i in g.sole ==> i in d.nodes && g.sole[i].dir in d.nodes)
    && (forall k :: k in d.vis && d.vis[k] in g.sole ==> g.sole[d.vis[k]] == k)
    && (forall p :: p in d.stale && p.1.Some? && p.1.value in g.sole ==> g.sole[p.1.value] == p.0)
  }

  ghost predicate Empty(d: Disk, g: Ledger) {
    && (forall i :: i in g.empty ==> i in d.nodes)
    && (forall k :: k in d.vis ==> k.dir !in g.empty)
  }

  ghost predicate Inodes(d: Disk, g: Ledger) {
    && (forall i :: i in g.known ==> i in d.nodes && d.nodes[i] == g.known[i])
    && (forall k :: k in g.seen ==> g.seen[k] in g.known)
    && (forall i :: i in g.synced ==> i in g.known && i !in d.dirty)
    && (forall i :: i in g.made ==> i in g.known && i >= g.birth)
    && (forall i :: i in g.sole ==> i in g.made)
    && ROOT < g.birth <= d.next
  }

  /** Directories found at the start are settled; newer ones are this process's. */
  ghost predicate Found(d: Disk, g: Ledger) {
    && (forall p :: p in d.stale && NamesDirectory(d, p.0) ==> d.vis[p.0] >= g.birth)
    && (forall k :: NamesDirectory(d, k) ==>
          k in g.seen || (k.dir < g.birth && d.vis[k] < g.birth && d.vis[k] !in d.dirty))
  }

  ghost predicate Complete(d: Disk, g: Ledger) {
    && (forall k :: k in d.vis ==> k in g.seen)
    && (forall i :: i in d.nodes ==> i in g.known)
  }

  /** On a disk that was settled, only new and renamed inodes have older names, and
      a renamed original is back under its name after a crash, or nowhere. */
  ghost predicate Calm(d: Disk, g: Ledger) {
    && (forall p :: p in d.stale && p.1.Some? ==> p.1.value >= g.birth || p.1.value in g.gone)
    && (forall k :: k in g.moved ==> MovedAway(d, g, k, g.moved[k]))
  }

  ghost predicate MovedAway(d: Disk, g: Ledger, k: Key, m: Move) {
    && m.from == k && k !in d.vis && m.to != k && m.ino < g.birth && m.ino in g.gone && m.ino in g.synced
    && m.ino in g.known
    && (forall p :: p in d.stale && p.0 == k ==> p.1 == Some(m.ino))
    && ((k, Some(m.ino)) in d.stale ==> m in d.moves)
    && (g.known[m.ino].Regular? ==>
          (forall j :: j in d.vis && d.vis[j] == m.ino ==> j == m.to) &&
          (forall p :: p in d.stale && p.1 == Some(m.ino) ==> p.0 == k || p.0 == m.to))
  }

  /** Every promise is about a directory entry, or lies in a closed directory. */
  ghost predicate Guarded(owner: nat, g: Ledger) {
    && (forall k :: k in g.seen ==>
          Closed(owner, g, k.dir) || (g.seen[k] in g.known && g.known[g.seen[k]].Directory?))
    && (forall i :: i in g.sole ==> i in g.known && (g.known[i].Directory? || Closed(owner, g, g.sole[i].dir)))
    && (forall i :: i in g.empty ==> Closed(owner, g, i))
  }

  lemma NotNameable(d: Disk, g: Ledger, e: Disk, i: Ino)
    requires WellFormed(d) && Sole(d, g) && Inodes(d, g) && Guarded(d.owner, g) && Interference(d, e) && i in g.sole
    ensures !MayNowName(d, e, i)
  {
  }

  lemma InterferenceNames(d: Disk, g: Ledger, e: Disk)
    requires Names(d, g) && Inodes(d, g) && Guarded(d.owner, g) && Interference(d, e)
    ensures Names(e, g)
  {
    forall k | k in g.seen ensures !PublicLeaf(d, k) && View(e.vis, k) == View(d.vis, k) {
    }
  }

  lemma InterferenceSole(d: Disk, g: Ledger, e: Disk)
    requires WellFormed(d) && Sole(d, g) && Inodes(d, g) && Guarded(d.owner, g) && Interference(d, e)
    ensures Sole(e, g)
  {
    forall i | i in g.sole ensures !MayNowName(d, e, i) {
      NotNameable(d, g, e, i);
    }
    forall k | k in e.vis && e.vis[k] in g.sole ensures g.sole[e.vis[k]] == k {
      assert View(e.vis, k) == View(d.vis, k);
    }
  }

  lemma InterferenceEmpty(d: Disk, g: Ledger, e: Disk)
    requires Empty(d, g) && Inodes(d, g) && Guarded(d.owner, g) && Interference(d, e)
    ensures Empty(e, g)
  {
    forall k: Key | k.dir in g.empty ensures k !in e.vis {
      assert Closed(d.owner, g, k.dir) && !PublicLeaf(d, k);
      assert View(e.vis, k) == View(d.vis, k);
    }
  }

  lemma InterferenceFound(d: Disk, g: Ledger, e: Disk)
    requires WellFormed(d) && Found(d, g) && Interference(d, e)
    ensures Found(e, g)
  {
    forall k | NamesDirectory(e, k) ensures View(e.vis, k) == View(d.vis, k) && NamesDirectory(d, k) {
    }
  }

  lemma InterferenceUpholds(d: Disk, g: Ledger, e: Disk)
    requires Upholds(d, g) && Guarded(d.owner, g) && !g.alone
    requires Interference(d, e)
    ensures Upholds(e, g)
  {
    InterferenceNames(d, g, e);
    InterferenceSole(d, g, e);
    InterferenceEmpty(d, g, e);
    InterferenceFound(d, g, e);
  }

  /** Ledger updates, one for each kind of change to the disk. */

  function NoteNode(owner: nat, g: Ledger, i: Ino, node: Node): (h: Ledger)
    ensures h.alone == g.alone && h.calm == g.calm && h.made == g.made + {i}
  {
    g.(known := g.known[i := node], synced := g.synced - {i}, made := g.made + {i},
       empty := if node.Directory? && ClosedMeta(owner, node.meta) then g.empty + {i} else g.empty)
  }

  lemma AllocateNames(d: Disk, g: Ledger, node: Node)
    requires WellFormed(d) && Names(d, g) && Sole(d, g) && Empty(d, g)
    requires node.Symlink? ==> node.meta.mode == MODE_0777
    ensures var e, h := Allocate(d, node), NoteNode(d.owner, g, d.next, node);
      WellFormed(e) && Names(e, h) && Sole(e, h) && Empty(e, h)
  {
  }

  lemma AllocateInodes(d: Disk, g: Ledger, node: Node)
    requires WellFormed(d) && Inodes(d, g)
    ensures Inodes(Allocate(d, node), NoteNode(d.owner, g, d.next, node))
    ensures g.alone && Complete(d, g) ==> Complete(Allocate(d, node), NoteNode(d.owner, g, d.next, node))
  {
  }

  lemma AllocateFound(d: Disk, g: Ledger, node: Node)
    requires WellFormed(d) && Found(d, g)
    ensures Found(Allocate(d, node), NoteNode(d.owner, g, d.next, node))
  {
    var e := Allocate(d, node);
    forall k | NamesDirectory(e, k) ensures NamesDirectory(d, k) && d.vis[k] != d.next { }
  }

  lemma AllocateCalm(d: Disk, g: Ledger, node: Node)
    requires WellFormed(d) && Calm(d, g) && g.birth <= d.next
    ensures Calm(Allocate(d, node), NoteNode(d.owner, g, d.next, node))
  {
    var e, h := Allocate(d, node), NoteNode(d.owner, g, d.next, node);
    forall j | j in h.moved ensures MovedAway(e, h, j, h.moved[j]) { assert MovedAway(d, g, j, g.moved[j]); }
  }

  lemma AllocateGuarded(d: Disk, g: Ledger, node: Node)
    requires WellFormed(d) && Inodes(d, g) && Guarded(d.owner, g)
    ensures Guarded(d.owner, NoteNode(d.owner, g, d.next, node))
  {
    var h := NoteNode(d.owner, g, d.next, node);
    forall i | Closed(d.owner, g, i) ensures Closed(d.owner, h, i) { }
    assert d.next !in g.known;
  }

  lemma AllocateUpholds(d: Disk, g: Ledger, node: Node)
    requires Upholds(d, g)
    requires node.Symlink? ==> node.meta.mode == MODE_0777
    ensures Upholds(Allocate(d, node), NoteNode(d.owner, g, d.next, node))
  {
    AllocateNames(d, g, node);
    AllocateInodes(d, g, node);
    AllocateFound(d, g, node);
    if g.calm { AllocateCalm(d, g, node); }
  }

  /** Entry `k` changes.  A listed entry is one the process may rely on; others
      belong to everybody. */
  function NoteEntry(g: Ledger, k: Key, v: Option<Ino>, listed: bool): (h: Ledger)
    ensures h.alone == g.alone && h.calm == g.calm && h.made == g.made
  {
    g.(seen := if listed && v.Some? then g.seen[k := v.value] else g.seen - {k},
       kept := g.kept - {k},
       empty := if v.Some? then g.empty - {k.dir} else g.empty)
  }

  predicate MayRebind(d: Disk, g: Ledger, k: Key, v: Option<Ino>, listed: bool) {
    && k.dir in d.nodes && View(d.vis, k) != v && (g.alone ==> listed)
    && (v.Some? ==>
          && v.value in d.nodes && v.value !in g.sole && (listed ==> v.value in g.known)
          && (d.nodes[v.value].Directory? ==> v.value in g.made && listed))
  }

  lemma RebindNames(d: Disk, g: Ledger, k: Key, v: Option<Ino>, listed: bool)
    requires WellFormed(d) && Names(d, g) && Empty(d, g) && MayRebind(d, g, k, v, listed)
    ensures var e, h := Rebind(d, k, v), NoteEntry(g, k, v, listed);
      WellFormed(e) && Names(e, h) && Empty(e, h)
  {
  }

  lemma RebindSole(d: Disk, g: Ledger, k: Key, v: Option<Ino>, listed: bool)
    requires Sole(d, g) && MayRebind(d, g, k, v, listed)
    ensures Sole(Rebind(d, k, v), NoteEntry(g, k, v, listed))
  {
  }

  lemma RebindInodes(d: Disk, g: Ledger, k: Key, v: Option<Ino>, listed: bool)
    requires Inodes(d, g) && MayRebind(d, g, k, v, listed)
    ensures Inodes(Rebind(d, k, v), NoteEntry(g, k, v, listed))
  {
  }

  lemma RebindComplete(d: Disk, g: Ledger, k: Key, v: Option<Ino>)
    requires Complete(d, g)
    ensures Complete(Rebind(d, k, v), NoteEntry(g, k, v, true))
  {
  }

  lemma RebindFound(d: Disk, g: Ledger, k: Key, v: Option<Ino>, listed: bool)
    requires WellFormed(d) && Found(d, g) && Inodes(d, g) && MayRebind(d, g, k, v, listed)
    ensures Found(Rebind(d, k, v), NoteEntry(g, k, v, listed))
  {
    var e := Rebind(d, k, v);
    forall j | NamesDirectory(e, j) && j != k ensures NamesDirectory(d, j) { }
  }

  ghost predicate CalmRebind(d: Disk, g: Ledger, k: Key, v: Option<Ino>) {
    && (v.Some? ==> v.value >= g.birth && k !in g.moved)
    && (k in d.vis ==> d.vis[k] >= g.birth || d.vis[k] in g.gone)
  }

  lemma RebindCalm(d: Disk, g: Ledger, k: Key, v: Option<Ino>)
    requires Calm(d, g) && CalmRebind(d, g, k, v) && View(d.vis, k) != v
    ensures Calm(Rebind(d, k, v), NoteEntry(g, k, v, true))
  {
    var e, h := Rebind(d, k, v), NoteEntry(g, k, v, true);
    forall j | j in h.moved ensures MovedAway(e, h, j, h.moved[j]) { assert MovedAway(d, g, j, g.moved[j]); }
  }

  lemma RebindUpholds(d: Disk, g: Ledger, k: Key, v: Option<Ino>, listed: bool)
    requires Upholds(d, g) && MayRebind(d, g, k, v, listed)
    requires g.calm ==> CalmRebind(d, g, k, v)
    ensures Upholds(Rebind(d, k, v), NoteEntry(g, k, v, listed))
  {
    RebindNames(d, g, k, v, listed);
    RebindSole(d, g, k, v, listed);
    RebindInodes(d, g, k, v, listed);
    RebindFound(d, g, k, v, listed);
    if g.alone { RebindComplete(d, g, k, v); }
    if g.calm { RebindCalm(d, g, k, v); }
  }

  /** Guarded promises survive a listed entry in a closed directory or naming one. */
  lemma EntryGuarded(owner: nat, g: Ledger, k: Key, v: Option<Ino>, listed: bool)
    requires Guarded(owner, g)
    requires listed && v.Some? ==> Closed(owner, g, k.dir) || (v.value in g.known && g.known[v.value].Directory?)
    ensures Guarded(owner, NoteEntry(g, k, v, listed))
  {
    var h := NoteEntry(g, k, v, listed);
    forall i | Closed(owner, g, i) ensures Closed(owner, h, i) { }
  }

  predicate Listed(owner: nat, g: Ledger, k: Key, node: Node) {
    g.alone || node.Directory? || Closed(owner, g, k.dir)
  }

  function NoteCreate(owner: nat, g: Ledger, k: Key, i: Ino, node: Node): (h: Ledger)
    ensures h.alone == g.alone && h.calm == g.calm && h.made == g.made + {i}
  {
    var listed := Listed(owner, g, k, node);
    var h := NoteEntry(NoteNode(owner, g, i, node), k, Some(i), listed);
    if listed then h.(sole := h.sole[i := k]) else h
  }

  /** Nothing the ledger says mentions this inode. */
  ghost predicate FreshTo(g: Ledger, i: Ino) {
    && i !in g.known && i !in g.sole && i !in g.empty && i !in g.made && i !in g.synced && i >= g.birth
    && (forall k :: k in g.seen ==> k.dir != i && g.seen[k] != i)
    && (forall j :: j in g.sole ==> g.sole[j].dir != i)
  }

  lemma CreateUpholds(d: Disk, g: Ledger, k: Key, node: Node)
    requires Upholds(d, g) && k !in d.vis && k.dir in d.nodes
    requires node.Symlink? ==> node.meta.mode == MODE_0777
    requires g.calm ==> k !in g.moved
    ensures Upholds(Create(d, k, node), NoteCreate(d.owner, g, k, d.next, node))
  {
    var i, listed := d.next, Listed(d.owner, g, k, node);
    var a, n := Allocate(d, node), NoteNode(d.owner, g, i, node);
    AllocateUpholds(d, g, node);
    assert i !in n.sole;
    RebindUpholds(a, n, k, Some(i), listed);
    if listed { NewName(d, g, k, node); }
  }

  /** Which inodes have one name only does not matter to the other promises. */
  lemma SoleOnly(d: Disk, g: Ledger, h: Ledger)
    requires Upholds(d, g) && h == g.(sole := h.sole) && Sole(d, h) && (forall i :: i in h.sole ==> i in h.made)
    ensures Upholds(d, h)
  {
    assert Names(d, h) && Empty(d, h) && Inodes(d, h) && Found(d, h);
    if g.alone { assert Complete(d, h); }
    if g.calm { CalmSoleOnly(d, g, h); }
  }

  lemma CalmSoleOnly(d: Disk, g: Ledger, h: Ledger)
    requires Calm(d, g) && h.moved == g.moved && h.gone == g.gone && h.birth == g.birth && h.synced == g.synced
    requires h.known == g.known
    ensures Calm(d, h)
  {
    forall j | j in h.moved ensures MovedAway(d, h, j, h.moved[j]) { assert MovedAway(d, g, j, g.moved[j]); }
  }

  lemma NewName(d: Disk, g: Ledger, k: Key, node: Node)
    requires WellFormed(d) && k !in d.vis
    requires Upholds(Create(d, k, node), NoteEntry(NoteNode(d.owner, g, d.next, node), k, Some(d.next), true))
    requires Listed(d.owner, g, k, node)
    ensures Upholds(Create(d, k, node), NoteCreate(d.owner, g, k, d.next, node))
  {
    var e, h := Create(d, k, node), NoteEntry(NoteNode(d.owner, g, d.next, node), k, Some(d.next), true);
    var f := NoteCreate(d.owner, g, k, d.next, node);
    assert Sole(e, f);
    SoleOnly(e, h, f);
  }

  lemma CreateGuarded(d: Disk, g: Ledger, k: Key, node: Node)
    requires Upholds(d, g) && Guarded(d.owner, g) && !g.alone
    ensures Guarded(d.owner, NoteCreate(d.owner, g, k, d.next, node))
  {
    hide Guarded, Upholds, WellFormed;
    var n := NoteNode(d.owner, g, d.next, node);
    InodesUpheld(d, g);
    AllocateGuarded(d, g, node);
    var listed := Listed(d.owner, g, k, node);
    assert Closed(d.owner, g, k.dir) ==> Closed(d.owner, n, k.dir);
    EntryGuarded(d.owner, n, k, Some(d.next), listed);
    if listed { NameGuarded(d.owner, NoteEntry(n, k, Some(d.next), true), d.next, k); }
  }

  lemma InodesUpheld(d: Disk, g: Ledger)
    requires Upholds(d, g)
    ensures WellFormed(d) && Inodes(d, g) && d.next !in g.known
  {
  }

  lemma NameGuarded(owner: nat, g: Ledger, i: Ino, k: Key)
    requires Guarded(owner, g) && i in g.known && (g.known[i].Directory? || Closed(owner, g, k.dir))
    ensures Guarded(owner, g.(sole := g.sole[i := k]))
  {
    var h := g.(sole := g.sole[i := k]);
    forall j | Closed(owner, g, j) ensures Closed(owner, h, j) { }
  }

  function NoteStore(owner: nat, g: Ledger, i: Ino, node: Node): (h: Ledger)
    ensures h.alone == g.alone && h.calm == g.calm && h.made == g.made
  {
    g.(known := g.known[i := node], synced := g.synced - {i},
       empty := if node.Directory? && !ClosedMeta(owner, node.meta) then g.empty - {i} else g.empty)
  }

  /** Metadata or bytes of an inode this process made; a directory stays closed
      unless nothing in it is relied on. */
  predicate MayStore(owner: nat, g: Ledger, i: Ino, node: Node) {
    && i in g.made && i in g.known
    && (match g.known[i]
        case Directory(_) =>
          && node.Directory?
          && (ClosedMeta(owner, node.meta) ||
               ((forall k :: k in g.seen ==> k.dir != i) && (forall j :: j in g.sole ==> g.sole[j].dir != i)))
        case Regular(_, _, _) => node.Regular?
        case Symlink(_, meta) => node.Symlink? && node.meta.mode == meta.mode
        case Special => false)
  }

  lemma StoreNames(d: Disk, g: Ledger, i: Ino, node: Node)
    requires WellFormed(d) && Names(d, g) && Sole(d, g) && Empty(d, g) && Inodes(d, g) && MayStore(d.owner, g, i, node)
    ensures var e, h := Store(d, i, node), NoteStore(d.owner, g, i, node);
      WellFormed(e) && Names(e, h) && Sole(e, h) && Empty(e, h)
  {
  }

  lemma StoreUpholds(d: Disk, g: Ledger, i: Ino, node: Node)
    requires Upholds(d, g) && MayStore(d.owner, g, i, node)
    ensures Upholds(Store(d, i, node), NoteStore(d.owner, g, i, node))
  {
    var e, h := Store(d, i, node), NoteStore(d.owner, g, i, node);
    StoreNames(d, g, i, node);
    assert Inodes(e, h);
    assert Found(e, h) by {
      forall k | NamesDirectory(e, k) ensures NamesDirectory(d, k) { }
    }
    if g.alone { assert Complete(e, h); }
    if g.calm {
      forall j | j in h.moved ensures MovedAway(e, h, j, h.moved[j]) { assert MovedAway(d, g, j, g.moved[j]); }
    }
  }

  lemma StoreGuarded(owner: nat, g: Ledger, i: Ino, node: Node)
    requires Guarded(owner, g) && MayStore(owner, g, i, node)
    ensures Guarded(owner, NoteStore(owner, g, i, node))
  {
    var h := NoteStore(owner, g, i, node);
    forall j | Closed(owner, g, j) && j != i ensures Closed(owner, h, j) { }
  }

  function NoteFlush(g: Ledger, i: Ino): (h: Ledger)
    ensures h.alone == g.alone && h.calm == g.calm && h.made == g.made
  {
    g.(synced := g.synced + {i})
  }

  lemma FlushUpholds(d: Disk, g: Ledger, i: Ino)
    requires Upholds(d, g) && i in g.known
    ensures Upholds(Flush(d, i), NoteFlush(g, i))
  {
    var e, h := Flush(d, i), NoteFlush(g, i);
    assert Names(e, h) && Sole(e, h) && Empty(e, h) && Inodes(e, h);
    assert Found(e, h) by {
      forall k | NamesDirectory(e, k) ensures NamesDirectory(d, k) { }
    }
    if g.calm {
      forall j | j in h.moved ensures MovedAway(e, h, j, h.moved[j]) { assert MovedAway(d, g, j, g.moved[j]); }
    }
  }

  function NoteSync(g: Ledger, dir: Ino): (h: Ledger)
    ensures h.alone == g.alone && h.calm == g.calm && h.made == g.made
  {
    g.(kept := g.kept + (set k | k in g.seen && k.dir == dir),
       synced := g.synced + (set i | i in g.known &&
                             (i == dir ||
                              (g.known[i].Symlink? && exists k :: k in g.seen && k.dir == dir && g.seen[k] == i))))
  }

  lemma SyncNames(d: Disk, g: Ledger, dir: Ino)
    requires WellFormed(d) && Names(d, g) && Sole(d, g) && Empty(d, g)
    ensures var e, h := SyncDirectory(d, dir), NoteSync(g, dir);
      WellFormed(e) && Names(e, h) && Sole(e, h) && Empty(e, h)
  {
  }

  lemma SyncInodes(d: Disk, g: Ledger, dir: Ino)
    requires Names(d, g) && Inodes(d, g)
    ensures Inodes(SyncDirectory(d, dir), NoteSync(g, dir))
  {
    var e, h := SyncDirectory(d, dir), NoteSync(g, dir);
    forall i | i in h.synced && i !in g.synced && i != dir ensures LinkIn(d, dir, i) {
      var k :| k in g.seen && k.dir == dir && g.seen[k] == i;
      assert k in d.vis && d.vis[k] == i;
    }
  }

  lemma SyncCalm(d: Disk, g: Ledger, dir: Ino)
    requires Calm(d, g)
    ensures Calm(SyncDirectory(d, dir), NoteSync(g, dir))
  {
    var e, h := SyncDirectory(d, dir), NoteSync(g, dir);
    forall j | j in h.moved ensures MovedAway(e, h, j, h.moved[j]) { assert MovedAway(d, g, j, g.moved[j]); }
  }

  lemma SyncUpholds(d: Disk, g: Ledger, dir: Ino)
    requires Upholds(d, g)
    ensures Upholds(SyncDirectory(d, dir), NoteSync(g, dir))
  {
    SyncNames(d, g, dir);
    SyncInodes(d, g, dir);
    assert Found(SyncDirectory(d, dir), NoteSync(g, dir)) by {
      forall k | NamesDirectory(SyncDirectory(d, dir), k) ensures NamesDirectory(d, k) { }
    }
    if g.calm { SyncCalm(d, g, dir); }
  }

  /** Renaming an original into a quarantine directory nobody else can enter. */
  function NoteRename(g: Ledger, from: Key, to: Key, i: Ino, node: Node): (h: Ledger)
    ensures h.alone == g.alone && h.calm == g.calm && h.made == g.made
  {
    var h := NoteEntry(NoteEntry(g.(known := g.known[i := node]), from, None, true), to, Some(i), true);
    if g.calm then h.(moved := h.moved[from := Move(from, to, i)], gone := h.gone + {i}) else h
  }

  ghost predicate CalmRename(g: Ledger, from: Key, to: Key, i: Ino) {
    && from in g.kept && i in g.synced && i in g.known && i < g.birth && to !in g.moved
    && (g.known[i].Regular? ==> i !in g.gone && (forall k :: k in g.seen && g.seen[k] == i ==> k == from))
  }

  lemma RenameUpholds(d: Disk, g: Ledger, from: Key, to: Key)
    requires Upholds(d, g) && from in d.vis && from != to && to !in d.vis && to.dir in d.nodes
    requires d.vis[from] !in g.sole && !NamesDirectory(d, from)
    requires g.calm ==> CalmRename(g, from, to, d.vis[from])
    ensures Upholds(Rename(d, from, to), NoteRename(g, from, to, d.vis[from], d.nodes[d.vis[from]]))
  {
    var i := d.vis[from];
    if g.calm {
      RenameCalm(d, g, from, to);
      var h := g.(calm := false);
      assert Names(d, h) && Sole(d, h) && Empty(d, h) && Inodes(d, h) && Found(d, h) && Complete(d, h);
      RenameLoud(d, h, from, to);
      RenameBoth(Rename(d, from, to), NoteRename(h, from, to, i, d.nodes[i]), NoteRename(g, from, to, i, d.nodes[i]));
    } else {
      RenameLoud(d, g, from, to);
    }
  }

  /** What an inode holds may always be noted. */
  lemma KnowNode(d: Disk, g: Ledger, i: Ino)
    requires Upholds(d, g) && !g.calm && i in d.nodes
    ensures Upholds(d, g.(known := g.known[i := d.nodes[i]]))
  {
    var h := g.(known := g.known[i := d.nodes[i]]);
    assert Names(d, h) && Sole(d, h) && Empty(d, h) && Found(d, h);
    assert Inodes(d, h);
  }

  lemma RenameLoud(d: Disk, g: Ledger, from: Key, to: Key)
    requires Upholds(d, g) && from in d.vis && from != to && to !in d.vis && to.dir in d.nodes && !g.calm
    requires d.vis[from] !in g.sole && !NamesDirectory(d, from)
    ensures Upholds(Rename(d, from, to), NoteRename(g, from, to, d.vis[from], d.nodes[d.vis[from]]))
  {
    var i := d.vis[from];
    var n := g.(known := g.known[i := d.nodes[i]]);
    KnowNode(d, g, i);
    RebindUpholds(d, n, from, None, true);
    var e, h := Rebind(d, from, None), NoteEntry(n, from, None, true);
    RebindUpholds(e, h, to, Some(i), true);
    MovesDoNotMatter(Rebind(e, to, Some(i)), NoteEntry(h, to, Some(i), true), Move(from, to, i));
  }

  lemma MovesDoNotMatter(d: Disk, g: Ledger, m: Move)
    requires Upholds(d, g) && !g.calm
    ensures Upholds(d.(moves := d.moves + {m}), g)
  {
    var e := d.(moves := d.moves + {m});
    assert Names(e, g) && Sole(e, g) && Empty(e, g) && Inodes(e, g);
    assert Found(e, g) by {
      forall k | NamesDirectory(e, k) ensures NamesDirectory(d, k) { }
    }
    if g.alone { assert Complete(e, g); }
  }

  lemma RenameBoth(d: Disk, loud: Ledger, g: Ledger)
    requires Upholds(d, loud) && loud.alone && Calm(d, g)
    requires g == loud.(calm := true, moved := g.moved, gone := g.gone)
    ensures Upholds(d, g)
  {
    assert Names(d, g) && Sole(d, g) && Empty(d, g) && Inodes(d, g) && Found(d, g) && Complete(d, g);
  }

  lemma RenameCalm(d: Disk, g: Ledger, from: Key, to: Key)
    requires Names(d, g) && Inodes(d, g) && Complete(d, g) && Calm(d, g)
    requires from in d.vis && from != to && to !in d.vis && g.calm && CalmRename(g, from, to, d.vis[from])
    ensures Calm(Rename(d, from, to), NoteRename(g, from, to, d.vis[from], d.nodes[d.vis[from]]))
  {
    var i := d.vis[from];
    var e, h := Rename(d, from, to), NoteRename(g, from, to, i, d.nodes[i]);
    assert e.stale == d.stale + {(from, Some(i)), (to, None)};
    forall j | j in h.moved ensures MovedAway(e, h, j, h.moved[j]) {
      if j != from { assert MovedAway(d, g, j, g.moved[j]); }
    }
  }

  /** A second name for an inode made in private: it is no longer the only one. */
  function NoteLink(g: Ledger, from: Key, to: Key): (h: Ledger)
    requires from in g.seen
    ensures h.alone == g.alone && h.calm == g.calm && h.made == g.made
  {
    NoteEntry(g.(sole := g.sole - {g.seen[from]}), to, Some(g.seen[from]), g.alone)
  }

  lemma ForgetSole(d: Disk, g: Ledger, i: Ino)
    requires Upholds(d, g) && !g.calm
    ensures Upholds(d, g.(sole := g.sole - {i}))
  {
    var h := g.(sole := g.sole - {i});
    assert Sole(d, h);
    SoleOnly(d, g, h);
  }

  lemma LinkUpholds(d: Disk, g: Ledger, from: Key, to: Key)
    requires Upholds(d, g) && !g.calm && from in g.seen && to !in d.vis && to.dir in d.nodes
    requires g.seen[from] in g.known && !g.known[g.seen[from]].Directory?
    ensures Upholds(Rebind(d, to, Some(g.seen[from])), NoteLink(g, from, to))
  {
    var i := g.seen[from];
    ForgetSole(d, g, i);
    RebindUpholds(d, g.(sole := g.sole - {i}), to, Some(i), g.alone);
  }

  lemma LinkGuarded(owner: nat, g: Ledger, from: Key, to: Key)
    requires Guarded(owner, g) && !g.alone && from in g.seen
    ensures Guarded(owner, NoteLink(g, from, to))
  {
    var h := g.(sole := g.sole - {g.seen[from]});
    assert Guarded(owner, h) by {
      forall j | Closed(owner, g, j) ensures Closed(owner, h, j) { }
    }
    EntryGuarded(owner, h, to, Some(g.seen[from]), false);
  }

  lemma RenameGuarded(owner: nat, g: Ledger, from: Key, to: Key, i: Ino, node: Node)
    requires Guarded(owner, g) && !g.alone && !g.calm && to.dir in g.empty && (i in g.known ==> g.known[i] == node)
    ensures Guarded(owner, NoteRename(g, from, to, i, node))
  {
    var n := g.(known := g.known[i := node]);
    forall j | Closed(owner, g, j) ensures Closed(owner, n, j) { }
    EntryGuarded(owner, n, from, None, true);
    assert Closed(owner, NoteEntry(n, from, None, true), to.dir);
    EntryGuarded(owner, NoteEntry(n, from, None, true), to, Some(i), true);
  }

  /** When calm, only what this process made or renamed is ever removed. */
  predicate CalmRemove(g: Ledger, k: Key)
    requires k in g.seen
  {
    g.seen[k] >= g.birth || g.seen[k] in g.gone
  }

  lemma SoleNamesStay(d: Disk, g: Ledger, e: Disk)
    requires Upholds(d, g) && Guarded(d.owner, g) && Interference(d, e)
    ensures forall k :: k in e.vis && e.vis[k] in g.sole ==> k in d.vis && d.vis[k] == e.vis[k]
  {
    forall k | k in e.vis && e.vis[k] in g.sole ensures View(e.vis, k) == View(d.vis, k) {
      NotNameable(d, g, e, e.vis[k]);
    }
  }

  lemma SyncedGuarded(owner: nat, g: Ledger, i: Ino)
    requires Guarded(owner, g)
    ensures Guarded(owner, NoteFlush(g, i)) && Guarded(owner, NoteSync(g, i))
  {
  }

  lemma KnownInodes(d: Disk, g: Ledger)
    requires Upholds(d, g)
    ensures forall i :: i in g.known ==> i in d.nodes && d.nodes[i] == g.known[i]
    ensures WellFormed(d)
  {
  }

  lemma SeenNames(d: Disk, g: Ledger)
    requires Upholds(d, g)
    ensures forall k :: k in g.seen ==> k in d.vis && d.vis[k] == g.seen[k] && g.seen[k] in g.known
    ensures g.alone ==> forall k :: k in d.vis ==> k in g.seen
    ensures forall k :: k in d.vis ==> k.dir !in g.empty && k.dir in d.nodes && d.vis[k] in d.nodes
    ensures forall k :: k in d.vis && d.vis[k] in g.sole ==> g.sole[d.vis[k]] == k
  {
  }

  lemma NextIsFresh(d: Disk, g: Ledger)
    requires Upholds(d, g)
    ensures FreshTo(g, d.next) && d.next !in d.nodes
  {
  }

  /** Everything promised by `g` is still promised by `h`. */
  ghost predicate Keeps(g: Ledger, h: Ledger) {
    && h.alone == g.alone && h.calm == g.calm && h.birth == g.birth && h.moved == g.moved && h.gone == g.gone
    && (forall k :: k in g.seen ==> k in h.seen && h.seen[k] == g.seen[k])
    && (forall k :: k in g.kept ==> k in h.kept)
    && (forall i :: i in g.known ==> i in h.known && h.known[i] == g.known[i])
    && (forall i :: i in g.synced ==> i in h.synced)
  }

  predicate Quarantine(g: Ledger, dir: Ino) {
    dir in g.sole && QuarantineName(g.sole[dir].name)
  }

  /** Also nothing was removed or renamed, and quarantine directories stay empty. */
  ghost predicate Grows(g: Ledger, h: Ledger) {
    && Keeps(g, h)
    && (forall i :: i in g.sole ==> i in h.sole && h.sole[i] == g.sole[i])
    && (forall i :: i in g.made ==> i in h.made)
    && (forall i :: i in g.empty && Quarantine(g, i) ==> i in h.empty)
    && (forall i :: i in h.sole && i in g.known ==> i in g.sole)
    && (g.alone ==> forall k :: k in h.seen && k !in g.seen ==> h.seen[k] !in g.known)
  }

  lemma GrowsReflexive(g: Ledger)
    ensures Grows(g, g)
  {
  }

  lemma GrowsTransitive(g: Ledger, h: Ledger, l: Ledger)
    requires Grows(g, h) && Grows(h, l)
    ensures Grows(g, l)
  {
  }

  /** The start of a process: it made nothing yet. */
  ghost predicate Newborn(g: Ledger) {
    && g.made == {} && g.sole == map[] && g.moved == map[] && g.gone == {} && g.empty == {}
    && (forall k :: k in g.seen ==> g.seen[k] < g.birth)
    && (forall i :: i in g.known ==> i < g.birth)
  }

  ghost predicate Sound(g: Ledger) {
    && (forall k :: k in g.seen ==> g.seen[k] in g.known)
    && (forall k :: k in g.kept ==> k in g.seen)
    && (forall i :: i in g.synced ==> i in g.known)
    && (forall i :: i in g.sole ==> i in g.made)
    && (forall i :: i in g.made ==> i in g.known && i >= g.birth)
  }

  lemma SoundLedger(d: Disk, g: Ledger)
    requires Upholds(d, g)
    ensures Sound(g)
  {
  }

  lemma KeepsNode(s: Ledger, owner: nat, g: Ledger, i: Ino, node: Node)
    requires Keeps(s, g) && i !in s.known && Sound(s)
    ensures Keeps(s, NoteNode(owner, g, i, node)) && Keeps(s, NoteStore(owner, g, i, node))
  {
  }

  lemma KeepsEntry(s: Ledger, g: Ledger, k: Key, v: Option<Ino>, listed: bool)
    requires Keeps(s, g) && k !in s.seen && Sound(s)
    ensures Keeps(s, NoteEntry(g, k, v, listed))
  {
  }

  lemma StartIsOld(s: Ledger, g: Ledger, i: Ino)
    requires Newborn(s) && Keeps(s, g) && i in g.made && Sound(g)
    ensures i !in s.known && (forall k :: k in s.seen ==> s.seen[k] != i)
    ensures forall k :: k in g.seen && g.seen[k] == i ==> k !in s.seen
  {
  }

  lemma StartNames(s: Ledger, g: Ledger)
    requires Keeps(s, g)
    ensures forall k :: k in s.seen ==> k in g.seen && g.seen[k] == s.seen[k]
  {
  }

  lemma KeepsTransitive(s: Ledger, g: Ledger, h: Ledger)
    requires Keeps(s, g) && Grows(g, h)
    ensures Keeps(s, h)
  {
  }

  lemma KeepsLink(s: Ledger, g: Ledger, from: Key, to: Key)
    requires Keeps(s, g) && from in g.seen && to !in s.seen && Sound(s)
    ensures Keeps(s, NoteLink(g, from, to))
  {
  }

  lemma KeepsSync(s: Ledger, g: Ledger, i: Ino)
    requires Keeps(s, g)
    ensures Keeps(s, NoteFlush(g, i)) && Keeps(s, NoteSync(g, i))
  {
  }

  lemma KeepsCreate(s: Ledger, owner: nat, g: Ledger, k: Key, i: Ino, node: Node)
    requires Keeps(s, g) && k !in g.seen && i !in g.known && Sound(s)
    ensures Keeps(s, NoteCreate(owner, g, k, i, node))
  {
    KeepsNode(s, owner, g, i, node);
    KeepsEntry(s, NoteNode(owner, g, i, node), k, Some(i), Listed(owner, g, k, node));
  }

  lemma GrowsCreate(s: Ledger, owner: nat, g: Ledger, k: Key, i: Ino, node: Node)
    requires Grows(s, g) && k !in g.seen && FreshTo(g, i) && !Quarantine(g, k.dir)
    requires Sound(s)
    ensures Grows(s, NoteCreate(owner, g, k, i, node))
  {
    KeepsCreate(s, owner, g, k, i, node);
  }

  lemma GrowsStore(s: Ledger, owner: nat, g: Ledger, i: Ino, node: Node)
    requires Grows(s, g) && i !in s.known && Sound(s)
    ensures Grows(s, NoteStore(owner, g, i, node))
  {
    KeepsNode(s, owner, g, i, node);
  }

  lemma GrowsSync(s: Ledger, g: Ledger, i: Ino)
    requires Grows(s, g)
    ensures Grows(s, NoteFlush(g, i)) && Grows(s, NoteSync(g, i))
  {
    KeepsSync(s, g, i);
  }

  /** A directory found on the disk: nobody else replaces it, and it is durable. */
  function NoteFound(g: Ledger, k: Key, i: Ino, node: Node): (h: Ledger)
    ensures h.alone == g.alone && h.calm == g.calm && h.made == g.made
  {
    if k in g.seen then g
    else g.(seen := g.seen[k := i], kept := g.kept + {k}, known := g.known[i := node], synced := g.synced + {i})
  }

  lemma FoundNames(d: Disk, g: Ledger, k: Key)
    requires Names(d, g) && Found(d, g) && NamesDirectory(d, k)
    ensures Names(d, NoteFound(g, k, d.vis[k], d.nodes[d.vis[k]]))
  {
  }

  lemma FoundInodes(d: Disk, g: Ledger, k: Key)
    requires Inodes(d, g) && Found(d, g) && NamesDirectory(d, k)
    ensures Inodes(d, NoteFound(g, k, d.vis[k], d.nodes[d.vis[k]]))
    ensures Found(d, NoteFound(g, k, d.vis[k], d.nodes[d.vis[k]]))
  {
  }

  lemma FoundComplete(d: Disk, g: Ledger, k: Key)
    requires Complete(d, g) && NamesDirectory(d, k)
    ensures NoteFound(g, k, d.vis[k], d.nodes[d.vis[k]]) == g
  {
    assert k in g.seen;
  }

  lemma FoundUpholds(d: Disk, g: Ledger, k: Key)
    requires Upholds(d, g) && NamesDirectory(d, k)
    ensures Upholds(d, NoteFound(g, k, d.vis[k], d.nodes[d.vis[k]]))
  {
    if g.alone {
      FoundComplete(d, g, k);
    } else {
      FoundNames(d, g, k);
      FoundInodes(d, g, k);
      var h := NoteFound(g, k, d.vis[k], d.nodes[d.vis[k]]);
      assert Sole(d, h) && Empty(d, h);
    }
  }

  lemma FoundKnown(d: Disk, g: Ledger, k: Key)
    requires Upholds(d, g) && NamesDirectory(d, k)
    ensures var i := d.vis[k]; var h := NoteFound(g, k, i, d.nodes[i]);
      k in h.seen && h.seen[k] == i && i in h.known && h.known[i] == d.nodes[i]
  {
  }

  lemma FoundGrows(d: Disk, g: Ledger, k: Key)
    requires Upholds(d, g) && NamesDirectory(d, k)
    ensures Grows(g, NoteFound(g, k, d.vis[k], d.nodes[d.vis[k]]))
    ensures Guarded(d.owner, g) ==> Guarded(d.owner, NoteFound(g, k, d.vis[k], d.nodes[d.vis[k]]))
  {
    var i := d.vis[k];
    var h := NoteFound(g, k, i, d.nodes[i]);
    forall j | Closed(d.owner, g, j) ensures Closed(d.owner, h, j) { }
  }

  /** What the machine needs about each change of an entry, at once. */

  lemma CreateStep(d: Disk, g: Ledger, k: Key, node: Node)
    requires Upholds(d, g) && k !in d.vis && k.dir in g.known && (g.alone || Guarded(d.owner, g))
    requires node.Symlink? ==> node.meta.mode == MODE_0777
    requires g.calm ==> k !in g.moved
    ensures Upholds(Create(d, k, node), NoteCreate(d.owner, g, k, d.next, node))
    ensures g.alone || Guarded(d.owner, NoteCreate(d.owner, g, k, d.next, node))
    ensures FreshTo(g, d.next) && d.next !in d.nodes && k !in g.seen
  {
    hide Upholds, Guarded, NoteCreate;
    KnownInodes(d, g);
    SeenNames(d, g);
    NextIsFresh(d, g);
    CreateUpholds(d, g, k, node);
    if !g.alone { CreateGuarded(d, g, k, node); }
  }

  lemma RenameStep(d: Disk, g: Ledger, from: Key, to: Key)
    requires Upholds(d, g) && from in d.vis && d.vis[from] in d.nodes && from.dir != to.dir && to.dir in g.empty
    requires to.dir in g.known
    requires d.vis[from] !in g.sole && !NamesDirectory(d, from) && (g.alone || Guarded(d.owner, g))
    requires g.calm ==> from in g.seen && CalmRename(g, from, to, g.seen[from])
    ensures Upholds(Rename(d, from, to), NoteRename(g, from, to, d.vis[from], d.nodes[d.vis[from]])) && to !in d.vis
    ensures g.alone || Guarded(d.owner, NoteRename(g, from, to, d.vis[from], d.nodes[d.vis[from]]))
    ensures to !in g.seen && (from in g.seen ==> g.seen[from] == d.vis[from])
    ensures !d.nodes[d.vis[from]].Directory?
    ensures d.vis[from] in g.known ==> g.known[d.vis[from]] == d.nodes[d.vis[from]]
  {
    hide Upholds, Guarded, NoteRename;
    KnownInodes(d, g);
    SeenNames(d, g);
    RenameUpholds(d, g, from, to);
    if !g.alone { CalmIsAlone(d, g); RenameGuarded(d.owner, g, from, to, d.vis[from], d.nodes[d.vis[from]]); }
  }

  lemma CalmIsAlone(d: Disk, g: Ledger)
    requires Upholds(d, g)
    ensures g.calm ==> g.alone
  {
  }

  lemma LinkStep(d: Disk, g: Ledger, from: Key, to: Key)
    requires Upholds(d, g) && !g.calm && from in g.seen && to !in d.vis && to.dir in g.known
    requires g.seen[from] in g.known && !g.known[g.seen[from]].Directory? && (g.alone || Guarded(d.owner, g))
    ensures Upholds(Rebind(d, to, Some(g.seen[from])), NoteLink(g, from, to))
    ensures g.alone || Guarded(d.owner, NoteLink(g, from, to))
    ensures to !in g.seen && from in d.vis && d.vis[from] == g.seen[from]
  {
    hide Upholds, Guarded, NoteLink;
    KnownInodes(d, g);
    SeenNames(d, g);
    LinkUpholds(d, g, from, to);
    if !g.alone { LinkGuarded(d.owner, g, from, to); }
  }

  lemma UnbindStep(d: Disk, g: Ledger, k: Key)
    requires Upholds(d, g) && k in d.vis && (g.alone || Guarded(d.owner, g))
    requires g.calm ==> k in g.seen && CalmRemove(g, k)
    ensures Upholds(Rebind(d, k, None), NoteEntry(g, k, None, true))
    ensures g.alone || Guarded(d.owner, NoteEntry(g, k, None, true))
    ensures k in g.seen ==> g.seen[k] == d.vis[k]
  {
    hide Upholds, Guarded, NoteEntry;
    SeenNames(d, g);
    RebindUpholds(d, g, k, None, true);
    if !g.alone { EntryGuarded(d.owner, g, k, None, true); }
  }

  /** What the maker of a new inode can rely on at once. */
  lemma CreateFacts(owner: nat, g: Ledger, k: Key, i: Ino, node: Node)
    requires FreshTo(g, i) && k.dir != i
    ensures var h := NoteCreate(owner, g, k, i, node);
      && i in h.made && i in h.known && h.known[i] == node && i !in h.synced
      && (forall j :: j in h.seen ==> j.dir != i) && (forall j :: j in h.sole ==> h.sole[j].dir != i)
      && (Listed(owner, g, k, node) ==> h.seen == g.seen[k := i] && h.sole == g.sole[i := k])
      && (node.Directory? && ClosedMeta(owner, node.meta) ==> i in h.empty)
  {
  }

  lemma StoreFacts(owner: nat, g: Ledger, i: Ino, node: Node)
    ensures var h := NoteStore(owner, g, i, node);
      && i in h.known && h.known[i] == node && h.seen == g.seen && h.sole == g.sole && h.made == g.made
      && h.kept == g.kept
      && (node.Directory? && ClosedMeta(owner, node.meta) ==> h.empty == g.empty)
      && (!node.Directory? ==> h.empty == g.empty)
      && (forall j :: j in g.known && j != i ==> j in h.known && h.known[j] == g.known[j])
      && (forall j :: j in g.synced && j != i ==> j in h.synced)
  {
  }

  lemma SyncFacts(g: Ledger, dir: Ino)
    ensures var h := NoteSync(g, dir);
      && h.seen == g.seen && h.sole == g.sole && h.made == g.made && h.empty == g.empty && h.known == g.known
      && (forall k :: k in g.seen && k.dir == dir ==> k in h.kept) && g.kept <= h.kept && g.synced <= h.synced
      && (forall k ::
            k in g.seen && k.dir == dir && g.seen[k] in g.known && g.known[g.seen[k]].Symlink? ==>
              g.seen[k] in h.synced)
  {
  }

  /** When alone, the ledger is the visible disk. */
  lemma AloneLists(d: Disk, g: Ledger)
    requires Upholds(d, g) && g.alone
    ensures d.vis == g.seen && d.nodes == g.known
  {
  }

  /** What crashes leave. */

  lemma CrashKeeps(d: Disk, g: Ledger, c: Disk)
    requires Upholds(d, g) && ImageOf(d, c)
    ensures forall k :: k in g.kept ==> k in c.vis && c.vis[k] == g.seen[k]
    ensures forall i :: i in g.synced ==> i in c.nodes && c.nodes[i] == g.known[i]
    ensures forall k :: k in c.vis && c.vis[k] in g.sole ==> k == g.sole[c.vis[k]]
  {
    forall k | k in g.kept ensures View(c.vis, k) == View(d.vis, k) { }
    forall k | k in c.vis && c.vis[k] in g.sole ensures k == g.sole[c.vis[k]] {
      assert View(c.vis, k) == Some(c.vis[k]);
    }
  }

  /** A settled original that was not renamed keeps its only name. */
  lemma CrashKeepsOriginal(d: Disk, g: Ledger, c: Disk, from: Key)
    requires Upholds(d, g) && g.calm && ImageOf(d, c)
    requires from in g.kept && g.seen[from] < g.birth && g.seen[from] !in g.gone
    requires forall k :: k in g.seen && g.seen[k] == g.seen[from] ==> k == from
    ensures from in c.vis && c.vis[from] == g.seen[from]
    ensures forall k :: k in c.vis && c.vis[k] == g.seen[from] ==> k == from
  {
    CrashKeeps(d, g, c);
    forall k | k in c.vis && c.vis[k] == g.seen[from] ensures k == from {
      assert View(c.vis, k) == Some(g.seen[from]);
    }
  }

  /** A renamed original comes back as it was, with one name, or not at all. */
  lemma CrashReturnsOriginal(d: Disk, g: Ledger, c: Disk, from: Key)
    requires Upholds(d, g) && g.calm && ImageOf(d, c) && from in g.moved
    ensures var i := g.moved[from].ino;
      && i in g.synced && i in g.known
      && (from in c.vis ==>
            c.vis[from] == i && (g.known[i].Regular? ==> forall k :: k in c.vis && c.vis[k] == i ==> k == from))
  {
    var m := g.moved[from];
    assert MovedAway(d, g, from, m);
    if from in c.vis {
      assert View(c.vis, from) == Some(c.vis[from]);
      assert (from, Some(m.ino)) in d.stale && c.vis[from] == m.ino;
      forall k | k in c.vis && c.vis[k] == m.ino && g.known[m.ino].Regular? ensures k == from {
        assert View(c.vis, k) == Some(m.ino);
        assert View(c.vis, m.to) != Some(m.ino);
      }
    }
  }
}
