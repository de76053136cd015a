/** What Apply owes the operator from the moment its pending receipt is durable:
    every reviewed entry is backed up, a receipt describes it, and nothing a crash
    can do takes either away. */
module Pledges {
  import opened Wrappers
  import opened CleanupTypes
  import opened Disks
  import opened Ledgers

  datatype Pledge = Pledge(owner: nat, stamp: string, items: seq<Item>, secret: nat)

  const PENDING := "receipt.pending.json"
  const COMPLETE := "receipt.json"
  const KEY_NAME := ".private-integrity-key"

  function BackupParent(): seq<string> {
    ["var", "lib", "lexr", "backups"]
  }

  function BackupDirs(stamp: string): seq<string> {
    BackupParent() + [stamp]
  }

  /** The directory that a chain of real directories leads to from the root. */
  function Lookup(names: map<Key, Ino>, nodes: map<Ino, Node>, dirs: seq<string>): Option<Ino> {
    if dirs == [] then
      Some(ROOT)
    else
      match Lookup(names, nodes, dirs[..|dirs| - 1])
      case None => None
      case Some(p) =>
        var k := Key(p, dirs[|dirs| - 1]);
        if k in names && names[k] in nodes && nodes[names[k]].Directory? then Some(names[k]) else None
  }

  predicate CleanPath(dirs: seq<string>) {
    forall i :: 0 <= i < |dirs| ==> !QuarantineName(dirs[i])
  }

  /** Lookups only depend on directories with ordinary names. */
  lemma LookupStays(names: map<Key, Ino>, nodes: map<Ino, Node>, names': map<Key, Ino>, nodes': map<Ino, Node>,
          dirs: seq<string>)
    requires CleanPath(dirs)
    requires forall k :: k in names && names[k] in nodes && nodes[names[k]].Directory? && !QuarantineName(k.name) ==>
               k in names' && names'[k] == names[k] && names[k] in nodes' && nodes'[names[k]].Directory?
    ensures Lookup(names, nodes, dirs).Some? ==> Lookup(names', nodes', dirs) == Lookup(names, nodes, dirs)
  {
    if dirs != [] {
      LookupStays(names, nodes, names', nodes', dirs[..|dirs| - 1]);
    }
  }

  lemma OrdinaryNames()
    ensures !QuarantineName(PENDING) && !QuarantineName(COMPLETE) && !QuarantineName(KEY_NAME)
    ensures CleanPath(BackupParent())
  {
    assert QUARANTINE_PREFIX[0] == '.' && QUARANTINE_PREFIX[1] == 'l' && KEY_NAME[1] == 'p';
    assert PENDING[0] == 'r' && COMPLETE[0] == 'r';
    var names := BackupParent();
    assert names[0][0] == 'v' && names[1][0] == 'l' && names[2][0] == 'l' && names[3][0] == 'b';
  }

  /** The part of a ledger that survives every crash. */
  ghost function KeptNames(g: Ledger): map<Key, Ino> {
    map k | k in g.seen && k in g.kept :: g.seen[k]
  }

  ghost function KeptNodes(g: Ledger): map<Ino, Node> {
    map i | i in g.known && i in g.synced :: g.known[i]
  }

  ghost function KeptDirectory(g: Ledger, dirs: seq<string>): Option<Ino> {
    Lookup(KeptNames(g), KeptNodes(g), dirs)
  }

  ghost predicate KeptFile(g: Ledger, k: Key) {
    k in g.seen && k in g.kept && g.seen[k] in g.known && g.seen[k] in g.synced && g.seen[k] in g.sole
  }

  ghost function KeptNode(g: Ledger, k: Key): Node
    requires KeptFile(g, k)
  {
    g.known[g.seen[k]]
  }

  ghost predicate BackupKept(g: Ledger, stamp: string, item: Item) {
    var d, b := KeptDirectory(g, BackupDirs(stamp) + item.dirs), KeptDirectory(g, BackupDirs(stamp));
    && d.Some? && b.Some? && Key(d.value, item.leaf) != Key(b.value, PENDING)
    && KeptFile(g, Key(d.value, item.leaf))
    && Fits(KeptNode(g, Key(d.value, item.leaf)), item.evidence, item.meta)
  }

  ghost predicate FileKept(g: Ledger, stamp: string, name: string, content: Content, owner: nat) {
    var b := KeptDirectory(g, BackupDirs(stamp));
    && b.Some? && KeptFile(g, Key(b.value, name))
    && var node := KeptNode(g, Key(b.value, name));
       node.Regular? && node.content == content && node.meta.mode == MODE_0600 && node.meta.uid == owner
  }

  ghost predicate ReceiptKept(g: Ledger, p: Pledge) {
    || FileKept(g, p.stamp, PENDING, ReceiptFile(Receipt(Prepared, p.stamp, p.items)), p.owner)
    || FileKept(g, p.stamp, COMPLETE, ReceiptFile(Receipt(Complete, p.stamp, p.items)), p.owner)
  }

  predicate NeedsKey(items: seq<Item>) {
    exists i :: 0 <= i < |items| && items[i].evidence.Private?
  }

  ghost predicate KeyKept(g: Ledger, p: Pledge) {
    && (NeedsKey(p.items) ==> FileKept(g, p.stamp, KEY_NAME, KeyFile(p.secret), p.owner))
    && (forall i :: 0 <= i < |p.items| && p.items[i].evidence.Private? ==> p.items[i].evidence.tag.secret == p.secret)
  }

  /** The directory components of the recovery hierarchy are fit to be reopened. */
  predicate Trustworthy(owner: nat, depth: nat, meta: Meta) {
    if depth > 3 then PrivateMeta(owner, meta) else TrustedMeta(owner, meta)
  }

  ghost predicate HierarchyKept(g: Ledger, p: Pledge) {
    forall n :: 1 <= n <= 5 ==> HierarchyLevel(g, p.owner, p.stamp, n)
  }

  ghost predicate HierarchyLevel(g: Ledger, owner: nat, stamp: string, n: nat)
    requires 1 <= n <= 5
  {
    var d := KeptDirectory(g, BackupDirs(stamp)[..n]);
    d.Some? && d.value in g.known && d.value in g.synced && g.known[d.value].Directory? &&
    Trustworthy(owner, n, g.known[d.value].meta)
  }

  /** When calm, an original is untouched, or was renamed from its place. */
  ghost predicate Placed(g: Ledger, item: Item) {
    var p := KeptDirectory(g, item.dirs);
    p.Some? && (AtRest(g, Key(p.value, item.leaf), item) || Away(g, Key(p.value, item.leaf), item))
  }

  ghost predicate AtRest(g: Ledger, k: Key, item: Item) {
    && k in g.seen && k in g.kept && g.seen[k] in g.known && g.seen[k] in g.synced && g.seen[k] < g.birth
    && Fits(g.known[g.seen[k]], item.evidence, item.meta)
    && (g.known[g.seen[k]].Regular? ==>
          g.seen[k] !in g.gone && (forall j :: j in g.seen && g.seen[j] == g.seen[k] ==> j == k))
  }

  ghost predicate Away(g: Ledger, k: Key, item: Item) {
    k in g.moved && g.moved[k].ino in g.known && Fits(g.known[g.moved[k].ino], item.evidence, item.meta)
  }

  ghost predicate Secured(g: Ledger, p: Pledge) {
    && !QuarantineName(p.stamp)
    && (forall i :: 0 <= i < |p.items| ==> CleanPath(p.items[i].dirs) && !QuarantineName(p.items[i].leaf))
    && (forall i :: 0 <= i < |p.items| ==> BackupKept(g, p.stamp, p.items[i]))
    && ReceiptKept(g, p) && KeyKept(g, p) && HierarchyKept(g, p)
    && (g.calm ==> forall i :: 0 <= i < |p.items| ==> Placed(g, p.items[i]))
  }

  /** An entry that leads to a directory or names an inode lexr made. */
  predicate Anchored(g: Ledger, k: Key)
    requires k in g.seen
  {
    !QuarantineName(k.name) && g.seen[k] in g.known && (g.known[g.seen[k]].Directory? || g.seen[k] in g.sole)
  }

  /** What a change of the ledger must leave for a pledge to stand; `but` may go. */
  ghost predicate Stands(g: Ledger, h: Ledger, but: Option<Key>) {
    && h.calm == g.calm
    && (forall k :: k in g.seen && k in g.kept && Anchored(g, k) && Some(k) != but ==>
          k in h.seen && k in h.kept && h.seen[k] == g.seen[k])
    && (forall i :: i in g.known && i in g.synced ==> i in h.known && i in h.synced && h.known[i] == g.known[i])
    && (forall i :: i in g.sole ==> i in h.sole)
  }

  lemma DirectoryStands(g: Ledger, h: Ledger, dirs: seq<string>, but: Option<Key>)
    requires Stands(g, h, but) && CleanPath(dirs) && KeptDirectory(g, dirs).Some?
    requires but.Some? ==> but.value in g.seen && g.seen[but.value] in g.known && !g.known[g.seen[but.value]].Directory?
    ensures KeptDirectory(h, dirs) == KeptDirectory(g, dirs)
  {
    LookupStays(KeptNames(g), KeptNodes(g), KeptNames(h), KeptNodes(h), dirs);
  }

  lemma FileStands(g: Ledger, h: Ledger, k: Key, but: Option<Key>)
    requires Stands(g, h, but) && KeptFile(g, k) && !QuarantineName(k.name) && Some(k) != but
    ensures KeptFile(h, k) && KeptNode(h, k) == KeptNode(g, k)
  {
  }

  predicate LeafEntry(g: Ledger, but: Option<Key>) {
    but.Some? ==> but.value in g.seen && g.seen[but.value] in g.known && !g.known[g.seen[but.value]].Directory?
  }

  lemma BackupStands(g: Ledger, h: Ledger, stamp: string, item: Item, but: Option<Key>)
    requires Stands(g, h, but) && LeafEntry(g, but) && BackupKept(g, stamp, item)
    requires !QuarantineName(stamp) && CleanPath(item.dirs) && !QuarantineName(item.leaf)
    requires but.Some? ==> but.value == Key(KeptDirectory(g, BackupDirs(stamp)).value, PENDING)
    ensures BackupKept(h, stamp, item)
  {
    DirectoryStands(g, h, BackupDirs(stamp) + item.dirs, but);
    DirectoryStands(g, h, BackupDirs(stamp), but);
    FileStands(g, h, Key(KeptDirectory(g, BackupDirs(stamp) + item.dirs).value, item.leaf), but);
  }

  lemma FileKeptStands(g: Ledger, h: Ledger, stamp: string, name: string, content: Content, owner: nat,
          but: Option<Key>)
    requires Stands(g, h, but) && LeafEntry(g, but) && FileKept(g, stamp, name, content, owner)
    requires !QuarantineName(stamp) && !QuarantineName(name) && (but.Some? ==> but.value.name != name)
    ensures FileKept(h, stamp, name, content, owner)
  {
    DirectoryStands(g, h, BackupDirs(stamp), but);
    FileStands(g, h, Key(KeptDirectory(g, BackupDirs(stamp)).value, name), but);
  }

  lemma HierarchyStands(g: Ledger, h: Ledger, p: Pledge, but: Option<Key>)
    requires Stands(g, h, but) && LeafEntry(g, but) && HierarchyKept(g, p) && !QuarantineName(p.stamp)
    ensures HierarchyKept(h, p)
  {
    forall n | 1 <= n <= 5 ensures HierarchyLevel(h, p.owner, p.stamp, n) {
      assert HierarchyLevel(g, p.owner, p.stamp, n);
      DirectoryStands(g, h, BackupDirs(p.stamp)[..n], but);
    }
  }

  /** Entries that are not anchored may go, and anything may be added. */
  lemma SecuredStands(g: Ledger, h: Ledger, p: Pledge)
    requires Secured(g, p) && Stands(g, h, None)
    requires g.calm ==> forall i :: 0 <= i < |p.items| ==> Placed(h, p.items[i])
    ensures Secured(h, p)
  {
    forall i | 0 <= i < |p.items| ensures BackupKept(h, p.stamp, p.items[i]) {
      BackupStands(g, h, p.stamp, p.items[i], None);
    }
    OrdinaryNames();
    HierarchyStands(g, h, p, None);
    ReceiptStands(g, h, p);
    if NeedsKey(p.items) { FileKeptStands(g, h, p.stamp, KEY_NAME, KeyFile(p.secret), p.owner, None); }
  }

  lemma ReceiptStands(g: Ledger, h: Ledger, p: Pledge)
    requires ReceiptKept(g, p) && Stands(g, h, None) && !QuarantineName(p.stamp)
    ensures ReceiptKept(h, p)
  {
    OrdinaryNames();
    var prepared := ReceiptFile(Receipt(Prepared, p.stamp, p.items));
    var complete := ReceiptFile(Receipt(Complete, p.stamp, p.items));
    if FileKept(g, p.stamp, PENDING, prepared, p.owner) {
      FileKeptStands(g, h, p.stamp, PENDING, prepared, p.owner, None);
    } else {
      FileKeptStands(g, h, p.stamp, COMPLETE, complete, p.owner, None);
    }
  }

  /** The pending receipt may go once the completed one is durable. */
  lemma SecuredWithoutPending(g: Ledger, h: Ledger, p: Pledge, k: Key)
    requires Secured(g, p) && Stands(g, h, Some(k)) && LeafEntry(g, Some(k))
    requires k == Key(KeptDirectory(g, BackupDirs(p.stamp)).value, PENDING)
    requires FileKept(g, p.stamp, COMPLETE, ReceiptFile(Receipt(Complete, p.stamp, p.items)), p.owner)
    requires g.calm ==> forall i :: 0 <= i < |p.items| ==> Placed(h, p.items[i])
    ensures Secured(h, p)
  {
    forall i | 0 <= i < |p.items| ensures BackupKept(h, p.stamp, p.items[i]) {
      BackupStands(g, h, p.stamp, p.items[i], Some(k));
    }
    OrdinaryNames();
    HierarchyStands(g, h, p, Some(k));
    FileKeptStands(g, h, p.stamp, COMPLETE, ReceiptFile(Receipt(Complete, p.stamp, p.items)), p.owner, Some(k));
    if NeedsKey(p.items) { FileKeptStands(g, h, p.stamp, KEY_NAME, KeyFile(p.secret), p.owner, Some(k)); }
  }

  /** New names are for new inodes, and nothing that existed before loses its entry. */
  ghost predicate OnlyAdds(g: Ledger, h: Ledger) {
    && h.birth == g.birth && h.moved == g.moved && h.gone == g.gone
    && (forall k ::
          k in g.seen && k in g.kept && g.seen[k] < g.birth ==> k in h.seen && k in h.kept && h.seen[k] == g.seen[k])
    && (forall k :: k in h.seen && h.seen[k] < g.birth ==> k in g.seen && g.seen[k] == h.seen[k])
    && (forall i :: i in g.known && i < g.birth ==> i in h.known && h.known[i] == g.known[i])
  }

  lemma PlacedStands(g: Ledger, h: Ledger, item: Item)
    requires Placed(g, item) && Stands(g, h, None) && OnlyAdds(g, h) && CleanPath(item.dirs)
    requires forall k :: k in g.moved ==> g.moved[k].ino < g.birth
    ensures Placed(h, item)
  {
    DirectoryStands(g, h, item.dirs, None);
  }

  /** The ledger facts that hold of every ledger the disk upholds. */
  ghost predicate Ordered(g: Ledger) {
    && Sound(g) && ROOT !in g.sole
    && (forall k :: k in g.seen && g.seen[k] in g.sole ==> g.sole[g.seen[k]] == k)
    && (g.calm ==> forall k :: k in g.moved ==>
          k !in g.seen && g.moved[k].ino < g.birth && g.moved[k].ino in g.known && g.moved[k].ino in g.synced)
  }

  lemma LedgerIsOrdered(d: Disk, g: Ledger)
    requires Upholds(d, g)
    ensures Ordered(g)
  {
    forall k | k in g.moved && g.calm ensures MovedAway(d, g, k, g.moved[k]) { }
  }

  lemma CreateStands(g: Ledger, owner: nat, k: Key, i: Ino, node: Node)
    requires Ordered(g) && k !in g.seen && FreshTo(g, i)
    ensures Stands(g, NoteCreate(owner, g, k, i, node), None)
  {
    var h := NoteCreate(owner, g, k, i, node);
    forall j | j in g.seen && j in g.kept && Anchored(g, j)
      ensures j in h.seen && j in h.kept && h.seen[j] == g.seen[j] { }
  }

  lemma CreateOnlyAdds(g: Ledger, owner: nat, k: Key, i: Ino, node: Node)
    requires Sound(g) && k !in g.seen && FreshTo(g, i)
    ensures OnlyAdds(g, NoteCreate(owner, g, k, i, node))
  {
  }

  lemma SecuredCreate(g: Ledger, p: Pledge, owner: nat, k: Key, i: Ino, node: Node)
    requires Secured(g, p) && Ordered(g) && k !in g.seen && FreshTo(g, i)
    ensures Secured(NoteCreate(owner, g, k, i, node), p)
  {
    hide Secured, FreshTo, NoteCreate, Stands, OnlyAdds;
    CreateStands(g, owner, k, i, node);
    CreateOnlyAdds(g, owner, k, i, node);
    SecuredAdds(g, NoteCreate(owner, g, k, i, node), p);
  }

  lemma SecuredStore(g: Ledger, p: Pledge, owner: nat, i: Ino, node: Node)
    requires Secured(g, p) && Ordered(g) && i in g.made && i !in g.synced && (g.known[i].Directory? ==> node.Directory?)
    ensures Secured(NoteStore(owner, g, i, node), p)
  {
    var h := NoteStore(owner, g, i, node);
    assert Stands(g, h, None) && OnlyAdds(g, h);
    SecuredAdds(g, h, p);
  }

  lemma SecuredSync(g: Ledger, p: Pledge, i: Ino)
    requires Secured(g, p) && Ordered(g)
    ensures Secured(NoteFlush(g, i), p) && Secured(NoteSync(g, i), p)
  {
    assert Stands(g, NoteFlush(g, i), None) && OnlyAdds(g, NoteFlush(g, i));
    SecuredAdds(g, NoteFlush(g, i), p);
    assert Stands(g, NoteSync(g, i), None) && OnlyAdds(g, NoteSync(g, i));
    SecuredAdds(g, NoteSync(g, i), p);
  }

  lemma SecuredAdds(g: Ledger, h: Ledger, p: Pledge)
    requires Secured(g, p) && Ordered(g) && Stands(g, h, None) && OnlyAdds(g, h)
    ensures Secured(h, p)
  {
    if g.calm {
      forall i | 0 <= i < |p.items| ensures Placed(h, p.items[i]) {
        assert Placed(g, p.items[i]);
        PlacedStands(g, h, p.items[i]);
      }
    }
    SecuredStands(g, h, p);
  }

  /** Renaming an original away leaves the pledge standing: its backup is kept, and
      when calm its place is taken by the renamed inode. */
  lemma SecuredRename(g: Ledger, p: Pledge, from: Key, to: Key, i: Ino, node: Node)
    requires Secured(g, p) && Ordered(g) && i !in g.sole && to !in g.seen && from != to
    requires !node.Directory? && (i in g.known ==> g.known[i] == node)
    requires from in g.seen ==> g.seen[from] == i
    requires g.calm ==> from in g.seen && CalmRename(g, from, to, i)
    ensures Secured(NoteRename(g, from, to, i, node), p)
  {
    var h := NoteRename(g, from, to, i, node);
    assert Stands(g, h, None);
    if g.calm {
      forall n | 0 <= n < |p.items| ensures Placed(h, p.items[n]) {
        assert Placed(g, p.items[n]);
        DirectoryStands(g, h, p.items[n].dirs, None);
        PlacedRename(g, from, to, i, node, Key(KeptDirectory(g, p.items[n].dirs).value, p.items[n].leaf), p.items[n]);
      }
    }
    SecuredStands(g, h, p);
  }

  lemma PlacedRename(g: Ledger, from: Key, to: Key, i: Ino, node: Node, k: Key, item: Item)
    requires AtRest(g, k, item) || Away(g, k, item)
    requires Ordered(g) && g.calm && from in g.seen && g.seen[from] == i && to !in g.seen && from != to
    requires CalmRename(g, from, to, i)
    requires g.known[i] == node
    ensures var h := NoteRename(g, from, to, i, node); AtRest(h, k, item) || Away(h, k, item)
  {
  }

  /** Ordinary directories are not quarantines. */
  lemma NotQuarantine(g: Ledger, dirs: seq<string>)
    requires Ordered(g) && CleanPath(dirs) && KeptDirectory(g, dirs).Some?
    ensures !Quarantine(g, KeptDirectory(g, dirs).value)
  {
    if dirs != [] {
      var p := Lookup(KeptNames(g), KeptNodes(g), dirs[..|dirs| - 1]);
      var k := Key(p.value, dirs[|dirs| - 1]);
      assert KeptNames(g)[k] == KeptDirectory(g, dirs).value;
    }
  }

  lemma PlacedRemove(g: Ledger, k: Key, item: Item)
    requires Placed(g, item) && Ordered(g) && k in g.seen && !Anchored(g, k) && CleanPath(item.dirs)
    requires Quarantine(g, k.dir) || g.seen[k] >= g.birth
    ensures Placed(NoteEntry(g, k, None, true), item)
  {
    var h := NoteEntry(g, k, None, true);
    NotQuarantine(g, item.dirs);
    DirectoryStands(g, h, item.dirs, None);
  }

  /** What was quarantined, and quarantines themselves, may be removed. */
  lemma SecuredRemove(g: Ledger, p: Pledge, k: Key)
    requires Secured(g, p) && Ordered(g) && k in g.seen && !Anchored(g, k)
    requires Quarantine(g, k.dir) || g.seen[k] >= g.birth
    ensures Secured(NoteEntry(g, k, None, true), p)
  {
    var h := NoteEntry(g, k, None, true);
    assert Stands(g, h, None);
    if g.calm {
      forall n | 0 <= n < |p.items| ensures Placed(h, p.items[n]) {
        PlacedRemove(g, k, p.items[n]);
      }
    }
    SecuredStands(g, h, p);
  }

  lemma SecuredRemovePending(g: Ledger, p: Pledge, k: Key)
    requires Secured(g, p) && Ordered(g) && KeptFile(g, k) && KeptNode(g, k).Regular?
    requires k == Key(KeptDirectory(g, BackupDirs(p.stamp)).value, PENDING)
    requires FileKept(g, p.stamp, COMPLETE, ReceiptFile(Receipt(Complete, p.stamp, p.items)), p.owner)
    ensures Secured(NoteEntry(g, k, None, true), p)
  {
    var h := NoteEntry(g, k, None, true);
    assert Stands(g, h, Some(k));
    if g.calm {
      forall n | 0 <= n < |p.items| ensures Placed(h, p.items[n]) {
        assert Placed(g, p.items[n]);
        LookupStays(KeptNames(g), KeptNodes(g), KeptNames(h), KeptNodes(h), p.items[n].dirs);
      }
    }
    SecuredWithoutPending(g, h, p, k);
  }

  /** Where a process stands: it owes the pledge, or has changed nothing it found. */
  ghost predicate Standing(start: Ledger, p: Pledge, committed: bool, g: Ledger) {
    if committed then Secured(g, p) else Keeps(start, g)
  }

  lemma CreateStanding(start: Ledger, p: Pledge, committed: bool, d: Disk, g: Ledger, k: Key, node: Node)
    requires Upholds(d, g) && Standing(start, p, committed, g) && Sound(start) && k !in g.seen && FreshTo(g, d.next)
    ensures Standing(start, p, committed, NoteCreate(d.owner, g, k, d.next, node))
  {
    hide Upholds, Secured, Keeps, NoteCreate, Ordered;
    LedgerIsOrdered(d, g);
    if committed { SecuredCreate(g, p, d.owner, k, d.next, node); } else {
      KeepsCreate(start, d.owner, g, k, d.next, node);
    }
  }

  lemma StoreStanding(start: Ledger, p: Pledge, committed: bool, d: Disk, g: Ledger, i: Ino, node: Node)
    requires Upholds(d, g) && Standing(start, p, committed, g) && Newborn(start) && Sound(start)
    requires MayStore(d.owner, g, i, node) && (committed ==> i !in g.synced)
    ensures Standing(start, p, committed, NoteStore(d.owner, g, i, node))
  {
    hide Upholds, Secured, Keeps, NoteStore, Ordered;
    LedgerIsOrdered(d, g);
    SoundLedger(d, g);
    if committed { SecuredStore(g, p, d.owner, i, node); }
    else { StartIsOld(start, g, i); KeepsNode(start, d.owner, g, i, node); }
  }

  lemma SyncStanding(start: Ledger, p: Pledge, committed: bool, d: Disk, g: Ledger, i: Ino)
    requires Upholds(d, g) && Standing(start, p, committed, g)
    ensures Standing(start, p, committed, NoteFlush(g, i)) && Standing(start, p, committed, NoteSync(g, i))
  {
    hide Upholds, Secured, Keeps, NoteFlush, NoteSync, Ordered;
    LedgerIsOrdered(d, g);
    if committed { SecuredSync(g, p, i); } else { KeepsSync(start, g, i); }
  }

  lemma RemoveStanding(start: Ledger, p: Pledge, d: Disk, g: Ledger, k: Key, i: Ino)
    requires Upholds(d, g) && Keeps(start, g) && Newborn(start) && Sound(start)
    requires k in d.vis && d.vis[k] == i && i in g.made
    ensures Keeps(start, NoteEntry(g, k, None, true))
  {
    hide Upholds, Keeps, NoteEntry;
    SeenNames(d, g);
    SoundLedger(d, g);
    StartNames(start, g);
    StartIsOld(start, g, i);
    KeepsEntry(start, g, k, None, true);
  }
}
