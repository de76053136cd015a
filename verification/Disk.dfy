/** A small filesystem: directory entries as other processes see them, the older
    entry values a crash may bring back, and inodes whose bytes may still be lost. */
module Disks {
  import opened Wrappers
  import opened CleanupTypes

  datatype Node =
    | Directory(meta: Meta)
      // plain: no special permission bits and no extended attributes
    | Regular(content: Content, meta: Meta, plain: bool)
    | Symlink(target: string, meta: Meta)
    | Special

  /** A rename whose source directory has not been synced yet. */
  datatype Move = Move(from: Key, to: Key, ino: Ino)

  datatype Disk = Disk(
    owner: nat, group: nat,            // the effective user and group of lexr
    next: Ino,                         // inodes from here on are unused
    vis: map<Key, Ino>,                // the visible entries
    stale: set<(Key, Option<Ino>)>,    // unsynced older values of entries
    moves: set<Move>,                  // unsynced renames
    nodes: map<Ino, Node>,
    dirty: set<Ino>)                   // inodes not yet on stable storage

  const ROOT: Ino := 0

  function View(names: map<Key, Ino>, k: Key): Option<Ino> {
    if k in names then Some(names[k]) else None
  }

  function Links(names: map<Key, Ino>, ino: Ino): set<Key> {
    set k | k in names && names[k] == ino
  }

  ghost predicate WellFormed(d: Disk) {
    && (forall i :: i in d.nodes ==> i < d.next)
    && (forall k :: k in d.vis ==> k.dir in d.nodes && d.vis[k] in d.nodes)
    && (forall p :: p in d.stale ==> p.0.dir in d.nodes && (p.1.Some? ==> p.1.value in d.nodes))
    && (forall i :: i in d.nodes && d.nodes[i].Symlink? ==> d.nodes[i].meta.mode == MODE_0777)
    && ROOT in d.nodes && d.nodes[ROOT].Directory?
  }

  /** Owned by lexr without group or other permission: nobody else can name or
      replace the entries of such a directory. */
  predicate ClosedMeta(owner: nat, meta: Meta) {
    meta.mode % 64 == 0 && meta.uid == owner
  }

  predicate PrivateMeta(owner: nat, meta: Meta) {
    meta.mode == MODE_0700 && meta.uid == owner
  }

  predicate TrustedMeta(owner: nat, meta: Meta) {
    !GroupOrOthersMayWrite(meta.mode) && (meta.uid == 0 || meta.uid == owner)
  }

  predicate ClosedDirectory(d: Disk, dir: Ino) {
    dir in d.nodes && d.nodes[dir].Directory? && ClosedMeta(d.owner, d.nodes[dir].meta)
  }

  /** Steps of the filesystem. */

  /** Entry `k` names `v` from now on, or nothing; a crash may undo that. */
  function Rebind(d: Disk, k: Key, v: Option<Ino>): Disk {
    d.(vis := if v.Some? then d.vis[k := v.value] else d.vis - {k}, stale := d.stale + {(k, View(d.vis, k))})
  }

  function Allocate(d: Disk, node: Node): Disk {
    d.(next := d.next + 1, nodes := d.nodes[d.next := node], dirty := d.dirty + {d.next})
  }

  function Create(d: Disk, k: Key, node: Node): Disk {
    Rebind(Allocate(d, node), k, Some(d.next))
  }

  function Store(d: Disk, ino: Ino, node: Node): Disk {
    d.(nodes := d.nodes[ino := node], dirty := d.dirty + {ino})
  }

  function Flush(d: Disk, ino: Ino): Disk {
    d.(dirty := d.dirty - {ino})
  }

  /** Renaming replaces the destination silently, as renameat does. */
  function Rename(d: Disk, from: Key, to: Key): Disk
    requires from in d.vis
  {
    var ino := d.vis[from];
    Rebind(Rebind(d, from, None), to, Some(ino)).(moves := d.moves + {Move(from, to, ino)})
  }

  /** Syncing a directory settles its entries, itself, and the links it holds. */
  function SyncDirectory(d: Disk, dir: Ino): Disk {
    d.(stale := (set p | p in d.stale && p.0.dir != dir),
       moves := (set m | m in d.moves && m.from.dir != dir),
       dirty := (set i | i in d.dirty && i != dir && !LinkIn(d, dir, i)))
  }

  predicate LinkIn(d: Disk, dir: Ino, ino: Ino) {
    ino in d.nodes && d.nodes[ino].Symlink? && exists k :: k in d.vis && k.dir == dir && d.vis[k] == ino
  }

  /** What a crash of `d` may leave: every entry has its last value or any older
      unsynced one, unflushed inodes hold anything, and a renamed entry never
      appears under both of its names. */
  ghost predicate CrashOf(d: Disk, c: Disk) {
    && c.owner == d.owner && c.group == d.group && c.next == d.next
    && c.stale == {} && c.moves == {} && c.dirty == {}
    && (forall k :: View(c.vis, k) == View(d.vis, k) || (k, View(c.vis, k)) in d.stale)
    && (forall m :: m in d.moves ==> !(View(c.vis, m.from) == Some(m.ino) == View(c.vis, m.to)))
    && c.nodes.Keys == d.nodes.Keys
    && (forall i :: i in d.nodes && i !in d.dirty ==> c.nodes[i] == d.nodes[i])
    && WellFormed(c)
  }

  /** Where a later process may start: after a crash, or on the live system. */
  ghost predicate ImageOf(d: Disk, c: Disk) {
    c == d || CrashOf(d, c)
  }

  /** An inode other processes can name: new, or visible outside private directories. */
  ghost predicate Nameable(d: Disk, ino: Ino) {
    exists k :: k in d.vis && d.vis[k] == ino && !ClosedDirectory(d, k.dir)
  }

  ghost predicate NamesDirectory(d: Disk, k: Key) {
    k in d.vis && d.vis[k] in d.nodes && d.nodes[d.vis[k]].Directory?
  }

  /** An entry other processes may replace, create or unlink: a leaf name outside
      lexr's private directories. */
  ghost predicate PublicLeaf(d: Disk, k: Key) {
    !ClosedDirectory(d, k.dir) && !NamesDirectory(d, k)
  }

  ghost predicate MayNowName(d: Disk, e: Disk, ino: Ino) {
    ino in e.nodes && !e.nodes[ino].Directory? && (ino in d.nodes ==> Nameable(d, ino))
  }

  /** Anything other processes may do to leaf names between two steps of lexr. */
  ghost predicate Interference(d: Disk, e: Disk) {
    && WellFormed(e)
    && e.owner == d.owner && e.group == d.group && e.next >= d.next && e.moves == d.moves
    && (forall i :: i in d.nodes ==> i in e.nodes && e.nodes[i] == d.nodes[i])
    && (forall i :: i in e.nodes && i !in d.nodes ==> i >= d.next && !e.nodes[i].Directory?)
    && d.dirty <= e.dirty && (forall i :: i in e.dirty ==> i in d.dirty || i !in d.nodes)
    && (forall k {:trigger View(e.vis, k)} :: View(e.vis, k) != View(d.vis, k) ==>
          PublicLeaf(d, k) && (k in e.vis ==> MayNowName(d, e, e.vis[k])))
    && d.stale <= e.stale
    && (forall p :: p in e.stale && p !in d.stale ==>
          PublicLeaf(d, p.0) && (p.1.Some? ==> MayNowName(d, e, p.1.value)))
  }

  /** Whether an inode is exactly the reviewed entry. */
  predicate Fits(node: Node, evidence: Evidence, meta: Meta) {
    match (node, evidence)
    case (Regular(content, m, plain), Public(digest, size)) =>
      plain && m == meta && digest == Sha256(content) && size == Size(content) <= MAXIMUM_LEGACY_FILE_BYTES
    case (Regular(content, m, plain), Private(tag, size)) =>
      plain && m == meta && tag == Hmac(tag.secret, content) && size == Size(content) <= MAXIMUM_LEGACY_FILE_BYTES
    case (Symlink(target, m), Link(wanted)) => m == meta && target == wanted
    case _ => false
  }

  /** What inspecting a name shows about its inode: the kind, and for a regular file
      also size, mode and ownership. */
  predicate Outline(node: Node, evidence: Evidence, meta: Meta) {
    match evidence
    case Link(_) => node.Symlink?
    case _ => node.Regular? && node.meta == meta && node.plain && Size(node.content) == evidence.size
  }

  ghost predicate NodesKept(d: Disk, e: Disk) {
    forall i :: i in d.nodes ==> i in e.nodes && e.nodes[i] == d.nodes[i]
  }
}
