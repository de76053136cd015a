/** Recreating one entry from a verified recovery copy without replacing anything:
    a symbolic link is made in place, a file is prepared in a private workspace and
    then linked under its public name. */
module CleanupPublish {
  import opened Wrappers
  import opened CleanupTypes
  import opened Disks
  import opened Ledgers
  import opened Pledges
  import opened Machines
  import opened CleanupSteps
  import opened CleanupRoutes

  const RESTORE_PREFIX := ".lexr-restore-"

  function RestoreDirectory(nonce: string, rule: string): string {
    RESTORE_PREFIX + nonce + "-" + rule
  }

  lemma RestoreIsOrdinary(nonce: string, rule: string)
    ensures !QuarantineName(RestoreDirectory(nonce, rule))
  {
    var name := RestoreDirectory(nonce, rule);
    assert name[6] == RESTORE_PREFIX[6] == 'r' && QUARANTINE_PREFIX[6] == 'c';
  }

  /** An original is back, under one name and on stable storage, and no other name
      has changed. */
  ghost predicate Published(g: Ledger, h: Ledger, k: Key, item: Item) {
    && Grows(g, h) && k !in g.seen && k in h.seen && h.seen == g.seen[k := h.seen[k]] && h.seen[k] !in g.known
    && IsEntry(h, k, item.evidence, item.meta, 1) && k in h.kept && h.seen[k] in h.synced
  }

  /** A free name was linked to a file, and then seen to lead to that very file, which is
      exactly the reviewed one. */
  ghost predicate LinkedBack(h: seq<Moment>, a: nat, b: nat, k: Key, item: Item) {
    && a < b < |h| && h[a].action.Linked? && h[a].action.key == k && h[b].action == Looked(k, h[a].action.ino)
    && h[a].action.ino in h[b].disk.nodes && Fits(h[b].disk.nodes[h[a].action.ino], item.evidence, item.meta)
  }

  /** A link was made under a free name, and then verified there. */
  ghost predicate MadeBack(h: seq<Moment>, a: nat, k: Key, item: Item) {
    a < |h| && h[a].action.Made? && h[a].action.key == k && Verified(h, a, k, item.evidence, item.meta)
  }

  /** Since the moment `from` the original was recreated, whatever others did. */
  ghost predicate Reappeared(h: seq<Moment>, from: nat, k: Key, item: Item) {
    || (exists a, b :: from <= a && LinkedBack(h, a, b, k, item))
    || (exists a :: from <= a && MadeBack(h, a, k, item))
  }

  lemma ReappearedStays()
    ensures forall h: seq<Moment>, l: seq<Moment>, f: nat, g: nat, k: Key, item: Item
      {:trigger Reappeared(h, f, k, item), Reappeared(l, g, k, item)} ::
      Reappeared(h, f, k, item) && Longer(h, l) && g <= f ==> Reappeared(l, g, k, item)
  {
    hide Verified;
    VerifiedStays();
    forall h: seq<Moment>, l: seq<Moment>, f: nat, g: nat, k: Key, item: Item | Reappeared(h, f, k, item) &&
    Longer(h, l) && g <= f
      ensures Reappeared(l, g, k, item)
    {
      if a, b :| f <= a && LinkedBack(h, a, b, k, item) {
        assert LinkedBack(l, a, b, k, item);
      } else {
        var a :| f <= a && MadeBack(h, a, k, item);
        assert MadeBack(l, a, k, item);
      }
    }
  }

  lemma LinkIsBack(h: seq<Moment>, l: seq<Moment>, from: nat, k: Key, f: Ino, look: Look, item: Item)
    requires from < |h| < |l| && Longer(h, l) && h[|h| - 1].action.Linked? && h[|h| - 1].action.key == k
    requires h[|h| - 1].action.ino == f && LookedAt(l[|l| - 1], k, look) && look.ino == f
    requires Fits(look.node, item.evidence, item.meta)
    ensures Reappeared(l, from, k, item)
  {
    assert LinkedBack(l, |h| - 1, |l| - 1, k, item);
  }

  lemma MadeIsBack(h: seq<Moment>, l: seq<Moment>, from: nat, k: Key, f: Ino, item: Item)
    requires from < |h| && Longer(h, l) && h[|h| - 1].action == Made(k, f)
    requires Verified(l, |h| - 1, k, item.evidence, item.meta)
    ensures Reappeared(l, from, k, item)
  {
    hide Verified;
    assert MadeBack(l, |h| - 1, k, item);
  }

  lemma WorkshopFits(m: Machine, g: Ledger, h: Ledger, room: Key, t: Ino, f: Ino, item: Item)
    requires m.Valid() && Workshop(g, h, room, t, f, item) && m.ledger.known == h.known
    ensures f in m.disk.nodes && Fits(m.disk.nodes[f], item.evidence, item.meta)
  {
    hide Fits, Recorded, Standing, Secured, Keeps;
    KnownInodes(m.disk, m.ledger);
  }

  /** An inode this process made for a public name. */
  ghost predicate Fresh(g: Ledger, h: Ledger, k: Key, f: Ino, node: Node) {
    && Grows(g, h) && k !in g.seen && FreshTo(g, f) && f in h.made && f in h.known && h.known[f] == node
    && (forall j :: j in h.seen ==> j.dir != f) && (forall j :: j in h.sole ==> h.sole[j].dir != f)
    && (forall j :: j in h.seen ==> j in g.seen || j == k) && (k in h.seen ==> h.seen[k] == f)
    && (g.alone ==> Own(g, h, k, f, node))
  }

  lemma FreshCreate(owner: nat, g: Ledger, k: Key, f: Ino, node: Node)
    requires FreshTo(g, f) && k !in g.seen && k.dir in g.known && !Quarantine(g, k.dir) && Sound(g)
    ensures Fresh(g, NoteCreate(owner, g, k, f, node), k, f, node)
  {
    hide FreshTo, Grows, Sound, Quarantine, Own;
    FreshIsNew(g, f);
    CreateFacts(owner, g, k, f, node);
    GrowsReflexive(g);
    GrowsCreate(g, owner, g, k, f, node);
    if g.alone { OwnCreate(owner, g, k, f, node); }
  }

  lemma FreshStore(owner: nat, g: Ledger, h: Ledger, k: Key, f: Ino, node: Node, next: Node)
    requires Fresh(g, h, k, f, node) && Sound(g) && node.Symlink? && next.Symlink? && next.meta.mode == node.meta.mode
    ensures MayStore(owner, h, f, next) && Fresh(g, NoteStore(owner, h, f, next), k, f, next)
  {
    hide FreshTo, Grows, Sound, Own;
    FreshIsNew(g, f);
    StoreFacts(owner, h, f, next);
    GrowsStore(g, owner, h, f, next);
    if g.alone { OwnStore(owner, g, h, k, f, node, next); }
  }

  /** Gives a published link its owner.  Other processes do not replace the link
      before its ownership is changed. */
  method ChownPublished(m: Machine, k: Key, f: Ino, target: string, uid: nat, gid: nat, ghost g: Ledger)
        returns (ok: bool, ghost meta: Meta)
    requires m.Valid() && !m.committed && Sound(g)
    requires Fresh(g, m.ledger, k, f, Symlink(target, Meta(MODE_0777, m.disk.owner, m.disk.group)))
    modifies m
    ensures m.Valid() && !m.committed && m.Onward() && m.ledger.alone == old(m.ledger).alone
    ensures m.ledger.calm == old(m.ledger).calm
    ensures Fresh(g, m.ledger, k, f, Symlink(target, meta)) && (ok ==> meta == Meta(MODE_0777, uid, gid))
    ensures m.Faultless() && g.alone ==> ok
  {
    hide Machine.Valid, Passed, Grows, NoteStore, Sound, FreshTo, MayStore, Longer, NodesKept, Fresh;
    HistoryGrows();
    ok, meta := false, Meta(MODE_0777, m.disk.owner, m.disk.group);
    FreshSeen(g, m.ledger, k, f, Symlink(target, meta));
    var look := m.Inspect(k);
    if !look.Found? || look.ino != f { return; }
    if m.disk.owner != uid || m.disk.group != gid {
      var new' := Symlink(target, Meta(MODE_0777, uid, gid));
      FreshStore(m.disk.owner, g, m.ledger, k, f, Symlink(target, meta), new');
      ok := m.Store(f, new');
      if !ok { return; }
      meta := Meta(MODE_0777, uid, gid);
      FreshSeen(g, m.ledger, k, f, new');
    }
    var verified := m.Inspect(k);
    ok := verified.Found? && verified.node.Symlink? && verified.node.meta.uid == uid && verified.node.meta.gid == gid;
  }

  lemma FreshSeen(g: Ledger, h: Ledger, k: Key, f: Ino, node: Node)
    requires Fresh(g, h, k, f, node)
    ensures f in h.made && f in h.known && h.known[f] == node && k !in g.seen && Grows(g, h)
    ensures g.alone ==> Seen(h, k) && h.seen[k] == f && NodeAt(h, k) == node
  {
  }

  lemma LinkPublished(g: Ledger, h: Ledger, k: Key, f: Ino, node: Node, item: Item)
    requires Fresh(g, h, k, f, node) && node.Symlink? && Sound(g) && Steady(g)
    requires g.alone ==> IsEntry(h, k, item.evidence, item.meta, 1)
    ensures Grows(g, NoteSync(h, k.dir)) && Steady(NoteSync(h, k.dir))
    ensures g.alone ==> Published(g, NoteSync(h, k.dir), k, item)
  {
    hide FreshTo, Grows, Sound, Steady;
    SyncFacts(h, k.dir);
    GrowsSync(g, h, k.dir);
    FreshIsNew(g, f);
    FreshSteady(g, h, k, f, node);
  }

  lemma FreshSteady(g: Ledger, h: Ledger, k: Key, f: Ino, node: Node)
    requires Fresh(g, h, k, f, node) && !node.Directory? && Steady(g) && Sound(g)
    ensures Steady(NoteSync(h, k.dir))
  {
    hide FreshTo, Grows, Own;
    GrowsSteady(g, h);
    SyncFacts(h, k.dir);
    assert forall j ::
             j in g.seen ==>
               j in h.seen && h.seen[j] == g.seen[j] && g.seen[j] in g.known &&
               h.known[g.seen[j]] == g.known[g.seen[j]];
  }

  lemma GrowsSteady(g: Ledger, h: Ledger)
    requires Grows(g, h)
    ensures forall j :: j in g.seen ==> j in h.seen && h.seen[j] == g.seen[j]
    ensures forall i :: i in g.known ==> i in h.known && h.known[i] == g.known[i]
    ensures g.kept <= h.kept && g.synced <= h.synced
  {
  }

  /** Where a public name may be recreated. */
  ghost predicate MayPublish(g: Ledger, dst: Key) {
    dst.dir in g.known && g.known[dst.dir].Directory? && !Quarantine(g, dst.dir) && !g.calm && Steady(g)
  }

  /** Gives a new link its owner, checks it, and takes it back when it is not right. */
  method SettleLink(m: Machine, dst: Key, f: Ino, target: string, item: Item, ghost g: Ledger) returns (ok: bool)
    requires m.Valid() && !m.committed && Sound(g) && Steady(g) && dst.dir in g.known && !m.ledger.calm
    requires item.evidence.Link?
    requires Fresh(g, m.ledger, dst, f, Symlink(target, Meta(MODE_0777, m.disk.owner, m.disk.group)))
    requires m.ledger.alone == g.alone
    modifies m
    ensures m.Valid() && !m.committed && m.Onward()
    ensures ok ==> Grows(g, m.ledger) && Steady(m.ledger) && (m.ledger.alone ==> Published(g, m.ledger, dst, item))
    ensures ok ==> Verified(m.history, |old(m.history)|, dst, item.evidence, item.meta)
    ensures m.Faultless() && g.alone && item.evidence == Link(target) &&
            item.meta == Meta(MODE_0777, item.meta.uid, item.meta.gid) ==>
              ok
  {
    hide Machine.Valid, Passed, Grows, NoteCreate, NoteSync, NoteEntry, Sound, FreshTo, Quarantine, Longer, NodesKept,
      Fresh, Steady, Published, Verified;
    HistoryGrows();
    VerifiedStays();
    ok := false;
    ghost var start := m.history;
    FreshSeen(g, m.ledger, dst, f, Symlink(target, Meta(MODE_0777, m.disk.owner, m.disk.group)));
    var again := ReadLink(m, dst);
    if again.None? || again.value.target != target { return; }
    ghost var meta;
    ok, meta := ChownPublished(m, dst, f, target, item.meta.uid, item.meta.gid, g);
    FreshSeen(g, m.ledger, dst, f, Symlink(target, meta));
    LongerLength(start, m.history);
    if ok {
      var verified := VerifyEntry(m, dst, item.evidence, item.meta, None, 1, false);
      ok := verified.Some?;
    }
    if !ok {
      var removed := m.RemoveIfSame(dst, f);
      if removed { var synced := m.SyncDirectory(dst.dir); }
      return;
    }
    LinkPublished(g, m.ledger, dst, f, Symlink(target, meta), item);
    ok := m.SyncDirectory(dst.dir);
  }

  /** Recreates a symbolic link from its recovery copy. */
  method PublishLink(m: Machine, src: Key, dst: Key, item: Item) returns (ok: bool)
    requires m.Valid() && !m.committed && MayPublish(m.ledger, dst) && item.evidence.Link?
    modifies m
    ensures m.Valid() && !m.committed && m.Onward()
    ensures ok ==>
              Grows(old(m.ledger), m.ledger) && Steady(m.ledger) &&
              (m.ledger.alone ==> Published(old(m.ledger), m.ledger, dst, item))
    ensures ok ==> Reappeared(m.history, |old(m.history)|, dst, item)
    ensures m.Faultless() && old(m.ledger).alone && IsEntry(old(m.ledger), src, item.evidence, item.meta, 1) &&
            dst !in old(m.ledger).seen ==>
              ok
  {
    hide Machine.Valid, Passed, Grows, NoteCreate, Sound, Upholds, Ordered, FreshTo, Quarantine, Longer, NodesKept,
      Fresh, Steady, Published, Verified, Reappeared;
    HistoryGrows();
    VerifiedStays();
    ghost var g, from := m.ledger, |m.history|;
    ok := false;
    Uncommitted(m);
    LinkMode(m);
    var link := ReadLink(m, src);
    if link.None? { return; }
    var target := link.value.target;
    var node := Symlink(target, Meta(MODE_0777, m.disk.owner, m.disk.group));
    var made := m.Create(dst, node);
    if made.None? { return; }
    ghost var back := m.history;
    FreshCreate(m.disk.owner, g, dst, made.value, node);
    ok := SettleLink(m, dst, made.value, target, item, g);
    if ok { MadeIsBack(back, m.history, from, dst, made.value, item); }
  }

  /** A verified copy lies in its private workspace. */
  ghost predicate Workshop(g: Ledger, h: Ledger, room: Key, t: Ino, f: Ino, item: Item) {
    var tmp := Key(t, item.leaf);
    && Grows(g, h) && room !in g.seen && tmp !in g.seen && t !in g.known && f !in g.known && f != t
    && room.name != item.leaf
    && room in h.seen && h.seen[room] == t && t in h.made && t in h.known && h.known[t].Directory?
    && LinkableFile(h, tmp, f) && f in h.made
    && Fits(h.known[f], item.evidence, item.meta)
    && (g.alone ==> h.seen == g.seen[room := t][tmp := f])
    && (forall k :: k in g.seen ==> k.dir != t)
  }

  /** The workspace's ledgers: directory made and opened, copy made, workspace synced. */
  lemma WorkshopReady(owner: nat, group: nat, g: Ledger, a: Ledger, b: Ledger, c: Ledger, room: Key, t: Ino, f: Ino,
          item: Item)
    requires NewDirectory(owner, group, g, a, room, t, MODE_0700) && Grows(g, a) && Discovers(a, b)
    requires a.alone ==> b == a
    requires Copied(b, c, Key(t, item.leaf), f) && Fits(c.known[f], item.evidence, item.meta) && !item.evidence.Link?
    requires room.dir in g.known && room.name != item.leaf && Sound(g)
    ensures Workshop(g, NoteSync(c, t), room, t, f, item)
  {
    hide FreshTo, Grows, Sound, Fits, Quarantine;
    FreshIsNew(g, t);
    GrowsKnown(g, a);
    GrowsKnown(a, b);
    GrowsKnown(b, c);
    GrowsTransitive(g, a, b);
    GrowsTransitive(g, b, c);
    GrowsSync(g, c, t);
    SyncFacts(c, t);
    FitsOutline(c.known[f], item.evidence, item.meta);
    FreshIsNew(b, f);
    FreshNames(g, t);
  }

  lemma EntryStays(g: Ledger, h: Ledger, k: Key, item: Item)
    requires g.alone && IsEntry(g, k, item.evidence, item.meta, 1) && Grows(g, h)
    ensures IsEntry(h, k, item.evidence, item.meta, 1)
  {
    assert Links(h.seen, g.seen[k]) == Links(g.seen, g.seen[k]);
  }

  ghost predicate Preparable(m: Machine, g: Ledger, src: Key, item: Item, secret: Option<nat>) {
    m.Faultless() && g.alone && IsEntry(g, src, item.evidence, item.meta, 1) && HasSecret(item.evidence, secret)
  }

  /** Copies the file into the workspace, and checks the copy there. */
  method FillRoom(m: Machine, src: Key, tmp: Key, item: Item, secret: Option<nat>) returns (f: Option<Ino>)
    requires m.Valid() && !m.committed && MayCopy(m.disk.owner, m.ledger, tmp) && Steady(m.ledger)
    requires !item.evidence.Link?
    modifies m
    ensures m.Valid() && !m.committed && m.Onward()
    ensures f.Some? ==> Steady(m.ledger) && exists c: Ledger :: Filled(old(m.ledger), c, m.ledger, tmp, f.value, item)
    ensures Preparable(m, old(m.ledger), src, item, secret) && tmp !in old(m.ledger).seen ==> f.Some?
  {
    hide Machine.Valid, Passed, Grows, NoteSync, Sound, Upholds, Ordered, Quarantine, Longer, NodesKept, Steady, Own,
      Fits, FreshTo;
    HistoryGrows();
    ghost var g := m.ledger;
    Uncommitted(m);
    if IsEntry(g, src, item.evidence, item.meta, 1) { EntryIsCopyable(g, src, item); }
    f := CopyEntry(m, src, tmp);
    if f.None? { return; }
    ghost var c := m.ledger;
    GrowsKnown(g, c);
    if Preparable(m, g, src, item, secret) { CopyIsEntry(g, c, src, tmp, f.value, item.evidence, item.meta); }
    CopySteady(g, c, tmp, f.value);
    var verified := VerifyEntry(m, tmp, item.evidence, item.meta, secret, 1, false);
    if verified.None? { return None; }
    var prepared := m.Inspect(tmp);
    if !prepared.Found? { return None; }
    CopySynced(c, tmp);
    var ok := m.SyncDirectory(tmp.dir);
    if !ok { return None; }
    var visible := m.Inspect(tmp);
    if !visible.Found? || visible.ino != prepared.ino { return None; }
    f := Some(prepared.ino);
    assert Filled(g, c, m.ledger, tmp, f.value, item);
  }

  ghost predicate Filled(g: Ledger, c: Ledger, h: Ledger, tmp: Key, f: Ino, item: Item) {
    Copied(g, c, tmp, f) && Fits(c.known[f], item.evidence, item.meta) && h == NoteSync(c, tmp.dir)
  }

  lemma EntryIsCopyable(g: Ledger, k: Key, item: Item)
    requires IsEntry(g, k, item.evidence, item.meta, 1) && !item.evidence.Link?
    ensures Seen(g, k) && NodeAt(g, k).Regular? && Size(NodeAt(g, k).content) <= MAXIMUM_LEGACY_FILE_BYTES
  {
  }

  lemma CopySteady(g: Ledger, c: Ledger, tmp: Key, f: Ino)
    requires Copied(g, c, tmp, f) && Steady(g) && Sound(g)
    ensures Steady(NoteSync(c, tmp.dir)) && Seen(c, tmp) && c.seen[tmp] == f
  {
    SteadyOwn(g, c, tmp, f, c.known[f], tmp.dir);
  }

  lemma CopySynced(c: Ledger, tmp: Key)
    requires Seen(c, tmp)
    ensures Seen(NoteSync(c, tmp.dir), tmp) && NoteSync(c, tmp.dir).seen[tmp] == c.seen[tmp]
  {
  }

  /** Prepares a verified copy of a file in a new private directory. */
  method PrepareCopy(m: Machine, src: Key, dst: Key, item: Item, secret: Option<nat>, room: string)
        returns (t: Option<Ino>, f: Ino)
    requires m.Valid() && !m.committed && MayPublish(m.ledger, dst) && !item.evidence.Link? && dst.name == item.leaf
    requires !QuarantineName(room) && room != item.leaf
    modifies m
    ensures m.Valid() && !m.committed && m.Onward()
    ensures t.Some? ==> Workshop(old(m.ledger), m.ledger, Key(dst.dir, room), t.value, f, item) && Steady(m.ledger)
    ensures Preparable(m, old(m.ledger), src, item, secret) && Key(dst.dir, room) !in old(m.ledger).seen ==> t.Some?
  {
    hide Machine.Valid, Passed, Grows, NoteSync, NoteEntry, Sound, Upholds, Ordered, FreshTo, Quarantine, Longer,
      NodesKept, Steady, NewDirectory, Discovers, Own, Workshop, QuarantineName, Fits, IsEntry, HasSecret;
    HistoryGrows();
    ghost var g := m.ledger;
    f := 0;
    Uncommitted(m);
    var made, created := MakeDirectory(m, dst.dir, room, MODE_0700);
    if made.None? { return None, f; }
    ghost var a := m.ledger;
    ghost var k := Key(dst.dir, room);
    RoomFacts(m.disk.owner, m.disk.group, g, a, k, made.value);
    var missing;
    t, missing := OpenDirectory(m, dst.dir, room);
    if t.None? { return; }
    ghost var b := m.ledger;
    RoomOpen(m.disk.owner, a, b, made.value);
    GrowsKnown(a, b);
    GrowsKnown(g, a);
    GrowsTransitive(g, a, b);
    if Preparable(m, g, src, item, secret) { EntryStays(g, b, src, item); }
    var file := FillRoom(m, src, Key(t.value, item.leaf), item, secret);
    if file.None? { return None, f; }
    f := file.value;
    ghost var c :| Filled(b, c, m.ledger, Key(t.value, item.leaf), f, item);
    WorkshopReady(m.disk.owner, m.disk.group, g, a, b, c, k, t.value, f, item);
  }

  lemma RoomFacts(owner: nat, group: nat, g: Ledger, h: Ledger, k: Key, t: Ino)
    requires NewDirectory(owner, group, g, h, k, t, MODE_0700) && !QuarantineName(k.name)
    ensures Closed(owner, h, t) && !Quarantine(h, t) && IsDirectory(h, k, t)
    ensures (forall j :: j in h.seen ==> j.dir != t) && h.seen == g.seen[k := t]
  {
  }

  lemma RoomOpen(owner: nat, g: Ledger, h: Ledger, t: Ino)
    requires Discovers(g, h) && Closed(owner, g, t) && !Quarantine(g, t)
    ensures Closed(owner, h, t) && !Quarantine(h, t) && Grows(g, h)
  {
  }

  /** While the workspace still exists, the published file has two names. */
  lemma TwoNames(g: Ledger, h: Ledger, room: Key, t: Ino, f: Ino, dst: Key, item: Item)
    requires Workshop(g, h, room, t, f, item) && g.alone && Sound(g) && dst !in h.seen && dst != Key(t, item.leaf)
    ensures var l := NoteLink(h, Key(t, item.leaf), dst);
      Seen(l, dst) && l.seen[dst] == f && l.alone && Links(l.seen, f) == {dst, Key(t, item.leaf)} &&
      IsEntry(l, dst, item.evidence, item.meta, 2)
  {
    var tmp := Key(t, item.leaf);
    var l := NoteLink(h, tmp, dst);
    GrowsKnown(g, h);
    assert Links(l.seen, f) == {dst, tmp};
  }

  /** What publication leaves to be removed. */
  ghost predicate RoomLeft(l: Ledger, room: Key, t: Ino) {
    room in l.seen && l.seen[room] == t && t in l.made && t in l.known && room.dir in l.known
  }

  lemma WorkshopFacts(g: Ledger, h: Ledger, room: Key, t: Ino, f: Ino, item: Item)
    requires Workshop(g, h, room, t, f, item) && room.dir in g.known && g.known[room.dir].Directory?
    ensures var tmp := Key(t, item.leaf);
      && LinkableFile(h, tmp, f) && f in h.made
      && room.dir in h.known && h.known[room.dir].Directory? && RoomLeft(h, room, t) && room !in g.seen
      && h.alone == g.alone && h.calm == g.calm && t !in g.known && tmp !in g.seen && room.name != item.leaf
      && room.dir != t
  {
    hide Fits;
    GrowsKnown(g, h);
  }

  /** Links the prepared file under its public name and checks what was published. */
  method LinkPublic(m: Machine, tmp: Key, f: Ino, dst: Key, item: Item, secret: Option<nat>, ghost g: Ledger,
          ghost room: Key)
        returns (ok: bool)
    requires m.Valid() && !m.committed && !m.ledger.calm && Sound(g)
    requires Workshop(g, m.ledger, room, tmp.dir, f, item) && tmp == Key(tmp.dir, item.leaf)
    requires dst == Key(room.dir, item.leaf) && dst.dir in g.known && g.known[dst.dir].Directory?
    modifies m
    ensures m.Valid() && !m.committed && m.Onward()
    ensures ok ==> m.ledger == NoteSync(NoteLink(old(m.ledger), tmp, dst), dst.dir) && dst !in old(m.ledger).seen
    ensures ok ==> Reappeared(m.history, |old(m.history)|, dst, item)
    ensures m.Faultless() && g.alone && dst !in old(m.ledger).seen && HasSecret(item.evidence, secret) ==> ok
  {
    hide Machine.Valid, Passed, NoteSync, NoteLink, NoteEntry, Sound, Upholds, Longer, NodesKept, Workshop, Fits,
      IsEntry, HasSecret, Verified, Reappeared, LookedAt;
    HistoryGrows();
    ReappearedStays();
    ghost var h, from := m.ledger, |m.history|;
    WorkshopFacts(g, h, room, tmp.dir, f, item);
    ok := m.Link(tmp, dst);
    if !ok { return; }
    ghost var l, back := m.ledger, m.history;
    LinkFacts(h, tmp, dst);
    if g.alone { TwoNames(g, h, room, tmp.dir, f, dst, item); }
    var published := m.Inspect(dst);
    ok := published.Found? && published.ino == f;
    if !ok { return; }
    WorkshopFits(m, g, h, room, tmp.dir, f, item);
    LinkIsBack(back, m.history, from, dst, f, published, item);
    var verified := VerifyEntry(m, dst, item.evidence, item.meta, secret, 2, false);
    if verified.None? {
      ok := false;
      var removed := m.RemoveIfSame(dst, f);
      if removed { var synced := m.SyncDirectory(dst.dir); }
      return;
    }
    ok := m.SyncDirectory(dst.dir);
  }

  lemma LinkFacts(h: Ledger, tmp: Key, dst: Key)
    requires tmp in h.seen
    ensures var l := NoteLink(h, tmp, dst);
      l.made == h.made && l.known == h.known && l.alone == h.alone && l.calm == h.calm
      && (forall k :: k in h.seen && k != dst ==> k in l.seen && l.seen[k] == h.seen[k])
  {
  }

  /** The ledger of the whole publication, from the linked file to the empty parent. */
  function Unstaged(l: Ledger, tmp: Key, room: Key): Ledger {
    NoteSync(NoteEntry(NoteSync(NoteEntry(l, tmp, None, true), tmp.dir), room, None, true), room.dir)
  }

  lemma RoomStays(l: Ledger, tmp: Key, room: Key)
    requires RoomLeft(l, room, tmp.dir) && tmp.name != room.name
    ensures RoomLeft(NoteEntry(l, tmp, None, true), room, tmp.dir) && RoomLeft(NoteSync(l, tmp.dir), room, tmp.dir)
  {
  }

  ghost predicate OnlyEntry(l: Ledger, tmp: Key) {
    forall k :: k in l.seen && k.dir == tmp.dir ==> k == tmp
  }

  /** Removes the workspace: the temporary name first, then its directory. */
  method Unstage(m: Machine, tmp: Key, room: Key) returns (ok: bool)
    requires m.Valid() && !m.committed && !m.ledger.calm && RoomLeft(m.ledger, room, tmp.dir) && tmp.name != room.name
    requires Seen(m.ledger, tmp) && NodeAt(m.ledger, tmp).Regular? && m.ledger.seen[tmp] in m.ledger.made
    requires room.dir != tmp.dir
    modifies m
    ensures m.Valid() && !m.committed && m.Onward()
    ensures ok ==> m.ledger == Unstaged(old(m.ledger), tmp, room)
    ensures m.Faultless() && old(m.ledger).alone && OnlyEntry(old(m.ledger), tmp) ==> ok
  {
    hide Machine.Valid, Passed, NoteSync, Upholds, Longer, NodesKept, RoomLeft;
    HistoryGrows();
    ghost var l := m.ledger;
    RoomFactsLeft(l, room, tmp.dir);
    var removed := m.Remove(tmp, Warrant.OwnWork);
    if !removed { LeafIsRemovable(m, tmp); }
    RoomStays(l, tmp, room);
    ghost var a := m.ledger;
    var synced := m.SyncDirectory(tmp.dir);
    RoomStays(a, tmp, room);
    RoomFactsLeft(m.ledger, room, tmp.dir);
    SyncFacts(a, tmp.dir);
    var look := m.Inspect(room);
    var visible := look.Found? && look.ino == tmp.dir;
    var gone := false;
    if visible {
      gone := m.Remove(room, Warrant.OwnWork);
      if !gone && removed && m.ledger.alone && OnlyEntry(l, tmp) { RoomIsEmpty(m, room); }
    }
    var settled := m.SyncDirectory(room.dir);
    ok := removed && synced && visible && gone && settled;
  }

  lemma RoomFactsLeft(l: Ledger, room: Key, t: Ino)
    requires RoomLeft(l, room, t)
    ensures room in l.seen && l.seen[room] == t && t in l.made && t in l.known && room.dir in l.known
  {
  }

  /** The published original, once its workspace is gone. */
  lemma FileIsPublished(g: Ledger, h: Ledger, room: Key, t: Ino, f: Ino, dst: Key, item: Item)
    requires Workshop(g, h, room, t, f, item) && Sound(g) && Steady(h) && dst !in h.seen
    requires dst == Key(room.dir, item.leaf)
    requires room.dir in g.known && !Quarantine(g, room.dir)
    ensures var z := Unstaged(NoteSync(NoteLink(h, Key(t, item.leaf), dst), dst.dir), Key(t, item.leaf), room);
      Grows(g, z) && Steady(z) && (g.alone ==> Published(g, z, dst, item))
  {
    hide Grows, Fits, Steady, Unstaged, NoteSync, NoteLink;
    var tmp := Key(t, item.leaf);
    var z := Unstaged(NoteSync(NoteLink(h, tmp, dst), dst.dir), tmp, room);
    GrowsKnown(g, h);
    if g.alone {
      UnstagedFacts(h, tmp, room, dst);
      assert z.seen == g.seen[dst := f];
      assert Links(z.seen, f) == {dst};
    }
    GrowsUnstaged(g, h, room, t, f, dst, item);
    SteadyUnstaged(h, tmp, room, dst, f);
  }

  lemma UnstagedFacts(h: Ledger, tmp: Key, room: Key, dst: Key)
    requires tmp in h.seen && dst != tmp && dst != room && dst.dir == room.dir && h.alone
    ensures var z := Unstaged(NoteSync(NoteLink(h, tmp, dst), dst.dir), tmp, room);
      z.seen == h.seen[dst := h.seen[tmp]] - {tmp, room} && dst in z.kept && z.known == h.known &&
      h.synced <= z.synced && z.alone
  {
  }

  lemma GrowsLink(g: Ledger, h: Ledger, from: Key, to: Key)
    requires Grows(g, h) && from in h.seen && h.seen[from] !in g.known && to !in h.seen && !Quarantine(g, to.dir)
    requires Sound(g)
    ensures Grows(g, NoteLink(h, from, to))
  {
  }

  lemma GrowsGone(g: Ledger, h: Ledger, k: Key)
    requires Grows(g, h) && k !in g.seen && Sound(g)
    ensures Grows(g, NoteEntry(h, k, None, true))
  {
  }

  lemma GrowsUnstaged(g: Ledger, h: Ledger, room: Key, t: Ino, f: Ino, dst: Key, item: Item)
    requires Workshop(g, h, room, t, f, item) && Sound(g) && dst !in h.seen && dst.dir == room.dir
    requires !Quarantine(g, room.dir)
    ensures Grows(g, Unstaged(NoteSync(NoteLink(h, Key(t, item.leaf), dst), dst.dir), Key(t, item.leaf), room))
  {
    hide Grows, Fits, NoteSync, NoteEntry, NoteLink, Quarantine, Sound;
    var tmp := Key(t, item.leaf);
    var l := NoteLink(h, tmp, dst);
    GrowsLink(g, h, tmp, dst);
    GrowsSync(g, l, dst.dir);
    GrowsGone(g, NoteSync(l, dst.dir), tmp);
    GrowsSync(g, NoteEntry(NoteSync(l, dst.dir), tmp, None, true), t);
    GrowsGone(g, NoteSync(NoteEntry(NoteSync(l, dst.dir), tmp, None, true), t), room);
    GrowsSync(g, NoteEntry(NoteSync(NoteEntry(NoteSync(l, dst.dir), tmp, None, true), t), room, None, true), room.dir);
  }

  lemma SteadyUnstaged(h: Ledger, tmp: Key, room: Key, dst: Key, f: Ino)
    requires Steady(h) && tmp in h.seen && h.seen[tmp] == f && f in h.known && h.known[f].Regular? && dst !in h.seen
    ensures Steady(Unstaged(NoteSync(NoteLink(h, tmp, dst), dst.dir), tmp, room))
  {
  }

  /** The public name is free and, for a file, the name of the workspace beside it. */
  ghost predicate NamesFree(g: Ledger, dst: Key, item: Item, nonce: string) {
    dst !in g.seen && (item.evidence.Link? || Key(dst.dir, RestoreDirectory(nonce, item.rule)) !in g.seen)
  }

  /** Recreates a file from its recovery copy. */
  method PublishFile(m: Machine, src: Key, dst: Key, item: Item, secret: Option<nat>, nonce: string) returns (ok: bool)
    requires m.Valid() && !m.committed && MayPublish(m.ledger, dst) && !item.evidence.Link? && dst.name == item.leaf
    requires RestoreDirectory(nonce, item.rule) != item.leaf
    modifies m
    ensures m.Valid() && !m.committed && m.Onward()
    ensures ok ==>
              Grows(old(m.ledger), m.ledger) && Steady(m.ledger) &&
              (m.ledger.alone ==> Published(old(m.ledger), m.ledger, dst, item))
    ensures ok ==> Reappeared(m.history, |old(m.history)|, dst, item)
    ensures ok ==> Key(dst.dir, RestoreDirectory(nonce, item.rule)) !in old(m.ledger).seen
    ensures Preparable(m, old(m.ledger), src, item, secret) && NamesFree(old(m.ledger), dst, item, nonce) ==> ok
  {
    hide Reappeared, Machine.Valid, Passed, Grows, NoteSync, NoteEntry, NoteLink, Sound, Upholds, Ordered, Quarantine,
      Longer, NodesKept, Steady, Workshop, QuarantineName, Fits, IsEntry, HasSecret, Published, RestoreDirectory,
      Unstaged, RoomLeft, OnlyEntry;
    HistoryGrows();
    ReappearedStays();
    ghost var g := m.ledger;
    Uncommitted(m);
    var name := RestoreDirectory(nonce, item.rule);
    RestoreIsOrdinary(nonce, item.rule);
    var room := Key(dst.dir, name);
    ghost var start := m.history;
    var t, f := PrepareCopy(m, src, dst, item, secret, name);
    LongerLength(start, m.history);
    if t.None? { return false; }
    ghost var h := m.ledger;
    var tmp := Key(t.value, item.leaf);
    WorkshopFacts(g, h, room, t.value, f, item);
    WorkshopNames(g, h, room, t.value, f, dst, item);
    ok := LinkPublic(m, tmp, f, dst, item, secret, g, room);
    if !ok { return; }
    LinkedFacts(g, h, room, t.value, f, dst, item);
    ok := Unstage(m, tmp, room);
    if ok {
      FileIsPublished(g, h, room, t.value, f, dst, item);
      GrowsKnown(g, m.ledger);
    }
  }

  lemma WorkshopNames(g: Ledger, h: Ledger, room: Key, t: Ino, f: Ino, dst: Key, item: Item)
    requires Workshop(g, h, room, t, f, item) && dst == Key(room.dir, item.leaf) && room.dir in g.known
    ensures g.alone && dst !in g.seen ==> dst !in h.seen
  {
  }

  lemma LinkedFacts(g: Ledger, h: Ledger, room: Key, t: Ino, f: Ino, dst: Key, item: Item)
    requires Workshop(g, h, room, t, f, item) && dst == Key(room.dir, item.leaf) && room.dir in g.known
    requires g.known[room.dir].Directory?
    ensures var l := NoteSync(NoteLink(h, Key(t, item.leaf), dst), dst.dir); var tmp := Key(t, item.leaf);
      && RoomLeft(l, room, t) && Seen(l, tmp) && NodeAt(l, tmp).Regular? && l.seen[tmp] in l.made && l.calm == g.calm
      && l.alone == g.alone
      && (g.alone ==> OnlyEntry(l, tmp))
  {
    hide Fits;
    GrowsKnown(g, h);
  }
}
