/** The steps shared by Apply and Restore, each over stable directory handles. */
module CleanupSteps {
  import opened Wrappers
  import opened CleanupTypes
  import opened Disks
  import opened Ledgers
  import opened Pledges
  import opened Machines

  /** Ordinary directories in the ledger are on stable storage. */
  ghost predicate Steady(g: Ledger) {
    forall k :: k in g.seen && g.seen[k] in g.known && g.known[g.seen[k]].Directory? && !QuarantineName(k.name) ==>
      k in g.kept && g.seen[k] in g.synced
  }

  lemma ValidUpholds(m: Machine)
    requires m.Valid()
    ensures Upholds(m.disk, m.ledger)
  {
  }

  lemma SteadyFound(d: Disk, g: Ledger, k: Key)
    requires Upholds(d, g) && NamesDirectory(d, k) && Steady(g)
    ensures Steady(NoteFound(g, k, d.vis[k], d.nodes[d.vis[k]]))
  {
    forall j | j in g.seen && j in d.vis && d.vis[j] == d.vis[k] ensures NamesDirectory(d, j) { }
  }

  /** Opens one real child directory, comparing its identity before, through and
      after the descriptor is obtained. */
  method OpenDirectory(m: Machine, dir: Ino, name: string) returns (child: Option<Ino>, missing: bool)
    requires m.Valid() && !m.committed
    modifies m
    ensures m.Valid() && !m.committed && m.Onward()
    ensures Discovers(old(m.ledger), m.ledger)
    ensures Steady(old(m.ledger)) ==> Steady(m.ledger)
    ensures child.Some? ==> IsDirectory(m.ledger, Key(dir, name), child.value)
    ensures missing ==> child.None? && (old(m.ledger).alone ==> Key(dir, name) !in m.ledger.seen)
    ensures m.Faultless() && old(m.ledger).alone && Key(dir, name) !in old(m.ledger).seen ==> missing
    ensures old(m.ledger).alone ==> m.ledger == old(m.ledger)
    ensures m.Faultless() && NamesKnownDirectory(old(m.ledger), Key(dir, name)) ==> child.Some?
  {
    hide Machine.Valid, Passed, Longer, Grows, Steady, NodesKept;
    HistoryGrows();
    GrowsReflexive(m.ledger);
    assert Discovers(m.ledger, m.ledger);
    var k := Key(dir, name);
    var before := m.Inspect(k);
    if !before.Found? || !before.node.Directory? { return None, before.Absent?; }
    var through := m.Inspect(k);
    if !through.Found? { return None, through.Absent?; }
    var after := m.Inspect(k);
    if !after.Found? || !after.node.Directory? || before.ino != through.ino || through.ino != after.ino {
      return None, false;
    }
    LearnDirectory(m, k);
    missing := false;
    child := Some(through.ino);
  }

  /** Notes a directory that was just read. */
  ghost method LearnDirectory(m: Machine, k: Key)
    requires m.Valid() && !m.committed && NamesDirectory(m.disk, k)
    modifies m`ledger, m`history
    ensures m.Valid() && m.Onward() && Discovers(old(m.ledger), m.ledger)
    ensures IsDirectory(m.ledger, k, m.disk.vis[k]) && m.ledger.known[m.disk.vis[k]] == m.disk.nodes[m.disk.vis[k]]
    ensures Steady(old(m.ledger)) ==> Steady(m.ledger)
    ensures old(m.ledger).alone ==> m.ledger == old(m.ledger)
  {
    hide Machine.Valid, Longer, Grows, Steady, NoteFound, Upholds;
    ValidUpholds(m);
    if Steady(m.ledger) { SteadyFound(m.disk, m.ledger, k); }
    if m.ledger.alone { FoundAlone(m.disk, m.ledger, k); }
    FoundDiscovers(m.disk, m.ledger, k);
    m.Learn(k);
  }

  /** Only old directories were noted, all of them outside what this process made. */
  ghost predicate Discovers(g: Ledger, h: Ledger) {
    && Grows(g, h) && h.sole == g.sole && h.made == g.made && h.empty == g.empty
    && (forall k :: k in h.seen && k !in g.seen ==> k.dir < g.birth)
  }

  lemma FoundDiscovers(d: Disk, g: Ledger, k: Key)
    requires Upholds(d, g) && NamesDirectory(d, k)
    ensures Discovers(g, NoteFound(g, k, d.vis[k], d.nodes[d.vis[k]]))
  {
    FoundGrows(d, g, k);
  }

  lemma DiscoversTransitive(g: Ledger, h: Ledger, l: Ledger)
    requires Discovers(g, h) && Discovers(h, l)
    ensures Discovers(g, l)
  {
    GrowsTransitive(g, h, l);
  }

  ghost predicate IsDirectory(g: Ledger, k: Key, i: Ino) {
    k in g.seen && g.seen[k] == i && i in g.known && g.known[i].Directory?
  }

  ghost predicate NamesKnownDirectory(g: Ledger, k: Key) {
    k in g.seen && IsDirectory(g, k, g.seen[k])
  }

  lemma FoundAlone(d: Disk, g: Ledger, k: Key)
    requires Upholds(d, g) && NamesDirectory(d, k) && g.alone
    ensures NoteFound(g, k, d.vis[k], d.nodes[d.vis[k]]) == g
  {
    AloneLists(d, g);
  }

  /** The ledgers of a directory's making: after mkdir, chmod, and both syncs. */
  lemma DirectoryMade(owner: nat, group: nat, g: Ledger, k: Key, i: Ino, first: nat, mode: nat)
    requires FreshTo(g, i) && k !in g.seen && k.dir in g.known && g.known[k.dir].Directory? && !Quarantine(g, k.dir)
    requires Sound(g)
    requires mode == MODE_0700 ==> first % 64 == 0
    ensures var h := NoteCreate(owner, g, k, i, Directory(Meta(first, owner, group)));
      var node := Directory(Meta(mode, owner, group));
      && MayStore(owner, h, i, node) && i !in h.synced && i in NoteStore(owner, h, i, node).known
      && Adds(g, h, k) && Adds(g, NoteStore(owner, h, i, node), k)
      && Adds(g, NoteFlush(NoteStore(owner, h, i, node), i), k)
      && Adds(g, NoteSync(NoteFlush(NoteStore(owner, h, i, node), i), k.dir), k)
  {
    hide FreshTo, NoteCreate, NoteStore, NoteSync, Grows, Sound, Quarantine;
    var a := Directory(Meta(first, owner, group));
    var h := NoteCreate(owner, g, k, i, a);
    var node := Directory(Meta(mode, owner, group));
    assert k.dir != i by { FreshIsNew(g, i); }
    assert i !in g.known by { FreshIsNew(g, i); }
    CreateFacts(owner, g, k, i, a);
    GrowsReflexive(g);
    GrowsCreate(g, owner, g, k, i, a);
    GrowsStore(g, owner, h, i, node);
    StoreFacts(owner, h, i, node);
    GrowsSync(g, NoteStore(owner, h, i, node), i);
    GrowsSync(g, NoteFlush(NoteStore(owner, h, i, node), i), k.dir);
    SyncFacts(NoteFlush(NoteStore(owner, h, i, node), i), k.dir);
  }

  /** The entry `k` is the process's own, and everything before it stands. */
  ghost predicate Adds(g: Ledger, h: Ledger, k: Key) {
    Grows(g, h) && k !in g.seen && k in h.seen && h.seen[k] in h.made
  }

  lemma FreshIsNew(g: Ledger, i: Ino)
    requires FreshTo(g, i)
    ensures i !in g.known
  {
  }

  lemma DirectoryIsNew(owner: nat, group: nat, g: Ledger, k: Key, i: Ino, first: nat, mode: nat)
    requires FreshTo(g, i) && k !in g.seen && k.dir in g.known
    requires mode == MODE_0700 ==> first % 64 == 0
    ensures var h := NoteCreate(owner, g, k, i, Directory(Meta(first, owner, group)));
      var l := NoteSync(NoteFlush(NoteStore(owner, h, i, Directory(Meta(mode, owner, group))), i), k.dir);
      NewDirectory(owner, group, g, l, k, i, mode) && (Steady(g) ==> Steady(l))
  {
    hide FreshTo, NoteCreate, NoteStore, NoteSync, Steady;
    var a := Directory(Meta(first, owner, group));
    var h := NoteCreate(owner, g, k, i, a);
    var node := Directory(Meta(mode, owner, group));
    FreshIsNew(g, i);
    CreateFacts(owner, g, k, i, a);
    StoreFacts(owner, h, i, node);
    SyncFacts(NoteFlush(NoteStore(owner, h, i, node), i), k.dir);
    if Steady(g) { SteadyMade(owner, group, g, k, i, first, mode); }
  }

  lemma SteadyMade(owner: nat, group: nat, g: Ledger, k: Key, i: Ino, first: nat, mode: nat)
    requires FreshTo(g, i) && k !in g.seen && Steady(g)
    ensures var h := NoteCreate(owner, g, k, i, Directory(Meta(first, owner, group)));
      Steady(NoteSync(NoteFlush(NoteStore(owner, h, i, Directory(Meta(mode, owner, group))), i), k.dir))
  {
  }

  /** What holds before anything is committed. */
  lemma Uncommitted(m: Machine)
    requires m.Valid() && !m.committed
    ensures m.umask(MODE_0700) % 64 == 0 && Sound(m.ledger) && Ordered(m.ledger) && m.ledger.moved == map[]
    ensures Upholds(m.disk, m.ledger)
  {
    hide Upholds, Secured, Recorded, Ordered;
    LedgerIsOrdered(m.disk, m.ledger);
    SoundLedger(m.disk, m.ledger);
    assert MODE_0700 % 64 == 0;
  }

  /** Creates a directory with an exact mode and makes it and its name durable. */
  method MakeDirectory(m: Machine, dir: Ino, name: string, mode: nat) returns (child: Option<Ino>, created: bool)
    requires m.Valid() && !m.committed && dir in m.ledger.known && m.ledger.known[dir].Directory?
    requires !Quarantine(m.ledger, dir)
    requires mode == MODE_0700 || mode == MODE_0755
    modifies m
    ensures m.Valid() && !m.committed && m.Onward()
    ensures Grows(old(m.ledger), m.ledger)
    ensures created ==> Adds(old(m.ledger), m.ledger, Key(dir, name))
    ensures m.Faultless() && old(m.ledger).alone && Key(dir, name) !in old(m.ledger).seen ==> child.Some?
    ensures child.Some? ==>
              created &&
              NewDirectory(m.disk.owner, m.disk.group, old(m.ledger), m.ledger, Key(dir, name), child.value, mode)
    ensures Steady(old(m.ledger)) && child.Some? ==> Steady(m.ledger)
  {
    hide Machine.Valid, Passed, Longer, Grows, Steady, NoteCreate, NoteStore, NoteFlush, NoteSync, Upholds, FreshTo,
      MayStore, NewDirectory, Sound, Ordered, Quarantine, Disks.Create, Disks.Store, Disks.Flush, Disks.SyncDirectory;
    HistoryGrows();
    ghost var g := m.ledger;
    GrowsReflexive(g);
    Uncommitted(m);
    created := false;
    var k := Key(dir, name);
    var made := m.Create(k, Directory(Meta(m.umask(mode), m.disk.owner, m.disk.group)));
    if made.None? { return None, created; }
    var i := made.value;
    created := true;
    DirectoryMade(m.disk.owner, m.disk.group, g, k, i, m.umask(mode), mode);
    DirectoryIsNew(m.disk.owner, m.disk.group, g, k, i, m.umask(mode), mode);
    var look := m.Inspect(k);
    if !look.Found? { return None, created; }
    var node := Directory(Meta(mode, m.disk.owner, m.disk.group));
    var ok := m.Store(i, node);
    if !ok { return None, created; }
    ok := m.Sync(i);
    if !ok { return None, created; }
    ok := m.SyncDirectory(dir);
    if !ok { return None, created; }
    child := Some(i);
  }

  ghost predicate NewDirectory(owner: nat, group: nat, g: Ledger, h: Ledger, k: Key, i: Ino, mode: nat) {
    && k !in g.seen && FreshTo(g, i)
    && h.seen == g.seen[k := i] && k in h.kept
    && i in h.known && h.known[i] == Directory(Meta(mode, owner, group)) && i in h.synced && i in h.made
    && h.sole == g.sole[i := k]
    && (mode == MODE_0700 ==> i in h.empty) && (forall j :: j in h.seen ==> j.dir != i)
  }

  ghost predicate Seen(g: Ledger, k: Key) {
    k in g.seen && g.seen[k] in g.known
  }

  ghost function NodeAt(g: Ledger, k: Key): Node
    requires Seen(g, k)
  {
    g.known[g.seen[k]]
  }

  /** At this moment the name led to a file with these bytes. */
  ghost predicate HeldBytes(m: Moment, k: Key, content: Content) {
    && m.action.Looked? && m.action.key == k && m.action.ino in m.disk.nodes
    && m.disk.nodes[m.action.ino].Regular? && m.disk.nodes[m.action.ino].content == content
  }

  /** At this moment the name led to an entry with the attested bytes or target. */
  ghost predicate Bears(m: Moment, k: Key, evidence: Evidence) {
    match evidence
    case Public(digest, _) => exists content :: HeldBytes(m, k, content) && digest == Sha256(content)
    case Private(tag, _) => exists content :: HeldBytes(m, k, content) && tag == Hmac(tag.secret, content)
    case Link(target) => HeldTarget(m, k, target)
  }

  ghost predicate HeldTarget(m: Moment, k: Key, target: string) {
    && m.action.Looked? && m.action.key == k && m.action.ino in m.disk.nodes
    && m.disk.nodes[m.action.ino].Symlink? && m.disk.nodes[m.action.ino].target == target
  }

  /** At this moment the name led to an entry of this kind, mode and ownership, and for
      a file of this size. */
  ghost predicate LooksLike(m: Moment, k: Key, evidence: Evidence, meta: Meta) {
    && m.action.Looked? && m.action.key == k && m.action.ino in m.disk.nodes
    && Outline(m.disk.nodes[m.action.ino], evidence, meta)
    && (evidence.Link? ==> m.disk.nodes[m.action.ino].meta == meta)
  }

  /** Since the moment `from` the name was seen to lead to an entry that looks as
      reviewed, and to one that holds what was reviewed.  They are the same entry when
      nobody else may replace it. */
  ghost predicate Verified(history: seq<Moment>, from: nat, k: Key, evidence: Evidence, meta: Meta) {
    && (exists a :: from <= a < |history| && LooksLike(history[a], k, evidence, meta))
    && Borne(history, from, k, evidence)
  }

  ghost predicate Borne(history: seq<Moment>, from: nat, k: Key, evidence: Evidence) {
    exists b :: from <= b < |history| && Bears(history[b], k, evidence)
  }

  lemma VerifiedStays()
    ensures forall h: seq<Moment>, l: seq<Moment>, f: nat, g: nat, k: Key, evidence: Evidence, meta: Meta
      {:trigger Verified(h, f, k, evidence, meta), Verified(l, g, k, evidence, meta)} ::
      Verified(h, f, k, evidence, meta) && Longer(h, l) && g <= f ==> Verified(l, g, k, evidence, meta)
  {
    hide LooksLike, Bears;
    forall h: seq<Moment>, l: seq<Moment>, f: nat, g: nat, k: Key, evidence: Evidence, meta: Meta
      | Verified(h, f, k, evidence, meta) && Longer(h, l) && g <= f
      ensures Verified(l, g, k, evidence, meta)
    {
      var a :| f <= a < |h| && LooksLike(h[a], k, evidence, meta);
      var b :| f <= b < |h| && Bears(h[b], k, evidence);
      assert l[a] == h[a] && l[b] == h[b];
    }
  }

  /** Reads one regular file by name, in bounds; the name must lead to the same
      inode before, through and after the read. */
  method ReadRegular(m: Machine, k: Key, maximum: nat) returns (data: Option<Content>)
    requires m.Valid()
    modifies m
    ensures m.Valid() && m.OnlyRead()
    ensures data.Some? ==> Size(data.value) <= maximum
    ensures data.Some? && Seen(m.ledger, k) ==>
              NodeAt(m.ledger, k).Regular? && NodeAt(m.ledger, k).content == data.value
    ensures data.Some? ==> exists b :: |old(m.history)| <= b < |m.history| && HeldBytes(m.history[b], k, data.value)
    ensures m.Faultless() && Seen(m.ledger, k) && NodeAt(m.ledger, k).Regular? &&
            Size(NodeAt(m.ledger, k).content) <= maximum ==>
              data.Some?
  {
    hide Machine.Valid, Passed;
    var before := m.Inspect(k);
    if !before.Found? || !before.node.Regular? { return None; }
    var through := m.Inspect(k);
    if !through.Found? || !through.node.Regular? || through.ino != before.ino { return None; }
    assert HeldBytes(m.history[|m.history| - 1], k, through.node.content);
    var after := m.Inspect(k);
    if !after.Found? || after.ino != before.ino { return None; }
    var last := m.Inspect(k);
    if !last.Found? || last.ino != before.ino { return None; }
    if Size(through.node.content) > maximum { return None; }
    data := Some(through.node.content);
  }

  datatype LinkText = LinkText(target: string, ino: Ino, meta: Meta)

  /** Reads one symbolic link by name. */
  method ReadLink(m: Machine, k: Key) returns (link: Option<LinkText>)
    requires m.Valid()
    modifies m
    ensures m.Valid() && m.OnlyRead()
    ensures link.Some? ==> link.value.ino in m.disk.nodes && m.disk.nodes[link.value.ino].Symlink?
    ensures link.Some? ==>
              exists b :: |old(m.history)| <= b < |m.history| && HeldTarget(m.history[b], k, link.value.target)
    ensures link.Some? && Seen(m.ledger, k) ==>
              link.value.ino == m.ledger.seen[k] && NodeAt(m.ledger, k) == Symlink(link.value.target, link.value.meta)
    ensures m.Faultless() && Seen(m.ledger, k) && NodeAt(m.ledger, k).Symlink? ==> link.Some?
  {
    hide Machine.Valid, Passed;
    var before := m.Inspect(k);
    if !before.Found? || !before.node.Symlink? { return None; }
    var through := m.Inspect(k);
    if !through.Found? || !through.node.Symlink? { return None; }
    assert HeldTarget(m.history[|m.history| - 1], k, through.node.target);
    var after := m.Inspect(k);
    if !after.Found? || !after.node.Symlink? || after.ino != before.ino { return None; }
    link := Some(LinkText(through.node.target, after.ino, after.node.meta));
  }

  ghost predicate AtName(g: Ledger, k: Key, info: Look)
    requires info.Found?
  {
    Seen(g, k) && info.node == NodeAt(g, k) && g.seen[k] == info.ino
  }

  /** Whether the inode just inspected carries only metadata a receipt can restore. */
  method SupportedMetadata(m: Machine, k: Key, info: Look, links: nat) returns (ok: bool)
    requires m.Valid() && info.Found? && info.node.Regular?
    modifies m
    ensures m.Valid() && m.OnlyRead()
    ensures ok ==> info.node.plain && info.links == links
    ensures m.Faultless() && info.node.plain && info.links == links && AtName(m.ledger, k, info) ==> ok
  {
    hide Machine.Valid, Passed;
    if !info.node.plain || info.links != links { return false; }
    var through := m.Inspect(k);
    if !through.Found? || !through.node.Regular? || through.ino != info.ino { return false; }
    var after := m.Inspect(k);
    if !after.Found? || after.ino != info.ino { return false; }
    ok := true;
  }

  predicate Authentic(content: Content, evidence: Evidence, secret: Option<nat>)
    requires !evidence.Link?
  {
    match evidence
    case Public(digest, _) => digest == Sha256(content)
    case Private(tag, size) => secret.Some? && tag == Hmac(secret.value, content) && Size(content) == size
  }

  lemma FitsOutline(node: Node, evidence: Evidence, meta: Meta)
    requires Fits(node, evidence, meta)
    ensures Outline(node, evidence, meta) && !node.Special? && node.meta == meta
    ensures node.Symlink? ==> evidence == Link(node.target)
    ensures node.Symlink? == evidence.Link? && node.Regular? == !evidence.Link?
  {
  }

  predicate HasSecret(evidence: Evidence, secret: Option<nat>) {
    evidence.Private? ==> secret == Some(evidence.tag.secret)
  }

  /** The listed name `k` has exactly this reviewed entry, under this many names. */
  ghost predicate IsEntry(g: Ledger, k: Key, evidence: Evidence, meta: Meta, links: nat) {
    && Seen(g, k) && Fits(NodeAt(g, k), evidence, meta)
    && (g.alone && NodeAt(g, k).Regular? ==> |Links(g.seen, g.seen[k])| == links)
  }

  lemma IsEntryFits(g: Ledger, k: Key, evidence: Evidence, meta: Meta, links: nat)
    requires IsEntry(g, k, evidence, meta, links)
    ensures Seen(g, k) && Fits(NodeAt(g, k), evidence, meta)
  {
  }

  /** Compares a regular file with its evidence.  Content is read by name, so only
      a name that nobody else can replace (one in the ledger) binds it to the inode
      that was inspected. */
  method VerifyRegular(m: Machine, k: Key, info: Look, evidence: Evidence, meta: Meta, secret: Option<nat>, links: nat)
      returns (ok: bool)
    requires m.Valid() && info.Found? && !evidence.Link?
    requires Seen(m.ledger, k) ==> info.ino == m.ledger.seen[k] && info.node == NodeAt(m.ledger, k)
    requires m.ledger.alone ==> info.links == |Links(m.ledger.seen, info.ino)|
    modifies m
    ensures m.Valid() && m.OnlyRead()
    ensures ok ==> Outline(info.node, evidence, meta) && Borne(m.history, |old(m.history)|, k, evidence)
    ensures ok && Seen(m.ledger, k) ==> IsEntry(m.ledger, k, evidence, meta, links)
    ensures m.Faultless() && m.ledger.alone && IsEntry(m.ledger, k, evidence, meta, links) &&
            HasSecret(evidence, secret) ==>
              ok
  {
    hide Machine.Valid, Passed;
    if Fits(info.node, evidence, meta) { FitsOutline(info.node, evidence, meta); }
    if !info.node.Regular? || info.node.meta != meta || Size(info.node.content) != evidence.size { return false; }
    ok := SupportedMetadata(m, k, info, links);
    if !ok { return; }
    var data := ReadRegular(m, k, MAXIMUM_LEGACY_FILE_BYTES);
    ok := data.Some? && Authentic(data.value, evidence, secret);
  }

  /** Compares a symbolic link with its evidence. */
  method VerifyLink(m: Machine, k: Key, info: Look, evidence: Evidence, meta: Meta) returns (found: Option<Ino>)
    requires m.Valid() && info.Found? && evidence.Link?
    requires Seen(m.ledger, k) ==> info.ino == m.ledger.seen[k] && info.node == NodeAt(m.ledger, k)
    modifies m
    ensures m.Valid() && m.OnlyRead()
    ensures found.Some? ==> found.value in m.disk.nodes && Outline(m.disk.nodes[found.value], evidence, meta)
    ensures found.Some? ==>
              Outline(info.node, evidence, meta) && info.node.meta == meta &&
              Borne(m.history, |old(m.history)|, k, evidence)
    ensures found.Some? && Seen(m.ledger, k) ==>
              found.value == m.ledger.seen[k] && Fits(NodeAt(m.ledger, k), evidence, meta)
    ensures m.Faultless() && Seen(m.ledger, k) && Fits(NodeAt(m.ledger, k), evidence, meta) ==> found.Some?
  {
    hide Machine.Valid, Passed, HeldTarget;
    if Seen(m.ledger, k) && Fits(info.node, evidence, meta) { FitsOutline(info.node, evidence, meta); }
    if !info.node.Symlink? || info.node.meta != meta { return None; }
    var link := ReadLink(m, k);
    if link.None? || link.value.target != evidence.target { return None; }
    found := Some(link.value.ino);
  }

  lemma LooksAtEntry(h: seq<Moment>, l: seq<Moment>, from: nat, k: Key, look: Look, evidence: Evidence, meta: Meta)
    requires from < |h| && LookedAt(h[|h| - 1], k, look) && Longer(h, l) && Borne(l, |h|, k, evidence)
    requires Outline(look.node, evidence, meta) && (evidence.Link? ==> look.node.meta == meta)
    ensures Verified(l, from, k, evidence, meta)
  {
    hide Bears, Outline;
    assert l[|h| - 1] == h[|h| - 1] && LooksLike(l[|h| - 1], k, evidence, meta);
  }

  /** Compares one entry with the reviewed evidence.  With `final` the name is
      inspected once more and must still be the same inode. */
  method VerifyEntry(m: Machine, k: Key, evidence: Evidence, meta: Meta, secret: Option<nat>, links: nat, final: bool)
      returns (ino: Option<Ino>)
    requires m.Valid()
    modifies m
    ensures m.Valid() && m.OnlyRead()
    ensures ino.Some? ==> ino.value in m.disk.nodes && Outline(m.disk.nodes[ino.value], evidence, meta)
    ensures ino.Some? ==> Verified(m.history, |old(m.history)|, k, evidence, meta)
    ensures ino.Some? && final ==> k in m.disk.vis && m.disk.vis[k] == ino.value
    ensures ino.Some? && Seen(m.ledger, k) ==>
              ino.value == m.ledger.seen[k] && IsEntry(m.ledger, k, evidence, meta, links)
    ensures ino.Some? && m.ledger.alone ==> Seen(m.ledger, k)
    ensures m.Faultless() && m.ledger.alone && IsEntry(m.ledger, k, evidence, meta, links) &&
            HasSecret(evidence, secret) ==>
              ino.Some?
  {
    hide Machine.Valid, Passed, Verified, Borne, Longer, LookedAt;
    HistoryGrows();
    ino := None;
    var info := m.Inspect(k);
    if !info.Found? { return; }
    LookIsLook(m.history[|m.history| - 1], k, info);
    ghost var h, n := m.history, |old(m.history)|;
    if Fits(info.node, evidence, meta) { FitsOutline(info.node, evidence, meta); }
    var found := info.ino;
    if evidence.Link? {
      var link := VerifyLink(m, k, info, evidence, meta);
      if link.None? { return; }
      found := link.value;
    } else {
      var ok := VerifyRegular(m, k, info, evidence, meta, secret, links);
      if !ok { return; }
    }
    LooksAtEntry(h, m.history, n, k, info, evidence, meta);
    VerifiedStays();
    if final {
      var last := m.Inspect(k);
      if !last.Found? || last.ino != found { return; }
    }
    ino := Some(found);
  }

  lemma LookIsLook(m: Moment, k: Key, look: Look)
    requires LookedAt(m, k, look)
    ensures look.Found? && look.ino in m.disk.nodes && m.disk.nodes[look.ino] == look.node
  {
  }

  /** `h` is `g` with one new entry `k` for the new inode `f`, nothing else seen changed. */
  ghost predicate Own(g: Ledger, h: Ledger, k: Key, f: Ino, node: Node) {
    && Grows(g, h) && k !in g.seen && FreshTo(g, f) && k.dir != f
    && h.seen == g.seen[k := f] && f in h.made && f in h.known && h.known[f] == node && h.sole == g.sole[f := k]
    && (forall j :: j in h.sole ==> h.sole[j].dir != f)
  }

  lemma OwnFacts(g: Ledger, h: Ledger, k: Key, f: Ino, node: Node)
    requires Own(g, h, k, f, node)
    ensures Grows(g, h) && k in h.seen && h.seen[k] == f && f in h.known && h.known[f] == node && f in h.made
    ensures k !in g.seen
  {
  }

  lemma OwnCreate(owner: nat, g: Ledger, k: Key, f: Ino, node: Node)
    requires FreshTo(g, f) && k !in g.seen && k.dir in g.known && !Quarantine(g, k.dir) && Sound(g)
    requires Listed(owner, g, k, node)
    ensures Own(g, NoteCreate(owner, g, k, f, node), k, f, node) && f !in NoteCreate(owner, g, k, f, node).synced
  {
    hide FreshTo, Grows, Sound, Quarantine;
    FreshIsNew(g, f);
    CreateFacts(owner, g, k, f, node);
    GrowsReflexive(g);
    GrowsCreate(g, owner, g, k, f, node);
  }

  lemma OwnStore(owner: nat, g: Ledger, h: Ledger, k: Key, f: Ino, node: Node, next: Node)
    requires Own(g, h, k, f, node) && Sound(g)
    requires (node.Regular? && next.Regular?) || (node.Symlink? && next.Symlink? && next.meta.mode == node.meta.mode)
    ensures MayStore(owner, h, f, next) && Own(g, NoteStore(owner, h, f, next), k, f, next)
    ensures f !in NoteStore(owner, h, f, next).synced
  {
    hide FreshTo, Grows, Sound;
    FreshIsNew(g, f);
    StoreFacts(owner, h, f, next);
    GrowsStore(g, owner, h, f, next);
  }

  lemma OwnSync(g: Ledger, h: Ledger, k: Key, f: Ino, node: Node, i: Ino)
    requires Own(g, h, k, f, node)
    ensures Own(g, NoteFlush(h, i), k, f, node) && Own(g, NoteSync(h, i), k, f, node)
    ensures f in NoteFlush(h, f).synced
  {
    hide FreshTo, Grows;
    GrowsSync(g, h, i);
    SyncFacts(h, i);
  }

  lemma OwnRemove(g: Ledger, h: Ledger, k: Key, f: Ino, node: Node)
    requires Own(g, h, k, f, node) && Sound(g)
    ensures Grows(g, NoteEntry(h, k, None, true))
  {
    KeepsEntry(g, h, k, None, true);
  }

  lemma GrowsKnown(g: Ledger, h: Ledger)
    requires Grows(g, h)
    ensures forall i :: i in g.known ==> i in h.known && h.known[i] == g.known[i]
    ensures forall k :: k in g.seen ==> k in h.seen && h.seen[k] == g.seen[k]
    ensures h.alone == g.alone && h.calm == g.calm && h.birth == g.birth && h.moved == g.moved && h.gone == g.gone
    ensures forall i :: i in g.made ==> i in h.made
  {
  }

  /** Removes a failed copy and settles the removal. */
  method RemoveDestination(m: Machine, k: Key, ghost g: Ledger, ghost f: Ino, ghost node: Node)
    requires m.Valid() && !m.committed && Own(g, m.ledger, k, f, node) && Sound(g) && k.dir in g.known
    modifies m
    ensures m.Valid() && !m.committed && m.Onward() && Grows(g, m.ledger)
  {
    hide Machine.Valid, Passed, Grows, NoteSync, NoteEntry, Sound, Upholds, Ordered, FreshTo, Longer;
    HistoryGrows();
    OwnRemove(g, m.ledger, k, f, node);
    GrowsKnown(g, m.ledger);
    MadeIsNew(m, f);
    var ok := m.Remove(k, Warrant.OwnWork);
    GrowsSync(g, m.ledger, k.dir);
    ok := m.SyncDirectory(k.dir);
  }

  lemma MadeIsNew(m: Machine, i: Ino)
    requires m.Valid() && i in m.ledger.made
    ensures i >= m.ledger.birth
  {
    hide Secured, Recorded, Keeps;
  }

  /** Gives a link made by this process its owner, and checks it. */
  method EnsureLinkOwnership(m: Machine, k: Key, f: Ino, target: string, uid: nat, gid: nat, ghost g: Ledger)
      returns (ok: bool, ghost meta: Meta)
    requires m.Valid() && !m.committed && Sound(g)
    requires Own(g, m.ledger, k, f, Symlink(target, Meta(MODE_0777, m.disk.owner, m.disk.group)))
    modifies m
    ensures m.Valid() && !m.committed && m.Onward()
    ensures Own(g, m.ledger, k, f, Symlink(target, meta)) && (ok ==> meta == Meta(MODE_0777, uid, gid))
    ensures m.Faultless() ==> ok
  {
    hide Machine.Valid, Passed, Grows, NoteSync, NoteStore, Sound, Upholds, Ordered, FreshTo, MayStore, Disks.Store,
      Longer, NodesKept;
    HistoryGrows();
    ok, meta := false, Meta(MODE_0777, m.disk.owner, m.disk.group);
    var look := m.Inspect(k);
    if !look.Found? || look.node.Special? { return; }
    var old' := Symlink(target, Meta(MODE_0777, m.disk.owner, m.disk.group));
    var new' := Symlink(target, Meta(MODE_0777, uid, gid));
    if m.disk.owner != uid || m.disk.group != gid {
      OwnStore(m.disk.owner, g, m.ledger, k, f, old', new');
      ok := m.Store(f, new');
      if !ok { return; }
      meta := Meta(MODE_0777, uid, gid);
    }
    var verified := m.Inspect(k);
    ok := verified.Found? && verified.node.Symlink?;
  }

  predicate CopyOf(copy: Node, source: Node) {
    match source
    case Regular(content, meta, _) => copy == Regular(content, meta, true)
    case Symlink(_, _) => copy == source
    case _ => false
  }

  /** A finished copy: durable if it is a file; durable with its name if it is a link. */
  ghost predicate Copied(g: Ledger, h: Ledger, k: Key, f: Ino) {
    && f in h.known && Own(g, h, k, f, h.known[f])
    && (h.known[f].Regular? ==> f in h.synced)
    && (h.known[f].Regular? || h.known[f].Symlink?)
  }

  lemma FreshNames(g: Ledger, i: Ino)
    requires FreshTo(g, i)
    ensures forall k :: k in g.seen ==> k.dir != i && g.seen[k] != i
  {
  }

  /** A copy of an entry with one name is such an entry itself. */
  lemma CopyIsEntry(g: Ledger, h: Ledger, src: Key, tmp: Key, f: Ino, evidence: Evidence, meta: Meta)
    requires Copied(g, h, tmp, f) && Seen(g, src) && CopyOf(h.known[f], NodeAt(g, src))
    requires IsEntry(g, src, evidence, meta, 1)
    ensures IsEntry(h, tmp, evidence, meta, 1)
  {
    hide Grows;
    FreshNames(g, f);
    GrowsKnown(g, h);
    assert Links(h.seen, f) == {tmp};
  }

  lemma RoomIsEmpty(m: Machine, room: Key)
    requires m.Valid() && m.ledger.alone && room in m.ledger.seen &&
             forall k :: k in m.ledger.seen ==> k.dir != m.ledger.seen[room]
    ensures !HasEntries(m.disk, room)
  {
    hide Upholds, Secured, Recorded, Keeps;
    AloneLists(m.disk, m.ledger);
  }

  lemma LeafIsRemovable(m: Machine, k: Key)
    requires m.Valid() && Seen(m.ledger, k) && !NodeAt(m.ledger, k).Directory?
    ensures !HasEntries(m.disk, k)
  {
    hide Upholds, Secured, Recorded, Keeps;
    SeenNames(m.disk, m.ledger);
    KnownInodes(m.disk, m.ledger);
  }

  /** What may be copied, and where to. */
  ghost predicate MayCopy(owner: nat, g: Ledger, dst: Key) {
    && dst.dir in g.known && g.known[dst.dir].Directory? && !Quarantine(g, dst.dir)
    && (g.alone || Closed(owner, g, dst.dir))
  }

  ghost predicate Copyable(g: Ledger, src: Key, dst: Key) {
    && Seen(g, src) && dst !in g.seen
    && (NodeAt(g, src).Symlink? ||
        (NodeAt(g, src).Regular? && Size(NodeAt(g, src).content) <= MAXIMUM_LEGACY_FILE_BYTES))
  }

  /** Gives a new link its owner and reads it back, or removes it. */
  method FinishLink(m: Machine, k: Key, f: Ino, target: string, uid: nat, gid: nat, ghost g: Ledger) returns (ok: bool)
    requires m.Valid() && !m.committed && Sound(g) && k.dir in g.known
    requires Own(g, m.ledger, k, f, Symlink(target, Meta(MODE_0777, m.disk.owner, m.disk.group)))
    modifies m
    ensures m.Valid() && !m.committed && m.Onward() && Grows(g, m.ledger)
    ensures ok ==> Own(g, m.ledger, k, f, Symlink(target, Meta(MODE_0777, uid, gid)))
    ensures m.Faultless() ==> ok
  {
    hide Machine.Valid, Passed, Grows, Sound, Own, Longer, NodesKept;
    HistoryGrows();
    var owned, meta := EnsureLinkOwnership(m, k, f, target, uid, gid, g);
    OwnFacts(g, m.ledger, k, f, Symlink(target, meta));
    ok := owned;
    if ok {
      var again := ReadLink(m, k);
      ok := again.Some? && again.value.target == target;
    }
    if !ok { RemoveDestination(m, k, g, f, Symlink(target, meta)); }
  }

  method CopyLink(m: Machine, src: Key, dst: Key) returns (copy: Option<Ino>)
    requires m.Valid() && !m.committed && MayCopy(m.disk.owner, m.ledger, dst)
    modifies m
    ensures m.Valid() && !m.committed && m.Onward() && Grows(old(m.ledger), m.ledger)
    ensures copy.Some? ==> Copied(old(m.ledger), m.ledger, dst, copy.value)
    ensures copy.Some? && Seen(old(m.ledger), src) ==> CopyOf(m.ledger.known[copy.value], NodeAt(old(m.ledger), src))
    ensures m.Faultless() && old(m.ledger).alone && Copyable(old(m.ledger), src, dst) &&
            NodeAt(old(m.ledger), src).Symlink? ==>
              copy.Some?
  {
    hide Machine.Valid, Passed, Grows, NoteCreate, Sound, Upholds, Ordered, FreshTo, Quarantine, Longer, NodesKept,
      Own;
    HistoryGrows();
    ghost var g := m.ledger;
    GrowsReflexive(g);
    Uncommitted(m);
    LinkMode(m);
    var link := ReadLink(m, src);
    if link.None? { return None; }
    var node := Symlink(link.value.target, Meta(MODE_0777, m.disk.owner, m.disk.group));
    var made := m.Create(dst, node);
    if made.None? { return None; }
    OwnCreate(m.disk.owner, g, dst, made.value, node);
    var ok := FinishLink(m, dst, made.value, link.value.target, link.value.meta.uid, link.value.meta.gid, g);
    if !ok { return None; }
    OwnFacts(g, m.ledger, dst, made.value,
             Symlink(link.value.target, Meta(MODE_0777, link.value.meta.uid, link.value.meta.gid)));
    copy := made;
  }

  /** Symbolic links always carry mode 0777. */
  lemma LinkMode(m: Machine)
    requires m.Valid()
    ensures forall i :: i in m.ledger.known && m.ledger.known[i].Symlink? ==> m.ledger.known[i].meta.mode == MODE_0777
  {
    hide Secured, Recorded, Keeps;
  }

  /** Creates one new private file: exclusive create, bytes, owner, exact mode, sync. */
  method WriteFile(m: Machine, k: Key, content: Content, perm: nat, meta: Meta)
        returns (file: Option<Ino>, ghost f: Ino, ghost node: Node, created: bool)
    requires m.Valid() && MayCopy(m.disk.owner, m.ledger, k) && (m.ledger.calm ==> k !in m.ledger.moved)
    modifies m
    ensures m.Valid() && m.committed == old(m.committed) && m.pledge == old(m.pledge) && m.Onward()
    ensures !created ==> file.None? && m.ledger == old(m.ledger)
    ensures created ==> Own(old(m.ledger), m.ledger, k, f, node) && node.Regular?
    ensures file.Some? ==> created && file.value == f && f in m.ledger.synced && node == Regular(content, meta, true)
    ensures m.Faultless() && old(m.ledger).alone && k !in old(m.ledger).seen ==> file.Some?
  {
    hide Machine.Valid, Passed, Grows, NoteCreate, NoteStore, NoteFlush, Sound, Upholds, Ordered, FreshTo, Quarantine,
      NodesKept, Own, MayStore, Longer;
    HistoryGrows();
    ghost var g := m.ledger;
    ValidSound(m);
    file, created, f, node := None, false, 0, Regular(Raw(""), Meta(m.umask(perm), m.disk.owner, m.disk.group), true);
    var blank := Regular(Raw(""), Meta(m.umask(perm), m.disk.owner, m.disk.group), true);
    var made := m.Create(k, blank);
    if made.None? { return; }
    var i := made.value;
    created, f := true, i;
    OwnCreate(m.disk.owner, g, k, i, blank);
    var filled := Regular(content, blank.meta, true);
    OwnStore(m.disk.owner, g, m.ledger, k, i, blank, filled);
    var ok := m.Store(i, filled);
    if !ok { return; }
    node := filled;
    var owned := Regular(content, Meta(m.umask(perm), meta.uid, meta.gid), true);
    if owned != filled {
      OwnStore(m.disk.owner, g, m.ledger, k, i, filled, owned);
      ok := m.Store(i, owned);
      if !ok { return; }
      node := owned;
    }
    OwnStore(m.disk.owner, g, m.ledger, k, i, owned, Regular(content, meta, true));
    ok := m.Store(i, Regular(content, meta, true));
    if !ok { return; }
    node := Regular(content, meta, true);
    OwnFacts(g, m.ledger, k, i, node);
    OwnSync(g, m.ledger, k, i, node, i);
    ok := m.Sync(i);
    if !ok { return; }
    file := made;
  }

  lemma ValidSound(m: Machine)
    requires m.Valid()
    ensures Sound(m.ledger) && Ordered(m.ledger)
  {
    hide Upholds, Secured, Recorded, Ordered, Keeps;
    LedgerIsOrdered(m.disk, m.ledger);
    SoundLedger(m.disk, m.ledger);
  }

  method CopyRegular(m: Machine, src: Key, dst: Key) returns (copy: Option<Ino>)
    requires m.Valid() && !m.committed && MayCopy(m.disk.owner, m.ledger, dst)
    modifies m
    ensures m.Valid() && !m.committed && m.Onward() && Grows(old(m.ledger), m.ledger)
    ensures copy.Some? ==> Copied(old(m.ledger), m.ledger, dst, copy.value)
    ensures copy.Some? && Seen(old(m.ledger), src) ==> CopyOf(m.ledger.known[copy.value], NodeAt(old(m.ledger), src))
    ensures m.Faultless() && old(m.ledger).alone && Copyable(old(m.ledger), src, dst) &&
            NodeAt(old(m.ledger), src).Regular? ==>
              copy.Some?
  {
    hide Machine.Valid, Passed, Grows, Sound, Upholds, Ordered, FreshTo, Quarantine, Longer, NodesKept, Own;
    HistoryGrows();
    ghost var g := m.ledger;
    GrowsReflexive(g);
    Uncommitted(m);
    copy := None;
    var before := m.Inspect(src);
    if !before.Found? || !before.node.Regular? || Size(before.node.content) > MAXIMUM_LEGACY_FILE_BYTES { return; }
    var through := m.Inspect(src);
    if !through.Found? || !through.node.Regular? || through.ino != before.ino { return; }
    var after := m.Inspect(src);
    if !after.Found? || after.ino != before.ino { return; }
    var file, f, node, created := WriteFile(m, dst, through.node.content, through.node.meta.mode, through.node.meta);
    if !created { return; }
    OwnFacts(g, m.ledger, dst, f, node);
    if Seen(g, src) { SeenStays(g, m.ledger, src); }
    var ok := file.Some?;
    if ok {
      var again := m.Inspect(src);
      ok := again.Found? && again.ino == before.ino;
    }
    if !ok {
      RemoveDestination(m, dst, g, f, node);
      return;
    }
    copy := file;
  }

  lemma SeenStays(g: Ledger, h: Ledger, k: Key)
    requires Grows(g, h) && Seen(g, k)
    ensures Seen(h, k) && NodeAt(h, k) == NodeAt(g, k) && h.seen[k] == g.seen[k]
  {
  }

  /** Copies a regular file or symbolic link with its mode and ownership; a failed
      copy is removed again. */
  method CopyEntry(m: Machine, src: Key, dst: Key) returns (copy: Option<Ino>)
    requires m.Valid() && !m.committed && MayCopy(m.disk.owner, m.ledger, dst)
    modifies m
    ensures m.Valid() && !m.committed && m.Onward() && Grows(old(m.ledger), m.ledger)
    ensures copy.Some? ==> Copied(old(m.ledger), m.ledger, dst, copy.value)
    ensures copy.Some? && Seen(old(m.ledger), src) ==> CopyOf(m.ledger.known[copy.value], NodeAt(old(m.ledger), src))
    ensures m.Faultless() && old(m.ledger).alone && Copyable(old(m.ledger), src, dst) ==> copy.Some?
  {
    hide Machine.Valid, Passed, Grows, Longer, NodesKept, Own;
    HistoryGrows();
    GrowsReflexive(m.ledger);
    var before := m.Inspect(src);
    if !before.Found? { return None; }
    if before.node.Symlink? {
      copy := CopyLink(m, src, dst);
    } else {
      copy := CopyRegular(m, src, dst);
    }
  }
}
