/** The machine a clean-up runs on.  Before every system call other processes may
    act, and every call may fail; `history` records each disk state in which a
    crash may strike, with what lexr could rely on at that moment. */
module Machines {
  import opened Wrappers
  import opened CleanupTypes
  import opened Disks
  import opened Ledgers
  import opened Pledges

  /** What other processes do before each system call. */
  type Environment = (nat, Disk) -> Disk

  datatype Action =
    | Elsewhere                                   // other processes acted
    | Noted                                       // nothing changed: lexr took note
    | Looked(key: Key, ino: Ino)                  // nothing changed: lexr read an entry
    | Wrote                                       // inodes or directories were written or synced
    | Made(key: Key, ino: Ino)
    | Linked(from: Key, key: Key, ino: Ino)
    | Renamed(from: Key, to: Key, ino: Ino, item: nat, sighted: nat)
    | Removed(key: Key, ino: Ino, warrant: Warrant)
    | Sighted(key: Key, ino: Ino, evidence: Evidence, meta: Meta)
    | Checked(key: Key, ino: Ino, evidence: Evidence, meta: Meta)

  /** Why an entry may be removed: lexr made the inode, or it was verified against one
      item of the pledge under its public name, renamed into quarantine, and verified
      there again (the moments).  Under a public name the content is read by name, so
      that verification alone binds only the outline to the inode; the second one binds
      everything. */
  datatype Warrant = OwnWork | Reviewed(item: nat, before: nat, rename: nat, after: nat)

  datatype Moment = Moment(disk: Disk, ledger: Ledger, action: Action, committed: bool)

  datatype Look = Absent | Failed | Found(ino: Ino, node: Node, links: nat)

  /** What an action says about the names before and after it. */
  ghost predicate Shown(before: Disk, now: Moment) {
    match now.action
    case Elsewhere => true
    case Noted => now.disk == before
    case Looked(k, i) => now.disk == before && k in before.vis && before.vis[k] == i && i in before.nodes
    case Wrote => now.disk.vis == before.vis
    case Made(k, i) => k !in before.vis && i !in before.nodes && now.disk.vis == before.vis[k := i]
    case Linked(from, k, i) =>
      k !in before.vis && from in before.vis && before.vis[from] == i && now.disk.vis == before.vis[k := i]
    case Renamed(from, to, i, _, _) =>
      from in before.vis && before.vis[from] == i && to !in before.vis && now.disk.vis == (before.vis - {from})[to := i]
    case Removed(k, i, _) => k in before.vis && before.vis[k] == i && now.disk.vis == before.vis - {k}
    case Sighted(k, i, evidence, meta) =>
      now.disk == before && k in before.vis && before.vis[k] == i && i in before.nodes &&
      Outline(before.nodes[i], evidence, meta)
    case Checked(k, i, evidence, meta) =>
      now.disk == before && k in before.vis && before.vis[k] == i && i in before.nodes &&
      Fits(before.nodes[i], evidence, meta)
  }

  /** Inodes that this process did not make hold what they held. */
  ghost predicate Untampered(before: Disk, now: Moment) {
    forall i ::
      i in before.nodes && i !in now.ledger.made ==> i in now.disk.nodes && now.disk.nodes[i] == before.nodes[i]
  }

  /** What counts as made by this process was created by it. */
  ghost predicate SameProcess(before: Moment, now: Moment) {
    && now.ledger.made <= before.ledger.made + Creation(now.action)
    && now.ledger.alone == before.ledger.alone && now.ledger.calm == before.ledger.calm
    && now.disk.owner == before.disk.owner && now.disk.group == before.disk.group
  }

  /** A moment is what others made of the disk before it, or one step of lexr's. */
  ghost predicate Faithful(others: Environment, before: Moment, now: Moment) {
    && SameProcess(before, now)
    && if now.action.Elsewhere? then ActedElsewhere(others, before.disk, now.disk)
       else Shown(before.disk, now) && Untampered(before.disk, now)
  }

  function Creation(action: Action): set<Ino> {
    if action.Made? then {action.ino} else {}
  }

  ghost predicate ActedElsewhere(others: Environment, before: Disk, now: Disk) {
    exists n :: now == others(n, before)
  }

  /** The public name of an item's original. */
  ghost predicate IsOriginal(d: Disk, item: Item, k: Key) {
    k.name == item.leaf && Lookup(d.vis, d.nodes, item.dirs) == Some(k.dir)
  }

  /** The entry was seen, as the plan outlines it, under the public name of an item. */
  ghost predicate Spotted(p: Pledge, m: Moment, item: nat, k: Key) {
    && item < |p.items| && m.action.Sighted? && m.action.key == k && m.committed
    && m.action.evidence == p.items[item].evidence && m.action.meta == p.items[item].meta
    && IsOriginal(m.disk, p.items[item], k)
  }

  /** The durable file of a durable name. */
  ghost predicate LinkableFile(g: Ledger, from: Key, i: Ino) {
    from in g.seen && g.seen[from] == i && from in g.kept && i in g.known && g.known[i].Regular? && i in g.synced
  }

  ghost predicate Warranted(p: Pledge, history: seq<Moment>, j: nat)
    requires j < |history|
  {
    match history[j].action
    case Linked(from, k, i) => from != k && LinkableFile(history[j].ledger, from, i)
    case Renamed(from, _, _, item, a) => a < j && Spotted(p, history[a], item, from)
    case Removed(k, i, OwnWork) => i in history[j].ledger.made
    case Removed(k, i, Reviewed(item, a, b, c)) =>
      a < b < c < j && SameEntry(p, item, history[a], history[b], history[c], k, i)
    case _ => true
  }

  /** The same inode was the reviewed entry under the item's public name and in
      quarantine. */
  ghost predicate SameEntry(p: Pledge, item: nat, first: Moment, moved: Moment, last: Moment, k: Key, i: Ino) {
    && first.action.Sighted? && moved.action.Renamed? && last.action.Checked?
    && first.action.ino == i && Spotted(p, first, item, moved.action.from)
    && moved.action.to == k && moved.action.ino == i
    && last.action == Checked(k, i, first.action.evidence, first.action.meta)
    && i in first.disk.nodes && Fits(first.disk.nodes[i], first.action.evidence, first.action.meta)
  }

  /** Every moment keeps the ledger's promises.  Until the machine is committed,
      everything known at the start is as it was, nothing was renamed and only own work
      was removed; from then on the pledge stands. */
  ghost predicate Recorded(others: Environment, start: Ledger, pledge: Pledge, committed: bool, history: seq<Moment>) {
    && |history| > 0 && history[0].action == Noted && history[0].ledger == start
    && (forall j :: 0 <= j < |history| ==> Upholds(history[j].disk, history[j].ledger))
    && (forall j :: 0 <= j < |history| ==> Disciplined(start, pledge, committed, history[j]))
    && (forall j :: 0 < j < |history| ==> Faithful(others, history[j - 1], history[j]))
    && (forall j :: 0 <= j < |history| ==> Warranted(pledge, history, j))
  }

  ghost predicate Disciplined(start: Ledger, pledge: Pledge, committed: bool, m: Moment) {
    && (m.committed ==> committed && Secured(m.ledger, pledge))
    && (!m.committed ==>
          Keeps(start, m.ledger) && !m.action.Renamed? && (m.action.Removed? ==> m.action.warrant.OwnWork?))
  }

  /** The warrant of a removal that would be the next moment. */
  ghost predicate VerifiedTwice(p: Pledge, history: seq<Moment>, k: Key, i: Ino, warrant: Warrant) {
    && warrant.Reviewed? && warrant.before < warrant.rename < warrant.after < |history|
    && SameEntry(p, warrant.item, history[warrant.before], history[warrant.rename], history[warrant.after], k, i)
  }

  /** History only grows. */
  ghost predicate Longer(h: seq<Moment>, l: seq<Moment>) {
    |h| <= |l| && forall j :: 0 <= j < |h| ==> l[j] == h[j]
  }

  lemma HistoryGrows()
    ensures forall h: seq<Moment> :: Longer(h, h)
    ensures forall h: seq<Moment>, k: seq<Moment>, l: seq<Moment> :: Longer(h, k) && Longer(k, l) ==> Longer(h, l)
  {
    forall h: seq<Moment>, k: seq<Moment>, l: seq<Moment> | Longer(h, k) && Longer(k, l) ensures Longer(h, l) {
      forall j | 0 <= j < |h| ensures l[j] == h[j] { assert k[j] == h[j]; }
    }
  }

  lemma LongerLength(h: seq<Moment>, l: seq<Moment>)
    requires Longer(h, l)
    ensures |h| <= |l|
  {
  }

  /** What other processes leave alone. */
  ghost predicate Passed(d: Disk, g: Ledger, e: Disk) {
    && NodesKept(d, e)
    && (forall k :: NamesDirectory(e, k) ==> NamesDirectory(d, k) && e.vis[k] == d.vis[k])
    && (forall k :: NamesDirectory(d, k) ==> NamesDirectory(e, k))
    && (forall k :: k in e.vis && e.vis[k] in g.sole ==> k in d.vis && d.vis[k] == e.vis[k])
  }

  lemma PassedKeepsNodes(d: Disk, g: Ledger, e: Disk)
    requires Passed(d, g, e)
    ensures NodesKept(d, e)
  {
  }

  lemma InterferencePasses(d: Disk, g: Ledger, e: Disk)
    requires Upholds(d, g) && Interference(d, e) && (e == d || Guarded(d.owner, g))
    ensures Passed(d, g, e)
  {
    if e != d { SoleNamesStay(d, g, e); }
    forall k | NamesDirectory(e, k) ensures NamesDirectory(d, k) && e.vis[k] == d.vis[k] {
      assert View(e.vis, k) == View(d.vis, k) || !NamesDirectory(e, k);
    }
    forall k | NamesDirectory(d, k) ensures NamesDirectory(e, k) {
      assert View(e.vis, k) == View(d.vis, k);
    }
  }

  lemma Interfered(d: Disk, g: Ledger, e: Disk)
    requires Upholds(d, g) && Interference(d, e) && (if g.alone then e == d else Guarded(d.owner, g))
    ensures Upholds(e, g) && Passed(d, g, e) && e.owner == d.owner && e.group == d.group
    ensures !g.alone ==> Guarded(e.owner, g)
  {
    hide Upholds, Guarded, Passed;
    InterferencePasses(d, g, e);
    if !g.alone { InterferenceUpholds(d, g, e); }
  }

  /** What a rename finds: neither a directory nor an inode with a private name. */
  lemma LeafPassed(d: Disk, g: Ledger, e: Disk, k: Key)
    requires Passed(d, g, e) && !NamesDirectory(d, k) && (k in d.vis ==> d.vis[k] !in g.sole)
    ensures !NamesDirectory(e, k) && (k in e.vis ==> e.vis[k] !in g.sole)
  {
  }

  /** The moment at which an entry was read. */
  ghost predicate LookedAt(m: Moment, k: Key, look: Look) {
    && look.Found? && m.action == Looked(k, look.ino) && k in m.disk.vis && m.disk.vis[k] == look.ino
    && look.ino in m.disk.nodes && m.disk.nodes[look.ino] == look.node
  }

  lemma LookIsFaithful(others: Environment, m: Moment, now: Moment)
    requires now.disk == m.disk && now.ledger == m.ledger
    requires now.action.Checked? || now.action.Sighted? || now.action.Looked?
    requires now.action.key in m.disk.vis && m.disk.vis[now.action.key] == now.action.ino
    requires now.action.ino in m.disk.nodes
    requires now.action.Checked? ==> Fits(m.disk.nodes[now.action.ino], now.action.evidence, now.action.meta)
    requires now.action.Sighted? ==> Outline(m.disk.nodes[now.action.ino], now.action.evidence, now.action.meta)
    ensures Faithful(others, m, now)
  {
  }

  lemma StoreIsOwn(d: Disk, g: Ledger, i: Ino, node: Node, committed: bool)
    requires MayStore(d.owner, g, i, node)
    ensures Untampered(d, Moment(Store(d, i, node), NoteStore(d.owner, g, i, node), Wrote, committed))
  {
  }

  lemma CreateIsFaithful(others: Environment, m: Moment, g: Ledger, k: Key, node: Node, committed: bool)
    requires k !in m.disk.vis && m.disk.next !in m.disk.nodes && g.made == m.ledger.made + {m.disk.next}
    requires g.alone == m.ledger.alone && g.calm == m.ledger.calm
    ensures Faithful(others, m, Moment(Create(m.disk, k, node), g, Made(k, m.disk.next), committed))
  {
  }

  lemma RemoveIsFaithful(others: Environment, m: Moment, g: Ledger, k: Key, warrant: Warrant, committed: bool)
    requires k in m.disk.vis && g.made == m.ledger.made && g.alone == m.ledger.alone && g.calm == m.ledger.calm
    ensures Faithful(others, m, Moment(Rebind(m.disk, k, None), g, Removed(k, m.disk.vis[k], warrant), committed))
  {
  }

  lemma LinkIsFaithful(others: Environment, m: Moment, g: Ledger, from: Key, to: Key, committed: bool)
    requires from in m.disk.vis && to !in m.disk.vis && m.disk.vis[from] in m.disk.nodes
    requires m.ledger.made == g.made && m.ledger.alone == g.alone && m.ledger.calm == g.calm
    ensures var i := m.disk.vis[from];
      Faithful(others, m, Moment(Rebind(m.disk, to, Some(i)), g, Linked(from, to, i), committed))
  {
  }

  lemma LinkWarranted(p: Pledge, history: seq<Moment>, d: Disk, g: Ledger, from: Key, to: Key, committed: bool)
    requires from in g.seen && LinkableFile(g, from, g.seen[from]) && from in d.vis && to !in d.vis
    ensures var m := Moment(Rebind(d, to, Some(d.vis[from])), NoteLink(g, from, to), Linked(from, to, g.seen[from]),
                            committed);
      Warranted(p, history + [m], |history|)
  {
  }

  lemma RenameIsFaithful(others: Environment, m: Moment, g: Ledger, from: Key, to: Key, item: nat, sighted: nat,
          committed: bool)
    requires from in m.disk.vis && to !in m.disk.vis && m.disk.vis[from] in m.disk.nodes && from != to
    requires m.ledger.made == g.made && m.ledger.alone == g.alone && m.ledger.calm == g.calm
    ensures var d, i := m.disk, m.disk.vis[from];
      Faithful(others, m,
               Moment(Rename(d, from, to), NoteRename(g, from, to, i, d.nodes[i]), Renamed(from, to, i, item, sighted),
                      committed))
    ensures var e := Rename(m.disk, from, to);
            e.owner == m.disk.owner && e.group == m.disk.group && e.nodes == m.disk.nodes
  {
  }

  lemma RenameStanding(start: Ledger, p: Pledge, g: Ledger, from: Key, to: Key, i: Ino, node: Node)
    requires Standing(start, p, true, g) && Ordered(g) && from != to && !node.Directory? && i !in g.sole
    requires to !in g.seen
    requires (i in g.known ==> g.known[i] == node) && (from in g.seen ==> g.seen[from] == i)
    requires g.calm ==> from in g.seen && CalmRename(g, from, to, i)
    ensures Standing(start, p, true, NoteRename(g, from, to, i, node))
  {
    hide Secured, Ordered, NoteRename, CalmRename;
    SecuredRename(g, p, from, to, i, node);
  }

  lemma RenameWarranted(p: Pledge, history: seq<Moment>, m: Moment)
    requires m.action.Renamed? && m.action.sighted < |history|
    requires Spotted(p, history[m.action.sighted], m.action.item, m.action.from)
    ensures Warranted(p, history + [m], |history|)
  {
    hide Spotted;
  }

  predicate HasEntries(d: Disk, k: Key) {
    k in d.vis && d.vis[k] in d.nodes && d.nodes[d.vis[k]].Directory? && exists j :: j in d.vis && j.dir == d.vis[k]
  }

  class Machine {
    const fails: nat -> bool            // which system calls fail
    const others: Environment           // what other processes do before each call
    const umask: nat -> nat
    var disk: Disk
    var clock: nat
    ghost const start: Ledger
    ghost var ledger: Ledger
    ghost var pledge: Pledge            // what is owed once committed
    ghost var committed: bool           // whether originals may be renamed
    ghost var history: seq<Moment>

    ghost predicate Alone() {
      forall n, d :: others(n, d) == d
    }

    ghost predicate Faultless() {
      forall n :: !fails(n)
    }

    ghost predicate Lawful() {
      && (forall n, d :: WellFormed(d) ==> Interference(d, others(n, d)))
      && (forall m :: m % 64 == 0 ==> umask(m) % 64 == 0)
    }

    ghost predicate Valid()
      reads this
    {
      && Lawful() && Upholds(disk, ledger) && Standing(start, pledge, committed, ledger)
      && Newborn(start) && Sound(start)
      && Recorded(others, start, pledge, committed, history)
      && history[|history| - 1] == Moment(disk, ledger, history[|history| - 1].action, committed)
      && (if ledger.alone then Alone() else Guarded(disk.owner, ledger))
    }

    twostate predicate Ticked()
      reads this
    {
      && ledger == old(ledger) && committed == old(committed) && pledge == old(pledge)
      && Longer(old(history), history)
      && Passed(old(disk), old(ledger), disk)
      && disk.owner == old(disk.owner) && disk.group == old(disk.group)
    }

    /** Whatever else happened, the process is the same one and history only grew. */
    twostate predicate Onward()
      reads this
    {
      disk.owner == old(disk.owner) && disk.group == old(disk.group) && Longer(old(history), history)
    }

    /** Nothing but reads happened. */
    twostate predicate OnlyRead()
      reads this
    {
      && ledger == old(ledger) && committed == old(committed) && pledge == old(pledge)
      && Longer(old(history), history)
      && NodesKept(old(disk), disk)
      && disk.owner == old(disk.owner) && disk.group == old(disk.group)
    }

    /** One effective system call: others act, then the disk and ledger change once. */
    twostate predicate Acted(g: Ledger)
      reads this
    {
      && ledger == g && committed == old(committed) && pledge == old(pledge)
      && Longer(old(history), history)
      && disk.owner == old(disk.owner) && disk.group == old(disk.group)
    }

    constructor (fails: nat -> bool, others: Environment, umask: nat -> nat, disk: Disk, ghost ledger: Ledger)
      requires Upholds(disk, ledger)
      requires forall n, d :: WellFormed(d) ==> Interference(d, others(n, d))
      requires forall m :: m % 64 == 0 ==> umask(m) % 64 == 0
      requires if ledger.alone then (forall n, d :: others(n, d) == d) else Guarded(disk.owner, ledger)
      requires Newborn(ledger)
      ensures Valid() && this.disk == disk && this.ledger == ledger && this.start == ledger && !committed
      ensures this.fails == fails && this.others == others && |history| == 1
    {
      this.fails, this.others, this.umask := fails, others, umask;
      this.disk, this.clock, this.ledger, this.start, this.committed := disk, 0, ledger, ledger, false;
      this.pledge := Pledge(disk.owner, [], [], 0);
      this.history := [Moment(disk, ledger, Noted, false)];
      SoundLedger(disk, ledger);
    }

    /** Enters a finished step into the history. */
    ghost method Record(g: Ledger, action: Action)
      requires Lawful() && Newborn(start) && Sound(start)
      requires Recorded(others, start, pledge, committed, history) && Upholds(disk, g)
      requires Faithful(others, history[|history| - 1], Moment(disk, g, action, committed))
      requires Standing(start, pledge, committed, g)
      requires !committed ==> !action.Renamed? && (action.Removed? ==> action.warrant.OwnWork?)
      requires action.Removed? || action.Renamed? || action.Linked? ==>
                 Warranted(pledge, history + [Moment(disk, g, action, committed)], |history|)
      requires if g.alone then Alone() else Guarded(disk.owner, g)
      modifies this`ledger, this`history
      ensures Valid() && ledger == g
      ensures history == old(history) + [Moment(disk, g, action, committed)]
    {
      hide Upholds, Guarded, Sound, Newborn, Lawful, Secured, Keeps;
      ledger := g;
      var longer := history + [Moment(disk, g, action, committed)];
      forall j | 0 <= j < |history| ensures Warranted(pledge, longer, j) {
        assert Warranted(pledge, history, j);
      }
      assert Warranted(pledge, longer, |history|);
      history := longer;
    }

    /** Other processes act. */
    method Interrupt() returns (failing: bool)
      requires Valid()
      modifies this
      ensures Valid() && Ticked() && |history| > |old(history)|
      ensures Faultless() ==> !failing
    {
      hide Upholds, Guarded, Passed, Keeps, Sound, Newborn, Recorded, Interference, WellFormed, Secured, Standing;
      var e := others(clock, disk);
      KnownInodes(disk, ledger);
      assert Interference(disk, e);
      Interfered(disk, ledger, e);
      failing := fails(clock);
      ghost var before := disk;
      assert ActedElsewhere(others, before, e);
      disk, clock := e, clock + 1;
      Record(ledger, Elsewhere);
    }

    /** Takes note of a directory that was just read. */
    ghost method Learn(k: Key)
      requires Valid() && NamesDirectory(disk, k) && !committed
      modifies this`ledger, this`history
      ensures Valid() && ledger == NoteFound(old(ledger), k, disk.vis[k], disk.nodes[disk.vis[k]])
      ensures Grows(old(ledger), ledger) && Longer(old(history), history) && disk == old(disk)
      ensures k in ledger.seen && ledger.seen[k] == disk.vis[k] && disk.vis[k] in ledger.known
      ensures ledger.known[disk.vis[k]] == disk.nodes[disk.vis[k]]
    {
      hide Upholds, Guarded, Newborn, Lawful, Sound, Secured, Recorded;
      FoundUpholds(disk, ledger, k);
      FoundGrows(disk, ledger, k);
      FoundKnown(disk, ledger, k);
      KeepsTransitive(start, ledger, NoteFound(ledger, k, disk.vis[k], disk.nodes[disk.vis[k]]));
      Record(NoteFound(ledger, k, disk.vis[k], disk.nodes[disk.vis[k]]), Noted);
    }

    /** Reads one entry without following it: lstat, open, read or readlink. */
    method Inspect(k: Key) returns (look: Look)
      requires Valid()
      modifies this
      ensures Valid() && Ticked() && OnlyRead()
      ensures look.Found? ==>
                k in disk.vis && look.ino == disk.vis[k] && look.ino in disk.nodes && look.node == disk.nodes[look.ino]
      ensures k in ledger.seen ==> !look.Absent? && ledger.seen[k] in ledger.known
      ensures k in ledger.seen && look.Found? ==> look.ino == ledger.seen[k] && look.node == ledger.known[look.ino]
      ensures ledger.alone && look.Found? ==> k in ledger.seen && look.links == |Links(ledger.seen, look.ino)|
      ensures look.Found? ==> |history| > |old(history)| && LookedAt(history[|history| - 1], k, look)
      ensures Faultless() ==> !look.Failed?
    {
      hide Upholds, Guarded, WellFormed, Lawful, Recorded, Keeps, Sound, Newborn, Passed, Secured, Ordered, Faithful,
        Standing, Warranted;
      var failing := Interrupt();
      assert NodesKept(old(disk), disk) by { PassedKeepsNodes(old(disk), ledger, disk); }
      SeenNames(disk, ledger);
      KnownInodes(disk, ledger);
      if failing { return Failed; }
      if k !in disk.vis { return Absent; }
      if ledger.alone { AloneLists(disk, ledger); }
      var ino := disk.vis[k];
      look := Found(ino, disk.nodes[ino], |Links(disk.vis, ino)|);
      LookIsFaithful(others, history[|history| - 1], Moment(disk, ledger, Looked(k, ino), committed));
      Record(ledger, Looked(k, ino));
    }

    /** From here on originals may be renamed. */
    ghost method Commit(p: Pledge)
      requires Valid() && !committed && Secured(ledger, p)
      modifies this`pledge, this`committed, this`ledger, this`history
      ensures Valid() && committed && pledge == p && ledger == old(ledger) && Longer(old(history), history)
    {
      hide Upholds, Guarded, Newborn, Lawful, Sound, Keeps, Secured;
      forall j | 0 <= j < |history| ensures Warranted(p, history, j) && Disciplined(start, p, true, history[j]) {
        assert Warranted(pledge, history, j) && Disciplined(start, pledge, false, history[j]);
      }
      pledge, committed := p, true;
      Record(ledger, Noted);
    }

    /** Notes that the entry just read is the reviewed one. */
    ghost method Check(k: Key, ino: Ino, evidence: Evidence, meta: Meta) returns (at: nat)
      requires Valid() && k in disk.vis && disk.vis[k] == ino && ino in disk.nodes
      requires Fits(disk.nodes[ino], evidence, meta)
      modifies this`ledger, this`history
      ensures Valid() && ledger == old(ledger) && Longer(old(history), history)
      ensures at == |old(history)| == |history| - 1 && history[at].action == Checked(k, ino, evidence, meta)
    {
      at := |history|;
      hide Upholds, Guarded, Newborn, Lawful, Sound, Keeps, Secured, Recorded, Standing, Fits, Outline, Warranted,
        Faithful;
      LookIsFaithful(others, history[|history| - 1], Moment(disk, ledger, Checked(k, ino, evidence, meta), committed));
      Record(ledger, Checked(k, ino, evidence, meta));
    }

    /** Notes the inode that was verified under a name others may replace. */
    ghost method Sight(k: Key, ino: Ino, evidence: Evidence, meta: Meta) returns (at: nat)
      requires Valid() && k in disk.vis && disk.vis[k] == ino && ino in disk.nodes
      requires Outline(disk.nodes[ino], evidence, meta)
      modifies this`ledger, this`history
      ensures Valid() && ledger == old(ledger) && Longer(old(history), history)
      ensures at == |old(history)| == |history| - 1
      ensures history[at] == Moment(disk, ledger, Sighted(k, ino, evidence, meta), committed)
    {
      at := |history|;
      hide Upholds, Guarded, Newborn, Lawful, Sound, Keeps, Secured, Recorded, Standing, Fits, Outline, Warranted,
        Faithful;
      LookIsFaithful(others, history[|history| - 1], Moment(disk, ledger, Sighted(k, ino, evidence, meta), committed));
      Record(ledger, Sighted(k, ino, evidence, meta));
    }

    /** Creates an entry for a new inode; fails where the name is taken. */
    method Create(k: Key, node: Node) returns (made: Option<Ino>)
      requires Valid() && k.dir in ledger.known && ledger.known[k.dir].Directory?
      requires node.Symlink? ==> node.meta.mode == MODE_0777
      requires ledger.calm ==> k !in ledger.moved
      modifies this
      ensures Valid()
      ensures made.None? ==> Ticked() && (Faultless() && ledger.alone ==> k in ledger.seen)
      ensures made.Some? ==>
                Acted(NoteCreate(old(disk.owner), old(ledger), k, made.value, node))
      ensures made.Some? ==> FreshTo(old(ledger), made.value) && k !in old(ledger).seen
      ensures made.Some? ==> |history| > |old(history)| && history[|history| - 1].action == Made(k, made.value)
    {
      hide FreshTo, Upholds, Guarded, WellFormed, Lawful, Recorded, Keeps, Sound, Newborn, Passed, Secured, Ordered,
        Standing, NoteCreate, Warranted, Faithful;
      var failing := Interrupt();
      ghost var mid := disk;
      if ledger.alone { AloneLists(disk, ledger); }
      if failing || k in disk.vis { return None; }
      CreateStep(disk, ledger, k, node);
      CreateStanding(start, pledge, committed, disk, ledger, k, node);
      CreateIsFaithful(others, history[|history| - 1], NoteCreate(disk.owner, ledger, k, disk.next, node), k, node,
                       committed);
      disk := Disks.Create(disk, k, node);
      Record(NoteCreate(mid.owner, ledger, k, mid.next, node), Made(k, mid.next));
      made := Some(disk.next - 1);
    }

    /** Writes an inode's bytes or metadata through its descriptor. */
    method Store(i: Ino, node: Node) returns (ok: bool)
      requires Valid() && MayStore(disk.owner, ledger, i, node) && (committed ==> i !in ledger.synced)
      modifies this
      ensures Valid()
      ensures !ok ==> Ticked() && !Faultless()
      ensures ok ==> Acted(NoteStore(old(disk.owner), old(ledger), i, node))
    {
      hide Upholds, Guarded, WellFormed, Lawful, Recorded, Keeps, Sound, Newborn, Passed, Secured, Ordered, Standing,
        NoteStore, Warranted, Untampered;
      var failing := Interrupt();
      ghost var mid := disk;
      if failing { return false; }
      StoreUpholds(disk, ledger, i, node);
      if !ledger.alone { StoreGuarded(disk.owner, ledger, i, node); }
      StoreStanding(start, pledge, committed, disk, ledger, i, node);
      StoreIsOwn(disk, ledger, i, node, committed);
      disk := Disks.Store(disk, i, node);
      Record(NoteStore(disk.owner, ledger, i, node), Wrote);
      ok := true;
    }

    method Sync(i: Ino) returns (ok: bool)
      requires Valid() && i in ledger.known
      modifies this
      ensures Valid()
      ensures !ok ==> Ticked() && !Faultless()
      ensures ok ==> Acted(NoteFlush(old(ledger), i))
    {
      hide Upholds, Guarded, WellFormed, Lawful, Recorded, Keeps, Sound, Newborn, Passed, Secured, Ordered, Standing,
        NoteFlush, Warranted;
      var failing := Interrupt();
      ghost var mid := disk;
      if failing { return false; }
      FlushUpholds(disk, ledger, i);
      if !ledger.alone { SyncedGuarded(disk.owner, ledger, i); }
      SyncStanding(start, pledge, committed, disk, ledger, i);
      disk := Flush(disk, i);
      Record(NoteFlush(ledger, i), Wrote);
      ok := true;
    }

    method SyncDirectory(dir: Ino) returns (ok: bool)
      requires Valid()
      modifies this
      ensures Valid()
      ensures !ok ==> Ticked() && !Faultless()
      ensures ok ==> Acted(NoteSync(old(ledger), dir))
    {
      hide Upholds, Guarded, WellFormed, Lawful, Recorded, Keeps, Sound, Newborn, Passed, Secured, Ordered, Standing,
        NoteSync, Warranted;
      var failing := Interrupt();
      ghost var mid := disk;
      if failing { return false; }
      SyncUpholds(disk, ledger, dir);
      if !ledger.alone { SyncedGuarded(disk.owner, ledger, dir); }
      SyncStanding(start, pledge, committed, disk, ledger, dir);
      disk := Disks.SyncDirectory(disk, dir);
      Record(NoteSync(ledger, dir), Wrote);
      ok := true;
    }

    /** Moves an original into a directory that is known to be empty. */
    method Rename(from: Key, to: Key, ghost item: nat, ghost sighted: nat) returns (moved: Option<Ino>)
      requires Valid() && sighted < |history| && Spotted(pledge, history[sighted], item, from)
      requires committed && to.dir in ledger.empty && to.dir in ledger.known && from.dir != to.dir
      requires !NamesDirectory(disk, from) && (from in disk.vis ==> disk.vis[from] !in ledger.sole)
      requires ledger.calm ==> from in ledger.seen && CalmRename(ledger, from, to, ledger.seen[from])
      modifies this
      ensures Valid()
      ensures moved.None? ==> Ticked() && (Faultless() ==> from !in ledger.seen)
      ensures moved.Some? ==>
                moved.value in disk.nodes && (from in old(ledger).seen ==> moved.value == old(ledger).seen[from]) &&
                Acted(NoteRename(old(ledger), from, to, moved.value, disk.nodes[moved.value]))
      ensures NodesKept(old(disk), disk)
      ensures moved.Some? ==>
                |history| > 0 && history[|history| - 1].action == Renamed(from, to, moved.value, item, sighted) &&
                |history| - 1 >= |old(history)|
    {
      hide Upholds, Guarded, WellFormed, Lawful, Recorded, Keeps, Sound, Newborn, Passed, Secured, Ordered, NoteRename,
        Warranted, Spotted, Faithful, Disks.Rename, Standing;
      var failing := Interrupt();
      ghost var mid := disk;
      assert NodesKept(old(disk), disk) by { PassedKeepsNodes(old(disk), ledger, disk); }
      SeenNames(disk, ledger);
      if failing || from !in disk.vis { return None; }
      var i := disk.vis[from];
      SeenNames(disk, ledger);
      LeafPassed(old(disk), ledger, disk, from);
      RenameStep(disk, ledger, from, to);
      LedgerIsOrdered(disk, ledger);
      RenameStanding(start, pledge, ledger, from, to, i, disk.nodes[i]);
      disk := Disks.Rename(disk, from, to);
      RenameIsFaithful(others, history[|history| - 1], ledger, from, to, item, sighted, committed);
      RenameWarranted(pledge, history,
                      Moment(disk, NoteRename(ledger, from, to, i, mid.nodes[i]), Renamed(from, to, i, item, sighted),
                             committed));
      Record(NoteRename(ledger, from, to, i, mid.nodes[i]), Renamed(from, to, i, item, sighted));
      moved := Some(i);
    }

    /** Gives a file made in private its public name, without replacing anything. */
    method Link(from: Key, to: Key) returns (ok: bool)
      requires Valid() && from in ledger.seen && LinkableFile(ledger, from, ledger.seen[from])
      requires to.dir in ledger.known && ledger.known[to.dir].Directory? && !ledger.calm && !committed
      modifies this
      ensures Valid()
      ensures !ok ==> Ticked() && (Faultless() && ledger.alone ==> to in ledger.seen)
      ensures ok ==> Acted(NoteLink(old(ledger), from, to)) && to !in old(ledger).seen
      ensures ok ==>
                |history| > |old(history)| && history[|history| - 1].action == Linked(from, to, old(ledger).seen[from])
    {
      hide Upholds, Guarded, WellFormed, Lawful, Recorded, Keeps, Sound, Newborn, Passed, Secured, Ordered, NoteLink,
        Warranted, Faithful;
      var failing := Interrupt();
      ghost var mid := disk;
      if ledger.alone { AloneLists(disk, ledger); }
      if failing || to in disk.vis { return false; }
      LinkStep(disk, ledger, from, to);
      StartNames(start, ledger);
      KeepsLink(start, ledger, from, to);
      KnownInodes(disk, ledger);
      SeenNames(disk, ledger);
      LinkIsFaithful(others, history[|history| - 1], NoteLink(ledger, from, to), from, to, committed);
      LinkWarranted(pledge, history, disk, ledger, from, to, committed);
      disk := Rebind(disk, to, Some(disk.vis[from]));
      Record(NoteLink(ledger, from, to), Linked(from, to, ledger.seen[from]));
      ok := true;
    }

    /** Removes a file, or a directory when it is empty. */
    method Remove(k: Key, ghost warrant: Warrant) returns (ok: bool)
      requires Valid() && k in ledger.seen && k.dir in ledger.known
      requires if warrant.OwnWork? then ledger.seen[k] in ledger.made
               else VerifiedTwice(pledge, history, k, ledger.seen[k], warrant)
      requires if committed then Standing(start, pledge, true, NoteEntry(ledger, k, None, true)) else warrant.OwnWork?
      requires ledger.calm ==> CalmRemove(ledger, k)
      modifies this
      ensures Valid()
      ensures !ok ==> Ticked() && (Faultless() ==> HasEntries(disk, k))
      ensures ok ==> Acted(NoteEntry(old(ledger), k, None, true))
      ensures ok ==>
                |history| - 1 >= |old(history)| &&
                history[|history| - 1].action == Removed(k, old(ledger).seen[k], warrant)
    {
      hide Upholds, Guarded, WellFormed, Lawful, Recorded, Keeps, Sound, Newborn, Passed, Secured, Ordered, NoteEntry,
        Faithful;
      var failing := Interrupt();
      ghost var mid := disk;
      SeenNames(disk, ledger);
      if failing || HasEntries(disk, k) { return false; }
      UnbindStep(disk, ledger, k);
      if !committed { RemoveStanding(start, pledge, disk, ledger, k, ledger.seen[k]); }
      RemoveIsFaithful(others, history[|history| - 1], NoteEntry(ledger, k, None, true), k, warrant, committed);
      disk := Rebind(disk, k, None);
      Record(NoteEntry(ledger, k, None, true), Removed(k, ledger.seen[k], warrant));
      ok := true;
    }

    /** Rolls back a public entry only while it still is the one just created.
        Other processes do not act between the comparison and the removal. */
    method RemoveIfSame(k: Key, ino: Ino) returns (ok: bool)
      requires Valid() && ino in ledger.made && ino in ledger.known && !ledger.known[ino].Directory? && !ledger.calm
      requires !committed
      modifies this
      ensures Valid()
      ensures !ok ==> Ticked()
      ensures ok ==> Acted(NoteEntry(old(ledger), k, None, true))
    {
      hide Upholds, Guarded, WellFormed, Lawful, Recorded, Keeps, Sound, Newborn, Passed, Secured, Ordered, NoteEntry,
        Faithful;
      var failing := Interrupt();
      ghost var mid := disk;
      if failing || k !in disk.vis || disk.vis[k] != ino { return false; }
      UnbindStep(disk, ledger, k);
      RemoveStanding(start, pledge, disk, ledger, k, ino);
      RemoveIsFaithful(others, history[|history| - 1], NoteEntry(ledger, k, None, true), k, OwnWork, committed);
      disk := Rebind(disk, k, None);
      Record(NoteEntry(ledger, k, None, true), Removed(k, ino, OwnWork));
      ok := true;
    }
  }
}
