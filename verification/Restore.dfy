/** Restoring from a prepared or completed receipt: every original is either already
    there exactly as reviewed, or is recreated from a verified recovery copy. */
module CleanupRestore {
  import opened Wrappers
  import opened CleanupTypes
  import opened Disks
  import opened Ledgers
  import opened Pledges
  import opened Machines
  import opened CleanupSteps
  import opened CleanupRoutes
  import opened CleanupPublish

  /** The compiled fields of one clean-up rule that a receipt is checked against. */
  datatype Rule = Rule(dirs: seq<string>, leaf: string, isPrivate: bool)

  /** What holds of the compiled table. */
  predicate CompiledRules(rules: map<string, Rule>) {
    forall id :: id in rules ==>
      CleanPath(rules[id].dirs) && !QuarantineName(rules[id].leaf) && !(RESTORE_PREFIX <= rules[id].leaf)
  }

  predicate EndsWith(name: string, suffix: string) {
    |suffix| <= |name| && name[|name| - |suffix|..] == suffix
  }

  predicate AcceptsEvidence(evidence: Evidence, isPrivate: bool) {
    match evidence
    case Public(_, _) => !isPrivate
    case Private(_, _) => isPrivate
    case Link(target) => target != ""
  }

  predicate AcceptsItem(rules: map<string, Rule>, item: Item) {
    && item.rule in rules && item.dirs == rules[item.rule].dirs && item.leaf == rules[item.rule].leaf
    && (item.quarantine.Some? ==>
          QuarantineName(item.quarantine.value) && EndsWith(item.quarantine.value, "-" + item.rule))
    && AcceptsEvidence(item.evidence, rules[item.rule].isPrivate) && item.meta.mode <= MODE_0777
  }

  /** A receipt for compiled rules only, each of them at most once. */
  predicate Accepts(rules: map<string, Rule>, changes: seq<Item>) {
    && (forall i :: 0 <= i < |changes| ==> AcceptsItem(rules, changes[i]))
    && (forall i, j :: 0 <= i < j < |changes| ==> changes[i].rule != changes[j].rule)
  }

  method ValidateReceipt(rules: map<string, Rule>, changes: seq<Item>) returns (ok: bool)
    ensures ok <==> Accepts(rules, changes)
  {
    var seen: set<string> := {};
    var i := 0;
    while i < |changes|
      invariant i <= |changes| && Accepts(rules, changes[..i])
      invariant forall id :: id in seen <==> exists j :: 0 <= j < i && changes[j].rule == id
    {
      if !AcceptsItem(rules, changes[i]) { return false; }
      if changes[i].rule in seen { return false; }
      seen := seen + {changes[i].rule};
      i := i + 1;
    }
    assert changes[..i] == changes;
    ok := true;
  }

  datatype Outcome = Restored | AlreadyPresent | Refused

  /** Recreates one original from the recovery copy `src`. */
  method Publish(m: Machine, src: Key, dst: Key, item: Item, secret: Option<nat>, nonce: string) returns (ok: bool)
    requires m.Valid() && !m.committed && MayPublish(m.ledger, dst) && dst.name == item.leaf
    requires !(RESTORE_PREFIX <= item.leaf)
    modifies m
    ensures m.Valid() && !m.committed && m.Onward()
    ensures ok ==>
              Grows(old(m.ledger), m.ledger) && Steady(m.ledger) &&
              (m.ledger.alone ==> Published(old(m.ledger), m.ledger, dst, item))
    ensures ok ==> Reappeared(m.history, |old(m.history)|, dst, item)
    ensures ok && m.ledger.alone ==> NamesFree(old(m.ledger), dst, item, nonce)
    ensures Preparable(m, old(m.ledger), src, item, secret) && NamesFree(old(m.ledger), dst, item, nonce) ==> ok
  {
    hide Machine.Valid, Published, Steady, Quarantine, IsEntry, Grows, Longer, Reappeared;
    HistoryGrows();
    ghost var g := m.ledger;
    assert RESTORE_PREFIX <= RestoreDirectory(nonce, item.rule);
    if item.evidence.Link? {
      ok := PublishLink(m, src, dst, item);
    } else {
      ok := PublishFile(m, src, dst, item, secret, nonce);
    }
    if ok && m.ledger.alone { PublishedName(g, m.ledger, dst, item); }
  }

  lemma PublishedName(g: Ledger, h: Ledger, dst: Key, item: Item)
    requires Published(g, h, dst, item)
    ensures dst !in g.seen
  {
  }

  /** Where an original belongs, once its parent is open. */
  ghost predicate Located(g: Ledger, item: Item, dst: Key) {
    Reached(g, item.dirs, dst.dir) && dst.name == item.leaf
  }

  lemma LocatedFacts(g: Ledger, item: Item, dst: Key)
    requires Located(g, item, dst) && Ordered(g) && CleanPath(item.dirs) && Steady(g) && !g.calm
    ensures MayPublish(g, dst)
  {
    ReachedFacts(g, item.dirs, dst.dir);
  }

  /** An item that a faultless Restore can recover: its original is there as reviewed,
      or absent with an intact recovery copy and the names that are needed free. */
  ghost predicate RestorableItem(g: Ledger, stamp: string, item: Item, nonce: string) {
    var p := KeptDirectory(g, item.dirs);
    p.Some? && var dst := Key(p.value, item.leaf);
    if dst in g.seen then IsEntry(g, dst, item.evidence, item.meta, 1)
    else NamesFree(g, dst, item, nonce) && CopyThere(g, stamp, item, dst.dir)
  }

  ghost predicate BackupThere(g: Ledger, stamp: string, item: Item) {
    var d := KeptDirectory(g, BackupDirs(stamp) + item.dirs);
    d.Some? && IsEntry(g, Key(d.value, item.leaf), item.evidence, item.meta, 1)
  }

  /** There is no backup, or something else in its place: not a reason to stop. */
  ghost predicate BackupPassed(g: Ledger, stamp: string, item: Item) {
    Gone(g, BackupDirs(stamp) + item.dirs) ||
    (KeptDirectory(g, BackupDirs(stamp) + item.dirs).Some? && !BackupThere(g, stamp, item))
  }

  /** The entry lies intact in its quarantine beside the original's place. */
  ghost predicate QuarantineThere(g: Ledger, item: Item, dir: Ino) {
    item.quarantine.Some? &&
    var room := Key(dir, item.quarantine.value);
    NamesKnownDirectory(g, room) && IsEntry(g, Key(g.seen[room], item.leaf), item.evidence, item.meta, 1)
  }

  /** One of the two recovery sources is acceptable, and the first does not stop the run. */
  ghost predicate CopyThere(g: Ledger, stamp: string, item: Item, dir: Ino) {
    BackupThere(g, stamp, item) || (BackupPassed(g, stamp, item) && QuarantineThere(g, item, dir))
  }

  /** What a recovery copy must satisfy, and what it is used for. */
  method RestoreFrom(m: Machine, src: Key, dst: Key, item: Item, secret: Option<nat>, nonce: string)
        returns (verified: bool, outcome: Outcome)
    requires m.Valid() && !m.committed && MayPublish(m.ledger, dst) && dst.name == item.leaf
    requires !(RESTORE_PREFIX <= item.leaf)
    modifies m
    ensures m.Valid() && !m.committed && m.Onward()
    ensures !verified ==> outcome == Refused && m.ledger == old(m.ledger)
    ensures outcome != AlreadyPresent
    ensures outcome == Restored ==> Grows(old(m.ledger), m.ledger) && Steady(m.ledger)
    ensures outcome == Restored && m.ledger.alone ==> Published(old(m.ledger), m.ledger, dst, item)
    ensures outcome == Restored ==> Reappeared(m.history, |old(m.history)|, dst, item)
    ensures verified && old(m.ledger).alone ==> IsEntry(old(m.ledger), src, item.evidence, item.meta, 1)
    ensures outcome == Restored ==> verified && (m.ledger.alone ==> NamesFree(old(m.ledger), dst, item, nonce))
    ensures Preparable(m, old(m.ledger), src, item, secret) ==> verified
    ensures Preparable(m, old(m.ledger), src, item, secret) && NamesFree(old(m.ledger), dst, item, nonce) ==>
              outcome == Restored
  {
    hide Machine.Valid, Published, Grows, IsEntry, MayPublish, NamesFree, Steady, HasSecret, Longer, Reappeared,
      Verified;
    HistoryGrows();
    ReappearedStays();
    ghost var start := m.history;
    outcome := Refused;
    var copy := VerifyEntry(m, src, item.evidence, item.meta, secret, 1, false);
    verified := copy.Some?;
    LongerLength(start, m.history);
    if !verified { return; }
    var ok := Publish(m, src, dst, item, secret, nonce);
    if ok { outcome := Restored; }
  }

  /** What is certain about one original of a report, whatever others did: it was there
      and verified (`present`), or it was recreated under a free name and verified. */
  ghost predicate Vouched(h: seq<Moment>, from: nat, k: Key, item: Item, present: bool) {
    if present then Verified(h, from, k, item.evidence, item.meta) else Reappeared(h, from, k, item)
  }

  /** Something is visible where the original belongs. */
  ghost predicate Occupied(g: Ledger, item: Item) {
    KeptDirectory(g, item.dirs).Some? && Place(g, item) in g.seen
  }

  ghost function Place(g: Ledger, item: Item): Key {
    Key(if KeptDirectory(g, item.dirs).Some? then KeptDirectory(g, item.dirs).value else ROOT, item.leaf)
  }

  lemma OccupiedItem(g: Ledger, stamp: string, item: Item, nonce: string)
    requires Occupied(g, item)
    ensures RestorableItem(g, stamp, item, nonce) <==> IsEntry(g, Place(g, item), item.evidence, item.meta, 1)
  {
  }

  lemma PlaceIs(g: Ledger, item: Item, dst: Key)
    requires Located(g, item, dst)
    ensures Place(g, item) == dst && KeptDirectory(g, item.dirs) == Some(dst.dir)
  {
  }

  /** Restores one receipt item: nothing is overwritten; the backup is tried first and
      the quarantined entry second. */
  method RestoreItem(m: Machine, b: Ino, ghost stamp: string, item: Item, secret: Option<nat>, nonce: string)
      returns (outcome: Outcome, ghost dst: Key)
    requires m.Valid() && !m.committed && !m.ledger.calm && Steady(m.ledger) && Reached(m.ledger, [], ROOT)
    requires Reached(m.ledger, BackupDirs(stamp), b) && !QuarantineName(stamp) && CleanPath(item.dirs)
    requires !(RESTORE_PREFIX <= item.leaf)
    modifies m
    ensures m.Valid() && !m.committed && m.Onward()
    ensures outcome != Refused ==> Grows(old(m.ledger), m.ledger) && Steady(m.ledger) && Located(m.ledger, item, dst)
    ensures outcome == AlreadyPresent && m.ledger.alone ==>
              m.ledger == old(m.ledger) && IsEntry(m.ledger, dst, item.evidence, item.meta, 1)
    ensures outcome == Restored && m.ledger.alone ==> Published(old(m.ledger), m.ledger, dst, item)
    ensures outcome != Refused ==> Vouched(m.history, |old(m.history)|, dst, item, outcome == AlreadyPresent)
    ensures m.Faultless() && old(m.ledger).alone && HasSecret(item.evidence, secret) ==>
              outcome == (if !RestorableItem(old(m.ledger), stamp, item, nonce) then Refused
                          else if Occupied(old(m.ledger), item) then AlreadyPresent else Restored)
    ensures outcome != Refused && m.ledger.alone ==> dst == Place(old(m.ledger), item)
  {
    hide Machine.Valid, Passed, Longer, NodesKept, Published, IsEntry, Grows, Steady, Reached, Sound, Ordered, Upholds,
      Discovers, HasSecret, CleanPath, QuarantineName, NamesFree, MayPublish, Reappeared, Verified;
    HistoryGrows();
    VerifiedStays();
    ReappearedStays();
    ghost var start := m.history;
    ghost var g := m.ledger;
    GrowsReflexive(g);
    Uncommitted(m);
    outcome, dst := Refused, Key(ROOT, item.leaf);
    assert [] + item.dirs == item.dirs;
    var parent, missing := OpenRoute(m, ROOT, item.dirs, []);
    ghost var a := m.ledger;
    DiscoversGrows(g, a);
    GrowsKnown(g, a);
    if parent.None? { return; }
    var to := Key(parent.value, item.leaf);
    dst := to;
    PlaceIs(a, item, dst);
    if g.alone { RestorableFacts(g, stamp, item, nonce, dst); }
    var look := m.Inspect(to);
    LongerLength(start, m.history);
    if look.Failed? { return; }
    if look.Found? {
      var present := VerifyEntry(m, to, item.evidence, item.meta, secret, 1, false);
      if present.Some? { outcome := AlreadyPresent; }
      return;
    }
    ReachedGrows(g, a, BackupDirs(stamp), b) by { CleanBackup(stamp, item.dirs); }
    outcome := Recover(m, b, stamp, item, secret, nonce, to);
    if outcome != Refused {
      ghost var h := m.ledger;
      GrowsTransitive(g, a, h);
      GrowsKnown(g, h);
      ReachedGrows(a, h, item.dirs, dst.dir);
    }
  }

  lemma RestorableFacts(g: Ledger, stamp: string, item: Item, nonce: string, dst: Key)
    requires Located(g, item, dst)
    ensures Occupied(g, item) <==> dst in g.seen
    ensures RestorableItem(g, stamp, item, nonce) <==>
              if dst in g.seen then IsEntry(g, dst, item.evidence, item.meta, 1)
              else NamesFree(g, dst, item, nonce) && CopyThere(g, stamp, item, dst.dir)
  {
  }

  lemma LocatedGrows(g: Ledger, h: Ledger, item: Item, dst: Key)
    requires Located(g, item, dst) && Discovers(g, h) && CleanPath(item.dirs)
    ensures Located(h, item, dst) && Grows(g, h) && h.alone == g.alone && h.calm == g.calm
  {
    ReachedGrows(g, h, item.dirs, dst.dir);
  }

  /** Whether an absent original can be recreated. */
  ghost predicate Recoverable(g: Ledger, stamp: string, item: Item, nonce: string, dst: Key) {
    NamesFree(g, dst, item, nonce) && CopyThere(g, stamp, item, dst.dir)
  }

  /** Recreates an absent original from its backup.  Without a backup that verifies,
      the quarantine may be tried next. */
  method FromBackup(m: Machine, b: Ino, ghost stamp: string, item: Item, secret: Option<nat>, nonce: string, dst: Key)
        returns (outcome: Outcome, next: bool)
    requires m.Valid() && !m.committed && !m.ledger.calm && Steady(m.ledger) && Located(m.ledger, item, dst)
    requires Reached(m.ledger, BackupDirs(stamp), b) && !QuarantineName(stamp) && CleanPath(item.dirs)
    requires !(RESTORE_PREFIX <= item.leaf)
    modifies m
    ensures m.Valid() && !m.committed && m.Onward()
    ensures outcome != AlreadyPresent
    ensures outcome == Restored ==> Grows(old(m.ledger), m.ledger) && Steady(m.ledger)
    ensures outcome == Restored && m.ledger.alone ==> Published(old(m.ledger), m.ledger, dst, item)
    ensures outcome == Restored ==> Reappeared(m.history, |old(m.history)|, dst, item)
    ensures next ==> outcome == Refused && Discovers(old(m.ledger), m.ledger) && Steady(m.ledger)
    ensures next && old(m.ledger).alone ==> m.ledger == old(m.ledger)
    ensures m.Faultless() && old(m.ledger).alone && HasSecret(item.evidence, secret) ==>
              && (next <==> BackupPassed(old(m.ledger), stamp, item))
              && (outcome == Restored <==>
                  BackupThere(old(m.ledger), stamp, item) && NamesFree(old(m.ledger), dst, item, nonce))
  {
    hide Machine.Valid, Passed, Longer, NodesKept, Published, IsEntry, Grows, Steady, Reached, Sound, Ordered, Upholds,
      Discovers, HasSecret, CleanPath, QuarantineName, NamesFree, BackupThere, BackupPassed, Located, MayPublish,
      Reappeared, Verified, Gone, KeptDirectory;
    HistoryGrows();
    ReappearedStays();
    ghost var start := m.history;
    ghost var g := m.ledger;
    outcome, next := Refused, false;
    CleanBackup(stamp, item.dirs);
    var source, gone := OpenRoute(m, b, item.dirs, BackupDirs(stamp));
    ghost var a := m.ledger;
    LocatedGrows(g, a, item, dst);
    LocatedName(a, item, dst);
    Uncommitted(m);
    LocatedFacts(a, item, dst);
    LongerLength(start, m.history);
    if source.None? {
      if g.alone { NoBackup(g, stamp, item); }
      return Refused, gone;
    }
    var src := Key(source.value, item.leaf);
    if g.alone { BackupIsAt(a, stamp, item, src); }
    var at := m.Inspect(src);
    LongerLength(start, m.history);
    if at.Failed? { return; }
    if at.Absent? {
      if g.alone { AbsentIsNoEntry(g, src, item); }
      return Refused, true;
    }
    var verified;
    verified, outcome := RestoreFrom(m, src, dst, item, secret, nonce);
    if outcome == Restored { GrowsTransitive(g, a, m.ledger); GrowsKnown(a, m.ledger); }
    next := !verified;
  }

  lemma AbsentIsNoEntry(g: Ledger, k: Key, item: Item)
    ensures k !in g.seen ==> !IsEntry(g, k, item.evidence, item.meta, 1)
  {
  }

  lemma NoBackup(g: Ledger, stamp: string, item: Item)
    ensures KeptDirectory(g, BackupDirs(stamp) + item.dirs).None? ==>
              !BackupThere(g, stamp, item) &&
              (BackupPassed(g, stamp, item) <==> Gone(g, BackupDirs(stamp) + item.dirs))
  {
  }

  /** Recreates an absent original from its quarantine. */
  method FromQuarantine(m: Machine, item: Item, secret: Option<nat>, nonce: string, dst: Key)
        returns (outcome: Outcome)
    requires m.Valid() && !m.committed && !m.ledger.calm && Steady(m.ledger) && Located(m.ledger, item, dst)
    requires CleanPath(item.dirs) && !(RESTORE_PREFIX <= item.leaf)
    modifies m
    ensures m.Valid() && !m.committed && m.Onward()
    ensures outcome != AlreadyPresent
    ensures outcome == Restored ==> Grows(old(m.ledger), m.ledger) && Steady(m.ledger)
    ensures outcome == Restored && m.ledger.alone ==> Published(old(m.ledger), m.ledger, dst, item)
    ensures outcome == Restored ==> Reappeared(m.history, |old(m.history)|, dst, item)
    ensures m.Faultless() && old(m.ledger).alone && HasSecret(item.evidence, secret) ==>
              (outcome == Restored <==>
               QuarantineThere(old(m.ledger), item, dst.dir) && NamesFree(old(m.ledger), dst, item, nonce))
  {
    hide Machine.Valid, Passed, Longer, NodesKept, Published, IsEntry, Grows, Steady, Reached, Sound, Ordered, Upholds,
      Discovers, HasSecret, CleanPath, QuarantineName, NamesFree, Located, MayPublish, Reappeared, Verified;
    HistoryGrows();
    ReappearedStays();
    ghost var start := m.history;
    ghost var g := m.ledger;
    outcome := Refused;
    if item.quarantine.None? { return; }
    var q, absent := OpenDirectory(m, dst.dir, item.quarantine.value);
    ghost var c := m.ledger;
    LocatedGrows(g, c, item, dst);
    LocatedName(c, item, dst);
    Uncommitted(m);
    LocatedFacts(c, item, dst);
    LongerLength(start, m.history);
    if q.None? { return; }
    var verified;
    verified, outcome := RestoreFrom(m, Key(q.value, item.leaf), dst, item, secret, nonce);
    if outcome == Restored { GrowsTransitive(g, c, m.ledger); GrowsKnown(c, m.ledger); }
  }

  /** Recreates an absent original from the backup or the quarantine. */
  method Recover(m: Machine, b: Ino, ghost stamp: string, item: Item, secret: Option<nat>, nonce: string, dst: Key)
        returns (outcome: Outcome)
    requires m.Valid() && !m.committed && !m.ledger.calm && Steady(m.ledger) && Located(m.ledger, item, dst)
    requires Reached(m.ledger, BackupDirs(stamp), b) && !QuarantineName(stamp) && CleanPath(item.dirs)
    requires !(RESTORE_PREFIX <= item.leaf)
    modifies m
    ensures m.Valid() && !m.committed && m.Onward()
    ensures outcome != AlreadyPresent
    ensures outcome == Restored ==> Grows(old(m.ledger), m.ledger) && Steady(m.ledger)
    ensures outcome == Restored && m.ledger.alone ==> Published(old(m.ledger), m.ledger, dst, item)
    ensures outcome == Restored ==> Reappeared(m.history, |old(m.history)|, dst, item)
    ensures m.Faultless() && old(m.ledger).alone && HasSecret(item.evidence, secret) ==>
              (outcome == Restored <==> Recoverable(old(m.ledger), stamp, item, nonce, dst))
  {
    hide Machine.Valid, Passed, Longer, NodesKept, Published, IsEntry, Grows, Steady, Reached, Sound, Ordered, Upholds,
      Discovers, HasSecret, CleanPath, QuarantineName, NamesFree, BackupThere, BackupPassed, QuarantineThere, Located,
      MayPublish, Reappeared, Verified;
    HistoryGrows();
    ReappearedStays();
    ghost var start := m.history;
    ghost var g := m.ledger;
    var next;
    outcome, next := FromBackup(m, b, stamp, item, secret, nonce, dst);
    if g.alone { PassedIsNotThere(g, stamp, item); }
    if !next { return; }
    ghost var a := m.ledger;
    LocatedGrows(g, a, item, dst);
    LongerLength(start, m.history);
    outcome := FromQuarantine(m, item, secret, nonce, dst);
    if outcome == Restored { GrowsTransitive(g, a, m.ledger); GrowsKnown(a, m.ledger); }
  }

  lemma PassedIsNotThere(g: Ledger, stamp: string, item: Item)
    ensures !(BackupPassed(g, stamp, item) && BackupThere(g, stamp, item))
  {
    hide IsEntry, Gone;
    var dirs := BackupDirs(stamp) + item.dirs;
    assert dirs[..|dirs|] == dirs;
    if Gone(g, dirs) && KeptDirectory(g, dirs).Some? { GoneIsNext(g, dirs, |dirs|); }
  }

  lemma LocatedName(g: Ledger, item: Item, dst: Key)
    requires Located(g, item, dst)
    ensures dst.name == item.leaf
  {
  }

  lemma BackupIsAt(g: Ledger, stamp: string, item: Item, src: Key)
    requires Reached(g, BackupDirs(stamp) + item.dirs, src.dir) && src.name == item.leaf
    ensures BackupThere(g, stamp, item) <==> IsEntry(g, src, item.evidence, item.meta, 1)
    ensures BackupPassed(g, stamp, item) <==> !IsEntry(g, src, item.evidence, item.meta, 1)
  {
    hide IsEntry, Gone;
    ArrivedAt(g, BackupDirs(stamp) + item.dirs, src.dir);
  }

  /** The integrity key of the transaction, as Restore demands to find it. */
  ghost predicate KeyThere(g: Ledger, owner: nat, b: Ino, secret: nat) {
    var k := Key(b, KEY_NAME);
    && Seen(g, k) && NodeAt(g, k).Regular? && NodeAt(g, k).content == KeyFile(secret)
    && NodeAt(g, k).meta.mode == MODE_0600 && NodeAt(g, k).meta.uid == owner
  }

  /** Reads the integrity key, only when the receipt has private entries. */
  method ReadKey(m: Machine, b: Ino, items: seq<Item>, ghost expected: nat) returns (ok: bool, secret: Option<nat>)
    requires m.Valid()
    modifies m
    ensures m.Valid() && m.OnlyRead()
    ensures ok && NeedsKey(items) ==> secret.Some?
    ensures m.Faultless() && KeyThere(m.ledger, m.disk.owner, b, expected) && NeedsKey(items) ==>
              ok && secret == Some(expected)
    ensures m.Faultless() && !NeedsKey(items) ==> ok
  {
    hide Machine.Valid, Passed;
    ok, secret := true, None;
    if i :| 0 <= i < |items| && items[i].evidence.Private? {
      ok := false;
      var k := Key(b, KEY_NAME);
      var info := m.Inspect(k);
      if !info.Found? || !info.node.Regular? || info.node.meta.mode != MODE_0600 || info.node.meta.uid != m.disk.owner {
        return;
      }
      if Size(info.node.content) != PRIVATE_INTEGRITY_KEY_BYTES { return; }
      var data := ReadRegular(m, k, PRIVATE_INTEGRITY_KEY_BYTES);
      if data.None? || !data.value.KeyFile? { return; }
      ok, secret := true, Some(data.value.secret);
    }
  }

  /** The items whose original had to be recreated, or was there (`present`). */
  function Picked(items: seq<Item>, flags: seq<bool>, present: bool): seq<Item>
    requires |items| == |flags|
  {
    if items == [] then []
    else
      var n := |items| - 1;
      Picked(items[..n], flags[..n], present) + (if flags[n] == present then [items[n]] else [])
  }

  lemma {:induction false} PickedPartition(items: seq<Item>, flags: seq<bool>)
    requires |items| == |flags|
    ensures multiset(Picked(items, flags, false)) + multiset(Picked(items, flags, true)) == multiset(items)
    ensures |Picked(items, flags, false)| + |Picked(items, flags, true)| == |items|
  {
    if items != [] {
      var n := |items| - 1;
      PickedPartition(items[..n], flags[..n]);
      assert items == items[..n] + [items[n]];
      PickedOne(items, flags, false);
      PickedOne(items, flags, true);
      var kept := multiset(Picked(items[..n], flags[..n], false));
      var there := multiset(Picked(items[..n], flags[..n], true));
      assert kept + there + multiset{items[n]} == multiset(items);
    }
  }

  lemma PickedOne(items: seq<Item>, flags: seq<bool>, present: bool)
    requires |items| == |flags| > 0
    ensures var n := |items| - 1;
      multiset(Picked(items, flags, present)) == multiset(Picked(items[..n], flags[..n], present)) +
        (if flags[n] == present then multiset{items[n]} else multiset{})
  {
  }

  lemma {:induction false} PickedAll(items: seq<Item>, flags: seq<bool>)
    requires |items| == |flags| && forall i :: 0 <= i < |flags| ==> flags[i]
    ensures Picked(items, flags, false) == [] && Picked(items, flags, true) == items
  {
    if items != [] {
      var n := |items| - 1;
      PickedAll(items[..n], flags[..n]);
      assert items == items[..n] + [items[n]];
    }
  }

  datatype Report = Report(restored: seq<Item>, present: seq<Item>)

  /** After the first items: each original is the reviewed entry, the flags tell which
      were there already, and no other name was added. */
  ghost predicate Progress(start: Ledger, g: Ledger, items: seq<Item>, keys: seq<Key>, flags: seq<bool>) {
    && Grows(start, g) && |keys| == |flags| == |items|
    && (forall i ::
          0 <= i < |items| ==>
            Located(g, items[i], keys[i]) && IsEntry(g, keys[i], items[i].evidence, items[i].meta, 1))
    && (forall i :: 0 <= i < |items| ==> Flagged(start, keys, flags, i))
    && (forall k :: k in g.seen && k !in start.seen ==> k in keys && k in g.kept && g.seen[k] in g.synced)
  }

  /** Present: there at the start, or just recreated for an earlier item. */
  ghost predicate Flagged(start: Ledger, keys: seq<Key>, flags: seq<bool>, i: nat)
    requires i < |keys| == |flags|
  {
    flags[i] <==> keys[i] in start.seen || keys[i] in keys[..i]
  }

  lemma FlaggedStays(start: Ledger, keys: seq<Key>, flags: seq<bool>, k: Key, flag: bool)
    requires |keys| == |flags| && forall i :: 0 <= i < |keys| ==> Flagged(start, keys, flags, i)
    requires flag <==> k in start.seen || k in keys
    ensures forall i :: 0 <= i < |keys + [k]| ==> Flagged(start, keys + [k], flags + [flag], i)
  {
    var all := keys + [k];
    forall i | 0 <= i < |all| ensures Flagged(start, all, flags + [flag], i) {
      assert all[..i] == keys[..i];
      if i < |keys| { assert Flagged(start, keys, flags, i); } else { assert keys[..i] == keys; }
    }
  }

  lemma NoProgress(start: Ledger)
    ensures Progress(start, start, [], [], [])
  {
    GrowsReflexive(start);
  }

  lemma ProgressEntries(g: Ledger, h: Ledger, items: seq<Item>, keys: seq<Key>)
    requires Grows(g, h) && g.alone && |keys| == |items|
    requires forall i :: 0 <= i < |items| ==> CleanPath(items[i].dirs)
    requires forall i ::
               0 <= i < |items| ==>
                 Located(g, items[i], keys[i]) && IsEntry(g, keys[i], items[i].evidence, items[i].meta, 1)
    ensures forall i ::
              0 <= i < |items| ==>
                Located(h, items[i], keys[i]) && IsEntry(h, keys[i], items[i].evidence, items[i].meta, 1)
  {
    hide Grows, IsEntry, CleanPath, Reached;
    forall i | 0 <= i < |items|
      ensures Located(h, items[i], keys[i]) && IsEntry(h, keys[i], items[i].evidence, items[i].meta, 1)
    {
      ReachedGrows(g, h, items[i].dirs, keys[i].dir);
      EntryStays(g, h, keys[i], items[i]);
    }
  }

  lemma ProgressPresent(start: Ledger, g: Ledger, items: seq<Item>, keys: seq<Key>, flags: seq<bool>, item: Item,
          dst: Key)
    requires Progress(start, g, items, keys, flags) && Located(g, item, dst)
    requires IsEntry(g, dst, item.evidence, item.meta, 1)
    ensures Progress(start, g, items + [item], keys + [dst], flags + [true])
  {
    hide Grows, Located, IsEntry, Flagged;
    IsEntryFits(g, dst, item.evidence, item.meta, 1);
    assert dst in start.seen || dst in keys;
    FlaggedStays(start, keys, flags, dst, true);
  }

  lemma ProgressRestored(start: Ledger, g: Ledger, h: Ledger, items: seq<Item>, keys: seq<Key>, flags: seq<bool>,
          item: Item, dst: Key)
    requires Progress(start, g, items, keys, flags) && Published(g, h, dst, item) && Located(h, item, dst)
    requires start.alone && g.alone
    requires forall i :: 0 <= i < |items| ==> CleanPath(items[i].dirs)
    ensures Progress(start, h, items + [item], keys + [dst], flags + [false])
  {
    hide Grows, Located, IsEntry, CleanPath, Flagged;
    ProgressEntries(g, h, items, keys);
    GrowsTransitive(start, g, h);
    GrowsSteady(start, g);
    GrowsSteady(g, h);
    EntriesSeen(g, items, keys);
    FlaggedStays(start, keys, flags, dst, false);
  }

  lemma EntriesSeen(g: Ledger, items: seq<Item>, keys: seq<Key>)
    requires |keys| == |items| &&
             forall i :: 0 <= i < |items| ==> IsEntry(g, keys[i], items[i].evidence, items[i].meta, 1)
    ensures forall k :: k in keys ==> k in g.seen
  {
  }

  /** Two items for the same place must be about the same entry. */
  ghost predicate SamePlace(g: Ledger, a: Item, b: Item) {
    KeptDirectory(g, a.dirs) == KeptDirectory(g, b.dirs) && a.leaf == b.leaf
  }

  ghost predicate Agree(a: Item, b: Item) {
    exists n: Node :: Fits(n, a.evidence, a.meta) && Fits(n, b.evidence, b.meta)
  }

  lemma FitsDetermines(n: Node, l: Node, evidence: Evidence, meta: Meta)
    requires Fits(n, evidence, meta) && Fits(l, evidence, meta)
    ensures n == l
  {
  }

  lemma AgreedEntry(g: Ledger, k: Key, a: Item, b: Item)
    requires IsEntry(g, k, a.evidence, a.meta, 1) && Agree(a, b)
    ensures IsEntry(g, k, b.evidence, b.meta, 1)
  {
    var n :| Fits(n, a.evidence, a.meta) && Fits(n, b.evidence, b.meta);
    FitsDetermines(n, NodeAt(g, k), a.evidence, a.meta);
  }

  /** The absent original of one item is a missing directory on the way to the backup of
      another. */
  ghost predicate Obstructs(g: Ledger, stamp: string, done: Item, item: Item) {
    KeptDirectory(g, done.dirs).Some? && Place(g, done) !in g.seen &&
    OnTheWay(g, BackupDirs(stamp) + item.dirs, Place(g, done))
  }

  ghost predicate OnTheWay(g: Ledger, dirs: seq<string>, k: Key) {
    exists n :: 0 <= n < |dirs| && StepsOver(g, dirs, n, k)
  }

  ghost predicate StepsOver(g: Ledger, dirs: seq<string>, n: nat, k: Key)
    requires n < |dirs|
  {
    KeptDirectory(g, dirs[..n]) == Some(k.dir) && dirs[n] == k.name
  }

  /** The items from `i` on can be recovered. */
  ghost predicate RestRestorable(g: Ledger, stamp: string, items: seq<Item>, i: nat, nonce: string) {
    && (forall j :: i <= j < |items| ==> RestorableItem(g, stamp, items[j], nonce))
    && (forall j, l ::
          i <= j < |items| && i <= l < |items| && SamePlace(g, items[j], items[l]) ==> Agree(items[j], items[l]))
    && (forall j, l ::
          i <= j < |items| && i <= l < |items| && Obstructs(g, stamp, items[j], items[l]) ==>
            BackupThere(g, stamp, items[l]))
  }

  /** What a disk must offer for Restore to succeed. */
  ghost predicate Restorable(g: Ledger, owner: nat, stamp: string, items: seq<Item>, nonce: string, secret: nat) {
    && (forall n :: 1 <= n <= 5 ==> HierarchyLevel(g, owner, stamp, n))
    && (NeedsKey(items) ==>
          KeptDirectory(g, BackupDirs(stamp)).Some? &&
          KeyThere(g, owner, KeptDirectory(g, BackupDirs(stamp)).value, secret))
    && (forall i :: 0 <= i < |items| && items[i].evidence.Private? ==> items[i].evidence.tag.secret == secret)
    && RestRestorable(g, stamp, items, 0, nonce)
  }

  lemma PlaceStays(g: Ledger, h: Ledger, dirs: seq<string>)
    requires Grows(g, h) && CleanPath(dirs) && KeptDirectory(g, dirs).Some?
    ensures KeptDirectory(h, dirs) == KeptDirectory(g, dirs)
  {
    LookupStays(KeptNames(g), KeptNodes(g), KeptNames(h), KeptNodes(h), dirs);
  }

  lemma BackupThereStays(g: Ledger, h: Ledger, stamp: string, item: Item)
    requires BackupThere(g, stamp, item) && Grows(g, h) && g.alone && CleanPath(item.dirs) && !QuarantineName(stamp)
    ensures BackupThere(h, stamp, item)
  {
    hide IsEntry, Grows;
    CleanBackup(stamp, item.dirs);
    PlaceStays(g, h, BackupDirs(stamp) + item.dirs);
    EntryStays(g, h, Key(KeptDirectory(g, BackupDirs(stamp) + item.dirs).value, item.leaf), item);
  }

  /** Publishing adds no directory. */
  lemma RoutesSame(g: Ledger, h: Ledger, dst: Key, done: Item, dirs: seq<string>)
    requires Published(g, h, dst, done) && Steady(g) && Sound(g) && CleanPath(dirs)
    ensures KeptDirectory(h, dirs) == KeptDirectory(g, dirs)
  {
    hide CleanPath, Grows;
    IsEntryFits(h, dst, done.evidence, done.meta, 1);
    FitsOutline(NodeAt(h, dst), done.evidence, done.meta);
    GrowsSteady(g, h);
    LookupStays(KeptNames(g), KeptNodes(g), KeptNames(h), KeptNodes(h), dirs);
    LookupStays(KeptNames(h), KeptNodes(h), KeptNames(g), KeptNodes(g), dirs);
  }

  /** What was passed over as a backup is passed over still, or became one. */
  lemma PassedStays(g: Ledger, h: Ledger, stamp: string, done: Item, dst: Key, item: Item)
    requires Published(g, h, dst, done) && Steady(g) && Sound(g) && BackupPassed(g, stamp, item)
    requires !OnTheWay(g, BackupDirs(stamp) + item.dirs, dst) && CleanPath(item.dirs) && !QuarantineName(stamp)
    ensures BackupThere(h, stamp, item) || BackupPassed(h, stamp, item)
  {
    hide IsEntry, Published, Grows, Steady, Sound, CleanPath, QuarantineName;
    var dirs := BackupDirs(stamp) + item.dirs;
    CleanBackup(stamp, item.dirs);
    if Gone(g, dirs) {
      var n :| 0 <= n < |dirs| && GoneAt(g, dirs, n);
      CleanPrefix(dirs, n);
      RoutesSame(g, h, dst, done, dirs[..n]);
      PublishedSeen(g, h, dst, done);
      assert !StepsOver(g, dirs, n, dst);
      assert GoneAt(h, dirs, n);
    } else {
      RoutesSame(g, h, dst, done, dirs);
    }
  }

  lemma CleanPrefix(dirs: seq<string>, n: nat)
    requires CleanPath(dirs) && n <= |dirs|
    ensures CleanPath(dirs[..n])
  {
  }

  lemma PublishedSeen(g: Ledger, h: Ledger, dst: Key, done: Item)
    requires Published(g, h, dst, done)
    ensures dst !in g.seen && dst in h.seen && forall k :: k in h.seen <==> k in g.seen || k == dst
  {
  }

  lemma QuarantineStays(g: Ledger, h: Ledger, item: Item, dir: Ino)
    requires QuarantineThere(g, item, dir) && Grows(g, h) && g.alone
    ensures QuarantineThere(h, item, dir)
  {
    hide IsEntry, Grows;
    GrowsSteady(g, h);
    EntryStays(g, h, Key(g.seen[Key(dir, item.quarantine.value)], item.leaf), item);
  }

  lemma RestorableItemStays(g: Ledger, h: Ledger, stamp: string, done: Item, dst: Key, item: Item, nonce: string)
    requires Published(g, h, dst, done) && g.alone && KeptDirectory(g, done.dirs) == Some(dst.dir)
    requires dst.name == done.leaf && Steady(g) && Sound(g)
    requires RestorableItem(g, stamp, item, nonce) && (SamePlace(g, done, item) ==> Agree(done, item))
    requires Obstructs(g, stamp, done, item) ==> BackupThere(g, stamp, item)
    requires CleanPath(item.dirs) && !QuarantineName(stamp) && !(RESTORE_PREFIX <= done.leaf)
    ensures RestorableItem(h, stamp, item, nonce)
  {
    hide IsEntry, Grows, CleanPath, QuarantineName, Agree, BackupThere, BackupPassed, QuarantineThere, OnTheWay, Steady,
      Sound;
    PlaceStays(g, h, item.dirs);
    var k := Key(KeptDirectory(g, item.dirs).value, item.leaf);
    GrowsSteady(g, h);
    if k in g.seen {
      EntryStays(g, h, k, item);
    } else if k == dst {
      AgreedEntry(h, dst, done, item);
    } else {
      if BackupThere(g, stamp, item) {
        BackupThereStays(g, h, stamp, item);
      } else {
        assert !OnTheWay(g, BackupDirs(stamp) + item.dirs, dst);
        PassedStays(g, h, stamp, done, dst, item);
        QuarantineStays(g, h, item, k.dir);
      }
      assert RESTORE_PREFIX <= RestoreDirectory(nonce, item.rule);
    }
  }

  /** What obstructs later obstructed before. */
  lemma ObstructsBefore(g: Ledger, h: Ledger, stamp: string, dst: Key, last: Item, done: Item, item: Item)
    requires Published(g, h, dst, last) && Steady(g) && Sound(g) && Obstructs(h, stamp, done, item)
    requires CleanPath(done.dirs) && CleanPath(item.dirs) && !QuarantineName(stamp)
    ensures Obstructs(g, stamp, done, item)
  {
    hide Published, Grows, Steady, Sound, CleanPath, QuarantineName;
    RoutesSame(g, h, dst, last, done.dirs);
    PublishedSeen(g, h, dst, last);
    CleanBackup(stamp, item.dirs);
    var dirs, k := BackupDirs(stamp) + item.dirs, Place(h, done);
    var n :| 0 <= n < |dirs| && StepsOver(h, dirs, n, k);
    CleanPrefix(dirs, n);
    RoutesSame(g, h, dst, last, dirs[..n]);
    assert StepsOver(g, dirs, n, k);
  }

  lemma RestStays(g: Ledger, h: Ledger, stamp: string, items: seq<Item>, i: nat, dst: Key, nonce: string)
    requires i < |items| && Published(g, h, dst, items[i]) && g.alone && Located(h, items[i], dst)
    requires RestRestorable(g, stamp, items, i, nonce) && !QuarantineName(stamp) && Steady(g) && Sound(g)
    requires forall j :: 0 <= j < |items| ==> CleanPath(items[j].dirs) && !(RESTORE_PREFIX <= items[j].leaf)
    ensures RestRestorable(h, stamp, items, i + 1, nonce)
  {
    hide IsEntry, Grows, CleanPath, QuarantineName, Agree, BackupThere, CopyThere, Published, Obstructs, Steady, Sound,
      NamesFree;
    PublishedGrows(g, h, dst, items[i]);
    forall j | i <= j < |items|
      ensures KeptDirectory(h, items[j].dirs) == KeptDirectory(g, items[j].dirs)
      ensures KeptDirectory(g, items[j].dirs).Some?
    {
      assert RestorableItem(g, stamp, items[j], nonce);
      PlaceStays(g, h, items[j].dirs);
    }
    forall j | i + 1 <= j < |items| ensures RestorableItem(h, stamp, items[j], nonce) {
      RestorableItemStays(g, h, stamp, items[i], dst, items[j], nonce);
    }
    forall j, l | i + 1 <= j < |items| && i + 1 <= l < |items| && Obstructs(h, stamp, items[j], items[l])
      ensures BackupThere(h, stamp, items[l])
    {
      ObstructsBefore(g, h, stamp, dst, items[i], items[j], items[l]);
      BackupThereStays(g, h, stamp, items[l]);
    }
  }

  lemma PublishedGrows(g: Ledger, h: Ledger, dst: Key, item: Item)
    requires Published(g, h, dst, item)
    ensures Grows(g, h)
  {
  }

  lemma AcceptedFacts(rules: map<string, Rule>, items: seq<Item>)
    requires CompiledRules(rules) && Accepts(rules, items)
    ensures forall j :: 0 <= j < |items| ==> CleanPath(items[j].dirs) && !(RESTORE_PREFIX <= items[j].leaf)
  {
    hide CleanPath, EndsWith;
    forall j | 0 <= j < |items| ensures CleanPath(items[j].dirs) && !(RESTORE_PREFIX <= items[j].leaf) {
      assert AcceptsItem(rules, items[j]);
    }
  }

  lemma HasItsSecret(items: seq<Item>, i: nat, secret: Option<nat>, expected: nat)
    requires i < |items| && (items[i].evidence.Private? ==> items[i].evidence.tag.secret == expected)
    requires NeedsKey(items) ==> secret == Some(expected)
    ensures HasSecret(items[i].evidence, secret)
  {
  }

  ghost predicate Promising(m: Machine, g: Ledger, owner: nat, stamp: string, items: seq<Item>, nonce: string,
          secret: nat) {
    m.Faultless() && g.alone && Restorable(g, owner, stamp, items, nonce, secret)
  }

  /** Every original of a report, at its place and vouched for. */
  ghost predicate AllVouched(g: Ledger, h: seq<Moment>, from: nat, items: seq<Item>, keys: seq<Key>, flags: seq<bool>) {
    && |keys| == |flags| == |items|
    && forall i :: 0 <= i < |items| ==> Located(g, items[i], keys[i]) && Vouched(h, from, keys[i], items[i], flags[i])
  }

  lemma VouchedMore(g: Ledger, l: Ledger, h: seq<Moment>, k: seq<Moment>, from: nat, items: seq<Item>, keys: seq<Key>,
          flags: seq<bool>,
                    item: Item, dst: Key, present: bool)
    requires AllVouched(g, h, from, items, keys, flags) && Longer(h, k) && Grows(g, l) && from <= |h|
    requires Located(l, item, dst) && Vouched(k, |h|, dst, item, present) &&
             forall i :: 0 <= i < |items| ==> CleanPath(items[i].dirs)
    ensures AllVouched(l, k, from, items + [item], keys + [dst], flags + [present])
  {
    hide Verified, Reappeared, Grows, CleanPath, Reached, Longer;
    HistoryGrows();
    VerifiedStays();
    ReappearedStays();
    assert Longer(k, k);
    forall i | 0 <= i < |items| ensures Located(l, items[i], keys[i]) && Vouched(k, from, keys[i], items[i], flags[i]) {
      ReachedGrows(g, l, items[i].dirs, keys[i].dir);
    }
  }

  /** Restores every item of an accepted receipt, in order. */
  method RestoreAll(m: Machine, b: Ino, stamp: string, items: seq<Item>, secret: Option<nat>, nonce: string,
          ghost expected: nat)
      returns (report: Option<Report>, ghost keys: seq<Key>, ghost flags: seq<bool>)
    requires m.Valid() && !m.committed && !m.ledger.calm && Steady(m.ledger) && Reached(m.ledger, [], ROOT)
    requires Reached(m.ledger, BackupDirs(stamp), b) && !QuarantineName(stamp)
    requires forall j :: 0 <= j < |items| ==> CleanPath(items[j].dirs) && !(RESTORE_PREFIX <= items[j].leaf)
    modifies m
    ensures m.Valid() && !m.committed && m.Onward() && (report.Some? ==> m.ledger.alone == old(m.ledger).alone)
    ensures report.Some? ==> AllVouched(m.ledger, m.history, |old(m.history)|, items, keys, flags)
    ensures report.Some? ==> report.value == Report(Picked(items, flags, false), Picked(items, flags, true))
    ensures report.Some? && m.ledger.alone ==> Progress(old(m.ledger), m.ledger, items, keys, flags)
    ensures Promising(m, old(m.ledger), old(m.disk).owner, stamp, items, nonce, expected) &&
            (NeedsKey(items) ==> secret == Some(expected)) ==>
              report.Some?
  {
    hide Machine.Valid, Grows, Steady, Reached, CleanPath, QuarantineName, Progress, RestRestorable, Located, IsEntry,
      Published, HasSecret, RestorableItem, Occupied, Place, Sound, Ordered, Upholds, NeedsKey, HierarchyLevel,
      KeyThere, Vouched, Longer, AllVouched, Picked;
    HistoryGrows();
    ghost var g, start := m.ledger, m.history;
    ghost var sure := Promising(m, g, m.disk.owner, stamp, items, nonce, expected) &&
                      (NeedsKey(items) ==> secret == Some(expected));
    GrowsReflexive(g);
    NoProgress(g);
    report, keys, flags := None, [], [];
    var restored, present: seq<Item> := [], [];
    var i := 0;
    assert items[..0] == [];
    NothingVouched(g, start);
    while i < |items|
      invariant i <= |items| && m.Valid() && !m.committed && !m.ledger.calm && Steady(m.ledger)
      invariant m.ledger.alone == g.alone && Grows(g, m.ledger)
      invariant m.Onward() && AllVouched(m.ledger, m.history, |start|, items[..i], keys, flags) && |flags| == i
      invariant g.alone ==> Progress(g, m.ledger, items[..i], keys, flags)
      invariant restored == Picked(items[..i], flags, false) && present == Picked(items[..i], flags, true)
      invariant sure ==> RestRestorable(m.ledger, stamp, items, i, nonce)
    {
      ghost var h, past := m.ledger, m.history;
      Uncommitted(m);
      RoutesStay(g, h, stamp, b);
      if sure { HasItsSecret(items, i, secret, expected); RestIncludes(h, stamp, items, i, nonce); }
      var outcome; ghost var dst;
      outcome, dst := RestoreItem(m, b, stamp, items[i], secret, nonce);
      if outcome == Refused { return; }
      GrowsKnown(h, m.ledger);
      GrowsTransitive(g, h, m.ledger);
      assert items[..i + 1] == items[..i] + [items[i]];
      LongerLength(start, past);
      VouchedMore(h, m.ledger, past, m.history, |start|, items[..i], keys, flags, items[i], dst,
                  outcome == AlreadyPresent);
      PickedMore(items[..i], flags, items[i], outcome == AlreadyPresent);
      if outcome == AlreadyPresent {
        if g.alone { ProgressPresent(g, m.ledger, items[..i], keys, flags, items[i], dst); }
        if sure { RestLess(m.ledger, stamp, items, i, nonce); }
        present := present + [items[i]];
      } else {
        if g.alone { ProgressRestored(g, h, m.ledger, items[..i], keys, flags, items[i], dst); }
        if sure { RestStays(h, m.ledger, stamp, items, i, dst, nonce); }
        restored := restored + [items[i]];
      }
      keys, flags := keys + [dst], flags + [outcome == AlreadyPresent];
      i := i + 1;
    }
    assert items[..i] == items;
    report := Some(Report(restored, present));
  }

  lemma NothingVouched(g: Ledger, h: seq<Moment>)
    ensures AllVouched(g, h, |h|, [], [], []) && Picked([], [], false) == [] && Picked([], [], true) == []
  {
  }

  lemma RoutesStay(g: Ledger, h: Ledger, stamp: string, b: Ino)
    requires Reached(g, [], ROOT) && Reached(g, BackupDirs(stamp), b) && Grows(g, h) && !QuarantineName(stamp)
    ensures Reached(h, [], ROOT) && Reached(h, BackupDirs(stamp), b)
  {
    CleanBackup(stamp, []);
    ReachedGrows(g, h, [], ROOT);
    ReachedGrows(g, h, BackupDirs(stamp), b);
  }

  lemma RestIncludes(g: Ledger, stamp: string, items: seq<Item>, i: nat, nonce: string)
    requires i < |items| && RestRestorable(g, stamp, items, i, nonce)
    ensures RestorableItem(g, stamp, items[i], nonce)
  {
  }

  lemma RestLess(g: Ledger, stamp: string, items: seq<Item>, i: nat, nonce: string)
    requires i < |items| && RestRestorable(g, stamp, items, i, nonce)
    ensures RestRestorable(g, stamp, items, i + 1, nonce)
  {
  }

  lemma PickedMore(items: seq<Item>, flags: seq<bool>, item: Item, flag: bool)
    requires |items| == |flags|
    ensures Picked(items + [item], flags + [flag], flag) == Picked(items, flags, flag) + [item]
    ensures Picked(items + [item], flags + [flag], !flag) == Picked(items, flags, !flag)
  {
    assert (items + [item])[..|items|] == items && (flags + [flag])[..|items|] == flags;
  }

  /** Restore, from a fresh process on an opened root.  Nothing that is visible is
      overwritten or lost; a report means that every original is as reviewed. */
  method Restore(m: Machine, rules: map<string, Rule>, receipt: Receipt, nonce: string, ghost expected: nat)
      returns (report: Option<Report>, ghost keys: seq<Key>, ghost flags: seq<bool>)
    requires m.Valid() && !m.committed && m.ledger == m.start && !m.ledger.calm && Steady(m.ledger)
    requires Reached(m.ledger, [], ROOT)
    requires CompiledRules(rules) && !QuarantineName(receipt.stamp)
    modifies m
    ensures m.Valid() && !m.committed && m.Onward() && (report.Some? ==> m.ledger.alone == m.start.alone)
    ensures report.Some? ==> Accepts(rules, receipt.changes)
    ensures report.Some? ==> AllVouched(m.ledger, m.history, |old(m.history)|, receipt.changes, keys, flags)
    ensures report.Some? ==>
              report.value == Report(Picked(receipt.changes, flags, false), Picked(receipt.changes, flags, true))
    ensures report.Some? && m.ledger.alone ==> Progress(m.start, m.ledger, receipt.changes, keys, flags)
    ensures Accepts(rules, receipt.changes) &&
            Promising(m, m.start, old(m.disk).owner, receipt.stamp, receipt.changes, nonce, expected) ==>
              report.Some?
  {
    hide Machine.Valid, Grows, Steady, Reached, CleanPath, QuarantineName, Progress, RestRestorable, HierarchyLevel,
      KeyThere, NeedsKey, Accepts, CompiledRules, Discovers, Passed, NodesKept, Longer, Vouched;
    HistoryGrows();
    ghost var g, start := m.ledger, m.history;
    report, keys, flags := None, [], [];
    var ok := ValidateReceipt(rules, receipt.changes);
    if !ok { return; }
    if receipt.changes == [] {
      NoProgress(g);
      NothingVouched(g, start);
      return Some(Report([], [])), [], [];
    }
    AcceptedFacts(rules, receipt.changes);
    var b := OpenHierarchy(m, receipt.stamp, 5);
    assert BackupDirs(receipt.stamp)[..5] == BackupDirs(receipt.stamp);
    DiscoversGrows(g, m.ledger);
    GrowsKnown(g, m.ledger);
    if b.None? { return; }
    NoPath();
    ReachedGrows(g, m.ledger, [], ROOT);
    ReachedIs(m.ledger, receipt.stamp, b.value);
    var keyed, secret := ReadKey(m, b.value, receipt.changes, expected);
    if !keyed { return; }
    ghost var past := m.history;
    LongerLength(start, past);
    report, keys, flags := RestoreAll(m, b.value, receipt.stamp, receipt.changes, secret, nonce, expected);
    if report.Some? { VouchedSince(m.ledger, m.history, |start|, |past|, receipt.changes, keys, flags); }
  }

  lemma VouchedSince(g: Ledger, h: seq<Moment>, from: nat, later: nat, items: seq<Item>, keys: seq<Key>,
          flags: seq<bool>)
    requires AllVouched(g, h, later, items, keys, flags) && from <= later
    ensures AllVouched(g, h, from, items, keys, flags)
  {
    hide Verified, Reappeared, Located, Longer;
    HistoryGrows();
    VerifiedStays();
    ReappearedStays();
    assert Longer(h, h);
  }

  lemma ReachedIs(g: Ledger, stamp: string, b: Ino)
    requires Reached(g, BackupDirs(stamp), b)
    ensures KeptDirectory(g, BackupDirs(stamp)) == Some(b)
  {
  }
}
