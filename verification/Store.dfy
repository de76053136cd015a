/** The private content-addressed store, shared by any number of processes.  Before
    every filesystem call other processes may do anything that the protocol allows
    them; each own change is recorded and must itself be allowed by the protocol. */
module HandoffStore {
  import opened Wrappers
  import opened HandoffLayout

  const PRIVATE_DIRECTORY := 448  // 0700
  const PRIVATE_FILE := 384       // 0600

  datatype File = File(bytes: string, mode: nat)

  /** One directory tree, by relative path. */
  datatype Tree = Tree(dirs: map<Path, nat>, files: map<Path, File>)

  /** A direct child of the store root: a content address, or the fresh name of a
      staging or isolation directory. */
  datatype Name = Address(id: Digest) | Fresh(serial: nat)

  type Entries = map<Name, Tree>

  /** Whether the bytes of a manifest decode, and to which payloads. */
  type Decoder = string -> Option<seq<Record>>

  ghost predicate Matches(tree: Tree, payloads: seq<Record>) {
    && IsLayoutOf(Layout(tree.dirs.Keys, tree.files.Keys), payloads)
    && (forall d :: d in tree.dirs ==> tree.dirs[d] == PRIVATE_DIRECTORY)
    && (forall f :: f in tree.files ==> tree.files[f].mode == PRIVATE_FILE)
    && (forall i ::
          0 <= i < |payloads| ==>
            payloads[i].path in tree.files && Holds(tree.files[payloads[i].path].bytes, payloads[i]))
  }

  predicate Holds(bytes: string, r: Record) {
    |bytes| == r.size && Sha256(bytes) == r.digest
  }

  /** A complete entry: the manifest hashes to its address, and the tree is exactly
      what the manifest declares. */
  ghost predicate Complete(decode: Decoder, tree: Tree, id: Digest) {
    && MANIFEST in tree.files && Sha256(tree.files[MANIFEST].bytes) == id
    && decode(tree.files[MANIFEST].bytes).Some? && Matches(tree, decode(tree.files[MANIFEST].bytes).value)
  }

  /** An address determines its complete entry. */
  lemma CompleteIsUnique(decode: Decoder, a: Tree, b: Tree, id: Digest)
    requires Complete(decode, a, id) && Complete(decode, b, id)
    ensures a == b
  {
    var payloads := decode(a.files[MANIFEST].bytes).value;
    assert a.files[MANIFEST].bytes == b.files[MANIFEST].bytes;
    LayoutIsUnique(Layout(a.dirs.Keys, a.files.Keys), Layout(b.dirs.Keys, b.files.Keys), payloads);
    assert a.dirs == b.dirs;
    forall f | f in a.files ensures f in b.files && a.files[f] == b.files[f] {
      if f != MANIFEST {
        var i :| 0 <= i < |payloads| && payloads[i].path == f;
        assert Holds(a.files[f].bytes, payloads[i]) && Holds(b.files[f].bytes, payloads[i]);
      }
    }
    assert a.files == b.files;
  }

  function View(e: Entries, n: Name): Option<Tree> {
    if n in e then Some(e[n]) else None
  }

  /** A content-address path is absent or a complete entry. */
  ghost predicate Sound(decode: Decoder, e: Entries) {
    forall id :: Address(id) in e ==> Complete(decode, e[Address(id)], id)
  }

  /** What other processes may do while this one holds the fresh names `mine`. */
  ghost predicate Rely(decode: Decoder, mine: set<Name>, a: Entries, b: Entries) {
    Sound(decode, b) && forall n :: n in mine ==> View(b, n) == View(a, n)
  }

  /** What one filesystem call of a process does to the store.  `Elsewhere` is what
      other processes do before the process's n-th call. */
  datatype Act =
    | Elsewhere(n: nat)
    | Made(at: Name)
    | Worked(at: Name)
    | Published(id: Digest, at: Name)
    | Isolated(id: Digest, at: Name)
    | PutBack(id: Digest, at: Name)
    | Emptied(at: Name)

  const NEW_TREE := Tree(map[[] := PRIVATE_DIRECTORY], map[])

  /** The tree under one's own name gets an address that nothing has. */
  ghost predicate Fills(decode: Decoder, mine: set<Name>, mine': set<Name>, a: Entries, b: Entries, id: Digest,
          at: Name) {
    && at in mine && at in a && mine' == mine - {at}
    && Address(id) !in a && Complete(decode, a[at], id) && b == (a - {at})[Address(id) := a[at]]
  }

  /** The changes that a process holding `mine` may make, and what it holds then. */
  ghost predicate Guarantee(decode: Decoder, mine: set<Name>, mine': set<Name>, a: Entries, b: Entries, act: Act) {
    match act
    case Elsewhere(_) => false
    case Made(at) => at.Fresh? && at !in a && mine' == mine + {at} && b == a[at := NEW_TREE]
    case Worked(at) => at in mine && at in b && mine' == mine && b == a[at := b[at]]
    case Published(id, at) => Fills(decode, mine, mine', a, b, id, at)
    case Isolated(id, at) =>
      Address(id) in a && at.Fresh? && at !in a && mine' == mine + {at} &&
      b == (a - {Address(id)})[at := a[Address(id)]]
    case PutBack(id, at) => Fills(decode, mine, mine', a, b, id, at)
    case Emptied(at) => at in mine && mine' == mine - {at} && b == a - {at}
  }

  ghost predicate Owns(mine: set<Name>, e: Entries) {
    forall n :: n in mine ==> n.Fresh? && n in e
  }

  /** Every such change keeps the store sound and what the process holds in it. */
  lemma GuaranteeIsSound(decode: Decoder, mine: set<Name>, mine': set<Name>, a: Entries, b: Entries, act: Act)
    requires Guarantee(decode, mine, mine', a, b, act) && Sound(decode, a) && Owns(mine, a)
    ensures Sound(decode, b) && Owns(mine', b)
  {
    hide Complete;
    forall id | Address(id) in b ensures Complete(decode, b[Address(id)], id) {
      assert Address(id) in a || act.Published? || act.PutBack?;
    }
  }

  /** The changes of one process are what every other one relies on. */
  lemma GuaranteeIsRely(decode: Decoder, mine: set<Name>, mine': set<Name>, theirs: set<Name>, a: Entries, b: Entries,
          act: Act)
    requires Guarantee(decode, mine, mine', a, b, act) && Sound(decode, a) && Owns(mine, a) && Owns(theirs, a)
    requires mine !! theirs
    ensures Rely(decode, theirs, a, b) && mine' !! theirs && Owns(theirs, b)
  {
    hide Complete, Sound;
    GuaranteeIsSound(decode, mine, mine', a, b, act);
    forall n | n in theirs ensures View(b, n) == View(a, n) { }
  }

  /** The whole system: the store, and the fresh names that each process holds. */
  datatype World = World(entries: Entries, held: map<nat, set<Name>>)

  ghost predicate Orderly(decode: Decoder, w: World) {
    && Sound(decode, w.entries)
    && (forall p :: p in w.held ==> Owns(w.held[p], w.entries))
    && (forall p, q :: p in w.held && q in w.held && p != q ==> w.held[p] !! w.held[q])
  }

  /** One change by process `p`, whatever the others were doing. */
  ghost predicate Moves(decode: Decoder, w: World, v: World, p: nat, act: Act) {
    && p in w.held && v.held.Keys == w.held.Keys && (forall q :: q in w.held && q != p ==> v.held[q] == w.held[q])
    && Guarantee(decode, w.held[p], v.held[p], w.entries, v.entries, act)
  }

  lemma StepStaysOrderly(decode: Decoder, w: World, v: World, p: nat, act: Act)
    requires Orderly(decode, w) && Moves(decode, w, v, p, act)
    ensures Orderly(decode, v)
    ensures forall q :: q in w.held && q != p ==> Rely(decode, w.held[q], w.entries, v.entries)
  {
    hide Sound, Guarantee, Owns, Rely;
    GuaranteeIsSound(decode, w.held[p], v.held[p], w.entries, v.entries, act);
    forall q | q in w.held && q != p
      ensures Rely(decode, w.held[q], w.entries, v.entries) && v.held[p] !! v.held[q] && Owns(v.held[q], v.entries)
    {
      GuaranteeIsRely(decode, w.held[p], v.held[p], w.held[q], w.entries, v.entries, act);
    }
  }

  lemma OrderlyIsSound(decode: Decoder, w: World)
    requires Orderly(decode, w)
    ensures Sound(decode, w.entries)
  {
  }

  ghost predicate Interleaving(decode: Decoder, run: seq<World>) {
    forall i :: 0 < i < |run| ==> Follows(decode, run[i - 1], run[i])
  }

  ghost predicate Follows(decode: Decoder, w: World, v: World) {
    exists p, act :: Moves(decode, w, v, p, act)
  }

  /** In every interleaving of the allowed changes, every address is absent or complete. */
  lemma {:induction false} EveryRunIsSound(decode: Decoder, run: seq<World>, i: nat)
    requires i < |run| && Orderly(decode, run[0]) && Interleaving(decode, run)
    ensures Orderly(decode, run[i]) && Sound(decode, run[i].entries)
  {
    hide Orderly, Moves, Sound;
    if i > 0 {
      EveryRunIsSound(decode, run, i - 1);
      assert Follows(decode, run[i - 1], run[i]);
      var p, act :| Moves(decode, run[i - 1], run[i], p, act);
      StepStaysOrderly(decode, run[i - 1], run[i], p, act);
    }
    OrderlyIsSound(decode, run[i]);
  }

  /** Between two moments an address changes only as a whole: a complete entry is
      taken away or brought in, and what is brought in is the same entry again. */
  lemma AddressIsStable(decode: Decoder, run: seq<World>, i: nat, j: nat, id: Digest)
    requires i < |run| && j < |run| && Orderly(decode, run[0]) && Interleaving(decode, run)
    requires Address(id) in run[i].entries && Address(id) in run[j].entries
    ensures run[i].entries[Address(id)] == run[j].entries[Address(id)]
  {
    hide Complete;
    EveryRunIsSound(decode, run, i);
    EveryRunIsSound(decode, run, j);
    CompleteIsUnique(decode, run[i].entries[Address(id)], run[j].entries[Address(id)], id);
  }

  // ---- what one process lived through

  datatype Step = Step(before: Entries, after: Entries, mine: set<Name>, mine': set<Name>, act: Act)

  type Environment = (nat, set<Name>, Entries) -> Entries

  /** A process: what others do before its calls, where it began, and every change of
      the store since then, its own ones and theirs. */
  datatype Process = Process(others: Environment, origin: Entries, history: seq<Step>)

  ghost predicate Told(decode: Decoder, others: Environment, s: Step) {
    if s.act.Elsewhere? then s.after == others(s.act.n, s.mine, s.before) && s.mine' == s.mine
    else Guarantee(decode, s.mine, s.mine', s.before, s.after, s.act)
  }

  function Latest(origin: Entries, history: seq<Step>): Entries {
    if history == [] then origin else history[|history| - 1].after
  }

  function HeldAfter(history: seq<Step>): set<Name> {
    if history == [] then {} else history[|history| - 1].mine'
  }

  /** Each change is allowed, and begins where the one before it ended. */
  ghost predicate Chronicle(decode: Decoder, p: Process) {
    forall i :: 0 <= i < |p.history| ==>
      && Told(decode, p.others, p.history[i])
      && p.history[i].before == Latest(p.origin, p.history[..i]) && p.history[i].mine == HeldAfter(p.history[..i])
  }

  lemma ChronicleMore(decode: Decoder, p: Process, s: Step)
    requires Chronicle(decode, p) && Told(decode, p.others, s)
    requires s.before == Latest(p.origin, p.history) && s.mine == HeldAfter(p.history)
    ensures Chronicle(decode, p.(history := p.history + [s]))
  {
    hide Told, Latest, HeldAfter;
    var more := p.history + [s];
    forall i | 0 <= i < |more|
      ensures Told(decode, p.others, more[i])
      ensures more[i].before == Latest(p.origin, more[..i]) && more[i].mine == HeldAfter(more[..i])
    {
      assert more[..i] == p.history[..i];
      if i == |p.history| { assert p.history[..i] == p.history; }
    }
  }

  // ---- any number of processes, merged into one run

  /** The changes that a process made itself. */
  function Own(history: seq<Step>): seq<Step> {
    if history == [] then []
    else
      var n := |history| - 1;
      if history[n].act.Elsewhere? then Own(history[..n]) else Own(history[..n]) + [history[n]]
  }

  /** A change in the common run, and who made it. */
  datatype Event = Event(who: nat, step: Step)

  function Of(events: seq<Event>, p: nat): seq<Step> {
    if events == [] then []
    else
      var n := |events| - 1;
      if events[n].who == p then Of(events[..n], p) + [events[n].step] else Of(events[..n], p)
  }

  function EntriesAfter(start: Entries, events: seq<Event>): Entries {
    if events == [] then start else events[|events| - 1].step.after
  }

  /** One run of all processes: each made its own changes in its own order, and each
      change began where the one before it, by whomever, had ended. */
  ghost predicate Merged(start: Entries, events: seq<Event>, all: map<nat, Process>) {
    && (forall i ::
          0 <= i < |events| ==> events[i].who in all && events[i].step.before == EntriesAfter(start, events[..i]))
    && (forall p :: p in all ==> Own(all[p].history) == Of(events, p))
  }

  function WorldAfter(start: Entries, events: seq<Event>, all: map<nat, Process>): World {
    World(EntriesAfter(start, events), map p | p in all :: HeldAfter(Of(events, p)))
  }

  function Worlds(start: Entries, events: seq<Event>, all: map<nat, Process>): (run: seq<World>)
    ensures |run| == |events| + 1 && forall i :: 0 <= i <= |events| ==> run[i] == WorldAfter(start, events[..i], all)
  {
    seq(|events| + 1, i requires 0 <= i <= |events| => WorldAfter(start, events[..i], all))
  }

  /** What others do changes nothing about what a process holds. */
  lemma {:induction false} OwnHolds(decode: Decoder, p: Process)
    requires Chronicle(decode, p)
    ensures HeldAfter(Own(p.history)) == HeldAfter(p.history)
    ensures forall k :: 0 <= k < |Own(p.history)| ==> OwnStep(decode, Own(p.history), k)
    decreases |p.history|
  {
    hide Guarantee;
    if p.history != [] {
      var n := |p.history| - 1;
      var less := p.(history := p.history[..n]);
      assert Told(decode, p.others, p.history[n]) && p.history[n].mine == HeldAfter(less.history);
      ChronicleBefore(decode, p);
      OwnHolds(decode, less);
      OwnMore(decode, Own(less.history), p.history[n]);
    }
  }

  lemma ChronicleBefore(decode: Decoder, p: Process)
    requires Chronicle(decode, p) && p.history != []
    ensures Chronicle(decode, p.(history := p.history[..|p.history| - 1]))
  {
    hide Told, Latest, HeldAfter;
    var less := p.history[..|p.history| - 1];
    forall i | 0 <= i < |less|
      ensures Told(decode, p.others, less[i]) && less[i].before == Latest(p.origin, less[..i])
      ensures less[i].mine == HeldAfter(less[..i])
    {
      assert less[..i] == p.history[..i] && less[i] == p.history[i];
    }
  }

  lemma OwnMore(decode: Decoder, own: seq<Step>, s: Step)
    requires forall k :: 0 <= k < |own| ==> OwnStep(decode, own, k)
    ensures s.mine == HeldAfter(own) && Guarantee(decode, s.mine, s.mine', s.before, s.after, s.act) ==>
              forall k :: 0 <= k < |own + [s]| ==> OwnStep(decode, own + [s], k)
  {
    hide Guarantee, HeldAfter;
    forall k | 0 <= k < |own| ensures OwnStep(decode, own + [s], k) {
      assert OwnStep(decode, own, k) && (own + [s])[..k] == own[..k];
    }
    assert (own + [s])[..|own|] == own;
  }

  ghost predicate OwnStep(decode: Decoder, own: seq<Step>, k: nat)
    requires k < |own|
  {
    && own[k].mine == HeldAfter(own[..k])
    && Guarantee(decode, own[k].mine, own[k].mine', own[k].before, own[k].after, own[k].act)
  }

  lemma {:induction false} OfIsPrefix(events: seq<Event>, i: nat, p: nat)
    requires i <= |events|
    ensures Of(events[..i], p) <= Of(events, p)
    decreases |events| - i
  {
    if i == |events| {
      assert events[..i] == events;
    } else {
      OfIsPrefix(events, i + 1, p);
      OfMore(events, i, p);
    }
  }

  lemma OfMore(events: seq<Event>, i: nat, p: nat)
    requires i < |events|
    ensures Of(events[..i + 1], p) == if events[i].who == p then Of(events[..i], p) + [events[i].step]
            else Of(events[..i], p)
  {
    assert events[..i + 1][..i] == events[..i];
  }

  /** The merged processes move one at a time, each as it is allowed to. */
  lemma MergedMoves(decode: Decoder, start: Entries, events: seq<Event>, all: map<nat, Process>, i: nat)
    requires Merged(start, events, all) && i < |events| && forall p :: p in all ==> Chronicle(decode, all[p])
    ensures var run := Worlds(start, events, all); Moves(decode, run[i], run[i + 1], events[i].who, events[i].step.act)
  {
    hide Chronicle, Guarantee, Own, Of, HeldAfter;
    var p, step := events[i].who, events[i].step;
    forall q | q in all
      ensures Of(events[..i + 1], q) == if p == q then Of(events[..i], q) + [step] else Of(events[..i], q)
    {
      OfMore(events, i, q);
    }
    OwnHolds(decode, all[p]);
    OfIsPrefix(events, i + 1, p);
    var own, k := Own(all[p].history), |Of(events[..i], p)|;
    assert own[..k] == Of(events[..i], p) && own[k] == step;
    assert OwnStep(decode, own, k);
    HeldLast(Of(events[..i], p), step);
    assert events[..i + 1][i] == events[i];
  }

  lemma HeldLast(history: seq<Step>, s: Step)
    ensures HeldAfter(history + [s]) == s.mine'
  {
  }

  /** In every run of any processes, whatever they were doing, all of them move as
      allowed, and after every change each address is absent or complete and each
      process still holds its own names. */
  lemma EveryMergeIsSound(decode: Decoder, start: Entries, events: seq<Event>, all: map<nat, Process>, i: nat)
    requires Merged(start, events, all) && i <= |events| && Sound(decode, start) &&
             forall p :: p in all ==> Chronicle(decode, all[p])
    ensures Interleaving(decode, Worlds(start, events, all)) && Orderly(decode, Worlds(start, events, all)[0])
    ensures Orderly(decode, Worlds(start, events, all)[i]) && Sound(decode, EntriesAfter(start, events[..i]))
  {
    hide Chronicle, Moves, Sound, Merged;
    var run := Worlds(start, events, all);
    forall j | 0 < j < |run| ensures Follows(decode, run[j - 1], run[j]) {
      MergedMoves(decode, start, events, all, j - 1);
    }
    assert events[..0] == [];
    EveryRunIsSound(decode, run, i);
  }

  /** Between two changes of one process the others only do what it relies on. */
  lemma {:induction false} OthersKeepTheirWord(decode: Decoder, start: Entries, events: seq<Event>,
          all: map<nat, Process>, p: nat, i: nat, j: nat)
    requires Merged(start, events, all) && Sound(decode, start) && p in all &&
             forall q :: q in all ==> Chronicle(decode, all[q])
    requires i <= j <= |events| && forall k :: i <= k < j ==> events[k].who != p
    ensures HeldAfter(Of(events[..j], p)) == HeldAfter(Of(events[..i], p))
    ensures Rely(decode, HeldAfter(Of(events[..i], p)), EntriesAfter(start, events[..i]),
                 EntriesAfter(start, events[..j]))
    decreases j
  {
    hide Chronicle, Moves, Sound, Merged, Orderly, HeldAfter, Of, EntriesAfter;
    EveryMergeIsSound(decode, start, events, all, j);
    if i < j {
      OthersKeepTheirWord(decode, start, events, all, p, i, j - 1);
      EveryMergeIsSound(decode, start, events, all, j - 1);
      MergedMoves(decode, start, events, all, j - 1);
      var run := Worlds(start, events, all);
      assert p in run[j - 1].held by { assert run[j - 1] == WorldAfter(start, events[..j - 1], all); }
      StepStaysOrderly(decode, run[j - 1], run[j], events[j - 1].who, events[j - 1].step.act);
      OfMore(events, j - 1, p);
    }
  }

  function AddDirectory(t: Tree, p: Path): Tree {
    t.(dirs := t.dirs[p := PRIVATE_DIRECTORY])
  }

  function PutFile(t: Tree, p: Path, bytes: string): Tree {
    t.(files := t.files[p := File(bytes, PRIVATE_FILE)])
  }

  predicate Vacant(t: Tree, p: Path) {
    p != [] && p !in t.dirs && p !in t.files && Parent(p) in t.dirs
  }

  predicate EmptyDirectory(t: Tree, p: Path) {
    p in t.dirs && (forall d :: d in t.dirs && d != [] ==> Parent(d) != p) &&
    (forall f :: f in t.files && f != [] ==> Parent(f) != p)
  }

  /** From `from` on only other processes changed anything. */
  ghost predicate OnlyOthers(history: seq<Step>, from: nat) {
    forall i :: from <= i < |history| ==> history[i].act.Elsewhere?
  }

  /** From history `h` and store `a` to `l` and `b` only others changed anything, and
      nothing under the own names. */
  ghost predicate Idle(mine: set<Name>, h: seq<Step>, l: seq<Step>, a: Entries, b: Entries) {
    h <= l && OnlyOthers(l, |h|) && forall n :: n in mine ==> View(b, n) == View(a, n)
  }

  lemma IdleMore(mine: set<Name>, h: seq<Step>, k: seq<Step>, l: seq<Step>, a: Entries, b: Entries, c: Entries)
    requires Idle(mine, h, k, a, b) && Idle(mine, k, l, b, c)
    ensures Idle(mine, h, l, a, c)
  {
    forall n | n in mine ensures View(c, n) == View(a, n) { assert View(c, n) == View(b, n); }
  }

  lemma IdleGrows()
    ensures forall m: set<Name>, h: seq<Step>, a: Entries :: Idle(m, h, h, a, a)
    ensures forall m: set<Name>, h: seq<Step>, k: seq<Step>, l: seq<Step>, a: Entries, b: Entries, c: Entries
              {:trigger Idle(m, h, k, a, b), Idle(m, k, l, b, c)} ::
              Idle(m, h, k, a, b) && Idle(m, k, l, b, c) ==> Idle(m, h, l, a, c)
  {
    hide Idle;
    forall m: set<Name>, h: seq<Step>, k: seq<Step>, l: seq<Step>, a: Entries, b: Entries, c: Entries
      | Idle(m, h, k, a, b) && Idle(m, k, l, b, c)
      ensures Idle(m, h, l, a, c)
    {
      IdleMore(m, h, k, l, a, b, c);
    }
    forall m: set<Name>, h: seq<Step>, a: Entries ensures Idle(m, h, h, a, a) { NothingIsIdle(m, h, a); }
  }

  lemma NothingIsIdle(m: set<Name>, h: seq<Step>, a: Entries)
    ensures Idle(m, h, h, a, a)
  {
  }

  lemma IdleKeeps(m: set<Name>, h: seq<Step>, l: seq<Step>, a: Entries, b: Entries, n: Name)
    requires Idle(m, h, l, a, b) && n in m
    ensures View(b, n) == View(a, n)
  {
  }

  /** From `from` on the process changed nothing but the tree under its own name. */
  ghost predicate OnlyOn(history: seq<Step>, from: nat, n: Name) {
    forall i :: from <= i < |history| ==> history[i].act.Elsewhere? || history[i].act == Worked(n)
  }

  /** From history `h` and store `a` to `l` and `b` nothing else changed under the own
      names. */
  ghost predicate Working(mine: set<Name>, n: Name, h: seq<Step>, l: seq<Step>, a: Entries, b: Entries) {
    h <= l && OnlyOn(l, |h|, n) && forall k :: k in mine && k != n ==> View(b, k) == View(a, k)
  }

  lemma WorkMore(mine: set<Name>, n: Name, h: seq<Step>, k: seq<Step>, l: seq<Step>, a: Entries, b: Entries,
          c: Entries)
    requires Working(mine, n, h, k, a, b) && Working(mine, n, k, l, b, c)
    ensures Working(mine, n, h, l, a, c)
  {
    forall m | m in mine && m != n ensures View(c, m) == View(a, m) { assert View(c, m) == View(b, m); }
  }

  lemma IdleIsWork(mine: set<Name>, n: Name, h: seq<Step>, l: seq<Step>, a: Entries, b: Entries)
    requires Idle(mine, h, l, a, b)
    ensures Working(mine, n, h, l, a, b)
  {
  }

  lemma WorkGrows(n: Name)
    ensures forall m: set<Name>, h: seq<Step>, a: Entries :: Working(m, n, h, h, a, a)
    ensures forall m: set<Name>, h: seq<Step>, l: seq<Step>, a: Entries, b: Entries ::
              Idle(m, h, l, a, b) ==> Working(m, n, h, l, a, b)
    ensures forall m: set<Name>, h: seq<Step>, k: seq<Step>, l: seq<Step>, a: Entries, b: Entries, c: Entries
              {:trigger Working(m, n, h, k, a, b), Working(m, n, k, l, b, c)} ::
              Working(m, n, h, k, a, b) && Working(m, n, k, l, b, c) ==> Working(m, n, h, l, a, c)
  {
    hide Working, Idle;
    forall m: set<Name>, h: seq<Step>, k: seq<Step>, l: seq<Step>, a: Entries, b: Entries, c: Entries
      | Working(m, n, h, k, a, b) && Working(m, n, k, l, b, c)
      ensures Working(m, n, h, l, a, c)
    {
      WorkMore(m, n, h, k, l, a, b, c);
    }
    forall m: set<Name>, h: seq<Step>, l: seq<Step>, a: Entries, b: Entries | Idle(m, h, l, a, b)
      ensures Working(m, n, h, l, a, b)
    {
      IdleIsWork(m, n, h, l, a, b);
    }
    forall m: set<Name>, h: seq<Step>, a: Entries ensures Working(m, n, h, h, a, a) {
      NothingIsIdle(m, h, a);
      IdleIsWork(m, n, h, h, a, a);
    }
  }

  ghost predicate SomeFree(names: nat -> Name, e: Entries, c: nat, attempts: nat) {
    exists k: nat :: c <= k < c + attempts && names(k) !in e
  }

  ghost predicate AlwaysFree(names: nat -> Name, e: Entries, attempts: nat) {
    forall c: nat :: SomeFree(names, e, c, attempts)
  }

  /** How often a free name is drawn for a new directory. */
  const FRESH_ATTEMPTS := 10000

  class Store {
    const decode: Decoder
    const fails: nat -> bool
    const others: Environment
    const source: nat -> Tree          // what the source directory holds at each call
    const names: nat -> Name           // the fresh names that are drawn
    var entries: Entries
    var clock: nat
    var mine: set<Name>
    ghost const origin: Entries
    ghost var history: seq<Step>

    ghost predicate Lawful() {
      && (forall n, m, e :: Sound(decode, e) ==> Rely(decode, m, e, others(n, m, e)))
      && (forall n :: names(n).Fresh?)
      && (forall b, i :: decode(b).Some? && 0 <= i < |decode(b).value| ==> decode(b).value[i].path != [])
    }

    ghost predicate Faultless() {
      forall n :: !fails(n)
    }

    /** Nobody else does anything. */
    ghost predicate Quiet() {
      forall n, m, e :: others(n, m, e) == e
    }

    /** The source directory always holds the same tree. */
    ghost predicate Steady() {
      forall n :: source(n) == source(0)
    }

    /** What the process may rely on finding again: its own names, and any when alone. */
    ghost predicate Held(n: Name)
      reads this
    {
      n in mine || (Quiet() && n in entries)
    }

    /** Among so many names drawn in a row one is not in use. */
    ghost predicate Draws(attempts: nat)
      reads this
    {
      AlwaysFree(names, entries, attempts)
    }

    ghost function AsProcess(): Process
      reads this
    {
      Process(others, origin, history)
    }

    /** The store is what the recorded changes made of it. */
    ghost predicate Valid()
      reads this
    {
      && Lawful() && Sound(decode, entries) && Owns(mine, entries)
      && Chronicle(decode, AsProcess()) && Latest(origin, history) == entries && HeldAfter(history) == mine
    }

    constructor (decode: Decoder, fails: nat -> bool, others: Environment, source: nat -> Tree, names: nat -> Name,
            entries: Entries)
      requires forall n, m, e :: Sound(decode, e) ==> Rely(decode, m, e, others(n, m, e))
      requires (forall n :: names(n).Fresh?) && Sound(decode, entries)
      requires forall b, i :: decode(b).Some? && 0 <= i < |decode(b).value| ==> decode(b).value[i].path != []
      ensures Valid() && this.entries == this.origin == entries && history == [] && mine == {} && this.decode == decode
    {
      this.decode, this.fails, this.others, this.source, this.names := decode, fails, others, source, names;
      this.entries, this.origin, this.clock, this.mine, this.history := entries, entries, 0, {}, [];
    }

    /** The history only grows. */
    twostate predicate Later()
      reads this
    {
      old(history) <= history
    }

    /** Only other processes changed anything, and nothing under own names. */
    twostate predicate Waited()
      reads this
    {
      && mine == old(mine) && Idle(mine, old(history), history, old(entries), entries)
      && (Quiet() ==> entries == old(entries))
    }

    /** The process made one change, after others had acted. */
    twostate predicate Acted(act: Act)
      reads this
    {
      && Later() && |history| > |old(history)| && history[|history| - 1].act == act
      && OnlyOthers(history[..|history| - 1], |old(history)|)
    }

    /** Of all own names only the tree under `n` may have changed. */
    twostate predicate Touched(n: Name)
      reads this
    {
      && mine == old(mine) && n in mine && Working(mine, n, old(history), history, old(entries), entries)
      && (Quiet() ==> n in entries && entries == old(entries)[n := entries[n]])
    }

    twostate predicate Changed(n: Name, tree: Tree)
      reads this
    {
      Touched(n) && n in entries && entries[n] == tree
    }

    /** Enters one finished change into the history. */
    ghost method Tell(before: Entries, held: set<Name>, act: Act)
      requires Lawful() && Sound(decode, entries) && Owns(mine, entries)
      requires Chronicle(decode, AsProcess()) && Latest(origin, history) == before && HeldAfter(history) == held
      requires Told(decode, others, Step(before, entries, held, mine, act))
      modifies this`history
      ensures Valid() && history == old(history) + [Step(before, entries, held, mine, act)]
    {
      hide Told, Sound, Chronicle, Owns;
      ChronicleMore(decode, AsProcess(), Step(before, entries, held, mine, act));
      history := history + [Step(before, entries, held, mine, act)];
    }

    /** Other processes act. */
    method Wait() returns (failing: bool)
      requires Valid()
      modifies this`entries, this`clock, this`history
      ensures Valid() && Waited() && clock == old(clock) + 1
      ensures |history| > |old(history)| && Latest(origin, history) == entries
      ensures Faultless() ==> !failing
    {
      hide Chronicle, Sound;
      assert Rely(decode, mine, entries, others(clock, mine, entries));
      failing := fails(clock);
      ghost var before, n := entries, clock;
      entries, clock := others(clock, mine, entries), clock + 1;
      forall n | n in mine ensures n in entries { assert View(entries, n) == View(before, n); }
      Tell(before, mine, Elsewhere(n));
    }

    /** Changes the tree under one of the process's own names. */
    method Change(n: Name, tree: Tree)
      requires Valid() && n in mine
      modifies this`entries, this`history
      ensures Valid() && Changed(n, tree)
    {
      hide Chronicle, Sound;
      ghost var before := entries;
      entries := entries[n := tree];
      GuaranteeIsSound(decode, mine, mine, before, entries, Worked(n));
      Tell(before, mine, Worked(n));
    }

    /** Makes a new private directory, drawing names until nothing has the name. */
    method MakeFresh() returns (n: Option<Name>)
      requires Valid()
      modifies this
      ensures Valid()
      ensures n.None? ==> Waited()
      ensures n.Some? ==>
                n.value.Fresh? && n.value !in old(mine) && mine == old(mine) + {n.value} && entries[n.value] == NEW_TREE
      ensures n.Some? ==>
                Acted(Made(n.value)) && forall k :: k in old(mine) ==> View(entries, k) == View(old(entries), k)
      ensures n.Some? && Quiet() ==> n.value !in old(entries) && entries == old(entries)[n.value := NEW_TREE]
      ensures Faultless() && Quiet() && old(Draws(FRESH_ATTEMPTS)) ==> n.Some?
    {
      hide Chronicle, Sound, Lawful, AlwaysFree;
      ghost var free := if Draws(FRESH_ATTEMPTS) then FreeDraw(FRESH_ATTEMPTS) else 0;
      var attempt := 0;
      while attempt < FRESH_ATTEMPTS
        invariant attempt <= FRESH_ATTEMPTS && Valid() && Waited() && clock == old(clock) + attempt
        invariant Quiet() ==> forall k :: old(clock) <= k < old(clock) + attempt ==> names(k) in entries
      {
        var name := names(clock);
        var failing := Wait();
        if failing { return None; }
        if name !in entries {
          NamesAreFresh(name);
          Bind(name);
          return Some(name);
        }
        attempt := attempt + 1;
      }
      n := None;
    }

    lemma NamesAreFresh(name: Name)
      requires Valid() && exists k: nat :: names(k) == name
      ensures name.Fresh?
    {
      hide Chronicle, Sound;
    }

    /** Where the next free name is drawn. */
    ghost function FreeDraw(attempts: nat): (k: nat)
      requires Draws(attempts)
      reads this
      ensures clock <= k < clock + attempts && names(k) !in entries
    {
      assert SomeFree(names, entries, clock, attempts);
      var k: nat :| clock <= k < clock + attempts && names(k) !in entries;
      k
    }

    /** The directory of a new name. */
    method Bind(name: Name)
      requires Valid() && name !in entries && name.Fresh?
      modifies this`entries, this`mine, this`history
      ensures Valid() && Later() && |history| == |old(history)| + 1 && history[|old(history)|].act == Made(name)
      ensures mine == old(mine) + {name} && name !in old(mine) && entries == old(entries)[name := NEW_TREE]
    {
      hide Chronicle, Sound;
      ghost var before := entries;
      entries, mine := entries[name := NEW_TREE], mine + {name};
      GuaranteeIsSound(decode, old(mine), mine, before, entries, Made(name));
      Tell(before, old(mine), Made(name));
    }

    method Mkdir(n: Name, p: Path) returns (ok: bool)
      requires Valid() && n in mine
      modifies this
      ensures Valid() && Changed(n, if ok then AddDirectory(old(entries)[n], p) else old(entries)[n])
      ensures ok ==> Vacant(old(entries)[n], p)
      ensures Faultless() && Vacant(old(entries)[n], p) ==> ok
    {
      hide Chronicle, Sound;
      var failing := Wait();
      assert View(entries, n) == View(old(entries), n);
      if failing || !Vacant(entries[n], p) { return false; }
      Change(n, AddDirectory(entries[n], p));
      ok := true;
    }

    /** Creates one new private file and then writes its bytes. */
    method WriteFile(n: Name, p: Path, bytes: string) returns (ok: bool)
      requires Valid() && n in mine
      modifies this
      ensures Valid() && Touched(n)
      ensures ok ==> Vacant(old(entries)[n], p) && entries[n] == PutFile(old(entries)[n], p, bytes)
      ensures Faultless() && Vacant(old(entries)[n], p) ==> ok
    {
      hide Valid, Idle, Working, Vacant;
      WorkGrows(n);
      OwnIsThere(n);
      ghost var h, first := history, entries;
      var failing := Wait();
      OwnIsThere(n);
      IdleKeeps(mine, h, history, first, entries, n);
      assert View(entries, n) == View(first, n);
      if failing || !Vacant(entries[n], p) { return false; }
      Change(n, PutFile(entries[n], p, ""));
      ghost var k, made := history, entries;
      failing := Wait();
      OwnIsThere(n);
      IdleKeeps(mine, k, history, made, entries, n);
      assert View(entries, n) == View(made, n);
      if failing { return false; }
      Change(n, PutFile(entries[n], p, bytes));
      ok := true;
    }

    lemma OwnIsThere(n: Name)
      requires Valid() && n in mine
      ensures n in entries
    {
      hide Chronicle, Sound, Lawful;
    }

    method RemoveFile(n: Name, p: Path) returns (ok: bool)
      requires Valid() && n in mine
      modifies this
      ensures Valid()
      ensures Changed(n, if ok then old(entries)[n].(files := old(entries)[n].files - {p}) else old(entries)[n])
      ensures Faultless() && p in old(entries)[n].files ==> ok
    {
      hide Chronicle, Sound;
      var failing := Wait();
      assert View(entries, n) == View(old(entries), n);
      if failing || p !in entries[n].files { return false; }
      Change(n, entries[n].(files := entries[n].files - {p}));
      ok := true;
    }

    /** Removes a directory below the root, when it is empty. */
    method RemoveDirectory(n: Name, p: Path) returns (ok: bool)
      requires Valid() && n in mine && p != []
      modifies this
      ensures Valid()
      ensures Changed(n, if ok then old(entries)[n].(dirs := old(entries)[n].dirs - {p}) else old(entries)[n])
      ensures ok ==> EmptyDirectory(old(entries)[n], p)
      ensures Faultless() && EmptyDirectory(old(entries)[n], p) ==> ok
    {
      hide Chronicle, Sound;
      var failing := Wait();
      assert View(entries, n) == View(old(entries), n);
      if failing || !EmptyDirectory(entries[n], p) { return false; }
      Change(n, entries[n].(dirs := entries[n].dirs - {p}));
      ok := true;
    }

    /** Gives up one of its own names, with whatever is under it. */
    method Drop(n: Name, wholly: bool) returns (ok: bool)
      requires Valid() && n in mine
      modifies this
      ensures Valid()
      ensures ok ==> Acted(Emptied(n)) && mine == old(mine) - {n} && n !in entries
      ensures ok ==> forall k :: k in mine ==> View(entries, k) == View(old(entries), k)
      ensures ok && Quiet() ==> entries == old(entries) - {n}
      ensures !ok ==> Waited()
      ensures Faultless() && (wholly || EmptyDirectory(old(entries)[n], [])) ==> ok
    {
      hide Chronicle, Sound;
      var failing := Wait();
      assert View(entries, n) == View(old(entries), n);
      if failing || !(wholly || EmptyDirectory(entries[n], [])) { return false; }
      ghost var before := entries;
      entries, mine := entries - {n}, mine - {n};
      assert forall k :: k in before && k != n ==> View(entries, k) == View(before, k);
      GuaranteeIsSound(decode, old(mine), mine, before, entries, Emptied(n));
      Tell(before, old(mine), Emptied(n));
      ok := true;
    }

    /** Renames a complete private tree to its address, never over anything. */
    method Publish(n: Name, id: Digest, again: bool) returns (ok: bool)
      requires Valid() && n in mine && Complete(decode, entries[n], id)
      modifies this
      ensures Valid()
      ensures ok ==> Acted(if again then PutBack(id, n) else Published(id, n)) && mine == old(mine) - {n}
      ensures ok ==> Address(id) in entries && entries[Address(id)] == old(entries)[n]
      ensures ok ==> forall k :: k in mine ==> View(entries, k) == View(old(entries), k)
      ensures ok && Quiet() ==> n in old(entries) && entries == (old(entries) - {n})[Address(id) := old(entries)[n]]
      ensures !ok ==> Waited()
      ensures Faultless() && Quiet() && Address(id) !in old(entries) ==> ok
    {
      hide Chronicle, Sound, Complete;
      var failing := Wait();
      assert View(entries, n) == View(old(entries), n);
      if failing || Address(id) in entries { return false; }
      ghost var before := entries;
      entries, mine := (entries - {n})[Address(id) := entries[n]], mine - {n};
      assert forall k :: k in before && k != n ==> View(entries, k) == View(before, k);
      GuaranteeIsSound(decode, old(mine), mine, before, entries, Published(id, n));
      Tell(before, old(mine), if again then PutBack(id, n) else Published(id, n));
      ok := true;
    }

    /** Renames the entry at an address to a private name, never over anything. */
    method Isolate(id: Digest, n: Name) returns (ok: bool)
      requires Valid() && n.Fresh?
      modifies this
      ensures Valid()
      ensures !ok ==> Waited()
      ensures ok ==>
                Acted(Isolated(id, n)) && n !in old(mine) && mine == old(mine) + {n} && n in entries &&
                Complete(decode, entries[n], id)
      ensures ok ==> forall k :: k in old(mine) ==> View(entries, k) == View(old(entries), k)
      ensures ok ==>
                Address(id) in history[|history| - 1].before && history[|history| - 1].before[Address(id)] == entries[n]
      ensures ok && Quiet() ==>
                Address(id) in old(entries) && n !in old(entries) &&
                entries == (old(entries) - {Address(id)})[n := old(entries)[Address(id)]]
      ensures Faultless() && Quiet() && Address(id) in old(entries) && n !in old(entries) ==> ok
    {
      hide Chronicle, Complete;
      var failing := Wait();
      if failing || Address(id) !in entries || n in entries { return false; }
      ghost var before := entries;
      entries, mine := (entries - {Address(id)})[n := entries[Address(id)]], mine + {n};
      assert forall k :: k in before && k != Address(id) ==> View(entries, k) == View(before, k);
      GuaranteeIsSound(decode, old(mine), mine, before, entries, Isolated(id, n));
      Tell(before, old(mine), Isolated(id, n));
      ok := true;
    }
  }

  /** Any stores, each used by its process for any Imports and Purges, in any common
      run of what they did: every address is always absent or a complete entry. */
  lemma StoresStaySound(stores: seq<Store>, decode: Decoder, start: Entries, events: seq<Event>, i: nat)
    requires i <= |events| && Sound(decode, start) &&
             forall p :: 0 <= p < |stores| ==> stores[p].Valid() && stores[p].decode == decode
    requires Merged(start, events, map p: nat | p < |stores| :: stores[p].AsProcess())
    ensures Sound(decode, EntriesAfter(start, events[..i]))
    ensures Interleaving(decode, Worlds(start, events, map p: nat | p < |stores| :: stores[p].AsProcess()))
  {
    hide Chronicle, Sound, Merged, Interleaving, Orderly, Store.Lawful;
    EveryMergeIsSound(decode, start, events, map p: nat | p < |stores| :: stores[p].AsProcess(), i);
  }
}
