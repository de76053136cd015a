/** Directories as the hardware doctor sees them, and what a bounded breadth-first sweep
    of them has seen. */
module DeviceTree {

  type Path = seq<string>

  datatype Kind = Directory | Regular | Symlink | OtherKind
  datatype Entry = Entry(name: string, kind: Kind)
  datatype Answer<+T> = Got(value: T) | Absent | Failed

  /** The tree at one moment. */
  datatype View = View(dirs: Path -> Answer<seq<Entry>>, files: Path -> Answer<string>, stats: Path -> Answer<Kind>)

  const MAXIMUM_ENTRIES := 2048
  const MAXIMUM_CHILDREN := 256
  const MAXIMUM_DEPTH := 12

  function ReadDir(view: View, p: Path): Answer<seq<Entry>> {
    match view.dirs(p)
    case Got(entries) => if |entries| > MAXIMUM_CHILDREN then Failed else Got(entries)
    case other => other
  }

  function ReadFile(view: View, p: Path, limit: nat): Answer<string> {
    match view.files(p)
    case Got(content) => if |content| > limit then Failed else Got(content)
    case other => other
  }

  predicate SafeLeaf(name: string) {
    && 0 < |name| <= 255 && name != "." && name != ".."
    && forall c :: c in name ==> c != '/' && c != '\\' && c >= ' ' && c as int != 0x7f
  }

  predicate Followed(entry: Entry) {
    SafeLeaf(entry.name) && entry.kind == Directory
  }

  ghost predicate Child(view: View, p: Path, name: string) {
    ReadDir(view, p).Got? &&
    exists i ::
      0 <= i < |ReadDir(view, p).value| && Followed(ReadDir(view, p).value[i]) && ReadDir(view, p).value[i].name == name
  }

  /** A directory that can be reached from the root through safe directory names. */
  ghost predicate Reach(view: View, root: Path, p: Path)
    decreases |p|
  {
    p == root || (|p| > |root| && Reach(view, root, p[..|p| - 1]) && Child(view, p[..|p| - 1], p[|p| - 1]))
  }

  lemma {:induction false} ReachIsBelow(view: View, root: Path, p: Path)
    requires Reach(view, root, p)
    ensures |p| >= |root| && (|p| == |root| ==> p == root)
    decreases |p|
  {
  }

  datatype Item = Item(path: Path, depth: nat)

  predicate Queued(queue: seq<Item>, p: Path) {
    exists i :: 0 <= i < |queue| && queue[i].path == p
  }

  /** The directories done and queued so far of a sweep that goes down to the limit. */
  ghost predicate Swept(view: View, root: Path, done: set<Path>, queue: seq<Item>, limit: nat) {
    Placed(view, root, done, queue, limit) && Closed(view, root, done, queue, limit) && Levelled(root, done, queue)
  }

  ghost predicate At(view: View, root: Path, item: Item, limit: nat) {
    Reach(view, root, item.path) && |item.path| - |root| == item.depth <= limit
  }

  ghost predicate Placed(view: View, root: Path, done: set<Path>, queue: seq<Item>, limit: nat) {
    && (forall p :: p in done ==> Reach(view, root, p) && |p| - |root| <= limit)
    && (forall i :: 0 <= i < |queue| ==> At(view, root, queue[i], limit))
  }

  /** Every child of what is done is done or queued. */
  ghost predicate Closed(view: View, root: Path, done: set<Path>, queue: seq<Item>, limit: nat) {
    && (root in done || Queued(queue, root))
    && (forall p, name ::
          p in done && Child(view, p, name) && |p| - |root| < limit ==> p + [name] in done || Queued(queue, p + [name]))
  }

  /** Nearer directories come first. */
  ghost predicate Levelled(root: Path, done: set<Path>, queue: seq<Item>) {
    && (forall i, j :: 0 <= i < j < |queue| ==> queue[i].depth <= queue[j].depth <= queue[i].depth + 1)
    && (forall p :: p in done && queue != [] ==> |p| - |root| <= queue[0].depth)
  }

  lemma SweepStarts(view: View, root: Path, limit: nat)
    ensures Swept(view, root, {}, [Item(root, 0)], limit)
  {
    assert [Item(root, 0)][0].path == root;
  }

  ghost predicate Below(view: View, current: Item, item: Item) {
    && item.depth == current.depth + 1 && |item.path| == |current.path| + 1
    && item.path[..|current.path|] == current.path && Child(view, current.path, item.path[|current.path|])
  }

  /** What one directory adds to the queue. */
  ghost predicate Adds(view: View, current: Item, more: seq<Item>, limit: nat) {
    && (forall i :: 0 <= i < |more| ==> Below(view, current, more[i]) && current.depth < limit)
    && (current.depth < limit ==>
         forall name :: Child(view, current.path, name) ==> Queued(more, current.path + [name]))
  }

  lemma SweepGoesOn(view: View, root: Path, done: set<Path>, queue: seq<Item>, limit: nat, more: seq<Item>)
    requires Swept(view, root, done, queue, limit) && queue != [] && Adds(view, queue[0], more, limit)
    ensures Swept(view, root, done + {queue[0].path}, queue[1..] + more, limit)
  {
    hide Reach, Child, Queued;
    StaysPlaced(view, root, done, queue, limit, more);
    StaysClosed(view, root, done, queue, limit, more);
    StaysLevelled(view, root, done, queue, limit, more);
  }

  lemma StaysPlaced(view: View, root: Path, done: set<Path>, queue: seq<Item>, limit: nat, more: seq<Item>)
    requires Placed(view, root, done, queue, limit) && queue != [] && Adds(view, queue[0], more, limit)
    ensures Placed(view, root, done + {queue[0].path}, queue[1..] + more, limit)
  {
    hide Child;
    var current := queue[0];
    assert At(view, root, current, limit);
    forall i | 0 <= i < |more| ensures At(view, root, more[i], limit) {
      var c := more[i].path;
      assert Below(view, current, more[i]);
      assert c[..|c| - 1] == current.path;
      ReachIsBelow(view, root, current.path);
    }
  }

  lemma StaysClosed(view: View, root: Path, done: set<Path>, queue: seq<Item>, limit: nat, more: seq<Item>)
    requires Closed(view, root, done, queue, limit) && queue != [] && Adds(view, queue[0], more, limit)
    requires |queue[0].path| - |root| == queue[0].depth
    ensures Closed(view, root, done + {queue[0].path}, queue[1..] + more, limit)
  {
    hide Reach, Child;
    var current, next := queue[0], queue[1..] + more;
    forall p | Queued(queue, p) && p != current.path ensures Queued(next, p) {
      var i :| 0 <= i < |queue| && queue[i].path == p;
      assert next[i - 1] == queue[i];
    }
    forall p | Queued(more, p) ensures Queued(next, p) {
      var i :| 0 <= i < |more| && more[i].path == p;
      assert next[|queue| - 1 + i] == more[i];
    }
  }

  lemma StaysLevelled(view: View, root: Path, done: set<Path>, queue: seq<Item>, limit: nat, more: seq<Item>)
    requires Placed(view, root, done, queue, limit) && Levelled(root, done, queue) && queue != []
    requires Adds(view, queue[0], more, limit)
    ensures Levelled(root, done + {queue[0].path}, queue[1..] + more)
  {
    hide Reach, Child, Queued;
    assert At(view, root, queue[0], limit);
    var next := queue[1..] + more;
    forall i | |queue| - 1 <= i < |next| ensures next[i].depth == queue[0].depth + 1 {
      assert Below(view, queue[0], more[i - |queue| + 1]);
    }
  }

  /** When the queue is empty, every directory within the limit is done. */
  lemma {:induction false} SweptAll(view: View, root: Path, done: set<Path>, limit: nat, p: Path)
    requires Swept(view, root, done, [], limit) && Reach(view, root, p) && |p| - |root| <= limit
    ensures p in done
    decreases |p|
  {
    if p != root {
      var parent := p[..|p| - 1];
      SweptAll(view, root, done, limit, parent);
      assert parent + [p[|p| - 1]] == p;
    }
  }

  /** Everything nearer than the head of the queue is done. */
  lemma {:induction false} NearerIsDone(view: View, root: Path, done: set<Path>, queue: seq<Item>, limit: nat, p: Path)
    requires Swept(view, root, done, queue, limit) && queue != [] && Reach(view, root, p)
    requires |p| - |root| < queue[0].depth
    ensures p in done
    decreases |p|
  {
    if p != root {
      var parent := p[..|p| - 1];
      NearerIsDone(view, root, done, queue, limit, parent);
      assert parent + [p[|p| - 1]] == p;
    }
  }

  /** A directory with a given name, some levels below the root. */
  ghost predicate Named(view: View, root: Path, p: Path, name: string) {
    |p| > |root| && Reach(view, root, p) && p[|p| - 1] == name
  }

  /** No child of a done directory has the name, so no directory within reach has it. */
  lemma NoneNamed(view: View, root: Path, done: set<Path>, limit: nat, name: string, p: Path)
    requires Swept(view, root, done, [], limit) && forall d :: d in done ==> !Child(view, d, name)
    ensures !(Named(view, root, p, name) && |p| - |root| <= limit + 1)
  {
    if Named(view, root, p, name) && |p| - |root| <= limit + 1 {
      SweptAll(view, root, done, limit, p[..|p| - 1]);
      assert false;
    }
  }

  // ---- one directory's entries, queued in their order

  function Kids(entries: seq<Entry>, current: Item, limit: nat): (kids: seq<Item>)
    ensures |kids| <= |entries|
  {
    if entries == [] || current.depth >= limit then []
    else
      var last := entries[|entries| - 1];
      Kids(entries[..|entries| - 1], current, limit) + if Followed(last)
      then [Item(current.path + [last.name], current.depth + 1)] else []
  }

  ghost predicate DistinctNames(entries: seq<Entry>) {
    forall i, j :: 0 <= i < j < |entries| ==> entries[i].name != entries[j].name
  }

  /** A directory never lists a name twice. */
  ghost predicate Proper(view: View) {
    forall p :: ReadDir(view, p).Got? ==> DistinctNames(ReadDir(view, p).value)
  }

  lemma {:induction false} KidsFrom(entries: seq<Entry>, current: Item, limit: nat, i: nat) returns (j: nat)
    requires i < |Kids(entries, current, limit)|
    ensures current.depth < limit && j < |entries| && Followed(entries[j])
    ensures Kids(entries, current, limit)[i] == Item(current.path + [entries[j].name], current.depth + 1)
  {
    var less := entries[..|entries| - 1];
    if i < |Kids(less, current, limit)| { j := KidsFrom(less, current, limit, i); } else { j := |less|; }
  }

  lemma {:induction false} KidsHave(entries: seq<Entry>, current: Item, limit: nat, j: nat)
    requires current.depth < limit && j < |entries| && Followed(entries[j])
    ensures Queued(Kids(entries, current, limit), current.path + [entries[j].name])
  {
    var n := |entries| - 1;
    var kids, fewer := Kids(entries, current, limit), Kids(entries[..n], current, limit);
    if j < n {
      KidsHave(entries[..n], current, limit, j);
      var i :| 0 <= i < |fewer| && fewer[i].path == current.path + [entries[j].name];
      assert kids[i] == fewer[i];
    } else {
      assert kids[|fewer|].path == current.path + [entries[n].name];
    }
  }

  lemma {:induction false} KidsDiffer(entries: seq<Entry>, current: Item, limit: nat)
    requires DistinctNames(entries)
    ensures Different(Paths(Kids(entries, current, limit)))
  {
    if entries != [] && current.depth < limit {
      var n := |entries| - 1;
      var kids, fewer := Kids(entries, current, limit), Kids(entries[..n], current, limit);
      KidsDiffer(entries[..n], current, limit);
      if |kids| > |fewer| {
        forall i | 0 <= i < |fewer| ensures fewer[i].path != kids[|fewer|].path {
          var j := KidsFrom(entries[..n], current, limit, i);
          assert fewer[i].path[|current.path|] == entries[j].name;
        }
      }
    }
  }

  lemma KidsAdd(view: View, current: Item, limit: nat)
    requires ReadDir(view, current.path).Got?
    ensures Adds(view, current, Kids(ReadDir(view, current.path).value, current, limit), limit)
  {
    var entries := ReadDir(view, current.path).value;
    var kids := Kids(entries, current, limit);
    forall i | 0 <= i < |kids| ensures Below(view, current, kids[i]) && current.depth < limit {
      var j := KidsFrom(entries, current, limit, i);
    }
    if current.depth < limit {
      forall name | Child(view, current.path, name) ensures Queued(kids, current.path + [name]) {
        var j :| 0 <= j < |entries| && Followed(entries[j]) && entries[j].name == name;
        KidsHave(entries, current, limit, j);
      }
    }
  }

  lemma UnreadableAdds(view: View, current: Item, limit: nat)
    requires !ReadDir(view, current.path).Got?
    ensures Adds(view, current, [], limit)
  {
  }

  // ---- the entries counted are entries of different directories

  function Paths(queue: seq<Item>): (r: seq<Path>)
    ensures |r| == |queue| && forall i :: 0 <= i < |r| ==> r[i] == queue[i].path
  {
    seq(|queue|, i requires 0 <= i < |queue| => queue[i].path)
  }

  ghost predicate Different(paths: seq<Path>) {
    forall i, j :: 0 <= i < j < |paths| ==> paths[i] != paths[j]
  }

  ghost predicate Grown(root: Path, paths: seq<Path>, trail: seq<Path>) {
    forall p :: p in paths && p != root ==> |p| > |root| && p[..|p| - 1] in trail
  }

  /** Every directory was queued once, below one that was done before. */
  ghost predicate Once(root: Path, trail: seq<Path>, queue: seq<Item>) {
    Different(trail + Paths(queue)) && Grown(root, trail + Paths(queue), trail)
  }

  lemma OnceMore(view: View, root: Path, trail: seq<Path>, queue: seq<Item>, more: seq<Item>, limit: nat)
    requires Once(root, trail, queue) && queue != [] && Adds(view, queue[0], more, limit) && |queue[0].path| >= |root|
    requires Different(Paths(more))
    ensures Once(root, trail + [queue[0].path], queue[1..] + more)
  {
    hide Child, Different, Grown;
    var current := queue[0].path;
    var all := trail + Paths(queue);
    var next := trail + [current] + Paths(queue[1..] + more);
    assert next == all + Paths(more);
    assert forall i :: 0 <= i < |more| ==> Below(view, queue[0], more[i]);
    AllDifferent(root, trail, all, current, Paths(more));
    AllGrown(root, trail, all, current, Paths(more));
  }

  lemma AllDifferent(root: Path, trail: seq<Path>, all: seq<Path>, current: Path, more: seq<Path>)
    requires Different(all) && Grown(root, all, trail) && Different(more) && |trail| < |all| && trail <= all
    requires all[|trail|] == current && |current| >= |root|
    requires forall i :: 0 <= i < |more| ==> |more[i]| == |current| + 1 && more[i][..|current|] == current
    ensures Different(all + more)
  {
    assert current !in trail;
    forall i | 0 <= i < |more| ensures more[i] !in all {
      assert more[i][..|more[i]| - 1] == current;
    }
  }

  lemma AllGrown(root: Path, trail: seq<Path>, all: seq<Path>, current: Path, more: seq<Path>)
    requires Grown(root, all, trail) && |current| >= |root|
    requires forall i :: 0 <= i < |more| ==> |more[i]| == |current| + 1 && more[i][..|current|] == current
    ensures Grown(root, all + more, trail + [current])
  {
    forall p | p in all + more && p != root ensures |p| > |root| && p[..|p| - 1] in trail + [current] {
      if p !in all { assert p in more; assert p[..|p| - 1] == current; }
    }
  }

  function Counted(view: View, p: Path): nat {
    match ReadDir(view, p) case Got(entries) => |entries| case _ => 0
  }

  ghost function Added(view: View, current: Item, limit: nat): seq<Item> {
    match ReadDir(view, current.path) case Got(entries) => Kids(entries, current, limit) case _ => []
  }

  function Total(view: View, trail: seq<Path>): nat {
    if trail == [] then 0
    else Total(view, trail[..|trail| - 1]) + Counted(view, trail[|trail| - 1])
  }

  lemma TotalGrows(view: View, trail: seq<Path>, p: Path)
    ensures Total(view, trail + [p]) == Total(view, trail) + Counted(view, p)
  {
    assert (trail + [p])[..|trail|] == trail;
  }

  ghost function Seen(trail: seq<Path>): set<Path> {
    set p | p in trail
  }

  /** All that a sweep keeps: what it has seen, in which order, and how many entries. */
  ghost predicate Sweeping(view: View, root: Path, trail: seq<Path>, queue: seq<Item>, limit: nat, visited: nat) {
    && Swept(view, root, Seen(trail), queue, limit) && Once(root, trail, queue)
    && Total(view, trail) == visited && |trail| + |queue| <= 1 + visited
  }

  lemma SweepBegins(view: View, root: Path, limit: nat)
    ensures Sweeping(view, root, [], [Item(root, 0)], limit, 0)
  {
    SweepStarts(view, root, limit);
    assert Seen([]) == {};
  }

  lemma HeadIsReached(view: View, root: Path, trail: seq<Path>, queue: seq<Item>, limit: nat, visited: nat)
    requires Sweeping(view, root, trail, queue, limit, visited) && queue != []
    ensures Reach(view, root, queue[0].path) && |queue[0].path| - |root| == queue[0].depth <= limit
  {
    assert At(view, root, queue[0], limit);
  }

  /** One more directory: its entries are counted and its subdirectories queued. */
  lemma SweepStep(view: View, root: Path, trail: seq<Path>, queue: seq<Item>, limit: nat, visited: nat)
    requires Proper(view) && Sweeping(view, root, trail, queue, limit, visited) && queue != []
    ensures Sweeping(view, root, trail + [queue[0].path], queue[1..] + Added(view, queue[0], limit), limit,
                     visited + Counted(view, queue[0].path))
  {
    hide Reach, Child, Swept, Once, Adds;
    HeadIsReached(view, root, trail, queue, limit, visited);
    ReachIsBelow(view, root, queue[0].path);
    var current := queue[0];
    var more := Added(view, current, limit);
    if ReadDir(view, current.path).Got? {
      KidsAdd(view, current, limit);
      KidsDiffer(ReadDir(view, current.path).value, current, limit);
    } else {
      UnreadableAdds(view, current, limit);
    }
    SweepGoesOn(view, root, Seen(trail), queue, limit, more);
    OnceMore(view, root, trail, queue, more, limit);
    TotalGrows(view, trail, current.path);
    assert Seen(trail + [current.path]) == Seen(trail) + {current.path};
  }

  /** A sweep that reads more entries than it may has found too many. */
  lemma SweepOverruns(view: View, root: Path, trail: seq<Path>, queue: seq<Item>, limit: nat, visited: nat)
    requires Proper(view) && Sweeping(view, root, trail, queue, limit, visited) && queue != []
    requires ReadDir(view, queue[0].path).Got?
    requires visited + |ReadDir(view, queue[0].path).value| > MAXIMUM_ENTRIES
    ensures TooMany(view, root, limit)
  {
    hide Reach, Child, Total, Different, Swept, Kids;
    SweepStep(view, root, trail, queue, limit, visited);
    var longer, next := trail + [queue[0].path], queue[1..] + Added(view, queue[0], limit);
    PrefixDiffers(longer, Paths(next));
    TrailIsReached(view, root, longer, next, limit);
  }

  lemma PrefixDiffers(a: seq<Path>, b: seq<Path>)
    requires Different(a + b)
    ensures Different(a)
  {
    forall i, j | 0 <= i < j < |a| ensures a[i] != a[j] {
      assert (a + b)[i] != (a + b)[j];
    }
  }

  lemma TrailIsReached(view: View, root: Path, trail: seq<Path>, queue: seq<Item>, limit: nat)
    requires Swept(view, root, Seen(trail), queue, limit)
    ensures forall i :: 0 <= i < |trail| ==> Reach(view, root, trail[i]) && |trail[i]| - |root| <= limit
  {
    hide Reach, Child;
    forall i | 0 <= i < |trail| ensures Reach(view, root, trail[i]) && |trail[i]| - |root| <= limit {
      assert trail[i] in Seen(trail);
    }
  }

  /** The tree within the limit holds more entries than a sweep reads. */
  ghost predicate TooMany(view: View, root: Path, limit: nat) {
    exists trail: seq<Path> :: Total(view, trail) > MAXIMUM_ENTRIES
      && (forall i :: 0 <= i < |trail| ==> Reach(view, root, trail[i]) && |trail[i]| - |root| <= limit)
      && Different(trail)
  }

  ghost predicate Hidden(view: View, root: Path, limit: nat) {
    exists p :: Reach(view, root, p) && |p| - |root| <= limit && !ReadDir(view, p).Got?
  }
}
