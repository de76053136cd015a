/** The Wi-Fi node of the loaded device tree and its radio policy. */
module Wifi {
  import opened DeviceTree

  datatype State = State(nodePresent: bool, disableRFKill: bool, unavailable: bool)

  const NODE := "wifi@0"
  const POLICY := "disable-rfkill"

  ghost predicate Node(view: View, root: Path, p: Path) {
    Named(view, root, p, NODE) && |p| - |root| <= MAXIMUM_DEPTH + 1
  }

  function Policy(view: View, p: Path): Answer<Kind> { view.stats(p + [POLICY]) }

  ghost predicate Incomplete(view: View, root: Path) {
    || Hidden(view, root, MAXIMUM_DEPTH) || TooMany(view, root, MAXIMUM_DEPTH)
    || exists p :: Node(view, root, p) && Policy(view, p).Failed?
  }

  /** What the walk is to report. */
  ghost predicate Reported(view: View, root: Path, state: State) {
    && (state.nodePresent ==> exists p :: Node(view, root, p))
    && (state.disableRFKill ==> state.nodePresent && exists p :: Node(view, root, p) && Policy(view, p).Got?)
    && (state.unavailable ==> Incomplete(view, root))
    && (!state.unavailable && !state.disableRFKill ==>
         !Hidden(view, root, MAXIMUM_DEPTH) &&
         forall p :: Node(view, root, p) ==> state.nodePresent && Policy(view, p).Absent?)
  }

  /** The Wi-Fi nodes seen so far were noted, and none has the policy. */
  ghost predicate Noted(view: View, trail: seq<Path>, state: State) {
    forall d :: d in trail ==> ReadDir(view, d).Got? && (Child(view, d, NODE) ==> NotedNode(view, d + [NODE], state))
  }

  predicate NotedNode(view: View, p: Path, state: State) {
    state.nodePresent && !Policy(view, p).Got? && (Policy(view, p).Failed? ==> state.unavailable)
  }

  /** Looks at the subdirectories of one directory, and queues them. */
  method Children(view: View, ghost root: Path, current: Item, entries: seq<Entry>, was: State)
        returns (more: seq<Item>, state: State)
    requires ReadDir(view, current.path) == Got(entries) && Reach(view, root, current.path)
    requires 0 <= |current.path| - |root| == current.depth <= MAXIMUM_DEPTH && !was.disableRFKill
    ensures state.disableRFKill ==> state.nodePresent && exists p :: Node(view, root, p) && Policy(view, p).Got?
    ensures !state.disableRFKill ==>
              more == Kids(entries, current, MAXIMUM_DEPTH) &&
              (Child(view, current.path, NODE) ==> NotedNode(view, current.path + [NODE], state))
    ensures (was.nodePresent ==> state.nodePresent) && (was.unavailable ==> state.unavailable)
    ensures state.nodePresent ==> was.nodePresent || exists p :: Node(view, root, p)
    ensures state.unavailable ==> was.unavailable || Incomplete(view, root)
  {
    hide SafeLeaf, Hidden, TooMany, Policy;
    more, state := [], was;
    var node := current.path + [NODE];
    assert node[..|node| - 1] == current.path;
    for i := 0 to |entries|
      invariant more == Kids(entries[..i], current, MAXIMUM_DEPTH) && !state.disableRFKill
      invariant (exists j :: 0 <= j < i && Followed(entries[j]) && entries[j].name == NODE) ==>
                  NotedNode(view, node, state)
      invariant (was.nodePresent ==> state.nodePresent) && (was.unavailable ==> state.unavailable)
      invariant state.nodePresent ==> was.nodePresent || Node(view, root, node)
      invariant state.unavailable ==> was.unavailable || (Node(view, root, node) && Policy(view, node).Failed?)
    {
      assert entries[..i + 1][..i] == entries[..i];
      var entry := entries[i];
      if !Followed(entry) { continue; }
      var child := current.path + [entry.name];
      if entry.name == NODE {
        assert Child(view, current.path, NODE) && Node(view, root, node);
        state := state.(nodePresent := true);
        match Policy(view, child) {
          case Got(_) =>
            state := state.(disableRFKill := true);
            return;
          case Failed => state := state.(unavailable := true);
          case Absent =>
        }
      }
      if current.depth < MAXIMUM_DEPTH {
        more := more + [Item(child, current.depth + 1)];
      }
    }
    assert entries[..|entries|] == entries;
  }

  lemma NodesNoted(view: View, root: Path, trail: seq<Path>, visited: nat, state: State)
    requires Sweeping(view, root, trail, [], MAXIMUM_DEPTH, visited) && Noted(view, trail, state)
    ensures !Hidden(view, root, MAXIMUM_DEPTH) && forall p :: Node(view, root, p) ==> NotedNode(view, p, state)
  {
    hide Child, Once, Total, Swept, NotedNode;
    forall p | Node(view, root, p) ensures NotedNode(view, p, state) {
      var parent := p[..|p| - 1];
      SweptAll(view, root, Seen(trail), MAXIMUM_DEPTH, parent);
      assert parent + [NODE] == p;
    }
    forall p | Reach(view, root, p) && |p| - |root| <= MAXIMUM_DEPTH ensures ReadDir(view, p).Got? {
      SweptAll(view, root, Seen(trail), MAXIMUM_DEPTH, p);
    }
  }

  lemma NoteMore(view: View, trail: seq<Path>, was: State, state: State, p: Path)
    requires Noted(view, trail, was) && (was.nodePresent ==> state.nodePresent)
    requires was.unavailable ==> state.unavailable
    requires ReadDir(view, p).Got? && (Child(view, p, NODE) ==> NotedNode(view, p + [NODE], state))
    ensures Noted(view, trail + [p], state)
  {
  }

  lemma NothingYet(view: View)
    ensures Noted(view, [], State(false, false, false))
  {
  }

  lemma GivesUp(view: View, root: Path, p: Path)
    requires TooMany(view, root, MAXIMUM_DEPTH) ||
             (Reach(view, root, p) && |p| - |root| <= MAXIMUM_DEPTH && !ReadDir(view, p).Got?)
    ensures Incomplete(view, root)
  {
    hide Reach, Child;
  }

  /** Searches the device tree breadth first, within fixed bounds. */
  method InspectDeviceTree(view: View, root: Path) returns (state: State, ghost trail: seq<Path>)
    requires Proper(view)
    ensures Reported(view, root, state)
    ensures |trail| <= MAXIMUM_ENTRIES + 1
  {
    hide Sweeping, Noted, Reach, Child, NotedNode, Incomplete, Node, TooMany, Hidden;
    var queue, visited: nat := [Item(root, 0)], 0;
    state, trail := State(false, false, false), [];
    SweepBegins(view, root, MAXIMUM_DEPTH);
    NothingYet(view);
    while queue != []
      invariant Sweeping(view, root, trail, queue, MAXIMUM_DEPTH, visited) && visited <= MAXIMUM_ENTRIES
      invariant |trail| + |queue| <= 1 + visited
      invariant Noted(view, trail, state) && !state.disableRFKill
      invariant state.nodePresent ==> exists p :: Node(view, root, p)
      invariant state.unavailable ==> Incomplete(view, root)
      decreases MAXIMUM_ENTRIES + 1 - |trail|
    {
      var current := queue[0];
      HeadIsReached(view, root, trail, queue, MAXIMUM_DEPTH, visited);
      SweepStep(view, root, trail, queue, MAXIMUM_DEPTH, visited);
      ghost var was := state;
      match ReadDir(view, current.path) {
        case Got(entries) =>
          if visited + |entries| > MAXIMUM_ENTRIES {
            SweepOverruns(view, root, trail, queue, MAXIMUM_DEPTH, visited);
            GivesUp(view, root, current.path);
            state := State(false, false, true);
            return;
          }
          visited := visited + |entries|;
          var more;
          more, state := Children(view, root, current, entries, state);
          if state.disableRFKill { return; }
          queue := queue[1..] + more;
        case _ =>
          GivesUp(view, root, current.path);
          state := State(false, false, true);
          return;
      }
      NoteMore(view, trail, was, state, current.path);
      trail := trail + [current.path];
    }
    NodesNoted(view, root, trail, visited, state);
    if !state.unavailable { AllAbsent(view, root, state); }
  }

  lemma AllAbsent(view: View, root: Path, state: State)
    requires !state.unavailable && forall p :: Node(view, root, p) ==> NotedNode(view, p, state)
    ensures forall p :: Node(view, root, p) ==> state.nodePresent && Policy(view, p).Absent?
  {
  }
}
