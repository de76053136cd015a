/** The touchscreen's controller and client in the loaded device tree. */
module Touchscreen {
  import opened DeviceTree

  datatype State = State(controllerPresent: bool, controllerEnabled: bool, clientPresent: bool,
    topologyUnavailable: bool, statusUnavailable: bool, clientUnavailable: bool)

  const NOTHING_FOUND := State(false, false, false, false, false, false)
  const CONTROLLER := "spi@a88000"
  const CLIENT := "microsoft,mshw0485"
  const MAXIMUM_STATUS := 256
  const MAXIMUM_COMPATIBLE := 4096
  const CLIENT_DEPTH := 4

  // ---- property values

  predicate Space(c: char) {
    c in " \t\n\r" || c as int in {0x0b, 0x0c}
  }

  function TrimLeft(s: string): string {
    if s != [] && Space(s[0]) then TrimLeft(s[1..]) else s
  }

  function TrimRight(s: string): string {
    if s != [] && Space(s[|s| - 1]) then TrimRight(s[..|s| - 1]) else s
  }

  function TrimSpace(s: string): string { TrimRight(TrimLeft(s)) }

  function TrimNul(s: string): string {
    if s != [] && s[0] == '\0' then TrimNul(s[1..])
    else if s != [] && s[|s| - 1] == '\0' then TrimNul(s[..|s| - 1])
    else s
  }

  function Lower(s: string): string {
    seq(|s|, i requires 0 <= i < |s| => if 'A' <= s[i] <= 'Z' then (s[i] as int + 32) as char else s[i])
  }

  predicate Enabled(status: string) {
    Lower(TrimNul(TrimSpace(status))) in {"", "ok", "okay"}
  }

  /** A word as firmware writes it, with any number of terminating zeros. */
  function Terminated(word: string, zeros: nat): string {
    word + seq(zeros, i => '\0')
  }

  /** A word that does not begin or end with a space or a zero. */
  predicate Word(s: string) {
    s != [] ==> !Space(s[0]) && s[0] != '\0' && !Space(s[|s| - 1]) && s[|s| - 1] != '\0'
  }

  /** A terminated word enables the controller exactly when it is empty, ok or okay in any
      case. */
  lemma EnablingWords(word: string, zeros: nat)
    requires Word(word)
    ensures Enabled(Terminated(word, zeros)) <==> Lower(word) in {"", "ok", "okay"}
  {
    hide TrimSpace, TrimNul, Lower, Terminated, Word;
    TerminatedTrims(word, zeros);
  }

  /** What the device tree specification defines. */
  lemma StatusValues(zeros: nat)
    ensures Enabled(Terminated("okay", zeros)) && !Enabled(Terminated("disabled", zeros))
  {
    hide Enabled, Terminated;
    EnablingWords("okay", zeros);
    assert Lower("okay") == "okay";
    EnablingWords("disabled", zeros);
    assert |Lower("disabled")| == 8;
  }

  lemma {:induction false} TerminatedTrims(word: string, zeros: nat)
    requires Word(word)
    ensures TrimNul(TrimSpace(Terminated(word, zeros))) == word
  {
    var s := Terminated(word, zeros);
    assert !Space('\0');
    if s == [] {
      assert word == [];
    } else {
      assert s[0] == if word == [] then '\0' else word[0];
      assert s[|s| - 1] == if zeros == 0 then word[|word| - 1] else '\0';
      assert TrimLeft(s) == s && TrimRight(s) == s;
      ZerosTrim(word, zeros);
    }
  }

  lemma {:induction false} ZerosTrim(word: string, zeros: nat)
    requires Word(word)
    ensures TrimNul(Terminated(word, zeros)) == word
  {
    var s := Terminated(word, zeros);
    if zeros == 0 {
      assert s == word;
    } else if word == [] {
      assert s[1..] == Terminated(word, zeros - 1);
      ZerosTrim(word, zeros - 1);
    } else {
      assert s[0] == word[0] && s[..|s| - 1] == Terminated(word, zeros - 1);
      ZerosTrim(word, zeros - 1);
    }
  }

  function Split(s: string): seq<string> {
    if s == [] then [[]]
    else
      var rest := Split(s[1..]);
      if s[0] == '\0' || rest == [] then [[]] + rest else [[s[0]] + rest[0]] + rest[1..]
  }

  predicate ContainsCompatible(content: string, wanted: string) {
    exists i :: 0 <= i < |Split(content)| && TrimSpace(Split(content)[i]) == wanted
  }

  function Compatible(view: View, p: Path): Answer<string> {
    ReadFile(view, p + ["compatible"], MAXIMUM_COMPATIBLE)
  }

  predicate IsClient(view: View, p: Path) {
    Compatible(view, p).Got? && ContainsCompatible(Compatible(view, p).value, CLIENT)
  }

  // ---- below the controller

  ghost predicate Within(view: View, root: Path, p: Path, levels: nat) {
    Reach(view, root, p) && 0 < |p| - |root| <= levels
  }

  ghost predicate Unreadable(view: View, controller: Path) {
    || Hidden(view, controller, CLIENT_DEPTH) || TooMany(view, controller, CLIENT_DEPTH)
    || exists p :: Within(view, controller, p, CLIENT_DEPTH + 1) && Compatible(view, p).Failed?
  }

  /** What inspecting a controller is to report. */
  ghost predicate Inspected(view: View, controller: Path, state: State) {
    var status := ReadFile(view, controller + ["status"], MAXIMUM_STATUS);
    && state.controllerPresent && !state.topologyUnavailable
    && state.controllerEnabled == (status.Got? ==> Enabled(status.value)) && state.statusUnavailable == status.Failed?
    && (state.clientPresent ==> exists p :: Within(view, controller, p, CLIENT_DEPTH + 1) && IsClient(view, p))
    && (state.clientUnavailable ==> Unreadable(view, controller))
    && (!state.clientPresent && !state.clientUnavailable ==>
         !Hidden(view, controller, CLIENT_DEPTH) &&
         forall p :: Within(view, controller, p, CLIENT_DEPTH + 1) ==> NotClient(view, p, false))
  }

  /** The directories done so far held no client, and failures were noted. */
  ghost predicate NoClient(view: View, trail: seq<Path>, unavailable: bool) {
    forall d ::
      d in trail ==>
        (ReadDir(view, d).Got? || unavailable) &&
        forall name :: Child(view, d, name) ==> NotClient(view, d + [name], unavailable)
  }

  predicate NotClient(view: View, p: Path, unavailable: bool) {
    !IsClient(view, p) && (Compatible(view, p).Failed? ==> unavailable)
  }

  /** Looks at the subdirectories of one directory, and queues them. */
  method Children(view: View, ghost controller: Path, current: Item, entries: seq<Entry>, was: bool)
        returns (more: seq<Item>, found: bool, unavailable: bool)
    requires ReadDir(view, current.path) == Got(entries) && Reach(view, controller, current.path)
    requires 0 <= |current.path| - |controller| == current.depth <= CLIENT_DEPTH
    ensures found ==> exists p :: Within(view, controller, p, CLIENT_DEPTH + 1) && IsClient(view, p)
    ensures !found ==> more == Kids(entries, current, CLIENT_DEPTH)
    ensures !found ==>
              forall name :: Child(view, current.path, name) ==> NotClient(view, current.path + [name], unavailable)
    ensures (was ==> unavailable) && (unavailable ==> was || Unreadable(view, controller))
  {
    hide IsClient, SafeLeaf, Hidden, TooMany;
    more, found, unavailable := [], false, was;
    for i := 0 to |entries|
      invariant more == Kids(entries[..i], current, CLIENT_DEPTH)
      invariant forall j ::
                  0 <= j < i && Followed(entries[j]) ==> NotClient(view, current.path + [entries[j].name], unavailable)
      invariant (was ==> unavailable) && (unavailable ==> was || Unreadable(view, controller))
    {
      assert entries[..i + 1][..i] == entries[..i];
      var entry := entries[i];
      if !Followed(entry) { continue; }
      var child := current.path + [entry.name];
      assert child[..|child| - 1] == current.path;
      assert Within(view, controller, child, CLIENT_DEPTH + 1);
      if IsClient(view, child) {
        found := true;
        return;
      }
      if Compatible(view, child).Failed? {
        unavailable := true;
      }
      if current.depth < CLIENT_DEPTH {
        more := more + [Item(child, current.depth + 1)];
      }
    }
    assert entries[..|entries|] == entries;
  }

  lemma NoMore(view: View, trail: seq<Path>, was: bool, unavailable: bool, p: Path)
    requires NoClient(view, trail, was) && (was ==> unavailable)
    requires ReadDir(view, p).Got? || unavailable
    requires forall name :: Child(view, p, name) ==> NotClient(view, p + [name], unavailable)
    ensures NoClient(view, trail + [p], unavailable)
  {
    hide IsClient, Child;
  }

  /** A finished sweep that noted no failure saw every directory within reach. */
  lemma NoneLeft(view: View, controller: Path, trail: seq<Path>, visited: nat)
    requires Sweeping(view, controller, trail, [], CLIENT_DEPTH, visited) && visited <= MAXIMUM_ENTRIES
    requires NoClient(view, trail, false)
    ensures forall p :: Within(view, controller, p, CLIENT_DEPTH + 1) ==> NotClient(view, p, false)
    ensures !Hidden(view, controller, CLIENT_DEPTH)
  {
    hide IsClient, Child, Swept, Once, Total, NoClient, NotClient;
    forall p | Within(view, controller, p, CLIENT_DEPTH + 1) ensures NotClient(view, p, false) {
      var parent := p[..|p| - 1];
      SweptAll(view, controller, Seen(trail), CLIENT_DEPTH, parent);
      ChildIsNoClient(view, trail, p);
    }
    forall p | Reach(view, controller, p) && |p| - |controller| <= CLIENT_DEPTH ensures ReadDir(view, p).Got? {
      SweptAll(view, controller, Seen(trail), CLIENT_DEPTH, p);
      DoneIsRead(view, trail, p);
    }
  }

  lemma ChildIsNoClient(view: View, trail: seq<Path>, p: Path)
    requires NoClient(view, trail, false) && p != [] && p[..|p| - 1] in trail && Child(view, p[..|p| - 1], p[|p| - 1])
    ensures NotClient(view, p, false)
  {
    hide IsClient, Child;
    assert p[..|p| - 1] + [p[|p| - 1]] == p;
  }

  lemma DoneIsRead(view: View, trail: seq<Path>, p: Path)
    requires NoClient(view, trail, false) && p in trail
    ensures ReadDir(view, p).Got?
  {
    hide IsClient, Child;
  }

  lemma CannotRead(view: View, controller: Path, p: Path)
    requires TooMany(view, controller, CLIENT_DEPTH) ||
             (Reach(view, controller, p) && |p| - |controller| <= CLIENT_DEPTH && !ReadDir(view, p).Got?)
    ensures Unreadable(view, controller)
  {
    hide Reach, Child;
  }

  method InspectController(view: View, controller: Path) returns (state: State)
    requires Proper(view)
    ensures Inspected(view, controller, state)
  {
    hide Sweeping, Unreadable, NoClient, Reach, IsClient;
    state := State(true, true, false, false, false, false);
    match ReadFile(view, controller + ["status"], MAXIMUM_STATUS) {
      case Got(status) => state := state.(controllerEnabled := Enabled(status));
      case Failed => state := state.(statusUnavailable := true);
      case Absent =>
    }
    ghost var noted := state;
    var queue, visited: nat := [Item(controller, 0)], 0;
    ghost var trail: seq<Path> := [];
    SweepBegins(view, controller, CLIENT_DEPTH);
    NothingYet(view);
    while queue != []
      invariant Sweeping(view, controller, trail, queue, CLIENT_DEPTH, visited) && visited <= MAXIMUM_ENTRIES
      invariant |trail| + |queue| <= 1 + visited
      invariant NoClient(view, trail, state.clientUnavailable)
      invariant state.clientUnavailable ==> Unreadable(view, controller)
      invariant state == noted.(clientUnavailable := state.clientUnavailable)
      decreases MAXIMUM_ENTRIES + 1 - |trail|
    {
      var current := queue[0];
      HeadIsReached(view, controller, trail, queue, CLIENT_DEPTH, visited);
      SweepStep(view, controller, trail, queue, CLIENT_DEPTH, visited);
      ghost var was := state.clientUnavailable;
      match ReadDir(view, current.path) {
        case Got(entries) =>
          if visited + |entries| > MAXIMUM_ENTRIES {
            SweepOverruns(view, controller, trail, queue, CLIENT_DEPTH, visited);
            CannotRead(view, controller, current.path);
            return state.(clientUnavailable := true);
          }
          visited := visited + |entries|;
          var more, found, unavailable := Children(view, controller, current, entries, state.clientUnavailable);
          if found { return state.(clientPresent := true, clientUnavailable := unavailable); }
          state := state.(clientUnavailable := unavailable);
          queue := queue[1..] + more;
        case _ =>
          CannotRead(view, controller, current.path);
          state := state.(clientUnavailable := true);
          queue := queue[1..] + [];
      }
      NoMore(view, trail, was, state.clientUnavailable, current.path);
      trail := trail + [current.path];
    }
    if !state.clientUnavailable { NoneLeft(view, controller, trail, visited); }
  }

  lemma NothingYet(view: View)
    ensures NoClient(view, [], false)
  {
  }

  // ---- from a root of the device tree to the controller

  datatype Walk = NotThere | Broken | Walked(state: State)

  /** A controller that no other controller is nearer to the root than. */
  ghost predicate Nearest(view: View, root: Path, c: Path) {
    && Named(view, root, c, CONTROLLER) && |c| - |root| <= MAXIMUM_DEPTH + 1
    && forall other :: Named(view, root, other, CONTROLLER) ==> |c| <= |other|
  }

  ghost predicate NoController(view: View, root: Path) {
    forall p :: Named(view, root, p, CONTROLLER) ==> |p| - |root| > MAXIMUM_DEPTH + 1
  }

  /** What walking one root is to report. */
  ghost predicate WalkedTo(view: View, root: Path, walk: Walk) {
    match walk
    case NotThere => ReadDir(view, root).Absent?
    case Broken => ReadDir(view, root).Failed?
    case Walked(state) =>
      ReadDir(view, root).Got? &&
      if state.controllerPresent then exists c :: Nearest(view, root, c) && Inspected(view, c, state)
      else if state.topologyUnavailable then state == NOTHING_FOUND.(topologyUnavailable := true) &&
      (Hidden(view, root, MAXIMUM_DEPTH) || TooMany(view, root, MAXIMUM_DEPTH))
      else state == NOTHING_FOUND && NoController(view, root) && !Hidden(view, root, MAXIMUM_DEPTH)
  }

  /** The directories done so far have no controller, and failures were noted. */
  ghost predicate NoneSeen(view: View, trail: seq<Path>, unavailable: bool) {
    forall d :: d in trail ==> !Child(view, d, CONTROLLER) && (ReadDir(view, d).Got? || unavailable)
  }

  /** Queues the subdirectories of one directory, up to a controller. */
  method Subdirectories(view: View, current: Item, entries: seq<Entry>) returns (more: seq<Item>, found: bool)
    requires ReadDir(view, current.path) == Got(entries)
    ensures found <==> Child(view, current.path, CONTROLLER)
    ensures !found ==> more == Kids(entries, current, MAXIMUM_DEPTH)
  {
    more, found := [], false;
    for i := 0 to |entries|
      invariant more == Kids(entries[..i], current, MAXIMUM_DEPTH)
      invariant forall j :: 0 <= j < i && Followed(entries[j]) ==> entries[j].name != CONTROLLER
    {
      assert entries[..i + 1][..i] == entries[..i];
      var entry := entries[i];
      if !Followed(entry) { continue; }
      if entry.name == CONTROLLER {
        found := true;
        return;
      }
      if current.depth < MAXIMUM_DEPTH {
        more := more + [Item(current.path + [entry.name], current.depth + 1)];
      }
    }
    assert entries[..|entries|] == entries;
  }

  lemma FoundNearest(view: View, root: Path, trail: seq<Path>, queue: seq<Item>, visited: nat, unavailable: bool)
    requires Sweeping(view, root, trail, queue, MAXIMUM_DEPTH, visited) && queue != []
    requires NoneSeen(view, trail, unavailable)
    requires Child(view, queue[0].path, CONTROLLER)
    ensures Nearest(view, root, queue[0].path + [CONTROLLER])
  {
    hide Child, Once, Total;
    HeadIsReached(view, root, trail, queue, MAXIMUM_DEPTH, visited);
    ReachIsBelow(view, root, queue[0].path);
    var c := queue[0].path + [CONTROLLER];
    assert c[..|c| - 1] == queue[0].path;
    forall other | Named(view, root, other, CONTROLLER) ensures |c| <= |other| {
      var parent := other[..|other| - 1];
      if |parent| - |root| < queue[0].depth {
        ReachIsBelow(view, root, parent);
        NearerIsDone(view, root, Seen(trail), queue, MAXIMUM_DEPTH, parent);
        assert false;
      }
    }
  }

  lemma NoneThere(view: View, root: Path, trail: seq<Path>, visited: nat)
    requires Sweeping(view, root, trail, [], MAXIMUM_DEPTH, visited) && NoneSeen(view, trail, false)
    ensures NoController(view, root) && !Hidden(view, root, MAXIMUM_DEPTH) && ReadDir(view, root).Got?
  {
    hide Child, Once, Total, Swept;
    forall p | Named(view, root, p, CONTROLLER) ensures |p| - |root| > MAXIMUM_DEPTH + 1 {
      if |p| - |root| <= MAXIMUM_DEPTH + 1 {
        NoneNamed(view, root, Seen(trail), MAXIMUM_DEPTH, CONTROLLER, p);
        assert false;
      }
    }
    forall p | Reach(view, root, p) && |p| - |root| <= MAXIMUM_DEPTH ensures ReadDir(view, p).Got? {
      SweptAll(view, root, Seen(trail), MAXIMUM_DEPTH, p);
    }
    SweptAll(view, root, Seen(trail), MAXIMUM_DEPTH, root);
  }

  /** Searches one root breadth first, within fixed bounds. */
  method WalkDeviceTree(view: View, root: Path) returns (walk: Walk, ghost trail: seq<Path>)
    requires Proper(view)
    ensures WalkedTo(view, root, walk)
    ensures |trail| <= MAXIMUM_ENTRIES + 1
  {
    hide Sweeping, Hidden, TooMany, NoneSeen, Reach, Child, Inspected, Nearest, NoController;
    var queue, visited: nat, state := [Item(root, 0)], 0, NOTHING_FOUND;
    trail := [];
    SweepBegins(view, root, MAXIMUM_DEPTH);
    assert NoneSeen(view, trail, false) by { NoneYet(view); }
    while queue != []
      invariant Sweeping(view, root, trail, queue, MAXIMUM_DEPTH, visited) && visited <= MAXIMUM_ENTRIES
      invariant |trail| + |queue| <= 1 + visited
      invariant NoneSeen(view, trail, state.topologyUnavailable)
      invariant state == NOTHING_FOUND.(topologyUnavailable := state.topologyUnavailable)
      invariant state.topologyUnavailable ==> Hidden(view, root, MAXIMUM_DEPTH)
      invariant if trail == [] then queue == [Item(root, 0)] else ReadDir(view, root).Got?
      decreases MAXIMUM_ENTRIES + 1 - |trail|
    {
      var current := queue[0];
      HeadIsReached(view, root, trail, queue, MAXIMUM_DEPTH, visited);
      ReachIsBelow(view, root, current.path);
      SweepStep(view, root, trail, queue, MAXIMUM_DEPTH, visited);
      ghost var was := state.topologyUnavailable;
      match ReadDir(view, current.path) {
        case Got(entries) =>
          if visited + |entries| > MAXIMUM_ENTRIES {
            SweepOverruns(view, root, trail, queue, MAXIMUM_DEPTH, visited);
            walk := Walked(state.(topologyUnavailable := true));
            return;
          }
          var more, found := Subdirectories(view, current, entries);
          if found {
            FoundNearest(view, root, trail, queue, visited, was);
            state := InspectController(view, current.path + [CONTROLLER]);
            Present(view, root, current.path + [CONTROLLER], state);
            walk := Walked(state);
            return;
          }
          visited := visited + |entries|;
          queue := queue[1..] + more;
        case answer =>
          if current.depth == 0 {
            walk := if answer.Absent? then NotThere else Broken;
            return;
          }
          HiddenHere(view, root, current.path);
          state := state.(topologyUnavailable := true);
          queue := queue[1..] + [];
      }
      Seen1(view, trail, was, state.topologyUnavailable, current.path);
      trail := trail + [current.path];
    }
    if !state.topologyUnavailable { NoneThere(view, root, trail, visited); }
    walk := Walked(state);
  }

  lemma NoneYet(view: View)
    ensures NoneSeen(view, [], false)
  {
  }

  lemma Present(view: View, root: Path, c: Path, state: State)
    requires Nearest(view, root, c) && Inspected(view, c, state)
    ensures state.controllerPresent && exists d :: Nearest(view, root, d) && Inspected(view, d, state)
  {
  }

  lemma HiddenHere(view: View, root: Path, p: Path)
    requires Reach(view, root, p) && |p| - |root| <= MAXIMUM_DEPTH && !ReadDir(view, p).Got?
    ensures Hidden(view, root, MAXIMUM_DEPTH) && !Child(view, p, CONTROLLER)
  {
  }

  lemma Seen1(view: View, trail: seq<Path>, was: bool, unavailable: bool, p: Path)
    requires NoneSeen(view, trail, was) && (was ==> unavailable) && !Child(view, p, CONTROLLER)
    requires ReadDir(view, p).Got? || unavailable
    ensures NoneSeen(view, trail + [p], unavailable)
  {
  }

  // ---- the standard views of the loaded device tree

  /** A root whose walk shows no controller. */
  ghost predicate ShowsNone(view: View, root: Path) {
    || ReadDir(view, root).Absent?
    || (ReadDir(view, root).Got? &&
        (NoController(view, root) || Hidden(view, root, MAXIMUM_DEPTH) || TooMany(view, root, MAXIMUM_DEPTH)))
  }

  ghost predicate Complete(view: View, root: Path) {
    ReadDir(view, root).Got? && NoController(view, root) && !Hidden(view, root, MAXIMUM_DEPTH)
  }

  ghost predicate FoundIn(view: View, roots: seq<Path>, state: State) {
    exists i, c :: 0 <= i < |roots| && Nearest(view, roots[i], c) && Inspected(view, c, state)
  }

  /** Reads the roots in turn until one shows the controller and its client's state. */
  method ReadDeviceTree(view: View, roots: seq<Path>) returns (state: State)
    requires Proper(view)
    ensures state.controllerPresent ==> FoundIn(view, roots, state.(topologyUnavailable := false))
    ensures state.controllerPresent && !state.statusUnavailable && !state.clientUnavailable ==>
              !state.topologyUnavailable
    ensures !state.controllerPresent && !state.topologyUnavailable ==>
      ((exists i :: 0 <= i < |roots| && Complete(view, roots[i])) &&
       forall i :: 0 <= i < |roots| ==> ShowsNone(view, roots[i]))
  {
    hide Hidden, TooMany, Reach, Inspected, Nearest, NoController;
    state := NOTHING_FOUND;
    var observed, complete := false, false;
    for i := 0 to |roots|
      invariant state.controllerPresent ==>
                  FoundIn(view, roots, state.(topologyUnavailable := false)) &&
                  (state.statusUnavailable || state.clientUnavailable)
      invariant !state.controllerPresent ==> state == NOTHING_FOUND.(topologyUnavailable := state.topologyUnavailable)
      invariant complete ==> observed
      invariant complete && !state.controllerPresent ==> exists j :: 0 <= j < i && Complete(view, roots[j])
      invariant !state.controllerPresent && !state.topologyUnavailable ==>
                  forall j :: 0 <= j < i ==> ShowsNone(view, roots[j])
    {
      var walk, trail := WalkDeviceTree(view, roots[i]);
      match walk {
        case NotThere =>
        case Broken => state := state.(topologyUnavailable := true);
        case Walked(found) =>
          observed := true;
          if !found.topologyUnavailable { complete := true; }
          if found.controllerPresent {
            InspectedFacts(view, roots, i, found);
            if !found.statusUnavailable && !found.clientUnavailable { return found; }
            state := found;
          }
      }
    }
    if state.controllerPresent { return; }
    if !observed || !complete { state := state.(topologyUnavailable := true); }
  }

  lemma InspectedFacts(view: View, roots: seq<Path>, i: nat, state: State)
    requires i < |roots| && exists c :: Nearest(view, roots[i], c) && Inspected(view, c, state)
    ensures FoundIn(view, roots, state) && !state.topologyUnavailable
  {
  }
}
