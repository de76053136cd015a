/** A YAML document as a graph of nodes with aliases, and the values that it stands for. */
module ProfileNodes {

  datatype Kind = Document | Scalar | Sequence | Mapping | Alias

  class Node {
    var kind: Kind
    var tag: string
    var value: string
    var anchor: string
    var comments: string
    var alias: Node?
    var content: seq<Node>

    constructor (kind: Kind, tag: string, value: string)
      ensures this.kind == kind && this.tag == tag && this.value == value
      ensures anchor == "" && comments == "" && alias == null && content == []
    {
      this.kind, this.tag, this.value := kind, tag, value;
      anchor, comments, alias, content := "", "", null, [];
    }
  }

  datatype Form = Form(kind: Kind, tag: string, value: string, anchor: string, comments: string, alias: Node?,
      content: seq<Node>)

  type Memory = map<Node, Form>

  ghost function FormOf(d: Node): Form
    reads d
  {
    Form(d.kind, d.tag, d.value, d.anchor, d.comments, d.alias, d.content)
  }

  ghost function Snapshot(world: set<Node>): Memory
    reads world
  {
    map d | d in world :: FormOf(d)
  }

  /** What a node stands for once aliases are resolved.  Pairs hold keys and values in turn. */
  datatype Value = Text(tag: string, text: string) | List(items: seq<Value>) | Pairs(items: seq<Value>)

  ghost function Referent(m: Memory, d: Node): Node
    requires d in m
  {
    if m[d].kind.Alias? && m[d].alias != null then m[d].alias else d
  }

  ghost predicate Means(m: Memory, d: Node, v: Value)
    decreases v
  {
    && d in m && Referent(m, d) in m
    && var f := m[Referent(m, d)];
    match v
    case Text(tag, text) => f.kind == Kind.Scalar && f.tag == tag && f.value == text
    case List(items) =>
      f.kind == Sequence && |f.content| == |items| && forall i :: 0 <= i < |items| ==> Means(m, f.content[i], items[i])
    case Pairs(items) =>
      f.kind == Mapping && |f.content| == |items| && |items| % 2 == 0 &&
      forall i :: 0 <= i < |items| ==> Means(m, f.content[i], items[i])
  }

  lemma {:induction false} MeansOneThing(m: Memory, d: Node, v: Value, w: Value)
    requires Means(m, d, v) && Means(m, d, w)
    ensures v == w
    decreases v
  {
    if !v.Text? {
      var f := m[Referent(m, d)];
      forall i | 0 <= i < |v.items| ensures v.items[i] == w.items[i] {
        MeansOneThing(m, f.content[i], v.items[i], w.items[i]);
      }
      assert v.items == w.items;
    }
  }

  /** A parsed document: every node but the first has exactly one parent, one level up,
      and every alias refers to an anchored node of the document. */
  ghost predicate Outline(m: Memory, document: Node, level: map<Node, nat>, height: nat) {
    && document in m && m[document].kind == Document && level.Keys == m.Keys && level[document] == 0
    && (forall d :: d in m ==> level[d] <= height)
    && (forall d, i ::
          d in m && 0 <= i < |m[d].content| ==> m[d].content[i] in m && level[m[d].content[i]] == level[d] + 1)
    && OneParent(m)
    && (forall d :: d in m && d != document ==> HasParent(m, d))
    && (forall d :: d in m ==> Sound(m, m[d]))
  }

  lemma DocumentIsThere(m: Memory, document: Node, level: map<Node, nat>, height: nat)
    requires Outline(m, document, level, height)
    ensures document in m && level.Keys == m.Keys
    ensures forall i ::
              0 <= i < |m[document].content| ==> m[document].content[i] in m && m[document].content[i] != document
  {
  }

  ghost predicate OneParent(m: Memory) {
    forall d, e, i, j ::
      d in m && e in m && 0 <= i < |m[d].content| && 0 <= j < |m[e].content| && m[d].content[i] == m[e].content[j] ==>
        d == e && i == j
  }

  ghost predicate HasParent(m: Memory, d: Node) {
    exists p :: p in m && d in m[p].content
  }

  ghost predicate Sound(m: Memory, f: Form) {
    && (f.kind.Scalar? ==> f.content == [])
    && (f.kind.Alias? ==>
          f.content == [] && f.alias != null && f.alias in m && !m[f.alias].kind.Alias? && m[f.alias].anchor != "")
  }

  ghost predicate RefersTo(f: Form, target: Node) {
    f.kind.Alias? && f.alias == target
  }

  /** The form that an alias to the target takes when it is materialised. */
  ghost function Materialised(m: Memory, f: Form, target: Node): Form
    requires target in m
  {
    if RefersTo(f, target) then m[target].(anchor := "", comments := f.comments) else f
  }

  ghost predicate Preserved(m: Memory, n: Memory, seen: set<Node>, target: Node)
    requires target in m
  {
    && n.Keys == m.Keys
    && forall d :: d in m ==> n[d] == if d in seen then Materialised(m, m[d], target) else m[d]
  }

  /** The old profile: a scalar, or an alias (which nothing refers to). */
  ghost predicate Editable(m: Memory, target: Node) {
    target in m && (m[target].kind.Scalar? || m[target].kind.Alias?)
  }

  /** Materialising aliases changes no value. */
  lemma {:induction false} PreservedMeans(m: Memory, n: Memory, document: Node, level: map<Node, nat>, height: nat,
          seen: set<Node>, target: Node, d: Node, v: Value)
    requires Outline(m, document, level, height) && Editable(m, target) && Preserved(m, n, seen, target)
    requires Means(m, d, v)
    ensures Means(n, d, v)
    decreases v
  {
    assert Sound(m, m[d]);
    var r := Referent(m, d);
    assert n[r] == m[r];
    assert Referent(n, d) == r || n[Referent(n, d)] == m[r].(anchor := "", comments := m[d].comments);
    if !v.Text? {
      forall i | 0 <= i < |v.items| ensures Means(n, m[r].content[i], v.items[i]) {
        PreservedMeans(m, n, document, level, height, seen, target, m[r].content[i], v.items[i]);
      }
    }
  }

  lemma SameContents(m: Memory, n: Memory)
    requires n.Keys == m.Keys && forall d :: d in m ==> n[d].content == m[d].content
    ensures OneParent(m) ==> OneParent(n)
    ensures forall d :: HasParent(m, d) ==> HasParent(n, d)
  {
    forall d | HasParent(m, d) ensures HasParent(n, d) {
      var p :| p in m && d in m[p].content;
      assert d in n[p].content;
    }
  }

  lemma PreservedOutline(m: Memory, n: Memory, document: Node, level: map<Node, nat>, height: nat, seen: set<Node>,
          target: Node)
    requires Outline(m, document, level, height) && Editable(m, target) && Preserved(m, n, seen, target)
    ensures Outline(n, document, level, height) && forall d :: d in m ==> n[d].content == m[d].content
  {
    hide OneParent, HasParent;
    assert Sound(m, m[target]);
    forall d | d in m ensures n[d].content == m[d].content && Sound(n, n[d]) {
      assert Sound(m, m[d]);
    }
    SameContents(m, n);
  }

  /** A set that holds the document and the children of its members holds everything. */
  lemma {:induction false} AllReached(m: Memory, document: Node, level: map<Node, nat>, height: nat, seen: set<Node>,
          d: Node)
    requires Outline(m, document, level, height) && document in seen && d in m
    requires forall p, i :: p in seen && p in m && 0 <= i < |m[p].content| ==> m[p].content[i] in seen
    ensures d in seen
    decreases level[d]
  {
    if d != document {
      assert HasParent(m, d);
      var p :| p in m && d in m[p].content;
      var i :| 0 <= i < |m[p].content| && m[p].content[i] == d;
      AllReached(m, document, level, height, seen, p);
    }
  }

  /** Keeps every reference to an edited scalar's previous value. */
  method PreserveAliases(node: Node, target: Node, ghost world: set<Node>, ghost document: Node, ghost level: map<Node,
          nat>, ghost height: nat)
    returns (ghost seen: set<Node>)
    requires Outline(Snapshot(world), document, level, height) && Editable(Snapshot(world), target) && node in world
    modifies world
    ensures Preserved(old(Snapshot(world)), Snapshot(world), seen, target)
    ensures node in seen && seen <= world
    ensures forall d, i :: d in seen && 0 <= i < |old(d.content)| ==> old(d.content)[i] in seen
    decreases height - level[node]
  {
    hide Outline, Preserved;
    ghost var was := Snapshot(world);
    seen := {node};
    OutlineFacts(was, document, level, height, node, target);
    if node.kind == Alias && node.alias == target {
      assert RefersTo(was[node], target) && old(node.content) == [];
      Materialise(node, target, world);
      return;
    }
    Nothing(was, node, target);
    var i := 0;
    while i < |node.content|
      invariant 0 <= i <= |node.content| && node.content == was[node].content
      invariant Preserved(was, Snapshot(world), seen, target) && Snapshot(world)[target] == was[target]
      invariant node in seen && seen <= world
      invariant forall d, j :: d in seen && d != node && 0 <= j < |was[d].content| ==> was[d].content[j] in seen
      invariant forall j :: 0 <= j < i ==> was[node].content[j] in seen
      decreases |was[node].content| - i
    {
      ghost var m := Snapshot(world);
      PreservedOutline(was, m, document, level, height, seen, target);
      OutlineFacts(m, document, level, height, node, target);
      label Before:
      ghost var more := PreserveAliases(node.content[i], target, world, document, level, height);
      assert forall d :: d in more ==> was[d].content == m[d].content == old@Before(d.content);
      PreservedMore(was, m, Snapshot(world), seen, more, target);
      Unseen(was, Snapshot(world), seen + more, node, target);
      seen := seen + more;
      i := i + 1;
    }
    forall d, j | d in seen && 0 <= j < |old(d.content)| ensures old(d.content)[j] in seen {
      assert was[d].content == old(d.content) && was[d].content[j] in seen;
    }
  }

  method Materialise(node: Node, target: Node, ghost world: set<Node>)
    requires node in world && target in world && RefersTo(FormOf(node), target) && node != target
    modifies node
    ensures Preserved(old(Snapshot(world)), Snapshot(world), {node}, target)
  {
    var comments := node.comments;
    node.kind, node.tag, node.value := target.kind, target.tag, target.value;
    node.alias, node.content := target.alias, target.content;
    node.anchor := "";
    node.comments := comments;
  }

  lemma OutlineFacts(m: Memory, document: Node, level: map<Node, nat>, height: nat, d: Node, target: Node)
    requires Outline(m, document, level, height) && Editable(m, target) && d in m
    ensures level.Keys == m.Keys && level[d] <= height && !RefersTo(m[target], target)
    ensures RefersTo(m[d], target) ==> m[d].content == [] && d != target
    ensures forall i ::
              0 <= i < |m[d].content| ==>
                m[d].content[i] in m && level[m[d].content[i]] == level[d] + 1 && level[d] + 1 <= height
  {
    assert Sound(m, m[d]) && Sound(m, m[target]);
    forall i | 0 <= i < |m[d].content|
      ensures m[d].content[i] in m && level[m[d].content[i]] == level[d] + 1 && level[d] + 1 <= height
    {
      var c := m[d].content[i];
      assert c in m && level[c] <= height;
    }
  }

  lemma Nothing(m: Memory, d: Node, target: Node)
    requires d in m && target in m && !RefersTo(m[d], target)
    ensures Preserved(m, m, {d}, target)
  {
  }

  lemma Unseen(was: Memory, n: Memory, seen: set<Node>, d: Node, target: Node)
    requires target in was && d in was && Preserved(was, n, seen, target) && !RefersTo(was[d], target)
    requires !RefersTo(was[target], target)
    ensures n.Keys == was.Keys && n[d] == was[d] && n[target] == was[target]
  {
  }

  lemma PreservedMore(was: Memory, m: Memory, n: Memory, seen: set<Node>, more: set<Node>, target: Node)
    requires Editable(was, target) && !RefersTo(was[target], target)
    requires Preserved(was, m, seen, target) && Preserved(m, n, more, target)
    ensures Preserved(was, n, seen + more, target)
  {
  }
}
