/** Setting the profile by editing the parsed document in place. */
module ConfigProfile {
  import opened Wrappers
  import opened ProfileNodes

  const STRING := "!!str"
  const INTEGER := "!!int"
  const NULL := "!!null"
  const VERSION := "version"
  const PROFILE := "profile"

  // ---- what the edit means for the pairs of the document

  /** The index of the first key with a given text; past the end where there is none. */
  function FindKey(items: seq<Value>, key: string): (i: nat)
    ensures i <= |items|
    ensures |items| % 2 == 0 ==> i % 2 == 0
  {
    if |items| < 2 then |items|
    else if items[0].Text? && items[0].text == key then 0
    else 2 + FindKey(items[2..], key)
  }

  function Lookup(items: seq<Value>, key: string): Option<Value> {
    var i := FindKey(items, key);
    if i + 1 < |items| then Some(items[i + 1]) else None
  }

  function Stated(items: seq<Value>): seq<Value> {
    if Lookup(items, VERSION).None? then items + [Text(STRING, VERSION), Text(INTEGER, "1")] else items
  }

  function Edited(items: seq<Value>, profile: string): seq<Value> {
    var i := FindKey(items, PROFILE);
    if i + 1 < |items| then items[i + 1 := Text(STRING, profile)]
    else items + [Text(STRING, PROFILE), Text(STRING, profile)]
  }

  lemma {:induction false} FoundKey(items: seq<Value>, key: string, i: nat)
    requires |items| % 2 == 0 && i % 2 == 0 && i <= |items|
    requires forall j :: 0 <= j < i && j % 2 == 0 ==> !(items[j].Text? && items[j].text == key)
    requires i < |items| ==> items[i].Text? && items[i].text == key
    ensures FindKey(items, key) == i
  {
    if i >= 2 {
      assert !(items[0].Text? && items[0].text == key);
      var rest := items[2..];
      forall j | 0 <= j < i - 2 && j % 2 == 0 ensures !(rest[j].Text? && rest[j].text == key) {
        assert (j + 2) % 2 == 0;
      }
      FoundKey(rest, key, i - 2);
    }
  }

  lemma {:induction false} KeyFound(items: seq<Value>, key: string)
    requires |items| % 2 == 0
    ensures var i := FindKey(items, key);
      && (forall j :: 0 <= j < i && j % 2 == 0 ==> !(items[j].Text? && items[j].text == key))
      && (i < |items| ==> items[i].Text? && items[i].text == key)
  {
    if |items| >= 2 && !(items[0].Text? && items[0].text == key) {
      var rest := items[2..];
      KeyFound(rest, key);
      var i := FindKey(rest, key);
      forall j | 0 <= j < i + 2 && j % 2 == 0 ensures !(items[j].Text? && items[j].text == key) {
        if j >= 2 { assert (j - 2) % 2 == 0 && items[j] == rest[j - 2]; }
      }
    }
  }

  /** Appending a new pair adds its key and leaves every other lookup as it was. */
  lemma AppendedLookup(items: seq<Value>, key: string, value: Value, other: string)
    requires |items| % 2 == 0 && Lookup(items, key).None?
    ensures Lookup(items + [Text(STRING, key), value], other) == if other == key then Some(value)
            else Lookup(items, other)
  {
    KeyFound(items, other);
    var longer := items + [Text(STRING, key), value];
    var i := FindKey(items, other);
    if i < |items| || other == key { FoundKey(longer, other, i); } else { FoundKey(longer, other, |longer|); }
  }

  /** The edit makes the profile what was asked for and changes no other setting, and a
      version is stated afterwards. */
  lemma EditedLookup(items: seq<Value>, profile: string, other: string)
    requires |items| % 2 == 0
    ensures Lookup(Edited(Stated(items), profile), PROFILE) == Some(Text(STRING, profile))
    ensures other != PROFILE && other != VERSION ==>
              Lookup(Edited(Stated(items), profile), other) == Lookup(items, other)
    ensures Lookup(Edited(Stated(items), profile), VERSION) == if Lookup(items, VERSION).Some?
            then Lookup(items, VERSION) else Some(Text(INTEGER, "1"))
  {
    if Lookup(items, VERSION).None? {
      AppendedLookup(items, VERSION, Text(INTEGER, "1"), VERSION);
      AppendedLookup(items, VERSION, Text(INTEGER, "1"), other);
    }
    var stated := Stated(items);
    if Lookup(stated, PROFILE).None? {
      AppendedLookup(stated, PROFILE, Text(STRING, profile), PROFILE);
      AppendedLookup(stated, PROFILE, Text(STRING, profile), VERSION);
      AppendedLookup(stated, PROFILE, Text(STRING, profile), other);
    } else {
      ReplacedLookup(stated, profile, PROFILE);
      ReplacedLookup(stated, profile, VERSION);
      ReplacedLookup(stated, profile, other);
    }
  }

  lemma ReplacedLookup(items: seq<Value>, profile: string, other: string)
    requires |items| % 2 == 0 && Lookup(items, PROFILE).Some?
    ensures Lookup(Edited(items, profile), other) == if other == PROFILE then Some(Text(STRING, profile))
            else Lookup(items, other)
  {
    KeyFound(items, other);
    KeyFound(items, PROFILE);
    FoundKey(Edited(items, profile), other, FindKey(items, other));
  }

  /** Setting the same profile again changes nothing. */
  lemma EditedTwice(items: seq<Value>, profile: string)
    requires |items| % 2 == 0
    ensures var once := Edited(Stated(items), profile); Edited(Stated(once), profile) == once
  {
    var once := Edited(Stated(items), profile);
    EditedLookup(items, profile, PROFILE);
    assert Stated(once) == once;
    KeyFound(once, PROFILE);
    var i := FindKey(once, PROFILE);
    assert once[i + 1 := Text(STRING, profile)] == once;
  }

  // ---- the edit itself

  /** Top-level keys are scalars, not aliases. */
  ghost predicate PlainKeys(m: Memory, mapping: Node) {
    mapping in m &&
    forall i ::
      0 <= i < |m[mapping].content| && i % 2 == 0 ==>
        m[mapping].content[i] in m && m[m[mapping].content[i]].kind.Scalar?
  }

  /** Finds a top-level setting without decoding. */
  method MappingValue(mapping: Node, key: string, ghost world: set<Node>, ghost items: seq<Value>)
        returns (value: Node?)
    requires mapping in world && mapping.kind == Mapping && Means(Snapshot(world), mapping, Pairs(items))
    requires PlainKeys(Snapshot(world), mapping)
    ensures value == null <==> Lookup(items, key).None?
    ensures |mapping.content| == |items| && |items| % 2 == 0
    ensures value != null ==> FindKey(items, key) + 1 < |items| && value == mapping.content[FindKey(items, key) + 1]
  {
    ghost var m := Snapshot(world);
    var i := 0;
    while i < |mapping.content|
      invariant 0 <= i <= |items| && i % 2 == 0
      invariant forall j :: 0 <= j < i && j % 2 == 0 ==> !(items[j].Text? && items[j].text == key)
    {
      assert Means(m, m[mapping].content[i], items[i]) && m[m[mapping].content[i]].kind.Scalar?;
      if mapping.content[i].value == key {
        FoundKey(items, key, i);
        return mapping.content[i + 1];
      }
      i := i + 2;
    }
    FoundKey(items, key, |items|);
    value := null;
  }

  /** Nothing elsewhere changes its value when only the mapping and one of its own
      values, to which no alias refers, change. */
  lemma {:induction false} Elsewhere(m: Memory, n: Memory, mapping: Node, items: seq<Value>, target: Node, d: Node,
          v: Value)
    requires Means(m, mapping, Pairs(items)) && m[mapping].kind == Mapping
    requires forall c :: c in m && c != mapping && c != target ==> c in n && n[c] == m[c]
    requires target == mapping || forall c :: c in m ==> !RefersTo(m[c], target)
    requires forall p :: p in m && p != mapping ==> target !in m[p].content || target == mapping
    requires Means(m, d, v) && (d == target ==> target == mapping) && v < Pairs(items)
    ensures Means(n, d, v)
    decreases v
  {
    var r := Referent(m, d);
    if r == mapping {
      assert Means(m, mapping, v);
      MeansOneThing(m, mapping, v, Pairs(items));
      assert false;
    }
    assert r != target && d != mapping;
    if !v.Text? {
      forall i | 0 <= i < |v.items| ensures Means(n, n[r].content[i], v.items[i]) {
        if m[r].content[i] == mapping {
          MeansOneThing(m, mapping, v.items[i], Pairs(items));
          assert false;
        }
        Elsewhere(m, n, mapping, items, target, m[r].content[i], v.items[i]);
      }
    }
  }

  /** Every node keeps its comments, and its children unless it is the edited mapping. */
  ghost predicate Kept(m: Memory, n: Memory, mapping: Node) {
    forall d :: d in m ==> d in n && n[d].comments == m[d].comments && (d != mapping ==> n[d].content == m[d].content)
  }

  lemma KeptTwice(l: Memory, m: Memory, n: Memory, mapping: Node)
    requires Kept(l, m, mapping) && Kept(m, n, mapping)
    ensures Kept(l, n, mapping)
  {
  }

  /** Gives a mapping one more pair of scalars. */
  method Append(mapping: Node, key: string, tag: string, text: string, ghost world: set<Node>, ghost document: Node,
    ghost level: map<Node, nat>, ghost height: nat, ghost items: seq<Value>)
    returns (ghost larger: set<Node>, ghost levels: map<Node, nat>)
    requires Outline(Snapshot(world), document, level, height) && mapping in world
    requires mapping.kind == Mapping && Means(Snapshot(world), mapping, Pairs(items))
    requires PlainKeys(Snapshot(world), mapping)
    modifies mapping`content
    ensures world <= larger && fresh(larger - world) && Outline(Snapshot(larger), document, levels, height + 1)
    ensures Means(Snapshot(larger), mapping, Pairs(items + [Text(STRING, key), Text(tag, text)]))
    ensures PlainKeys(Snapshot(larger), mapping)
    ensures Kept(old(Snapshot(world)), Snapshot(larger), mapping)
  {
    hide Outline, PlainKeys, Means;
    DocumentIsThere(Snapshot(world), document, level, height);
    ghost var m := Snapshot(world);
    var first := new Node(Kind.Scalar, STRING, key);
    var second := new Node(Kind.Scalar, tag, text);
    mapping.content := mapping.content + [first, second];
    larger := world + {first, second};
    levels := level[first := level[mapping] + 1][second := level[mapping] + 1];
    assert Grown(m, Snapshot(larger), mapping, first, second);
    AppendedMeans(m, Snapshot(larger), mapping, items, first, second);
    AppendedOutline(m, Snapshot(larger), mapping, first, second, document, level, height);
  }

  ghost predicate Grown(m: Memory, n: Memory, mapping: Node, first: Node, second: Node) {
    && mapping in m && first !in m && second !in m && first != second && n.Keys == m.Keys + {first, second}
    && (forall d :: d in m && d != mapping ==> n[d] == m[d])
    && n[mapping] == m[mapping].(content := m[mapping].content + [first, second])
    && n[first].kind == Kind.Scalar && n[second].kind == Kind.Scalar && n[first].content == []
    && n[second].content == []
  }

  lemma AppendedMeans(m: Memory, n: Memory, mapping: Node, items: seq<Value>, first: Node, second: Node)
    requires Grown(m, n, mapping, first, second) && m[mapping].kind == Mapping && Means(m, mapping, Pairs(items))
    requires PlainKeys(m, mapping)
    ensures |m[mapping].content| == |items|
    ensures var added := [Text(n[first].tag, n[first].value), Text(n[second].tag, n[second].value)];
      Means(n, mapping, Pairs(items + added)) && PlainKeys(n, mapping)
  {
    var more := items + [Text(n[first].tag, n[first].value), Text(n[second].tag, n[second].value)];
    var content := m[mapping].content;
    forall i | 0 <= i < |more| ensures Means(n, n[mapping].content[i], more[i]) {
      if i < |items| {
        Elsewhere(m, n, mapping, items, mapping, content[i], items[i]);
      }
    }
    forall i | 0 <= i < |more| && i % 2 == 0 ensures n[n[mapping].content[i]].kind.Scalar? {
      if i < |items| {
        assert content[i] in m && m[content[i]].kind.Scalar?;
      }
    }
  }

  lemma OneParentStill(m: Memory, n: Memory, mapping: Node, first: Node, second: Node)
    requires Grown(m, n, mapping, first, second) && OneParent(m)
    requires forall d, i :: d in m && 0 <= i < |m[d].content| ==> m[d].content[i] in m
    ensures OneParent(n)
  {
    forall d, i | d in n && 0 <= i < |n[d].content|
      ensures n[d].content[i] in n
      ensures if n[d].content[i] in m then d in m && i < |m[d].content| && m[d].content[i] == n[d].content[i]
              else d == mapping && i == |m[d].content| + (if n[d].content[i] == first then 0 else 1)
    {
      if d in m && i < |m[d].content| { assert m[d].content[i] in m; }
    }
  }

  lemma ParentStill(m: Memory, n: Memory, mapping: Node, first: Node, second: Node, d: Node)
    requires Grown(m, n, mapping, first, second) && d in n && (d in m ==> HasParent(m, d))
    ensures HasParent(n, d)
  {
    if d in m {
      var p :| p in m && d in m[p].content;
      assert d in n[p].content;
    } else {
      var i := |m[mapping].content|;
      assert n[mapping].content[i] == first && n[mapping].content[i + 1] == second;
    }
  }

  lemma SoundStill(m: Memory, n: Memory, mapping: Node, first: Node, second: Node, d: Node)
    requires Grown(m, n, mapping, first, second) && m[mapping].kind == Mapping && d in n && (d in m ==> Sound(m, m[d]))
    ensures Sound(n, n[d])
  {
  }

  lemma AppendedOutline(m: Memory, n: Memory, mapping: Node, first: Node, second: Node, document: Node, level: map<Node,
          nat>, height: nat)
    requires Grown(m, n, mapping, first, second) && Outline(m, document, level, height) && m[mapping].kind == Mapping
    ensures Outline(n, document, level[first := level[mapping] + 1][second := level[mapping] + 1], height + 1)
  {
    hide OneParent, HasParent, Sound;
    var levels := level[first := level[mapping] + 1][second := level[mapping] + 1];
    forall d | d in n ensures Sound(n, n[d]) {
      SoundStill(m, n, mapping, first, second, d);
    }
    forall d | d in n && d != document ensures HasParent(n, d) {
      ParentStill(m, n, mapping, first, second, d);
    }
    OneParentStill(m, n, mapping, first, second);
    forall d, i | d in n && 0 <= i < |n[d].content|
      ensures n[d].content[i] in n && levels[n[d].content[i]] == levels[d] + 1
    {
      if d in m && i < |m[d].content| { assert m[d].content[i] in m; }
    }
  }

  /** Overwrites one of the mapping's own values, to which no alias refers any more. */
  method Overwrite(mapping: Node, target: Node, profile: string, ghost world: set<Node>, ghost document: Node,
    ghost level: map<Node, nat>, ghost height: nat, ghost items: seq<Value>, ghost i: nat)
    requires Outline(Snapshot(world), document, level, height) && mapping in world && target in world
    requires mapping.kind == Mapping && Means(Snapshot(world), mapping, Pairs(items))
    requires i < |items| && i < |mapping.content| && mapping.content[i] == target
    requires Editable(Snapshot(world), target) && forall d :: d in world ==> !RefersTo(Snapshot(world)[d], target)
    modifies target
    ensures Outline(Snapshot(world), document, level, height)
    ensures Means(Snapshot(world), mapping, Pairs(items[i := Text(STRING, profile)]))
    ensures Kept(old(Snapshot(world)), Snapshot(world), mapping)
  {
    hide Outline, Means, RefersTo, Editable;
    ghost var m := Snapshot(world);
    TargetFacts(m, mapping, target, document, level, height, items, i);
    target.kind, target.tag, target.value := Kind.Scalar, STRING, profile;
    target.alias, target.content, target.anchor := null, [], "";
    Overwritten(m, Snapshot(world), mapping, target, document, level, height, items, i);
  }

  lemma TargetFacts(m: Memory, mapping: Node, target: Node, document: Node, level: map<Node, nat>, height: nat,
          items: seq<Value>, i: nat)
    requires Outline(m, document, level, height) && mapping in m && m[mapping].kind == Mapping
    requires Means(m, mapping, Pairs(items))
    requires i < |items| && i < |m[mapping].content| && m[mapping].content[i] == target && Editable(m, target)
    ensures m[target].content == [] && target != mapping && |m[mapping].content| == |items|
  {
    assert Sound(m, m[target]);
  }

  lemma Overwritten(m: Memory, n: Memory, mapping: Node, target: Node, document: Node, level: map<Node, nat>,
          height: nat, items: seq<Value>, i: nat)
    requires Outline(m, document, level, height) && mapping in m && m[mapping].kind == Mapping
    requires Means(m, mapping, Pairs(items)) && i < |items| && m[mapping].content[i] == target
    requires Editable(m, target) && forall d :: d in m ==> !RefersTo(m[d], target)
    requires n.Keys == m.Keys && forall d :: d in m && d != target ==> n[d] == m[d]
    requires n[target].kind == Kind.Scalar && n[target].content == []
    ensures Outline(n, document, level, height)
    ensures Means(n, mapping, Pairs(items[i := Text(n[target].tag, n[target].value)]))
  {
    hide HasParent;
    assert Sound(m, m[target]) && target != mapping;
    forall j | 0 <= j < |items| && j != i ensures Means(n, m[mapping].content[j], items[j]) {
      Elsewhere(m, n, mapping, items, target, m[mapping].content[j], items[j]);
    }
    forall d | d in n ensures Sound(n, n[d]) && n[d].content == m[d].content {
      assert Sound(m, m[d]) && !RefersTo(m[d], target);
    }
    SameContents(m, n);
  }

  datatype Outcome = Written | BlankProfile | Taken | NotAMapping

  predicate Blank(text: string) {
    forall c :: c in text ==> c in " \t\n\r"
  }

  /** The profile that the document sets now, as decoding it shows. */
  function Current(items: seq<Value>): string {
    match Lookup(items, PROFILE)
    case Some(Text(tag, text)) => if tag == NULL then "" else text
    case _ => ""
  }

  /** The pairs that editing starts from: none in an empty or null document. */
  function Start(v: Value): Option<seq<Value>> {
    match v
    case Pairs(items) => Some(items)
    case Text(tag, _) => if tag == NULL then Some([]) else None
    case List(_) => None
  }

  /** The document has a root that decodes, with plain keys and a scalar profile. */
  ghost predicate Decodes(m: Memory, root: Node, v: Value) {
    && root in m && !m[root].kind.Alias? && Means(m, root, v)
    && (v.Pairs? ==> PlainKeys(m, root) && (Lookup(v.items, PROFILE).Some? ==> Lookup(v.items, PROFILE).value.Text?))
  }

  method CurrentProfile(mapping: Node, ghost world: set<Node>, ghost items: seq<Value>) returns (profile: string)
    requires mapping in world && mapping.kind == Mapping && Decodes(Snapshot(world), mapping, Pairs(items))
    ensures profile == Current(items)
  {
    var value := MappingValue(mapping, PROFILE, world, items);
    profile := "";
    if value != null {
      ghost var i := FindKey(items, PROFILE) + 1;
      assert Means(Snapshot(world), mapping.content[i], items[i]);
      var scalar := if value.kind == Alias && value.alias != null then value.alias else value;
      profile := if scalar.tag == NULL then "" else scalar.value;
    }
  }

  /** After materialising no alias refers to the target, and nothing has moved. */
  lemma NothingRefers(m: Memory, n: Memory, document: Node, level: map<Node, nat>, height: nat, seen: set<Node>,
          target: Node, mapping: Node, items: seq<Value>)
    requires Outline(m, document, level, height) && Editable(m, target) && Preserved(m, n, seen, target)
    requires document in seen &&
             forall d, i :: d in seen && d in m && 0 <= i < |m[d].content| ==> m[d].content[i] in seen
    requires Means(m, mapping, Pairs(items)) && m[mapping].kind == Mapping
    ensures Outline(n, document, level, height) && Means(n, mapping, Pairs(items)) && n[mapping] == m[mapping]
    ensures n[target] == m[target]
    ensures Kept(m, n, mapping) && forall d :: d in m ==> !RefersTo(n[d], target)
  {
    assert Sound(m, m[target]);
    PreservedOutline(m, n, document, level, height, seen, target);
    PreservedMeans(m, n, document, level, height, seen, target, mapping, Pairs(items));
    forall d | d in m ensures !RefersTo(n[d], target) {
      AllReached(m, document, level, height, seen, d);
    }
  }

  lemma ValueIsEditable(m: Memory, document: Node, level: map<Node, nat>, height: nat, mapping: Node, items: seq<Value>,
          i: nat)
    requires Outline(m, document, level, height) && mapping in m && m[mapping].kind == Mapping
    requires Means(m, mapping, Pairs(items)) && i < |items| && items[i].Text?
    ensures i < |m[mapping].content| && Editable(m, m[mapping].content[i])
  {
    var target := m[mapping].content[i];
    assert Means(m, target, items[i]);
  }

  method Replace(document: Node, mapping: Node, value: Node, profile: string, ghost world: set<Node>,
          ghost level: map<Node, nat>, ghost height: nat, ghost items: seq<Value>, ghost i: nat)
    requires Outline(Snapshot(world), document, level, height) && mapping in world
    requires mapping.kind == Mapping && Means(Snapshot(world), mapping, Pairs(items))
    requires i < |items| && items[i].Text? && i < |mapping.content| && mapping.content[i] == value
    modifies world
    ensures Outline(Snapshot(world), document, level, height)
    ensures Means(Snapshot(world), mapping, Pairs(items[i := Text(STRING, profile)]))
    ensures Kept(old(Snapshot(world)), Snapshot(world), mapping)
  {
    hide Outline, Preserved, Means, Kept;
    ghost var m := Snapshot(world);
    DocumentIsThere(m, document, level, height);
    ValueIsEditable(m, document, level, height, mapping, items, i);
    ghost var seen := PreserveAliases(document, value, world, document, level, height);
    ghost var n := Snapshot(world);
    NothingRefers(m, n, document, level, height, seen, value, mapping, items);
    assert n[mapping] == FormOf(mapping) && mapping.content[i] == value;
    Overwrite(mapping, value, profile, world, document, level, height, items, i);
    KeptTwice(m, n, Snapshot(world), mapping);
  }

  method SetPair(document: Node, mapping: Node, profile: string, ghost world: set<Node>, ghost level: map<Node, nat>,
          ghost height: nat, ghost items: seq<Value>)
    returns (ghost larger: set<Node>, ghost levels: map<Node, nat>, ghost higher: nat)
    requires Outline(Snapshot(world), document, level, height) && mapping in world
    requires mapping.kind == Mapping && Decodes(Snapshot(world), mapping, Pairs(items))
    modifies world
    ensures world <= larger && fresh(larger - world) && Outline(Snapshot(larger), document, levels, higher)
    ensures Means(Snapshot(larger), mapping, Pairs(Edited(items, profile)))
    ensures Kept(old(Snapshot(world)), Snapshot(larger), mapping)
  {
    hide Outline, Preserved, Means, PlainKeys, Kept;
    var value := MappingValue(mapping, PROFILE, world, items);
    larger, levels, higher := world, level, height;
    if value != null {
      Replace(document, mapping, value, profile, world, level, height, items, FindKey(items, PROFILE) + 1);
    } else {
      larger, levels := Append(mapping, PROFILE, STRING, profile, world, document, level, height, items);
      higher := height + 1;
    }
  }

  lemma StatedPairs(items: seq<Value>)
    requires |items| % 2 == 0
    ensures Stated(items) == if Lookup(items, VERSION).None? then items + [Text(STRING, VERSION), Text(INTEGER, "1")]
            else items
    ensures Lookup(Stated(items), PROFILE) == Lookup(items, PROFILE)
  {
    if Lookup(items, VERSION).None? { AppendedLookup(items, VERSION, Text(INTEGER, "1"), PROFILE); }
  }

  /** Edits the pairs of the root: states a version and sets the profile. */
  method EditRoot(document: Node, mapping: Node, profile: string, ghost world: set<Node>, ghost level: map<Node, nat>,
          ghost height: nat, ghost items: seq<Value>)
    returns (ghost larger: set<Node>, ghost levels: map<Node, nat>, ghost higher: nat)
    requires Outline(Snapshot(world), document, level, height) && mapping in world
    requires mapping.kind == Mapping && Decodes(Snapshot(world), mapping, Pairs(items))
    modifies world
    ensures world <= larger && fresh(larger - world) && Outline(Snapshot(larger), document, levels, higher)
    ensures Means(Snapshot(larger), mapping, Pairs(Edited(Stated(items), profile)))
    ensures Kept(old(Snapshot(world)), Snapshot(larger), mapping)
  {
    hide Outline, Means, PlainKeys, Stated, Edited, Lookup, FindKey;
    ghost var m := Snapshot(world);
    var version := MappingValue(mapping, VERSION, world, items);
    larger, levels, higher := world, level, height;
    if version == null {
      larger, levels := Append(mapping, VERSION, INTEGER, "1", world, document, level, height, items);
      higher := height + 1;
    }
    StatedPairs(items);
    ghost var stated := larger;
    ghost var n := Snapshot(stated);
    assert Kept(m, n, mapping);
    larger, levels, higher := SetPair(document, mapping, profile, stated, levels, higher, Stated(items));
    KeptTwice(m, n, Snapshot(larger), mapping);
  }

  /** What the edit will mean: nothing where it is refused. */
  function Wanted(v: Value, profile: string, force: bool): Option<seq<Value>> {
    if Blank(profile) then None
    else match Start(v)
      case None => None
      case Some(items) =>
        if Current(items) in {"", profile} || force then Some(Edited(Stated(items), profile)) else None
  }

  /** Afterwards the document sets the profile; force only matters when it sets another
      one, and then it makes the very edit that would be made without. */
  lemma ForceOverrides(v: Value, profile: string)
    requires v.Pairs? ==> |v.items| % 2 == 0
    ensures Wanted(v, profile, true).Some? <==> !Blank(profile) && !v.List? && (v.Text? ==> v.tag == NULL)
    ensures Wanted(v, profile, true).Some? ==> Current(Wanted(v, profile, true).value) == profile
    ensures Wanted(v, profile, false) == Wanted(v, profile, true) ||
            (Wanted(v, profile, false).None? && v.Pairs? && Current(v.items) != "" && Current(v.items) != profile)
    ensures v.Pairs? && Current(v.items) != "" && Current(v.items) != profile ==> Wanted(v, profile, false).None?
  {
    hide Edited, Stated;
    if Start(v).Some? { EditedLookup(Start(v).value, profile, PROFILE); }
  }

  /** A parsed document: empty, or with one root that decodes. */
  ghost predicate Parsed(m: Memory, document: Node, v: Value) {
    && document in m
    && if m[document].content == [] then v == Text(NULL, "")
       else |m[document].content| == 1 && Decodes(m, m[document].content[0], v)
  }

  /** A document whose root is a mapping that stands for the pairs. */
  ghost predicate Rooted(m: Memory, document: Node, level: map<Node, nat>, height: nat, root: Node, items: seq<Value>) {
    && Outline(m, document, level, height) && document in m && m[document].content == [root]
    && root in m && m[root].kind == Mapping && Decodes(m, root, Pairs(items))
  }

  ghost predicate SameComments(m: Memory, n: Memory) {
    forall d :: d in m ==> d in n && n[d].comments == m[d].comments
  }

  /** Whether the profile may be set. */
  method Decide(document: Node, profile: string, force: bool, ghost world: set<Node>, ghost v: Value)
        returns (outcome: Outcome)
    requires document in world && Parsed(Snapshot(world), document, v)
    ensures outcome == Written <==> Wanted(v, profile, force).Some?
  {
    if forall i :: 0 <= i < |profile| ==> profile[i] in " \t\n\r" { return BlankProfile; }
    if document.content != [] {
      var root := document.content[0];
      assert Decodes(Snapshot(world), root, v);
      if root.kind == Mapping {
        var current := CurrentProfile(root, world, v.items);
        if current != "" && current != profile && !force { return Taken; }
      } else if !(root.kind == Kind.Scalar && root.tag == NULL) {
        return NotAMapping;
      }
    }
    outcome := Written;
  }

  /** An empty document gets a mapping for its root. */
  method PlantRoot(document: Node, ghost world: set<Node>, ghost level: map<Node, nat>, ghost height: nat)
    returns (root: Node, ghost larger: set<Node>, ghost levels: map<Node, nat>)
    requires Outline(Snapshot(world), document, level, height) && document in world && document.content == []
    modifies document`content
    ensures world <= larger && fresh(larger - world)
    ensures Rooted(Snapshot(larger), document, levels, height + 1, root, [])
    ensures SameComments(old(Snapshot(world)), Snapshot(larger))
  {
    hide Outline;
    ghost var m := Snapshot(world);
    root := new Node(Mapping, "!!map", "");
    document.content := [root];
    larger := world + {root};
    levels := level[root := 1];
    Planted(m, Snapshot(larger), document, level, height, root);
  }

  /** A null root becomes an empty mapping. */
  method ClearRoot(document: Node, root: Node, ghost world: set<Node>, ghost level: map<Node, nat>, ghost height: nat)
    requires Outline(Snapshot(world), document, level, height) && document in world && root in world
    requires document.content == [root] && root.kind.Scalar?
    modifies root
    ensures Rooted(Snapshot(world), document, level, height, root, [])
    ensures SameComments(old(Snapshot(world)), Snapshot(world))
  {
    ghost var m := Snapshot(world);
    DocumentIsThere(m, document, level, height);
    hide Outline;
    root.kind, root.tag, root.value := Mapping, "!!map", "";
    NullRoot(m, Snapshot(world), document, level, height, root);
  }

  lemma Higher(m: Memory, document: Node, level: map<Node, nat>, height: nat)
    requires Outline(m, document, level, height)
    ensures Outline(m, document, level, height + 1)
  {
  }

  lemma NullRoot(m: Memory, n: Memory, document: Node, level: map<Node, nat>, height: nat, root: Node)
    requires Outline(m, document, level, height) && root in m && m[root].kind.Scalar?
    requires n.Keys == m.Keys && n[root] == m[root].(kind := Mapping, tag := "!!map", value := "")
    requires forall d :: d in m && d != root ==> n[d] == m[d]
    ensures Outline(n, document, level, height) && Means(n, root, Pairs([])) && n[root].content == []
  {
    hide OneParent, HasParent;
    assert Sound(m, m[root]);
    forall d | d in m ensures Sound(n, n[d]) {
      assert Sound(m, m[d]);
    }
    SameContents(m, n);
  }

  lemma Planted(m: Memory, n: Memory, document: Node, level: map<Node, nat>, height: nat, root: Node)
    requires Outline(m, document, level, height) && m[document].content == [] && root !in m
    requires n.Keys == m.Keys + {root} && n[document] == m[document].(content := [root])
    requires n[root].kind == Mapping && n[root].content == []
    ensures Outline(n, document, level[root := 1], height + 1) && Means(n, root, Pairs([]))
  {
    Lonely(m, document, level, height);
    assert HasParent(n, root) by { assert root in n[document].content; }
  }

  lemma Lonely(m: Memory, document: Node, level: map<Node, nat>, height: nat)
    requires Outline(m, document, level, height) && m[document].content == []
    ensures m.Keys == {document} && m[document].kind == Document
  {
    forall d | d in m ensures d == document {
      AllReached(m, document, level, height, {document}, d);
    }
    assert Sound(m, m[document]);
  }

  /** Sets the profile of a parsed document, or refuses and leaves it alone. */
  method SetProfile(document: Node, profile: string, force: bool, ghost world: set<Node>, ghost level: map<Node, nat>,
          ghost height: nat, ghost v: Value)
    returns (outcome: Outcome, ghost larger: set<Node>, ghost levels: map<Node, nat>, ghost higher: nat)
    requires Outline(Snapshot(world), document, level, height) && document in world
    requires Parsed(Snapshot(world), document, v)
    modifies world
    ensures outcome == Written <==> Wanted(v, profile, force).Some?
    ensures outcome == Written ==>
              document.content != [] &&
              Means(Snapshot(larger), document.content[0], Pairs(Wanted(v, profile, force).value))
    ensures outcome == Written ==> world <= larger && Outline(Snapshot(larger), document, levels, higher)
    ensures outcome != Written ==> Snapshot(world) == old(Snapshot(world))
    ensures SameComments(old(Snapshot(world)), Snapshot(world))
  {
    hide Outline, Means, PlainKeys;
    larger, levels, higher := world, level, height;
    outcome := Decide(document, profile, force, world, v);
    if outcome != Written { return; }
    ghost var items := Start(v).value;
    var mapping;
    if document.content == [] {
      mapping, larger, levels := PlantRoot(document, world, level, height);
      higher := height + 1;
    } else {
      mapping := document.content[0];
      RootCase(Snapshot(world), mapping, v);
      if mapping.kind == Kind.Scalar { ClearRoot(document, mapping, world, level, height); }
    }
    ghost var all, m := larger, Snapshot(larger);
    assert Rooted(m, document, levels, higher, mapping, items);
    assert SameComments(old(Snapshot(world)), m);
    DocumentIsThere(m, document, levels, higher);
    assert m[document].content[0] == mapping && document != mapping;
    larger, levels, higher := EditRoot(document, mapping, profile, all, levels, higher, items);
    StillRoot(m, Snapshot(larger), document, mapping);
  }

  lemma RootCase(m: Memory, root: Node, v: Value)
    requires Decodes(m, root, v) && Start(v).Some?
    ensures if m[root].kind == Mapping then v == Pairs(Start(v).value) else m[root].kind.Scalar? && Start(v).value == []
  {
  }

  lemma StillRoot(m: Memory, n: Memory, document: Node, mapping: Node)
    requires Kept(m, n, mapping) && document in m && document != mapping
    ensures n[document].content == m[document].content && SameComments(m, n)
  {
  }
}
