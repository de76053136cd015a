/** Merging decoded configuration files in place.  A replaced value is shared with the
    overlay that it came from, and later overlays change it there. */
module ConfigFiles {
  import opened ConfigTree

  datatype Item = Other(text: string) | Dict(dict: Dictionary)

  class Dictionary {
    var entries: map<string, Item>

    constructor ()
      ensures entries == map[]
    {
      entries := map[];
    }
  }

  /** What a set of dictionaries holds at one moment. */
  type Memory = map<Dictionary, map<string, Item>>

  ghost function Snapshot(world: set<Dictionary>): Memory
    reads world
  {
    map d | d in world :: d.entries
  }

  /** The dictionaries at and below an item that stands for a tree. */
  ghost function Owned(m: Memory, item: Item, t: Tree): set<Dictionary>
    decreases t
  {
    if item.Dict? && t.Mapping? && item.dict in m
    then {item.dict} +
      (set k, d | k in t.entries && k in m[item.dict] && d in Owned(m, m[item.dict][k], t.entries[k]) :: d)
    else {}
  }

  /** An item stands for a tree: the same keys, the same values, and no dictionary
      reached twice. */
  ghost predicate Stands(m: Memory, item: Item, t: Tree)
    decreases t
  {
    match item
    case Other(text) => t == Leaf(text)
    case Dict(d) =>
      && t.Mapping? && d in m && m[d].Keys == t.entries.Keys
      && (forall k :: k in t.entries ==> Stands(m, m[d][k], t.entries[k]) && d !in Owned(m, m[d][k], t.entries[k]))
      && (forall j, k ::
            j in t.entries && k in t.entries && j != k ==>
              Owned(m, m[d][j], t.entries[j]) !! Owned(m, m[d][k], t.entries[k]))
  }

  /** What an item stands for depends on the dictionaries that it owns only. */
  lemma {:induction false} StandsStill(m: Memory, n: Memory, item: Item, t: Tree)
    requires Stands(m, item, t)
    requires forall d :: d in Owned(m, item, t) ==> d in m && d in n && n[d] == m[d]
    ensures Stands(n, item, t) && Owned(n, item, t) == Owned(m, item, t)
    decreases t
  {
    if item.Dict? {
      var d := item.dict;
      assert d in Owned(m, item, t);
      forall k | k in t.entries
        ensures Stands(n, n[d][k], t.entries[k]) && Owned(n, n[d][k], t.entries[k]) == Owned(m, m[d][k], t.entries[k])
      {
        assert Owned(m, m[d][k], t.entries[k]) <= Owned(m, item, t);
        StandsStill(m, n, m[d][k], t.entries[k]);
      }
    }
  }

  /** The dictionaries at and below one key. */
  ghost function OwnedAt(m: Memory, d: Dictionary, t: map<string, Tree>, k: string): set<Dictionary> {
    if d in m && k in m[d] && k in t then Owned(m, m[d][k], t[k]) else {}
  }

  lemma Branches(m: Memory, d: Dictionary, t: map<string, Tree>)
    requires Stands(m, Dict(d), Mapping(t))
    ensures d in Owned(m, Dict(d), Mapping(t))
    ensures forall k :: OwnedAt(m, d, t, k) <= Owned(m, Dict(d), Mapping(t)) - {d}
    ensures forall j, k :: j != k ==> OwnedAt(m, d, t, j) !! OwnedAt(m, d, t, k)
    ensures forall k :: k in t ==> k in m[d] && Stands(m, m[d][k], t[k])
  {
  }

  /** A key that has been merged. */
  ghost predicate Done(was: Memory, m: Memory, base: Dictionary, overlay: Dictionary, b: map<string, Tree>,
          o: map<string, Tree>, k: string)
    requires k in b || k in o
  {
    && base in m && k in m[base] && Stands(m, m[base][k], Overlaid(b, o, k))
    && Owned(m, m[base][k], Overlaid(b, o, k)) <= OwnedAt(was, base, b, k) + OwnedAt(was, overlay, o, k)
  }

  /** A key that has not been merged yet: on both sides all is as it was. */
  ghost predicate Waiting(was: Memory, m: Memory, base: Dictionary, overlay: Dictionary, b: map<string, Tree>,
          o: map<string, Tree>, k: string) {
    && base in m && base in was && overlay in was && (k in m[base] <==> k in b) && (k in was[base] <==> k in b)
    && (k in was[overlay] <==> k in o)
    && (k in b ==>
          m[base][k] == was[base][k] && Stands(m, m[base][k], b[k]) &&
          Owned(m, m[base][k], b[k]) == OwnedAt(was, base, b, k))
    && (k in o ==> Stands(m, was[overlay][k], o[k]) && Owned(m, was[overlay][k], o[k]) == OwnedAt(was, overlay, o, k))
  }

  /** Some of the overlay's keys have been merged. */
  ghost predicate Progress(was: Memory, m: Memory, base: Dictionary, overlay: Dictionary, b: map<string, Tree>,
          o: map<string, Tree>, rest: set<string>) {
    && base in m && m[base].Keys == b.Keys + (o.Keys - rest)
    && (forall k :: k in o && k !in rest ==> Done(was, m, base, overlay, b, o, k))
    && (forall k :: (k in b && k !in o) || k in rest ==> Waiting(was, m, base, overlay, b, o, k))
  }

  /** Base and overlay own different dictionaries. */
  ghost predicate Apart(m: Memory, base: Dictionary, overlay: Dictionary, b: map<string, Tree>, o: map<string, Tree>) {
    && Stands(m, Dict(base), Mapping(b)) && Stands(m, Dict(overlay), Mapping(o))
    && Owned(m, Dict(base), Mapping(b)) !! Owned(m, Dict(overlay), Mapping(o))
  }

  /** The memories differ at base's own entry for one key, and below that key. */
  ghost predicate ChangedAt(was: Memory, m: Memory, n: Memory, base: Dictionary, b: map<string, Tree>, key: string) {
    && base in m && base in n && m.Keys == n.Keys
    && (forall d :: d in m && d != base && d !in OwnedAt(was, base, b, key) ==> n[d] == m[d])
    && (forall k ::
          k != key ==> (k in n[base] <==> k in m[base]) && (k in m[base] && k in n[base] ==> n[base][k] == m[base][k]))
  }

  lemma OwnedIsThere(m: Memory, item: Item, t: Tree)
    ensures Owned(m, item, t) <= m.Keys
    decreases t
  {
    if item.Dict? && t.Mapping? && item.dict in m {
      forall k | k in t.entries && k in m[item.dict] ensures Owned(m, m[item.dict][k], t.entries[k]) <= m.Keys {
        OwnedIsThere(m, m[item.dict][k], t.entries[k]);
      }
    }
  }

  lemma OthersStay(was: Memory, m: Memory, n: Memory, base: Dictionary, overlay: Dictionary, b: map<string, Tree>,
          o: map<string, Tree>, key: string, k: string)
    requires Apart(was, base, overlay, b, o) && ChangedAt(was, m, n, base, b, key)
    requires k != key && (k in b || k in o)
    ensures Done(was, m, base, overlay, b, o, k) ==> Done(was, n, base, overlay, b, o, k)
    ensures Waiting(was, m, base, overlay, b, o, k) ==> Waiting(was, n, base, overlay, b, o, k)
  {
    hide Stands, Owned;
    Branches(was, base, b);
    Branches(was, overlay, o);
    if Done(was, m, base, overlay, b, o, k) {
      OwnedIsThere(m, m[base][k], Overlaid(b, o, k));
      StandsStill(m, n, m[base][k], Overlaid(b, o, k));
    }
    if Waiting(was, m, base, overlay, b, o, k) {
      if k in b { OwnedIsThere(m, m[base][k], b[k]); StandsStill(m, n, m[base][k], b[k]); }
      if k in o { OwnedIsThere(m, was[overlay][k], o[k]); StandsStill(m, n, was[overlay][k], o[k]); }
    }
  }

  /** Two dictionaries at one key own different dictionaries in turn. */
  lemma Below(was: Memory, m: Memory, base: Dictionary, overlay: Dictionary, b: map<string, Tree>, o: map<string, Tree>,
          key: string)
    requires Apart(was, base, overlay, b, o) && Waiting(was, m, base, overlay, b, o, key) && key in o
    ensures was[overlay][key].Dict? <==> o[key].Mapping?
    ensures key in b ==> (m[base][key].Dict? <==> b[key].Mapping?)
    ensures key in b && b[key].Mapping? && o[key].Mapping? ==>
      (Apart(m, m[base][key].dict, was[overlay][key].dict, b[key].entries, o[key].entries)
       && Owned(m, m[base][key], b[key]) == OwnedAt(was, base, b, key) && base !in OwnedAt(was, base, b, key)
       && overlay !in OwnedAt(was, base, b, key))
  {
    Branches(was, base, b);
    Branches(was, overlay, o);
  }

  lemma OneMore(was: Memory, m: Memory, n: Memory, base: Dictionary, overlay: Dictionary, b: map<string, Tree>,
          o: map<string, Tree>, rest: set<string>, key: string)
    requires Apart(was, base, overlay, b, o) && ChangedAt(was, m, n, base, b, key) && key in rest && rest <= o.Keys
    requires Progress(was, m, base, overlay, b, o, rest) && Done(was, n, base, overlay, b, o, key)
    requires n[base].Keys == m[base].Keys + {key}
    ensures Progress(was, n, base, overlay, b, o, rest - {key})
  {
    hide Done, Waiting, Apart;
    forall k | k != key && (k in b || k in o)
      ensures Done(was, m, base, overlay, b, o, k) ==> Done(was, n, base, overlay, b, o, k)
      ensures Waiting(was, m, base, overlay, b, o, k) ==> Waiting(was, n, base, overlay, b, o, k)
    {
      OthersStay(was, m, n, base, overlay, b, o, key, k);
    }
  }

  /** Giving base the overlay's own value does not disturb that value. */
  lemma Shared(was: Memory, m: Memory, n: Memory, base: Dictionary, overlay: Dictionary, b: map<string, Tree>,
          o: map<string, Tree>, key: string)
    requires Apart(was, base, overlay, b, o) && ChangedAt(was, m, n, base, b, key) && key in o
    requires Waiting(was, m, base, overlay, b, o, key) && !(key in b && b[key].Mapping? && o[key].Mapping?)
    requires forall d :: d in m && d != base ==> n[d] == m[d]
    requires key in n[base] && n[base][key] == was[overlay][key]
    ensures Done(was, n, base, overlay, b, o, key)
  {
    hide Stands, Owned;
    Branches(was, base, b);
    Branches(was, overlay, o);
    OwnedIsThere(m, was[overlay][key], o[key]);
    assert base !in OwnedAt(was, overlay, o, key);
    StandsStill(m, n, was[overlay][key], o[key]);
  }

  lemma AllWait(was: Memory, base: Dictionary, overlay: Dictionary, b: map<string, Tree>, o: map<string, Tree>)
    requires Apart(was, base, overlay, b, o)
    ensures Progress(was, was, base, overlay, b, o, o.Keys)
    ensures base in was && overlay in was && was[overlay].Keys == o.Keys
    ensures forall k :: OwnedAt(was, base, b, k) <= Owned(was, Dict(base), Mapping(b))
    ensures base in Owned(was, Dict(base), Mapping(b))
  {
    Branches(was, base, b);
    Branches(was, overlay, o);
  }

  /** When every key is merged, base stands for the merged tree. */
  lemma AllMerged(was: Memory, m: Memory, base: Dictionary, overlay: Dictionary, b: map<string, Tree>,
          o: map<string, Tree>)
    requires Apart(was, base, overlay, b, o)
    requires Progress(was, m, base, overlay, b, o, {})
    ensures Stands(m, Dict(base), Mapping(Merge(b, o)))
    ensures Owned(m, Dict(base), Mapping(Merge(b, o))) <= Owned(was, Dict(base), Mapping(b)) +
              Owned(was, Dict(overlay), Mapping(o))
  {
    hide Stands, Owned, Merge, OwnedAt, Done, Waiting;
    var t := Merge(b, o);
    Branches(was, base, b);
    Branches(was, overlay, o);
    MergedKeys(b, o);
    forall k ensures OwnedAt(m, base, t, k) <= OwnedAt(was, base, b, k) + OwnedAt(was, overlay, o, k) &&
    (k in t ==> Stands(m, m[base][k], t[k])) {
      Merged(was, m, base, overlay, b, o, k);
    }
    Assembled(m, base, t);
    Bounded(m, base, t, Owned(was, Dict(base), Mapping(b)) + Owned(was, Dict(overlay), Mapping(o)));
  }

  lemma Merged(was: Memory, m: Memory, base: Dictionary, overlay: Dictionary, b: map<string, Tree>,
          o: map<string, Tree>, k: string)
    requires base in m && m[base].Keys == b.Keys + o.Keys
    requires k in o ==> Done(was, m, base, overlay, b, o, k)
    requires k in b && k !in o ==> Waiting(was, m, base, overlay, b, o, k)
    ensures OwnedAt(m, base, Merge(b, o), k) <= OwnedAt(was, base, b, k) + OwnedAt(was, overlay, o, k)
    ensures k in Merge(b, o) ==> k in m[base] && Stands(m, m[base][k], Merge(b, o)[k])
  {
    hide Stands, Owned, Merge;
    MergedKeys(b, o);
    MergeEntry(b, o, k);
  }

  lemma MergedKeys(b: map<string, Tree>, o: map<string, Tree>)
    ensures Merge(b, o).Keys == b.Keys + o.Keys
  {
  }

  lemma Assembled(m: Memory, d: Dictionary, t: map<string, Tree>)
    requires d in m && m[d].Keys == t.Keys
    requires forall k :: k in t ==> Stands(m, m[d][k], t[k])
    requires forall k :: d !in OwnedAt(m, d, t, k)
    requires forall j, k :: j != k ==> OwnedAt(m, d, t, j) !! OwnedAt(m, d, t, k)
    ensures Stands(m, Dict(d), Mapping(t))
  {
    forall k | k in t ensures d !in Owned(m, m[d][k], t[k]) {
      assert d !in OwnedAt(m, d, t, k);
    }
    forall j, k | j in t && k in t && j != k ensures Owned(m, m[d][j], t[j]) !! Owned(m, m[d][k], t[k]) {
      assert OwnedAt(m, d, t, j) !! OwnedAt(m, d, t, k);
    }
  }

  lemma Bounded(m: Memory, d: Dictionary, t: map<string, Tree>, bound: set<Dictionary>)
    requires d in bound && forall k :: OwnedAt(m, d, t, k) <= bound
    ensures Owned(m, Dict(d), Mapping(t)) <= bound
  {
    forall c | c in Owned(m, Dict(d), Mapping(t)) && c != d ensures c in bound {
      var k :| k in t && k in m[d] && c in Owned(m, m[d][k], t[k]);
      assert c in OwnedAt(m, d, t, k);
    }
  }

  /** Overlays one dictionary on another in place. */
  method MergeValues(base: Dictionary, overlay: Dictionary, ghost world: set<Dictionary>, ghost b: map<string, Tree>,
          ghost o: map<string, Tree>)
    requires Apart(Snapshot(world), base, overlay, b, o)
    modifies Owned(Snapshot(world), Dict(base), Mapping(b))
    ensures Stands(Snapshot(world), Dict(base), Mapping(Merge(b, o)))
    ensures Owned(Snapshot(world), Dict(base), Mapping(Merge(b, o))) <=
              old(Owned(Snapshot(world), Dict(base), Mapping(b)) + Owned(Snapshot(world), Dict(overlay), Mapping(o)))
    decreases Mapping(o), 1
  {
    hide Stands, Owned, Done, Waiting, ChangedAt, OwnedAt, Apart;
    ghost var was := Snapshot(world);
    AllWait(was, base, overlay, b, o);
    var rest := overlay.entries.Keys;
    while rest != {}
      invariant rest <= o.Keys && overlay.entries == was[overlay]
      invariant Progress(was, Snapshot(world), base, overlay, b, o, rest)
      decreases rest
    {
      var key :| key in rest;
      ghost var m := Snapshot(world);
      MergeKey(base, overlay, key, world, was, b, o);
      OneMore(was, m, Snapshot(world), base, overlay, b, o, rest, key);
      rest := rest - {key};
    }
    AllMerged(was, Snapshot(world), base, overlay, b, o);
  }

  /** One key of the overlay. */
  method MergeKey(base: Dictionary, overlay: Dictionary, key: string, ghost world: set<Dictionary>, ghost was: Memory,
          ghost b: map<string, Tree>, ghost o: map<string, Tree>)
    requires Apart(was, base, overlay, b, o) && base in world && overlay in world && was.Keys == world
    requires key in o && Waiting(was, Snapshot(world), base, overlay, b, o, key) && overlay.entries == was[overlay]
    modifies base, OwnedAt(was, base, b, key)
    ensures Done(was, Snapshot(world), base, overlay, b, o, key)
    ensures ChangedAt(was, old(Snapshot(world)), Snapshot(world), base, b, key)
    ensures base.entries.Keys == old(base.entries).Keys + {key}
    ensures overlay.entries == was[overlay]
    decreases Mapping(o), 0
  {
    hide Owned, Stands;
    Below(was, Snapshot(world), base, overlay, b, o, key);
    var value := overlay.entries[key];
    if key in base.entries && base.entries[key].Dict? && value.Dict? {
      MergeValues(base.entries[key].dict, value.dict, world, b[key].entries, o[key].entries);
    } else {
      ghost var m := Snapshot(world);
      base.entries := base.entries[key := value];
      Shared(was, m, Snapshot(world), base, overlay, b, o, key);
    }
  }

  /** One configuration file: it could not be read or strictly decoded, or its values. */
  datatype File = Unreadable | Decoded(values: Dictionary)

  const VERSION := "version"
  const ONE := "!!int 1"

  /** A file that loads: it decodes, and states version 1 if it states any. */
  predicate Loads(file: File, t: map<string, Tree>) {
    file.Decoded? && (VERSION in t ==> t[VERSION] == Leaf(ONE))
  }

  ghost function OwnedBy(m: Memory, file: File, t: map<string, Tree>): set<Dictionary> {
    match file case Unreadable => {} case Decoded(d) => Owned(m, Dict(d), Mapping(t))
  }

  /** Every decoded file stands for its tree, and no two share a dictionary. */
  ghost predicate Separate(m: Memory, files: seq<File>, trees: seq<map<string, Tree>>)
    requires |files| == |trees|
  {
    && (forall i :: 0 <= i < |files| && files[i].Decoded? ==> Stands(m, Dict(files[i].values), Mapping(trees[i])))
    && (forall i, j :: 0 <= i < j < |files| ==> OwnedBy(m, files[i], trees[i]) !! OwnedBy(m, files[j], trees[j]))
  }

  /** A file that is still to be merged is as it was, and shares nothing yet. */
  ghost predicate Ahead(was: Memory, m: Memory, mine: set<Dictionary>, file: File, t: map<string, Tree>) {
    && mine !! OwnedBy(was, file, t)
    && forall d :: d in OwnedBy(was, file, t) ==> d in was && d in m && m[d] == was[d]
  }

  /** The files before the i-th are merged. */
  ghost predicate Loaded(was: Memory, m: Memory, merged: Dictionary, t: map<string, Tree>, files: seq<File>,
          trees: seq<map<string, Tree>>, i: nat)
    requires |files| == |trees|
  {
    && Stands(m, Dict(merged), Mapping(t))
    && forall j :: i <= j < |files| ==> Ahead(was, m, Owned(m, Dict(merged), Mapping(t)), files[j], trees[j])
  }

  /** Loads and merges files in their order; refused when any file is. */
  method LoadFiles(files: seq<File>, ghost world: set<Dictionary>, ghost trees: seq<map<string, Tree>>)
        returns (merged: Dictionary, ok: bool)
    requires |files| == |trees| && Separate(Snapshot(world), files, trees)
    modifies world
    ensures fresh(merged)
    ensures ok <==> files != [] && forall i :: 0 <= i < |files| ==> Loads(files[i], trees[i])
    ensures ok ==> Stands(Snapshot(world + {merged}), Dict(merged), Mapping(Fold(trees)))
  {
    hide Stands, Owned, Loaded, Separate, Merge;
    merged := new Dictionary();
    ok := files != [];
    ghost var all := world + {merged};
    ghost var was := Snapshot(all);
    ghost var t: map<string, Tree> := map[];
    Start(Snapshot(world), was, merged, files, trees);
    for i := 0 to |files|
      invariant ok <==> files != [] && forall j :: 0 <= j < i ==> Loads(files[j], trees[j])
      invariant Loaded(was, Snapshot(all), merged, t, files, trees, i)
      invariant ok ==> t == Fold(trees[..i])
    {
      assert trees[..i + 1][..i] == trees[..i];
      if files[i].Unreadable? {
        ok := false;
        NextFile(was, Snapshot(all), merged, t, files, trees, i);
      } else {
        var good := LoadFile(merged, all, was, t, files, trees, i);
        ok := ok && good;
        t := Merge(t, trees[i]);
      }
    }
    Result(was, Snapshot(all), merged, t, files, trees);
    assert trees[..|files|] == trees;
  }

  method LoadFile(merged: Dictionary, ghost all: set<Dictionary>, ghost was: Memory, ghost t: map<string, Tree>,
          files: seq<File>, ghost trees: seq<map<string, Tree>>, i: nat)
    returns (good: bool)
    requires |files| == |trees| && i < |files| && files[i].Decoded?
    requires Separate(was, files, trees) && Loaded(was, Snapshot(all), merged, t, files, trees, i)
    modifies all
    ensures good <==> Loads(files[i], trees[i])
    ensures Loaded(was, Snapshot(all), merged, Merge(t, trees[i]), files, trees, i + 1)
  {
    hide Stands, Owned, Merge;
    var values := files[i].values;
    ghost var m := Snapshot(all);
    OwnedIsThere(m, Dict(merged), Mapping(t));
    StandsStill(was, m, Dict(values), Mapping(trees[i]));
    Branches(m, values, trees[i]);
    good := true;
    KeysAgree(m, values, trees[i]);
    if VERSION in values.entries {
      OnlyText(m, values.entries[VERSION], trees[i][VERSION]);
      good := values.entries[VERSION] == Other(ONE);
    }
    MergeValues(merged, values, all, t, trees[i]);
    forall j | i < j < |files|
      ensures Ahead(was, Snapshot(all), Owned(Snapshot(all), Dict(merged), Mapping(Merge(t, trees[i]))), files[j],
                    trees[j])
    {
      assert OwnedBy(was, files[i], trees[i]) !! OwnedBy(was, files[j], trees[j]);
    }
  }

  lemma KeysAgree(m: Memory, d: Dictionary, t: map<string, Tree>)
    requires Stands(m, Dict(d), Mapping(t))
    ensures d in m && m[d].Keys == t.Keys
  {
  }

  lemma Start(m: Memory, n: Memory, merged: Dictionary, files: seq<File>, trees: seq<map<string, Tree>>)
    requires |files| == |trees| && Separate(m, files, trees)
    requires merged !in m && merged in n && n[merged] == map[] && forall d :: d in m ==> d in n && n[d] == m[d]
    ensures Separate(n, files, trees) && Loaded(n, n, merged, map[], files, trees, 0)
  {
    SeparateStill(m, n, files, trees);
    assert Owned(n, Dict(merged), Mapping(map[])) == {merged};
  }

  lemma NextFile(was: Memory, m: Memory, merged: Dictionary, t: map<string, Tree>, files: seq<File>,
          trees: seq<map<string, Tree>>, i: nat)
    requires |files| == |trees| && i < |files| && Loaded(was, m, merged, t, files, trees, i)
    ensures Loaded(was, m, merged, t, files, trees, i + 1)
  {
  }

  lemma Result(was: Memory, m: Memory, merged: Dictionary, t: map<string, Tree>, files: seq<File>,
          trees: seq<map<string, Tree>>)
    requires |files| == |trees| && Loaded(was, m, merged, t, files, trees, |files|)
    ensures Stands(m, Dict(merged), Mapping(t))
  {
  }

  lemma OnlyText(m: Memory, item: Item, t: Tree)
    requires Stands(m, item, t)
    ensures item == Other(ONE) <==> t == Leaf(ONE)
  {
  }

  lemma SeparateStill(m: Memory, n: Memory, files: seq<File>, trees: seq<map<string, Tree>>)
    requires |files| == |trees| && Separate(m, files, trees)
    requires forall d :: d in m ==> d in n && n[d] == m[d]
    ensures Separate(n, files, trees)
    ensures forall i :: 0 <= i < |files| ==> OwnedBy(n, files[i], trees[i]) <= m.Keys
  {
    hide Stands, Owned;
    forall i | 0 <= i < |files| && files[i].Decoded?
      ensures Stands(n, Dict(files[i].values), Mapping(trees[i]))
      ensures OwnedBy(n, files[i], trees[i]) == OwnedBy(m, files[i], trees[i])
      ensures OwnedBy(m, files[i], trees[i]) <= m.Keys
    {
      OwnedIsThere(m, Dict(files[i].values), Mapping(trees[i]));
      StandsStill(m, n, Dict(files[i].values), Mapping(trees[i]));
    }
  }
}
