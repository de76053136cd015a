/** Layered configuration as plain trees: what merging files from left to right means
    at every path. */
module ConfigTree {
  import opened Wrappers

  /** A decoded value: a mapping, or anything else (a scalar, a list or null). */
  datatype Tree = Leaf(text: string) | Mapping(entries: map<string, Tree>)

  type Path = seq<string>

  /** Overlays one mapping on another: mappings merge, everything else replaces. */
  function MergeTrees(base: Tree, overlay: Tree): Tree
    requires base.Mapping? && overlay.Mapping?
    decreases overlay
  {
    Mapping(map k | k in base.entries.Keys + overlay.entries.Keys ::
      if k !in overlay.entries then base.entries[k]
      else if k in base.entries && base.entries[k].Mapping? &&
      overlay.entries[k].Mapping? then MergeTrees(base.entries[k], overlay.entries[k])
      else overlay.entries[k])
  }

  function Merge(base: map<string, Tree>, overlay: map<string, Tree>): map<string, Tree> {
    MergeTrees(Mapping(base), Mapping(overlay)).entries
  }

  function Fold(files: seq<map<string, Tree>>): map<string, Tree> {
    if files == [] then map[] else Merge(Fold(files[..|files| - 1]), files[|files| - 1])
  }

  /** The value at a path; `None` where the path leads nowhere. */
  function At(t: map<string, Tree>, p: Path): Option<Tree>
    decreases |p|
  {
    if p == [] then Some(Mapping(t))
    else if p[0] !in t then None
    else if |p| == 1 then Some(t[p[0]])
    else if t[p[0]].Mapping? then At(t[p[0]].entries, p[1..])
    else None
  }

  /** What a path shows: a value other than a mapping, or that there is a mapping. */
  datatype Shown = Nothing | AMapping | Value(text: string)

  function Shows(t: map<string, Tree>, p: Path): Shown {
    match At(t, p)
    case None => Nothing
    case Some(Mapping(_)) => AMapping
    case Some(Leaf(text)) => Value(text)
  }

  /** A file decides a path when it has a value other than a mapping at the path or
      above it, or a mapping at the path. */
  predicate Decides(t: map<string, Tree>, p: Path) {
    p != [] && (Shows(t, p).AMapping? || exists n :: 0 < n <= |p| && Shows(t, p[..n]).Value?)
  }

  lemma DecidesBelow(t: map<string, Tree>, p: Path)
    requires |p| > 1
    ensures Decides(t, p) <==> p[0] in t && (t[p[0]].Leaf? || Decides(t[p[0]].entries, p[1..]))
  {
    assert p[..1][0] == p[0] && p[..|p|] == p;
    if p[0] in t && t[p[0]].Mapping? {
      var below := t[p[0]].entries;
      forall n | 1 < n <= |p| ensures Shows(t, p[..n]) == Shows(below, p[1..][..n - 1]) {
        assert p[..n][1..] == p[1..][..n - 1];
      }
      assert !Shows(t, p[..1]).Value?;
      if Decides(t, p) && !Shows(t, p).AMapping? {
        var n :| 0 < n <= |p| && Shows(t, p[..n]).Value?;
        assert Shows(below, p[1..][..n - 1]).Value?;
      }
      if Decides(below, p[1..]) && !Shows(below, p[1..]).AMapping? {
        var n :| 0 < n <= |p| - 1 && Shows(below, p[1..][..n]).Value?;
        assert Shows(t, p[..n + 1]).Value?;
      }
    } else if p[0] in t {
      assert Shows(t, p[..1]).Value?;
    } else {
      forall n | 0 < n <= |p| ensures Shows(t, p[..n]).Nothing? { assert p[..n][0] == p[0]; }
    }
  }

  lemma DecidesHere(t: map<string, Tree>, p: Path)
    requires |p| == 1
    ensures Decides(t, p) <==> p[0] in t
  {
    assert p[..1] == p;
  }

  /** One overlay: it decides what it decides, and leaves the rest as it was. */
  lemma {:induction false} MergeShows(base: map<string, Tree>, overlay: map<string, Tree>, p: Path)
    requires p != []
    ensures Shows(Merge(base, overlay), p) == if Decides(overlay, p) then Shows(overlay, p) else Shows(base, p)
    decreases |p|
  {
    var k := p[0];
    MergeEntry(base, overlay, k);
    if |p| == 1 {
      DecidesHere(overlay, p);
    } else {
      DecidesBelow(overlay, p);
      if k in overlay && overlay[k].Mapping? && k in base && base[k].Mapping? {
        MergeShows(base[k].entries, overlay[k].entries, p[1..]);
      } else if k in overlay && overlay[k].Mapping? && !Decides(overlay[k].entries, p[1..]) {
        Undecided(overlay[k].entries, p[1..]);
      }
    }
  }

  function Overlaid(base: map<string, Tree>, overlay: map<string, Tree>, k: string): Tree
    requires k in base || k in overlay
  {
    if k !in overlay then base[k]
    else if k in base && base[k].Mapping? &&
    overlay[k].Mapping? then Mapping(Merge(base[k].entries, overlay[k].entries))
    else overlay[k]
  }

  lemma MergeEntry(base: map<string, Tree>, overlay: map<string, Tree>, k: string)
    ensures k in Merge(base, overlay) <==> k in base || k in overlay
    ensures k in Merge(base, overlay) ==> Merge(base, overlay)[k] == Overlaid(base, overlay, k)
  {
  }

  lemma Undecided(t: map<string, Tree>, p: Path)
    requires p != [] && !Decides(t, p)
    ensures Shows(t, p).Nothing?
  {
    assert p[..|p|] == p;
  }

  /** The last of the first n files that decides a path. */
  function LastDeciding(files: seq<map<string, Tree>>, p: Path): Option<nat> {
    if files == [] then None
    else if Decides(files[|files| - 1], p) then Some(|files| - 1)
    else LastDeciding(files[..|files| - 1], p)
  }

  lemma {:induction false} LastDecides(files: seq<map<string, Tree>>, p: Path)
    ensures match LastDeciding(files, p)
            case None => forall i :: 0 <= i < |files| ==> !Decides(files[i], p)
            case Some(n) => n < |files| && Decides(files[n], p) && forall i :: n < i < |files| ==> !Decides(files[i], p)
  {
    if files != [] {
      var less := files[..|files| - 1];
      LastDecides(less, p);
      assert forall i :: 0 <= i < |less| ==> files[i] == less[i];
    }
  }

  /** Last writer wins, path by path: what the merged configuration shows is what the
      last deciding file shows, and nothing is lost or invented besides. */
  lemma {:induction false} FoldShows(files: seq<map<string, Tree>>, p: Path)
    requires p != []
    ensures Shows(Fold(files), p) == match LastDeciding(files, p) case None =>
              Nothing case Some(n) => if n < |files| then Shows(files[n], p) else Nothing
  {
    if files != [] {
      var less := files[..|files| - 1];
      FoldShows(less, p);
      LastDecides(less, p);
      MergeShows(Fold(less), files[|files| - 1], p);
    }
  }

  /** Nothing lies below a value other than a mapping. */
  lemma {:induction false} BelowValue(t: map<string, Tree>, p: Path, n: nat)
    requires 0 < n < |p| && Shows(t, p[..n]).Value?
    ensures Shows(t, p).Nothing?
    decreases |p|
  {
    assert p[..n][0] == p[0];
    if n > 1 {
      assert p[..n][1..] == p[1..][..n - 1];
      BelowValue(t[p[0]].entries, p[1..], n - 1);
    }
  }

  /** The overlay keeps what both files decide: a value that the first one has on the
      way stays exactly where the second one has no mapping in its place. */
  lemma PrefixShows(b: map<string, Tree>, c: map<string, Tree>, p: Path, n: nat)
    requires 0 < n <= |p| && !Decides(c, p)
    ensures Shows(Merge(b, c), p[..n]).Value? <==> Shows(b, p[..n]).Value? && !Shows(c, p[..n]).AMapping?
    ensures Shows(Merge(b, c), p) == Shows(b, p)
  {
    MergeShows(b, c, p);
    MergeShows(b, c, p[..n]);
    forall m | 0 < m <= n ensures !Shows(c, p[..n][..m]).Value? { assert p[..n][..m] == p[..m]; }
  }

  lemma DecidedByOverlay(b: map<string, Tree>, c: map<string, Tree>, p: Path)
    requires Decides(c, p)
    ensures Decides(Merge(b, c), p)
  {
    MergeShows(b, c, p);
    if n :| 0 < n <= |p| && Shows(c, p[..n]).Value? {
      assert p[..n][..n] == p[..n] && Decides(c, p[..n]);
      MergeShows(b, c, p[..n]);
    }
  }

  /** The middle file has a value where the last one has a mapping, above a path that
      the last file leaves alone. */
  predicate Interrupted(b: map<string, Tree>, c: map<string, Tree>, p: Path) {
    !Decides(c, p) && exists n :: 0 < n < |p| && Shows(b, p[..n]).Value? && Shows(c, p[..n]).AMapping?
  }

  /** Unless it is interrupted, a path is decided by one of two files together exactly
      when one of them decides it. */
  lemma DecidedTogether(b: map<string, Tree>, c: map<string, Tree>, p: Path)
    requires p != []
    ensures Decides(Merge(b, c), p) <==> (Decides(b, p) || Decides(c, p)) && !Interrupted(b, c, p)
  {
    if Decides(c, p) {
      DecidedByOverlay(b, c, p);
    } else {
      var d := Merge(b, c);
      forall n | 0 < n <= |p|
        ensures Shows(d, p[..n]).Value? <==> Shows(b, p[..n]).Value? && !Shows(c, p[..n]).AMapping?
        ensures Shows(d, p) == Shows(b, p)
      {
        PrefixShows(b, c, p, n);
      }
      assert p[..|p|] == p;
      assert Shows(d, p) == Shows(b, p) && !Shows(c, p).AMapping?;
      if n :| 0 < n < |p| && Shows(b, p[..n]).Value? && Shows(c, p[..n]).AMapping? {
        BelowValue(b, p, n);
        forall m | 0 < m <= |p| && Shows(b, p[..m]).Value? ensures m == n { OneValue(b, p, m, n); }
      }
    }
  }

  /** On one path there is at most one value other than a mapping. */
  lemma OneValue(t: map<string, Tree>, p: Path, m: nat, n: nat)
    requires 0 < m <= |p| && 0 < n <= |p| && Shows(t, p[..m]).Value? && Shows(t, p[..n]).Value?
    ensures m == n
  {
    if m < n {
      assert p[..n][..m] == p[..m];
      BelowValue(t, p[..n], m);
    } else if n < m {
      assert p[..m][..n] == p[..n];
      BelowValue(t, p[..m], n);
    }
  }

  /** Grouping matters at a path exactly when the first file has something there and
      the last one passes through a mapping where the middle one has a value. */
  lemma GroupingShows(a: map<string, Tree>, b: map<string, Tree>, c: map<string, Tree>, p: Path)
    requires p != []
    ensures Shows(Merge(Merge(a, b), c), p) == Shows(Merge(a, Merge(b, c)), p) <==>
              Shows(a, p).Nothing? || !Interrupted(b, c, p)
  {
    MergeShows(a, b, p);
    MergeShows(Merge(a, b), c, p);
    MergeShows(b, c, p);
    MergeShows(a, Merge(b, c), p);
    DecidedTogether(b, c, p);
    if Interrupted(b, c, p) {
      var n :| 0 < n < |p| && Shows(b, p[..n]).Value? && Shows(c, p[..n]).AMapping?;
      BelowValue(b, p, n);
    }
  }

  /** What all paths show is all that a configuration holds. */
  lemma {:induction false} PathsShowAll(s: Tree, t: Tree)
    requires s.Mapping? && t.Mapping? && forall p :: p != [] ==> Shows(s.entries, p) == Shows(t.entries, p)
    ensures s == t
    decreases s
  {
    forall k ensures (k in s.entries <==> k in t.entries) && (k in s.entries ==> s.entries[k] == t.entries[k]) {
      assert Shows(s.entries, [k]) == Shows(t.entries, [k]);
      if k in s.entries && s.entries[k].Mapping? {
        forall p | p != [] ensures Shows(s.entries[k].entries, p) == Shows(t.entries[k].entries, p) {
          assert ([k] + p)[1..] == p;
          assert Shows(s.entries, [k] + p) == Shows(t.entries, [k] + p);
        }
        PathsShowAll(s.entries[k], t.entries[k]);
      }
    }
    assert s.entries == t.entries;
  }

  /** Three files may be merged in either grouping exactly when no path is interrupted. */
  lemma Associative(a: map<string, Tree>, b: map<string, Tree>, c: map<string, Tree>)
    ensures Merge(Merge(a, b), c) == Merge(a, Merge(b, c)) <==>
              forall p :: p != [] && Interrupted(b, c, p) ==> Shows(a, p).Nothing?
  {
    hide Shows, Interrupted, Merge;
    var l, r := Merge(Merge(a, b), c), Merge(a, Merge(b, c));
    forall p | p != [] ensures Shows(l, p) == Shows(r, p) <==> Shows(a, p).Nothing? || !Interrupted(b, c, p) {
      GroupingShows(a, b, c, p);
    }
    if forall p :: p != [] ==> Shows(l, p) == Shows(r, p) { PathsShowAll(Mapping(l), Mapping(r)); }
  }

  const KEEPS_K := map["x" := Mapping(map["k" := Leaf("1")])]
  const CLEARS_X := map["x" := Leaf("null")]
  const ADDS_M := map["x" := Mapping(map["m" := Leaf("2")])]

  /** A null between two mappings makes merging depend on how it is grouped. */
  lemma NotAssociative()
    ensures Shows(Merge(Merge(KEEPS_K, CLEARS_X), ADDS_M), ["x", "k"]) == Nothing
    ensures Shows(Merge(KEEPS_K, Merge(CLEARS_X, ADDS_M)), ["x", "k"]) == Value("1")
  {
    var a, b, c := KEEPS_K, CLEARS_X, ADDS_M;
    var p := ["x", "k"];
    assert p[1..] == ["k"];
    assert Merge(a, b)["x"] == Leaf("null") && Merge(Merge(a, b), c)["x"] == c["x"];
    assert Merge(b, c)["x"] == c["x"];
    assert Merge(a, Merge(b, c))["x"] == Mapping(Merge(a["x"].entries, c["x"].entries));
    assert Merge(a["x"].entries, c["x"].entries)["k"] == Leaf("1");
  }
}
