/** The closed directory layout that a hand-off manifest declares, and the orders in
    which its directories are created and removed. */
module HandoffLayout {

  /** A relative path as its components; the empty path is the root. */
  type Path = seq<string>

  datatype Digest = Sha256(of: string)

  datatype Record = Record(path: Path, digest: Digest, size: nat)

  datatype Layout = Layout(directories: set<Path>, files: set<Path>)

  const MANIFEST: Path := ["lexr-windows-handoff.json"]

  function Parent(p: Path): Path
    requires p != []
  {
    p[..|p| - 1]
  }

  /** A directory is declared when it is the root or lies above a payload. */
  ghost predicate Declares(payloads: seq<Record>, dir: Path) {
    dir == [] || exists i :: 0 <= i < |payloads| && dir < payloads[i].path
  }

  ghost predicate Lists(payloads: seq<Record>, file: Path) {
    exists i :: 0 <= i < |payloads| && payloads[i].path == file
  }

  ghost predicate IsLayoutOf(l: Layout, payloads: seq<Record>) {
    && (forall d :: d in l.directories <==> Declares(payloads, d))
    && (forall f :: f in l.files <==> f == MANIFEST || Lists(payloads, f))
  }

  ghost predicate ClosedUnderParents(l: Layout) {
    [] in l.directories && forall p :: p in l.directories + l.files && p != [] ==> Parent(p) in l.directories
  }

  /** Every parent of a declared directory or file is declared. */
  lemma LayoutIsClosed(l: Layout, payloads: seq<Record>)
    requires IsLayoutOf(l, payloads)
    ensures ClosedUnderParents(l)
  {
    forall p | p in l.directories + l.files && p != [] ensures Parent(p) in l.directories {
      assert Parent(p) < p;
      if p in l.directories {
        var i :| 0 <= i < |payloads| && p < payloads[i].path;
        assert Parent(p) < payloads[i].path;
      }
    }
  }

  lemma LayoutIsUnique(l: Layout, k: Layout, payloads: seq<Record>)
    requires IsLayoutOf(l, payloads) && IsLayoutOf(k, payloads)
    ensures l == k
  {
    assert forall d :: d in l.directories <==> d in k.directories;
    assert forall f :: f in l.files <==> f in k.files;
  }

  /** Derives the layout: for every payload, its path and all directories above it. */
  method BuildLayout(payloads: seq<Record>) returns (l: Layout)
    requires forall i :: 0 <= i < |payloads| ==> payloads[i].path != []
    ensures IsLayoutOf(l, payloads)
  {
    var directories: set<Path>, files: set<Path> := {[]}, {MANIFEST};
    var i := 0;
    while i < |payloads|
      invariant i <= |payloads| && [] in directories && IsLayoutOf(Layout(directories, files), payloads[..i])
    {
      var path := payloads[i].path;
      ghost var before := directories;
      var parent := Parent(path);
      while parent != []
        invariant parent < path
        invariant forall d :: d in directories <==> d in before || (d < path && |parent| < |d|)
      {
        assert forall d :: d < path && |d| == |parent| ==> d == parent;
        directories := directories + {parent};
        parent := Parent(parent);
      }
      files := files + {path};
      DeclaresMore(payloads, i);
      i := i + 1;
    }
    assert payloads[..i] == payloads;
    l := Layout(directories, files);
  }

  lemma DeclaresMore(payloads: seq<Record>, i: nat)
    requires i < |payloads|
    ensures forall d :: Declares(payloads[..i + 1], d) <==> Declares(payloads[..i], d) || d < payloads[i].path
    ensures forall f :: Lists(payloads[..i + 1], f) <==> Lists(payloads[..i], f) || payloads[i].path == f
  {
    var more, less := payloads[..i + 1], payloads[..i];
    assert more == less + [payloads[i]];
    forall d ensures Declares(more, d) <==> Declares(less, d) || d < payloads[i].path {
      if Declares(less, d) && d != [] {
        var j :| 0 <= j < |less| && d < less[j].path;
        assert d < more[j].path;
      }
      if d < payloads[i].path { assert d < more[i].path; }
    }
    forall f ensures Lists(more, f) <==> Lists(less, f) || payloads[i].path == f {
      if Lists(less, f) {
        var j :| 0 <= j < |less| && less[j].path == f;
        assert more[j].path == f;
      }
      if payloads[i].path == f { assert more[i].path == f; }
    }
  }

  /** All the elements, each once, no deeper path before a shallower one. */
  ghost predicate ShallowestFirst(order: seq<Path>, paths: set<Path>) {
    && (forall p :: p in order <==> p in paths)
    && (forall i, j :: 0 <= i < j < |order| ==> order[i] != order[j] && |order[i]| <= |order[j]|)
  }

  /** Sorts by depth; paths of one depth come in any order. */
  method SortByDepth(paths: set<Path>) returns (order: seq<Path>)
    ensures ShallowestFirst(order, paths)
  {
    var rest := paths;
    order := [];
    while rest != {}
      invariant rest <= paths && ShallowestFirst(order, paths - rest)
      invariant forall p, q :: p in order && q in rest ==> |p| <= |q|
      decreases |rest|
    {
      var p := Shallowest(rest);
      assert forall q :: q in order + [p] <==> q in paths - (rest - {p});
      order := order + [p];
      rest := rest - {p};
    }
  }

  method Shallowest(paths: set<Path>) returns (p: Path)
    requires paths != {}
    ensures p in paths && forall q :: q in paths ==> |p| <= |q|
  {
    p :| p in paths;
    var rest := paths - {p};
    while rest != {}
      invariant p in paths && rest <= paths && forall q :: q in paths - rest ==> |p| <= |q|
      decreases |rest|
    {
      var q :| q in rest;
      rest := rest - {q};
      if |q| < |p| { p := q; }
    }
  }

  lemma ParentComesFirst(order: seq<Path>, paths: set<Path>, i: nat)
    requires ShallowestFirst(order, paths) && i < |order| && order[i] != [] && Parent(order[i]) in paths
    ensures Parent(order[i]) in order[..i]
  {
    var j :| 0 <= j < |order| && order[j] == Parent(order[i]);
    assert |order[j]| < |order[i]|;
    assert j < i;
    assert order[..i][j] == order[j];
  }
}
