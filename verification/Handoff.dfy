/** Importing into and purging from the private store, step by step. */
module Handoff {
  import opened Wrappers
  import opened HandoffLayout
  import opened HandoffStore

  /** Paths and modes of one scanned directory. */
  datatype Shape = Shape(dirs: map<Path, nat>, files: map<Path, nat>)

  function ShapeOf(t: Tree): Shape {
    Shape(t.dirs, map f | f in t.files :: t.files[f].mode)
  }

  predicate Conforms(t: Tree, l: Layout, isPrivate: bool) {
    && t.dirs.Keys == l.directories && t.files.Keys == l.files
    && (isPrivate ==>
          (forall d :: d in t.dirs ==> t.dirs[d] == PRIVATE_DIRECTORY) &&
          forall f :: f in t.files ==> t.files[f].mode == PRIVATE_FILE)
  }

  predicate Declared(t: Tree, l: Layout, isPrivate: bool) {
    && t.dirs.Keys <= l.directories && t.files.Keys <= l.files
    && (isPrivate ==>
          (forall d :: d in t.dirs ==> t.dirs[d] == PRIVATE_DIRECTORY) &&
          forall f :: f in t.files ==> t.files[f].mode == PRIVATE_FILE)
  }

  /** Rejects every undeclared or incorrectly protected path. */
  method RejectUnexpected(t: Tree, l: Layout, isPrivate: bool) returns (ok: bool)
    ensures ok <==> Declared(t, l, isPrivate)
  {
    var dirs := t.dirs.Keys;
    while dirs != {}
      invariant dirs <= t.dirs.Keys
      invariant forall d ::
                  d in t.dirs.Keys - dirs ==> d in l.directories && (isPrivate ==> t.dirs[d] == PRIVATE_DIRECTORY)
      decreases |dirs|
    {
      var d :| d in dirs;
      if d !in l.directories || (isPrivate && t.dirs[d] != PRIVATE_DIRECTORY) { return false; }
      dirs := dirs - {d};
    }
    var files := t.files.Keys;
    while files != {}
      invariant files <= t.files.Keys
      invariant forall f ::
                  f in t.files.Keys - files ==> f in l.files && (isPrivate ==> t.files[f].mode == PRIVATE_FILE)
      decreases |files|
    {
      var f :| f in files;
      if f !in l.files || (isPrivate && t.files[f].mode != PRIVATE_FILE) { return false; }
      files := files - {f};
    }
    ok := true;
  }

  /** Rejects a directory or file that is declared but missing. */
  method RejectMissing(t: Tree, l: Layout) returns (ok: bool)
    ensures ok <==> l.directories <= t.dirs.Keys && l.files <= t.files.Keys
  {
    var dirs := l.directories;
    while dirs != {}
      invariant dirs <= l.directories && forall d :: d in l.directories - dirs ==> d in t.dirs
      decreases |dirs|
    {
      var d :| d in dirs;
      if d !in t.dirs { return false; }
      dirs := dirs - {d};
    }
    var files := l.files;
    while files != {}
      invariant files <= l.files && forall f :: f in l.files - files ==> f in t.files
      decreases |files|
    {
      var f :| f in files;
      if f !in t.files { return false; }
      files := files - {f};
    }
    ok := true;
  }

  /** A scan accepts a directory exactly when its paths are the declared ones. */
  method ScanTree(t: Tree, l: Layout, isPrivate: bool) returns (ok: bool)
    ensures ok <==> Conforms(t, l, isPrivate)
  {
    ok := RejectUnexpected(t, l, isPrivate);
    if ok { ok := RejectMissing(t, l); }
  }

  method Scan(s: Store, n: Name, l: Layout) returns (shape: Option<Shape>)
    requires s.Valid()
    modifies s
    ensures s.Valid() && s.Waited()
    ensures shape.Some? && s.Held(n) ==> Conforms(s.entries[n], l, true) && shape.value == ShapeOf(s.entries[n])
    ensures s.Faultless() && s.Held(n) && Conforms(s.entries[n], l, true) ==> shape.Some?
  {
    var failing := s.Wait();
    if failing || n !in s.entries { return None; }
    var ok := ScanTree(s.entries[n], l, true);
    shape := if ok then Some(ShapeOf(s.entries[n])) else None;
  }

  method ReadFile(s: Store, n: Name, p: Path) returns (file: Option<File>)
    requires s.Valid()
    modifies s
    ensures s.Valid() && s.Waited()
    ensures file.Some? && s.Held(n) ==> p in s.entries[n].files && file.value == s.entries[n].files[p]
    ensures s.Faultless() && s.Held(n) && p in s.entries[n].files ==> file.Some?
    ensures s.Quiet() && n !in s.entries ==> file.None?
  {
    var failing := s.Wait();
    if failing || n !in s.entries || p !in s.entries[n].files { return None; }
    file := Some(s.entries[n].files[p]);
  }

  /** What a purge plan is bound to: paths, kinds, modes, and for files their bytes. */
  datatype ClosedSet = ClosedSet(id: Digest, shape: Shape, digests: map<Path, (nat, Digest)>)

  function ClosedSetOf(id: Digest, t: Tree): ClosedSet {
    ClosedSet(id, ShapeOf(t), map f | f in t.files :: (|t.files[f].bytes|, Sha256(t.files[f].bytes)))
  }

  ghost predicate PayloadsHold(t: Tree, payloads: seq<Record>, i: nat)
    requires i <= |payloads|
  {
    forall j :: 0 <= j < i ==> payloads[j].path in t.files && Holds(t.files[payloads[j].path].bytes, payloads[j])
  }

  predicate PrivateFiles(t: Tree) {
    forall f :: f in t.files ==> t.files[f].mode == PRIVATE_FILE
  }

  /** Rehashes every payload of an entry. */
  method InspectPayloads(s: Store, n: Name, payloads: seq<Record>) returns (digests: Option<map<Path, (nat, Digest)>>)
    requires s.Valid()
    modifies s
    ensures s.Valid() && s.Waited()
    ensures digests.Some? ==> forall p :: p in digests.value <==> Lists(payloads, p)
    ensures digests.Some? && s.Held(n) ==> PayloadsHold(s.entries[n], payloads, |payloads|)
    ensures digests.Some? && s.Held(n) ==>
              forall p ::
                p in digests.value ==>
                  p in s.entries[n].files &&
                  digests.value[p] == (|s.entries[n].files[p].bytes|, Sha256(s.entries[n].files[p].bytes))
    ensures s.Faultless() && s.Held(n) && PayloadsHold(s.entries[n], payloads, |payloads|) &&
            PrivateFiles(s.entries[n]) ==>
              digests.Some?
  {
    hide Store.Lawful, Sound, Chronicle;
    var found: map<Path, (nat, Digest)> := map[];
    var i := 0;
    while i < |payloads|
      invariant i <= |payloads| && s.Valid() && s.Waited()
      invariant forall p :: p in found <==> exists j :: 0 <= j < i && payloads[j].path == p
      invariant s.Held(n) ==> PayloadsHold(s.entries[n], payloads, i)
      invariant s.Held(n) ==>
                  forall p ::
                    p in found ==>
                      p in s.entries[n].files &&
                      found[p] == (|s.entries[n].files[p].bytes|, Sha256(s.entries[n].files[p].bytes))
    {
      ghost var before := s.entries;
      var file := ReadFile(s, n, payloads[i].path);
      assert s.Held(n) ==> View(s.entries, n) == View(before, n);
      if file.None? || !Holds(file.value.bytes, payloads[i]) || file.value.mode != PRIVATE_FILE { return None; }
      found := found[payloads[i].path := (|file.value.bytes|, Sha256(file.value.bytes))];
      i := i + 1;
    }
    digests := Some(found);
  }

  lemma DecodedPaths(s: Store, bytes: string)
    requires s.Valid() && s.decode(bytes).Some?
    ensures forall i :: 0 <= i < |s.decode(bytes).value| ==> s.decode(bytes).value[i].path != []
  {
    hide Chronicle, Sound;
  }

  lemma OwnName(s: Store, n: Name)
    requires s.Valid() && n in s.mine
    ensures n in s.entries && n.Fresh?
  {
    hide Chronicle, Sound, Store.Lawful;
  }

  lemma SameTree(s: Store, h: seq<Step>, e: Entries, n: Name)
    requires s.Valid() && Idle(s.mine, h, s.history, e, s.entries) && (s.Quiet() ==> s.entries == e)
    requires n in s.mine || (s.Quiet() && n in e)
    ensures n in s.entries && n in e && s.entries[n] == e[n] && s.Held(n)
  {
    hide Chronicle, Sound, Store.Lawful, Idle;
    if n in s.mine { IdleKeeps(s.mine, h, s.history, e, s.entries, n); }
    assert View(s.entries, n) == View(e, n);
  }

  lemma HeldName(s: Store, n: Name)
    requires s.Valid() && s.Held(n)
    ensures n in s.entries
  {
    hide Chronicle, Sound, Store.Lawful;
  }

  datatype Audited = Audited(shape: Shape, digests: map<Path, (nat, Digest)>)

  /** The digests are those of the listed payloads of a tree. */
  ghost predicate DigestsOf(digests: map<Path, (nat, Digest)>, t: Tree, payloads: seq<Record>) {
    && (forall p :: p in digests <==> Lists(payloads, p))
    && (forall p ::
          p in digests ==> p in t.files && digests[p] == (|t.files[p].bytes|, Sha256(t.files[p].bytes)))
  }

  /** Scans the declared layout before and after rehashing every payload. */
  method Audit(s: Store, n: Name, payloads: seq<Record>, l: Layout) returns (found: Option<Audited>)
    requires s.Valid()
    modifies s
    ensures s.Valid() && s.Waited()
    ensures found.Some? && s.Held(n) ==>
              Conforms(s.entries[n], l, true) && PayloadsHold(s.entries[n], payloads, |payloads|) &&
              found.value.shape == ShapeOf(s.entries[n]) && DigestsOf(found.value.digests, s.entries[n], payloads)
    ensures s.Faultless() && s.Held(n) && Conforms(s.entries[n], l, true) &&
            PayloadsHold(s.entries[n], payloads, |payloads|) ==>
              found.Some?
  {
    hide Store.Valid, PayloadsHold, Idle;
    IdleGrows();
    ghost var held, h, e := s.Held(n), s.history, s.entries;
    if held { HeldName(s, n); }
    found := None;
    var first := Scan(s, n, l);
    if held { SameTree(s, h, e, n); }
    if first.None? { return; }
    var digests := InspectPayloads(s, n, payloads);
    if held { SameTree(s, h, e, n); }
    if digests.None? { return; }
    var last := Scan(s, n, l);
    if held { SameTree(s, h, e, n); }
    if last != first { return; }
    found := Some(Audited(first.value, digests.value));
  }

  /** The complete audit of one entry: manifest, closed private layout, payloads. */
  method Validate(s: Store, n: Name, id: Digest) returns (closed: Option<ClosedSet>)
    requires s.Valid()
    modifies s
    ensures s.Valid() && s.Waited()
    ensures closed.Some? && s.Held(n) ==>
              Complete(s.decode, s.entries[n], id) && closed.value == ClosedSetOf(id, s.entries[n])
    ensures s.Faultless() && s.Held(n) && Complete(s.decode, s.entries[n], id) ==> closed.Some?
    ensures s.Quiet() && n !in s.entries ==> closed.None?
  {
    hide Store.Valid, IsLayoutOf, Matches, PayloadsHold, Conforms, Idle, ClosedSetOf, DigestsOf;
    IdleGrows();
    ghost var held, h, e := s.Held(n), s.history, s.entries;
    if held { HeldName(s, n); }
    closed := None;
    var manifest := ReadFile(s, n, MANIFEST);
    if held { SameTree(s, h, e, n); }
    if manifest.None? || Sha256(manifest.value.bytes) != id { return; }
    var decoded := s.decode(manifest.value.bytes);
    if decoded.None? { return; }
    DecodedPaths(s, manifest.value.bytes);
    var layout := BuildLayout(decoded.value);
    if held { LayoutMatches(s.entries[n], decoded.value, layout); }
    var found := Audit(s, n, decoded.value, layout);
    if held { SameTree(s, h, e, n); }
    if found.None? { return; }
    var digests := found.value.digests[MANIFEST := (|manifest.value.bytes|, id)];
    closed := Some(ClosedSet(id, found.value.shape, digests));
    if held { AuditedIsClosed(id, s.entries[n], decoded.value, layout, found.value); }
  }

  lemma AuditedIsClosed(id: Digest, t: Tree, payloads: seq<Record>, l: Layout, found: Audited)
    requires IsLayoutOf(l, payloads) && Conforms(t, l, true) && DigestsOf(found.digests, t, payloads)
    requires found.shape == ShapeOf(t) && MANIFEST in t.files && Sha256(t.files[MANIFEST].bytes) == id
    ensures ClosedSetOf(id, t) == ClosedSet(id, found.shape, found.digests[MANIFEST := (|t.files[MANIFEST].bytes|, id)])
  {
    assert forall f :: f in t.files <==> f == MANIFEST || Lists(payloads, f);
  }

  lemma LayoutMatches(t: Tree, payloads: seq<Record>, l: Layout)
    requires IsLayoutOf(l, payloads)
    ensures Matches(t, payloads) <==> Conforms(t, l, true) && PayloadsHold(t, payloads, |payloads|)
  {
    if Matches(t, payloads) { LayoutIsUnique(l, Layout(t.dirs.Keys, t.files.Keys), payloads); }
  }

  lemma ClosedFacts(l: Layout)
    requires ClosedUnderParents(l)
    ensures [] in l.directories && forall p :: p in l.directories && p != [] ==> Parent(p) in l.directories
  {
  }

  /** Creates every declared directory, shallowest first: each finds its parent. */
  method CreateStagingLayout(s: Store, n: Name, l: Layout) returns (ok: bool)
    requires s.Valid() && n in s.mine && s.entries[n] == NEW_TREE && ClosedUnderParents(l)
    modifies s
    ensures s.Valid() && s.Touched(n)
    ensures ok ==> s.entries[n] == Tree(map d | d in l.directories :: PRIVATE_DIRECTORY, map[])
    ensures s.Faultless() ==> ok
  {
    hide Store.Valid, ClosedUnderParents, Working;
    WorkGrows(n);
    OwnName(s, n);
    ClosedFacts(l);
    var order := SortByDepth(l.directories - {[]});
    var i := 0;
    while i < |order|
      invariant i <= |order| && s.Valid() && s.Touched(n) && n in s.entries
      invariant s.entries[n].files == map[] && forall p :: p in s.entries[n].dirs <==> p == [] || p in order[..i]
      invariant forall p :: p in s.entries[n].dirs ==> s.entries[n].dirs[p] == PRIVATE_DIRECTORY
    {
      assert order[i] in order;
      if Parent(order[i]) != [] { ParentComesFirst(order, l.directories - {[]}, i); }
      assert Vacant(s.entries[n], order[i]);
      ok := s.Mkdir(n, order[i]);
      if !ok { return; }
      assert order[..i + 1] == order[..i] + [order[i]];
      i := i + 1;
    }
    assert order[..i] == order;
    ok := true;
  }

  /** The payload paths are free in a tree, and all different. */
  ghost predicate Fits(t: Tree, payloads: seq<Record>, n: nat)
    requires n <= |payloads|
  {
    && (forall i :: 0 <= i < n ==> Vacant(t, payloads[i].path))
    && (forall i, j :: 0 <= i < j < n ==> payloads[i].path != payloads[j].path)
  }

  /** The first payloads were added to a tree as private files. */
  ghost predicate Copied(before: Tree, now: Tree, payloads: seq<Record>, n: nat)
    requires n <= |payloads|
  {
    && Fits(before, payloads, n) && now.dirs == before.dirs && PayloadsHold(now, payloads, n)
    && (forall f :: f in before.files ==> f in now.files && now.files[f] == before.files[f])
    && (forall f :: f in now.files && f !in before.files ==>
          now.files[f].mode == PRIVATE_FILE && exists i :: 0 <= i < n && payloads[i].path == f)
  }

  lemma CopiedMore(before: Tree, now: Tree, payloads: seq<Record>, n: nat, bytes: string)
    requires n < |payloads| && Copied(before, now, payloads, n)
    ensures Vacant(now, payloads[n].path) && Holds(bytes, payloads[n]) ==>
              Copied(before, PutFile(now, payloads[n].path, bytes), payloads, n + 1)
  {
    hide Fits, Holds, Parent;
    var path, next := payloads[n].path, PutFile(now, payloads[n].path, bytes);
    if Vacant(now, path) && Holds(bytes, payloads[n]) {
      FitsMore(before, now, payloads, n);
      assert PayloadsHold(next, payloads, n + 1);
      forall f | f in next.files && f !in before.files
        ensures next.files[f].mode == PRIVATE_FILE && exists i :: 0 <= i < n + 1 && payloads[i].path == f
      {
        if f == path { assert payloads[n].path == f; }
      }
    }
  }

  lemma FitsMore(before: Tree, now: Tree, payloads: seq<Record>, n: nat)
    requires n < |payloads| && Copied(before, now, payloads, n) && Vacant(now, payloads[n].path)
    ensures Fits(before, payloads, n + 1)
  {
    hide Holds;
    forall i | 0 <= i < n ensures payloads[i].path != payloads[n].path { assert payloads[i].path in now.files; }
  }

  /** What fits at first still has its place free when its turn comes. */
  lemma NextIsFree(before: Tree, now: Tree, payloads: seq<Record>, n: nat)
    requires n < |payloads| && Copied(before, now, payloads, n) && Fits(before, payloads, |payloads|)
    ensures Vacant(now, payloads[n].path)
  {
    hide Holds;
  }

  /** Copies every payload from the source, whatever it holds by now, and checks the
      bytes that were copied. */
  method CopyPayloads(s: Store, n: Name, payloads: seq<Record>) returns (ok: bool)
    requires s.Valid() && n in s.mine
    modifies s
    ensures s.Valid() && s.Touched(n)
    ensures ok ==> n in s.entries && Copied(old(s.entries)[n], s.entries[n], payloads, |payloads|)
    ensures s.Faultless() && s.Steady() && PayloadsHold(s.source(0), payloads, |payloads|) &&
            Fits(old(s.entries)[n], payloads, |payloads|) ==>
              ok
  {
    hide Store.Lawful, Sound, Chronicle, Copied, Fits, Vacant;
    ok := true;
    ghost var before := s.entries[n];
    NothingCopied(before, payloads);
    var i := 0;
    while i < |payloads|
      invariant i <= |payloads| && s.Valid() && s.Touched(n) && ok && Copied(before, s.entries[n], payloads, i)
    {
      var tree := s.source(s.clock);
      ok := payloads[i].path in tree.files;
      if !ok { return; }
      var bytes := tree.files[payloads[i].path].bytes;
      CopiedMore(before, s.entries[n], payloads, i, bytes);
      if Fits(before, payloads, |payloads|) { NextIsFree(before, s.entries[n], payloads, i); }
      ok := s.WriteFile(n, payloads[i].path, bytes);
      ok := ok && Holds(bytes, payloads[i]);
      if !ok { return; }
      i := i + 1;
    }
  }

  lemma NothingCopied(t: Tree, payloads: seq<Record>)
    ensures Copied(t, t, payloads, 0)
  {
  }

  /** Every payload of the source hashes to what the manifest says. */
  method VerifySource(s: Store, payloads: seq<Record>) returns (ok: bool)
    requires s.Valid()
    modifies s
    ensures s.Valid() && s.Waited()
    ensures ok && s.Steady() ==> PayloadsHold(s.source(0), payloads, |payloads|)
    ensures s.Faultless() && s.Steady() && PayloadsHold(s.source(0), payloads, |payloads|) ==> ok
  {
    hide Store.Valid, Idle;
    IdleGrows();
    ok := true;
    var i := 0;
    while i < |payloads|
      invariant i <= |payloads| && s.Valid() && s.Waited() && ok
      invariant s.Steady() ==> PayloadsHold(s.source(0), payloads, i)
    {
      var tree := s.source(s.clock);
      var failing := s.Wait();
      ok := !failing && payloads[i].path in tree.files && Holds(tree.files[payloads[i].path].bytes, payloads[i]);
      if !ok { return; }
      i := i + 1;
    }
  }

  /** One scan of the source directory. */
  method ScanSource(s: Store, l: Layout) returns (shape: Option<Shape>)
    requires s.Valid()
    modifies s
    ensures s.Valid() && s.Waited()
    ensures shape.Some? && s.Steady() ==> Conforms(s.source(0), l, false) && shape.value == ShapeOf(s.source(0))
    ensures s.Faultless() && s.Steady() && Conforms(s.source(0), l, false) ==> shape.Some?
  {
    hide Store.Valid, Conforms;
    var tree := s.source(s.clock);
    var failing := s.Wait();
    var ok := ScanTree(tree, l, false);
    shape := if !failing && ok then Some(ShapeOf(tree)) else None;
  }

  datatype ImportResult = ImportResult(id: Digest, existing: bool)

  ghost predicate Did(history: seq<Step>, from: nat, act: Act) {
    exists i :: from <= i < |history| && history[i].act == act
  }

  /** The changes that an Import of `id` makes: none under the names `held`, none that
      takes anything from an address, and none at another address. */
  ghost predicate Importing(act: Act, id: Digest, held: set<Name>) {
    match act
    case Elsewhere(_) => true
    case Made(n) => n !in held
    case Worked(n) => n !in held
    case Published(i, n) => i == id && n !in held
    case Emptied(n) => n !in held
    case _ => false
  }

  ghost predicate OnlyImports(history: seq<Step>, from: nat, id: Digest, held: set<Name>) {
    forall i :: from <= i < |history| ==> Importing(history[i].act, id, held)
  }

  /** Nothing has changed under these names. */
  ghost predicate Spared(held: set<Name>, a: Entries, b: Entries) {
    forall n :: n in held ==> View(b, n) == View(a, n)
  }

  /** The address held a complete entry at some moment. */
  ghost predicate Stood(decode: Decoder, history: seq<Step>, from: nat, id: Digest) {
    exists i ::
      from <= i < |history| && Address(id) in history[i].after && Complete(decode, history[i].after[Address(id)], id)
  }

  lemma StandsNow(s: Store, from: nat, id: Digest)
    requires s.Valid() && from < |s.history| && Address(id) in s.entries
    ensures Stood(s.decode, s.history, from, id)
  {
    hide Chronicle, Complete;
    assert s.history[|s.history| - 1].after == s.entries;
  }

  lemma StoodStays(decode: Decoder, h: seq<Step>, l: seq<Step>, from: nat, id: Digest)
    requires Stood(decode, h, from, id) && h <= l
    ensures forall f: nat :: f <= from ==> Stood(decode, l, f, id)
  {
    hide Complete;
    var i :| from <= i < |h| && Address(id) in h[i].after && Complete(decode, h[i].after[Address(id)], id);
    assert l[i] == h[i];
  }

  /** What a source directory says it holds, once it was verified. */
  datatype Offer = Offer(manifest: string, payloads: seq<Record>, layout: Layout, shape: Shape)

  /** A source directory is a correct hand-off: its manifest decodes, and the directory
      holds exactly what the manifest declares. */
  ghost predicate Offers(decode: Decoder, t: Tree) {
    && MANIFEST in t.files && decode(t.files[MANIFEST].bytes).Some?
    && var payloads := decode(t.files[MANIFEST].bytes).value;
    IsLayoutOf(Layout(t.dirs.Keys, t.files.Keys), payloads) && PayloadsHold(t, payloads, |payloads|)
  }

  /** The identifier of a source directory. */
  ghost function IdOf(t: Tree): Digest
    requires MANIFEST in t.files
  {
    Sha256(t.files[MANIFEST].bytes)
  }

  /** What an offer says is what its manifest declares. */
  ghost predicate Coherent(decode: Decoder, offer: Offer) {
    decode(offer.manifest) == Some(offer.payloads) && IsLayoutOf(offer.layout, offer.payloads)
    && forall i :: 0 <= i < |offer.payloads| ==> offer.payloads[i].path != []
  }

  ghost predicate IsOfferOf(offer: Offer, t: Tree) {
    && MANIFEST in t.files && offer.manifest == t.files[MANIFEST].bytes
    && PayloadsHold(t, offer.payloads, |offer.payloads|) && Conforms(t, offer.layout, false)
    && offer.shape == ShapeOf(t)
  }

  /** No payload takes the place of the manifest, of a directory or of another payload. */
  ghost predicate Creatable(payloads: seq<Record>) {
    && !Declares(payloads, MANIFEST)
    && (forall i :: 0 <= i < |payloads| ==> payloads[i].path != MANIFEST && !Declares(payloads, payloads[i].path))
    && (forall i, j :: 0 <= i < j < |payloads| ==> payloads[i].path != payloads[j].path)
  }

  /** The same directories and bytes, all private. */
  function PrivateCopy(t: Tree): Tree {
    Tree(map d | d in t.dirs :: PRIVATE_DIRECTORY, map f | f in t.files :: File(t.files[f].bytes, PRIVATE_FILE))
  }

  lemma OfferIsComplete(decode: Decoder, t: Tree)
    requires Offers(decode, t)
    ensures Complete(decode, PrivateCopy(t), IdOf(t))
  {
    assert PrivateCopy(t).dirs.Keys == t.dirs.Keys && PrivateCopy(t).files.Keys == t.files.Keys;
  }

  /** The entry at the address of a correct hand-off is its private copy. */
  lemma AddressHoldsCopy(s: Store, t: Tree)
    requires s.Valid() && Offers(s.decode, t) && Address(IdOf(t)) in s.entries
    ensures s.entries[Address(IdOf(t))] == PrivateCopy(t)
  {
    hide Complete, Chronicle, Offers;
    assert MANIFEST in t.files by { OffersManifest(s.decode, t); }
    OfferIsComplete(s.decode, t);
    AddressIsComplete(s, IdOf(t));
    CompleteIsUnique(s.decode, s.entries[Address(IdOf(t))], PrivateCopy(t), IdOf(t));
  }

  lemma OffersManifest(decode: Decoder, t: Tree)
    requires Offers(decode, t)
    ensures MANIFEST in t.files
  {
  }

  lemma OfferedIsOffer(decode: Decoder, offer: Offer, t: Tree)
    requires Coherent(decode, offer) && IsOfferOf(offer, t)
    ensures Offers(decode, t) && decode(t.files[MANIFEST].bytes) == Some(offer.payloads)
  {
  }

  lemma OfferConforms(t: Tree, payloads: seq<Record>, l: Layout)
    requires IsLayoutOf(l, payloads)
    ensures IsLayoutOf(Layout(t.dirs.Keys, t.files.Keys), payloads) <==> Conforms(t, l, false)
  {
    if IsLayoutOf(Layout(t.dirs.Keys, t.files.Keys), payloads) {
      LayoutIsUnique(l, Layout(t.dirs.Keys, t.files.Keys), payloads);
    }
  }

  /** Reads the manifest and verifies the source directory against it. */
  method ReadSource(s: Store) returns (offer: Option<Offer>)
    requires s.Valid()
    modifies s
    ensures s.Valid() && s.Waited() && |s.history| > |old(s.history)|
    ensures offer.Some? ==> ClosedUnderParents(offer.value.layout) && Coherent(s.decode, offer.value)
    ensures offer.Some? && s.Steady() ==> IsOfferOf(offer.value, s.source(0))
    ensures s.Faultless() && s.Steady() && Offers(s.decode, s.source(0)) ==> offer.Some?
  {
    hide ClosedUnderParents, Conforms, IsLayoutOf, Store.Valid, Idle, PayloadsHold;
    offer := None;
    ghost var h, e := s.history, s.entries;
    var tree := s.source(s.clock);
    var failing := s.Wait();
    ghost var k, b := s.history, s.entries;
    IdleIsLonger(s.mine, h, k, e, b);
    if failing || MANIFEST !in tree.files { return; }
    var manifest := tree.files[MANIFEST].bytes;
    var decoded := s.decode(manifest);
    if decoded.None? { return; }
    DecodedPaths(s, manifest);
    var l := BuildLayout(decoded.value);
    LayoutIsClosed(l, decoded.value);
    OfferConforms(s.source(0), decoded.value, l);
    var first, steady := SurveySource(s, decoded.value, l);
    IdleMore(s.mine, h, k, s.history, e, b, s.entries);
    IdleIsLonger(s.mine, k, s.history, b, s.entries);
    if steady { offer := Some(Offer(manifest, decoded.value, l, first)); }
  }

  lemma IdleIsLonger(mine: set<Name>, h: seq<Step>, l: seq<Step>, a: Entries, b: Entries)
    requires Idle(mine, h, l, a, b)
    ensures |h| <= |l|
  {
  }

  /** The scans before and after hashing must agree. */
  method SurveySource(s: Store, payloads: seq<Record>, l: Layout) returns (first: Shape, steady: bool)
    requires s.Valid()
    modifies s
    ensures s.Valid() && s.Waited()
    ensures steady && s.Steady() ==>
              Conforms(s.source(0), l, false) && PayloadsHold(s.source(0), payloads, |payloads|) &&
              first == ShapeOf(s.source(0))
    ensures s.Faultless() && s.Steady() && Conforms(s.source(0), l, false) &&
            PayloadsHold(s.source(0), payloads, |payloads|) ==>
              steady
  {
    hide Conforms, Store.Valid, PayloadsHold, Idle;
    IdleGrows();
    first, steady := Shape(map[], map[]), false;
    var before := ScanSource(s, l);
    if before.None? { return; }
    first := before.value;
    var verified := VerifySource(s, payloads);
    if !verified { return; }
    var after := ScanSource(s, l);
    steady := after == before;
  }

  /** The staging directory before the payloads come. */
  ghost function Scaffold(offer: Offer): Tree {
    PutFile(Tree(map d | d in offer.layout.directories :: PRIVATE_DIRECTORY, map[]), MANIFEST, offer.manifest)
  }

  lemma ScaffoldFits(decode: Decoder, offer: Offer)
    requires Coherent(decode, offer)
    ensures Creatable(offer.payloads) <==>
              Vacant(Tree(map d | d in offer.layout.directories :: PRIVATE_DIRECTORY, map[]), MANIFEST) &&
              Fits(Scaffold(offer), offer.payloads, |offer.payloads|)
  {
    var payloads := offer.payloads;
    forall i | 0 <= i < |payloads| ensures Declares(payloads, Parent(payloads[i].path)) {
      assert Parent(payloads[i].path) < payloads[i].path;
    }
    if Fits(Scaffold(offer), payloads, |payloads|) {
      forall i | 0 <= i < |payloads|
        ensures payloads[i].path != MANIFEST && !Declares(payloads, payloads[i].path)
      {
        assert Vacant(Scaffold(offer), payloads[i].path);
      }
    }
  }

  lemma StagedIsComplete(decode: Decoder, offer: Offer, t: Tree)
    requires Coherent(decode, offer) && Copied(Scaffold(offer), t, offer.payloads, |offer.payloads|)
    ensures Complete(decode, t, Sha256(offer.manifest))
  {
    assert MANIFEST in Scaffold(offer).files;
    forall f ensures f in t.files <==> f == MANIFEST || Lists(offer.payloads, f) { }
  }

  lemma CopiedFits(before: Tree, now: Tree, payloads: seq<Record>)
    requires Copied(before, now, payloads, |payloads|)
    ensures Fits(before, payloads, |payloads|)
  {
  }

  lemma OfferFacts(offer: Offer, t: Tree)
    requires IsOfferOf(offer, t)
    ensures PayloadsHold(t, offer.payloads, |offer.payloads|) && Conforms(t, offer.layout, false)
    ensures offer.shape == ShapeOf(t)
  {
  }

  /** Fills the staging directory: declared directories, manifest, payloads. */
  method Fill(s: Store, staging: Name, offer: Offer) returns (filled: bool)
    requires s.Valid() && staging in s.mine && s.entries[staging] == NEW_TREE && ClosedUnderParents(offer.layout)
    requires Coherent(s.decode, offer)
    modifies s
    ensures s.Valid() && s.Touched(staging)
    ensures filled ==>
              staging in s.entries && Creatable(offer.payloads) &&
              Complete(s.decode, s.entries[staging], Sha256(offer.manifest))
    ensures s.Faultless() && s.Steady() && PayloadsHold(s.source(0), offer.payloads, |offer.payloads|) &&
            Creatable(offer.payloads) ==>
              filled
  {
    hide Store.Valid, Complete, ClosedUnderParents, Coherent, Creatable, Copied, Fits, PayloadsHold, Vacant;
    ScaffoldFits(s.decode, offer);
    filled := CreateStagingLayout(s, staging, offer.layout);
    if !filled { return; }
    filled := s.WriteFile(staging, MANIFEST, offer.manifest);
    if !filled { return; }
    filled := CopyPayloads(s, staging, offer.payloads);
    if !filled { return; }
    CopiedFits(Scaffold(offer), s.entries[staging], offer.payloads);
    StagedIsComplete(s.decode, offer, s.entries[staging]);
  }

  /** Fills the staging directory, audits it, and checks that the source is unchanged. */
  method Stage(s: Store, staging: Name, id: Digest, offer: Offer) returns (staged: bool)
    requires s.Valid() && staging in s.mine && s.entries[staging] == NEW_TREE && ClosedUnderParents(offer.layout)
    requires Coherent(s.decode, offer) && id == Sha256(offer.manifest)
    modifies s
    ensures s.Valid() && s.Touched(staging)
    ensures staged ==> staging in s.entries && Complete(s.decode, s.entries[staging], id) && Creatable(offer.payloads)
    ensures s.Faultless() && s.Steady() && IsOfferOf(offer, s.source(0)) && Creatable(offer.payloads) ==> staged
  {
    hide Store.Valid, Complete, ClosedUnderParents, Conforms, Coherent, Creatable, IsOfferOf, PayloadsHold;
    if IsOfferOf(offer, s.source(0)) { OfferFacts(offer, s.source(0)); }
    staged := Fill(s, staging, offer);
    if !staged { return; }
    ghost var checked := s.entries;
    var closed := Validate(s, staging, id);
    OwnName(s, staging);
    assert View(s.entries, staging) == View(checked, staging);
    staged := closed.Some?;
    if !staged { return; }
    var last := ScanSource(s, offer.layout);
    OwnName(s, staging);
    assert View(s.entries, staging) == View(checked, staging);
    staged := last == Some(offer.shape);
  }

  /** Answers for an entry that is at its address already. */
  method Existing(s: Store, id: Digest) returns (result: Option<ImportResult>)
    requires s.Valid() && s.history != [] && Address(id) in s.entries
    modifies s
    ensures s.Valid() && s.Waited()
    ensures result.Some? ==> result.value == ImportResult(id, true)
    ensures forall f: nat :: f < |old(s.history)| ==> Stood(s.decode, s.history, f, id)
    ensures s.Faultless() && s.Quiet() ==> result.Some?
  {
    hide Complete, Conforms, Sound, Rely, Chronicle, Store.Lawful, Stood;
    StandsNow(s, |s.history| - 1, id);
    ghost var seen := s.history;
    AddressIsComplete(s, id);
    var closed := Validate(s, Address(id), id);
    StoodStays(s.decode, seen, s.history, |seen| - 1, id);
    result := if closed.Some? then Some(ImportResult(id, true)) else None;
  }

  /** What happened since history `h` and store `a` is an Import of `id` that leaves the
      names `held` alone. */
  ghost predicate Imports(id: Digest, held: set<Name>, h: seq<Step>, l: seq<Step>, a: Entries, b: Entries) {
    h <= l && OnlyImports(l, |h|, id, held) && Spared(held, a, b)
  }

  lemma ImportsMore(id: Digest, held: set<Name>, h: seq<Step>, k: seq<Step>, l: seq<Step>, a: Entries, b: Entries,
          c: Entries)
    requires Imports(id, held, h, k, a, b) && Imports(id, held, k, l, b, c)
    ensures Imports(id, held, h, l, a, c) && h <= k <= l
  {
    forall n | n in held ensures View(c, n) == View(a, n) { assert View(c, n) == View(b, n); }
  }

  lemma WorkIsImport(id: Digest, held: set<Name>, mine: set<Name>, n: Name, h: seq<Step>, l: seq<Step>, a: Entries,
          b: Entries)
    requires Working(mine, n, h, l, a, b) && held <= mine && n !in held
    ensures Imports(id, held, h, l, a, b) && h <= l
  {
  }

  lemma IdleIsImport(id: Digest, held: set<Name>, mine: set<Name>, h: seq<Step>, l: seq<Step>, a: Entries, b: Entries)
    requires Idle(mine, h, l, a, b) && held <= mine
    ensures Imports(id, held, h, l, a, b) && h <= l
  {
  }

  lemma ActIsImport(id: Digest, held: set<Name>, act: Act, h: seq<Step>, l: seq<Step>, a: Entries, b: Entries)
    requires h <= l && |h| < |l| && l[|l| - 1].act == act && OnlyOthers(l[..|l| - 1], |h|)
    requires Importing(act, id, held) && Spared(held, a, b)
    ensures Imports(id, held, h, l, a, b) && Did(l, |h|, act)
  {
    forall i | |h| <= i < |l| ensures Importing(l[i].act, id, held) {
      if i < |l| - 1 { assert l[..|l| - 1][i].act.Elsewhere?; }
    }
  }

  /** Publishes a staged entry and audits it at its address; when it cannot be
      published, looks for one that came to the address meanwhile. */
  method PublishOrFind(s: Store, staging: Name, id: Digest, ghost held: set<Name>)
    returns (result: Option<ImportResult>, published: bool)
    requires s.Valid() && staging in s.mine && Complete(s.decode, s.entries[staging], id)
    requires staging !in held && held <= s.mine
    modifies s
    ensures s.Valid() && Imports(id, held, old(s.history), s.history, old(s.entries), s.entries)
    ensures published ==> s.mine == old(s.mine) - {staging} && Did(s.history, |old(s.history)|, Published(id, staging))
    ensures published && result.Some? ==> result.value == ImportResult(id, false)
    ensures !published ==> s.Waited()
    ensures !published && result.Some? ==>
              result.value == ImportResult(id, true) && Stood(s.decode, s.history, |old(s.history)|, id)
    ensures s.Faultless() && s.Quiet() && Address(id) !in old(s.entries) ==>
              published && result.Some? && staging in old(s.entries) &&
              s.entries == (old(s.entries) - {staging})[Address(id) := old(s.entries)[staging]]
  {
    hide Store.Valid, Complete, Stood, Idle, Imports, Did, Importing;
    IdleGrows();
    result := None;
    published := s.Publish(staging, id, false);
    if published {
      PublishingIsImporting(id, staging, held);
      ActIsImport(id, held, Published(id, staging), old(s.history), s.history, old(s.entries), s.entries);
      result := AuditPublished(s, id, staging, held, old(s.history), old(s.entries));
    } else {
      IdleIsImport(id, held, s.mine, old(s.history), s.history, old(s.entries), s.entries);
      result := FindConcurrent(s, id);
      IdleIsImport(id, held, s.mine, old(s.history), s.history, old(s.entries), s.entries);
    }
  }

  /** Audits an entry that was published from `n` since history `h` and store `e`. */
  method AuditPublished(s: Store, id: Digest, ghost n: Name, ghost held: set<Name>, ghost h: seq<Step>,
          ghost e: Entries)
    returns (result: Option<ImportResult>)
    requires s.Valid() && held <= s.mine && Imports(id, held, h, s.history, e, s.entries)
    requires Did(s.history, |h|, Published(id, n))
    modifies s
    ensures s.Valid() && s.Waited() && Imports(id, held, h, s.history, e, s.entries)
    ensures Did(s.history, |h|, Published(id, n))
    ensures result.Some? ==> result.value == ImportResult(id, false)
    ensures s.Faultless() && s.Quiet() && Address(id) in old(s.entries) ==> result.Some?
  {
    hide Store.Valid, Complete, Idle, Imports, Did;
    ghost var k, b := s.history, s.entries;
    if s.Quiet() && Address(id) in s.entries { AddressIsComplete(s, id); }
    var audited := Validate(s, Address(id), id);
    IdleIsImport(id, held, s.mine, k, s.history, b, s.entries);
    ImportsMore(id, held, h, k, s.history, e, b, s.entries);
    DidStays(k, s.history, |h|, Published(id, n));
    result := if audited.Some? then Some(ImportResult(id, false)) else None;
  }

  lemma PublishingIsImporting(id: Digest, n: Name, held: set<Name>)
    requires n !in held
    ensures Importing(Published(id, n), id, held) && Importing(Made(n), id, held) && Importing(Emptied(n), id, held)
  {
  }

  /** Stages and publishes a new entry, or finds one that came to its address meanwhile. */
  method StageOrFind(s: Store, id: Digest, offer: Offer) returns (result: Option<ImportResult>)
    requires s.Valid() && ClosedUnderParents(offer.layout) && Coherent(s.decode, offer) && id == Sha256(offer.manifest)
    modifies s
    ensures s.Valid() && Imports(id, old(s.mine), old(s.history), s.history, old(s.entries), s.entries)
    ensures old(s.mine) <= s.mine
    ensures result.Some? ==> result.value.id == id
    ensures result.Some? && result.value.existing ==> Stood(s.decode, s.history, |old(s.history)|, id)
    ensures result.Some? && !result.value.existing ==>
              s.mine == old(s.mine) && exists staging :: Did(s.history, |old(s.history)|, Published(id, staging))
    ensures s.Faultless() ==> s.mine == old(s.mine)
    ensures old(Smooth(s, FRESH_ATTEMPTS)) && s.Steady() && IsOfferOf(offer, s.source(0)) &&
            Address(id) !in old(s.entries) && Creatable(offer.payloads) ==>
              result == Some(ImportResult(id, false)) && Address(id) in s.entries &&
              s.entries == old(s.entries)[Address(id) := s.entries[Address(id)]]
    ensures s.Faultless() && s.Quiet() && Address(id) !in old(s.entries) && !Creatable(offer.payloads) ==>
              result.None? && s.entries == old(s.entries)
  {
    hide Store.Valid, Complete, ClosedUnderParents, Coherent, Creatable, IsOfferOf, Stood, Idle, Working, Imports, Did,
         Importing, AlwaysFree;
    result := None;
    ghost var held := s.mine;
    var made := s.MakeFresh();
    if made.None? {
      IdleIsImport(id, held, held, old(s.history), s.history, old(s.entries), s.entries);
      return;
    }
    var staging := made.value;
    PublishingIsImporting(id, staging, held);
    ActIsImport(id, held, Made(staging), old(s.history), s.history, old(s.entries), s.entries);
    ghost var h, a := s.history, s.entries;
    var staged := Stage(s, staging, id, offer);
    WorkIsImport(id, held, s.mine, staging, h, s.history, a, s.entries);
    ImportsMore(id, held, old(s.history), h, s.history, old(s.entries), a, s.entries);
    ghost var k, b := s.history, s.entries;
    if staged {
      var published: bool;
      result, published := PublishOrFind(s, staging, id, held);
      ImportsMore(id, held, old(s.history), k, s.history, old(s.entries), b, s.entries);
      if published {
        DidStays(s.history, s.history, |k|, Published(id, staging));
        return;
      }
      if result.Some? { StoodStays(s.decode, s.history, s.history, |k|, id); }
    }
    ghost var l, c := s.history, s.entries;
    var dropped := s.Drop(staging, true);
    if dropped {
      ActIsImport(id, held, Emptied(staging), l, s.history, c, s.entries);
    } else {
      IdleIsImport(id, held, s.mine, l, s.history, c, s.entries);
    }
    ImportsMore(id, held, old(s.history), l, s.history, old(s.entries), c, s.entries);
    if result.Some? { StoodStays(s.decode, l, s.history, |old(s.history)|, id); }
  }

  method FindConcurrent(s: Store, id: Digest) returns (result: Option<ImportResult>)
    requires s.Valid()
    modifies s
    ensures s.Valid() && s.Waited()
    ensures result.Some? ==> result.value == ImportResult(id, true)
    ensures result.Some? ==> forall f: nat :: f <= |old(s.history)| ==> Stood(s.decode, s.history, f, id)
  {
    hide Complete, Conforms, Sound, Rely, Chronicle, Store.Lawful, Stood;
    result := None;
    var failing := s.Wait();
    if !failing && Address(id) in s.entries { result := Existing(s, id); }
  }

  /** The source is a correct hand-off whose entry exists or can be created. */
  ghost predicate Importable(decode: Decoder, t: Tree, e: Entries) {
    Offers(decode, t) && (Address(IdOf(t)) in e || Creatable(decode(t.files[MANIFEST].bytes).value))
  }

  /** Imports whatever the source directory holds: verified, staged in private, and
      published under its content address without replacing anything.  Whatever the
      outcome, nothing was taken from any address, and a new entry came to that of the
      manifest only; an existing one was complete at its address during the call.
      Undisturbed, it succeeds exactly for a correct hand-off, and all that changes is
      that the address of the manifest holds its private copy. */
  method Import(s: Store) returns (result: Option<ImportResult>, ghost id: Digest)
    requires s.Valid()
    modifies s
    ensures s.Valid() && s.Later() && OnlyImports(s.history, |old(s.history)|, id, old(s.mine))
    ensures old(s.mine) <= s.mine && Spared(old(s.mine), old(s.entries), s.entries)
    ensures result.Some? ==> result.value.id == id
    ensures result.Some? && result.value.existing ==> Stood(s.decode, s.history, |old(s.history)|, id)
    ensures result.Some? && !result.value.existing ==>
              s.mine == old(s.mine) && exists staging :: Did(s.history, |old(s.history)|, Published(id, staging))
    ensures s.Faultless() ==> s.mine == old(s.mine)
    ensures old(Smooth(s, FRESH_ATTEMPTS)) && s.Steady() && Importable(s.decode, s.source(0), old(s.entries)) ==>
              && result == Some(ImportResult(IdOf(s.source(0)), Address(IdOf(s.source(0))) in old(s.entries)))
              && s.entries == old(s.entries)[Address(IdOf(s.source(0))) := PrivateCopy(s.source(0))]
    ensures old(Smooth(s, FRESH_ATTEMPTS)) && s.Steady() && !Importable(s.decode, s.source(0), old(s.entries)) ==>
              result.None? && s.entries == old(s.entries)
  {
    hide Complete, ClosedUnderParents, Store.Valid, Stood, Offers, Creatable, IsOfferOf, Coherent, AlwaysFree, Idle,
         Did, PrivateCopy;
    IdleGrows();
    result, id := None, Sha256("");
    var offer := ReadSource(s);
    IdleIsImport(id, s.mine, s.mine, old(s.history), s.history, old(s.entries), s.entries);
    if offer.None? { return; }
    var address := Sha256(offer.value.manifest);
    id := address;
    var failing := s.Wait();
    ghost var h, a := s.history, s.entries;
    IdleIsImport(id, s.mine, s.mine, old(s.history), h, old(s.entries), a);
    if failing { return; }
    if s.Steady() {
      OfferedIsOffer(s.decode, offer.value, s.source(0));
      OfferedId(offer.value, s.source(0));
    }
    if Address(address) in s.entries {
      if s.Steady() { AddressHoldsCopy(s, s.source(0)); }
      result := Existing(s, address);
      IdleIsImport(id, s.mine, s.mine, old(s.history), s.history, old(s.entries), s.entries);
      return;
    }
    result := StageOrFind(s, address, offer.value);
    ImportsMore(id, old(s.mine), old(s.history), h, s.history, old(s.entries), a, s.entries);
    if result.Some? && result.value.existing { StoodStays(s.decode, s.history, s.history, |h|, id); }
    if result.Some? && !result.value.existing {
      ghost var staging :| Did(s.history, |h|, Published(id, staging));
      DidStays(s.history, s.history, |h|, Published(id, staging));
    }
    if s.Steady() && Address(id) in s.entries { AddressHoldsCopy(s, s.source(0)); }
  }

  lemma OfferedId(offer: Offer, t: Tree)
    requires IsOfferOf(offer, t)
    ensures MANIFEST in t.files && IdOf(t) == Sha256(offer.manifest)
  {
  }

  method RemoveFiles(s: Store, n: Name, all: set<Path>) returns (ok: bool)
    requires s.Valid() && n in s.mine && all == s.entries[n].files.Keys
    modifies s
    ensures s.Valid() && s.Touched(n)
    ensures ok ==> s.entries[n] == Tree(old(s.entries)[n].dirs, map[])
    ensures s.Faultless() ==> ok
  {
    hide Store.Lawful, Sound, Chronicle;
    var files := all;
    while files != {}
      invariant s.Valid() && s.Touched(n)
      invariant s.entries[n].files.Keys == files && s.entries[n].dirs == old(s.entries)[n].dirs
      decreases |files|
    {
      var f :| f in files;
      ok := s.RemoveFile(n, f);
      if !ok { return; }
      files := files - {f};
    }
    ok := true;
  }

  /** Deepest first, so that each directory is empty when its turn comes. */
  method RemoveDirectories(s: Store, n: Name, dirs: set<Path>) returns (ok: bool)
    requires s.Valid() && n in s.mine && s.entries[n].files == map[] && s.entries[n].dirs.Keys == dirs + {[]}
    modifies s
    ensures s.Valid() && s.Touched(n)
    ensures ok ==> s.entries[n].files == map[] && s.entries[n].dirs.Keys == {[]}
    ensures s.Faultless() ==> ok
  {
    hide Store.Lawful, Sound, Chronicle;
    var paths := dirs - {[]};
    var order := SortByDepth(paths);
    var i := |order|;
    assert order[..i] == order;
    while i > 0
      invariant i <= |order| && s.Valid() && s.Touched(n) && s.entries[n].files == map[]
      invariant forall p :: p in s.entries[n].dirs <==> p == [] || p in order[..i]
    {
      i := i - 1;
      assert order[..i + 1] == order[..i] + [order[i]];
      assert order[i] in order && order[i] != [];
      DeepestIsEmpty(order, paths, i);
      assert EmptyDirectory(s.entries[n], order[i]);
      ok := s.RemoveDirectory(n, order[i]);
      if !ok { return; }
    }
    ok := true;
  }

  /** Removes the verified closed set: every file, then every directory. */
  method RemoveValidated(s: Store, n: Name, shape: Shape) returns (ok: bool)
    requires s.Valid() && n in s.mine && shape == ShapeOf(s.entries[n]) && [] in shape.dirs
    modifies s
    ensures s.Valid() && s.Touched(n)
    ensures ok ==> s.entries[n].files == map[] && s.entries[n].dirs.Keys == {[]}
    ensures s.Faultless() ==> ok
  {
    hide Store.Lawful, Sound, Chronicle;
    ok := RemoveFiles(s, n, shape.files.Keys);
    if !ok { return; }
    assert shape.dirs.Keys == (shape.dirs.Keys - {[]}) + {[]};
    ok := RemoveDirectories(s, n, shape.dirs.Keys - {[]});
  }

  lemma DeepestIsEmpty(order: seq<Path>, paths: set<Path>, i: nat)
    requires ShallowestFirst(order, paths) && i < |order|
    ensures forall p :: p in order[..i + 1] && p != [] ==> Parent(p) != order[i]
    ensures order[i] !in order[..i]
  {
    forall p | p in order[..i + 1] ensures |p| <= |order[i]| {
      var j :| 0 <= j < i + 1 && order[..i + 1][j] == p;
      assert order[j] == p;
    }
  }

  datatype Outcome = Refused | Restored | LeftWhole(at: Name) | LeftPartial(at: Name)
    | Purged(at: Name, recreated: bool)

  /** The isolated entry was exactly the planned closed set when it was taken. */
  ghost predicate TookPlanned(history: seq<Step>, from: nat, id: Digest, at: Name, plan: ClosedSet) {
    exists i :: from <= i < |history| && history[i].act == Isolated(id, at) && Address(id) in history[i].before
                && ClosedSetOf(id, history[i].before[Address(id)]) == plan
  }

  const PURGE_ATTEMPTS := 32

  /** Draws names until one is free, 32 times at most. */
  method UnusedName(s: Store) returns (n: Option<Name>)
    requires s.Valid()
    modifies s
    ensures s.Valid() && s.Waited() && (n.Some? ==> n.value.Fresh?)
    ensures n.Some? && s.Quiet() ==> n.value !in s.entries
    ensures s.Faultless() && s.Quiet() && old(s.Draws(PURGE_ATTEMPTS)) ==> n.Some?
  {
    hide Chronicle, Sound, Idle, AlwaysFree;
    IdleGrows();
    n := None;
    ghost var free := if s.Draws(PURGE_ATTEMPTS) then s.FreeDraw(PURGE_ATTEMPTS) else 0;
    var attempt := 0;
    while attempt < PURGE_ATTEMPTS
      invariant attempt <= PURGE_ATTEMPTS && s.Valid() && s.Waited() && n.None? && s.clock == old(s.clock) + attempt
      invariant s.Quiet() ==> forall k :: old(s.clock) <= k < old(s.clock) + attempt ==> s.names(k) in s.entries
    {
      var candidate := s.names(s.clock);
      var failing := s.Wait();
      if failing { return None; }
      if candidate !in s.entries { return Some(candidate); }
      attempt := attempt + 1;
    }
  }

  lemma CompleteHasRoot(decode: Decoder, t: Tree, id: Digest)
    requires Complete(decode, t, id)
    ensures [] in t.dirs && EmptyDirectory(Tree(map[[] := PRIVATE_DIRECTORY], map[]), [])
  {
    LayoutIsClosed(Layout(t.dirs.Keys, t.files.Keys), decode(t.files[MANIFEST].bytes).value);
  }

  /** The changes that removing an isolated tree makes. */
  ghost predicate OnlyClears(history: seq<Step>, from: nat, n: Name) {
    forall i ::
      from <= i < |history| ==> history[i].act.Elsewhere? || history[i].act == Worked(n) || history[i].act == Emptied(n)
  }

  /** The changes that a Purge of `id` makes: none under the names `held`, and none at
      another address. */
  ghost predicate Purging(act: Act, id: Digest, held: set<Name>) {
    match act
    case Elsewhere(_) => true
    case Isolated(i, n) => i == id && n !in held
    case Worked(n) => n !in held
    case PutBack(i, n) => i == id && n !in held
    case Emptied(n) => n !in held
    case _ => false
  }

  ghost predicate OnlyPurges(history: seq<Step>, from: nat, id: Digest, held: set<Name>) {
    forall i :: from <= i < |history| ==> Purging(history[i].act, id, held)
  }

  /** Removes an isolated entry that was verified again, and its name. */
  method RemoveIsolated(s: Store, n: Name, shape: Shape) returns (ok: bool)
    requires s.Valid() && n in s.mine && shape == ShapeOf(s.entries[n]) && [] in shape.dirs
    modifies s
    ensures s.Valid() && s.Later() && OnlyClears(s.history, |old(s.history)|, n)
    ensures Spared(old(s.mine) - {n}, old(s.entries), s.entries)
    ensures ok ==> s.mine == old(s.mine) - {n} && Did(s.history, |old(s.history)|, Emptied(n))
    ensures ok && s.Quiet() ==> s.entries == old(s.entries) - {n}
    ensures !ok ==> s.mine == old(s.mine)
    ensures s.Faultless() ==> ok
  {
    hide Store.Lawful, Sound, Chronicle;
    ok := RemoveValidated(s, n, shape);
    if !ok { return; }
    ok := s.Drop(n, false);
    if ok { assert s.history[|s.history| - 1].act == Emptied(n); }
  }

  /** The address holds exactly what was planned. */
  ghost predicate Planned(e: Entries, id: Digest, plan: ClosedSet) {
    Address(id) in e && ClosedSetOf(id, e[Address(id)]) == plan
  }

  /** Nothing fails, nobody else acts, and a free name is drawn in time. */
  ghost predicate Smooth(s: Store, attempts: nat)
    reads s
  {
    s.Faultless() && s.Quiet() && s.Draws(attempts)
  }

  /** Takes the planned entry from its address, if it still is the planned one. */
  method Take(s: Store, id: Digest, plan: ClosedSet) returns (at: Option<Name>)
    requires s.Valid()
    modifies s
    ensures s.Valid()
    ensures at.None? ==> s.Waited()
    ensures at.Some? ==>
              s.Acted(Isolated(id, at.value)) && at.value !in old(s.mine) && s.mine == old(s.mine) + {at.value}
    ensures at.Some? ==>
              Spared(old(s.mine), old(s.entries), s.entries) && at.value in s.entries &&
              Complete(s.decode, s.entries[at.value], id)
    ensures at.Some? ==>
              var last := s.history[|s.history| - 1];
              Address(id) in last.before && last.before[Address(id)] == s.entries[at.value]
    ensures at.Some? && s.Quiet() ==> Planned(old(s.entries), id, plan) && at.value !in old(s.entries)
    ensures at.Some? && s.Quiet() ==>
              s.entries == (old(s.entries) - {Address(id)})[at.value := old(s.entries)[Address(id)]]
    ensures old(Smooth(s, PURGE_ATTEMPTS)) ==> (at.Some? <==> Planned(old(s.entries), id, plan))
  {
    hide Store.Valid, Complete, ClosedSetOf, AlwaysFree;
    at := None;
    if Address(id) in s.entries { AddressIsComplete(s, id); }
    var current := Validate(s, Address(id), id);
    if current != Some(plan) { return; }
    if s.Quiet() && Address(id) in s.entries { AddressIsComplete(s, id); }
    var drawn := UnusedName(s);
    if drawn.None? { return; }
    var ok := s.Isolate(id, drawn.value);
    if ok { at := drawn; }
  }

  lemma AddressIsComplete(s: Store, id: Digest)
    requires s.Valid() && Address(id) in s.entries
    ensures Complete(s.decode, s.entries[Address(id)], id)
  {
    hide Chronicle, Complete;
  }

  /** The changes to an isolated entry. */
  ghost predicate OnlySettles(history: seq<Step>, from: nat, id: Digest, at: Name) {
    forall i :: from <= i < |history| ==>
      history[i].act.Elsewhere? || history[i].act == Worked(at) || history[i].act == Emptied(at) ||
      history[i].act == PutBack(id, at)
  }

  /** Verifies the isolated entry again; removes it, puts it back, or leaves it. */
  method Settle(s: Store, id: Digest, plan: ClosedSet, at: Name) returns (outcome: Outcome)
    requires s.Valid() && at in s.mine && at in s.entries && Complete(s.decode, s.entries[at], id)
    modifies s
    ensures s.Valid() && s.Later() && OnlySettles(s.history, |old(s.history)|, id, at)
    ensures Spared(old(s.mine) - {at}, old(s.entries), s.entries) && !outcome.Refused?
    ensures outcome.Restored? ==> s.mine == old(s.mine) - {at} && Did(s.history, |old(s.history)|, PutBack(id, at))
    ensures outcome.LeftWhole? ==> s.mine == old(s.mine) && View(s.entries, at) == View(old(s.entries), at)
    ensures outcome.LeftPartial? ==> s.mine == old(s.mine) && !s.Faultless()
    ensures outcome.Purged? ==> s.mine == old(s.mine) - {at} && Did(s.history, |old(s.history)|, Emptied(at))
    ensures outcome.LeftPartial? || outcome.Purged? ==> ClosedSetOf(id, old(s.entries)[at]) == plan
    ensures outcome.LeftWhole? || outcome.LeftPartial? || outcome.Purged? ==> outcome.at == at
    ensures s.Quiet() && s.Faultless() && ClosedSetOf(id, old(s.entries)[at]) == plan ==>
              outcome == Purged(at, Address(id) in old(s.entries)) && s.entries == old(s.entries) - {at}
  {
    hide Store.Valid, Complete, ClosedSetOf;
    ghost var taken := s.entries;
    var isolated := Validate(s, at, id);
    OwnName(s, at);
    assert View(s.entries, at) == View(taken, at);
    if isolated != Some(plan) {
      var back := s.Publish(at, id, true);
      if back { assert s.history[|s.history| - 1].act == PutBack(id, at); }
      return if back then Restored else LeftWhole(at);
    }
    CompleteHasRoot(s.decode, s.entries[at], id);
    ClosedShape(id, s.entries[at]);
    var ok := RemoveIsolated(s, at, plan.shape);
    if !ok { return LeftPartial(at); }
    ghost var gone := s.history;
    var failing := s.Wait();
    DidStays(gone, s.history, |old(s.history)|, Emptied(at));
    outcome := Purged(at, failing || Address(id) in s.entries);
  }

  lemma DidStays(h: seq<Step>, l: seq<Step>, from: nat, act: Act)
    requires h <= l
    ensures forall f: nat :: f <= from && Did(h, from, act) ==> Did(l, f, act)
  {
    if i :| from <= i < |h| && h[i].act == act { assert l[i] == h[i]; }
  }

  /** Purges the planned entry: takes it from its address in one step, verifies it in
      isolation, and only then removes it.  A failed re-check puts the entry back, or
      leaves it whole under its isolation name; no other address is changed. */
  method Purge(s: Store, id: Digest, plan: ClosedSet) returns (outcome: Outcome)
    requires s.Valid()
    modifies s
    ensures s.Valid() && s.Later() && OnlyPurges(s.history, |old(s.history)|, id, old(s.mine))
    ensures Spared(old(s.mine), old(s.entries), s.entries)
    ensures outcome.Refused? ==> s.Waited()
    ensures outcome.Restored? ==>
              s.mine == old(s.mine) && exists at :: Did(s.history, |old(s.history)|, PutBack(id, at))
    ensures outcome.LeftWhole? ==>
              s.mine == old(s.mine) + {outcome.at} && outcome.at in s.entries &&
              Complete(s.decode, s.entries[outcome.at], id)
    ensures outcome.LeftPartial? ==> s.mine == old(s.mine) + {outcome.at} && !s.Faultless()
    ensures outcome.Purged? ==> s.mine == old(s.mine) && Did(s.history, |old(s.history)|, Emptied(outcome.at))
    ensures outcome.LeftPartial? || outcome.Purged? ==> TookPlanned(s.history, |old(s.history)|, id, outcome.at, plan)
    ensures old(Smooth(s, PURGE_ATTEMPTS)) && Planned(old(s.entries), id, plan) ==>
              outcome.Purged? && !outcome.recreated && s.entries == old(s.entries) - {Address(id)}
    ensures old(Smooth(s, PURGE_ATTEMPTS)) && !Planned(old(s.entries), id, plan) ==>
              outcome.Refused? && s.entries == old(s.entries)
  {
    hide Store.Valid, Complete, ClosedSetOf, Did, AlwaysFree;
    outcome := Refused;
    var taken := Take(s, id, plan);
    if taken.None? { return; }
    var at := taken.value;
    ghost var past, from := s.history, |old(s.history)|;
    outcome := Settle(s, id, plan, at);
    assert s.history[|past| - 1] == past[|past| - 1];
    assert past[|past| - 1].act == Isolated(id, at);
    DidStays(s.history, s.history, |past|, PutBack(id, at));
    DidStays(s.history, s.history, |past|, Emptied(at));
    if outcome.LeftPartial? || outcome.Purged? { assert TookPlanned(s.history, from, id, at, plan); }
  }

  lemma ClosedShape(id: Digest, t: Tree)
    ensures ClosedSetOf(id, t).shape == ShapeOf(t)
  {
  }
}
