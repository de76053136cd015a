/** Sorting by a strict order, and what does not depend on the order of a sequence. */
module Sorting {

  function Insert<T>(less: (T, T) -> bool, x: T, s: seq<T>): seq<T> {
    if s == [] || less(x, s[0]) then [x] + s else [s[0]] + Insert(less, x, s[1..])
  }

  function Sort<T>(less: (T, T) -> bool, s: seq<T>): seq<T> {
    if s == [] then [] else Insert(less, s[|s| - 1], Sort(less, s[..|s| - 1]))
  }

  function Map<T, U>(f: T -> U, s: seq<T>): (r: seq<U>)
    ensures |r| == |s| && forall i :: 0 <= i < |s| ==> r[i] == f(s[i])
  {
    seq(|s|, i requires 0 <= i < |s| => f(s[i]))
  }

  ghost predicate Strict<T(!new)>(less: (T, T) -> bool) {
    && (forall x :: !less(x, x))
    && (forall x, y, z :: less(x, y) && less(y, z) ==> less(x, z))
  }

  ghost predicate Ordered<T(!new)>(less: (T, T) -> bool, s: seq<T>) {
    forall i, j :: 0 <= i < j < |s| ==> !less(s[j], s[i])
  }

  /** Different elements are never tied. */
  ghost predicate NoTies<T(!new)>(less: (T, T) -> bool, s: seq<T>) {
    forall x, y :: x in s && y in s && x != y ==> less(x, y) || less(y, x)
  }

  lemma {:induction false} InsertKeeps<T(!new)>(less: (T, T) -> bool, x: T, s: seq<T>)
    requires Strict(less) && Ordered(less, s)
    ensures Ordered(less, Insert(less, x, s)) && multiset(Insert(less, x, s)) == multiset(s) + multiset{x}
  {
    if s != [] && !less(x, s[0]) {
      var rest := Insert(less, x, s[1..]);
      InsertKeeps(less, x, s[1..]);
      assert s == [s[0]] + s[1..];
      forall j | 0 <= j < |rest| ensures !less(rest[j], s[0]) {
        assert rest[j] in multiset(rest);
        if rest[j] != x { assert rest[j] in multiset(s[1..]); }
      }
      hide Insert;
      OrderedFront(less, s[0], rest);
    } else {
      OrderedFront(less, x, s);
    }
  }

  lemma OrderedFront<T(!new)>(less: (T, T) -> bool, x: T, s: seq<T>)
    requires Strict(less) && Ordered(less, s)
    requires (forall j :: 0 <= j < |s| ==> !less(s[j], x)) || s == [] || less(x, s[0])
    ensures Ordered(less, [x] + s)
  {
    forall j | 0 <= j < |s| ensures !less(s[j], x) {
      assert j == 0 || !less(s[j], s[0]);
    }
  }

  lemma NothingIsOrdered<T(!new)>(less: (T, T) -> bool)
    ensures Ordered(less, [])
  {
  }

  lemma {:induction false} SortSorts<T(!new)>(less: (T, T) -> bool, s: seq<T>)
    requires Strict(less)
    ensures Ordered(less, Sort(less, s)) && multiset(Sort(less, s)) == multiset(s)
  {
    hide Ordered, Strict, Insert;
    if s == [] {
      NothingIsOrdered(less);
    } else {
      SortSorts(less, s[..|s| - 1]);
      InsertKeeps(less, s[|s| - 1], Sort(less, s[..|s| - 1]));
      assert s == s[..|s| - 1] + [s[|s| - 1]];
    }
  }

  lemma SameElements<T>(s: seq<T>, t: seq<T>)
    requires multiset(s) == multiset(t)
    ensures |s| == |t| && forall x :: x in s <==> x in t
  {
    assert |multiset(s)| == |s| && |multiset(t)| == |t|;
    forall x ensures x in s <==> x in t {
      assert x in s <==> x in multiset(s);
      assert x in t <==> x in multiset(t);
    }
  }

  lemma SameFirst<T(!new)>(less: (T, T) -> bool, s: seq<T>, t: seq<T>)
    requires s != [] && t != [] && (forall x :: x in s <==> x in t) && Ordered(less, s) && Ordered(less, t)
    requires NoTies(less, s)
    ensures s[0] == t[0]
  {
    assert s[0] in t && t[0] in s;
  }

  /** There is one way to order elements that are never tied. */
  lemma {:induction false} OneOrder<T(!new)>(less: (T, T) -> bool, s: seq<T>, t: seq<T>)
    requires multiset(s) == multiset(t) && Ordered(less, s) && Ordered(less, t) && NoTies(less, s)
    ensures s == t
    decreases |s|
  {
    SameElements(s, t);
    if s != [] {
      SameFirst(less, s, t);
      assert s == [s[0]] + s[1..] && t == [t[0]] + t[1..];
      assert multiset(s[1..]) == multiset(s) - multiset{s[0]} && multiset(t[1..]) == multiset(t) - multiset{t[0]};
      OneOrder(less, s[1..], t[1..]);
    }
  }

  lemma SortIsDetermined<T(!new)>(less: (T, T) -> bool, s: seq<T>, t: seq<T>)
    requires Strict(less) && multiset(s) == multiset(t) && NoTies(less, s)
    ensures Sort(less, s) == Sort(less, t)
  {
    SortSorts(less, s);
    SortSorts(less, t);
    SameElements(s, Sort(less, s));
    OneOrder(less, Sort(less, s), Sort(less, t));
  }

  lemma SortedStays<T(!new)>(less: (T, T) -> bool, s: seq<T>)
    requires Strict(less) && Ordered(less, s) && NoTies(less, s)
    ensures Sort(less, s) == s
  {
    SortSorts(less, s);
    OneOrder(less, s, Sort(less, s));
  }

  // ---- what a reordering keeps

  lemma TakeOut<T>(s: seq<T>, t: seq<T>) returns (j: nat)
    requires s != [] && multiset(s) == multiset(t)
    ensures j < |t| && t[j] == s[0] && multiset(s[1..]) == multiset(t[..j] + t[j + 1..])
  {
    SameElements(s, t);
    assert s[0] in s;
    j :| 0 <= j < |t| && t[j] == s[0];
    assert s == [s[0]] + s[1..] && t == t[..j] + [s[0]] + t[j + 1..];
    assert multiset(s[1..]) == multiset(s) - multiset{s[0]};
    assert multiset(t[..j] + t[j + 1..]) == multiset(t) - multiset{s[0]};
  }

  lemma MapOfJoined<T, U>(f: T -> U, a: seq<T>, b: seq<T>)
    ensures Map(f, a + b) == Map(f, a) + Map(f, b)
  {
  }

  lemma {:induction false} MapKeeps<T, U>(f: T -> U, s: seq<T>, t: seq<T>)
    requires multiset(s) == multiset(t)
    ensures multiset(Map(f, s)) == multiset(Map(f, t))
    decreases |s|
  {
    SameElements(s, t);
    if s != [] {
      var j := TakeOut(s, t);
      MapKeeps(f, s[1..], t[..j] + t[j + 1..]);
      assert [s[0]] + s[1..] == s && t[..j] + ([s[0]] + t[j + 1..]) == t;
      MapOfJoined(f, [s[0]], s[1..]);
      MapOfJoined(f, t[..j], [s[0]] + t[j + 1..]);
      MapOfJoined(f, [s[0]], t[j + 1..]);
      MapOfJoined(f, t[..j], t[j + 1..]);
      assert Map(f, [s[0]]) == [f(s[0])];
    }
  }

  ghost predicate Distinct<T>(s: seq<T>) {
    forall i, j :: 0 <= i < j < |s| ==> s[i] != s[j]
  }

  lemma DistinctCounts<T>(s: seq<T>)
    ensures Distinct(s) <==> forall x :: x in multiset(s) ==> multiset(s)[x] == 1
  {
    if !Distinct(s) {
      var i, j :| 0 <= i < j < |s| && s[i] == s[j];
      assert s == s[..i] + [s[i]] + s[i + 1..j] + [s[j]] + s[j + 1..];
      assert multiset(s)[s[i]] >= 2;
    } else {
      forall x | x in multiset(s) ensures multiset(s)[x] == 1 {
        var i :| 0 <= i < |s| && s[i] == x;
        assert s == s[..i] + [x] + s[i + 1..];
        assert x !in s[..i] && x !in s[i + 1..];
        assert multiset(s[..i])[x] == 0 && multiset(s[i + 1..])[x] == 0;
      }
    }
  }

  lemma DistinctStays<T>(s: seq<T>, t: seq<T>)
    requires multiset(s) == multiset(t)
    ensures Distinct(s) <==> Distinct(t)
  {
    DistinctCounts(s);
    DistinctCounts(t);
  }
}
