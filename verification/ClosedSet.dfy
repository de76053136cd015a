/** The byte stream that binds a purge plan to one exact closed set: every field is
    preceded by its decimal length and a colon, so no two inventories share a stream. */
module ClosedSets {

  const PURGE_PLAN_DOMAIN := "lexr.windows-handoff/purge-plan/v1\0"

  datatype Kind = DirectoryKind | FileKind(size: nat, sha256: string)

  /** One scanned path: its permission bits, its kind and, for a file, its content. */
  datatype Entry = Entry(path: string, perm: nat, kind: Kind)

  predicate Digit(c: char) { '0' <= c <= '9' }

  function DigitOf(d: nat): (c: char)
    requires d < 10
    ensures Digit(c) && DigitValue(c) == d
  {
    ('0' as int + d) as char
  }

  /** Positional notation without leading zeros, in base 2 to 10. */
  function Digits(n: nat, base: nat): (s: string)
    requires 2 <= base <= 10
    ensures |s| > 0 && forall i :: 0 <= i < |s| ==> Digit(s[i])
  {
    if n < base then [DigitOf(n)] else Digits(n / base, base) + [DigitOf(n % base)]
  }

  function Value(s: string, base: nat): nat {
    if s == [] then 0 else Value(s[..|s| - 1], base) * base + DigitValue(s[|s| - 1])
  }

  function DigitValue(c: char): nat {
    if Digit(c) then c as int - '0' as int else 0
  }

  lemma Decompose(n: nat, base: nat)
    requires base > 0
    ensures n == n / base * base + n % base && n % base < base
  {
  }

  lemma {:induction false} ValueOfDigits(n: nat, base: nat)
    requires 2 <= base <= 10
    ensures Value(Digits(n, base), base) == n
  {
    if n < base {
      assert Digits(n, base) == [DigitOf(n)] && [DigitOf(n)][..0] == [];
    } else {
      ValueOfDigits(n / base, base);
      Decompose(n, base);
      ValueMore(Digits(n / base, base), n % base, base);
    }
  }

  lemma ValueMore(s: string, d: nat, base: nat)
    requires d < 10
    ensures Value(s + [DigitOf(d)], base) == Value(s, base) * base + d
  {
    var t := s + [DigitOf(d)];
    assert t[..|t| - 1] == s;
  }

  lemma DigitsInjective(n: nat, m: nat, base: nat)
    requires 2 <= base <= 10 && Digits(n, base) == Digits(m, base)
    ensures n == m
  {
    ValueOfDigits(n, base);
    ValueOfDigits(m, base);
  }

  function Field(value: string): string {
    Digits(|value|, 10) + ":" + value
  }

  function Stream(fields: seq<string>): string {
    if fields == [] then "" else Stream(fields[..|fields| - 1]) + Field(fields[|fields| - 1])
  }

  lemma NoColon(digits: string, s: string)
    requires digits <= s && forall i :: 0 <= i < |digits| ==> Digit(digits[i])
    ensures forall i :: 0 <= i < |digits| ==> s[i] != ':'
  {
  }

  /** Read from the front: what the first length and colon delimit. */
  lemma HeadField(v: string, rest: string, w: string, tail: string)
    requires Field(v) + rest == Field(w) + tail
    ensures v == w && rest == tail
  {
    var a, b := Digits(|v|, 10), Digits(|w|, 10);
    var s := Field(v) + rest;
    assert s[..|a|] == a && s[|a|] == ':' && s[..|b|] == b && s[|b|] == ':';
    NoColon(a, s);
    NoColon(b, s);
    DigitsInjective(|v|, |w|, 10);
    assert v == s[|a| + 1..|a| + 1 + |v|] && rest == s[|a| + 1 + |v|..];
  }

  lemma Regroup<T>(a: seq<T>, b: seq<T>, c: seq<T>)
    ensures a + b + c == a + (b + c)
  {
  }

  lemma {:induction false} StreamHead(fields: seq<string>)
    requires fields != []
    ensures Stream(fields) == Field(fields[0]) + Stream(fields[1..])
  {
    hide Field;
    var n := |fields| - 1;
    if n == 0 {
      assert fields[..0] == [] && fields[1..] == [];
    } else {
      StreamHead(fields[..n]);
      var rest := fields[1..];
      assert fields[..n][1..] == rest[..n - 1] && fields[..n][0] == fields[0] && rest[n - 1] == fields[n];
      Regroup(Field(fields[0]), Stream(rest[..n - 1]), Field(fields[n]));
    }
  }

  lemma {:induction false} StreamInjective(a: seq<string>, b: seq<string>)
    requires Stream(a) == Stream(b)
    ensures a == b
    decreases |a| + |b|
  {
    if a != [] { StreamHead(a); }
    if b != [] { StreamHead(b); }
    if a != [] && b != [] {
      HeadField(a[0], Stream(a[1..]), b[0], Stream(b[1..]));
      StreamInjective(a[1..], b[1..]);
      assert a == [a[0]] + a[1..] && b == [b[0]] + b[1..];
    }
  }

  /** Five fields for a file, three for a directory. */
  function EntryFields(e: Entry): seq<string> {
    match e.kind
    case DirectoryKind => [e.path, "directory", Digits(e.perm, 8)]
    case FileKind(size, sha256) => [e.path, "file", Digits(e.perm, 8), Digits(size, 10), sha256]
  }

  function InventoryFields(entries: seq<Entry>): seq<string> {
    if entries == [] then [] else InventoryFields(entries[..|entries| - 1]) + EntryFields(entries[|entries| - 1])
  }

  lemma {:induction false} InventoryHead(entries: seq<Entry>)
    requires entries != []
    ensures InventoryFields(entries) == EntryFields(entries[0]) + InventoryFields(entries[1..])
  {
    hide EntryFields;
    var n := |entries| - 1;
    if n == 0 {
      assert entries[..0] == [] && entries[1..] == [];
    } else {
      InventoryHead(entries[..n]);
      var rest := entries[1..];
      assert entries[..n][1..] == rest[..n - 1] && entries[..n][0] == entries[0] && rest[n - 1] == entries[n];
      Regroup(EntryFields(entries[0]), InventoryFields(rest[..n - 1]), EntryFields(entries[n]));
    }
  }

  lemma HeadEntry(a: Entry, rest: seq<string>, b: Entry, tail: seq<string>)
    requires EntryFields(a) + rest == EntryFields(b) + tail
    ensures a == b && rest == tail
  {
    var s, t := EntryFields(a) + rest, EntryFields(b) + tail;
    assert s[0] == a.path && t[0] == b.path && s[1] == EntryFields(a)[1] && t[1] == EntryFields(b)[1];
    assert "file"[0] != "directory"[0];
    assert s[2] == Digits(a.perm, 8) && t[2] == Digits(b.perm, 8);
    DigitsInjective(a.perm, b.perm, 8);
    if a.kind.FileKind? {
      assert s[3] == Digits(a.kind.size, 10) && t[3] == Digits(b.kind.size, 10) && s[4] == a.kind.sha256 &&
             t[4] == b.kind.sha256;
      DigitsInjective(a.kind.size, b.kind.size, 10);
    }
    assert rest == s[|EntryFields(a)|..] && tail == t[|EntryFields(b)|..];
  }

  lemma {:induction false} InventoryInjective(a: seq<Entry>, b: seq<Entry>)
    requires InventoryFields(a) == InventoryFields(b)
    ensures a == b
    decreases |a| + |b|
  {
    if a != [] { InventoryHead(a); }
    if b != [] { InventoryHead(b); }
    if a != [] && b != [] {
      HeadEntry(a[0], InventoryFields(a[1..]), b[0], InventoryFields(b[1..]));
      InventoryInjective(a[1..], b[1..]);
      assert a == [a[0]] + a[1..] && b == [b[0]] + b[1..];
    }
  }

  /** What is fed to the digest for one identifier and its inventory. */
  function ClosedSetStream(identifier: string, entries: seq<Entry>): string {
    Stream([PURGE_PLAN_DOMAIN, identifier] + InventoryFields(entries))
  }

  /** Equal streams mean the same identifier and the same inventory. */
  lemma ClosedSetInjective(id: string, entries: seq<Entry>, id': string, entries': seq<Entry>)
    requires ClosedSetStream(id, entries) == ClosedSetStream(id', entries')
    ensures id == id' && entries == entries'
  {
    var s, t := [PURGE_PLAN_DOMAIN, id] + InventoryFields(entries), [PURGE_PLAN_DOMAIN, id'] +
                  InventoryFields(entries');
    StreamInjective(s, t);
    assert s[1] == id && t[1] == id' && s[2..] == InventoryFields(entries) && t[2..] == InventoryFields(entries');
    InventoryInjective(entries, entries');
  }

  class Hasher {
    var written: string

    constructor ()
      ensures written == ""
    {
      written := "";
    }

    method WriteField(value: string)
      modifies this
      ensures written == old(written) + Field(value)
    {
      written := written + Digits(|value|, 10);
      written := written + ":";
      written := written + value;
    }
  }

  lemma StreamMore(fields: seq<string>, more: seq<string>)
    ensures Stream(fields + more) == Stream(fields) + Stream(more)
  {
    hide Field;
    var all := fields + more;
    if more == [] {
      assert all == fields;
    } else {
      var n := |more| - 1;
      StreamMore(fields, more[..n]);
      assert all[..|all| - 1] == fields + more[..n] && all[|all| - 1] == more[n];
      Regroup(Stream(fields), Stream(more[..n]), Field(more[n]));
    }
  }

  /** Feeds one scanned path to the digest. */
  method WriteEntry(hasher: Hasher, e: Entry)
    modifies hasher
    ensures hasher.written == old(hasher.written) + Stream(EntryFields(e))
  {
    hide Field, Digits, EntryFields, Stream;
    EntryStream(e);
    ghost var was := hasher.written;
    hasher.WriteField(e.path);
    hasher.WriteField(if e.kind.FileKind? then "file" else "directory");
    assert hasher.written == was + (Field(e.path) + Field(if e.kind.FileKind? then "file" else "directory"));
    hasher.WriteField(Digits(e.perm, 8));
    ghost var start := Field(e.path) + Field(if e.kind.FileKind? then "file" else "directory") +
                         Field(Digits(e.perm, 8));
    assert hasher.written == was + start;
    if e.kind.FileKind? {
      hasher.WriteField(Digits(e.kind.size, 10));
      assert hasher.written == was + (start + Field(Digits(e.kind.size, 10)));
      hasher.WriteField(e.kind.sha256);
    }
  }

  /** Feeds one closed set to the digest, in path order. */
  method DigestClosedSet(identifier: string, entries: seq<Entry>) returns (stream: string)
    ensures stream == ClosedSetStream(identifier, entries)
  {
    hide Field, EntryFields, Stream, InventoryFields;
    var hasher := new Hasher();
    hasher.WriteField(PURGE_PLAN_DOMAIN);
    hasher.WriteField(identifier);
    ghost var head := [PURGE_PLAN_DOMAIN, identifier];
    Opening(PURGE_PLAN_DOMAIN, identifier);
    var i := 0;
    assert entries[..0] == [] && head + [] == head;
    while i < |entries|
      invariant i <= |entries|
      invariant hasher.written == Stream(head + InventoryFields(entries[..i]))
    {
      WriteEntry(hasher, entries[i]);
      StreamMore(head + InventoryFields(entries[..i]), EntryFields(entries[i]));
      NextEntry(entries, i);
      Regroup(head, InventoryFields(entries[..i]), EntryFields(entries[i]));
      i := i + 1;
    }
    assert entries[..i] == entries;
    stream := hasher.written;
  }

  lemma Opening(domain: string, identifier: string)
    ensures Stream([domain, identifier]) == "" + Field(domain) + Field(identifier) && InventoryFields([]) == []
  {
    hide Field;
    StreamOf([domain], identifier);
    StreamOf([], domain);
    assert [] + [domain] == [domain] && [domain] + [identifier] == [domain, identifier];
  }

  lemma NextEntry(entries: seq<Entry>, i: nat)
    requires i < |entries|
    ensures InventoryFields(entries[..i + 1]) == InventoryFields(entries[..i]) + EntryFields(entries[i])
  {
    assert entries[..i + 1][..i] == entries[..i];
  }

  lemma Stream3(a: string, b: string, c: string)
    ensures Stream([a, b, c]) == Field(a) + Field(b) + Field(c)
  {
    hide Field;
    StreamOf([a, b], c);
    StreamOf([a], b);
    StreamOf([], a);
    assert [a, b, c] == [a, b] + [c] && [a, b] == [a] + [b] && [a] == [] + [a];
  }

  lemma StreamOf(fields: seq<string>, last: string)
    ensures Stream(fields + [last]) == Stream(fields) + Field(last)
  {
    assert (fields + [last])[..|fields|] == fields;
  }

  lemma EntryStream(e: Entry)
    ensures var start := Field(e.path) + Field(if e.kind.FileKind? then "file" else "directory") +
              Field(Digits(e.perm, 8));
      Stream(EntryFields(e)) == if e.kind.FileKind? then start + Field(Digits(e.kind.size, 10)) + Field(e.kind.sha256)
      else start
  {
    hide Field, Digits, Stream;
    var mode := Digits(e.perm, 8);
    match e.kind
    case DirectoryKind =>
      Stream3(e.path, "directory", mode);
      assert EntryFields(e) == [e.path, "directory", mode];
    case FileKind(size, sha256) =>
      var start := [e.path, "file", mode];
      Stream3(e.path, "file", mode);
      StreamOf(start, Digits(size, 10));
      StreamOf(start + [Digits(size, 10)], sha256);
      assert EntryFields(e) == start + [Digits(size, 10)] + [sha256];
  }
}
