/** Mountinfo records, and the mounted filesystems that own a root and its boot directory. */
module MountInfo {
  import opened Wrappers
  import opened MountText

  const MAXIMUM_FIELD := 4096
  const MAXIMUM_ENTRIES := 8192

  datatype Entry = Entry(mountID: nat, parentID: nat, devMajor: nat, devMinor: nat, root: string, mountPoint: string,
    mountOptions: string, fstype: string, source: string)

  // ---- sizes are counted in bytes

  function Width(c: char): nat {
    var v := c as int;
    if v < 0x80 then 1 else if v < 0x800 then 2 else if v < 0x10000 then 3 else 4
  }

  function Size(s: string): nat {
    if s == [] then 0 else Width(s[0]) + Size(s[1..])
  }

  // ---- paths

  function Segments(s: string): seq<string> {
    if s == [] then [[]]
    else
      var rest := Segments(s[1..]);
      if s[0] == '/' || rest == [] then [[]] + rest else [[s[0]] + rest[0]] + rest[1..]
  }

  predicate Segment(s: string) { s != "" && s != "." && s != ".." }

  /** A path that cleaning leaves as it is, and that starts at the root. */
  predicate CleanPath(p: string) {
    p == "/" || (p != [] && p[0] == '/' && forall i :: 0 <= i < |Segments(p[1..])| ==> Segment(Segments(p[1..])[i]))
  }

  predicate Lower(c: char) { 'a' <= c <= 'z' }

  predicate NameChar(c: char) { Lower(c) || Digit(c) || c == '_' }

  /** A name of n characters, a colon and a number in brackets. */
  predicate NamedUpTo(s: string, n: nat) {
    && 0 < n < |s| - 3 && Lower(s[0]) && (forall i :: 0 <= i < n ==> NameChar(s[i]))
    && s[n] == ':' && s[n + 1] == '[' && s[|s| - 1] == ']' && Digits(s[n + 2..|s| - 1])
  }

  /** The display name of a bound namespace, such as mnt:[4026531840]. */
  predicate NamespaceName(s: string) {
    exists n :: 0 <= n < |s| && NamedUpTo(s, n)
  }

  // ---- one record

  datatype Device = Device(major: nat, minor: nat)

  function ParseDevice(field: string): Option<Device> {
    match SplitPair(field)
    case None => None
    case Some((a, b)) =>
      match (Atoi(a), Atoi(b))
      case (Some(major), Some(minor)) => if major >= 0 && minor >= 0 then Some(Device(major, minor)) else None
      case _ => None
  }

  /** The only separator among the optional fields, when four fields start there. */
  ghost predicate Separated(fields: seq<string>, sep: nat) {
    6 <= sep && |fields| == sep + 4 && fields[sep] == "-" &&
    forall i :: 6 <= i < |fields| && i != sep ==> fields[i] != "-"
  }

  /** What the fields of a record say. */
  ghost predicate Says(fields: seq<string>, sep: nat, e: Entry) {
    && Separated(fields, sep)
    && Atoi(fields[0]) == Some(e.mountID) && Atoi(fields[1]) == Some(e.parentID)
    && ParseDevice(fields[2]) == Some(Device(e.devMajor, e.devMinor))
    && Decode(fields[3]) == Some(e.root) && Decode(fields[4]) == Some(e.mountPoint)
    && Decode(fields[sep + 2]) == Some(e.source)
    && e.mountOptions == fields[5] && e.fstype == fields[sep + 1]
  }

  ghost predicate Admissible(e: Entry) {
    CleanPath(e.mountPoint) && (CleanPath(e.root) || (e.fstype == "nsfs" && NamespaceName(e.root)))
  }

  ghost predicate Parses(line: string, e: Entry) {
    var fields := Fields(line);
    && Size(line) <= 7 * MAXIMUM_FIELD && (forall i :: 0 <= i < |fields| ==> Size(fields[i]) <= MAXIMUM_FIELD)
    && (exists sep :: Says(fields, sep, e)) && Admissible(e)
  }

  method ParseEntry(line: string) returns (r: Option<Entry>)
    ensures r.Some? <==> exists e :: Parses(line, e)
    ensures r.Some? ==> Parses(line, r.value)
  {
    hide Fields, Decode, CleanPath, NamespaceName, Size, Atoi, ParseDevice;
    if Size(line) > 7 * MAXIMUM_FIELD { return None; }
    var fields := Fields(line);
    if |fields| < 10 { return None; }
    for i := 0 to |fields|
      invariant forall j :: 0 <= j < i ==> Size(fields[j]) <= MAXIMUM_FIELD
    {
      if Size(fields[i]) > MAXIMUM_FIELD { return None; }
    }
    var id, parent, device := Atoi(fields[0]), Atoi(fields[1]), ParseDevice(fields[2]);
    if id.None? || id.value < 0 || parent.None? || parent.value < 0 || device.None? { return None; }
    var root := DecodePath(fields[3]);
    if root.None? { return None; }
    var point := DecodePath(fields[4]);
    if point.None? || !CleanPath(point.value) { return None; }
    var sep := Separator(fields);
    if sep < 0 { return None; }
    if !CleanPath(root.value) && !(fields[sep + 1] == "nsfs" && NamespaceName(root.value)) { return None; }
    var source := DecodePath(fields[sep + 2]);
    if source.None? { return None; }
    var e := Entry(id.value, parent.value, device.value.major, device.value.minor, root.value, point.value, fields[5],
                   fields[sep + 1], source.value);
    assert Says(fields, sep, e) && Admissible(e);
    assert Parses(line, e);
    r := Some(e);
  }

  method Separator(fields: seq<string>) returns (sep: int)
    requires |fields| >= 10
    ensures if sep >= 0 then Separated(fields, sep) else forall s :: !Separated(fields, s)
  {
    sep := -1;
    for i := 6 to |fields|
      invariant -1 == sep || 6 <= sep < i
      invariant forall j :: 6 <= j < i ==> (fields[j] == "-" <==> j == sep)
    {
      if fields[i] == "-" {
        if sep >= 0 {
          assert fields[sep] == "-" && sep != i;
          return -1;
        }
        sep := i;
      }
    }
    if sep < 0 || |fields| - sep != 4 { sep := -1; }
  }

  lemma SeparatorIsUnique(fields: seq<string>, a: nat, b: nat)
    requires Separated(fields, a) && Separated(fields, b)
    ensures a == b
  {
  }

  /** A line says one thing. */
  lemma ParsesOneThing(line: string, e: Entry, f: Entry)
    requires Parses(line, e) && Parses(line, f)
    ensures e == f
  {
  }

  // ---- printing a record

  function Words(e: Entry, optional: seq<string>, superOptions: string): seq<string> {
    [Decimal(e.mountID), Decimal(e.parentID), Decimal(e.devMajor) + ":" + Decimal(e.devMinor), Escape(e.root),
     Escape(e.mountPoint), e.mountOptions]
    + optional + ["-", e.fstype, Escape(e.source), superOptions]
  }

  predicate Plain(s: string) {
    NulFree(s) && Word(Escape(s))
  }

  /** A record that the kernel may print: every field is a word of its own and only the
      separator is a single dash. */
  ghost predicate WellFormed(e: Entry, optional: seq<string>, superOptions: string) {
    && e.mountID <= MAXIMUM_INTEGER && e.parentID <= MAXIMUM_INTEGER && e.devMajor <= MAXIMUM_INTEGER
    && e.devMinor <= MAXIMUM_INTEGER
    && Plain(e.root) && Plain(e.mountPoint) && Plain(e.source) && Escape(e.source) != "-"
    && Word(e.mountOptions) && Word(e.fstype) && e.fstype != "-" && Word(superOptions) && superOptions != "-"
    && (forall i :: 0 <= i < |optional| ==> Word(optional[i]) && optional[i] != "-")
    && Admissible(e)
  }

  ghost predicate InBounds(words: seq<string>) {
    Size(Joined(words)) <= 7 * MAXIMUM_FIELD && forall i :: 0 <= i < |words| ==> Size(words[i]) <= MAXIMUM_FIELD
  }

  /** Printing a well-formed record within the bounds and parsing it gives it back. */
  lemma PrintedParses(e: Entry, optional: seq<string>, superOptions: string)
    requires WellFormed(e, optional, superOptions) && InBounds(Words(e, optional, superOptions))
    ensures Parses(Joined(Words(e, optional, superOptions)), e)
  {
    hide Fields, Joined, Escape, Decode, CleanPath, NamespaceName, Size, Atoi, ParseDevice, Decimal, Word, NulFree;
    var words := Words(e, optional, superOptions);
    WordsAreWords(e, optional, superOptions);
    FieldsOfJoined(words);
    AtoiOfDecimal(e.mountID);
    AtoiOfDecimal(e.parentID);
    DeviceOfPrinted(e.devMajor, e.devMinor);
    DecodeEscaped(e.root);
    DecodeEscaped(e.mountPoint);
    DecodeEscaped(e.source);
    var sep := 6 + |optional|;
    assert words[sep] == "-" && words[sep + 1] == e.fstype && words[sep + 2] == Escape(e.source) &&
           words[sep + 3] == superOptions;
    forall i | 6 <= i < |words| && i != sep ensures words[i] != "-" {
      if i < sep { assert words[i] == optional[i - 6]; }
    }
    assert Says(words, sep, e);
  }

  lemma NumberIsWord(n: nat)
    ensures Word(Decimal(n)) && ':' !in Decimal(n)
  {
    var s := Decimal(n);
    forall i | 0 <= i < |s| ensures !Space(s[i]) && s[i] != ':' { assert Digit(s[i]); }
  }

  lemma DeviceOfPrinted(major: nat, minor: nat)
    requires major <= MAXIMUM_INTEGER && minor <= MAXIMUM_INTEGER
    ensures ParseDevice(Decimal(major) + ":" + Decimal(minor)) == Some(Device(major, minor))
    ensures Word(Decimal(major) + ":" + Decimal(minor))
  {
    hide Decimal, Atoi, SplitPair;
    NumberIsWord(major);
    NumberIsWord(minor);
    SplitJoined(Decimal(major), Decimal(minor));
    AtoiOfDecimal(major);
    AtoiOfDecimal(minor);
  }

  lemma WordsAreWords(e: Entry, optional: seq<string>, superOptions: string)
    requires WellFormed(e, optional, superOptions)
    ensures Words(e, optional, superOptions) != []
    ensures forall i :: 0 <= i < |Words(e, optional, superOptions)| ==> Word(Words(e, optional, superOptions)[i])
  {
    hide Word, Escape, Decimal, CleanPath, NamespaceName;
    NumberIsWord(e.mountID);
    NumberIsWord(e.parentID);
    DeviceOfPrinted(e.devMajor, e.devMinor);
    assert Word("-") by { DashIsWord(); }
  }

  lemma DashIsWord()
    ensures Word("-")
  {
  }

  /** Every character is neither NUL nor white space that stays unescaped. */
  predicate Survives(s: string) {
    s != [] && forall i :: 0 <= i < |s| ==> s[i] != '\0' && (Space(s[i]) ==> Escaped(s[i]))
  }

  predicate Spaceless(s: string) {
    forall i :: 0 <= i < |s| ==> !Space(s[i])
  }

  lemma SpacelessSplit(a: string, b: string)
    ensures Spaceless(a + b) <==> Spaceless(a) && Spaceless(b)
  {
    if Spaceless(a + b) {
      assert forall i :: 0 <= i < |a| ==> a[i] == (a + b)[i];
      assert forall i :: 0 <= i < |b| ==> b[i] == (a + b)[|a| + i];
    }
  }

  lemma {:induction false} EscapedWord(s: string)
    ensures Spaceless(Escape(s)) <==> forall i :: 0 <= i < |s| ==> Space(s[i]) ==> Escaped(s[i])
  {
    if s != [] {
      SpacelessSplit(EscapeOne(s[0]), Escape(s[1..]));
      EscapedWord(s[1..]);
      OneEscaped(s[0]);
      assert forall i :: 0 < i < |s| ==> s[i] == s[1..][i - 1];
    }
  }

  lemma OneEscaped(c: char)
    ensures Spaceless(EscapeOne(c)) <==> (Space(c) ==> Escaped(c))
  {
    if !Escaped(c) { assert EscapeOne(c)[0] == c; }
  }

  /** A path comes back from its printed field exactly when it is not empty, has no NUL
      and has no white space but spaces, tabs and newlines. */
  lemma FieldSurvives(s: string)
    ensures Fields(Escape(s)) == [Escape(s)] && Decode(Escape(s)) == Some(s) <==> Survives(s)
  {
    if Survives(s) { SurvivorsParse(s); }
    if Fields(Escape(s)) == [Escape(s)] && Decode(Escape(s)) == Some(s) { ParsedSurvive(s); }
  }

  lemma SurvivorsParse(s: string)
    requires Survives(s)
    ensures Fields(Escape(s)) == [Escape(s)] && Decode(Escape(s)) == Some(s)
  {
    hide Escape, Decode, Fields, Space;
    EscapedHasNoSpace(s);
    EscapedWord(s);
    DecodeEscaped(s);
    FieldsOfJoined([Escape(s)]);
  }

  lemma ParsedSurvive(s: string)
    requires Fields(Escape(s)) == [Escape(s)] && Decode(Escape(s)) == Some(s)
    ensures Survives(s)
  {
    hide Escape, Decode, Fields, Space;
    FieldsAreWords(Escape(s));
    assert Word(Fields(Escape(s))[0]);
    EscapedWord(s);
    NulIsRefused(s);
    EmptyStays(s);
  }

  lemma EmptyStays(s: string)
    ensures s == [] ==> Escape(s) == []
  {
  }

  lemma {:induction false} FieldsAreWords(line: string)
    ensures forall i :: 0 <= i < |Fields(line)| ==> Word(Fields(line)[i])
    decreases |line|
  {
    if line != [] {
      if Space(line[0]) { FieldsAreWords(line[1..]); }
      else {
        var n := WordLength(line);
        FieldsAreWords(line[n..]);
      }
    }
  }

  lemma {:induction false} NulIsRefused(s: string)
    requires Decode(Escape(s)) == Some(s)
    ensures NulFree(s)
  {
    EscapedHasNoSpace(s);
    EscapeDecoded(Escape(s));
  }

  // ---- a whole table

  const MAXIMUM_BYTES := 1048576

  function LineEnd(data: string): (n: nat)
    ensures n <= |data|
    ensures (n < |data| ==> data[n] == '\n') && forall i :: 0 <= i < n ==> data[i] != '\n'
  {
    if data == [] || data[0] == '\n' then 0 else 1 + LineEnd(data[1..])
  }

  function AfterLine(data: string): string {
    if LineEnd(data) < |data| then data[LineEnd(data) + 1..] else []
  }

  /** The lines of a table that are not empty. */
  function Lines(data: string): seq<string>
    decreases |data|
  {
    if data == [] then []
    else (if LineEnd(data) == 0 then [] else [data[..LineEnd(data)]]) + Lines(AfterLine(data))
  }

  ghost predicate Tabled(data: string, entries: seq<Entry>) {
    && Size(data) <= MAXIMUM_BYTES && 1 <= |entries| <= MAXIMUM_ENTRIES && |Lines(data)| == |entries|
    && forall i :: 0 <= i < |entries| ==> Parses(Lines(data)[i], entries[i])
  }

  method ParseMountInfo(data: string) returns (r: Option<seq<Entry>>)
    ensures r.Some? <==> exists entries :: Tabled(data, entries)
    ensures r.Some? ==> Tabled(data, r.value)
  {
    hide Parses, LineEnd, Size;
    if Size(data) > MAXIMUM_BYTES { return None; }
    var entries: seq<Entry> := [];
    var rest := data;
    while |rest| > 0
      invariant |entries| <= |Lines(data)| && |entries| <= MAXIMUM_ENTRIES && Lines(data)[|entries|..] == Lines(rest)
      invariant forall i :: 0 <= i < |entries| ==> Parses(Lines(data)[i], entries[i])
      decreases |rest|
    {
      var n := LineEnd(rest);
      var line, more := rest[..n], AfterLine(rest);
      if line == [] {
        rest := more;
        continue;
      }
      assert Lines(data)[|entries|..][1..] == Lines(data)[|entries| + 1..];
      assert Lines(data)[|entries|] == line;
      var entry := ParseEntry(line);
      if entry.None? { return None; }
      entries := entries + [entry.value];
      if |entries| > MAXIMUM_ENTRIES { return None; }
      rest := more;
    }
    if |entries| == 0 { return None; }
    assert Tabled(data, entries);
    r := Some(entries);
  }

  function Printed(lines: seq<string>): string {
    if lines == [] then [] else lines[0] + "\n" + Printed(lines[1..])
  }

  predicate Line(s: string) {
    s != [] && forall i :: 0 <= i < |s| ==> s[i] != '\n'
  }

  lemma {:induction false} LinesOfPrinted(lines: seq<string>)
    requires forall i :: 0 <= i < |lines| ==> Line(lines[i])
    ensures Lines(Printed(lines)) == lines
  {
    if lines != [] {
      var data, n := Printed(lines), |lines[0]|;
      assert Line(lines[0]) && data[n] == '\n' && data[..n] == lines[0] && data[n + 1..] == Printed(lines[1..]);
      assert LineEnd(data) == n by { assert forall i :: 0 <= i < n ==> data[i] == lines[0][i]; }
      LinesOfPrinted(lines[1..]);
      assert lines == [lines[0]] + lines[1..];
    }
  }

  lemma {:induction false} JoinedIsLine(words: seq<string>)
    requires words != [] && forall i :: 0 <= i < |words| ==> Word(words[i])
    ensures Line(Joined(words))
  {
    assert Word(words[0]);
    if |words| > 1 { JoinedIsLine(words[1..]); }
  }

  datatype Record = Record(entry: Entry, optional: seq<string>, superOptions: string)

  function RecordLine(r: Record): string { Joined(Words(r.entry, r.optional, r.superOptions)) }

  /** Printing a table within the bounds and parsing it gives its entries back. */
  lemma PrintedTable(records: seq<Record>, lines: seq<string>, entries: seq<Entry>)
    requires 1 <= |records| <= MAXIMUM_ENTRIES && |lines| == |records| && |entries| == |records|
    requires forall i :: 0 <= i < |records| ==> lines[i] == RecordLine(records[i]) && entries[i] == records[i].entry
    requires forall i ::
               0 <= i < |records| ==> WellFormed(records[i].entry, records[i].optional, records[i].superOptions)
    requires forall i ::
               0 <= i < |records| ==> InBounds(Words(records[i].entry, records[i].optional, records[i].superOptions))
    requires Size(Printed(lines)) <= MAXIMUM_BYTES
    ensures Tabled(Printed(lines), entries)
  {
    hide WellFormed, InBounds, Parses, Words;
    forall i | 0 <= i < |records| ensures Line(lines[i]) && Parses(lines[i], entries[i]) {
      var r := records[i];
      PrintedParses(r.entry, r.optional, r.superOptions);
      WordsAreWords(r.entry, r.optional, r.superOptions);
      JoinedIsLine(Words(r.entry, r.optional, r.superOptions));
    }
    LinesOfPrinted(lines);
  }

  // ---- ownership of the root and of its boot directory

  /** What must agree between records of one mount point. */
  datatype Filesystem = Filesystem(devMajor: nat, devMinor: nat, root: string, fstype: string, source: string)

  function Identity(e: Entry): Filesystem {
    Filesystem(e.devMajor, e.devMinor, e.root, e.fstype, e.source)
  }

  ghost predicate MountedAt(entries: seq<Entry>, point: string, e: Entry) {
    e in entries && e.mountPoint == point
  }

  /** Something is mounted there, and all that is mounted there is one thing. */
  ghost predicate Unambiguous(entries: seq<Entry>, point: string, e: Entry) {
    MountedAt(entries, point, e) && CleanPath(e.root) &&
    forall f :: MountedAt(entries, point, f) ==> Identity(f) == Identity(e)
  }

  method LastExactMount(entries: seq<Entry>, point: string) returns (found: Option<Entry>)
    ensures found.Some? ==> MountedAt(entries, point, found.value)
    ensures found.None? ==> forall e :: !MountedAt(entries, point, e)
  {
    found := None;
    for i := 0 to |entries|
      invariant found.Some? ==> MountedAt(entries, point, found.value)
      invariant found.None? ==> forall j :: 0 <= j < i ==> entries[j].mountPoint != point
    {
      if entries[i].mountPoint == point { found := Some(entries[i]); }
    }
  }

  method CheckUnambiguous(entries: seq<Entry>, point: string, top: Entry) returns (ok: bool)
    requires MountedAt(entries, point, top)
    ensures ok <==> Unambiguous(entries, point, top)
  {
    if !CleanPath(top.root) { return false; }
    for i := 0 to |entries|
      invariant forall j :: 0 <= j < i && entries[j].mountPoint == point ==> Identity(entries[j]) == Identity(top)
    {
      var e := entries[i];
      if e.mountPoint != point { continue; }
      if e.devMajor != top.devMajor || e.devMinor != top.devMinor || e.root != top.root || e.fstype != top.fstype ||
      e.source != top.source {
        assert MountedAt(entries, point, e) && Identity(e) != Identity(top);
        return false;
      }
    }
    ok := true;
  }

  function TrimSlashes(s: string): string {
    if s != [] && s[|s| - 1] == '/' then TrimSlashes(s[..|s| - 1]) else s
  }

  function JoinMountPath(root: string, name: string): string { TrimSlashes(root) + "/" + name }

  /** The root without its trailing slashes, one slash, the name. */
  lemma {:induction false} JoinsOnce(root: string, name: string)
    ensures exists n: nat ::
              n <= |root| && (n > 0 ==> root[n - 1] != '/') && (forall i :: n <= i < |root| ==> root[i] == '/') &&
              JoinMountPath(root, name) == root[..n] + "/" + name
    ensures JoinMountPath("/", "boot") == "/boot" && JoinMountPath(root + "/", name) == JoinMountPath(root, name)
  {
    var n := TrimmedLength(root);
    assert root[..n] == TrimSlashes(root);
    assert (root + "/")[..|root|] == root;
    assert "/"[..0] == "";
  }

  lemma {:induction false} TrimmedLength(s: string) returns (n: nat)
    ensures n <= |s| && TrimSlashes(s) == s[..n] && (n > 0 ==> s[n - 1] != '/')
    ensures forall i :: n <= i < |s| ==> s[i] == '/'
  {
    if s != [] && s[|s| - 1] == '/' {
      n := TrimmedLength(s[..|s| - 1]);
      assert s[..|s| - 1][..n] == s[..n];
      forall i | n <= i < |s| ensures s[i] == '/' { if i < |s| - 1 { assert s[..|s| - 1][i] == '/'; } }
    } else {
      n := |s|;
      assert s[..n] == s;
    }
  }

  datatype Selection = Refused | Selected(root: Entry, boot: Entry, bootWithinRoot: bool)

  /** The owners that a mount table determines, whatever the order of its records. */
  ghost predicate Owners(entries: seq<Entry>, root: string, s: Selection) {
    var boot := JoinMountPath(root, "boot");
    match s
    case Refused =>
      || (forall e :: !Unambiguous(entries, root, e))
      || ((exists e :: MountedAt(entries, boot, e)) && forall e :: !Unambiguous(entries, boot, e))
    case Selected(r, b, within) =>
      && Unambiguous(entries, root, r)
      && if within then b == r && (forall e :: !MountedAt(entries, boot, e)) else Unambiguous(entries, boot, b)
  }

  method SelectRootAndBoot(entries: seq<Entry>, root: string) returns (s: Selection)
    ensures Owners(entries, root, s)
  {
    var r := LastExactMount(entries, root);
    if r.None? { return Refused; }
    var ok := CheckUnambiguous(entries, root, r.value);
    if !ok {
      OneSpeaksForAll(entries, root, r.value);
      return Refused;
    }
    var boot := JoinMountPath(root, "boot");
    var b := LastExactMount(entries, boot);
    if b.Some? {
      ok := CheckUnambiguous(entries, boot, b.value);
      if !ok {
        OneSpeaksForAll(entries, boot, b.value);
        return Refused;
      }
      return Selected(r.value, b.value, false);
    }
    s := Selected(r.value, r.value, true);
  }

  lemma OneSpeaksForAll(entries: seq<Entry>, point: string, e: Entry)
    requires MountedAt(entries, point, e) && !Unambiguous(entries, point, e)
    ensures forall f :: !Unambiguous(entries, point, f)
  {
    forall f ensures !Unambiguous(entries, point, f) {
      if Unambiguous(entries, point, f) {
        AgreesWithAll(entries, point, e, f);
        assert false;
      }
    }
  }

  lemma AgreesWithAll(entries: seq<Entry>, point: string, e: Entry, f: Entry)
    requires MountedAt(entries, point, e) && Unambiguous(entries, point, f)
    ensures Unambiguous(entries, point, e)
  {
    forall g | MountedAt(entries, point, g) ensures Identity(g) == Identity(e) {
      assert Identity(g) == Identity(f);
    }
  }

  /** Any reordering of the table selects the same filesystems, or refuses too. */
  lemma OrderDoesNotMatter(entries: seq<Entry>, others: seq<Entry>, root: string, s: Selection, t: Selection)
    requires multiset(entries) == multiset(others)
    requires Owners(entries, root, s) && Owners(others, root, t)
    ensures s.Refused? <==> t.Refused?
    ensures s.Selected? ==>
              Identity(s.root) == Identity(t.root) && Identity(s.boot) == Identity(t.boot) &&
              s.bootWithinRoot == t.bootWithinRoot
  {
    SameElements(entries, others);
    var boot := JoinMountPath(root, "boot");
    assert forall e, p :: MountedAt(entries, p, e) <==> MountedAt(others, p, e);
    assert forall e, p :: Unambiguous(entries, p, e) <==> Unambiguous(others, p, e);
  }

  lemma SameElements(a: seq<Entry>, b: seq<Entry>)
    requires multiset(a) == multiset(b)
    ensures forall e :: e in a <==> e in b
  {
    forall e ensures e in a <==> e in b {
      assert e in a <==> e in multiset(a);
      assert e in b <==> e in multiset(b);
    }
  }
}
