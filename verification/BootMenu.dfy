/** Appending one managed entry to an existing boot menu. */
module BootMenu {

  const ENTRY_ID := "lexr-arch-installed"
  const LOADER_PATH := "EFI/LexrArch/grubaa64.efi"

  // ---- occurrences

  predicate At(s: string, p: string, i: int) {
    0 <= i && i + |p| <= |s| && s[i..i + |p|] == p
  }

  predicate Contains(s: string, p: string) {
    exists i :: 0 <= i <= |s| && At(s, p, i)
  }

  /** The number of occurrences that do not overlap, from the left. */
  function Count(s: string, p: string): nat
    requires p != []
    decreases |s|
  {
    if |s| < |p| then 0 else if s[..|p|] == p then 1 + Count(s[|p|..], p) else Count(s[1..], p)
  }

  ghost predicate Never(s: string, p: string) {
    forall i :: !At(s, p, i)
  }

  ghost predicate Once(s: string, p: string, i: int) {
    At(s, p, i) && forall j :: At(s, p, j) ==> j == i
  }

  lemma Shifted(s: string, p: string, k: nat)
    requires k <= |s|
    ensures forall i :: 0 <= i ==> (At(s[k..], p, i) <==> At(s, p, i + k))
  {
    forall i | 0 <= i ensures At(s[k..], p, i) <==> At(s, p, i + k) {
      if i + k + |p| <= |s| { assert s[k..][i..i + |p|] == s[i + k..i + k + |p|]; }
    }
  }

  lemma {:induction false} CountNever(s: string, p: string)
    requires p != [] && Never(s, p)
    ensures Count(s, p) == 0
    decreases |s|
  {
    if |s| >= |p| {
      assert !At(s, p, 0);
      Shifted(s, p, 1);
      CountNever(s[1..], p);
    }
  }

  lemma {:induction false} CountOnce(s: string, p: string, i: int)
    requires p != [] && Once(s, p, i)
    ensures Count(s, p) == 1
    decreases |s|
  {
    if i == 0 {
      Shifted(s, p, |p|);
      assert Never(s[|p|..], p) by {
        forall j | 0 <= j ensures !At(s[|p|..], p, j) {
          assert j + |p| != 0;
          assert At(s[|p|..], p, j) <==> At(s, p, j + |p|);
        }
      }
      CountNever(s[|p|..], p);
    } else {
      assert !At(s, p, 0);
      Shifted(s, p, 1);
      assert At(s, p, i - 1 + 1);
      CountOnce(s[1..], p, i - 1);
    }
  }

  // ---- the entry

  const BEFORE := ["menuentry 'Arch Linux ", "ARM (Surface Pro 11)' --id '"]
  const MIDDLE := ["' {\n    insmod part_gpt\n", "    insmod fat\n    insmod chain\n",
                   "    search --no-floppy --fs-uuid", " --set=lexr_arch_esp "]
  const AFTER := ["\n    chainloader ($lexr_arch_esp)/", "EFI/LexrArch/grubaa64.efi", "\n}\n"]

  function Text(pieces: seq<string>): string {
    if pieces == [] then [] else pieces[0] + Text(pieces[1..])
  }

  function RenderEntry(espUUID: string): string {
    Text(BEFORE) + ENTRY_ID + (Text(MIDDLE) + espUUID + Text(AFTER))
  }

  lemma Inside(before: string, p: string, after: string)
    ensures Contains(before + p + after, p)
  {
    assert At(before + p + after, p, |before|);
  }

  lemma TextOfThree(a: string, b: string, c: string)
    ensures Text([a, b, c]) == a + b + c
  {
    assert [a, b, c][1..] == [b, c] && [b, c][1..] == [c] && [c][1..] == [];
    assert Text([c]) == c + [] == c && Text([b, c]) == b + c;
    assert a + (b + c) == a + b + c;
  }

  lemma TextOfFour(a: string, b: string, c: string, d: string)
    ensures Text([a, b, c, d]) == a + b + c + d
  {
    TextOfThree(b, c, d);
    assert [a, b, c, d][1..] == [b, c, d];
    assert a + (b + c + d) == a + b + c + d;
  }

  /** The entry searches for the given volume, and starts the loader that lies on it. */
  lemma EntryLoads(espUUID: string)
    ensures Contains(RenderEntry(espUUID), "search --no-floppy --fs-uuid" + " --set=lexr_arch_esp " + espUUID + "\n")
    ensures Contains(RenderEntry(espUUID), "chainloader ($lexr_arch_esp)/" + LOADER_PATH + "\n")
  {
    hide Text, Contains, RenderEntry;
    SearchLine();
    LoaderLine();
    LastLine();
    EntryHolds(espUUID, MIDDLE[0], MIDDLE[1], "    ", "search --no-floppy --fs-uuid", " --set=lexr_arch_esp ", "\n",
               "chainloader ($lexr_arch_esp)/", LOADER_PATH, "}\n");
  }

  lemma SearchLine()
    ensures |MIDDLE| == 4 && MIDDLE[2] == "    " + "search --no-floppy --fs-uuid"
    ensures MIDDLE[3] == " --set=lexr_arch_esp "
  {
  }

  lemma LoaderLine()
    ensures |AFTER| == 3 && AFTER[0] == "\n" + ("    " + "chainloader ($lexr_arch_esp)/")
  {
  }

  lemma LastLine()
    ensures AFTER[1] == LOADER_PATH && AFTER[2] == "\n" + "}\n"
  {
  }

  lemma EntryHolds(u: string, m: string, n: string, i: string, s: string, t: string, e: string, c: string, p: string,
          z: string)
    requires |MIDDLE| == 4 && MIDDLE[0] == m && MIDDLE[1] == n && MIDDLE[2] == i + s && MIDDLE[3] == t
    requires |AFTER| == 3 && AFTER[0] == e + (i + c) && AFTER[1] == p && AFTER[2] == e + z
    ensures Contains(RenderEntry(u), s + t + u + e) && Contains(RenderEntry(u), c + p + e)
  {
    hide Text, Contains;
    assert MIDDLE == [m, n, i + s, t];
    assert AFTER == [e + (i + c), p, e + z];
    TextOfFour(m, n, i + s, t);
    TextOfThree(e + (i + c), p, e + z);
    var h := Text(BEFORE) + ENTRY_ID;
    Arranged(h, m, n, i, s, t, u, e, c, p, z);
    var start, line, last := h + m + n + i, s + t + u + e, c + p + e;
    assert RenderEntry(u) == (start + line + i) + last + z by {
      assert start + line + (i + last + z) == (start + line + i) + last + z;
    }
    Inside(start, line, i + last + z);
    Inside(start + line + i, last, z);
  }

  lemma Arranged(h: string, m: string, n: string, i: string, s: string, t: string, u: string, e: string, c: string,
          p: string, z: string)
    ensures h + ((m + n + (i + s) + t) + u + ((e + (i + c)) + p + (e + z))) ==
            (h + m + n + i) + (s + t + u + e) + (i + (c + p + e) + z)
  {
  }

  /** The letters that only the identifier has. */
  predicate Key(s: string, i: int) {
    0 <= i && i + 3 <= |s| && s[i] == 'x' && s[i + 1] == 'r' && s[i + 2] == '-'
  }

  ghost predicate Keyless(s: string) {
    forall i :: !Key(s, i)
  }

  /** A piece that neither has the letters nor ends within them. */
  ghost predicate Sealed(s: string) {
    Keyless(s) && (s != [] ==> s[|s| - 1] != 'x') && (|s| >= 2 ==> !(s[|s| - 2] == 'x' && s[|s| - 1] == 'r'))
  }

  lemma SealedTogether(a: string, b: string)
    requires Sealed(a) && Sealed(b)
    ensures Sealed(a + b)
  {
    forall i ensures !Key(a + b, i) {
      assert !Key(a, i) && !Key(b, i - |a|);
    }
  }

  lemma {:induction false} SealedText(pieces: seq<string>)
    requires forall i :: 0 <= i < |pieces| ==> Sealed(pieces[i])
    ensures Sealed(Text(pieces))
  {
    if pieces != [] {
      SealedText(pieces[1..]);
      SealedTogether(pieces[0], Text(pieces[1..]));
    }
  }

  /** A FAT volume identifier in capitals. */
  predicate VolumeID(s: string) {
    |s| == 9 && forall i :: 0 <= i < 9 ==> if i == 4 then s[i] == '-' else '0' <= s[i] <= '9' || 'A' <= s[i] <= 'F'
  }

  lemma BeforeIsSealed()
    ensures Sealed(Text(BEFORE))
  {
    assert Sealed(BEFORE[0]);
    assert Sealed(BEFORE[1]);
    SealedText(BEFORE);
  }

  lemma MiddleIsSealed()
    ensures Sealed(Text(MIDDLE))
  {
    FirstOfMiddle();
    SecondOfMiddle();
    ThirdOfMiddle();
    SealedText(MIDDLE);
  }

  lemma FirstOfMiddle()
    ensures Sealed(MIDDLE[0])
  {
  }

  lemma SecondOfMiddle()
    ensures Sealed(MIDDLE[1])
  {
  }

  lemma ThirdOfMiddle()
    ensures Sealed(MIDDLE[2]) && Sealed(MIDDLE[3])
  {
  }

  lemma AfterIsSealed()
    ensures Sealed(Text(AFTER))
  {
    FirstOfAfter();
    assert Sealed(AFTER[1]);
    assert Sealed(AFTER[2]);
    SealedText(AFTER);
  }

  lemma FirstOfAfter()
    ensures Sealed(AFTER[0])
  {
  }

  lemma IdentifierHasKey()
    ensures |ENTRY_ID| == 19 && (forall i :: Key(ENTRY_ID, i) <==> i == 2)
    ensures forall i :: 0 <= i < |ENTRY_ID| ==> ENTRY_ID[i] != '\n'
  {
  }

  /** The identifier occurs once in a rendered entry. */
  lemma EntryNamesItselfOnce(espUUID: string)
    requires VolumeID(espUUID)
    ensures Once(RenderEntry(espUUID), ENTRY_ID, |Text(BEFORE)|)
  {
    hide Text, Sealed, At;
    BeforeIsSealed();
    MiddleIsSealed();
    AfterIsSealed();
    VolumeIsSealed(espUUID);
    SealedTogether(Text(MIDDLE), espUUID);
    SealedTogether(Text(MIDDLE) + espUUID, Text(AFTER));
    NamedOnce(Text(BEFORE), Text(MIDDLE) + espUUID + Text(AFTER));
  }

  lemma VolumeIsSealed(espUUID: string)
    requires VolumeID(espUUID)
    ensures Sealed(espUUID)
  {
    forall i ensures !Key(espUUID, i) {
      if 0 <= i < 9 { assert espUUID[i] != 'x'; }
    }
  }

  lemma NamedOnce(a: string, b: string)
    requires Sealed(a) && Sealed(b)
    ensures Once(a + ENTRY_ID + b, ENTRY_ID, |a|)
  {
    IdentifierHasKey();
    var id, entry := ENTRY_ID, a + ENTRY_ID + b;
    assert entry[|a|..|a| + |id|] == id;
    forall i | At(entry, id, i) ensures i == |a| {
      KeyOfOccurrence(entry, i);
      OneKey(a, id, b, i + 2);
    }
  }

  lemma KeyOfOccurrence(s: string, i: int)
    requires At(s, ENTRY_ID, i)
    ensures Key(s, i + 2)
  {
    IdentifierHasKey();
    assert Key(ENTRY_ID, 2);
    assert s[i..i + 19][2] == s[i + 2] && s[i..i + 19][3] == s[i + 3] && s[i..i + 19][4] == s[i + 4];
  }

  lemma OneKey(a: string, id: string, b: string, i: int)
    requires Sealed(a) && Sealed(b) && |id| == 19 && (forall k :: Key(id, k) <==> k == 2) && id[18] != 'x'
    requires id[18] != 'r'
    requires Key(a + id + b, i)
    ensures i == |a| + 2
  {
    assert !Key(a, i) && !Key(b, i - |a| - 19) && (Key(id, i - |a|) ==> i == |a| + 2);
  }

  // ---- the decision

  datatype Decision = Refused | AlreadyPresent | Append(next: string)

  const NEWLINE := "\n"

  function Separator(menu: string): string {
    if menu != [] && menu[|menu| - 1] != '\n' then NEWLINE else []
  }

  /** Whether the menu gains the entry, and what it becomes. */
  function Decide(main: string, menu: string, espUUID: string): Decision {
    var entry := RenderEntry(espUUID);
    if Contains(main, ENTRY_ID) then Refused
    else if Count(menu, entry) == 1 && Count(menu, ENTRY_ID) == 1 then AlreadyPresent
    else if Contains(menu, ENTRY_ID) || Contains(menu, LOADER_PATH) then Refused
    else Append(menu + Separator(menu) + NEWLINE + entry)
  }

  /** Behind a last newline, the identifier occurs where the entry has it and nowhere else:
      no occurrence straddles the join. */
  lemma NothingStraddles(menu: string, gap: string, entry: string, at: int)
    requires Never(menu, ENTRY_ID) && Once(entry, ENTRY_ID, at)
    requires gap == NEWLINE || gap == NEWLINE + NEWLINE
    ensures Once(menu + gap + entry, ENTRY_ID, |menu| + |gap| + at)
  {
    IdentifierHasKey();
    var next, k := menu + gap + entry, |menu| + |gap|;
    assert next[k..] == entry;
    Shifted(next, ENTRY_ID, k);
    assert At(entry, ENTRY_ID, at) && at >= 0;
    forall i | 0 <= i <= |menu| - 19 ensures !At(next, ENTRY_ID, i) {
      assert next[i..i + 19] == menu[i..i + 19] && !At(menu, ENTRY_ID, i);
    }
    forall i | |menu| - 19 < i < k && i >= 0 ensures !At(next, ENTRY_ID, i) {
      NewlineBreaks(next, i, if i <= |menu| then |menu| else k - 1);
    }
    forall i | k <= i ensures At(next, ENTRY_ID, i) <==> i == k + at {
      assert At(next[k..], ENTRY_ID, i - k) <==> At(next, ENTRY_ID, i - k + k);
    }
  }

  lemma NewlineBreaks(s: string, i: int, j: int)
    requires 0 <= i <= j < i + 19 && j < |s| && s[j] == '\n'
    ensures !At(s, ENTRY_ID, i)
  {
    IdentifierHasKey();
    if i + 19 <= |s| { assert s[i..i + 19][j - i] != ENTRY_ID[j - i]; }
  }

  /** An entry occurs only where its identifier does. */
  lemma EntryOnce(next: string, espUUID: string, at: int)
    requires VolumeID(espUUID) && Once(next, ENTRY_ID, at)
    requires At(next, RenderEntry(espUUID), at - |Text(BEFORE)|)
    ensures Once(next, RenderEntry(espUUID), at - |Text(BEFORE)|)
  {
    forall i | At(next, RenderEntry(espUUID), i) ensures i == at - |Text(BEFORE)| {
      IdentifierWithin(next, espUUID, i);
    }
  }

  lemma SliceOfSlice(s: string, i: int, n: nat, k: nat, m: nat)
    requires 0 <= i && i + n <= |s| && k + m <= n
    ensures s[i..i + n][k..k + m] == s[i + k..i + k + m]
  {
    var a, b := s[i..i + n][k..k + m], s[i + k..i + k + m];
    assert |a| == |b| && forall j :: 0 <= j < m ==> a[j] == b[j];
  }

  lemma IdentifierWithin(next: string, espUUID: string, i: int)
    requires VolumeID(espUUID) && At(next, RenderEntry(espUUID), i)
    ensures At(next, ENTRY_ID, i + |Text(BEFORE)|)
  {
    EntryNamesItselfOnce(espUUID);
    var entry, k := RenderEntry(espUUID), |Text(BEFORE)|;
    SliceOfSlice(next, i, |entry|, k, |ENTRY_ID|);
  }

  /** Where the entry begins in the new menu. */
  function EntryStart(menu: string): int { |menu| + |Separator(menu)| + 1 }

  /** Registering keeps the old menu as a prefix, adds the entry and its identifier exactly
      once, and deciding again finds it there. */
  lemma AppendedOnce(main: string, menu: string, espUUID: string)
    requires VolumeID(espUUID) && Decide(main, menu, espUUID).Append?
    ensures var next := Decide(main, menu, espUUID).next;
      && menu <= next && Once(next, RenderEntry(espUUID), EntryStart(menu))
      && Once(next, ENTRY_ID, EntryStart(menu) + |Text(BEFORE)|)
      && Decide(main, next, espUUID) == AlreadyPresent
  {
    hide RenderEntry, Count, At, Text;
    var entry, next := RenderEntry(espUUID), Decide(main, menu, espUUID).next;
    NeverContained(menu, ENTRY_ID);
    NextHoldsBoth(menu, espUUID);
    EntryHasText(espUUID);
    CountOnce(next, ENTRY_ID, EntryStart(menu) + |Text(BEFORE)|);
    CountOnce(next, entry, EntryStart(menu));
  }

  lemma NextHoldsBoth(menu: string, espUUID: string)
    requires VolumeID(espUUID) && Never(menu, ENTRY_ID)
    ensures var next := menu + Separator(menu) + NEWLINE + RenderEntry(espUUID);
      Once(next, RenderEntry(espUUID), EntryStart(menu)) && Once(next, ENTRY_ID, EntryStart(menu) + |Text(BEFORE)|)
  {
    hide RenderEntry, Text;
    var entry, gap := RenderEntry(espUUID), Separator(menu) + NEWLINE;
    var next, at := menu + gap + entry, |menu| + |gap|;
    assert next == menu + Separator(menu) + NEWLINE + entry;
    EntryNamesItselfOnce(espUUID);
    NothingStraddles(menu, gap, entry, |Text(BEFORE)|);
    assert next[at..at + |entry|] == entry;
    EntryOnce(next, espUUID, at + |Text(BEFORE)|);
  }

  lemma EntryHasText(espUUID: string)
    ensures RenderEntry(espUUID) != [] && ENTRY_ID != []
  {
  }

  /** Afterwards an entry for any other volume is refused. */
  lemma OtherVolumeIsRefused(main: string, menu: string, espUUID: string, other: string)
    requires VolumeID(espUUID) && VolumeID(other) && other != espUUID && Decide(main, menu, espUUID).Append?
    ensures Decide(main, Decide(main, menu, espUUID).next, other) == Refused
  {
    hide Count, Text;
    AppendedOnce(main, menu, espUUID);
    EntryHasText(other);
    var next := Decide(main, menu, espUUID).next;
    var at := EntryStart(menu) + |Text(BEFORE)|;
    DifferentEntries(espUUID, other);
    forall i ensures !At(next, RenderEntry(other), i) {
      if At(next, RenderEntry(other), i) {
        IdentifierWithin(next, other, i);
        assert false;
      }
    }
    CountNever(next, RenderEntry(other));
    Occurs(next, ENTRY_ID, at);
  }

  lemma Occurs(s: string, p: string, i: int)
    requires At(s, p, i)
    ensures Contains(s, p)
  {
  }

  lemma DifferentEntries(a: string, b: string)
    requires VolumeID(a) && VolumeID(b) && a != b
    ensures |RenderEntry(a)| == |RenderEntry(b)| && RenderEntry(a) != RenderEntry(b)
  {
    hide Text;
    var k := |Text(BEFORE)| + |ENTRY_ID| + |Text(MIDDLE)|;
    assert RenderEntry(a)[k..k + 9] == a && RenderEntry(b)[k..k + 9] == b;
  }

  /** The entry is added exactly where neither menu names it and nothing else loads its
      image; then nothing counts as present. */
  lemma AppendsWhenAbsent(main: string, menu: string, espUUID: string)
    requires VolumeID(espUUID)
    ensures Decide(main, menu, espUUID).Append? <==>
              Never(main, ENTRY_ID) && Never(menu, ENTRY_ID) && Never(menu, LOADER_PATH)
    ensures Never(main, ENTRY_ID) <==> !Contains(main, ENTRY_ID)
  {
    hide RenderEntry, Count, Text;
    EntryHasText(espUUID);
    NeverContained(main, ENTRY_ID);
    NeverContained(menu, ENTRY_ID);
    NeverContained(menu, LOADER_PATH);
    if Never(menu, ENTRY_ID) { CountNever(menu, ENTRY_ID); }
  }

  lemma NeverContained(s: string, p: string)
    ensures Never(s, p) <==> !Contains(s, p)
  {
  }

  /** Decides whether the menu gains the entry, and what it becomes. */
  method Register(main: string, menu: string, espUUID: string) returns (decision: Decision)
    requires VolumeID(espUUID)
    ensures decision == Decide(main, menu, espUUID)
    ensures decision.Append? <==> Never(main, ENTRY_ID) && Never(menu, ENTRY_ID) && Never(menu, LOADER_PATH)
    ensures decision.Append? ==>
              menu <= decision.next && Once(decision.next, ENTRY_ID, EntryStart(menu) + |Text(BEFORE)|)
    ensures decision.Append? ==> Once(decision.next, RenderEntry(espUUID), EntryStart(menu))
    ensures decision.Append? ==> Decide(main, decision.next, espUUID) == AlreadyPresent
    ensures decision.AlreadyPresent? <==>
              Never(main, ENTRY_ID) && Count(menu, RenderEntry(espUUID)) == 1 && Count(menu, ENTRY_ID) == 1
  {
    hide RenderEntry, Count, Once, Text, At, EntryStart;
    EntryHasText(espUUID);
    AppendsWhenAbsent(main, menu, espUUID);
    if Decide(main, menu, espUUID).Append? { AppendedOnce(main, menu, espUUID); }
    var entry := RenderEntry(espUUID);
    if Contains(main, ENTRY_ID) { return Refused; }
    var present := false;
    if Count(menu, entry) == 1 && Count(menu, ENTRY_ID) == 1 {
      present := true;
    } else if Contains(menu, ENTRY_ID) || Contains(menu, LOADER_PATH) {
      return Refused;
    }
    var next := menu;
    if !present {
      if |next| > 0 && next[|next| - 1] != '\n' {
        next := next + NEWLINE;
      }
      next := next + (NEWLINE + entry);
      assert next == menu + Separator(menu) + NEWLINE + entry;
    }
    decision := if present then AlreadyPresent else Append(next);
  }
}
