/** Canonical kernel identities and their ranks. */
module KernelRank {
  import opened Wrappers

  /** The patch line comes first, and the local generation counts within it. */
  datatype Rank = Rank(major: nat, minor: nat, patch: nat, generation: nat)

  const MAXIMUM_NAME := 128
  const MAXIMUM_NUMBER := 0xffff_ffff
  const MAXIMUM_GENERATION := 999
  const MARKER := "sp11v"

  predicate Digit(c: char) { '0' <= c <= '9' }

  predicate NameChar(c: char) { Digit(c) || 'a' <= c <= 'z' || 'A' <= c <= 'Z' || c in ".+~_" }

  function LowerCase(c: char): char {
    if 'A' <= c <= 'Z' then (c as int + 32) as char else c
  }

  predicate EndsWith(s: string, suffix: string) {
    |suffix| <= |s| && s[|s| - |suffix|..] == suffix
  }

  function Without(s: string, suffix: string): string {
    if EndsWith(s, suffix) then s[..|s| - |suffix|] else s
  }

  /** The platform flavour is peeled, the longer one first. */
  function Peeled(abi: string): string {
    if EndsWith(abi, "-qcom-x1e") then Without(abi, "-qcom-x1e") else Without(abi, "-qcom")
  }

  function Segments(s: string): (r: seq<string>)
    ensures r != []
  {
    if s == [] then [[]]
    else
      var rest := Segments(s[1..]);
      if s[0] == '-' then [[]] + rest else [[s[0]] + rest[0]] + rest[1..]
  }

  function DigitsLength(s: string): (n: nat)
    ensures n <= |s| && forall i :: 0 <= i < n ==> Digit(s[i])
  {
    if s == [] || !Digit(s[0]) then 0 else 1 + DigitsLength(s[1..])
  }

  function DigitValue(c: char): nat
    requires Digit(c)
  {
    c as int - '0' as int
  }

  function Value(s: string): nat
    requires forall i :: 0 <= i < |s| ==> Digit(s[i])
  {
    if s == [] then 0
    else 10 * Value(s[..|s| - 1]) + DigitValue(s[|s| - 1])
  }

  /** A decimal number without superfluous zeros, within a bound, before the rest of a text. */
  function Number(s: string, bound: nat): Option<nat> {
    var n := DigitsLength(s);
    if n == 0 || (n > 1 && s[0] == '0') || Value(s[..n]) > bound then None else Some(Value(s[..n]))
  }

  function AfterNumber(s: string): string { s[DigitsLength(s)..] }

  predicate Suffix(s: string) {
    forall i ::
      0 <= i < |Segments(s)| ==>
        Segments(s)[i] != [] && forall j :: 0 <= j < |Segments(s)[i]| ==> NameChar(Segments(s)[i][j])
  }

  /** How often the marker occurs in any case. */
  function Markers(s: string): nat {
    if |s| < |MARKER| then 0
    else if forall i :: 0 <= i < |MARKER| ==> LowerCase(s[i]) == MARKER[i] then 1 + Markers(s[|MARKER|..])
    else Markers(s[1..])
  }

  /** What follows a marker that only digits follow. */
  function MarkedNumber(s: string): Option<string>
    decreases |s|
  {
    if |s| <= |MARKER| then None
    else if s[..|MARKER|] == MARKER && DigitsLength(s[|MARKER|..]) == |s| - |MARKER| then Some(s[|MARKER|..])
    else MarkedNumber(s[1..])
  }

  /** The generation that a version suffix states; zero where it states none. */
  function Generation(suffix: string): Option<nat> {
    match MarkedNumber(suffix)
    case None => if Markers(suffix) == 0 then Some(0) else None
    case Some(digits) =>
      if Markers(suffix) != 1 then None
      else match Number(digits, MAXIMUM_GENERATION) case None => None case Some(n) => if n == 0 then None else Some(n)
  }

  function ParseKernelRank(abi: string): Option<Rank> {
    var core := Peeled(abi);
    var minor := AfterNumber(core);
    if !(0 < |abi| <= MAXIMUM_NAME) || "qcom" in Segments(core) || "x1e" in Segments(core) then None
    else if minor == [] || minor[0] != '.' then None
    else
      var patch := AfterNumber(minor[1..]);
      if patch == [] || patch[0] != '.' then None
      else
        var rest := AfterNumber(patch[1..]);
        if rest != [] && (rest[0] != '-' || !Suffix(rest[1..])) then None
        else
          match (Number(core, MAXIMUM_NUMBER), Number(minor[1..], MAXIMUM_NUMBER), Number(patch[1..], MAXIMUM_NUMBER),
                 Generation(if rest == [] then [] else rest[1..]))
          case (Some(a), Some(b), Some(c), Some(g)) => Some(Rank(a, b, c, g))
          case _ => None
  }

  // ---- what an identity says

  predicate AllDigits(s: string) {
    forall i :: 0 <= i < |s| ==> Digit(s[i])
  }

  /** A decimal number within a bound, without superfluous zeros. */
  predicate Numeral(s: string, bound: nat) {
    s != [] && AllDigits(s) && (|s| > 1 ==> s[0] != '0') && Value(s) <= bound
  }

  lemma {:induction false} DigitsStop(a: string, tail: string)
    requires AllDigits(a) && (tail != [] ==> !Digit(tail[0]))
    ensures DigitsLength(a + tail) == |a|
  {
    if a == [] {
      assert a + tail == tail;
    } else {
      assert (a + tail)[1..] == a[1..] + tail;
      DigitsStop(a[1..], tail);
    }
  }

  lemma NumberRead(a: string, tail: string, bound: nat)
    requires Numeral(a, bound) && (tail != [] ==> !Digit(tail[0]))
    ensures Number(a + tail, bound) == Some(Value(a)) && AfterNumber(a + tail) == tail
  {
    DigitsStop(a, tail);
    assert (a + tail)[..|a|] == a;
  }

  lemma {:induction false} OneSegment(s: string)
    requires '-' !in s
    ensures Segments(s) == [s]
  {
    if s != [] {
      assert s[0] in s && [s[0]] + s[1..] == s;
      OneSegment(s[1..]);
    }
  }

  lemma {:induction false} FirstSegment(s: string, t: string)
    requires '-' !in s
    ensures Segments(s + "-" + t) == [s] + Segments(t)
  {
    var all := s + "-" + t;
    if s == [] {
      assert all[1..] == t;
    } else {
      assert all[1..] == s[1..] + "-" + t && s[0] in s && [s[0]] + s[1..] == s;
      FirstSegment(s[1..], t);
    }
  }

  predicate Flavour(s: string) { s == "" || s == "-qcom" || s == "-qcom-x1e" }

  /** Behind a digit every flavour is peeled. */
  lemma PeeledCore(core: string, flavour: string)
    requires core != [] && Digit(core[|core| - 1]) && Flavour(flavour)
    ensures Peeled(core + flavour) == core
  {
    var abi := core + flavour;
    assert abi[|abi| - 1] == if flavour == "" then core[|core| - 1] else flavour[|flavour| - 1];
    assert "-qcom"[4] == 'm' && "-qcom-x1e"[8] == 'e';
    assert abi[..|core|] == core && abi[|core|..] == flavour;
  }

  /** The numbers before the suffix, in order. */
  lemma NumbersRead(a: string, b: string, c: string, rest: string)
    requires Numeral(a, MAXIMUM_NUMBER) && Numeral(b, MAXIMUM_NUMBER) && Numeral(c, MAXIMUM_NUMBER)
    requires rest != [] ==> !Digit(rest[0])
    ensures var core := a + "." + b + "." + c + rest; var minor := AfterNumber(core);
            && Number(core, MAXIMUM_NUMBER) == Some(Value(a)) && minor != [] && minor[0] == '.'
            && Number(minor[1..], MAXIMUM_NUMBER) == Some(Value(b))
            && var patch := AfterNumber(minor[1..]);
               patch != [] && patch[0] == '.' && Number(patch[1..], MAXIMUM_NUMBER) == Some(Value(c)) &&
               AfterNumber(patch[1..]) == rest
  {
    hide Number, AfterNumber, Numeral;
    var third := "." + (c + rest);
    var second := "." + (b + third);
    assert a + "." + b + "." + c + rest == a + second;
    assert second[1..] == b + third && third[1..] == c + rest;
    NumberRead(a, second, MAXIMUM_NUMBER);
    NumberRead(b, third, MAXIMUM_NUMBER);
    NumberRead(c, rest, MAXIMUM_NUMBER);
  }

  lemma {:induction false} NoMarker(digits: string)
    requires AllDigits(digits)
    ensures Markers(digits) == 0
  {
    if |digits| >= |MARKER| {
      assert LowerCase(digits[0]) != MARKER[0];
      NoMarker(digits[1..]);
    }
  }

  lemma GenerationRead(digits: string)
    requires Numeral(digits, MAXIMUM_GENERATION) && Value(digits) > 0
    ensures Generation(MARKER + digits) == Some(Value(digits)) && Suffix(MARKER + digits) && '-' !in MARKER + digits
  {
    var s := MARKER + digits;
    assert s[..|MARKER|] == MARKER && s[|MARKER|..] == digits && digits + [] == digits;
    DigitsStop(digits, []);
    NumberRead(digits, [], MAXIMUM_GENERATION);
    NoMarker(digits);
    assert forall i :: 0 <= i < |MARKER| ==> LowerCase(s[i]) == MARKER[i];
    OneSegment(s);
  }

  lemma WholeNumber(core: string)
    requires core != [] && Digit(core[0])
    ensures core != "qcom" && core != "x1e"
  {
  }

  /** The rank of an identity by its parts. */
  lemma RankRead(a: string, b: string, c: string, rest: string, generation: nat, flavour: string)
    requires Numeral(a, MAXIMUM_NUMBER) && Numeral(b, MAXIMUM_NUMBER) && Numeral(c, MAXIMUM_NUMBER) && Flavour(flavour)
    requires rest != [] ==> rest[0] == '-' && Suffix(rest[1..]) && Digit(rest[|rest| - 1])
    requires Generation(if rest == [] then [] else rest[1..]) == Some(generation)
    requires var core := a + "." + b + "." + c + rest;
             "qcom" !in Segments(core) && "x1e" !in Segments(core) && |core + flavour| <= MAXIMUM_NAME
    ensures ParseKernelRank(a + "." + b + "." + c + rest + flavour) ==
            Some(Rank(Value(a), Value(b), Value(c), generation))
  {
    hide Segments, Number, AfterNumber, Peeled, Flavour, Generation, Value, Suffix;
    var core := a + "." + b + "." + c + rest;
    NumbersRead(a, b, c, rest);
    assert core[|core| - 1] == if rest == [] then c[|c| - 1] else rest[|rest| - 1];
    PeeledCore(core, flavour);
  }

  /** An identity with three numbers has them as its rank, whatever its flavour. */
  lemma PlainRank(a: string, b: string, c: string, flavour: string)
    requires Numeral(a, MAXIMUM_NUMBER) && Numeral(b, MAXIMUM_NUMBER) && Numeral(c, MAXIMUM_NUMBER) && Flavour(flavour)
    requires |a + "." + b + "." + c + flavour| <= MAXIMUM_NAME
    ensures ParseKernelRank(a + "." + b + "." + c + flavour) == Some(Rank(Value(a), Value(b), Value(c), 0))
  {
    hide Segments, Flavour, Value, ParseKernelRank;
    var core := a + "." + b + "." + c;
    assert core + [] == core && core[0] == a[0];
    OneSegment(core);
    WholeNumber(core);
    RankRead(a, b, c, [], 0, flavour);
  }

  /** A generation behind the marker is the fourth number. */
  lemma SurfaceRank(a: string, b: string, c: string, digits: string, flavour: string)
    requires Numeral(a, MAXIMUM_NUMBER) && Numeral(b, MAXIMUM_NUMBER) && Numeral(c, MAXIMUM_NUMBER) && Flavour(flavour)
    requires Numeral(digits, MAXIMUM_GENERATION) && Value(digits) > 0
    requires |a + "." + b + "." + c + ("-" + (MARKER + digits)) + flavour| <= MAXIMUM_NAME
    ensures ParseKernelRank(a + "." + b + "." + c + ("-" + (MARKER + digits)) + flavour) ==
            Some(Rank(Value(a), Value(b), Value(c), Value(digits)))
  {
    hide Segments, Flavour, Generation, Value, ParseKernelRank, Suffix;
    var numbers, marked := a + "." + b + "." + c, MARKER + digits;
    assert numbers + "-" + marked == numbers + ("-" + marked) && numbers[0] == a[0];
    assert ("-" + marked)[1..] == marked && marked[|marked| - 1] == digits[|digits| - 1];
    GenerationRead(digits);
    FirstSegment(numbers, marked);
    OneSegment(marked);
    WholeNumber(numbers);
    assert marked[0] == 's' && "qcom"[0] == 'q' && "x1e"[0] == 'x';
    RankRead(a, b, c, "-" + marked, Value(digits), flavour);
  }

  /** Lexicographic order. */
  predicate Greater(a: Rank, b: Rank) {
    || a.major > b.major
    || (a.major == b.major &&
        (a.minor > b.minor ||
         (a.minor == b.minor && (a.patch > b.patch || (a.patch == b.patch && a.generation > b.generation)))))
  }

  method GreaterThan(rank: Rank, other: Rank) returns (r: bool)
    ensures r <==> Greater(rank, other)
  {
    var left, right := [rank.major, rank.minor, rank.patch, rank.generation], [other.major, other.minor, other.patch,
                                                                               other.generation];
    for i := 0 to 4
      invariant forall j :: 0 <= j < i ==> left[j] == right[j]
    {
      assert (i > 0 ==> left[0] == right[0]) && (i > 1 ==> left[1] == right[1]) && (i > 2 ==> left[2] == right[2]);
      if left[i] != right[i] {
        return left[i] > right[i];
      }
    }
    assert left[0] == right[0] && left[1] == right[1] && left[2] == right[2] && left[3] == right[3];
    r := false;
  }
}
