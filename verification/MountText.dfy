/** The text of mountinfo records: words, decimal numbers and escaped paths. */
module MountText {
  import opened Wrappers

  // ---- escapes

  predicate NulFree(s: string) {
    forall i :: 0 <= i < |s| ==> s[i] != '\0'
  }

  predicate Octal(c: char) { '0' <= c <= '7' }

  function OctalValue(a: char, b: char, c: char): int {
    64 * (a as int - '0' as int) + 8 * (b as int - '0' as int) + (c as int - '0' as int)
  }

  /** The characters that are written as escapes: space, tab, newline and backslash. */
  predicate Escaped(c: char) { c in " \t\n\\" }

  function EscapeOne(c: char): string {
    match c
    case ' ' => "\\040"
    case '\t' => "\\011"
    case '\n' => "\\012"
    case '\\' => "\\134"
    case _ => [c]
  }

  function Escape(s: string): string {
    if s == [] then [] else EscapeOne(s[0]) + Escape(s[1..])
  }

  /** The four characters of one escape, decoded. */
  function DecodeEscape(f: string): Option<char> {
    if |f| < 4 || !Octal(f[1]) || !Octal(f[2]) || !Octal(f[3]) then None
    else
      var v := OctalValue(f[1], f[2], f[3]);
      if v in {32, 9, 10, 92} then Some(v as char) else None
  }

  function Decode(f: string): Option<string> {
    if f == [] then Some([])
    else if f[0] == '\\' then
      match (DecodeEscape(f), if |f| < 4 then None else Decode(f[4..]))
      case (Some(c), Some(rest)) => Some([c] + rest)
      case _ => None
    else if f[0] == '\0' then None
    else match Decode(f[1..]) case None => None case Some(rest) => Some([f[0]] + rest)
  }

  /** Decoding what was escaped gives it back. */
  lemma {:induction false} DecodeEscaped(s: string)
    requires NulFree(s)
    ensures Decode(Escape(s)) == Some(s)
  {
    if s != [] {
      DecodeEscaped(s[1..]);
      var all := Escape(s);
      if Escaped(s[0]) {
        assert all[4..] == Escape(s[1..]);
        assert DecodeEscape(all) == Some(s[0]);
      } else {
        assert all[1..] == Escape(s[1..]);
      }
      assert [s[0]] + s[1..] == s;
    }
  }

  predicate NoRawSpace(f: string) {
    forall i :: 0 <= i < |f| ==> f[i] != ' ' && f[i] != '\t' && f[i] != '\n'
  }

  /** Escaping what a whitespace-free field decodes to gives the field back. */
  lemma {:induction false} EscapeDecoded(f: string)
    requires NoRawSpace(f) && Decode(f).Some?
    ensures Escape(Decode(f).value) == f && NulFree(Decode(f).value)
  {
    if f != [] {
      var s := Decode(f).value;
      if f[0] == '\\' {
        EscapeDecoded(f[4..]);
        assert s[1..] == Decode(f[4..]).value;
        OneEscape(f[1], f[2], f[3]);
        assert f == f[..4] + f[4..];
      } else {
        EscapeDecoded(f[1..]);
        assert s[1..] == Decode(f[1..]).value;
        assert f == [f[0]] + f[1..];
      }
    }
  }

  lemma OneEscape(a: char, b: char, c: char)
    requires Octal(a) && Octal(b) && Octal(c)
    ensures OctalValue(a, b, c) == 32 ==> [a, b, c] == "040"
    ensures OctalValue(a, b, c) == 9 ==> [a, b, c] == "011"
    ensures OctalValue(a, b, c) == 10 ==> [a, b, c] == "012"
    ensures OctalValue(a, b, c) == 92 ==> [a, b, c] == "134"
  {
  }

  /** Escaping is a bijection from NUL-free texts to the whitespace-free fields that decode. */
  lemma EscapesAreExact(f: string)
    ensures NoRawSpace(f) && Decode(f).Some? <==> exists s: string :: NulFree(s) && Escape(s) == f
  {
    if NoRawSpace(f) && Decode(f).Some? { EscapeDecoded(f); }
    forall s: string | NulFree(s) && Escape(s) == f ensures NoRawSpace(f) && Decode(f).Some? {
      DecodeEscaped(s);
      EscapedHasNoSpace(s);
    }
  }

  lemma {:induction false} EscapedHasNoSpace(s: string)
    ensures NoRawSpace(Escape(s)) && forall c :: c in Escape(s) && !(c in s) ==> c in "\\01234"
    ensures s != [] ==> Escape(s) != []
  {
    if s != [] { EscapedHasNoSpace(s[1..]); }
  }

  function After(b: string, d: Option<string>): Option<string> {
    match d case None => None case Some(rest) => Some(b + rest)
  }

  lemma AfterOne(b: string, c: char, d: Option<string>)
    ensures After(b + [c], d) == After(b, After([c], d))
  {
    if d.Some? { assert b + [c] + d.value == b + ([c] + d.value); }
  }

  lemma AfterNothing(d: Option<string>)
    ensures After([], d) == d
  {
    if d.Some? { assert [] + d.value == d.value; }
  }

  method DecodePath(field: string) returns (r: Option<string>)
    ensures r == Decode(field)
  {
    if '\\' !in field {
      PlainDecodes(field);
      return if '\0' in field then None else Some(field);
    }
    var b: string := [];
    var i := 0;
    assert field[0..] == field;
    AfterNothing(Decode(field));
    while i < |field|
      invariant 0 <= i <= |field|
      invariant Decode(field) == After(b, Decode(field[i..]))
    {
      if field[i] != '\\' {
        if field[i] == '\0' { return None; }
        assert field[i..][1..] == field[i + 1..];
        AfterOne(b, field[i], Decode(field[i + 1..]));
        b := b + [field[i]];
        i := i + 1;
        continue;
      }
      assert field[i..][0] == '\\';
      if i + 4 > |field| { return None; }
      var v, j := 0, 1;
      while j <= 3
        invariant 1 <= j <= 4 && i + 4 <= |field|
        invariant forall k :: i + 1 <= k < i + j ==> Octal(field[k])
        invariant v == if j == 1 then 0 else if j == 2 then OctalValue('0', '0', field[i + 1]) else if j == 3
                  then OctalValue('0', field[i + 1], field[i + 2])
                  else OctalValue(field[i + 1], field[i + 2], field[i + 3])
      {
        var c := field[i + j];
        if c < '0' || c > '7' {
          assert field[i..][j] == c && !Octal(c);
          return None;
        }
        v := v * 8 + (c as int - '0' as int);
        j := j + 1;
      }
      if v != 32 && v != 9 && v != 10 && v != 92 { return None; }
      assert field[i..][4..] == field[i + 4..];
      AfterOne(b, v as char, Decode(field[i + 4..]));
      b := b + [v as char];
      i := i + 4;
    }
    assert field[i..] == [] && b + [] == b;
    r := Some(b);
  }

  lemma {:induction false} PlainDecodes(f: string)
    requires '\\' !in f
    ensures Decode(f) == if '\0' in f then None else Some(f)
  {
    if f != [] {
      PlainDecodes(f[1..]);
      assert f == [f[0]] + f[1..];
    }
  }

  // ---- words

  /** White space as it separates words. */
  predicate Space(c: char) {
    c in " \t\n\r" || c as int in {0x0b, 0x0c, 0x85, 0xa0, 0x1680, 0x2028, 0x2029, 0x202f, 0x205f, 0x3000} ||
    0x2000 <= c as int <= 0x200a
  }

  predicate Word(s: string) {
    s != [] && forall i :: 0 <= i < |s| ==> !Space(s[i])
  }

  function WordLength(s: string): (n: nat)
    ensures n <= |s|
    ensures forall i :: 0 <= i < n ==> !Space(s[i])
    ensures n < |s| ==> Space(s[n])
  {
    if s == [] || Space(s[0]) then 0 else 1 + WordLength(s[1..])
  }

  function Fields(s: string): seq<string> {
    if s == [] then []
    else if Space(s[0]) then Fields(s[1..])
    else [s[..WordLength(s)]] + Fields(s[WordLength(s)..])
  }

  function Joined(words: seq<string>): string {
    if words == [] then [] else if |words| == 1 then words[0] else words[0] + " " + Joined(words[1..])
  }

  lemma {:induction false} FieldsOfJoined(words: seq<string>)
    requires forall i :: 0 <= i < |words| ==> Word(words[i])
    ensures Fields(Joined(words)) == words
  {
    if words != [] {
      var line, n := Joined(words), |words[0]|;
      assert line[..n] == words[0];
      assert !Space(line[0]);
      if |words| == 1 {
        assert WordLength(line) == n;
      } else {
        FieldsOfJoined(words[1..]);
        assert line[n] == ' ' && WordLength(line) == n by { WordEnds(line, n); }
        assert line[n..][1..] == Joined(words[1..]);
      }
    }
  }

  lemma WordEnds(s: string, n: nat)
    requires n < |s| && Space(s[n]) && forall i :: 0 <= i < n ==> !Space(s[i])
    ensures WordLength(s) == n
  {
  }

  // ---- numbers

  const MAXIMUM_INTEGER := 0x7fff_ffff_ffff_ffff

  predicate Digit(c: char) { '0' <= c <= '9' }

  predicate Digits(s: string) {
    forall i :: 0 <= i < |s| ==> Digit(s[i])
  }

  function DigitValue(c: char): nat
    requires Digit(c)
  {
    c as int - '0' as int
  }

  function Value(digits: string): nat
    requires Digits(digits)
  {
    if digits == [] then 0 else 10 * Value(digits[..|digits| - 1]) + DigitValue(digits[|digits| - 1])
  }

  /** A decimal number with an optional sign that fits a machine integer. */
  function Atoi(s: string): Option<int> {
    var digits := if s != [] && s[0] in "+-" then s[1..] else s;
    if digits == [] || !Digits(digits) then None
    else
      var v: int := Value(digits);
      if s[0] == '-' then (if v <= MAXIMUM_INTEGER + 1 then Some(0 - v) else None)
      else if v <= MAXIMUM_INTEGER then Some(v) else None
  }

  function Decimal(n: nat): (s: string)
    ensures s != [] && Digits(s)
  {
    (if n < 10 then [] else Decimal(n / 10)) + [('0' as int + n % 10) as char]
  }

  lemma {:induction false} AtoiOfDecimal(n: nat)
    requires n <= MAXIMUM_INTEGER
    ensures Atoi(Decimal(n)) == Some(n)
  {
    ValueOfDecimal(n);
    assert Digit(Decimal(n)[0]);
  }

  lemma {:induction false} ValueOfDecimal(n: nat)
    ensures Value(Decimal(n)) == n
  {
    var s := Decimal(n);
    if n >= 10 {
      ValueOfDecimal(n / 10);
      assert s[..|s| - 1] == Decimal(n / 10);
    } else {
      assert s[..|s| - 1] == [];
    }
  }

  /** The two parts of a text with exactly one colon. */
  function SplitPair(s: string): Option<(string, string)> {
    if s == [] then None
    else if s[0] == ':' then (if ':' in s[1..] then None else Some(([], s[1..])))
    else match SplitPair(s[1..]) case None => None case Some((a, b)) => Some(([s[0]] + a, b))
  }

  lemma {:induction false} SplitJoined(a: string, b: string)
    requires ':' !in a && ':' !in b
    ensures SplitPair(a + ":" + b) == Some((a, b))
  {
    var s := a + ":" + b;
    if a == [] {
      assert s[1..] == b;
    } else {
      SplitJoined(a[1..], b);
      assert s[1..] == a[1..] + ":" + b;
      assert [a[0]] + a[1..] == a;
    }
  }
}
