/** Kernel package filenames: what parsing reads from a name is what was printed there. */
module PackageNames {
  import opened Wrappers
  import opened KernelInventory

  datatype Role = Unstated | ImageRole | ModulesRole | HeadersRole | CommonHeadersRole | BootSupportRole
    | OtherRole(text: string)

  predicate KernelRole(r: Role) { r.ImageRole? || r.ModulesRole? || r.HeadersRole? }

  datatype Parsed = Parsed(role: Role, abi: string, version: string)

  function WithoutSlashes(s: string): string {
    if s != [] && s[|s| - 1] == '/' then WithoutSlashes(s[..|s| - 1]) else s
  }

  function AfterLast(s: string, c: char): string {
    if s == [] || s[|s| - 1] == c then [] else AfterLast(s[..|s| - 1], c) + [s[|s| - 1]]
  }

  function Base(name: string): string { AfterLast(WithoutSlashes(name), '/') }

  function Between(s: string, prefix: string, suffix: string): Option<string> {
    if |prefix| + |suffix| <= |s| && prefix <= s && EndsWith(s, suffix) then Some(s[|prefix|..|s| - |suffix|]) else None
  }

  /** An ABI and a version around the last underscore. */
  function Versioned(role: Role, s: string): Option<Parsed> {
    var version := AfterLast(s, '_');
    if |version| + 1 >= |s| || s[|s| - |version| - 1] != '_' || version == [] ||
    '\n' in s[..|s| - |version| - 1] then None
    else Some(Parsed(role, s[..|s| - |version| - 1], version))
  }

  function ParsePackageName(name: string): Option<Parsed> {
    var base := Base(name);
    match Between(base, "lexr-kernel-boot-support_", "_all.deb")
    case Some(version) => if version == [] || '_' in version then None else Some(Parsed(BootSupportRole, [], version))
    case None =>
      match Between(base, "linux-modules-", "_arm64.deb")
      case Some(s) => Versioned(ModulesRole, s)
      case None =>
        match Between(base, "linux-image-", "_arm64.deb")
        case Some(s) => Versioned(ImageRole, s)
        case None =>
          match Between(base, "linux-headers-", "_arm64.deb")
          case Some(s) => Versioned(HeadersRole, s)
          case None =>
            match Between(base, "linux-qcom-x1e-headers-", "_all.deb")
            case None => None
            case Some(s) => match Versioned(CommonHeadersRole, s) case None => None case Some(p) => Some(p.(abi := []))
  }

  lemma ParsedParts(name: string)
    requires ParsePackageName(name).Some?
    ensures var parts := ParsePackageName(name).value;
      parts.version != [] && (KernelRole(parts.role) ==> parts.abi != []) &&
      (KernelRole(parts.role) || parts.role.CommonHeadersRole? || parts.role.BootSupportRole?)
  {
  }

  // ---- the printed names

  function Prefix(role: Role): string {
    match role
    case BootSupportRole => "lexr-kernel-boot-support_"
    case ModulesRole => "linux-modules-"
    case ImageRole => "linux-image-"
    case HeadersRole => "linux-headers-"
    case CommonHeadersRole => "linux-qcom-x1e-headers-"
    case _ => ""
  }

  function Suffix(role: Role): string {
    if role.BootSupportRole? || role.CommonHeadersRole? then "_all.deb" else "_arm64.deb"
  }

  /** The filename of a package; a boot support package has no ABI in its name. */
  function PackageName(role: Role, abi: string, version: string): string {
    Prefix(role) + (if role.BootSupportRole? then version else abi + "_" + version) + Suffix(role)
  }

  /** What a package name may say. */
  predicate Nameable(role: Role, abi: string, version: string) {
    && (KernelRole(role) || role.CommonHeadersRole? || role.BootSupportRole?)
    && version != [] && '_' !in version && '/' !in version && '/' !in abi
    && (if role.BootSupportRole? then abi == [] else abi != [] && '\n' !in abi)
  }

  /** The ABI that parsing reports; the one in the name of common headers is dropped. */
  function ShownABI(role: Role, abi: string): string {
    if role.CommonHeadersRole? then [] else abi
  }

  lemma {:induction false} AfterLastOf(a: string, b: string, c: char)
    requires c !in b
    ensures AfterLast(a + [c] + b, c) == b && AfterLast(b, c) == b
    decreases |b|
  {
    var s := a + [c] + b;
    if b != [] {
      var n := |b| - 1;
      AfterLastOf(a, b[..n], c);
      assert s[..|s| - 1] == a + [c] + b[..n];
      assert b[n] in b;
      assert b == b[..n] + [b[n]];
    }
  }

  /** Everything behind the last `c`: none is in it, and one stands before it. */
  lemma {:induction false} AfterLastSplits(s: string, c: char)
    ensures var b := AfterLast(s, c);
      c !in b && |b| <= |s| && s[|s| - |b|..] == b && (|b| < |s| ==> s[|s| - |b| - 1] == c)
  {
    if s != [] && s[|s| - 1] != c {
      AfterLastSplits(s[..|s| - 1], c);
    }
  }

  lemma VersionedJoined(role: Role, abi: string, version: string)
    requires abi != [] && '\n' !in abi && version != [] && '_' !in version
    ensures Versioned(role, abi + "_" + version) == Some(Parsed(role, abi, version))
  {
    AfterLastOf(abi, version, '_');
    var s := abi + "_" + version;
    assert s[..|s| - |version| - 1] == abi;
  }

  lemma VersionedSplits(role: Role, s: string)
    requires Versioned(role, s).Some?
    ensures var p := Versioned(role, s).value;
      && p.role == role && s == p.abi + "_" + p.version
      && p.abi != [] && '\n' !in p.abi && p.version != [] && '_' !in p.version
  {
    AfterLastSplits(s, '_');
    var version := AfterLast(s, '_');
    var n := |s| - |version| - 1;
    assert s == s[..n] + [s[n]] + s[n + 1..];
  }

  lemma BetweenJoined(prefix: string, middle: string, suffix: string)
    ensures Between(prefix + middle + suffix, prefix, suffix) == Some(middle)
  {
    var s := prefix + middle + suffix;
    assert s[|prefix|..|s| - |suffix|] == middle && s[|s| - |suffix|..] == suffix;
  }

  lemma BetweenSplits(s: string, prefix: string, suffix: string)
    requires Between(s, prefix, suffix).Some?
    ensures s == prefix + Between(s, prefix, suffix).value + suffix
  {
    assert s == s[..|prefix|] + s[|prefix|..|s| - |suffix|] + s[|s| - |suffix|..];
  }

  /** A text begins with the prefix of one role only. */
  lemma OnePrefix(role: Role, other: Role, s: string)
    requires Nameable(role, if role.BootSupportRole? then [] else "a", "v")
    requires Nameable(other, if other.BootSupportRole? then [] else "a", "v")
    requires Prefix(role) <= s && Prefix(other) <= s
    ensures role == other
  {
    assert |s| > 8 && s[0] == Prefix(role)[0] == Prefix(other)[0] && s[1] == Prefix(role)[1] == Prefix(other)[1];
    assert s[6] == Prefix(role)[6] == Prefix(other)[6];
  }

  lemma {:induction false} NoSlashes(s: string)
    requires '/' !in s
    ensures Base(s) == s
  {
    AfterLastOf([], s, '/');
  }

  lemma PlainPieces(role: Role)
    ensures '/' !in Prefix(role) && '/' !in Suffix(role)
  {
  }

  lemma NameHasNoSlash(role: Role, abi: string, version: string)
    requires Nameable(role, abi, version)
    ensures '/' !in PackageName(role, abi, version)
  {
    PlainPieces(role);
  }

  /** A name in any directory has itself as its base. */
  lemma BaseOfName(folder: string, name: string)
    requires (folder == [] || folder[|folder| - 1] == '/') && name != [] && '/' !in name
    ensures Base(folder + name) == name
  {
    var path := folder + name;
    assert path[|path| - 1] == name[|name| - 1] && name[|name| - 1] in name;
    if folder == [] {
      assert path == name;
      NoSlashes(name);
    } else {
      assert path == folder[..|folder| - 1] + ['/'] + name;
      AfterLastOf(folder[..|folder| - 1], name, '/');
    }
  }

  /** The part of a base name that stands between the prefix and suffix of a role. */
  function Middle(base: string, role: Role): Option<string> {
    Between(base, Prefix(role), Suffix(role))
  }

  lemma ParseByMiddle(name: string)
    ensures var base := Base(name);
      ParsePackageName(name) ==
      match Middle(base, BootSupportRole)
      case Some(v) => if v == [] || '_' in v then None else Some(Parsed(BootSupportRole, [], v))
      case None =>
        if Middle(base, ModulesRole).Some? then Versioned(ModulesRole, Middle(base, ModulesRole).value)
        else if Middle(base, ImageRole).Some? then Versioned(ImageRole, Middle(base, ImageRole).value)
        else if Middle(base, HeadersRole).Some? then Versioned(HeadersRole, Middle(base, HeadersRole).value)
        else if Middle(base, CommonHeadersRole).None? then None
        else
          match Versioned(CommonHeadersRole, Middle(base, CommonHeadersRole).value)
          case None => None
          case Some(p) => Some(p.(abi := []))
  {
  }

  predicate PackageRole(role: Role) { KernelRole(role) || role.CommonHeadersRole? || role.BootSupportRole? }

  lemma OneMiddle(base: string, role: Role)
    requires PackageRole(role) && Prefix(role) <= base
    ensures forall other :: PackageRole(other) && other != role ==> Middle(base, other).None?
  {
    hide Prefix, Suffix;
    forall other | PackageRole(other) && other != role ensures Middle(base, other).None? {
      if Middle(base, other).Some? { OnePrefix(role, other, base); }
    }
  }

  /** Parsing a printed name returns what was printed, wherever the file lies. */
  lemma PrintedParses(folder: string, role: Role, abi: string, version: string)
    requires Nameable(role, abi, version) && (folder == [] || folder[|folder| - 1] == '/')
    ensures ParsePackageName(folder + PackageName(role, abi, version)) ==
            Some(Parsed(role, ShownABI(role, abi), version))
  {
    hide Prefix, Suffix, ParsePackageName, Between, Base, Versioned;
    var name := PackageName(role, abi, version);
    NameHasNoSlash(role, abi, version);
    BaseOfName(folder, name);
    ParseByMiddle(folder + name);
    OneMiddle(name, role);
    if role.BootSupportRole? {
      BetweenJoined(Prefix(role), version, Suffix(role));
    } else {
      BetweenJoined(Prefix(role), abi + "_" + version, Suffix(role));
      VersionedJoined(role, abi, version);
    }
  }

  ghost predicate Names(base: string, p: Parsed) {
    exists abi ::
      Nameable(p.role, abi, p.version) && base == PackageName(p.role, abi, p.version) && p.abi == ShownABI(p.role, abi)
  }

  lemma BaseHasNoSlash(name: string)
    ensures '/' !in Base(name)
  {
    AfterLastSplits(WithoutSlashes(name), '/');
  }

  lemma MiddleNames(base: string, role: Role, s: string)
    requires PackageRole(role) && !role.BootSupportRole? && Middle(base, role) == Some(s) && '/' !in base
    ensures Versioned(role, s).Some? ==>
              var p := Versioned(role, s).value;
              p.role == role && Names(base, p.(abi := ShownABI(role, p.abi)))
  {
    hide Prefix, Suffix, Versioned;
    BetweenSplits(base, Prefix(role), Suffix(role));
    if Versioned(role, s).Some? {
      VersionedSplits(role, s);
      var p := Versioned(role, s).value;
      assert base == PackageName(role, p.abi, p.version);
      forall i | 0 <= i < |p.abi| ensures p.abi[i] != '/' { assert base[|Prefix(role)| + i] == p.abi[i]; }
      forall i | 0 <= i < |p.version| ensures p.version[i] != '/' {
        assert base[|Prefix(role)| + |p.abi| + 1 + i] == p.version[i];
      }
      assert Nameable(role, p.abi, p.version);
      assert Parsed(role, ShownABI(role, p.abi), p.version) == p.(abi := ShownABI(role, p.abi));
    }
  }

  lemma SupportNames(base: string, version: string)
    requires Middle(base, BootSupportRole) == Some(version) && '/' !in base && version != [] && '_' !in version
    ensures Names(base, Parsed(BootSupportRole, [], version))
  {
    hide Prefix, Suffix;
    BetweenSplits(base, Prefix(BootSupportRole), Suffix(BootSupportRole));
    forall i | 0 <= i < |version| ensures version[i] != '/' {
      assert base[|Prefix(BootSupportRole)| + i] == version[i];
    }
    assert Nameable(BootSupportRole, [], version) && base == PackageName(BootSupportRole, [], version);
  }

  /** A name parses as exactly what its base name was printed for; nothing else parses. */
  lemma NamesAreExact(name: string, p: Parsed)
    ensures ParsePackageName(name) == Some(p) <==> Names(Base(name), p)
  {
    hide Prefix, Suffix, ParsePackageName, Base, Versioned, Middle;
    ParseByMiddle(name);
    BaseHasNoSlash(name);
    var base := Base(name);
    if ParsePackageName(name) == Some(p) {
      if Middle(base, BootSupportRole).Some? { SupportNames(base, Middle(base, BootSupportRole).value); }
      else if Middle(base, ModulesRole).Some? { MiddleNames(base, ModulesRole, Middle(base, ModulesRole).value); }
      else if Middle(base, ImageRole).Some? { MiddleNames(base, ImageRole, Middle(base, ImageRole).value); }
      else if Middle(base, HeadersRole).Some? { MiddleNames(base, HeadersRole, Middle(base, HeadersRole).value); }
      else { MiddleNames(base, CommonHeadersRole, Middle(base, CommonHeadersRole).value); }
    }
    if Names(base, p) { NamedParses(name, p); }
  }

  lemma NamedParses(name: string, p: Parsed)
    requires Names(Base(name), p)
    ensures ParsePackageName(name) == Some(p)
  {
    hide Prefix, Suffix, ParsePackageName, Base, Versioned, Middle;
    var abi :| && Nameable(p.role, abi, p.version) && Base(name) == PackageName(p.role, abi, p.version)
               && p.abi == ShownABI(p.role, abi);
    PrintedParses([], p.role, abi, p.version);
    NameHasNoSlash(p.role, abi, p.version);
    assert [] + Base(name) == Base(name);
    BaseOfName([], Base(name));
    ParseByMiddle(name);
    ParseByMiddle(Base(name));
  }
}
