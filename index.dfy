/** The source normalisers of indexer/index.go: five loops that map the
    upstream records of each source, key by key, into the canonical
    `Option` and `Package` records, and `simplifyPlatform`, which derives
    the simplified platform tags of a package. */
module Index {
  import Wrappers
  import Json
  import opened GoStrings
  import opened IndexType
  import Lenient
  import Nixos
  import Homemanager
  import Darwin
  import Nixpkgs
  import Nur

  /** The tags `simplifyPlatform` looks for, in the order it tries them. */
  const PlatformTags: seq<string> := ["darwin", "linux", "windows", "freebsd", "cygwin"]

  /** The browsing URL that nixpkgs positions are resolved against. */
  const PositionBase: string := "https://github.com/NixOS/nixpkgs/blob/nixos-unstable/"

  predicate NoDuplicates(s: seq<string>) {
    forall i, j :: 0 <= i < j < |s| ==> s[i] != s[j]
  }

  /** The first tag at position `j` or later that occurs in the raw platform
      `p` and is not yet in `acc`; `|PlatformTags|` when there is none. */
  function FirstNewTag(acc: seq<string>, p: string, j: nat): (k: nat)
    requires j <= |PlatformTags|
    ensures j <= k <= |PlatformTags|
    ensures k < |PlatformTags| ==> Contains(p, PlatformTags[k]) && PlatformTags[k] !in acc
    ensures forall i :: j <= i < k ==> !(Contains(p, PlatformTags[i]) && PlatformTags[i] !in acc)
    decreases |PlatformTags| - j
  {
    if j == |PlatformTags| then j
    else if Contains(p, PlatformTags[j]) && PlatformTags[j] !in acc then j
    else FirstNewTag(acc, p, j + 1)
  }

  /** What one raw platform contributes: at most one new tag. */
  function AddTag(acc: seq<string>, p: string): seq<string> {
    var k := FirstNewTag(acc, p, 0);
    if k < |PlatformTags| then acc + [PlatformTags[k]] else acc
  }

  /** The simplified tags of a list of raw platforms, built platform by
      platform from the left. */
  function Simplified(platforms: seq<string>): seq<string>
    decreases |platforms|
  {
    if platforms == [] then []
    else AddTag(Simplified(platforms[..|platforms| - 1]), platforms[|platforms| - 1])
  }

  /** Some raw platform of `platforms` contains `t`. */
  predicate Mentioned(platforms: seq<string>, t: string) {
    exists i :: 0 <= i < |platforms| && Contains(platforms[i], t)
  }

  /** The simplified tags hold no duplicates, are all among the five tags, each
      occurs in some raw platform, and there are no more of them than raw
      platforms (each raw platform adds at most one). */
  lemma {:induction false} SimplifiedFacts(platforms: seq<string>)
    ensures NoDuplicates(Simplified(platforms))
    ensures forall t :: t in Simplified(platforms) ==> t in PlatformTags && Mentioned(platforms, t)
    ensures |Simplified(platforms)| <= |platforms|
    decreases |platforms|
  {
    if platforms != [] {
      var init := platforms[..|platforms| - 1];
      var p := platforms[|platforms| - 1];
      SimplifiedFacts(init);
      var acc := Simplified(init);
      forall t | t in Simplified(platforms)
        ensures Mentioned(platforms, t)
      {
        if t in acc {
          var i :| 0 <= i < |init| && Contains(init[i], t);
          assert platforms[i] == init[i];
        } else {
          assert Contains(platforms[|platforms| - 1], t);
        }
      }
    }
  }

  /** Tags appear in order of first addition: the tags of a prefix of the
      raw platforms are a prefix of the tags of the whole list. */
  lemma {:induction false} SimplifiedPrefix(platforms: seq<string>, n: nat)
    requires n <= |platforms|
    ensures HasPrefixSeq(Simplified(platforms), Simplified(platforms[..n]))
    decreases |platforms| - n
  {
    if n < |platforms| {
      SimplifiedPrefix(platforms, n + 1);
      var longer := platforms[..n + 1];
      assert longer[..|longer| - 1] == platforms[..n];
    } else {
      assert platforms[..n] == platforms;
    }
  }

  predicate HasPrefixSeq(s: seq<string>, prefix: seq<string>) {
    |prefix| <= |s| && s[..|prefix|] == prefix
  }

  /** Every raw platform that mentions one of the five tags is covered by a
      simplified tag it contains (even when its own first match was already
      present). */
  lemma {:induction false} SimplifiedCovers(platforms: seq<string>, i: nat, k: nat)
    requires i < |platforms| && k < |PlatformTags|
    requires Contains(platforms[i], PlatformTags[k])
    ensures exists t :: t in Simplified(platforms) && Contains(platforms[i], t)
    decreases |platforms|
  {
    var init := platforms[..|platforms| - 1];
    var acc := Simplified(init);
    assert HasPrefixSeq(Simplified(platforms), acc);
    if i < |platforms| - 1 {
      assert init[i] == platforms[i];
      SimplifiedCovers(init, i, k);
      var t :| t in acc && Contains(platforms[i], t);
      assert t in Simplified(platforms);
    } else {
      var p := platforms[i];
      var j := FirstNewTag(acc, p, 0);
      if j < |PlatformTags| {
        assert Simplified(platforms)[|acc|] == PlatformTags[j];
      } else {
        assert PlatformTags[k] in acc;
      }
    }
  }

  /** A character of `sub` that `s` lacks rules out `sub` occurring in `s`. */
  lemma {:induction false} NotContains(s: string, sub: string, c: char)
    requires c in sub && c !in s
    ensures !Contains(s, sub)
    decreases |s|
  {
    if s != [] {
      NotContains(s[1..], sub, c);
    }
  }

  // The literals of these examples are parameters pinned by the
  // precondition, which keeps the verifier from unfolding them character by
  // character.

  lemma AddLinux(a: string)
    requires a == "x86_64-linux"
    ensures AddTag([], a) == ["linux"]
  {
    assert PlatformTags[0] == "darwin" && PlatformTags[1] == "linux";
    NotContains(a, "darwin", 'd');
    ContainsAt(a, "linux", 7);
    assert FirstNewTag([], a, 1) == 1;
  }

  lemma AddDarwin(b: string)
    requires b == "aarch64-darwin"
    ensures AddTag(["linux"], b) == ["linux", "darwin"]
  {
    assert PlatformTags[0] == "darwin";
    ContainsAt(b, "darwin", 8);
  }

  /** `["x86_64-linux", "aarch64-darwin"]` simplifies to
      `["linux", "darwin"]`. */
  lemma SimplifiedExample(a: string, b: string)
    requires a == "x86_64-linux" && b == "aarch64-darwin"
    ensures Simplified([a, b]) == ["linux", "darwin"]
  {
    AddLinux(a);
    AddDarwin(b);
    assert [a][..0] == [];
    assert Simplified([a]) == AddTag([], a);
    assert [a, b][..1] == [a];
    assert Simplified([a, b]) == AddTag(Simplified([a]), b);
  }

  /** The inner loop of `simplifyPlatform` over one raw platform `p`: the
      first tag that `p` contains and that is not yet present is appended;
      a present tag is skipped and the scan goes on. */
  method ScanTags(tags: seq<string>, p: string) returns (out: seq<string>)
    ensures out == AddTag(tags, p)
  {
    out := tags;
    var platforms := PlatformTags;
    for j := 0 to |platforms|
      invariant out == tags
      invariant forall k :: 0 <= k < j ==> !(Contains(p, PlatformTags[k]) && PlatformTags[k] !in tags)
    {
      var platform := platforms[j];
      if Contains(p, platform) {
        if platform in out {
          continue;
        }
        out := out + [platform];
        assert FirstNewTag(tags, p, 0) == j;
        break;
      }
    }
  }

  /** `simplifyPlatform`: the tags are rebuilt from the raw platforms, one raw
      platform at a time. Nothing else of the package changes. */
  method SimplifyPlatform(pkg: Package) returns (r: Package)
    ensures r == pkg.(platformsSimplify := Simplified(pkg.platforms))
    ensures NoDuplicates(r.platformsSimplify)
    ensures forall t :: t in r.platformsSimplify ==> t in PlatformTags && Mentioned(pkg.platforms, t)
  {
    r := pkg.(platformsSimplify := []);
    for i := 0 to |pkg.platforms|
      invariant r == pkg.(platformsSimplify := r.platformsSimplify)
      invariant r.platformsSimplify == Simplified(pkg.platforms[..i])
    {
      var tags := ScanTags(r.platformsSimplify, pkg.platforms[i]);
      assert pkg.platforms[..i + 1][..i] == pkg.platforms[..i];
      assert tags == Simplified(pkg.platforms[..i + 1]);
      r := r.(platformsSimplify := tags);
    }
    assert pkg.platforms[..|pkg.platforms|] == pkg.platforms;
    assert r.platformsSimplify == Simplified(pkg.platforms);
    SimplifiedFacts(pkg.platforms);
  }

  // ---------------------------------------------------------------------
  // The per-record rules of the five normalisers.

  function NixosOption(v: Nixos.Package): Option {
    Option("nixpkgs", v.description, v.exampleText, v.optionType, v.declarations, v.defaultText)
  }

  function Urls(ds: seq<Homemanager.Declaration>): seq<string> {
    seq(|ds|, i requires 0 <= i < |ds| => ds[i].url)
  }

  /** A Home Manager option with the given declaration URLs. */
  function HomemanagerRecord(v: Homemanager.Package, declarations: seq<string>): Option {
    Option("home-manager", v.description, v.exampleText, v.optionType, declarations, v.defaultText)
  }

  function HomemanagerOption(v: Homemanager.Package): Option {
    HomemanagerRecord(v, Urls(v.declarations))
  }

  function DarwinOption(v: Darwin.Package): Option {
    Option("darwin", v.description, v.example, v.optionType, v.declaredBy, v.default)
  }

  function CanonicalLicense(l: Lenient.License): License {
    License(l.free, l.fullName, l.spdxId)
  }

  function CanonicalLicenses(ls: seq<Lenient.License>): seq<License> {
    seq(|ls|, i requires 0 <= i < |ls| => CanonicalLicense(ls[i]))
  }

  function NixpkgsMaintainers(ms: seq<Nixpkgs.Maintainer>): seq<Maintainer> {
    seq(|ms|, i requires 0 <= i < |ms| => Maintainer(ms[i].name, ms[i].email, ms[i].github, ms[i].githubId))
  }

  function NurMaintainers(ms: seq<Nur.Maintainer>): seq<Maintainer> {
    seq(|ms|, i requires 0 <= i < |ms| => Maintainer(ms[i].name, ms[i].email, ms[i].github, ms[i].githubId))
  }

  /** The nixpkgs browsing URL of a `file:line` position. */
  function NixpkgsPositionUrl(position: string): string {
    PositionBase + ReplaceFirst(position, ':', "#L")
  }

  function NixpkgsPackage(v: Nixpkgs.Package): Package {
    var m := v.meta;
    var platforms := m.platforms.GetOr([]);
    Package(
      source := "nixpkgs", name := m.name, version := v.version,
      description := m.description, longDescription := m.longDescription,
      mainProgram := m.mainProgram, homepages := m.homepages.GetOr([]),
      maintainers := NixpkgsMaintainers(m.maintainers),
      platforms := platforms, platformsSimplify := Simplified(platforms),
      position := m.position, positionUrl := NixpkgsPositionUrl(m.position),
      broken := m.broken, vulnerable := m.knownVulnerabilities.Some?,
      licenses := CanonicalLicenses(m.licenses), unfree := m.unfree, insecure := false,
      knownVulnerabilities := m.knownVulnerabilities.GetOr([]))
  }

  function NurPackage(v: Nur.Package): Package {
    var m := v.meta;
    var platforms := m.platforms.GetOr([]);
    Package(
      source := "nur", name := m.name, version := v.version,
      description := m.description, longDescription := m.longDescription,
      mainProgram := m.mainProgram, homepages := m.homepages.GetOr([]),
      maintainers := NurMaintainers(m.maintainers),
      platforms := platforms, platformsSimplify := Simplified(platforms),
      position := m.position, positionUrl := m.position,
      broken := m.broken, vulnerable := m.knownVulnerabilities.Some?,
      licenses := CanonicalLicenses(m.licenses), unfree := m.unfree, insecure := false,
      knownVulnerabilities := m.knownVulnerabilities.GetOr([]))
  }

  /** What every canonical package record satisfies: duplicate-free
      simplified tags drawn from the five tags and from its own raw
      platforms, never `insecure`, and no vulnerability list unless it is
      `vulnerable`. */
  predicate WellFormed(p: Package) {
    && NoDuplicates(p.platformsSimplify)
    && (forall t :: t in p.platformsSimplify ==> t in PlatformTags && Mentioned(p.platforms, t))
    && !p.insecure
    && (!p.vulnerable ==> p.knownVulnerabilities == [])
  }

  // ---------------------------------------------------------------------
  // The loops.

  /** The `Declarations` loop of `dlHomemanager`. */
  method DeclarationUrls(ds: seq<Homemanager.Declaration>) returns (urls: seq<string>)
    ensures |urls| == |ds|
    ensures forall i :: 0 <= i < |ds| ==> urls[i] == ds[i].url
  {
    urls := [];
    for i := 0 to |ds|
      invariant |urls| == i
      invariant forall k :: 0 <= k < i ==> urls[k] == ds[k].url
    {
      urls := urls + [ds[i].url];
    }
  }

  /** The `Licenses` loop of `dlNixpkgs` and `dlNur`: field for field, in
      order. */
  method CopyLicenses(ls: seq<Lenient.License>) returns (out: seq<License>)
    ensures |out| == |ls|
    ensures forall i :: 0 <= i < |ls| ==>
      out[i].fullName == ls[i].fullName && out[i].free == ls[i].free && out[i].spdxId == ls[i].spdxId
  {
    out := [];
    for i := 0 to |ls|
      invariant |out| == i
      invariant forall k :: 0 <= k < i ==> out[k] == CanonicalLicense(ls[k])
    {
      out := out + [License(ls[i].free, ls[i].fullName, ls[i].spdxId)];
    }
  }

  /** The `Maintainers` loop of `dlNixpkgs`. */
  method CopyNixpkgsMaintainers(ms: seq<Nixpkgs.Maintainer>) returns (out: seq<Maintainer>)
    ensures |out| == |ms|
    ensures forall i :: 0 <= i < |ms| ==>
      out[i].name == ms[i].name && out[i].email == ms[i].email &&
      out[i].github == ms[i].github && out[i].githubId == ms[i].githubId
  {
    out := [];
    for i := 0 to |ms|
      invariant |out| == i
      invariant forall k :: 0 <= k < i ==> out[k] == NixpkgsMaintainers(ms)[k]
    {
      out := out + [Maintainer(ms[i].name, ms[i].email, ms[i].github, ms[i].githubId)];
    }
  }

  /** The `Maintainers` loop of `dlNur`. */
  method CopyNurMaintainers(ms: seq<Nur.Maintainer>) returns (out: seq<Maintainer>)
    ensures |out| == |ms|
    ensures forall i :: 0 <= i < |ms| ==>
      out[i].name == ms[i].name && out[i].email == ms[i].email &&
      out[i].github == ms[i].github && out[i].githubId == ms[i].githubId
  {
    out := [];
    for i := 0 to |ms|
      invariant |out| == i
      invariant forall k :: 0 <= k < i ==> out[k] == NurMaintainers(ms)[k]
    {
      out := out + [Maintainer(ms[i].name, ms[i].email, ms[i].github, ms[i].githubId)];
    }
  }

  /** `dlNixos`: one option per key, under the same key. */
  method NormalizeNixos(raw: map<string, Nixos.Package>) returns (options: map<string, Option>)
    ensures options.Keys == raw.Keys
    ensures forall k :: k in raw ==> options[k] == NixosOption(raw[k])
  {
    options := map[];
    var todo := raw.Keys;
    while todo != {}
      invariant todo <= raw.Keys && options.Keys == raw.Keys - todo
      invariant forall k :: k in options ==> options[k] == NixosOption(raw[k])
      decreases todo
    {
      var k :| k in todo;
      options := options[k := NixosOption(raw[k])];
      todo := todo - {k};
    }
  }

  /** `dlHomemanager`: one option per key, its declarations being the
      declaration URLs in order. */
  method NormalizeHomemanager(raw: map<string, Homemanager.Package>) returns (options: map<string, Option>)
    ensures options.Keys == raw.Keys
    ensures forall k :: k in raw ==> options[k] == HomemanagerOption(raw[k])
  {
    options := map[];
    var todo := raw.Keys;
    while todo != {}
      invariant todo <= raw.Keys && options.Keys == raw.Keys - todo
      invariant forall k :: k in options ==> options[k] == HomemanagerOption(raw[k])
      decreases todo
    {
      var k :| k in todo;
      var v := raw[k];
      var urls := DeclarationUrls(v.declarations);
      assert urls == Urls(v.declarations);
      options := options[k := HomemanagerRecord(v, urls)];
      todo := todo - {k};
    }
  }

  /** `dlDarwin`: one option per key of the `packages` map. */
  method NormalizeDarwin(raw: map<string, Darwin.Package>) returns (options: map<string, Option>)
    ensures options.Keys == raw.Keys
    ensures forall k :: k in raw ==> options[k] == DarwinOption(raw[k])
  {
    options := map[];
    var todo := raw.Keys;
    while todo != {}
      invariant todo <= raw.Keys && options.Keys == raw.Keys - todo
      invariant forall k :: k in options ==> options[k] == DarwinOption(raw[k])
      decreases todo
    {
      var k :| k in todo;
      options := options[k := DarwinOption(raw[k])];
      todo := todo - {k};
    }
  }

  /** The body of the `dlNixpkgs` loop: one upstream package, field by field. */
  method NixpkgsRecord(v: Nixpkgs.Package) returns (pkg: Package)
    ensures pkg == NixpkgsPackage(v)
    ensures WellFormed(pkg)
  {
    var m := v.meta;
    pkg := Package(
      source := "nixpkgs", name := m.name, version := v.version,
      description := m.description, longDescription := m.longDescription,
      mainProgram := m.mainProgram, homepages := [], maintainers := [],
      platforms := [], platformsSimplify := [],
      position := m.position, positionUrl := m.position,
      broken := m.broken, vulnerable := false, licenses := [], unfree := m.unfree,
      insecure := false, knownVulnerabilities := []);
    pkg := pkg.(positionUrl := PositionBase + ReplaceFirst(m.position, ':', "#L"));
    if m.knownVulnerabilities.Some? {
      pkg := pkg.(knownVulnerabilities := m.knownVulnerabilities.value, vulnerable := true);
    } else {
      pkg := pkg.(knownVulnerabilities := []);
    }
    if m.homepages.Some? {
      pkg := pkg.(homepages := m.homepages.value);
    } else {
      pkg := pkg.(homepages := []);
    }
    if m.platforms.Some? {
      pkg := pkg.(platforms := m.platforms.value);
    } else {
      pkg := pkg.(platforms := []);
    }
    var licenses := CopyLicenses(m.licenses);
    var maintainers := CopyNixpkgsMaintainers(m.maintainers);
    pkg := pkg.(licenses := licenses, maintainers := maintainers);
    pkg := SimplifyPlatform(pkg);
  }

  /** `dlNixpkgs`: one well-formed package per key of the `packages` map. */
  method NormalizeNixpkgs(raw: map<string, Nixpkgs.Package>) returns (packages: map<string, Package>)
    ensures packages.Keys == raw.Keys
    ensures forall k :: k in raw ==> packages[k] == NixpkgsPackage(raw[k]) && WellFormed(packages[k])
  {
    packages := map[];
    var todo := raw.Keys;
    while todo != {}
      invariant todo <= raw.Keys && packages.Keys == raw.Keys - todo
      invariant forall k :: k in packages ==> packages[k] == NixpkgsPackage(raw[k]) && WellFormed(packages[k])
      decreases todo
    {
      var k :| k in todo;
      var pkg := NixpkgsRecord(raw[k]);
      packages := packages[k := pkg];
      todo := todo - {k};
    }
  }

  /** The body of the `dlNur` loop, the position being copied verbatim as its URL. */
  method NurRecord(v: Nur.Package) returns (pkg: Package)
    ensures pkg == NurPackage(v)
    ensures WellFormed(pkg)
  {
    var m := v.meta;
    pkg := Package(
      source := "nur", name := m.name, version := v.version,
      description := m.description, longDescription := m.longDescription,
      mainProgram := m.mainProgram, homepages := [], maintainers := [],
      platforms := [], platformsSimplify := [],
      position := m.position, positionUrl := m.position,
      broken := m.broken, vulnerable := false, licenses := [], unfree := m.unfree,
      insecure := false, knownVulnerabilities := []);
    if m.knownVulnerabilities.Some? {
      pkg := pkg.(knownVulnerabilities := m.knownVulnerabilities.value, vulnerable := true);
    } else {
      pkg := pkg.(knownVulnerabilities := []);
    }
    if m.homepages.Some? {
      pkg := pkg.(homepages := m.homepages.value);
    } else {
      pkg := pkg.(homepages := []);
    }
    if m.platforms.Some? {
      pkg := pkg.(platforms := m.platforms.value);
    } else {
      pkg := pkg.(platforms := []);
    }
    var licenses := CopyLicenses(m.licenses);
    var maintainers := CopyNurMaintainers(m.maintainers);
    pkg := pkg.(licenses := licenses, maintainers := maintainers);
    pkg := SimplifyPlatform(pkg);
  }

  /** `dlNur`: as `dlNixpkgs`, with the position copied verbatim as its URL. */
  method NormalizeNur(raw: map<string, Nur.Package>) returns (packages: map<string, Package>)
    ensures packages.Keys == raw.Keys
    ensures forall k :: k in raw ==> packages[k] == NurPackage(raw[k]) && WellFormed(packages[k])
  {
    packages := map[];
    var todo := raw.Keys;
    while todo != {}
      invariant todo <= raw.Keys && packages.Keys == raw.Keys - todo
      invariant forall k :: k in packages ==> packages[k] == NurPackage(raw[k]) && WellFormed(packages[k])
      decreases todo
    {
      var k :| k in todo;
      var pkg := NurRecord(raw[k]);
      packages := packages[k := pkg];
      todo := todo - {k};
    }
  }

  // ---------------------------------------------------------------------
  // Properties of the per-record rules.

  /** The nixpkgs URL is the browsing base followed by the position with its
      first `:` (and only that one) replaced by `#L`; a position without `:`
      is appended unchanged. */
  lemma NixpkgsPositionUrlSpec(position: string)
    ensures ':' !in position ==> NixpkgsPositionUrl(position) == PositionBase + position
    ensures ':' in position ==>
      var i := IndexOf(position, ':');
      NixpkgsPositionUrl(position) == PositionBase + position[..i] + "#L" + position[i + 1..]
  {
    if ':' in position {
      ReplaceFirstPresent(position, ':', "#L");
    } else {
      ReplaceFirstAbsent(position, ':', "#L");
    }
  }

  /** `Vulnerable` is set exactly when `knownVulnerabilities` was present, even
      as an empty list; an absent list becomes `[]`. The same rule holds for
      both package sources. */
  lemma VulnerableIffPresent(v: Nixpkgs.Package, w: Nur.Package)
    ensures NixpkgsPackage(v).vulnerable <==> v.meta.knownVulnerabilities.Some?
    ensures NixpkgsPackage(v).knownVulnerabilities ==
      if v.meta.knownVulnerabilities.Some? then v.meta.knownVulnerabilities.value else []
    ensures NurPackage(w).vulnerable <==> w.meta.knownVulnerabilities.Some?
    ensures NurPackage(w).knownVulnerabilities ==
      if w.meta.knownVulnerabilities.Some? then w.meta.knownVulnerabilities.value else []
  {
  }

  /** Both package rules produce well-formed records whose simplified tags
      are the simplification of their platforms. */
  lemma PackagesWellFormed(v: Nixpkgs.Package, w: Nur.Package)
    ensures WellFormed(NixpkgsPackage(v))
    ensures NixpkgsPackage(v).platformsSimplify == Simplified(NixpkgsPackage(v).platforms)
    ensures WellFormed(NurPackage(w))
    ensures NurPackage(w).platformsSimplify == Simplified(NurPackage(w).platforms)
  {
    SimplifiedFacts(v.meta.platforms.GetOr([]));
    SimplifiedFacts(w.meta.platforms.GetOr([]));
  }

  /** The source tag of each normaliser, and the fields the package rules
      copy: NUR's URL is its position, homepages and platforms default to
      `[]`, licenses and maintainers keep their order and count. */
  lemma RecordRules(a: Nixos.Package, b: Homemanager.Package, c: Darwin.Package,
                    v: Nixpkgs.Package, w: Nur.Package)
    ensures NixosOption(a).source == "nixpkgs" && HomemanagerOption(b).source == "home-manager"
    ensures DarwinOption(c).source == "darwin"
    ensures NixpkgsPackage(v).source == "nixpkgs" && NurPackage(w).source == "nur"
    ensures NurPackage(w).positionUrl == w.meta.position
    ensures v.meta.homepages.None? ==> NixpkgsPackage(v).homepages == []
    ensures v.meta.platforms.None? ==> NixpkgsPackage(v).platforms == [] && NixpkgsPackage(v).platformsSimplify == []
    ensures |NixpkgsPackage(v).licenses| == |v.meta.licenses| && |NurPackage(w).maintainers| == |w.meta.maintainers|
    ensures |HomemanagerOption(b).declarations| == |b.declarations|
  {
  }

  /** A release entry with only a version normalises to a record with no
      platforms, no simplified tags, no homepages and no vulnerabilities; the
      nixpkgs URL is then the bare browsing base, the NUR URL empty. */
  lemma PackagesWithoutMeta(version: string)
    ensures Nixpkgs.DecodePackage(Json.JObject(map["version" := Json.JString(version)])).Ok?
    ensures var p := NixpkgsPackage(Nixpkgs.DecodePackage(Json.JObject(map["version" := Json.JString(version)])).value);
      p.version == version && p.platforms == [] && p.platformsSimplify == [] && p.homepages == [] &&
      !p.vulnerable && p.knownVulnerabilities == [] && p.positionUrl == PositionBase
    ensures Nur.DecodePackage(Json.JObject(map["version" := Json.JString(version)])).Ok?
    ensures var p := NurPackage(Nur.DecodePackage(Json.JObject(map["version" := Json.JString(version)])).value);
      p.version == version && p.platforms == [] && p.platformsSimplify == [] && p.homepages == [] &&
      !p.vulnerable && p.knownVulnerabilities == [] && p.positionUrl == ""
  {
    Nixpkgs.PackageWithoutMeta(version);
    Nur.PackageWithoutMeta(version);
    assert PositionBase + ReplaceFirst("", ':', "#L") == PositionBase;
  }
}
