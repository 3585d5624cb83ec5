/**
 * The vcpkg installation manager of hifi_vcpkg.py (class `VcpkgRepo`): the identity of a
 * set of custom ports, the freshness check, the bootstrap and install flow, the derived
 * build-type triplets, the clean-up of the generated toolchain script and the CMake
 * configuration fragment.
 *
 * The configuration `__init__` computes is an immutable `Config`; the class keeps the
 * parts the source changes: the abstract filesystem, the environment passed to install
 * commands, and a trace of the calls into foreign code. Every operation that changes state
 * is specified by a `...Step` function from the old filesystem to a `Step` (success, new
 * filesystem, events appended to the trace); the class methods are proved to do exactly
 * that, and the lemmas state what the source promises about the steps.
 */
module HifiVcpkg {
  import opened Wrappers
  import opened FileSystem
  import opened Text
  import opened PyFormat

  // ---------------------------------------------------------------------------
  // Platform table, arguments and configuration
  // ---------------------------------------------------------------------------

  /** The host platforms `__init__` tells apart (`platform.system()` and `platform.machine()`). */
  datatype HostOs = Windows | MacOs | LinuxArm64 | OtherHost

  /** The host triplets. */
  const WindowsTriplet := "x64-windows"
  const MacTriplet := "x64-osx"
  const LinuxArm64Triplet := "arm64-linux"
  const LinuxTriplet := "x64-linux"
  /** The target triplet when building for Android. */
  const AndroidTriplet := "arm64-android"

  /** Environment variables the manager reads. */
  const VcpkgPathVar := "HIFI_VCPKG_PATH"
  const AndroidPrecompiledVar := "HIFI_ANDROID_PRECOMPILED"
  const BootstrapVar := "HIFI_VCPKG_BOOTSTRAP"
  const QtPrefixVar := "QT_CMAKE_PREFIX_PATH"
  /** The `_env` variable holding the download URLs of the prebuilt Android tree. */
  const AndroidUrlsVar := "EXTERNAL_VCPKG_ANDROID_URLS"

  /** The repository cloned when bootstrapping from source. */
  const VcpkgRepoUrl := "https://github.com/microsoft/vcpkg"
  /** vcpkg's own CMake toolchain script, relative to the vcpkg root. */
  const CmakeScriptName := "scripts/buildsystems/vcpkg.cmake"
  /** The generated CMake configuration, in the build root. */
  const ConfigFileName := "vcpkg.cmake"

  /** The separator `os.path.join` puts between path parts on the host. */
  function Separator(host: HostOs): char {
    if host == Windows then '\\' else '/'
  }

  function ExeName(host: HostOs): string {
    if host == Windows then "vcpkg.exe" else "vcpkg"
  }

  function HostTripletOf(host: HostOs): string {
    match host
    case Windows => WindowsTriplet
    case MacOs => MacTriplet
    case LinuxArm64 => LinuxArm64Triplet
    case OtherHost => LinuxTriplet
  }

  /** The `_env` variable holding the download URLs of the vcpkg tool for the host. */
  function ClientUrlsVar(host: HostOs): string {
    match host
    case Windows => "EXTERNAL_VCPKG_WIN_CLIENT_URLS"
    case MacOs => "EXTERNAL_VCPKG_MAC_CLIENT_URLS"
    case LinuxArm64 => "EXTERNAL_VCPKG_LINUX_AARCH64_URLS"
    case OtherHost => "EXTERNAL_VCPKG_LINUX_CLIENT_URLS"
  }

  /** The command-line arguments the manager is built from; an unset build type is "". */
  datatype Args = Args(
    portsPath: string,
    buildType: string,
    buildRoot: string,
    vcpkgRoot: Option<string>,
    android: bool,
    forceBuild: bool,
    forceBootstrap: bool)

  /** One entry of the Android package catalog: its name, archive file name, MD5 checksum and URL(s). */
  datatype AndroidPackage = AndroidPackage(name: string, file: string, checksum: string, urls: seq<string>)

  /**
   * What `__init__` computes, fixed for the manager's lifetime. `unpack(urls, dest)` gives the
   * entries a download-and-extract into `dest` writes, and `runEffect(args)` the entries a
   * subprocess writes: the archive contents and the external tool are not modelled.
   */
  datatype Config = Config(
    sourcePortsPath: string,
    buildType: string,
    buildRoot: string,
    android: bool,
    forceBuild: bool,
    forceBootstrap: bool,
    host: HostOs,
    env: map<string, string>,
    id: string,
    path: string,
    noClean: bool,
    vcpkgUrl: seq<string>,
    prebuiltArchive: Option<seq<string>>,
    androidPackagePath: string,
    androidPackages: seq<AndroidPackage>,
    unpack: (seq<string>, string) -> Fs,
    runEffect: seq<string> -> Fs)
  {
    function Sep(): char { Separator(host) }
    function ConfigFilePath(): string { Join(Sep(), buildRoot, ConfigFileName) }
    function TagFile(): string { Join(Sep(), path, ".id") }
    function PrebuildTagFile(): string { Join(Sep(), path, ".prebuild") }
    function TagContents(): string { TagText(id) }
    function Exe(): string { Join(Sep(), path, ExeName(host)) }
    /** The file whose presence shows a real vcpkg checkout or unpack. */
    function RootMarker(): string { Join(Sep(), path, ".vcpkg-root") }
    function PortsDir(): string { Join(Sep(), path, "ports") }
    function EnvDir(): string { Join(Sep(), path, "_env") }
    function SourceEnvDir(): string { Join(Sep(), buildRoot, "_env") }
    function BuildTrees(): string { Join(Sep(), path, "buildtrees") }
    function Installed(): string { Join(Sep(), path, "installed") }
    function CmakeScript(): string { Join(Sep(), path, CmakeScriptName) }
    function HostTriplet(): string { HostTripletOf(host) }
    function Triplet(): string { if android then AndroidTriplet else HostTriplet() }

    function BootstrapCmds(): seq<string> {
      match host
      case Windows => [Join(Sep(), path, "bootstrap-vcpkg.bat"), "-disableMetrics"]
      case MacOs => [Join(Sep(), path, "bootstrap-vcpkg.sh"), "--allowAppleClang", "-disableMetrics"]
      case _ => [Join(Sep(), path, "bootstrap-vcpkg.sh"), "-disableMetrics"]
    }

    /** The environment of the bootstrap script: a work-around compiler flag on macOS. */
    function BootstrapEnv(): map<string, string> {
      if host == MacOs then env["CXXFLAGS" := "-D_CTERMID_H_"] else env
    }
  }

  // ---------------------------------------------------------------------------
  // Identity, tag and installation location
  // ---------------------------------------------------------------------------

  /** `hash[:8]` */
  function ShortHash(hash: string): (r: string)
    ensures |r| == if |hash| < 8 then |hash| else 8
    ensures r == hash[..|r|]
  {
    if |hash| <= 8 then hash else hash[..8]
  }

  /** The installation identity: the short ports hash, then `-<build type>` when one is set. */
  function Identity(portsHash: string, buildType: string): (r: string)
    ensures |r| >= |ShortHash(portsHash)| && r[..|ShortHash(portsHash)|] == ShortHash(portsHash)
    ensures buildType == "" <==> r == ShortHash(portsHash)
    ensures buildType != "" ==> r[|ShortHash(portsHash)|..] == "-" + buildType
  {
    if buildType != "" then ShortHash(portsHash) + "-" + buildType else ShortHash(portsHash)
  }

  /** Two build types of one set of ports never share an identity. */
  lemma IdentitySeparatesBuildTypes(portsHash: string, b1: string, b2: string)
    requires Identity(portsHash, b1) == Identity(portsHash, b2)
    ensures b1 == b2
  {
    var n := |ShortHash(portsHash)|;
    if b1 != "" && b2 != "" {
      assert "-" + b1 == Identity(portsHash, b1)[n..] == Identity(portsHash, b2)[n..] == "-" + b2;
      assert b1 == ("-" + b1)[1..] == ("-" + b2)[1..] == b2;
    }
  }

  /** The identity changes exactly when the first eight characters of the ports hash do. */
  lemma IdentityTracksHash(h1: string, h2: string, buildType: string)
    requires |h1| >= 8 && |h2| >= 8
    ensures Identity(h1, buildType) == Identity(h2, buildType) <==> h1[..8] == h2[..8]
  {
    if Identity(h1, buildType) == Identity(h2, buildType) {
      assert h1[..8] == Identity(h1, buildType)[..8] == Identity(h2, buildType)[..8] == h2[..8];
    }
  }

  /** The tag record `<id>_<format version>`; the format version is 1. */
  function TagText(id: string): string {
    id + "_" + "1"
  }

  lemma TagTextInjective(id1: string, id2: string)
    requires TagText(id1) == TagText(id2)
    ensures id1 == id2
  {
    assert id1 == TagText(id1)[..|id1|];
  }

  /** The base directory used when no explicit vcpkg root is given. */
  function BaseDirectory(env: map<string, string>, home: string, android: bool, sep: char): string {
    var base :=
      if "CI_WORKSPACE" in env then Join(sep, env["CI_WORKSPACE"], "vircadia-files/vcpkg")
      else if "HIFI_VCPKG_BASE" in env then env["HIFI_VCPKG_BASE"]
      else home + "/vircadia-files/vcpkg";
    if android then Join(sep, base, "android") else base
  }

  /**
   * The installation root and the noClean flag: an explicit root (the environment variable
   * first, then the argument) is used as is and is never cleaned; otherwise the root is the
   * base directory joined with the identity.
   */
  function Location(env: map<string, string>, vcpkgRoot: Option<string>, home: string, android: bool,
                    sep: char, id: string): (r: (string, bool))
    ensures r.1 <==> VcpkgPathVar in env || vcpkgRoot.Some?
    ensures VcpkgPathVar in env ==> r.0 == env[VcpkgPathVar]
    ensures VcpkgPathVar !in env && vcpkgRoot.Some? ==> r.0 == vcpkgRoot.value
    ensures !r.1 ==> r.0 == Join(sep, BaseDirectory(env, home, android, sep), id)
  {
    if VcpkgPathVar in env then (env[VcpkgPathVar], true)
    else if vcpkgRoot.Some? then (vcpkgRoot.value, true)
    else (Join(sep, BaseDirectory(env, home, android, sep), id), false)
  }

  /** Managed installations of different identities live in different directories. */
  lemma LocationsKeyedByIdentity(env: map<string, string>, home: string, android: bool, sep: char,
                                 id1: string, id2: string)
    requires VcpkgPathVar !in env
    requires Location(env, None, home, android, sep, id1).0 == Location(env, None, home, android, sep, id2).0
    ensures id1 == id2
  {
    var base := BaseDirectory(env, home, android, sep);
    assert Join(sep, base, id1)[|base| + 1..] == id1;
  }

  /** The path of the pass-through variable file `<build root>/_env/<name>.txt`. */
  function VarPath(sep: char, buildRoot: string, name: string): string {
    Join(sep, Join(sep, buildRoot, "_env"), name + ".txt")
  }

  lemma VarPathInjective(sep: char, buildRoot: string, a: string, b: string)
    requires VarPath(sep, buildRoot, a) == VarPath(sep, buildRoot, b)
    ensures a == b
  {
    var dir := Join(sep, buildRoot, "_env");
    assert a + ".txt" == VarPath(sep, buildRoot, a)[|dir| + 1..] == b + ".txt";
    assert a == (a + ".txt")[..|a|];
  }

  /** What `__init__` computes from its inputs; `clientUrls` is the text of the host's URL variable file. */
  function Configure(args: Args, host: HostOs, env: map<string, string>, home: string, portsHash: string,
                     clientUrls: string, prebuiltArchive: Option<seq<string>>,
                     androidPackages: seq<AndroidPackage>,
                     unpack: (seq<string>, string) -> Fs, runEffect: seq<string> -> Fs): (c: Config)
    ensures c.id == Identity(portsHash, args.buildType)
    ensures c.noClean <==> VcpkgPathVar in env || args.vcpkgRoot.Some?
    ensures (c.path, c.noClean) == Location(env, args.vcpkgRoot, home, args.android, Separator(host), c.id)
    ensures c.TagContents() == Identity(portsHash, args.buildType) + "_1"
    ensures c.Triplet() == if args.android then AndroidTriplet else HostTripletOf(host)
    ensures c.vcpkgUrl == Split(clientUrls, ';')
    ensures JoinWith(c.vcpkgUrl, ';') == clientUrls
    ensures c.androidPackagePath ==
      if AndroidPrecompiledVar in env then env[AndroidPrecompiledVar]
      else Join(Separator(host), c.path, "android")
  {
    var sep := Separator(host);
    var id := Identity(portsHash, args.buildType);
    var loc := Location(env, args.vcpkgRoot, home, args.android, sep, id);
    Config(
      args.portsPath, args.buildType, args.buildRoot, args.android, args.forceBuild, args.forceBootstrap,
      host, env, id, loc.0, loc.1, Split(clientUrls, ';'), prebuiltArchive,
      if AndroidPrecompiledVar in env then env[AndroidPrecompiledVar] else Join(sep, loc.0, "android"),
      androidPackages, unpack, runEffect)
  }

  // ---------------------------------------------------------------------------
  // Freshness
  // ---------------------------------------------------------------------------

  /** `upToDate`: the early-return chain of the source. */
  predicate UpToDate(c: Config, f: Fs) {
    if c.noClean then true
    else if c.forceBuild then false
    else if !IsFile(f, c.Exe()) then false
    else if !IsFile(f, c.TagFile()) then false
    else f[c.TagFile()].text == c.TagContents()
  }

  /**
   * An explicit root is always up to date; otherwise both files must exist and the tag must match.
   * This is the early-return chain of `UpToDate` read as one condition; what it means for a
   * stale tag and for a fresh one is stated by `StaleTagMeansOutOfDate` and `WriteTagMakesUpToDate`.
   */
  lemma UpToDateExactly(c: Config, f: Fs)
    ensures c.noClean ==> UpToDate(c, f)
    ensures !c.noClean ==>
      (UpToDate(c, f) <==>
        !c.forceBuild && IsFile(f, c.Exe()) && IsFile(f, c.TagFile()) && f[c.TagFile()].text == c.TagContents())
  {
  }

  /** A tag left by another identity (changed ports or build type) forces a rebuild. */
  lemma StaleTagMeansOutOfDate(c: Config, f: Fs, otherId: string)
    requires !c.noClean && otherId != c.id
    requires IsFile(f, c.TagFile()) && f[c.TagFile()].text == TagText(otherId)
    ensures !UpToDate(c, f)
  {
    if UpToDate(c, f) {
      TagTextInjective(otherId, c.id);
    }
  }

  // ---------------------------------------------------------------------------
  // Derived triplets
  // ---------------------------------------------------------------------------

  /** `getTripletWithBuildType` */
  function TripletWithBuildType(buildType: string, triplet: string): (r: string)
    ensures buildType == "" ==> r == triplet
    ensures buildType != "" ==> |r| == |triplet| + 1 + |buildType|
    ensures buildType != "" ==> r[..|triplet|] == triplet && r[|triplet|] == '-' && r[|triplet| + 1..] == buildType
  {
    if buildType == "" then triplet else triplet + "-" + buildType
  }

  /** With a build type, the derived triplet is a different name from its base... */
  lemma DerivedTripletIsNew(buildType: string, triplet: string)
    requires buildType != ""
    ensures TripletWithBuildType(buildType, triplet) != triplet
  {
  }

  /** ... and different base triplets never derive the same name. */
  lemma DerivedTripletInjective(buildType: string, t1: string, t2: string)
    requires TripletWithBuildType(buildType, t1) == TripletWithBuildType(buildType, t2)
    ensures t1 == t2
  {
    if buildType != "" {
      var r := TripletWithBuildType(buildType, t1);
      assert |t1| == |t2|;
      assert t1 == r[..|t1|] == t2;
    }
  }

  /** `<root>/triplets/<triplet>.cmake` */
  function TripletFile(c: Config, triplet: string): string {
    Join(c.Sep(), Join(c.Sep(), c.path, "triplets"), triplet + ".cmake")
  }

  lemma TripletFileInjective(c: Config, t1: string, t2: string)
    requires TripletFile(c, t1) == TripletFile(c, t2)
    ensures t1 == t2
  {
    var dir := Join(c.Sep(), c.path, "triplets");
    assert t1 + ".cmake" == TripletFile(c, t1)[|dir| + 1..] == t2 + ".cmake";
    assert t1 == (t1 + ".cmake")[..|t1|];
  }

  /** The directive appended to a derived triplet file. */
  function BuildTypeDirective(buildType: string): string {
    "set(VCPKG_BUILD_TYPE " + buildType + ")\n"
  }

  /** The directive is one line: its only '\n' is its last character. */
  lemma DirectiveIsOneLine(buildType: string)
    requires '\n' !in buildType
    ensures var d := BuildTypeDirective(buildType); d != [] && '\n' !in d[..|d| - 1]
  {
    var d := BuildTypeDirective(buildType);
    var head := "set(VCPKG_BUILD_TYPE ";
    assert forall i :: 0 <= i < |head| ==> head[i] != '\n';
    assert d[..|d| - 1] == head + buildType + ")";
    forall i | 0 <= i < |d| - 1 ensures d[i] != '\n' {
      if i < |head| { assert d[i] == head[i]; }
      else if i < |head| + |buildType| { assert d[i] == buildType[i - |head|]; }
    }
  }

  /** For a triplet file made of whole lines, the directive becomes exactly one extra last line. */
  lemma DirectiveIsOneMoreLine(text: string, buildType: string)
    requires text == [] || text[|text| - 1] == '\n'
    requires '\n' !in buildType
    ensures Lines(text + BuildTypeDirective(buildType)) == Lines(text) + [BuildTypeDirective(buildType)]
  {
    DirectiveIsOneLine(buildType);
    LinesAppendLine(text, BuildTypeDirective(buildType));
  }

  // ---------------------------------------------------------------------------
  // Events and steps
  // ---------------------------------------------------------------------------

  /**
   * The calls into code outside the model, in the order they happen: a subprocess
   * (`executeSubprocess`, with its working directory and environment when given),
   * a download-and-extract, and the two internal operations `clean` and `copyEnv`.
   */
  datatype Event =
    | Exec(args: seq<string>, cwd: Option<string>, env: Option<map<string, string>>)
    | Download(urls: seq<string>, dest: string, isZip: bool, checksum: Option<string>)
    | CleanCalled
    | CopyEnvCalled

  /** The outcome of an operation: false where the source raises, the new filesystem, the events. */
  datatype Step = Step(ok: bool, fs: Fs, events: seq<Event>)

  /** Run `second` (computed from `first.fs`) only when `first` succeeded. */
  function Then(first: Step, second: Step): Step {
    if first.ok then Step(second.ok, second.fs, first.events + second.events) else first
  }

  /** Writing `text` to the file `p` as a step: it fails when `p` is a directory. */
  function WriteStep(f: Fs, p: string, text: string): (r: Step)
    ensures r.events == []
    ensures r.ok <==> !IsDir(f, p)
    ensures r.ok ==> IsFile(r.fs, p) && r.fs[p].text == text
    ensures r.ok ==> forall q :: q != p ==> (q in r.fs <==> q in f) && (q in f ==> r.fs[q] == f[q])
    ensures !r.ok ==> r.fs == f
  {
    match WriteFile(f, p, text)
    case None => Step(false, f, [])
    case Some(g) => Step(true, g, [])
  }

  /** `executeSubprocess(args, folder, env)` */
  function ExecStep(c: Config, f: Fs, args: seq<string>, cwd: Option<string>, env: Option<map<string, string>>): Step {
    Step(true, f + c.runEffect(args), [Exec(args, cwd, env)])
  }

  /** `downloadAndExtract(urls, dest, isZip, hash)` */
  function DownloadStep(c: Config, f: Fs, urls: seq<string>, dest: string, isZip: bool, checksum: Option<string>): Step {
    Step(true, f + c.unpack(urls, dest), [Download(urls, dest, isZip, checksum)])
  }

  /** `readVar`: the text of `<build root>/_env/<name>.txt`, absent where `open` raises. */
  function ReadVar(c: Config, f: Fs, name: string): (r: Option<string>)
    ensures r.Some? <==> IsFile(f, VarPath(c.Sep(), c.buildRoot, name))
    ensures r.Some? ==> f[VarPath(c.Sep(), c.buildRoot, name)] == File(r.value)
  {
    var p := VarPath(c.Sep(), c.buildRoot, name);
    if IsFile(f, p) then Some(f[p].text) else None
  }

  /** `clean`: the whole installation root goes, if it is a directory. */
  function CleanStep(c: Config, f: Fs): (r: Step)
    ensures r.ok && r.events == [CleanCalled]
    ensures IsDir(f, c.path) ==> Absent(r.fs, c.Sep(), c.path)
    ensures forall p :: !AtOrUnder(c.Sep(), p, c.path) ==> (p in r.fs <==> p in f) && (p in f ==> r.fs[p] == f[p])
    ensures !IsDir(f, c.path) ==> r.fs == f
  {
    Step(true, if IsDir(f, c.path) then RemoveTree(f, c.Sep(), c.path) else f, [CleanCalled])
  }

  /** After `clean` of an existing root the executable is gone, so `bootstrap` always fetches. */
  lemma CleanForcesDownload(c: Config, f: Fs)
    requires IsDir(f, c.path)
    ensures NeedsDownload(c, CleanStep(c, f).fs)
  {
    JoinIsUnder(c.Sep(), c.path, ExeName(c.host));
  }

  /**
   * `copyEnv`: `<root>/_env` is replaced by a copy of `<build root>/_env`. It fails when the old
   * one is not a directory (`rmtree` raises) or the source is not a directory (`copytree` raises).
   */
  function CopyEnvStep(c: Config, f: Fs): (r: Step)
    ensures r.events == [CopyEnvCalled]
    ensures Disjoint(c.Sep(), c.SourceEnvDir(), c.EnvDir()) ==>
      (r.ok <==> IsDir(f, c.SourceEnvDir()) && (c.EnvDir() !in f || IsDir(f, c.EnvDir())))
    ensures forall p :: !AtOrUnder(c.Sep(), p, c.EnvDir()) ==> (p in r.fs <==> p in f) && (p in f ==> r.fs[p] == f[p])
    ensures r.ok && Disjoint(c.Sep(), c.SourceEnvDir(), c.EnvDir()) ==> IsDir(f, c.SourceEnvDir())
    ensures r.ok && Disjoint(c.Sep(), c.SourceEnvDir(), c.EnvDir()) &&
            (IsDir(f, c.EnvDir()) || Absent(f, c.Sep(), c.EnvDir())) ==>
      Mirrors(r.fs, c.Sep(), c.EnvDir(), f, c.SourceEnvDir())
  {
    var sep, src, dest := c.Sep(), c.SourceEnvDir(), c.EnvDir();
    if dest in f && !IsDir(f, dest) then Step(false, f, [CopyEnvCalled])
    else
      var g := if dest in f then RemoveTree(f, sep, dest) else f;
      assert Absent(f, sep, dest) ==> Absent(g, sep, dest);
      assert Disjoint(sep, src, dest) ==> (forall p :: AtOrUnder(sep, p, src) ==> !AtOrUnder(sep, p, dest)) by {
        if Disjoint(sep, src, dest) {
          forall p | AtOrUnder(sep, p, src) ensures !AtOrUnder(sep, p, dest) {
            if AtOrUnder(sep, p, dest) { NestedPaths(sep, p, src, dest); }
          }
        }
      }
      match CopyTree(g, sep, src, dest)
      case None => Step(false, g, [CopyEnvCalled])
      case Some(h) => Step(true, h, [CopyEnvCalled])
  }

  /** Two paths at or under each of two roots force one root to be at or under the other. */
  lemma NestedPaths(sep: char, p: string, a: string, b: string)
    requires AtOrUnder(sep, p, a) && AtOrUnder(sep, p, b)
    ensures AtOrUnder(sep, a, b) || AtOrUnder(sep, b, a)
  {
    if |a| <= |b| {
      assert b[..|a|] == p[..|a|] == a;
      if |a| < |b| {
        assert b[|a|] == p[|a|];
      }
    } else {
      assert a[..|b|] == p[..|b|] == b;
      assert a[|b|] == p[|b|];
    }
  }

  /** The test `bootstrap` makes after `clean` to decide whether to fetch the tool. */
  predicate NeedsDownload(c: Config, f: Fs) {
    c.forceBootstrap || !IsFile(f, c.Exe()) || !IsFile(f, c.RootMarker())
  }

  function CloneArgs(c: Config): seq<string> {
    ["git", "clone", VcpkgRepoUrl, c.path]
  }

  /** Fetching the tool: clone and build it when HIFI_VCPKG_BOOTSTRAP is set, else download the binary. */
  function FetchStep(c: Config, f: Fs): (r: Step)
    ensures r.ok
    ensures BootstrapVar in c.env ==>
      r.events == [Exec(CloneArgs(c), None, None), Exec(c.BootstrapCmds(), Some(c.path), Some(c.BootstrapEnv()))]
    ensures BootstrapVar !in c.env ==> r.events == [Download(c.vcpkgUrl, c.path, false, None)]
  {
    if BootstrapVar in c.env then
      var cloned := ExecStep(c, f, CloneArgs(c), None, None);
      Then(cloned, ExecStep(c, cloned.fs, c.BootstrapCmds(), Some(c.path), Some(c.BootstrapEnv())))
    else DownloadStep(c, f, c.vcpkgUrl, c.path, false, None)
  }

  /** Some event of `events` fetches the tool: a subprocess or a download. */
  predicate Fetches(events: seq<Event>) {
    exists i :: 0 <= i < |events| && (events[i].Exec? || events[i].Download?)
  }

  lemma FetchesAppendQuiet(a: seq<Event>, b: seq<Event>)
    requires forall i :: 0 <= i < |b| ==> !b[i].Exec? && !b[i].Download?
    ensures Fetches(a + b) == Fetches(a)
  {
    if Fetches(a + b) {
      var i :| 0 <= i < |a + b| && ((a + b)[i].Exec? || (a + b)[i].Download?);
      assert i < |a| && (a + b)[i] == a[i];
    }
    if Fetches(a) {
      var i :| 0 <= i < |a| && (a[i].Exec? || a[i].Download?);
      assert (a + b)[i] == a[i];
    }
  }

  /** The first half of a real bootstrap: `clean`, then the fetch when it is needed. */
  function Prepared(c: Config, f: Fs): (r: Step)
    ensures r.ok
    ensures |r.events| >= 1 && r.events[0] == CleanCalled
    ensures Fetches(r.events) <==> NeedsDownload(c, CleanStep(c, f).fs)
  {
    var cleaned := CleanStep(c, f);
    var fetched := if NeedsDownload(c, cleaned.fs) then FetchStep(c, cleaned.fs) else Step(true, cleaned.fs, []);
    var r := Then(cleaned, fetched);
    assert r.events == [CleanCalled] + fetched.events;
    assert NeedsDownload(c, cleaned.fs) ==> r.events[1].Exec? || r.events[1].Download?;
    r
  }

  /**
   * Replacing `<root>/ports` by a copy of the custom ports: a symbolic link is unlinked, a directory
   * removed, then the copy made; `copytree` raises when the source is not a directory or when
   * something (a regular file) is still in the way.
   */
  function ReplacePortsStep(c: Config, f: Fs): (r: Step)
    ensures r.events == []
    ensures r.ok <==> (IsDir(f, c.sourcePortsPath) &&
      (c.PortsDir() !in f || IsLink(f, c.PortsDir()) ||
       (IsDir(f, c.PortsDir()) && !AtOrUnder(c.Sep(), c.sourcePortsPath, c.PortsDir()))))
    ensures forall p :: !AtOrUnder(c.Sep(), p, c.PortsDir()) ==> (p in r.fs <==> p in f) && (p in f ==> r.fs[p] == f[p])
    ensures r.ok && Disjoint(c.Sep(), c.sourcePortsPath, c.PortsDir()) &&
            (IsDir(f, c.PortsDir()) || Absent(f - {c.PortsDir()}, c.Sep(), c.PortsDir())) ==>
      Mirrors(r.fs, c.Sep(), c.PortsDir(), f, c.sourcePortsPath)
  {
    var sep, ports, src := c.Sep(), c.PortsDir(), c.sourcePortsPath;
    var g := if IsLink(f, ports) then f - {ports} else f;
    var h := if IsDir(g, ports) then RemoveTree(g, sep, ports) else g;
    assert forall p :: AtOrUnder(sep, p, src) && Disjoint(sep, src, ports) ==> !AtOrUnder(sep, p, ports) by {
      forall p | AtOrUnder(sep, p, src) && Disjoint(sep, src, ports) ensures !AtOrUnder(sep, p, ports) {
        if AtOrUnder(sep, p, ports) { NestedPaths(sep, p, src, ports); }
      }
    }
    match CopyTree(h, sep, src, ports)
    case None => Step(false, h, [])
    case Some(k) => Step(true, k, [])
  }

  /** `bootstrap` */
  function BootstrapStep(c: Config, f: Fs): Step {
    if UpToDate(c, f) then CopyEnvStep(c, f)
    else if c.prebuiltArchive.Some? then Step(true, f, [])
    else
      var prepared := Prepared(c, f);
      var replaced := ReplacePortsStep(c, prepared.fs);
      Then(prepared, Then(replaced, CopyEnvStep(c, replaced.fs)))
  }

  /** An up-to-date installation only gets its passed-through variables refreshed. */
  lemma BootstrapWhenUpToDate(c: Config, f: Fs)
    requires UpToDate(c, f)
    ensures BootstrapStep(c, f).events == [CopyEnvCalled]
    ensures forall p :: !AtOrUnder(c.Sep(), p, c.EnvDir()) ==>
      (p in BootstrapStep(c, f).fs <==> p in f) && (p in f ==> BootstrapStep(c, f).fs[p] == f[p])
  {
  }

  /** With a prebuilt archive configured, an out-of-date bootstrap leaves everything alone. */
  lemma BootstrapWithPrebuiltArchive(c: Config, f: Fs)
    requires !UpToDate(c, f) && c.prebuiltArchive.Some?
    ensures BootstrapStep(c, f) == Step(true, f, [])
  {
  }

  /**
   * An explicitly given installation is left to its owner: it counts as up to date, `bootstrap`
   * never cleans it, and neither the tag nor the build trees are touched.
   */
  lemma NoCleanNeverCleans(c: Config, f: Fs)
    requires c.noClean
    ensures UpToDate(c, f)
    ensures CleanCalled !in BootstrapStep(c, f).events
    ensures WriteTagStep(c, f) == Step(true, f, []) && CleanBuildsStep(c, f) == Step(true, f, [])
  {
  }

  /**
   * A real bootstrap starts with `clean`, and the tool is fetched exactly when the cleaned
   * installation lacks the executable or the root marker, or a fetch is forced.
   */
  lemma BootstrapFetchesExactlyWhenNeeded(c: Config, f: Fs)
    requires !UpToDate(c, f) && c.prebuiltArchive.None?
    ensures BootstrapStep(c, f).events[0] == CleanCalled
    ensures Fetches(BootstrapStep(c, f).events) <==> NeedsDownload(c, CleanStep(c, f).fs)
  {
    var prepared := Prepared(c, f);
    var later := BootstrapEvents(c, f);
    FetchesAppendQuiet(prepared.events, later);
  }

  /** The events of a real bootstrap: those of `Prepared`, then `copyEnv` once the ports are in place. */
  lemma BootstrapEvents(c: Config, f: Fs) returns (later: seq<Event>)
    requires !UpToDate(c, f) && c.prebuiltArchive.None?
    ensures later == (if ReplacePortsStep(c, Prepared(c, f).fs).ok then [CopyEnvCalled] else [])
    ensures BootstrapStep(c, f).events == Prepared(c, f).events + later
  {
    var prepared := Prepared(c, f);
    var replaced := ReplacePortsStep(c, prepared.fs);
    var env := CopyEnvStep(c, replaced.fs);
    assert BootstrapStep(c, f) == Then(prepared, Then(replaced, env));
    later := if replaced.ok then env.events else [];
    assert replaced.events == [];
    assert Then(replaced, env).events == later;
  }

  /** `ports` and `_env` are distinct children of the installation root. */
  lemma PortsAndEnvDisjoint(c: Config, p: string)
    requires AtOrUnder(c.Sep(), p, c.PortsDir())
    ensures !AtOrUnder(c.Sep(), p, c.EnvDir())
  {
    SiblingsDisjoint(c.Sep(), c.path, "ports", "_env", p);
  }

  /** A subtree copy survives changes that do not touch the copy. */
  lemma MirrorsKept(g: Fs, h: Fs, sep: char, dst: string, f: Fs, src: string)
    requires Mirrors(g, sep, dst, f, src)
    requires forall p :: AtOrUnder(sep, p, dst) ==> (p in h <==> p in g) && (p in g ==> h[p] == g[p])
    ensures Mirrors(h, sep, dst, f, src)
  {
  }

  /**
   * After a successful real bootstrap, `<root>/ports` is exactly the custom ports tree as it was
   * when the copy was made (after the clean and the fetch).
   */
  lemma BootstrapInstallsPorts(c: Config, f: Fs)
    requires !UpToDate(c, f) && c.prebuiltArchive.None? && BootstrapStep(c, f).ok
    requires Disjoint(c.Sep(), c.sourcePortsPath, c.PortsDir())
    requires var g := Prepared(c, f).fs; IsDir(g, c.PortsDir()) || Absent(g - {c.PortsDir()}, c.Sep(), c.PortsDir())
    ensures Mirrors(BootstrapStep(c, f).fs, c.Sep(), c.PortsDir(), Prepared(c, f).fs, c.sourcePortsPath)
  {
    var prepared := Prepared(c, f);
    var replaced := ReplacePortsStep(c, prepared.fs);
    var env := CopyEnvStep(c, replaced.fs);
    assert replaced.ok;
    assert BootstrapStep(c, f).fs == env.fs;
    forall p | AtOrUnder(c.Sep(), p, c.PortsDir())
      ensures (p in env.fs <==> p in replaced.fs) && (p in replaced.fs ==> env.fs[p] == replaced.fs[p])
    {
      PortsAndEnvDisjoint(c, p);
    }
    MirrorsKept(replaced.fs, env.fs, c.Sep(), c.PortsDir(), prepared.fs, c.sourcePortsPath);
  }

  /** `[exe, '--vcpkg-root', root] + commands` */
  function RunArgs(c: Config, commands: seq<string>): seq<string> {
    [c.Exe(), "--vcpkg-root", c.path] + commands
  }

  /** `run`: the tool runs in the installation root with the build environment. */
  function RunStep(c: Config, f: Fs, buildEnv: map<string, string>, commands: seq<string>): (r: Step)
    ensures r.ok && r.events == [Exec(RunArgs(c, commands), Some(c.path), Some(buildEnv))]
    ensures |r.events[0].args| == |commands| + 3 && r.events[0].args[3..] == commands
    ensures forall p :: p in f && p !in c.runEffect(RunArgs(c, commands)) ==> p in r.fs && r.fs[p] == f[p]
  {
    ExecStep(c, f, RunArgs(c, commands), Some(c.path), Some(buildEnv))
  }

  /**
   * `copyTripletForBuildType`: `<t>-<build type>.cmake` becomes a copy of `<t>.cmake` with the
   * build-type directive appended. `shutil.copy` raises for a missing source and for a copy onto
   * itself (no build type); when the target is a directory the copy lands inside it and the
   * append then raises.
   */
  function CopyTripletStep(c: Config, f: Fs, triplet: string): (r: Step)
    ensures r.events == []
    ensures r.ok <==> c.buildType != "" && IsFile(f, TripletFile(c, triplet)) &&
                      !IsDir(f, TripletFile(c, TripletWithBuildType(c.buildType, triplet)))
    ensures r.ok ==> var dst := TripletFile(c, TripletWithBuildType(c.buildType, triplet));
      IsFile(r.fs, dst) && r.fs[dst].text == f[TripletFile(c, triplet)].text + BuildTypeDirective(c.buildType) &&
      forall p :: p != dst ==> (p in r.fs <==> p in f) && (p in f ==> r.fs[p] == f[p])
  {
    var src := TripletFile(c, triplet);
    var dst := TripletFile(c, TripletWithBuildType(c.buildType, triplet));
    if !IsFile(f, src) || c.buildType == "" then Step(false, f, [])
    else if IsDir(f, dst) then
      match WriteFile(f, Join(c.Sep(), dst, triplet + ".cmake"), f[src].text)
      case None => Step(false, f, [])
      case Some(g) => Step(false, g, [])
    else Step(true, f[dst := File(f[src].text + BuildTypeDirective(c.buildType))], [])
  }

  /** With a build type the derived file is never the source file, which is left as it was. */
  lemma CopyTripletKeepsSource(c: Config, f: Fs, triplet: string)
    requires CopyTripletStep(c, f, triplet).ok
    ensures CopyTripletStep(c, f, triplet).fs[TripletFile(c, triplet)] == f[TripletFile(c, triplet)]
  {
    var derived := TripletWithBuildType(c.buildType, triplet);
    DerivedTripletIsNew(c.buildType, triplet);
    if TripletFile(c, triplet) == TripletFile(c, derived) {
      TripletFileInjective(c, triplet, derived);
    }
  }

  /** The install command for one triplet and one top-level port. */
  function InstallCommand(triplet: string, port: string): seq<string> {
    ["install", "--triplet", triplet, port]
  }

  /** A non-empty prebuilt archive list: the truth test `setupDependencies` makes. */
  predicate PrebuiltMode(c: Config) {
    c.prebuiltArchive.Some? && |c.prebuiltArchive.value| > 0
  }

  /** The build environment after `setupDependencies`. */
  function SetupEnv(c: Config, buildEnv: map<string, string>, qt: Option<string>): (r: map<string, string>)
    ensures qt.Some? && !PrebuiltMode(c) ==> QtPrefixVar in r && r[QtPrefixVar] == qt.value
    ensures forall k :: k != QtPrefixVar ==> (k in r <==> k in buildEnv) && (k in buildEnv ==> r[k] == buildEnv[k])
    ensures qt.None? || PrebuiltMode(c) ==> r == buildEnv
  {
    if PrebuiltMode(c) || qt.None? then buildEnv else buildEnv[QtPrefixVar := qt.value]
  }

  /** Install the top-level port for one triplet, deriving the build-type triplet first when needed. */
  function InstallStep(c: Config, f: Fs, buildEnv: map<string, string>, triplet: string, port: string): Step {
    var copied := if c.buildType != "" then CopyTripletStep(c, f, triplet) else Step(true, f, []);
    Then(copied, RunStep(c, copied.fs, buildEnv, InstallCommand(TripletWithBuildType(c.buildType, triplet), port)))
  }

  /** Prebuilt mode: extract the archive into the root once, recorded by the prebuilt tag. */
  function PrebuiltSetupStep(c: Config, f: Fs): Step
    requires PrebuiltMode(c)
  {
    if IsFile(f, c.PrebuildTagFile()) then Step(true, f, [])
    else
      var fetched := DownloadStep(c, f, c.prebuiltArchive.value, c.path, false, None);
      Then(fetched, WritePrebuildTagStep(c, fetched.fs))
  }

  /** The top-level ports `setupDependencies` installs. */
  const HostToolsPort := "hifi-host-tools"
  const ClientDepsPort := "hifi-client-deps"

  /** The installs of `setupDependencies`, with the build environment already set. */
  function InstallAllStep(c: Config, f: Fs, env: map<string, string>): Step {
    var android := if c.android then AndroidStep(c, f) else Step(true, f, []);
    Then(android, ToolsStep(c, android.fs, env))
  }

  /** The host-tools install, then the client-libraries install unless targeting Android. */
  function ToolsStep(c: Config, f: Fs, env: map<string, string>): Step {
    var host := InstallStep(c, f, env, c.HostTriplet(), HostToolsPort);
    if c.android then host else Then(host, InstallStep(c, host.fs, env, c.Triplet(), ClientDepsPort))
  }

  /** `setupDependencies(qt)` */
  function SetupStep(c: Config, f: Fs, buildEnv: map<string, string>, qt: Option<string>): Step {
    if PrebuiltMode(c) then PrebuiltSetupStep(c, f) else InstallAllStep(c, f, SetupEnv(c, buildEnv, qt))
  }

  /** The argument lists of the subprocesses among `events`, in order. */
  function ExecArgs(events: seq<Event>): (r: seq<seq<string>>)
    ensures |r| <= |events|
  {
    if events == [] then []
    else (if events[0].Exec? then [events[0].args] else []) + ExecArgs(events[1..])
  }

  lemma {:induction false} ExecArgsAppend(a: seq<Event>, b: seq<Event>)
    ensures ExecArgs(a + b) == ExecArgs(a) + ExecArgs(b)
    decreases |a|
  {
    if a == [] {
      assert a + b == b;
    } else {
      var t := a[1..];
      assert (a + b)[0] == a[0];
      assert (a + b)[1..] == t + b;
      ExecArgsAppend(t, b);
      var h := if a[0].Exec? then [a[0].args] else [];
      assert ExecArgs(a + b) == h + ExecArgs(t + b);
      assert ExecArgs(a) == h + ExecArgs(t);
      assert h + (ExecArgs(t) + ExecArgs(b)) == (h + ExecArgs(t)) + ExecArgs(b);
    }
  }

  /** The tool commands a successful install runs. */
  function InstallExecs(c: Config, triplet: string, port: string): seq<seq<string>> {
    [RunArgs(c, InstallCommand(TripletWithBuildType(c.buildType, triplet), port))]
  }

  lemma InstallStepExecs(c: Config, f: Fs, buildEnv: map<string, string>, triplet: string, port: string)
    ensures InstallStep(c, f, buildEnv, triplet, port).ok ==> ExecArgs(InstallStep(c, f, buildEnv, triplet, port).events) == InstallExecs(c, triplet, port)
  {
    var r := InstallStep(c, f, buildEnv, triplet, port);
    if r.ok {
      var e := r.events[0];
      assert r.events == [e];
      assert ExecArgs([e]) == [e.args] + ExecArgs([]);
    }
  }

  /**
   * The install order of a successful non-prebuilt setup: the host tools are installed with the
   * host triplet, then (unless building for Android) the client libraries with the target triplet;
   * on Android nothing but downloads happens before the host tools.
   */
  lemma SetupInstallOrder(c: Config, f: Fs, buildEnv: map<string, string>, qt: Option<string>)
    requires !PrebuiltMode(c) && SetupStep(c, f, buildEnv, qt).ok
    ensures ExecArgs(SetupStep(c, f, buildEnv, qt).events) ==
      InstallExecs(c, c.HostTriplet(), HostToolsPort) +
      (if c.android then [] else InstallExecs(c, c.Triplet(), ClientDepsPort))
  {
    var env := SetupEnv(c, buildEnv, qt);
    var android := if c.android then AndroidStep(c, f) else Step(true, f, []);
    var hostInstall := InstallStep(c, android.fs, env, c.HostTriplet(), HostToolsPort);
    var host := Then(android, hostInstall);
    assert android.ok && hostInstall.ok;
    if c.android { AndroidStepOnlyDownloads(c, f); }
    assert ExecArgs(android.events) == [];
    InstallStepExecs(c, android.fs, env, c.HostTriplet(), HostToolsPort);
    ExecArgsAppend(android.events, hostInstall.events);
    if !c.android {
      var client := InstallStep(c, host.fs, env, c.Triplet(), ClientDepsPort);
      InstallStepExecs(c, host.fs, env, c.Triplet(), ClientDepsPort);
      ExecArgsAppend(host.events, client.events);
    }
  }

  /** Once a prebuilt setup has succeeded, running it again does nothing. */
  lemma PrebuiltSetupIdempotent(c: Config, f: Fs, buildEnv: map<string, string>, qt: Option<string>)
    requires PrebuiltMode(c) && SetupStep(c, f, buildEnv, qt).ok
    ensures var g := SetupStep(c, f, buildEnv, qt).fs; SetupStep(c, g, buildEnv, qt) == Step(true, g, [])
  {
  }

  /** Where one Android package is extracted. */
  function PackageDest(c: Config, pkg: AndroidPackage): string {
    Join(c.Sep(), c.androidPackagePath, pkg.name)
  }

  /** One package of the catalog: skipped when its directory exists, otherwise downloaded with its checksum. */
  function PackageStep(c: Config, f: Fs, pkg: AndroidPackage): (r: Step)
    ensures IsDir(f, PackageDest(c, pkg)) ==> r == Step(true, f, [])
    ensures !IsDir(f, PackageDest(c, pkg)) ==>
      r.ok && r.events == [Download(pkg.urls, PackageDest(c, pkg), EndsWith(pkg.file, ".zip"), Some(pkg.checksum))]
  {
    var dest := PackageDest(c, pkg);
    if IsDir(f, dest) then Step(true, f, [])
    else DownloadStep(c, f, pkg.urls, dest, EndsWith(pkg.file, ".zip"), Some(pkg.checksum))
  }

  /** The package loop, in catalog order. */
  function PackagesStep(c: Config, f: Fs, pkgs: seq<AndroidPackage>): Step
    decreases |pkgs|
  {
    if pkgs == [] then Step(true, f, [])
    else
      var first := PackageStep(c, f, pkgs[0]);
      Then(first, PackagesStep(c, first.fs, pkgs[1..]))
  }

  /** The prebuilt Android vcpkg tree, fetched unless `installed/arm64-android` is there. */
  function AndroidTreeStep(c: Config, f: Fs): (r: Step)
    ensures forall i :: 0 <= i < |r.events| ==> r.events[i].Download?
    ensures IsDir(f, Join(c.Sep(), c.Installed(), AndroidTriplet)) ==> r == Step(true, f, [])
    ensures !IsDir(f, Join(c.Sep(), c.Installed(), AndroidTriplet)) ==>
      match ReadVar(c, f, AndroidUrlsVar)
      case None => r == Step(false, f, [])
      case Some(urls) => r.ok && r.events == [Download(Split(urls, ';'), c.Installed(), false, None)]
  {
    if IsDir(f, Join(c.Sep(), c.Installed(), AndroidTriplet)) then Step(true, f, [])
    else match ReadVar(c, f, AndroidUrlsVar)
      case None => Step(false, f, [])
      case Some(urls) => DownloadStep(c, f, Split(urls, ';'), c.Installed(), false, None)
  }

  /** `setupAndroidDependencies`: the prebuilt Android vcpkg tree, then the package catalog. */
  function AndroidStep(c: Config, f: Fs): Step {
    var tree := AndroidTreeStep(c, f);
    Then(tree, PackagesStep(c, tree.fs, c.androidPackages))
  }

  lemma EventsAssoc(t: seq<Event>, a: seq<Event>, b: seq<Event>)
    ensures t + (a + b) == (t + a) + b
  {
  }

  lemma PackagesCons(c: Config, f: Fs, pkgs: seq<AndroidPackage>)
    requires pkgs != []
    ensures var first := PackageStep(c, f, pkgs[0]); var rest := PackagesStep(c, first.fs, pkgs[1..]);
      PackagesStep(c, f, pkgs) == Step(rest.ok, rest.fs, first.events + rest.events)
  {
  }

  /** The package loop cannot fail: a download is not modelled as failing. */
  lemma {:induction false} PackagesSucceed(c: Config, f: Fs, pkgs: seq<AndroidPackage>)
    ensures PackagesStep(c, f, pkgs).ok
    decreases |pkgs|
  {
    if pkgs != [] {
      var first := PackageStep(c, f, pkgs[0]);
      PackagesSucceed(c, first.fs, pkgs[1..]);
    }
  }

  /** Every download of the package loop is checksum-verified and goes to its package's directory. */
  lemma {:induction false} PackagesAreVerified(c: Config, f: Fs, pkgs: seq<AndroidPackage>)
    ensures var r := PackagesStep(c, f, pkgs);
      r.ok && forall i :: 0 <= i < |r.events| ==>
        r.events[i].Download? && r.events[i].checksum.Some? &&
        exists j :: 0 <= j < |pkgs| && r.events[i].dest == PackageDest(c, pkgs[j]) && r.events[i].checksum.value == pkgs[j].checksum
    decreases |pkgs|
  {
    if pkgs != [] {
      var first := PackageStep(c, f, pkgs[0]);
      var rest := PackagesStep(c, first.fs, pkgs[1..]);
      PackagesAreVerified(c, first.fs, pkgs[1..]);
      var r := PackagesStep(c, f, pkgs);
      assert r.events == first.events + rest.events;
      forall i | 0 <= i < |r.events|
        ensures r.events[i].Download? && r.events[i].checksum.Some? &&
          exists j :: 0 <= j < |pkgs| && r.events[i].dest == PackageDest(c, pkgs[j]) && r.events[i].checksum.value == pkgs[j].checksum
      {
        if i < |first.events| {
          assert r.events[i].dest == PackageDest(c, pkgs[0]);
        } else {
          var e := rest.events[i - |first.events|];
          assert r.events[i] == e;
          var j :| 0 <= j < |pkgs[1..]| && e.dest == PackageDest(c, pkgs[1..][j]) && e.checksum.value == pkgs[1..][j].checksum;
          assert pkgs[1..][j] == pkgs[j + 1];
        }
      }
    }
  }

  /** When every package directory is already there, the loop downloads nothing. */
  lemma {:induction false} PackagesAllPresent(c: Config, f: Fs, pkgs: seq<AndroidPackage>)
    requires forall i :: 0 <= i < |pkgs| ==> IsDir(f, PackageDest(c, pkgs[i]))
    ensures PackagesStep(c, f, pkgs) == Step(true, f, [])
    decreases |pkgs|
  {
    if pkgs != [] {
      assert IsDir(f, PackageDest(c, pkgs[0]));
      assert forall i :: 0 <= i < |pkgs[1..]| ==> pkgs[1..][i] == pkgs[i + 1];
      PackagesAllPresent(c, f, pkgs[1..]);
    }
  }

  /** The Android step only downloads: it runs no subprocess. */
  lemma AndroidStepOnlyDownloads(c: Config, f: Fs)
    ensures ExecArgs(AndroidStep(c, f).events) == []
  {
    var tree := AndroidTreeStep(c, f);
    var pkgs := PackagesStep(c, tree.fs, c.androidPackages);
    PackagesAreVerified(c, tree.fs, c.androidPackages);
    NoExecs(tree.events);
    NoExecs(pkgs.events);
    ExecArgsAppend(tree.events, pkgs.events);
  }

  lemma {:induction false} NoExecs(events: seq<Event>)
    requires forall i :: 0 <= i < |events| ==> !events[i].Exec?
    ensures ExecArgs(events) == []
    decreases |events|
  {
    if events != [] {
      assert forall i :: 0 <= i < |events[1..]| ==> events[1..][i] == events[i + 1];
      NoExecs(events[1..]);
    }
  }

  /** `cleanBuilds`: the build trees go, unless the installation was given explicitly. */
  function CleanBuildsStep(c: Config, f: Fs): (r: Step)
    ensures r.ok && r.events == []
    ensures c.noClean ==> r.fs == f
    ensures !c.noClean && IsDir(f, c.BuildTrees()) ==> Absent(r.fs, c.Sep(), c.BuildTrees())
    ensures forall p :: !AtOrUnder(c.Sep(), p, c.BuildTrees()) ==> (p in r.fs <==> p in f) && (p in f ==> r.fs[p] == f[p])
  {
    if c.noClean || !IsDir(f, c.BuildTrees()) then Step(true, f, [])
    else Step(true, RemoveTree(f, c.Sep(), c.BuildTrees()), [])
  }

  /** `writeTag`: create the root if needed (`makedirs` raises over a non-directory), then write the tag. */
  function WriteTagStep(c: Config, f: Fs): (r: Step)
    ensures r.events == []
    ensures c.noClean ==> r == Step(true, f, [])
    ensures !c.noClean ==> (r.ok <==> !(c.path in f && !IsDir(f, c.path)) && !IsDir(f, c.TagFile()))
    ensures !c.noClean && r.ok ==> IsDir(r.fs, c.path) && IsFile(r.fs, c.TagFile()) && r.fs[c.TagFile()].text == c.TagContents()
    ensures r.ok ==> forall p :: p != c.path && p != c.TagFile() ==> (p in r.fs <==> p in f) && (p in f ==> r.fs[p] == f[p])
  {
    if c.noClean then Step(true, f, [])
    else if c.path in f && !IsDir(f, c.path) then Step(false, f, [])
    else
      var g := f[c.path := Dir];
      assert c.TagFile() != c.path;
      match WriteFile(g, c.TagFile(), c.TagContents())
      case None => Step(false, g, [])
      case Some(h) => Step(true, h, [])
  }

  /** Writing the tag of an installation whose executable is there makes it up to date. */
  lemma WriteTagMakesUpToDate(c: Config, f: Fs)
    requires WriteTagStep(c, f).ok && !c.forceBuild && IsFile(f, c.Exe())
    ensures UpToDate(c, WriteTagStep(c, f).fs)
  {
    if !c.noClean {
      assert c.Exe() != c.TagFile() by {
        assert c.Exe()[|c.path| + 1..] == ExeName(c.host);
        assert c.TagFile()[|c.path| + 1..] == ".id";
      }
    }
  }

  /** `writePrebuildTag`: the identity into `<root>/.prebuild`. */
  function WritePrebuildTagStep(c: Config, f: Fs): (r: Step)
    ensures r.events == []
    ensures r.ok <==> !IsDir(f, c.PrebuildTagFile())
    ensures r.ok ==> IsFile(r.fs, c.PrebuildTagFile()) && r.fs[c.PrebuildTagFile()].text == c.TagContents()
    ensures r.ok ==> forall p :: p != c.PrebuildTagFile() ==> (p in r.fs <==> p in f) && (p in f ==> r.fs[p] == f[p])
  {
    WriteStep(f, c.PrebuildTagFile(), c.TagContents())
  }

  /** The directive `fixupCmakeScript` strips from the generated toolchain script. */
  const RemovalPrefix: string := "set(VCPKG_TARGET_TRIPLET "

  /** Some line of `lines` sets the target triplet, so the fix-up drops it. */
  predicate AnyDropped(lines: seq<string>) {
    exists i :: 0 <= i < |lines| && StartsWith(lines[i], RemovalPrefix)
  }

  /** The toolchain-script text after the fix-up: the lines that do not set the target triplet. */
  function FixedScript(text: string): string {
    Concat(DropPrefixed(Lines(text), RemovalPrefix))
  }

  /** The lines of the fixed script are exactly the kept lines of the original, in order. */
  lemma FixedScriptLines(text: string)
    ensures Lines(FixedScript(text)) == DropPrefixed(Lines(text), RemovalPrefix)
  {
    LinesAreLineList(text);
    DropPrefixedLineList(Lines(text), RemovalPrefix);
    LinesOfLineList(DropPrefixed(Lines(text), RemovalPrefix));
  }

  /** Each kept line occurs as often as in the original; no line setting the triplet is left. */
  lemma FixedScriptCounts(text: string, line: string)
    ensures multiset(Lines(FixedScript(text)))[line] ==
      if StartsWith(line, RemovalPrefix) then 0 else multiset(Lines(text))[line]
  {
    FixedScriptLines(text);
    DropPrefixedCounts(Lines(text), RemovalPrefix, line);
  }

  /** A script with no line setting the triplet is its own fix-up. */
  lemma FixedScriptUnchanged(text: string)
    requires forall i :: 0 <= i < |Lines(text)| ==> !StartsWith(Lines(text)[i], RemovalPrefix)
    ensures FixedScript(text) == text
  {
    DropPrefixedUnchanged(Lines(text), RemovalPrefix);
  }

  /**
   * `fixupCmakeScript`: the temporary `.new` copy keeps the lines that do not set the target
   * triplet; it replaces the script when a line was dropped and is removed otherwise.
   */
  function FixupStep(c: Config, f: Fs): (r: Step)
    ensures r.events == []
    ensures r.ok <==> IsFile(f, c.CmakeScript()) && !IsDir(f, c.CmakeScript() + ".new")
    ensures r.ok ==> c.CmakeScript() + ".new" !in r.fs
    ensures r.ok ==> IsFile(r.fs, c.CmakeScript()) && r.fs[c.CmakeScript()].text == FixedScript(f[c.CmakeScript()].text)
    ensures r.ok && !AnyDropped(Lines(f[c.CmakeScript()].text)) ==> r.fs[c.CmakeScript()] == f[c.CmakeScript()]
    ensures forall p :: p != c.CmakeScript() && p != c.CmakeScript() + ".new" ==>
      (p in r.fs <==> p in f) && (p in f ==> r.fs[p] == f[p])
  {
    var script := c.CmakeScript();
    var tmp := script + ".new";
    if !IsFile(f, script) || IsDir(f, tmp) then Step(false, f, [])
    else
      var lines := Lines(f[script].text);
      if AnyDropped(lines) then
        Step(true, (f - {tmp})[script := File(FixedScript(f[script].text))], [])
      else
        assert script != tmp by { assert |tmp| == |script| + 4; }
        FixedScriptUnchanged(f[script].text);
        Step(true, f - {tmp}, [])
  }

  // ---------------------------------------------------------------------------
  // The CMake configuration fragment
  // ---------------------------------------------------------------------------

  // The literal text is written in pieces of at most sixteen characters: the verifier reads a
  // literal character by character, and short pieces keep each of those checks small.

  /** The literal text of the CMake template around its five `{}` fields, in order. */
  const HeaderSegment: string :=
    "\n# this file " + "auto-generated " + "by hifi_vcpkg.py" + "\n" + "get_filename_" + "component(" +
    "CMAKE_TOOLCHAIN_" + "FILE \""
  const CachedSegment: string :=
    "\" ABSOLUTE " + "CACHE)\n" + "get_filename_" + "component(" + "CMAKE_TOOLCHAIN_" +
    "FILE_UNCACHED \""
  const UncachedSegment: string :=
    "\" ABSOLUTE)\n" + "set(VCPKG_" + "INSTALL_ROOT \""
  const InstallRootSegment: string :=
    "\")\n" + "set(VCPKG_" + "TOOLS_DIR \""
  const ToolsDirSegment: string :=
    "\")\n" + "set(VCPKG_" + "TARGET_TRIPLET \""
  const TripletSegment: string := "\")\n"

  function CmakeSegments(): seq<string> {
    [HeaderSegment, CachedSegment, UncachedSegment, InstallRootSegment, ToolsDirSegment, TripletSegment]
  }

  /** The class's CMake template: the segments with `{}` between each two. */
  function CmakeTemplate(): seq<Piece> {
    AutoTemplate(CmakeSegments())
  }

  /** The block appended for non-Android builds: stop when the cached toolchain path changed. */
  const GuardComment: string :=
    "\n# If the " + "cached cmake " + "toolchain path " + "is different " + "from the " +
    "computed one, " + "exit\n"
  const GuardCondition: string :=
    "if(NOT (" + "CMAKE_TOOLCHAIN_" + "FILE_UNCACHED " + "STREQUAL " + "CMAKE_TOOLCHAIN_" + "FILE))\n"
  const GuardMessage: string :=
    "    message(" + "FATAL_ERROR \"" + "CMAKE_TOOLCHAIN_" + "FILE has " + "changed, please " +
    "wipe the build " + "directory and " + "rerun cmake\")\n"
  const NonAndroidGuard: string := GuardComment + GuardCondition + GuardMessage + "endif()\n"

  /** The Android line template `set(HIFI_ANDROID_PRECOMPILED "{}")` and its line break. */
  const AndroidPrefix: string :=
    "set(HIFI_" + "ANDROID_" + "PRECOMPILED \""
  const AndroidSuffix: string := "\")\n"

  function AndroidLineTemplate(): seq<Piece> {
    AutoTemplate([AndroidPrefix, AndroidSuffix])
  }

  /** The Android line for a precompiled-packages path. */
  function AndroidLine(precompiled: string): string {
    Interleave([AndroidPrefix, AndroidSuffix], [precompiled])
  }

  /** The Android line is what formatting its template with the path gives. */
  lemma AndroidLineFormats(precompiled: string)
    ensures Format(Render(AndroidLineTemplate()), [precompiled]) == Some(AndroidLine(precompiled))
    ensures AndroidLine(precompiled) == AndroidPrefix + precompiled + AndroidSuffix
  {
    FormatRender(AndroidLineTemplate(), [precompiled]);
    FillAutoTemplate([AndroidPrefix, AndroidSuffix], [precompiled], 0, Unset);
    assert [precompiled][0..] == [precompiled];
  }

  // ---------------------------------------------------------------------------
  // Proof support: the template literals hold no brace and no backslash. The literals are
  // checked in chunks of at most sixteen characters (`*Plain`), which `LiteralsPlain` collects.
  // ---------------------------------------------------------------------------

  /** A character that stands for itself in a format string and that `.replace('\\', '/')` keeps. */
  predicate LiteralChar(ch: char) {
    ch != '{' && ch != '}' && ch != '\\'
  }

  /** Literal text: no brace and no backslash. */
  predicate Plain(s: string) {
    forall i :: 0 <= i < |s| ==> LiteralChar(s[i])
  }

  lemma PlainAppend(a: string, b: string)
    requires Plain(a) && Plain(b)
    ensures Plain(a + b)
  {
    assert forall i :: 0 <= i < |a + b| ==> (a + b)[i] == if i < |a| then a[i] else b[i - |a|];
  }

  lemma PlainNoBraces(s: string)
    requires Plain(s)
    ensures NoBraces(s)
  {
    assert forall i :: 0 <= i < |s| ==> LiteralChar(s[i]);
  }

  lemma HeaderPlain()
    ensures Plain(HeaderSegment)
  {
    assert Plain("\n# this file ");
    assert Plain("auto-generated ");
    assert Plain("by hifi_vcpkg.py");
    assert Plain("\n");
    assert Plain("get_filename_");
    assert Plain("component(");
    assert Plain("CMAKE_TOOLCHAIN_");
    assert Plain("FILE \"");
    PlainAppend("\n# this file ", "auto-generated ");
    PlainAppend("\n# this file " + "auto-generated ", "by hifi_vcpkg.py");
    PlainAppend("\n# this file " + "auto-generated " + "by hifi_vcpkg.py", "\n");
    PlainAppend("\n# this file " + "auto-generated " + "by hifi_vcpkg.py" + "\n", "get_filename_");
    PlainAppend("\n# this file " + "auto-generated " + "by hifi_vcpkg.py" + "\n" + "get_filename_", "component(");
    PlainAppend("\n# this file " + "auto-generated " + "by hifi_vcpkg.py" + "\n" + "get_filename_" + "component(", "CMAKE_TOOLCHAIN_");
    PlainAppend("\n# this file " + "auto-generated " + "by hifi_vcpkg.py" + "\n" + "get_filename_" + "component(" + "CMAKE_TOOLCHAIN_", "FILE \"");
  }

  lemma CachedPlain()
    ensures Plain(CachedSegment)
  {
    assert Plain("\" ABSOLUTE ");
    assert Plain("CACHE)\n");
    assert Plain("get_filename_");
    assert Plain("component(");
    assert Plain("CMAKE_TOOLCHAIN_");
    assert Plain("FILE_UNCACHED \"");
    PlainAppend("\" ABSOLUTE ", "CACHE)\n");
    PlainAppend("\" ABSOLUTE " + "CACHE)\n", "get_filename_");
    PlainAppend("\" ABSOLUTE " + "CACHE)\n" + "get_filename_", "component(");
    PlainAppend("\" ABSOLUTE " + "CACHE)\n" + "get_filename_" + "component(", "CMAKE_TOOLCHAIN_");
    PlainAppend("\" ABSOLUTE " + "CACHE)\n" + "get_filename_" + "component(" + "CMAKE_TOOLCHAIN_", "FILE_UNCACHED \"");
  }

  lemma UncachedPlain()
    ensures Plain(UncachedSegment)
  {
    assert Plain("\" ABSOLUTE)\n");
    assert Plain("set(VCPKG_");
    assert Plain("INSTALL_ROOT \"");
    PlainAppend("\" ABSOLUTE)\n", "set(VCPKG_");
    PlainAppend("\" ABSOLUTE)\n" + "set(VCPKG_", "INSTALL_ROOT \"");
  }

  lemma InstallRootPlain()
    ensures Plain(InstallRootSegment)
  {
    assert Plain("\")\n");
    assert Plain("set(VCPKG_");
    assert Plain("TOOLS_DIR \"");
    PlainAppend("\")\n", "set(VCPKG_");
    PlainAppend("\")\n" + "set(VCPKG_", "TOOLS_DIR \"");
  }

  lemma ToolsDirPlain()
    ensures Plain(ToolsDirSegment)
  {
    assert Plain("\")\n");
    assert Plain("set(VCPKG_");
    assert Plain("TARGET_TRIPLET \"");
    PlainAppend("\")\n", "set(VCPKG_");
    PlainAppend("\")\n" + "set(VCPKG_", "TARGET_TRIPLET \"");
  }

  lemma GuardCommentPlain()
    ensures Plain(GuardComment)
  {
    assert Plain("\n# If the ");
    assert Plain("cached cmake ");
    assert Plain("toolchain path ");
    assert Plain("is different ");
    assert Plain("from the ");
    assert Plain("computed one, ");
    assert Plain("exit\n");
    PlainAppend("\n# If the ", "cached cmake ");
    PlainAppend("\n# If the " + "cached cmake ", "toolchain path ");
    PlainAppend("\n# If the " + "cached cmake " + "toolchain path ", "is different ");
    PlainAppend("\n# If the " + "cached cmake " + "toolchain path " + "is different ", "from the ");
    PlainAppend("\n# If the " + "cached cmake " + "toolchain path " + "is different " + "from the ", "computed one, ");
    PlainAppend("\n# If the " + "cached cmake " + "toolchain path " + "is different " + "from the " + "computed one, ", "exit\n");
  }

  lemma GuardConditionPlain()
    ensures Plain(GuardCondition)
  {
    assert Plain("if(NOT (");
    assert Plain("CMAKE_TOOLCHAIN_");
    assert Plain("FILE_UNCACHED ");
    assert Plain("STREQUAL ");
    assert Plain("CMAKE_TOOLCHAIN_");
    assert Plain("FILE))\n");
    PlainAppend("if(NOT (", "CMAKE_TOOLCHAIN_");
    PlainAppend("if(NOT (" + "CMAKE_TOOLCHAIN_", "FILE_UNCACHED ");
    PlainAppend("if(NOT (" + "CMAKE_TOOLCHAIN_" + "FILE_UNCACHED ", "STREQUAL ");
    PlainAppend("if(NOT (" + "CMAKE_TOOLCHAIN_" + "FILE_UNCACHED " + "STREQUAL ", "CMAKE_TOOLCHAIN_");
    PlainAppend("if(NOT (" + "CMAKE_TOOLCHAIN_" + "FILE_UNCACHED " + "STREQUAL " + "CMAKE_TOOLCHAIN_", "FILE))\n");
  }

  lemma GuardMessagePlain()
    ensures Plain(GuardMessage)
  {
    assert Plain("    message(");
    assert Plain("FATAL_ERROR \"");
    assert Plain("CMAKE_TOOLCHAIN_");
    assert Plain("FILE has ");
    assert Plain("changed, please ");
    assert Plain("wipe the build ");
    assert Plain("directory and ");
    assert Plain("rerun cmake\")\n");
    PlainAppend("    message(", "FATAL_ERROR \"");
    PlainAppend("    message(" + "FATAL_ERROR \"", "CMAKE_TOOLCHAIN_");
    PlainAppend("    message(" + "FATAL_ERROR \"" + "CMAKE_TOOLCHAIN_", "FILE has ");
    PlainAppend("    message(" + "FATAL_ERROR \"" + "CMAKE_TOOLCHAIN_" + "FILE has ", "changed, please ");
    PlainAppend("    message(" + "FATAL_ERROR \"" + "CMAKE_TOOLCHAIN_" + "FILE has " + "changed, please ", "wipe the build ");
    PlainAppend("    message(" + "FATAL_ERROR \"" + "CMAKE_TOOLCHAIN_" + "FILE has " + "changed, please " + "wipe the build ", "directory and ");
    PlainAppend("    message(" + "FATAL_ERROR \"" + "CMAKE_TOOLCHAIN_" + "FILE has " + "changed, please " + "wipe the build " + "directory and ", "rerun cmake\")\n");
  }

  lemma AndroidPrefixPlain()
    ensures Plain(AndroidPrefix)
  {
    assert Plain("set(HIFI_");
    assert Plain("ANDROID_");
    assert Plain("PRECOMPILED \"");
    PlainAppend("set(HIFI_", "ANDROID_");
    PlainAppend("set(HIFI_" + "ANDROID_", "PRECOMPILED \"");
  }

  lemma GuardPlain()
    ensures Plain(NonAndroidGuard)
  {
    GuardCommentPlain();
    GuardConditionPlain();
    GuardMessagePlain();
    assert Plain("endif()\n");
    PlainAppend(GuardComment, GuardCondition);
    PlainAppend(GuardComment + GuardCondition, GuardMessage);
    PlainAppend(GuardComment + GuardCondition + GuardMessage, "endif()\n");
  }

  /** Every literal part of the configuration text is plain. */
  lemma LiteralsPlain()
    ensures forall i :: 0 <= i < |CmakeSegments()| ==> Plain(CmakeSegments()[i])
    ensures Plain(NonAndroidGuard) && Plain(AndroidPrefix) && Plain(AndroidSuffix)
  {
    HeaderPlain();
    CachedPlain();
    UncachedPlain();
    InstallRootPlain();
    ToolsDirPlain();
    assert Plain(TripletSegment);
    GuardPlain();
    AndroidPrefixPlain();
    assert Plain(AndroidSuffix);
  }

  /** The five values `writeConfig` fills in: toolchain script twice, install root, tools dir, triplet. */
  function ConfigArgs(c: Config): seq<string> {
    var installed := c.Installed();
    [c.CmakeScript(), c.CmakeScript(),
     Join(c.Sep(), installed, TripletWithBuildType(c.buildType, c.Triplet())),
     Join(c.Sep(), Join(c.Sep(), installed, TripletWithBuildType(c.buildType, c.HostTriplet())), "tools"),
     TripletWithBuildType(c.buildType, c.HostTriplet())]
  }

  /** The text after the template: the Android line with the precompiled path, or the guard block. */
  function ConfigTail(c: Config): string {
    if c.android then AndroidLine(c.androidPackagePath) else NonAndroidGuard
  }

  /** Backslashes become forward slashes. */
  function Slashed(s: string): string {
    ReplaceChar(s, '\\', '/')
  }

  /** The configuration text `writeConfig` writes, with the precompiled path inserted verbatim. */
  function ConfigText(c: Config): string {
    Slashed(Interleave(CmakeSegments(), ConfigArgs(c)) + ConfigTail(c))
  }

  /** The configuration text holds no backslash: every path in it uses forward slashes. */
  lemma ConfigTextHasNoBackslash(c: Config)
    ensures forall i :: 0 <= i < |ConfigText(c)| ==> ConfigText(c)[i] != '\\'
  {
    ReplaceCharRemoves(Interleave(CmakeSegments(), ConfigArgs(c)) + ConfigTail(c), '\\', '/');
  }

  /** Filling the template gives the segments with the five values between them. */
  lemma ConfigTemplateFills(c: Config)
    ensures Format(Render(CmakeTemplate()), ConfigArgs(c)) == Some(Interleave(CmakeSegments(), ConfigArgs(c)))
  {
    FormatRender(CmakeTemplate(), ConfigArgs(c));
    FillAutoTemplate(CmakeSegments(), ConfigArgs(c), 0, Unset);
    assert ConfigArgs(c)[0..] == ConfigArgs(c);
  }

  /**
   * The layout of the configuration text: the template's literal text unchanged, the toolchain
   * script twice, the install root, the tools directory and the host-derived triplet, each with
   * backslashes turned into slashes, then the Android line or the guard block.
   */
  lemma ConfigTextLayout(c: Config)
    ensures var a := ConfigArgs(c);
      ConfigText(c) ==
        HeaderSegment + Slashed(c.CmakeScript()) + CachedSegment + Slashed(c.CmakeScript()) +
        UncachedSegment + Slashed(a[2]) + InstallRootSegment + Slashed(a[3]) +
        ToolsDirSegment + Slashed(TripletWithBuildType(c.buildType, c.HostTriplet())) + TripletSegment +
        (if c.android then AndroidPrefix + Slashed(c.androidPackagePath) + AndroidSuffix else NonAndroidGuard)
  {
    LiteralsPlain();
    SlashedLayout(CmakeSegments(), ConfigArgs(c), ConfigTail(c));
    if c.android {
      AndroidLineFormats(c.androidPackagePath);
      SlashedBetween(AndroidPrefix, c.androidPackagePath, AndroidSuffix);
    } else {
      SlashedPlain(NonAndroidGuard);
    }
  }

  /** Slashing the filled template slashes the values and the tail and keeps the plain segments. */
  lemma SlashedLayout(segs: seq<string>, a: seq<string>, tail: string)
    requires |segs| == 6 && |a| == 5
    requires forall i :: 0 <= i < |segs| ==> Plain(segs[i])
    ensures Slashed(Interleave(segs, a) + tail) ==
      segs[0] + Slashed(a[0]) + segs[1] + Slashed(a[1]) + segs[2] + Slashed(a[2]) +
      segs[3] + Slashed(a[3]) + segs[4] + Slashed(a[4]) + segs[5] + Slashed(tail)
  {
    ReplaceCharAppend(Interleave(segs, a), tail, '\\', '/');
    SlashedInterleave(segs, a);
    SixSegments(segs, SlashedEach(a));
  }

  /** Slashing text between two plain pieces slashes only that text. */
  lemma SlashedBetween(p: string, x: string, q: string)
    requires Plain(p) && Plain(q)
    ensures Slashed(p + x + q) == p + Slashed(x) + q
  {
    SlashedPlain(p);
    SlashedPlain(q);
    ReplaceCharAppend(p + x, q, '\\', '/');
    ReplaceCharAppend(p, x, '\\', '/');
  }

  lemma SixSegments(segs: seq<string>, a: seq<string>)
    requires |segs| == 6 && |a| == 5
    ensures Interleave(segs, a) ==
      segs[0] + a[0] + segs[1] + a[1] + segs[2] + a[2] + segs[3] + a[3] + segs[4] + a[4] + segs[5]
  {
    assert Interleave(segs[5..], a[5..]) == segs[5];
    assert Interleave(segs[4..], a[4..]) == segs[4] + a[4] + segs[5];
    assert Interleave(segs[3..], a[3..]) == segs[3] + a[3] + (segs[4] + a[4] + segs[5]);
    assert Interleave(segs[2..], a[2..]) == segs[2] + a[2] + (segs[3] + a[3] + (segs[4] + a[4] + segs[5]));
    assert Interleave(segs[1..], a[1..]) == segs[1] + a[1] + (segs[2] + a[2] + (segs[3] + a[3] + (segs[4] + a[4] + segs[5])));
  }

  /** Slashing a template filled with plain segments slashes only the values. */
  lemma {:induction false} SlashedInterleave(segs: seq<string>, a: seq<string>)
    requires 1 <= |segs| <= |a| + 1
    requires forall i :: 0 <= i < |segs| ==> Plain(segs[i])
    ensures Slashed(Interleave(segs, a)) == Interleave(segs, SlashedEach(a))
    decreases |segs|
  {
    SlashedPlain(segs[0]);
    if |segs| > 1 {
      SlashedInterleave(segs[1..], a[1..]);
      assert SlashedEach(a)[1..] == SlashedEach(a[1..]);
      ReplaceCharAppend(segs[0] + a[0], Interleave(segs[1..], a[1..]), '\\', '/');
      ReplaceCharAppend(segs[0], a[0], '\\', '/');
    }
  }

  lemma SlashedPlain(s: string)
    requires Plain(s)
    ensures Slashed(s) == s
  {
  }

  /** Each string slashed. */
  function SlashedEach(parts: seq<string>): (r: seq<string>)
    ensures |r| == |parts|
    ensures forall i :: 0 <= i < |r| ==> r[i] == Slashed(parts[i])
  {
    seq(|parts|, i requires 0 <= i < |parts| => Slashed(parts[i]))
  }

  /**
   * `writeConfig` as written: the Android line is formatted into the template text first, and the
   * whole text is formatted a second time, so braces in the precompiled path are read as fields.
   */
  function ConfigTextAsWritten(c: Config): Option<string> {
    var template := Render(CmakeTemplate()) + ConfigTail(c);
    match Format(template, ConfigArgs(c))
    case None => None
    case Some(t) => Some(Slashed(t))
  }

  /** Without braces in the path (and always for non-Android builds) the two agree. */
  lemma AsWrittenAgreesWithoutBraces(c: Config)
    requires !c.android || NoBraces(c.androidPackagePath)
    ensures ConfigTextAsWritten(c) == Some(ConfigText(c))
  {
    var tail := ConfigTail(c);
    LiteralsPlain();
    if c.android {
      AndroidLineFormats(c.androidPackagePath);
      PlainNoBraces(AndroidPrefix);
      PlainNoBraces(AndroidSuffix);
      NoBracesAppend(AndroidPrefix, c.androidPackagePath);
      NoBracesAppend(AndroidPrefix + c.androidPackagePath, AndroidSuffix);
    } else {
      PlainNoBraces(NonAndroidGuard);
    }
    FormatAutoTemplateThenText(CmakeSegments(), ConfigArgs(c), tail);
  }

  /**
   * A precompiled path holding a lone `}` (one not doubled), such as `/opt/sdk}`, makes the second
   * format raise: no configuration is written.
   */
  lemma AsWrittenRejectsBrace(c: Config, before: string, after: string)
    requires c.android && c.androidPackagePath == before + "}" + after
    requires NoBraces(before) && (after == [] || after[0] != '}')
    ensures ConfigTextAsWritten(c) == None
  {
    AndroidLineFormats(c.androidPackagePath);
    AndroidPrefixPlain();
    PlainNoBraces(AndroidPrefix);
    BraceBetweenFails(AndroidPrefix, before, after, AndroidSuffix);
    FormatFailsAfter(CmakeTemplate(), ConfigTail(c), ConfigArgs(c));
  }

  /** A lone `}` after brace-free text makes the text fail to parse. */
  lemma BraceBetweenFails(prefix: string, before: string, after: string, suffix: string)
    requires NoBraces(prefix) && NoBraces(before)
    requires after == [] || after[0] != '}'
    requires suffix != [] && suffix[0] != '}'
    ensures Parse(prefix + (before + "}" + after) + suffix) == None
  {
    var lead, rest := prefix + before, "}" + after + suffix;
    NoBracesAppend(prefix, before);
    LoneBraceFails(after, suffix);
    ParseChars(lead, rest);
    Regroup(prefix, before, "}", after, suffix);
  }

  lemma Regroup(a: string, b: string, c: string, d: string, e: string)
    ensures a + (b + c + d) + e == (a + b) + (c + d + e)
  {
  }

  /** A `}` that is not doubled is an error. */
  lemma LoneBraceFails(after: string, suffix: string)
    requires after == [] || after[0] != '}'
    requires suffix != [] && suffix[0] != '}'
    ensures Parse("}" + after + suffix) == None
  {
    var rest := "}" + after + suffix;
    assert rest[0] == '}';
    assert rest[1] == if after == [] then suffix[0] else after[0];
  }

  /** `writeConfig` */
  function WriteConfigStep(c: Config, f: Fs): (r: Step)
    ensures r.events == []
    ensures r.ok <==> !IsDir(f, c.ConfigFilePath())
    ensures r.ok ==> IsFile(r.fs, c.ConfigFilePath()) && r.fs[c.ConfigFilePath()].text == ConfigText(c)
    ensures r.ok ==> forall p :: p != c.ConfigFilePath() ==> (p in r.fs <==> p in f) && (p in f ==> r.fs[p] == f[p])
  {
    WriteStep(f, c.ConfigFilePath(), ConfigText(c))
  }

  /** `writeVar` */
  function WriteVarStep(c: Config, f: Fs, name: string, value: string): (r: Step)
    ensures r.events == []
    ensures r.ok <==> !IsDir(f, VarPath(c.Sep(), c.buildRoot, name))
    ensures r.ok ==> ReadVar(c, r.fs, name) == Some(value)
    ensures r.ok ==> forall other :: other != name ==> ReadVar(c, r.fs, other) == ReadVar(c, f, other)
  {
    var p := VarPath(c.Sep(), c.buildRoot, name);
    assert forall other :: other != name ==> VarPath(c.Sep(), c.buildRoot, other) != p by {
      forall other | other != name ensures VarPath(c.Sep(), c.buildRoot, other) != p {
        if VarPath(c.Sep(), c.buildRoot, other) == p { VarPathInjective(c.Sep(), c.buildRoot, other, name); }
      }
    }
    WriteStep(f, p, value)
  }

  /**
   * `setupDependencies` as written: in prebuilt mode the log message concatenates a string with the
   * archive list, which raises before anything is extracted.
   */
  function SetupStepAsWritten(c: Config, f: Fs, buildEnv: map<string, string>, qt: Option<string>): Step {
    if PrebuiltMode(c) && !IsFile(f, c.PrebuildTagFile()) then Step(false, f, [])
    else SetupStep(c, f, buildEnv, qt)
  }

  /** As written, a prebuilt setup without its tag fails without a download and leaves the state as it was. */
  lemma PrebuiltAsWrittenNeverExtracts(c: Config, f: Fs, buildEnv: map<string, string>, qt: Option<string>)
    requires PrebuiltMode(c) && !IsFile(f, c.PrebuildTagFile())
    ensures var r := SetupStepAsWritten(c, f, buildEnv, qt); !r.ok && r.events == [] && r.fs == f
  {
  }

  /** As intended, it extracts the archive into the root once and records the prebuilt tag. */
  lemma PrebuiltSetupExtractsOnce(c: Config, f: Fs, buildEnv: map<string, string>, qt: Option<string>)
    requires PrebuiltMode(c) && !IsFile(f, c.PrebuildTagFile())
    requires !IsDir(f + c.unpack(c.prebuiltArchive.value, c.path), c.PrebuildTagFile())
    ensures var r := SetupStep(c, f, buildEnv, qt);
      r.ok && r.events == [Download(c.prebuiltArchive.value, c.path, false, None)] &&
      IsFile(r.fs, c.PrebuildTagFile()) && r.fs[c.PrebuildTagFile()].text == c.TagContents()
  {
  }

  /** The two outcomes of the copy loop, as `FixupStep` states them. */
  lemma FixupOutcome(c: Config, f: Fs, changed: bool)
    requires IsFile(f, c.CmakeScript()) && !IsDir(f, c.CmakeScript() + ".new")
    requires changed <==> AnyDropped(Lines(f[c.CmakeScript()].text))
    ensures var script, tmp := c.CmakeScript(), c.CmakeScript() + ".new";
      var g := f[tmp := File(FixedScript(f[script].text))];
      FixupStep(c, f) == Step(true, if changed then (g - {tmp})[script := g[tmp]] else g - {tmp}, [])
  {
    var script, tmp := c.CmakeScript(), c.CmakeScript() + ".new";
    assert script != tmp by { assert |tmp| == |script| + 4; }
    var g := f[tmp := File(FixedScript(f[script].text))];
    if changed {
      assert (g - {tmp})[script := g[tmp]] == (f - {tmp})[script := File(FixedScript(f[script].text))];
    } else {
      assert g - {tmp} == f - {tmp};
      assert FixupStep(c, f) == Step(true, f - {tmp}, []);
    }
  }

  // ---------------------------------------------------------------------------
  // The installation manager
  // ---------------------------------------------------------------------------

  /** `VcpkgRepo`: the configuration, and the state its operations change. */
  class VcpkgRepo {
    const cfg: Config
    /** The filesystem the operations work on. */
    var fs: Fs
    /** The environment of the install commands (`buildEnv`). */
    var buildEnv: map<string, string>
    /** The calls into foreign code made so far, in order. */
    var trace: seq<Event>

    /** The state change `s` describes: its filesystem, its events appended, the build environment kept. */
    twostate predicate Did(s: Step)
      reads this
    {
      fs == s.fs && trace == old(trace) + s.events && buildEnv == old(buildEnv)
    }

    /**
     * `__init__`: the configuration from the arguments, the host, the environment, the ports hash
     * and the host's client-URL variable file, which must be readable.
     */
    constructor (args: Args, host: HostOs, env: map<string, string>, home: string, portsHash: string,
                 prebuiltArchive: Option<seq<string>>, androidPackages: seq<AndroidPackage>,
                 unpack: (seq<string>, string) -> Fs, runEffect: seq<string> -> Fs, fs0: Fs)
      requires IsFile(fs0, VarPath(Separator(host), args.buildRoot, ClientUrlsVar(host)))
      ensures cfg == Configure(args, host, env, home, portsHash,
                               fs0[VarPath(Separator(host), args.buildRoot, ClientUrlsVar(host))].text,
                               prebuiltArchive, androidPackages, unpack, runEffect)
      ensures fs == fs0 && buildEnv == env && trace == []
    {
      var clientUrls := fs0[VarPath(Separator(host), args.buildRoot, ClientUrlsVar(host))].text;
      cfg := Configure(args, host, env, home, portsHash, clientUrls, prebuiltArchive, androidPackages, unpack, runEffect);
      fs := fs0;
      buildEnv := env;
      trace := [];
    }

    /** `hifi_utils.executeSubprocess` */
    method Execute(args: seq<string>, cwd: Option<string>, env: Option<map<string, string>>)
      modifies this
      ensures Did(ExecStep(cfg, old(fs), args, cwd, env))
    {
      fs := fs + cfg.runEffect(args);
      trace := trace + [Exec(args, cwd, env)];
    }

    /** `hifi_utils.downloadAndExtract` */
    method DownloadAndExtract(urls: seq<string>, dest: string, isZip: bool, checksum: Option<string>)
      modifies this
      ensures Did(DownloadStep(cfg, old(fs), urls, dest, isZip, checksum))
    {
      fs := fs + cfg.unpack(urls, dest);
      trace := trace + [Download(urls, dest, isZip, checksum)];
    }

    method WriteVar(name: string, value: string) returns (ok: bool)
      modifies this
      ensures ok == WriteVarStep(cfg, old(fs), name, value).ok && Did(WriteVarStep(cfg, old(fs), name, value))
    {
      ok := WriteText(VarPath(cfg.Sep(), cfg.buildRoot, name), value);
    }

    method Clean()
      modifies this
      ensures Did(CleanStep(cfg, old(fs)))
    {
      trace := trace + [CleanCalled];
      if IsDir(fs, cfg.path) {
        fs := RemoveTree(fs, cfg.Sep(), cfg.path);
      }
    }

    method CopyEnv() returns (ok: bool)
      modifies this
      ensures ok == CopyEnvStep(cfg, old(fs)).ok && Did(CopyEnvStep(cfg, old(fs)))
    {
      trace := trace + [CopyEnvCalled];
      var srcEnv, destEnv := cfg.SourceEnvDir(), cfg.EnvDir();
      if destEnv in fs {
        if !IsDir(fs, destEnv) { return false; }
        fs := RemoveTree(fs, cfg.Sep(), destEnv);
      }
      var copied := CopyTree(fs, cfg.Sep(), srcEnv, destEnv);
      if copied.None? { return false; }
      fs := copied.value;
      ok := true;
    }

    method Bootstrap() returns (ok: bool)
      modifies this
      ensures ok == BootstrapStep(cfg, old(fs)).ok && Did(BootstrapStep(cfg, old(fs)))
    {
      if UpToDate(cfg, fs) {
        ok := CopyEnv();
        return;
      }
      if cfg.prebuiltArchive.Some? {
        assert trace == old(trace) + [];
        return true;
      }
      ghost var prepared := Prepared(cfg, fs);
      Prepare();
      assert fs == prepared.fs && trace == old(trace) + prepared.events;
      ghost var t1 := trace;
      ghost var replaced := ReplacePortsStep(cfg, fs);
      ok := ReplacePorts();
      assert BootstrapStep(cfg, old(fs)) == Then(prepared, Then(replaced, CopyEnvStep(cfg, replaced.fs)));
      if !ok {
        assert trace == old(trace) + prepared.events + [];
        return;
      }
      ghost var copied := CopyEnvStep(cfg, fs);
      ok := CopyEnv();
      EventsAssoc(t1, replaced.events, copied.events);
      EventsAssoc(old(trace), prepared.events, replaced.events + copied.events);
    }

    /** The part of `bootstrap` that cleans the root and fetches the tool when it is needed. */
    method Prepare()
      modifies this
      ensures Did(Prepared(cfg, old(fs)))
    {
      Clean();
      ghost var t1 := trace;
      var downloadVcpkg := false;
      if cfg.forceBootstrap {
        downloadVcpkg := true;
      }
      if !downloadVcpkg && !IsFile(fs, cfg.Exe()) {
        downloadVcpkg := true;
      }
      var testFile := cfg.RootMarker();
      if !downloadVcpkg && !IsFile(fs, testFile) {
        downloadVcpkg := true;
      }
      assert downloadVcpkg == NeedsDownload(cfg, fs);
      if downloadVcpkg {
        FetchVcpkg();
      } else {
        assert trace == t1 + [];
      }
    }

    /** Clone and build the tool when HIFI_VCPKG_BOOTSTRAP is set, otherwise download it. */
    method FetchVcpkg()
      modifies this
      ensures Did(FetchStep(cfg, old(fs)))
    {
      if BootstrapVar in cfg.env {
        Execute(CloneArgs(cfg), None, None);
        Execute(cfg.BootstrapCmds(), Some(cfg.path), Some(cfg.BootstrapEnv()));
      } else {
        DownloadAndExtract(cfg.vcpkgUrl, cfg.path, false, None);
      }
    }

    /** The part of `bootstrap` that replaces the port files with the custom ones. */
    method ReplacePorts() returns (ok: bool)
      modifies this
      ensures ok == ReplacePortsStep(cfg, old(fs)).ok && Did(ReplacePortsStep(cfg, old(fs)))
    {
      var portsPath := cfg.PortsDir();
      if IsLink(fs, portsPath) {
        fs := fs - {portsPath};
      }
      if IsDir(fs, portsPath) {
        fs := RemoveTree(fs, cfg.Sep(), portsPath);
      }
      var copied := CopyTree(fs, cfg.Sep(), cfg.sourcePortsPath, portsPath);
      assert trace == old(trace) + [];
      if copied.None? {
        return false;
      }
      fs := copied.value;
      ok := true;
    }

    method Run(commands: seq<string>)
      modifies this
      ensures Did(RunStep(cfg, old(fs), old(buildEnv), commands))
    {
      var actualCommands := [cfg.Exe(), "--vcpkg-root", cfg.path];
      actualCommands := actualCommands + commands;
      Execute(actualCommands, Some(cfg.path), Some(buildEnv));
    }

    method CopyTripletForBuildType(triplet: string) returns (ok: bool)
      modifies this
      ensures ok == CopyTripletStep(cfg, old(fs), triplet).ok && Did(CopyTripletStep(cfg, old(fs), triplet))
    {
      var tripletPath := TripletFile(cfg, triplet);
      var tripletForBuildTypePath := TripletFile(cfg, TripletWithBuildType(cfg.buildType, triplet));
      if !IsFile(fs, tripletPath) || tripletPath == tripletForBuildTypePath {
        return false;
      }
      var text := fs[tripletPath].text;
      if IsDir(fs, tripletForBuildTypePath) {
        var inside := WriteFile(fs, Join(cfg.Sep(), tripletForBuildTypePath, triplet + ".cmake"), text);
        if inside.Some? {
          fs := inside.value;
        }
        return false;
      }
      fs := fs[tripletForBuildTypePath := File(text)];
      fs := fs[tripletForBuildTypePath := File(fs[tripletForBuildTypePath].text + BuildTypeDirective(cfg.buildType))];
      ok := true;
    }

    method SetupDependencies(qt: Option<string>) returns (ok: bool)
      modifies this
      ensures var s := SetupStep(cfg, old(fs), old(buildEnv), qt); ok == s.ok && fs == s.fs && trace == old(trace) + s.events
      ensures buildEnv == SetupEnv(cfg, old(buildEnv), qt)
    {
      if PrebuiltMode(cfg) {
        ok := SetupPrebuilt();
        return;
      }
      if qt.Some? {
        buildEnv := buildEnv[QtPrefixVar := qt.value];
      }
      ok := InstallAll();
    }

    /** The prebuilt-mode branch of `setupDependencies`. */
    method SetupPrebuilt() returns (ok: bool)
      requires PrebuiltMode(cfg)
      modifies this
      ensures ok == PrebuiltSetupStep(cfg, old(fs)).ok && Did(PrebuiltSetupStep(cfg, old(fs)))
    {
      if !IsFile(fs, cfg.PrebuildTagFile()) {
        ghost var fetched := DownloadStep(cfg, fs, cfg.prebuiltArchive.value, cfg.path, false, None);
        DownloadAndExtract(cfg.prebuiltArchive.value, cfg.path, false, None);
        ghost var tagged := WritePrebuildTagStep(cfg, fs);
        ok := WritePrebuildTag();
        EventsAssoc(old(trace), fetched.events, tagged.events);
        return;
      }
      assert trace == old(trace) + [];
      return true;
    }

    /** The install branch of `setupDependencies`: Android archives, host tools, client libraries. */
    method InstallAll() returns (ok: bool)
      modifies this
      ensures ok == InstallAllStep(cfg, old(fs), old(buildEnv)).ok && Did(InstallAllStep(cfg, old(fs), old(buildEnv)))
    {
      if cfg.android {
        ok := InstallAndroid();
      } else {
        ok := InstallTools();
      }
    }

    /** `setupDependencies` when targeting Android: the Android archives first, then the host tools. */
    method InstallAndroid() returns (ok: bool)
      requires cfg.android
      modifies this
      ensures var android := AndroidStep(cfg, old(fs)); var s := Then(android, ToolsStep(cfg, android.fs, old(buildEnv)));
        ok == s.ok && Did(s)
    {
      ghost var android := AndroidStep(cfg, fs);
      ok := SetupAndroidDependencies();
      if !ok {
        return;
      }
      ok := InstallTools();
      EventsAssoc(old(trace), android.events, ToolsStep(cfg, android.fs, buildEnv).events);
    }

    /** The host-tools and client-libraries installs of `setupDependencies`. */
    method InstallTools() returns (ok: bool)
      modifies this
      ensures ok == ToolsStep(cfg, old(fs), old(buildEnv)).ok && Did(ToolsStep(cfg, old(fs), old(buildEnv)))
    {
      ghost var host := InstallStep(cfg, fs, buildEnv, cfg.HostTriplet(), HostToolsPort);
      ok := Install(cfg.HostTriplet(), HostToolsPort);
      if !ok || cfg.android {
        return;
      }
      ok := Install(cfg.Triplet(), ClientDepsPort);
      EventsAssoc(old(trace), host.events, InstallStep(cfg, host.fs, buildEnv, cfg.Triplet(), ClientDepsPort).events);
    }

    /** One install command of `setupDependencies`, after deriving the build-type triplet when one is set. */
    method Install(triplet: string, port: string) returns (ok: bool)
      modifies this
      ensures ok == InstallStep(cfg, old(fs), old(buildEnv), triplet, port).ok
      ensures Did(InstallStep(cfg, old(fs), old(buildEnv), triplet, port))
    {
      if cfg.buildType != "" {
        ok := CopyTripletForBuildType(triplet);
        if !ok { return; }
      }
      Run(InstallCommand(TripletWithBuildType(cfg.buildType, triplet), port));
      ok := true;
    }

    method SetupAndroidDependencies() returns (ok: bool)
      modifies this
      ensures ok == AndroidStep(cfg, old(fs)).ok && Did(AndroidStep(cfg, old(fs)))
    {
      ghost var tree := AndroidTreeStep(cfg, fs);
      ok := FetchAndroidTree();
      if !ok {
        return;
      }
      InstallAndroidPackages(cfg.androidPackages);
      ghost var packages := PackagesStep(cfg, tree.fs, cfg.androidPackages);
      PackagesSucceed(cfg, tree.fs, cfg.androidPackages);
      EventsAssoc(old(trace), tree.events, packages.events);
    }

    /** The first half of `setupAndroidDependencies`: the prebuilt Android vcpkg tree. */
    method FetchAndroidTree() returns (ok: bool)
      modifies this
      ensures ok == AndroidTreeStep(cfg, old(fs)).ok && Did(AndroidTreeStep(cfg, old(fs)))
    {
      var dest := cfg.Installed();
      if !IsDir(fs, Join(cfg.Sep(), dest, AndroidTriplet)) {
        var url := ReadVar(cfg, fs, AndroidUrlsVar);
        if url.None? {
          assert trace == old(trace) + [];
          return false;
        }
        DownloadAndExtract(Split(url.value, ';'), dest, false, None);
      } else {
        assert trace == old(trace) + [];
      }
      ok := true;
    }

    /** The package loop of `setupAndroidDependencies`: skip a package whose directory exists. */
    method InstallAndroidPackages(packages: seq<AndroidPackage>)
      modifies this
      ensures Did(PackagesStep(cfg, old(fs), packages))
    {
      ghost var target := PackagesStep(cfg, fs, packages);
      ghost var remaining := target;
      for i := 0 to |packages|
        invariant remaining == PackagesStep(cfg, fs, packages[i..])
        invariant remaining.fs == target.fs
        invariant trace + remaining.events == old(trace) + target.events
        invariant buildEnv == old(buildEnv)
      {
        ghost var one := PackageStep(cfg, fs, packages[i]);
        ghost var rest := PackagesStep(cfg, one.fs, packages[i + 1..]);
        PackagesCons(cfg, fs, packages[i..]);
        assert packages[i..][0] == packages[i] && packages[i..][1..] == packages[i + 1..];
        ghost var t0 := trace;
        InstallAndroidPackage(packages[i]);
        EventsAssoc(t0, one.events, rest.events);
        remaining := rest;
      }
      assert packages[|packages|..] == [];
      assert trace + [] == trace;
    }

    /** One package of `setupAndroidDependencies`: skipped when its directory exists. */
    method InstallAndroidPackage(package: AndroidPackage)
      modifies this
      ensures Did(PackageStep(cfg, old(fs), package))
    {
      var packageDest := Join(cfg.Sep(), cfg.androidPackagePath, package.name);
      if IsDir(fs, packageDest) {
        assert trace == old(trace) + [];
        return;
      }
      var zipFile := EndsWith(package.file, ".zip");
      DownloadAndExtract(package.urls, packageDest, zipFile, Some(package.checksum));
    }

    method CleanBuilds()
      modifies this
      ensures Did(CleanBuildsStep(cfg, old(fs)))
    {
      if cfg.noClean {
        return;
      }
      var builddir := cfg.BuildTrees();
      if IsDir(fs, builddir) {
        fs := RemoveTree(fs, cfg.Sep(), builddir);
      }
    }

    method WriteTag() returns (ok: bool)
      modifies this
      ensures ok == WriteTagStep(cfg, old(fs)).ok && Did(WriteTagStep(cfg, old(fs)))
    {
      if cfg.noClean {
        return true;
      }
      if !IsDir(fs, cfg.path) {
        if cfg.path in fs {
          return false;
        }
        fs := fs[cfg.path := Dir];
      }
      var written := WriteFile(fs, cfg.TagFile(), cfg.TagContents());
      if written.None? {
        return false;
      }
      fs := written.value;
      ok := true;
    }

    method WritePrebuildTag() returns (ok: bool)
      modifies this
      ensures ok == WritePrebuildTagStep(cfg, old(fs)).ok && Did(WritePrebuildTagStep(cfg, old(fs)))
    {
      ok := WriteText(cfg.PrebuildTagFile(), cfg.TagContents());
    }

    method FixupCmakeScript() returns (ok: bool)
      modifies this
      ensures ok == FixupStep(cfg, old(fs)).ok && Did(FixupStep(cfg, old(fs)))
    {
      var cmakeScript := cfg.CmakeScript();
      var newCmakeScript := cmakeScript + ".new";
      if !IsFile(fs, cmakeScript) || IsDir(fs, newCmakeScript) {
        assert trace == old(trace) + [];
        return false;
      }
      ghost var f0 := fs;
      var lines := Lines(fs[cmakeScript].text);
      var written, isFileChanged := CopyKeptLines(lines, newCmakeScript);
      assert lines == Lines(f0[cmakeScript].text);
      FixupOutcome(cfg, f0, isFileChanged);
      if isFileChanged {
        var moved := fs[newCmakeScript];
        fs := (fs - {newCmakeScript})[cmakeScript := moved];
      } else {
        fs := fs - {newCmakeScript};
      }
      assert trace == old(trace) + [];
      ok := true;
    }

    /**
     * The copy loop of `fixupCmakeScript`: every line that does not set the target triplet is
     * written to `dest`; `changed` records whether a line was dropped.
     */
    method CopyKeptLines(lines: seq<string>, dest: string) returns (written: string, changed: bool)
      modifies this
      ensures written == Concat(DropPrefixed(lines, RemovalPrefix))
      ensures changed <==> AnyDropped(lines)
      ensures fs == old(fs)[dest := File(written)] && trace == old(trace) && buildEnv == old(buildEnv)
    {
      written := "";
      fs := fs[dest := File(written)];
      changed := false;
      for i := 0 to |lines|
        invariant written == Concat(DropPrefixed(lines[..i], RemovalPrefix))
        invariant changed <==> AnyDropped(lines[..i])
        invariant fs == old(fs)[dest := File(written)] && trace == old(trace) && buildEnv == old(buildEnv)
      {
        DropPrefixedAppend(lines[..i], [lines[i]], RemovalPrefix);
        assert lines[..i + 1] == lines[..i] + [lines[i]];
        ConcatAppend(DropPrefixed(lines[..i], RemovalPrefix), DropPrefixed([lines[i]], RemovalPrefix));
        assert AnyDropped(lines[..i + 1]) <==> AnyDropped(lines[..i]) || StartsWith(lines[i], RemovalPrefix) by {
          assert forall j :: 0 <= j < i ==> lines[..i + 1][j] == lines[..i][j];
          assert lines[..i + 1][i] == lines[i];
        }
        if !StartsWith(lines[i], RemovalPrefix) {
          assert Concat([lines[i]]) == lines[i] + Concat([]);
          written := written + lines[i];
          fs := fs[dest := File(written)];
        } else {
          changed := true;
        }
      }
      assert lines[..|lines|] == lines;
    }

    method WriteConfig() returns (ok: bool)
      modifies this
      ensures ok == WriteConfigStep(cfg, old(fs)).ok && Did(WriteConfigStep(cfg, old(fs)))
    {
      ok := WriteText(cfg.ConfigFilePath(), ConfigText(cfg));
    }

    /** `open(p, 'w').write(text)` */
    method WriteText(p: string, text: string) returns (ok: bool)
      modifies this
      ensures ok == WriteStep(old(fs), p, text).ok && Did(WriteStep(old(fs), p, text))
    {
      var written := WriteFile(fs, p, text);
      if written.None? {
        return false;
      }
      fs := written.value;
      ok := true;
    }
  }
}
