/** From a registry document to an executable plan: validation (registry/parser.go), resolution into
    a content-addressed bundle (bundle/resolver.go), the bundle store (store/memory.go), and plan
    compilation (control/plan.go).

    Hashing is a parameter: `hash` stands for hex-encoded SHA-256 over the JSON payload. So are the
    host platform and the URL syntax check. */
module Bundles {
  import opened Control
  import Environment

  datatype DistributionType = Binary | Npx | Uvx | OtherType(name: string)

  datatype BinarySpec = BinarySpec(url: string, executable: string, args: seq<string>, sha256: string)

  datatype PackageSpec = PackageSpec(name: string, version: string, args: seq<string>)

  datatype Distribution = Distribution(
    kind: DistributionType, binary: Option<BinarySpec>, npx: Option<PackageSpec>, uvx: Option<PackageSpec>)

  datatype AuthMode = AgentAuth | TerminalAuth | NoAuth

  datatype RegistryAgent = RegistryAgent(
    id: string, version: string, platforms: seq<string>, authModes: seq<AuthMode>, defaultEnv: Environment.Env,
    distribution: Distribution)

  datatype Source = FromRegistry | Manual

  datatype CatalogEntry = CatalogEntry(
    id: string, version: string, source: Source, platforms: seq<string>, authModes: seq<AuthMode>,
    defaultEnv: Environment.Env, distribution: Distribution)

  datatype BundleMode = Materialized | Lazy

  datatype Bundle = Bundle(
    digest: string, agentId: string, version: string, platform: string, mode: BundleMode, entrypoint: seq<string>,
    env: Environment.Env, materialized: bool, manifest: Distribution, createdAt: int)

  // ----- registry/parser.go -----

  /** Unicode white space. */
  predicate IsSpace(c: char) {
    var n := c as int;
    || 0x09 <= n <= 0x0D || n == 0x20 || n == 0x85 || n == 0xA0 || n == 0x1680 || 0x2000 <= n <= 0x200A
    || n == 0x2028 || n == 0x2029 || n == 0x202F || n == 0x205F || n == 0x3000
  }

  /** `strings.TrimSpace(s) == ""` */
  predicate Blank(s: string) {
    forall i :: 0 <= i < |s| ==> IsSpace(s[i])
  }

  function ValidateAgent(a: RegistryAgent, urlOk: string -> bool): Option<string> {
    if Blank(a.id) then Some("missing id")
    else if Blank(a.version) then Some("missing version")
    else match a.distribution.kind
      case Binary =>
        if a.distribution.binary.None? then Some("binary distribution missing payload")
        else if !urlOk(a.distribution.binary.value.url) then Some("invalid binary url")
        else None
      case Npx =>
        if a.distribution.npx.None? || a.distribution.npx.value.name == "" then Some("npx distribution missing package")
          else None
      case Uvx =>
        if a.distribution.uvx.None? || a.distribution.uvx.value.name == "" then Some("uvx distribution missing package")
          else None
      case OtherType(_) => Some("unsupported distribution")
  }

  /** Some character that is not white space. */
  predicate Named(s: string) {
    exists i :: 0 <= i < |s| && !IsSpace(s[i])
  }

  /** An agent is valid exactly when id and version say something and its distribution is of a known type
      whose payload is there: for a binary with a URL that parses, for a package with a name. */
  lemma ValidExact(a: RegistryAgent, urlOk: string -> bool)
    ensures ValidateAgent(a, urlOk).None? <==>
      && Named(a.id) && Named(a.version)
      && var d := a.distribution;
        || (d.kind == Binary && d.binary.Some? && urlOk(d.binary.value.url))
        || (d.kind == Npx && d.npx.Some? && d.npx.value.name != "")
        || (d.kind == Uvx && d.uvx.Some? && d.uvx.value.name != "")
  {
    assert Blank(a.id) <==> !Named(a.id);
    assert Blank(a.version) <==> !Named(a.version);
  }

  function ToEntry(a: RegistryAgent): CatalogEntry {
    CatalogEntry(a.id, a.version, FromRegistry, a.platforms, a.authModes, a.defaultEnv, a.distribution)
  }

  predicate FirstInvalid(agents: seq<RegistryAgent>, urlOk: string -> bool, i: nat) {
    && i < |agents| && ValidateAgent(agents[i], urlOk).Some?
    && forall j :: 0 <= j < i ==> ValidateAgent(agents[j], urlOk).None?
  }

  /** The catalogue entry has everything of the agent and is marked as coming from the registry. */
  predicate Describes(e: CatalogEntry, a: RegistryAgent) {
    && e.id == a.id && e.version == a.version && e.source == FromRegistry
    && e.platforms == a.platforms && e.authModes == a.authModes && e.defaultEnv == a.defaultEnv
    && e.distribution == a.distribution
  }

  /** A document parses exactly when every agent in it is valid; one invalid agent rejects it all. */
  method Parse(agents: seq<RegistryAgent>, urlOk: string -> bool) returns (r: Result<seq<CatalogEntry>>)
    ensures r.Ok? <==> forall a :: a in agents ==> ValidateAgent(a, urlOk).None?
    ensures r.Ok? ==> |r.value| == |agents| && forall i :: 0 <= i < |agents| ==> Describes(r.value[i], agents[i])
    ensures r.Err? ==>
      exists i: nat :: FirstInvalid(agents, urlOk, i) && ValidateAgent(agents[i], urlOk) == Some(r.error)
  {
    var entries: seq<CatalogEntry> := [];
    for i := 0 to |agents|
      invariant |entries| == i
      invariant forall j :: 0 <= j < i ==> entries[j] == ToEntry(agents[j]) && ValidateAgent(agents[j], urlOk).None?
    {
      var problem := ValidateAgent(agents[i], urlOk);
      if problem.Some? {
        assert agents[i] in agents && FirstInvalid(agents, urlOk, i);
        return Err(problem.value);
      }
      entries := entries + [ToEntry(agents[i])];
    }
    return Ok(entries);
  }

  // ----- bundle/resolver.go -----

  /** Everything the digest is taken over. */
  datatype Payload = Payload(
    agentId: string, version: string, platform: string, entrypoint: seq<string>, manifest: Distribution)

  datatype Resolution = Resolved(bundle: Bundle) | Rejected(error: string) | Panicked

  function NormalChar(c: char): char {
    if c == '/' || c == '_' then '-'
    else if 'A' <= c <= 'Z' then c - 'A' + 'a'
    else c
  }

  function NormalizePlatform(p: string): string {
    seq(|p|, i requires 0 <= i < |p| => NormalChar(p[i]))
  }

  /** `q` is `p` in lower case with every '/' and '_' turned into '-'. */
  predicate Normalizes(p: string, q: string) {
    |p| == |q| && forall i :: 0 <= i < |p| ==>
      if p[i] in {'/', '_', '-'} then q[i] == '-'
      else if 'A' <= p[i] <= 'Z' then 'a' <= q[i] <= 'z' && q[i] as int - p[i] as int == 32
      else q[i] == p[i]
  }

  /** Normalising does just that, and once is enough. */
  lemma NormalizeExact(p: string, q: string)
    ensures NormalizePlatform(p) == q <==> Normalizes(p, q)
    ensures NormalizePlatform(NormalizePlatform(p)) == NormalizePlatform(p)
  {
    var n := NormalizePlatform(p);
    forall i | 0 <= i < |p|
      ensures NormalChar(n[i]) == n[i]
      ensures |q| == |p| ==> (n[i] == q[i] <==>
        if p[i] in {'/', '_', '-'} then q[i] == '-'
        else if 'A' <= p[i] <= 'Z' then 'a' <= q[i] <= 'z' && q[i] as int - p[i] as int == 32
        else q[i] == p[i])
    {
      assert n[i] == NormalChar(p[i]);
    }
    assert n == q <==> |n| == |q| && forall i :: 0 <= i < |n| ==> n[i] == q[i];
    assert NormalizePlatform(n) == n;
  }

  /** Spellings of one platform. */
  lemma SpellingsMatch()
    ensures PlatformMatches(["Linux/AMD64"], "linux-amd64") && PlatformMatches(["linux_amd64"], "linux-amd64")
    ensures !PlatformMatches(["linux_amd64"], "linux/amd64")
  {
    NormalizeExact("Linux/AMD64", "linux-amd64");
    NormalizeExact("linux_amd64", "linux-amd64");
    NormalizeExact("linux_amd64", "linux/amd64");
    assert NormalizePlatform(["Linux/AMD64"][0]) == "linux-amd64";
    assert NormalizePlatform(["linux_amd64"][0]) == "linux-amd64";
    assert "linux_amd64"[5] == '_' && "linux/amd64"[5] == '/';
  }

  function PackageRef(name: string, version: string): string {
    if version == "" then name else name + "@" + version
  }

  predicate PlatformMatches(platforms: seq<string>, platform: string) {
    platforms == [] || exists i :: 0 <= i < |platforms| && NormalizePlatform(platforms[i]) == platform
  }

  function Effective(platform: string, host: string): string {
    if platform == "" then NormalizePlatform(host) else platform
  }

  /** What the manifest alone decides: how to start the agent and with which variables. */
  datatype Launch = Launch(mode: BundleMode, materialized: bool, entrypoint: seq<string>, env: Environment.Env)

  predicate PayloadPresent(d: Distribution) {
    match d.kind
    case Binary => d.binary.Some?
    case Npx => d.npx.Some?
    case Uvx => d.uvx.Some?
    case OtherType(_) => true
  }

  function LaunchOf(d: Distribution): Launch
    requires PayloadPresent(d) && !d.kind.OtherType?
  {
    match d.kind
    case Binary =>
      var spec := d.binary.value;
      Launch(Materialized, true, [spec.executable] + spec.args,
             map["AGENTD_BINARY_URL" := spec.url] + if spec.sha256 != "" then map["AGENTD_BINARY_SHA256" := spec.sha256]
               else map[])
    case Npx =>
      var spec := d.npx.value;
      Launch(Lazy, false, ["npx", "-y", PackageRef(spec.name, spec.version)] + spec.args, map[])
    case Uvx =>
      var spec := d.uvx.value;
      Launch(Lazy, false, ["uvx", PackageRef(spec.name, spec.version)] + spec.args, map[])
  }

  function BundleFor(e: CatalogEntry, platform: string, hash: Payload -> string, now: int): Bundle
    requires PayloadPresent(e.distribution) && !e.distribution.kind.OtherType?
  {
    var l := LaunchOf(e.distribution);
    Bundle("sha256:" + hash(Payload(e.id, e.version, platform, l.entrypoint, e.distribution)),
           e.id, e.version, platform, l.mode, l.entrypoint, l.env, l.materialized, e.distribution, now)
  }

  /** Dereferencing a missing payload panics. */
  function Resolve(e: CatalogEntry, platform: string, host: string, hash: Payload -> string, now: int): Resolution {
    var p := Effective(platform, host);
    if !PlatformMatches(e.platforms, p) then Rejected("unsupported platform")
    else if e.distribution.kind.OtherType? then Rejected("unsupported bundle")
    else if !PayloadPresent(e.distribution) then Panicked
    else Resolved(BundleFor(e, p, hash, now))
  }

  /** The platform scan of `Resolve`. */
  method MatchPlatform(platforms: seq<string>, platform: string) returns (ok: bool)
    ensures ok <==> PlatformMatches(platforms, platform)
    ensures ok <==> platforms == [] || exists i :: 0 <= i < |platforms| && Normalizes(platforms[i], platform)
  {
    forall i | 0 <= i < |platforms|
      ensures Normalizes(platforms[i], platform) <==> NormalizePlatform(platforms[i]) == platform
    {
      NormalizeExact(platforms[i], platform);
    }
    if |platforms| == 0 {
      return true;
    }
    ok := false;
    for i := 0 to |platforms|
      invariant ok <==> exists j :: 0 <= j < i && NormalizePlatform(platforms[j]) == platform
    {
      if NormalizePlatform(platforms[i]) == platform {
        ok := true;
        break;
      }
    }
  }

  /** The bundle starts a package through a launcher: the launcher's words, the package with its version
      after an '@' if it has one, and the arguments; lazily, with no variables. */
  predicate RunsPackage(b: Bundle, launcher: seq<string>, spec: PackageSpec) {
    && b.mode == Lazy && !b.materialized && b.env == map[]
    && |b.entrypoint| == |launcher| + 1 + |spec.args|
    && b.entrypoint[..|launcher|] == launcher
    && b.entrypoint[|launcher|] == (if spec.version == "" then spec.name else spec.name + "@" + spec.version)
    && b.entrypoint[|launcher| + 1..] == spec.args
  }

  /** The bundle runs a downloaded executable with its arguments, and says where it comes from and, if
      known, what it must hash to. */
  predicate RunsBinary(b: Bundle, spec: BinarySpec) {
    && b.mode == Materialized && b.materialized
    && |b.entrypoint| == 1 + |spec.args| && b.entrypoint[0] == spec.executable && b.entrypoint[1..] == spec.args
    && b.env.Keys <= {"AGENTD_BINARY_URL", "AGENTD_BINARY_SHA256"}
    && "AGENTD_BINARY_URL" in b.env && b.env["AGENTD_BINARY_URL"] == spec.url
    && ("AGENTD_BINARY_SHA256" in b.env <==> spec.sha256 != "")
    && ("AGENTD_BINARY_SHA256" in b.env ==> b.env["AGENTD_BINARY_SHA256"] == spec.sha256)
  }

  /** The bundle is of this entry, for this platform, and runs what its distribution names. */
  predicate Packs(b: Bundle, e: CatalogEntry, platform: string) {
    && b.agentId == e.id && b.version == e.version && b.platform == platform && b.manifest == e.distribution
    && match e.distribution.kind
       case Binary => e.distribution.binary.Some? && RunsBinary(b, e.distribution.binary.value)
       case Npx => e.distribution.npx.Some? && RunsPackage(b, ["npx", "-y"], e.distribution.npx.value)
       case Uvx => e.distribution.uvx.Some? && RunsPackage(b, ["uvx"], e.distribution.uvx.value)
       case OtherType(_) => false
  }

  lemma PackageIsRun(b: Bundle, launcher: seq<string>, spec: PackageSpec)
    requires b.mode == Lazy && !b.materialized && b.env == map[]
    requires b.entrypoint == launcher + [PackageRef(spec.name, spec.version)] + spec.args
    ensures RunsPackage(b, launcher, spec)
  {
  }

  /** Every resolved bundle packs its entry, under the digest of exactly what it is made from. */
  lemma ResolvedPacks(e: CatalogEntry, platform: string, host: string, hash: Payload -> string, now: int)
    requires Resolve(e, platform, host, hash, now).Resolved?
    ensures var b := Resolve(e, platform, host, hash, now).bundle;
            var p := if platform == "" then NormalizePlatform(host) else platform;
      && Packs(b, e, p) && b.createdAt == now
      && b.digest == "sha256:" + hash(Payload(e.id, e.version, p, b.entrypoint, e.distribution))
  {
    var b, d := Resolve(e, platform, host, hash, now).bundle, e.distribution;
    match d.kind {
      case Binary =>
        assert b.entrypoint[1..] == d.binary.value.args;
      case Npx =>
        var spec := d.npx.value;
        assert b.entrypoint == ["npx", "-y"] + [PackageRef(spec.name, spec.version)] + spec.args;
        PackageIsRun(b, ["npx", "-y"], spec);
      case Uvx =>
        var spec := d.uvx.value;
        assert b.entrypoint == ["uvx"] + [PackageRef(spec.name, spec.version)] + spec.args;
        PackageIsRun(b, ["uvx"], spec);
    }
  }

  /** `Resolve`, branch by branch. */
  method ResolveBundle(e: CatalogEntry, platform: string, host: string, hash: Payload -> string, now: int)
    returns (r: Resolution)
    ensures r == Resolve(e, platform, host, hash, now)
    ensures var matches := PlatformMatches(e.platforms, if platform == "" then NormalizePlatform(host) else platform);
            var d := e.distribution;
            var absent := (d.kind == Binary && d.binary.None?) || (d.kind == Npx && d.npx.None?)
                          || (d.kind == Uvx && d.uvx.None?);
      && (r.Rejected? <==> !matches || d.kind.OtherType?)
      && (r.Panicked? <==> matches && absent)
    ensures r.Resolved? ==>
      Packs(r.bundle, e, if platform == "" then NormalizePlatform(host) else platform) && r.bundle.createdAt == now
  {
    if Resolve(e, platform, host, hash, now).Resolved? { ResolvedPacks(e, platform, host, hash, now); }
    var p := platform;
    if p == "" {
      p := NormalizePlatform(host);
    }
    var matched := MatchPlatform(e.platforms, p);
    if !matched {
      return Rejected("unsupported platform");
    }
    var mode, materialized, entrypoint := Lazy, false, [];
    var env: Environment.Env := map[];
    match e.distribution.kind {
      case Binary =>
        if e.distribution.binary.None? {
          return Panicked;
        }
        var spec := e.distribution.binary.value;
        mode, materialized := Materialized, true;
        entrypoint := [spec.executable] + spec.args;
        env := env["AGENTD_BINARY_URL" := spec.url];
        if spec.sha256 != "" {
          env := env["AGENTD_BINARY_SHA256" := spec.sha256];
        }
      case Npx =>
        if e.distribution.npx.None? {
          return Panicked;
        }
        var spec := e.distribution.npx.value;
        entrypoint := ["npx", "-y", PackageRef(spec.name, spec.version)] + spec.args;
      case Uvx =>
        if e.distribution.uvx.None? {
          return Panicked;
        }
        var spec := e.distribution.uvx.value;
        entrypoint := ["uvx", PackageRef(spec.name, spec.version)] + spec.args;
      case OtherType(_) =>
        return Rejected("unsupported bundle");
    }
    var digest := "sha256:" + hash(Payload(e.id, e.version, p, entrypoint, e.distribution));
    r := Resolved(Bundle(digest, e.id, e.version, p, mode, entrypoint, env, materialized, e.distribution, now));
  }

  /** Resolution reaches a missing payload exactly for a matching platform and a supported type without
      its payload, which a manual agent can have and a parsed one cannot. */
  lemma PanicExact(e: CatalogEntry, platform: string, host: string, hash: Payload -> string, now: int)
    ensures Resolve(e, platform, host, hash, now).Panicked?
      <==> PlatformMatches(e.platforms, Effective(platform, host)) && !PayloadPresent(e.distribution)
  {
  }

  /** A manual agent of type binary without its payload, as the API accepts one. */
  lemma ManualBinaryPanics(host: string, hash: Payload -> string, now: int)
    ensures var e := CatalogEntry("a", "manual", Manual, [], [], map[], Distribution(Binary, None, None, None));
      Resolve(e, "linux/amd64", host, hash, now).Panicked?
  {
  }

  /** Every parsed entry fails resolution exactly on a platform mismatch, and otherwise yields a bundle
      with something to run. */
  lemma ParsedEntryResolves(a: RegistryAgent, urlOk: string -> bool, platform: string, host: string,
    hash: Payload -> string, now: int)
    requires ValidateAgent(a, urlOk).None?
    ensures var r := Resolve(ToEntry(a), platform, host, hash, now);
      && !r.Panicked?
      && (r.Rejected? <==> !PlatformMatches(a.platforms, Effective(platform, host)))
      && (r.Resolved? ==>
            && r.bundle.entrypoint != [] && r.bundle.digest != ""
            && Packs(r.bundle, ToEntry(a), if platform == "" then NormalizePlatform(host) else platform))
  {
    if Resolve(ToEntry(a), platform, host, hash, now).Resolved? {
      ResolvedPacks(ToEntry(a), platform, host, hash, now);
    }
  }

  // ----- Content addressing -----

  ghost predicate Injective(hash: Payload -> string) {
    forall p, q :: hash(p) == hash(q) ==> p == q
  }

  /** Equal in everything but the creation time. */
  predicate SameContent(b: Bundle, c: Bundle) {
    b.(createdAt := 0) == c.(createdAt := 0)
  }

  lemma DigestDeterminesBundle(e: CatalogEntry, p: string, now: int, f: CatalogEntry, q: string, later: int,
    host: string, hash: Payload -> string)
    requires Injective(hash)
    requires Resolve(e, p, host, hash, now).Resolved? && Resolve(f, q, host, hash, later).Resolved?
    requires Resolve(e, p, host, hash, now).bundle.digest == Resolve(f, q, host, hash, later).bundle.digest
    ensures SameContent(Resolve(e, p, host, hash, now).bundle, Resolve(f, q, host, hash, later).bundle)
  {
    var x := Payload(e.id, e.version, Effective(p, host), LaunchOf(e.distribution).entrypoint, e.distribution);
    var y := Payload(f.id, f.version, Effective(q, host), LaunchOf(f.distribution).entrypoint, f.distribution);
    assert ("sha256:" + hash(x))[7..] == hash(x) && ("sha256:" + hash(y))[7..] == hash(y);
    assert hash(x) == hash(y);
  }

  datatype Request = Request(entry: CatalogEntry, platform: string, now: int)

  function ResolutionOf(r: Request, host: string, hash: Payload -> string): Resolution {
    Resolve(r.entry, r.platform, host, hash, r.now)
  }

  /** The bundle store after a list of `ResolveBundle` activities: only successes are put. */
  function BundleStore(requests: seq<Request>, host: string, hash: Payload -> string): map<string, Bundle> {
    if requests == [] then map[]
    else
      var before := BundleStore(requests[..|requests| - 1], host, hash);
      match ResolutionOf(requests[|requests| - 1], host, hash)
      case Resolved(b) => before[b.digest := b]
      case _ => before
  }

  lemma {:induction false} StoredCameFromRequest(requests: seq<Request>, host: string, hash: Payload -> string,
    d: string)
    requires d in BundleStore(requests, host, hash)
    ensures exists i ::
      0 <= i < |requests| && ResolutionOf(requests[i], host, hash) == Resolved(BundleStore(requests, host, hash)[d])
    ensures BundleStore(requests, host, hash)[d].digest == d
  {
    var n := |requests| - 1;
    var last := ResolutionOf(requests[n], host, hash);
    if last.Resolved? && last.bundle.digest == d {
      assert ResolutionOf(requests[n], host, hash) == Resolved(BundleStore(requests, host, hash)[d]);
    } else {
      StoredCameFromRequest(requests[..n], host, hash, d);
      var i :| 0 <= i < n && ResolutionOf(requests[..n][i], host, hash) ==
        Resolved(BundleStore(requests[..n], host, hash)[d]);
      assert requests[..n][i] == requests[i];
    }
  }

  lemma {:induction false} ResolvedIsStored(requests: seq<Request>, host: string, hash: Payload -> string, i: nat)
    requires i < |requests| && ResolutionOf(requests[i], host, hash).Resolved?
    ensures ResolutionOf(requests[i], host, hash).bundle.digest in BundleStore(requests, host, hash)
  {
    var n := |requests| - 1;
    if i < n { ResolvedIsStored(requests[..n], host, hash, i); }
  }

  /** However many activities ran, each resolved bundle is still in the store under its digest, up to
      creation time: no put ever replaced a different bundle. */
  lemma StoreIsContentAddressed(requests: seq<Request>, host: string, hash: Payload -> string, i: nat)
    requires Injective(hash)
    requires i < |requests| && ResolutionOf(requests[i], host, hash).Resolved?
    ensures var b := ResolutionOf(requests[i], host, hash).bundle;
      b.digest in BundleStore(requests, host, hash) && SameContent(BundleStore(requests, host, hash)[b.digest], b)
  {
    var b := ResolutionOf(requests[i], host, hash).bundle;
    ResolvedIsStored(requests, host, hash, i);
    StoredCameFromRequest(requests, host, hash, b.digest);
    var j :| 0 <= j < |requests| && ResolutionOf(requests[j], host, hash) ==
      Resolved(BundleStore(requests, host, hash)[b.digest]);
    DigestDeterminesBundle(requests[j].entry, requests[j].platform, requests[j].now,
                           requests[i].entry, requests[i].platform, requests[i].now, host, hash);
  }

  // ----- control/plan.go -----

  datatype Profile = Profile(
    nodeId: string, workspaceRoot: string, networkPolicy: string, ttlSeconds: int, allowTerminalAuth: bool,
    env: Environment.Env)

  datatype Policy = Policy(hostedMode: bool, allowTerminalAuth: bool)

  datatype CompileInput = CompileInput(
    agent: CatalogEntry, bundle: Bundle, profile: Profile, workingDir: string, sessionEnv: Environment.Env,
    llm: Option<Environment.LLMProfile>, policy: Policy)

  datatype Plan = Plan(
    agent: CatalogEntry, bundle: Bundle, profile: Profile, workingDir: string, injectionEnv: Environment.Env)

  predicate TerminalAuthBlocked(x: CompileInput) {
    !x.profile.allowTerminalAuth && TerminalAuth in x.agent.authModes && x.policy.hostedMode
  }

  /** Compilation succeeds exactly when the agent and bundle are identified, the bundle can be started
      and hosted mode does not block a terminal-auth agent; the plan then always has something to run,
      a working directory, and in hosted mode no more terminal auth than the policy allows. */
  method CompileExecutionPlan(x: CompileInput) returns (r: Result<Plan>)
    ensures r.Ok? <==> x.agent.id != "" && x.bundle.digest != "" && !TerminalAuthBlocked(x) && x.bundle.entrypoint != []
    ensures r.Ok? ==>
      && r.value.agent == x.agent && r.value.bundle == x.bundle && r.value.bundle.entrypoint != []
      && r.value.profile.env == x.profile.env && r.value.profile.nodeId == x.profile.nodeId
      && r.value.profile.workspaceRoot == (if x.profile.workspaceRoot == "" then "/workspace"
        else x.profile.workspaceRoot)
      && r.value.profile.networkPolicy == (if x.profile.networkPolicy == "" then "default" else x.profile.networkPolicy)
      && r.value.profile.ttlSeconds == (if x.profile.ttlSeconds == 0 then 900 else x.profile.ttlSeconds)
      && r.value.workingDir == (if Blank(x.workingDir) then r.value.profile.workspaceRoot else x.workingDir)
      && (r.value.profile.allowTerminalAuth <==>
            x.profile.allowTerminalAuth && (x.policy.hostedMode ==> x.policy.allowTerminalAuth))
      && r.value.injectionEnv == Environment.Injected(x.agent.defaultEnv, x.sessionEnv, x.llm)
  {
    if x.agent.id == "" {
      return Err("agent id required");
    }
    if x.bundle.digest == "" {
      return Err("bundle digest required");
    }
    if x.profile.allowTerminalAuth == false && TerminalAuth in x.agent.authModes && x.policy.hostedMode {
      return Err("terminal auth disabled in hosted mode");
    }
    var env := Environment.InjectionEnv(x.agent.defaultEnv, x.sessionEnv, x.llm);
    var plan := Plan(x.agent, x.bundle, x.profile, x.workingDir, env);
    if plan.profile.workspaceRoot == "" {
      plan := plan.(profile := plan.profile.(workspaceRoot := "/workspace"));
    }
    if plan.profile.networkPolicy == "" {
      plan := plan.(profile := plan.profile.(networkPolicy := "default"));
    }
    if plan.profile.ttlSeconds == 0 {
      plan := plan.(profile := plan.profile.(ttlSeconds := 15 * 60));
    }
    if plan.bundle.entrypoint == [] {
      return Err("bundle has no entrypoint");
    }
    if x.policy.hostedMode {
      plan := plan.(profile := plan.profile.(allowTerminalAuth := x.policy.allowTerminalAuth
        && plan.profile.allowTerminalAuth));
    }
    if Blank(plan.workingDir) {
      plan := plan.(workingDir := plan.profile.workspaceRoot);
    }
    return Ok(plan);
  }

  /** From registry to plan: a parsed agent that resolves compiles exactly when terminal auth is not
      blocked, and the entrypoint the supervisor indexes is never empty. */
  method CompileParsed(
    a: RegistryAgent, urlOk: string -> bool, platform: string, host: string, hash: Payload -> string, now: int,
    profile: Profile, workingDir: string, sessionEnv: Environment.Env, llm: Option<Environment.LLMProfile>,
    policy: Policy)
    returns (r: Result<Plan>)
    requires ValidateAgent(a, urlOk).None?
    ensures r.Ok? <==>
      && PlatformMatches(a.platforms, Effective(platform, host))
      && !(policy.hostedMode && TerminalAuth in a.authModes && !profile.allowTerminalAuth)
    ensures r.Ok? ==> r.value.bundle.entrypoint != []
  {
    ParsedEntryResolves(a, urlOk, platform, host, hash, now);
    var resolution := ResolveBundle(ToEntry(a), platform, host, hash, now);
    if resolution.Rejected? {
      return Err(resolution.error);
    }
    var input := CompileInput(ToEntry(a), resolution.bundle, profile, workingDir, sessionEnv, llm, policy);
    r := CompileExecutionPlan(input);
  }
}
