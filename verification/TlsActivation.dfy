/**
 Activating TLS material (`_activate_tls_material`): certificate, key and host configuration are
 written file by file, and any failure puts every touched file back.
 */
module TlsActivation {
  import opened Wrappers
  import opened KeyValueFile

  datatype Install = Docker | Systemd

  datatype Path =
    | ServerCrt | ServerKey | SourceMarker | HostFile | Metadata | CertbotHook
    | DockerEnv | PublicConf | BackendEnv | NginxConf | Other(name: string)

  datatype File = File(content: string, mode: nat)

  type Files = map<Path, File>

  /** A write can fail before or after it has replaced the file. */
  datatype Fate = Succeeds | FailsBefore | FailsAfter

  const PRIVATE := 0x180     // 0600
  const EXECUTABLE := 0x1c0  // 0700

  /**
   What is to be activated, and how each external step turns out. `nginx` is the site file with
   its server name replaced, if it has one; `hook` is the renewal script, if it is wanted.
   */
  datatype Plan = Plan(
    install: Install, cert: string, key: string, hostname: string, selfSigned: bool, metadata: string,
    nginx: Option<string>, hook: Option<string>, fates: map<Path, Fate>, proxyAccepts: bool)

  function FateOf(plan: Plan, path: Path): Fate {
    if path in plan.fates then plan.fates[path] else Succeeds
  }

  function Lookup(files: Files, path: Path): Option<File> {
    if path in files then Some(files[path]) else None
  }

  /** The paths that are saved before anything is written. */
  function ConfigPaths(install: Install): seq<Path> {
    [ServerCrt, ServerKey, SourceMarker, HostFile, Metadata, CertbotHook]
    + if install == Docker then [DockerEnv] else [PublicConf, BackendEnv, NginxConf]
  }

  // ----- The outcome of a successful activation -----

  function WithMaterial(files: Files, plan: Plan): Files {
    files[ServerCrt := File(plan.cert, PRIVATE)]
         [ServerKey := File(plan.key, PRIVATE)]
         [SourceMarker := File((if plan.selfSigned then "managed-self-signed" else "custom") + "\n", PRIVATE)]
         [HostFile := File(plan.hostname + "\n", PRIVATE)]
         [Metadata := File(plan.metadata, PRIVATE)]
  }

  function WithSetting(files: Files, path: Path, key: string, value: string): Files
    requires path in files
  {
    files[path := files[path].(content := Edit(files[path].content, key, value))]
  }

  predicate HasConfiguration(files: Files, install: Install) {
    if install == Docker then DockerEnv in files else PublicConf in files && BackendEnv in files
  }

  function WithNginx(files: Files, plan: Plan): Files {
    if NginxConf in files && plan.nginx.Some? then files[NginxConf := files[NginxConf].(content := plan.nginx.value)] else files
  }

  function WithHostname(files: Files, plan: Plan): Files
    requires HasConfiguration(files, plan.install)
  {
    if plan.install == Docker then WithSetting(files, DockerEnv, "CP_PUBLIC_HOST", plan.hostname)
    else WithNginx(WithSetting(WithSetting(files, PublicConf, "host", plan.hostname), BackendEnv, "CP_PUBLIC_HOST", plan.hostname), plan)
  }

  function WithHook(files: Files, plan: Plan): Files {
    if plan.hook.Some? then files[CertbotHook := File(plan.hook.value, EXECUTABLE)] else files - {CertbotHook}
  }

  function Activated(files: Files, plan: Plan): Files
    requires HasConfiguration(files, plan.install)
  {
    WithHook(WithHostname(WithMaterial(files, plan), plan), plan)
  }

  /** Every file of the activated material, by name: contents, and modes 0600 and 0700. */
  predicate Installed(files: Files, plan: Plan) {
    && Lookup(files, ServerCrt) == Some(File(plan.cert, 0x180))
    && Lookup(files, ServerKey) == Some(File(plan.key, 0x180))
    && Lookup(files, SourceMarker) == Some(File(if plan.selfSigned then "managed-self-signed\n" else "custom\n", 0x180))
    && Lookup(files, HostFile) == Some(File(plan.hostname + "\n", 0x180))
    && Lookup(files, Metadata) == Some(File(plan.metadata, 0x180))
    && Lookup(files, CertbotHook) == (if plan.hook.Some? then Some(File(plan.hook.value, 0x1c0)) else None)
  }

  /** The file has the setting at the new value and is otherwise unchanged, its mode included. */
  predicate Reset(before: Files, after: Files, path: Path, key: string, value: string) {
    path in before && path in after && after[path] == File(Edit(before[path].content, key, value), before[path].mode)
  }

  /** The hostname stands in the configuration of the installation. */
  predicate Configured(before: Files, after: Files, plan: Plan) {
    if plan.install == Docker then Reset(before, after, DockerEnv, "CP_PUBLIC_HOST", plan.hostname)
    else
      && Reset(before, after, PublicConf, "host", plan.hostname)
      && Reset(before, after, BackendEnv, "CP_PUBLIC_HOST", plan.hostname)
      && Lookup(after, NginxConf) ==
           if NginxConf in before && plan.nginx.Some? then Some(File(plan.nginx.value, before[NginxConf].mode))
           else Lookup(before, NginxConf)
  }

  const HOST_PATHS := {DockerEnv, PublicConf, BackendEnv, NginxConf}

  lemma MaterialIsInstalled(files: Files, plan: Plan)
    ensures var after := WithMaterial(files, plan);
            && Installed(WithHook(after, plan), plan)
            && forall p :: p in HOST_PATHS ==> Lookup(after, p) == Lookup(files, p)
  {
    assert "managed-self-signed" + "\n" == "managed-self-signed\n" && "custom" + "\n" == "custom\n";
  }

  lemma HostnameIsConfigured(files: Files, plan: Plan)
    requires HasConfiguration(files, plan.install)
    ensures Configured(files, WithHostname(files, plan), plan)
    ensures forall p :: p !in HOST_PATHS ==> Lookup(WithHostname(files, plan), p) == Lookup(files, p)
  {
  }

  lemma HookOnly(files: Files, plan: Plan)
    ensures forall p :: p != CertbotHook ==> Lookup(WithHook(files, plan), p) == Lookup(files, p)
    ensures Lookup(WithHook(files, plan), CertbotHook) == if plan.hook.Some? then Some(File(plan.hook.value, 0x1c0)) else None
  {
  }

  /** `Installed` and `Configured` look at these paths only. */
  lemma InstalledElsewhere(a: Files, b: Files, plan: Plan)
    requires Installed(a, plan) && forall p :: p !in HOST_PATHS ==> Lookup(b, p) == Lookup(a, p)
    ensures Installed(b, plan)
  {
  }

  lemma ConfiguredElsewhere(before: Files, after: Files, a: Files, b: Files, plan: Plan)
    requires Configured(a, b, plan)
    requires forall p :: p in HOST_PATHS ==> Lookup(before, p) == Lookup(a, p) && Lookup(after, p) == Lookup(b, p)
    ensures Configured(before, after, plan)
  {
    forall p | p in HOST_PATHS
      ensures (p in before <==> p in a) && (p in after <==> p in b) && (p in a ==> before[p] == a[p]) && (p in b ==> after[p] == b[p])
    {
      assert Lookup(before, p) == Lookup(a, p) && Lookup(after, p) == Lookup(b, p);
    }
  }

  lemma HookCommutes(a: Files, b: Files, plan: Plan)
    requires forall p :: p !in HOST_PATHS ==> Lookup(b, p) == Lookup(a, p)
    ensures forall p :: p !in HOST_PATHS ==> Lookup(WithHook(b, plan), p) == Lookup(WithHook(a, plan), p)
  {
    HookOnly(a, plan);
    HookOnly(b, plan);
  }

  lemma HostnameKeepsMaterial(material: Files, plan: Plan)
    requires HasConfiguration(material, plan.install) && Installed(WithHook(material, plan), plan)
    ensures Installed(WithHook(WithHostname(material, plan), plan), plan)
  {
    var named := WithHostname(material, plan);
    HostnameIsConfigured(material, plan);
    HookCommutes(material, named, plan);
    InstalledElsewhere(WithHook(material, plan), WithHook(named, plan), plan);
  }

  lemma HookKeepsHostname(files: Files, material: Files, plan: Plan)
    requires HasConfiguration(material, plan.install) && forall p :: p in HOST_PATHS ==> Lookup(material, p) == Lookup(files, p)
    ensures Configured(files, WithHook(WithHostname(material, plan), plan), plan)
  {
    var named := WithHostname(material, plan);
    HostnameIsConfigured(material, plan);
    HookOnly(named, plan);
    ConfiguredElsewhere(files, WithHook(named, plan), material, named, plan);
  }

  /** What a successful activation leaves on disk. */
  lemma ActivatedFiles(files: Files, plan: Plan)
    requires HasConfiguration(files, plan.install)
    ensures Installed(Activated(files, plan), plan) && Configured(files, Activated(files, plan), plan)
  {
    MaterialIsInstalled(files, plan);
    HostnameKeepsMaterial(WithMaterial(files, plan), plan);
    HookKeepsHostname(files, WithMaterial(files, plan), plan);
  }

  predicate MaterialWrites(plan: Plan) {
    forall p :: p in {ServerCrt, ServerKey, SourceMarker, HostFile, Metadata} ==> FateOf(plan, p).Succeeds?
  }

  predicate HostnameWrites(files: Files, plan: Plan) {
    if plan.install == Docker then FateOf(plan, DockerEnv).Succeeds?
    else
      && FateOf(plan, PublicConf).Succeeds?
      && FateOf(plan, BackendEnv).Succeeds?
      && (NginxConf in files && plan.nginx.Some? ==> FateOf(plan, NginxConf).Succeeds?)
  }

  /** Nothing goes wrong on the way. */
  predicate Feasible(files: Files, plan: Plan) {
    && HasConfiguration(files, plan.install)
    && MaterialWrites(plan)
    && HostnameWrites(files, plan)
    && FateOf(plan, CertbotHook).Succeeds?
    && plan.proxyAccepts
  }

  /** Nothing outside these paths differs. */
  ghost predicate SameOutside(a: Files, b: Files, paths: seq<Path>) {
    forall p :: p !in paths ==> Lookup(a, p) == Lookup(b, p)
  }

  datatype Result = Refused | Failed | HalfRestored | Done | StatusFailed

  class Host {
    var files: Files

    method Write(path: Path, file: File, fate: Fate) returns (ok: bool)
      modifies this
      ensures ok == fate.Succeeds?
      ensures files == if fate.FailsBefore? then old(files) else old(files)[path := file]
    {
      if fate.FailsBefore? {
        return false;
      }
      files := files[path := file];
      return fate.Succeeds?;
    }

    method SetKv(path: Path, key: string, value: string, fate: Fate) returns (ok: bool)
      requires path in files
      modifies this
      ensures ok == fate.Succeeds?
      ensures files == if fate.FailsBefore? then old(files) else WithSetting(old(files), path, key, value)
    {
      var text := SetKvValue(files[path].content, key, value);
      ok := Write(path, files[path].(content := text), fate);
    }

    /** Contents and modes, with None for a missing file. */
    method SnapshotPaths(paths: seq<Path>) returns (snapshot: map<Path, Option<File>>)
      ensures forall p :: p in snapshot <==> p in paths
      ensures forall p :: p in snapshot ==> snapshot[p] == Lookup(files, p)
    {
      snapshot := map[];
      for i := 0 to |paths|
        invariant forall p :: p in snapshot <==> p in paths[..i]
        invariant forall p :: p in snapshot ==> snapshot[p] == Lookup(files, p)
      {
        if paths[i] in files {
          snapshot := snapshot[paths[i] := Some(files[paths[i]])];
        } else {
          snapshot := snapshot[paths[i] := None];
        }
      }
    }

    /** A failing write ends the restoration; until then each path is put back, in any order. */
    method RestorePaths(snapshot: map<Path, Option<File>>, broken: set<Path>) returns (ok: bool)
      modifies this
      ensures ok <==> snapshot.Keys !! broken
      ensures ok ==> forall p :: Lookup(files, p) == if p in snapshot then snapshot[p] else Lookup(old(files), p)
      ensures forall p :: Lookup(files, p) == Lookup(old(files), p) || (p in snapshot && Lookup(files, p) == snapshot[p])
    {
      var left := snapshot.Keys;
      while left != {}
        invariant left <= snapshot.Keys && (snapshot.Keys - left) !! broken
        invariant forall p :: Lookup(files, p) == if p in snapshot.Keys - left then snapshot[p] else Lookup(old(files), p)
        decreases |left|
      {
        var p :| p in left;
        if p in broken {
          return false;
        }
        if snapshot[p].None? {
          files := files - {p};
        } else {
          files := files[p := snapshot[p].value];
        }
        left := left - {p};
      }
      return true;
    }

    method WriteMaterial(plan: Plan) returns (ok: bool)
      modifies this
      ensures ok ==> files == WithMaterial(old(files), plan)
      ensures ok <==> MaterialWrites(plan)
      ensures SameOutside(old(files), files, ConfigPaths(plan.install))
      ensures HasConfiguration(files, plan.install) <==> HasConfiguration(old(files), plan.install)
      ensures NginxConf in files <==> NginxConf in old(files)
    {
      ok := Write(ServerCrt, File(plan.cert, PRIVATE), FateOf(plan, ServerCrt));
      if !ok { return; }
      ok := Write(ServerKey, File(plan.key, PRIVATE), FateOf(plan, ServerKey));
      if !ok { return; }
      var marker := if plan.selfSigned then "managed-self-signed" else "custom";
      ok := Write(SourceMarker, File(marker + "\n", PRIVATE), FateOf(plan, SourceMarker));
      if !ok { return; }
      ok := Write(HostFile, File(plan.hostname + "\n", PRIVATE), FateOf(plan, HostFile));
      if !ok { return; }
      ok := Write(Metadata, File(plan.metadata, PRIVATE), FateOf(plan, Metadata));
    }

    method SetPublicHostname(plan: Plan) returns (ok: bool)
      modifies this
      ensures ok <==> HasConfiguration(old(files), plan.install) && HostnameWrites(old(files), plan)
      ensures ok ==> files == WithHostname(old(files), plan)
      ensures SameOutside(old(files), files, ConfigPaths(plan.install))
    {
      if plan.install == Docker {
        if DockerEnv !in files {
          return false;
        }
        ok := SetKv(DockerEnv, "CP_PUBLIC_HOST", plan.hostname, FateOf(plan, DockerEnv));
        return;
      }
      if PublicConf !in files || BackendEnv !in files {
        return false;
      }
      ok := SetKv(PublicConf, "host", plan.hostname, FateOf(plan, PublicConf));
      if !ok { return; }
      ok := SetKv(BackendEnv, "CP_PUBLIC_HOST", plan.hostname, FateOf(plan, BackendEnv));
      if !ok { return; }
      if NginxConf in files && plan.nginx.Some? {
        ok := Write(NginxConf, files[NginxConf].(content := plan.nginx.value), FateOf(plan, NginxConf));
      }
    }

    method WriteHook(plan: Plan) returns (ok: bool)
      modifies this
      ensures ok <==> FateOf(plan, CertbotHook).Succeeds?
      ensures ok ==> files == WithHook(old(files), plan)
      ensures SameOutside(old(files), files, [CertbotHook])
    {
      if plan.hook.None? {
        if !FateOf(plan, CertbotHook).FailsBefore? {
          files := files - {CertbotHook};
        }
        return FateOf(plan, CertbotHook).Succeeds?;
      }
      ok := Write(CertbotHook, File(plan.hook.value, EXECUTABLE), FateOf(plan, CertbotHook));
    }

    method Forward(plan: Plan) returns (ok: bool)
      modifies this
      ensures ok <==> Feasible(old(files), plan)
      ensures ok ==> Installed(files, plan) && Configured(old(files), files, plan)
      ensures ok ==> files == Activated(old(files), plan)
      ensures SameOutside(old(files), files, ConfigPaths(plan.install))
    {
      ok := WriteMaterial(plan);
      if !ok { return; }
      ok := SetPublicHostname(plan);
      if !ok { return; }
      ok := WriteHook(plan);
      if !ok { return; }
      ActivatedFiles(old(files), plan);
      ok := plan.proxyAccepts;
    }

    /**
     `updating`, `pairValid` and `statusReads` are the update check, openssl's verdict and the final
     status report; `broken` are the paths that cannot be written back.
     */
    method Activate(plan: Plan, updating: bool, pairValid: bool, broken: set<Path>, statusReads: bool) returns (r: Result)
      modifies this
      ensures r == Refused <==> updating || !ValidHostname(plan.hostname) || !pairValid
      ensures r != Refused ==> (r in {Failed, HalfRestored} <==> !Feasible(old(files), plan))
      ensures r == Failed ==> forall p :: p in ConfigPaths(plan.install) ==> p !in broken
      ensures r == HalfRestored ==> exists p :: p in ConfigPaths(plan.install) && p in broken
      ensures r == StatusFailed ==> !statusReads
      ensures r == Done ==> statusReads
      ensures r in {Refused, Failed} ==> files == old(files)
      ensures r == HalfRestored ==> SameOutside(old(files), files, ConfigPaths(plan.install))
      ensures r in {Done, StatusFailed} ==> Installed(files, plan) && Configured(old(files), files, plan)
      ensures r in {Done, StatusFailed} ==> files == Activated(old(files), plan)
    {
      if updating || !ValidHostname(plan.hostname) || !pairValid {
        return Refused;
      }
      var snapshot := SnapshotPaths(ConfigPaths(plan.install));
      var ok := Forward(plan);
      if !ok {
        ok := RestorePaths(snapshot, broken);
        if !ok {
          return HalfRestored;
        }
        SameLookup(files, old(files));
        return Failed;
      }
      if !statusReads {
        return StatusFailed;
      }
      return Done;
    }
  }

  lemma SameLookup(a: Files, b: Files)
    requires forall p :: Lookup(a, p) == Lookup(b, p)
    ensures a == b
  {
    forall p ensures p in a <==> p in b {
      assert Lookup(a, p) == Lookup(b, p);
    }
    forall p | p in a ensures a[p] == b[p] {
      assert Lookup(a, p) == Lookup(b, p);
    }
  }

  // ----- Reading the endpoint back -----

  predicate Alphanumeric(c: char) {
    'a' <= c <= 'z' || 'A' <= c <= 'Z' || '0' <= c <= '9'
  }

  predicate ValidHostname(h: string) {
    && 1 <= |h| <= 253
    && Alphanumeric(h[0])
    && Alphanumeric(h[|h| - 1])
    && (forall i :: 0 <= i < |h| ==> Alphanumeric(h[i]) || h[i] in {'.', '-'})
    && (forall i :: 1 <= i < |h| ==> !(h[i] == '.' && h[i - 1] == '.'))
  }

  function EnvPath(install: Install): Path {
    if install == Docker then DockerEnv else PublicConf
  }

  function HostKey(install: Install): string {
    if install == Docker then "CP_PUBLIC_HOST" else "host"
  }

  function PortKey(install: Install): string {
    if install == Docker then "CP_HTTPS_PORT" else "port"
  }

  function SettingsAt(files: Files, path: Path): Settings {
    if path in files then Parse(files[path].content) else map[]
  }

  function PublicEndpoint(files: Files, install: Install): Option<(string, string)> {
    var settings := SettingsAt(files, EnvPath(install));
    var host, port := Setting(settings, HostKey(install)), Setting(settings, PortKey(install));
    if host == "" || port == "" then None else Some((host, port))
  }

  lemma HostnameIsWritable(h: string, key: string)
    requires ValidHostname(h) && key in {"CP_PUBLIC_HOST", "host"}
    ensures Writable(key, h) && Strip(h) == h
  {
  }

  lemma ActivatedConfiguration(files: Files, plan: Plan)
    requires HasConfiguration(files, plan.install)
    ensures var path := EnvPath(plan.install);
            path in files && path in Activated(files, plan)
            && Activated(files, plan)[path] == files[path].(content := Edit(files[path].content, HostKey(plan.install), plan.hostname))
  {
  }

  /** After an activation every setting but the host is as before. */
  lemma OnlyHostChanges(files: Files, plan: Plan)
    requires HasConfiguration(files, plan.install) && ValidHostname(plan.hostname)
    ensures var path := EnvPath(plan.install);
            SettingsAt(Activated(files, plan), path) == SettingsAt(files, path)[HostKey(plan.install) := plan.hostname]
  {
    ActivatedConfiguration(files, plan);
    HostnameIsWritable(plan.hostname, HostKey(plan.install));
    SetThenParse(files[EnvPath(plan.install)].content, HostKey(plan.install), plan.hostname);
  }

  /** So the endpoint reads back as the new hostname with the old port. */
  lemma EndpointReadsBack(files: Files, plan: Plan)
    requires HasConfiguration(files, plan.install) && ValidHostname(plan.hostname)
    ensures var port := Setting(SettingsAt(files, EnvPath(plan.install)), PortKey(plan.install));
            PublicEndpoint(Activated(files, plan), plan.install) == if port == "" then None else Some((plan.hostname, port))
  {
    OnlyHostChanges(files, plan);
    HostnameIsWritable(plan.hostname, HostKey(plan.install));
    EndpointOf(SettingsAt(files, EnvPath(plan.install)), HostKey(plan.install), PortKey(plan.install), plan.hostname);
  }

  lemma EndpointOf(settings: Settings, hostKey: string, portKey: string, h: string)
    requires hostKey != portKey && Strip(h) == h
    ensures Setting(settings[hostKey := h], hostKey) == h
    ensures Setting(settings[hostKey := h], portKey) == Setting(settings, portKey)
  {
  }
}
