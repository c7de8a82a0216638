/** The compiler from registry mirrors and insecure registries to containerd's hosts.toml files. */
module Registry {
  import opened Names
  import opened Sorting
  import opened MirrorURL
  import Query

  // ---------------------------------------------------------------- data

  datatype Endpoint = Endpoint(url: string, overridePath: bool)

  datatype HostConfig = HostConfig(endpoints: seq<Endpoint>, insecure: bool)

  datatype HostEntry = HostEntry(skipVerify: bool, overridePath: bool)

  /** A hosts.toml file before it is printed; every host has the same two capabilities. */
  datatype Hosts = Hosts(server: string, host: map<string, HostEntry>)

  const DOCKER_UPSTREAM := "https://registry-1.docker.io"

  // ---------------------------------------------------------------- per registry

  ghost function EndpointOf(p: Parser, mirror: string): Endpoint {
    Endpoint(Strip(p, mirror), OverridePath(p, mirror))
  }

  ghost function EndpointsOf(p: Parser, mirrors: seq<string>): (es: seq<Endpoint>)
    ensures |es| == |mirrors| && forall i :: 0 <= i < |es| ==> es[i] == EndpointOf(p, mirrors[i])
  {
    if mirrors == [] then [] else [EndpointOf(p, mirrors[0])] + EndpointsOf(p, mirrors[1..])
  }

  /** What `hub` starts with before mirrors are read. */
  function Upstream(): HostConfig {
    HostConfig([Endpoint(DOCKER_UPSTREAM, false)], false)
  }

  /** Configured mirrors, even none, replace the upstream that `hub` starts with. */
  ghost function MirrorConfigs(p: Parser, hub: string, mirrors: map<string, seq<string>>): map<string, HostConfig> {
    map r | r in {hub} + mirrors.Keys ::
      if r in mirrors then HostConfig(EndpointsOf(p, mirrors[r]), false) else Upstream()
  }

  function MarkOne(configs: map<string, HostConfig>, name: string): map<string, HostConfig> {
    configs[name := (if name in configs then configs[name] else HostConfig([], false)).(insecure := true)]
  }

  function MarkInsecure(configs: map<string, HostConfig>, insecure: seq<string>): map<string, HostConfig> {
    if insecure == [] then configs
    else MarkOne(MarkInsecure(configs, insecure[..|insecure| - 1]), insecure[|insecure| - 1])
  }

  /** The settings of all registries. */
  ghost function Configs(p: Parser, hub: string, mirrors: map<string, seq<string>>,
      insecure: seq<string>): map<string, HostConfig> {
    MarkInsecure(MirrorConfigs(p, hub, mirrors), insecure)
  }

  /** Registry by registry: mirrors and marks are looked up independently of each other and of their
      order. */
  lemma {:induction false} ConfigOf(p: Parser, hub: string, mirrors: map<string, seq<string>>, insecure: seq<string>,
      name: string)
    ensures var m := Configs(p, hub, mirrors, insecure);
      && (name in m <==> name == hub || name in mirrors || name in insecure)
      && (name in m ==>
            && m[name].insecure == (name in insecure)
            && m[name].endpoints == (if name in mirrors then EndpointsOf(p, mirrors[name])
                 else if name == hub then Upstream().endpoints else []))
  {
    if insecure != [] {
      var n := |insecure| - 1;
      ConfigOf(p, hub, mirrors, insecure[..n], name);
      assert insecure == insecure[..n] + [insecure[n]];
    }
  }

  // ---------------------------------------------------------------- per file

  /** Mirrors or an insecure mark give a registry a file. */
  predicate Active(c: HostConfig) {
    c.endpoints != [] || c.insecure
  }

  /** The host part of a registry name: the text before the first slash. */
  function RegistryHost(name: string): string {
    if name == "" || name[0] == '/' then "" else [name[0]] + RegistryHost(name[1..])
  }

  /** Both catch-all names share one directory. */
  function DirOf(name: string): string {
    var host := RegistryHost(name);
    if host == "*" then "_default" else host
  }

  function ServerOf(name: string): string {
    var host := RegistryHost(name);
    if host == DOCKER then DOCKER_UPSTREAM
    else if host == "*" || host == "_default" then ""
    else name
  }

  function PathOf(name: string): string {
    "/etc/containerd/certs.d/" + DirOf(name) + "/hosts.toml"
  }

  /** One entry per mirror URL; of equal URLs the last one counts. */
  function Entries(endpoints: seq<Endpoint>, insecure: bool): map<string, HostEntry> {
    if endpoints == [] then map[]
    else
      var last := endpoints[|endpoints| - 1];
      Entries(endpoints[..|endpoints| - 1], insecure)[last.url := HostEntry(insecure, last.overridePath)]
  }

  function HostsOf(name: string, c: HostConfig): Hosts {
    var entries := Entries(c.endpoints, c.insecure);
    Hosts(ServerOf(name),
      if c.endpoints == [] && c.insecure then entries[ServerOf(name) := HostEntry(true, false)] else entries)
  }

  /** The registry that owns a file: the byte-wise greatest active one of its directory. */
  ghost predicate Owner(configs: map<string, HostConfig>, path: string, name: string) {
    && name in configs && Active(configs[name]) && PathOf(name) == path
    && forall other :: other in configs && Active(configs[other]) && PathOf(other) == path && other != name
        ==> Less(other, name)
  }

  /** The whole output: one file for each directory with an active registry, written by its owner. */
  ghost predicate Compiled(configs: map<string, HostConfig>, files: map<string, Hosts>) {
    && (forall path :: path in files <==> exists name :: Owner(configs, path, name))
    && (forall path, name :: Owner(configs, path, name) ==> files[path] == HostsOf(name, configs[name]))
  }

  // ---------------------------------------------------------------- the engine

  class Containerd {
    const insecureRegistries: seq<string>
    const registryMirrors: map<string, array<string>>
    const parser: Parser

    constructor (parser: Parser, registryMirrors: map<string, array<string>>, insecureRegistries: seq<string>)
      ensures this.parser == parser && this.registryMirrors == registryMirrors
      ensures this.insecureRegistries == insecureRegistries
    {
      this.parser := parser;
      this.registryMirrors := registryMirrors;
      this.insecureRegistries := insecureRegistries;
    }

    ghost function Mirrors(): map<string, seq<string>>
      reads set k | k in registryMirrors :: registryMirrors[k]
    {
      map k | k in registryMirrors :: registryMirrors[k][..]
    }

    /** Per-registry settings from mirrors and insecure marks. The mirror lists, which all engines of
        a process share, are only read. */
    method BuildRegistryHostConfigs(hub: string) returns (configs: map<string, HostConfig>)
      ensures configs == Configs(parser, hub, Mirrors(), insecureRegistries)
    {
      configs := ProcessMirrors(hub);
      ghost var base := configs;
      for i := 0 to |insecureRegistries|
        invariant configs == MarkInsecure(base, insecureRegistries[..i])
      {
        var name := insecureRegistries[i];
        assert insecureRegistries[..i + 1][..i] == insecureRegistries[..i];
        var config := if name in configs then configs[name] else HostConfig([], false);
        configs := configs[name := config.(insecure := true)];
      }
      assert insecureRegistries[..|insecureRegistries|] == insecureRegistries;
    }

    method ProcessMirrors(hub: string) returns (configs: map<string, HostConfig>)
      ensures configs == MirrorConfigs(parser, hub, Mirrors())
    {
      configs := map[hub := Upstream()];
      var rest := registryMirrors.Keys;
      ghost var mirrors := Mirrors();
      NothingVisited(parser, hub, mirrors);
      while rest != {}
        invariant rest <= mirrors.Keys
        invariant Visited(parser, hub, mirrors, rest, configs)
      {
        var name :| name in rest;
        var endpoints := ParseMirrors(registryMirrors[name]);
        VisitOne(parser, hub, mirrors, rest, configs, name);
        configs := configs[name := HostConfig(endpoints, false)];
        rest := rest - {name};
      }
    }

    method ParseMirrors(urls: array<string>) returns (endpoints: seq<Endpoint>)
      ensures endpoints == EndpointsOf(parser, urls[..])
    {
      endpoints := [];
      for i := 0 to urls.Length
        invariant |endpoints| == i
        invariant forall j :: 0 <= j < i ==> endpoints[j] == EndpointOf(parser, urls[j])
      {
        var stripped := StripKubermaticParam(parser, urls[i]);
        endpoints := endpoints + [Endpoint(stripped, OverridePath(parser, urls[i]))];
      }
    }

    method HostEntries(endpoints: seq<Endpoint>, insecure: bool) returns (host: map<string, HostEntry>)
      ensures host == Entries(endpoints, insecure)
    {
      host := map[];
      for i := 0 to |endpoints|
        invariant host == Entries(endpoints[..i], insecure)
      {
        assert endpoints[..i + 1][..i] == endpoints[..i];
        host := host[endpoints[i].url := HostEntry(insecure, endpoints[i].overridePath)];
      }
      assert endpoints[..|endpoints|] == endpoints;
    }

    /** All hosts.toml files, in whatever order the maps are iterated. */
    method RegistryHostConfigs() returns (files: map<string, Hosts>)
      ensures Compiled(Configs(parser, DOCKER, Mirrors(), insecureRegistries), files)
    {
      var configs := BuildRegistryHostConfigs(DOCKER);
      var keys := Query.CollectKeys(configs.Keys);
      var names := SortUnique(keys);
      files := WriteFiles(configs, names);
      WrittenIsCompiled(configs, names);
    }

    method WriteFiles(configs: map<string, HostConfig>, names: seq<string>) returns (files: map<string, Hosts>)
      requires forall x :: x in names ==> x in configs
      ensures files == Written(configs, names)
    {
      files := map[];
      for i := 0 to |names|
        invariant files == Written(configs, names[..i])
      {
        var name := names[i];
        assert names[..i + 1][..i] == names[..i];
        if Active(configs[name]) {
          var hosts := CompileHosts(name, configs[name]);
          files := files[PathOf(name) := hosts];
        }
      }
      assert names[..|names|] == names;
    }

    method CompileHosts(name: string, c: HostConfig) returns (hosts: Hosts)
      ensures hosts == HostsOf(name, c)
    {
      var host := HostEntries(c.endpoints, c.insecure);
      if c.endpoints == [] && c.insecure {
        host := host[ServerOf(name) := HostEntry(true, false)];
      }
      hosts := Hosts(ServerOf(name), host);
    }
  }

  /** All registries but `rest` have their mirrors. */
  ghost predicate Visited(p: Parser, hub: string, mirrors: map<string, seq<string>>, rest: set<string>,
                          configs: map<string, HostConfig>)
  {
    configs == MirrorConfigs(p, hub, mirrors - rest)
  }

  lemma VisitOne(p: Parser, hub: string, mirrors: map<string, seq<string>>, rest: set<string>,
                 configs: map<string, HostConfig>, name: string)
    requires rest <= mirrors.Keys && name in rest && Visited(p, hub, mirrors, rest, configs)
    ensures Visited(p, hub, mirrors, rest - {name}, configs[name := HostConfig(EndpointsOf(p, mirrors[name]), false)])
  {
    assert (mirrors - (rest - {name})).Keys == (mirrors - rest).Keys + {name};
  }

  lemma NothingVisited(p: Parser, hub: string, mirrors: map<string, seq<string>>)
    ensures Visited(p, hub, mirrors, mirrors.Keys, map[hub := Upstream()])
    ensures mirrors - {} == mirrors
  {
    assert mirrors - mirrors.Keys == map[];
  }

  // ---------------------------------------------------------------- why the loop computes owners

  /** Files after visiting `names` in order: a later registry of a directory overwrites an earlier. */
  function Written(configs: map<string, HostConfig>, names: seq<string>): map<string, Hosts>
    requires forall x :: x in names ==> x in configs
  {
    if names == [] then map[]
    else
      var last := names[|names| - 1];
      var before := Written(configs, names[..|names| - 1]);
      if Active(configs[last]) then before[PathOf(last) := HostsOf(last, configs[last])] else before
  }

  /** `name` is the greatest active registry of its directory among `names`. */
  ghost predicate Greatest(configs: map<string, HostConfig>, names: seq<string>, path: string, name: string)
    requires forall x :: x in names ==> x in configs
  {
    && name in names && Active(configs[name]) && PathOf(name) == path
    && forall other :: other in names && Active(configs[other]) && PathOf(other) == path && other != name
        ==> Less(other, name)
  }

  lemma {:induction false} WrittenByGreatest(configs: map<string, HostConfig>, names: seq<string>, path: string)
    requires Increasing(names) && forall x :: x in names ==> x in configs
    ensures path in Written(configs, names) ==>
      exists name :: Greatest(configs, names, path, name)
          && Written(configs, names)[path] == HostsOf(name, configs[name])
    ensures forall name :: name in names && Active(configs[name]) && PathOf(name) == path ==>
      path in Written(configs, names)
  {
    if names != [] {
      var n := |names| - 1;
      var last, init := names[n], names[..n];
      assert names == init + [last];
      WrittenByGreatest(configs, init, path);
      if Active(configs[last]) && PathOf(last) == path {
        assert forall other :: other in init ==> Less(other, last);
        assert Greatest(configs, names, path, last);
      } else if path in Written(configs, init) {
        var name :| Greatest(configs, init, path, name) && Written(configs, init)[path] == HostsOf(name, configs[name]);
        assert Greatest(configs, names, path, name);
      }
    }
  }

  lemma OneOwner(configs: map<string, HostConfig>, path: string, a: string, b: string)
    requires Owner(configs, path, a) && Owner(configs, path, b)
    ensures a == b
  {
    LessTotal(a, b);
  }

  lemma WrittenIsCompiled(configs: map<string, HostConfig>, names: seq<string>)
    requires Increasing(names) && forall x :: x in names <==> x in configs
    ensures Compiled(configs, Written(configs, names))
  {
    var files := Written(configs, names);
    forall path
      ensures path in files <==> exists name :: Owner(configs, path, name)
      ensures forall name :: Owner(configs, path, name) ==> path in files && files[path] == HostsOf(name, configs[name])
    {
      WrittenByGreatest(configs, names, path);
      if path in files {
        var name :| Greatest(configs, names, path, name) && files[path] == HostsOf(name, configs[name]);
        assert Owner(configs, path, name);
        forall other | Owner(configs, path, other) ensures other == name { OneOwner(configs, path, name, other); }
      }
    }
  }

  // ---------------------------------------------------------------- what the output means

  /** The files are a function of the settings: two compilations never differ. */
  lemma CompiledUnique(configs: map<string, HostConfig>, f: map<string, Hosts>, g: map<string, Hosts>)
    requires Compiled(configs, f) && Compiled(configs, g)
    ensures f == g
  {
    forall path
      ensures path in f <==> path in g
      ensures path in f && path in g ==> f[path] == g[path]
    {
      if path in f {
        var name :| Owner(configs, path, name);
      }
    }
  }

  /** Compiling again, as every reconcile of a process does, gives the same files. */
  method CompileTwice(eng: Containerd) returns (first: map<string, Hosts>, second: map<string, Hosts>)
    ensures first == second
  {
    first := eng.RegistryHostConfigs();
    second := eng.RegistryHostConfigs();
    CompiledUnique(Configs(eng.parser, DOCKER, eng.Mirrors(), eng.insecureRegistries), first, second);
  }

  /** Hosts are exactly the mirror URLs; the last of several equal URLs decides `override_path`,
      and `skip_verify` is the registry's insecure mark. */
  lemma {:induction false} LastDuplicateDecides(endpoints: seq<Endpoint>, insecure: bool, url: string)
    ensures url in Entries(endpoints, insecure) <==> exists i :: 0 <= i < |endpoints| && endpoints[i].url == url
    ensures forall i :: IsLastOf(endpoints, url, i) ==>
      url in Entries(endpoints, insecure)
          && Entries(endpoints, insecure)[url] == HostEntry(insecure, endpoints[i].overridePath)
  {
    if endpoints != [] {
      var n := |endpoints| - 1;
      LastDuplicateDecides(endpoints[..n], insecure, url);
      if endpoints[n].url != url {
        forall i | IsLastOf(endpoints, url, i) ensures IsLastOf(endpoints[..n], url, i) {}
        if url in Entries(endpoints[..n], insecure) {
          var i :| 0 <= i < n && endpoints[..n][i].url == url;
          assert endpoints[i].url == url;
        }
      }
    }
  }

  /** The last endpoint with this URL. */
  ghost predicate IsLastOf(endpoints: seq<Endpoint>, url: string, i: int) {
    0 <= i < |endpoints| && endpoints[i].url == url && forall j :: i < j < |endpoints| ==> endpoints[j].url != url
  }

  // ---------------------------------------------------------------- what the files say

  /** `other` is `host`, or `host` and a path. */
  predicate Under(other: string, host: string) {
    other == host || (|other| > |host| && other[..|host|] == host && other[|host|] == '/')
  }

  /** `other` is configured in the directory `dir`; the two catch-all names share one. */
  predicate UsesDir(other: string, dir: string) {
    Under(other, dir) || (dir == "_default" && Under(other, "*"))
  }

  lemma {:induction false} HostOf(host: string, rest: string)
    requires '/' !in host && (rest == "" || rest[0] == '/')
    ensures RegistryHost(host + rest) == host
  {
    if host == "" {
      assert host + rest == rest;
    } else {
      assert (host + rest)[1..] == host[1..] + rest;
      HostOf(host[1..], rest);
      assert host == [host[0]] + host[1..];
    }
  }

  lemma {:induction false} NameIsUnderHost(name: string)
    ensures Under(name, RegistryHost(name))
  {
    if name != "" && name[0] != '/' {
      NameIsUnderHost(name[1..]);
      var host := RegistryHost(name[1..]);
      assert name == [name[0]] + name[1..];
      if name[1..] != host { assert name[..|host| + 1] == [name[0]] + name[1..][..|host|]; }
    }
  }

  lemma {:induction false} DirIsUsed(name: string)
    ensures UsesDir(name, DirOf(name))
  {
    NameIsUnderHost(name);
  }

  /** A name is configured: by mirrors, by the insecure list, or because it is the default registry. */
  predicate Configured(mirrors: map<string, seq<string>>, insecure: seq<string>, name: string) {
    name == "docker.io" || name in mirrors || name in insecure
  }

  /** What the compiled file of a registry says, if no other registry uses its directory. The registry
      is a host, or a host and a path. */
  lemma {:induction false} FileSays(p: Parser, mirrors: map<string, seq<string>>, insecure: seq<string>,
      files: map<string, Hosts>, host: string, rest: string, dir: string)
    requires Compiled(Configs(p, "docker.io", mirrors, insecure), files)
    requires '/' !in host && (rest == "" || rest[0] == '/') && dir == (if host == "*" then "_default" else host)
    requires forall other :: Configured(mirrors, insecure, other) && other != host + rest ==> !UsesDir(other, dir)
    ensures var name, path := host + rest, "/etc/containerd/certs.d/" + dir + "/hosts.toml";
      var mirrored := name in mirrors && mirrors[name] != [];
      var upstream := name == "docker.io" && name !in mirrors;
      && (path in files <==> mirrored || upstream || name in insecure)
      && (path in files ==>
            && files[path].server == (if host == "docker.io" then "https://registry-1.docker.io"
                 else if host == "*" || host == "_default" then "" else name)
            && (!mirrored && !upstream ==> files[path].host == map[files[path].server := HostEntry(true, false)])
            && (upstream ==>
                  files[path].host == map["https://registry-1.docker.io" := HostEntry(name in insecure, false)])
            && (mirrored ==> files[path].host == Entries(EndpointsOf(p, mirrors[name]), name in insecure)))
  {
    var configs, name := Configs(p, "docker.io", mirrors, insecure), host + rest;
    var path := PathOf(name);
    HostOf(host, rest);
    ConfigOf(p, "docker.io", mirrors, insecure, name);
    assert DirOf(name) == dir;
    forall other | other in configs && other != name
      ensures PathOf(other) != path
    {
      ConfigOf(p, "docker.io", mirrors, insecure, other);
      PathTellsDirectory(other, name);
      if DirOf(other) == dir { DirIsUsed(other); }
    }
    assert Owner(configs, path, name) <==> name in configs && Active(configs[name]);
    assert forall other :: Owner(configs, path, other) ==> other == name;
    if Owner(configs, path, name) { HostsSay(configs[name], name); }
  }

  lemma {:induction false} HostsSay(c: HostConfig, name: string)
    ensures c.endpoints == [] && c.insecure ==>
      HostsOf(name, c).host == map[HostsOf(name, c).server := HostEntry(true, false)]
    ensures c.endpoints != [] || !c.insecure ==> HostsOf(name, c).host == Entries(c.endpoints, c.insecure)
    ensures c.endpoints == Upstream().endpoints ==>
      HostsOf(name, c).host == map["https://registry-1.docker.io" := HostEntry(c.insecure, false)]
  {
    assert Upstream().endpoints[..0] == [];
  }

  /** Two registries share a file exactly when they share a directory. */
  lemma PathTellsDirectory(a: string, b: string)
    ensures PathOf(a) == PathOf(b) <==> DirOf(a) == DirOf(b)
  {
    if PathOf(a) == PathOf(b) {
      var root, leaf := "/etc/containerd/certs.d/", "/hosts.toml";
      CancelRight(root + DirOf(a), root + DirOf(b), leaf);
      CancelLeft(root, DirOf(a), DirOf(b));
    }
  }

  /** With both catch-alls configured, `*` never owns the shared file. */
  lemma DefaultBeatsStar(configs: map<string, HostConfig>)
    requires "_default" in configs && Active(configs["_default"])
    ensures !Owner(configs, PathOf("*"), "*")
  {
    assert RegistryHost("*") == "*" by { assert "*"[1..] == ""; }
    DefaultIsItsHost();
    assert Less("*", "_default") && !Less("_default", "*");
  }

  lemma DefaultIsItsHost()
    ensures RegistryHost("_default") == "_default"
  {
    NoSlashHost("_default");
  }

  lemma {:induction false} NoSlashHost(name: string)
    requires '/' !in name
    ensures RegistryHost(name) == name
  {
    if name != "" {
      NoSlashHost(name[1..]);
      assert name == [name[0]] + name[1..];
    }
  }

  /** A host URL carries the marker only if it is a mirror that does not parse, which stripping leaves
      as it is; and every such mirror does reach the file. */
  lemma MarkerLeaks(p: Parser, mirrors: seq<string>, insecure: bool, url: string)
    requires Sane(p) && forall m :: m in mirrors ==> Query.IsBytes(m)
    ensures url in Entries(EndpointsOf(p, mirrors), insecure) && MARKER in QueryOf(url)
       <==> url in mirrors && !p.parses(url) && MARKER in QueryOf(url)
  {
    var es := EndpointsOf(p, mirrors);
    LastDuplicateDecides(es, insecure, url);
    if i :| 0 <= i < |mirrors| && es[i].url == url && MARKER in QueryOf(url) {
      assert mirrors[i] in mirrors;
      if p.parses(mirrors[i]) { StripRemovesMarker(p, mirrors[i]); }
    }
    if url in mirrors && !p.parses(url) {
      var i :| 0 <= i < |mirrors| && mirrors[i] == url;
      assert es[i].url == url;
    }
  }

  /** So a registry's file is free of markers if and only if each of its marked mirrors parses. */
  lemma NoMarkerIffMarkedParse(p: Parser, mirrors: seq<string>, insecure: bool)
    requires Sane(p) && forall m :: m in mirrors ==> Query.IsBytes(m)
    ensures (forall url :: url in Entries(EndpointsOf(p, mirrors), insecure) ==> MARKER !in QueryOf(url))
       <==> (forall m :: m in mirrors && MARKER in QueryOf(m) ==> p.parses(m))
  {
    forall url {
      MarkerLeaks(p, mirrors, insecure, url);
    }
  }

  /** An input that shows it: Go refuses a host name with a space in it. */
  lemma SpaceLeaksMarker(p: Parser, setting: string)
    requires Query.IsBytes(setting)
    requires var url := "http://a b" + ['?'] + (MARKER + ['='] + Query.QueryEscape(setting)); !p.parses(url)
    ensures var url := "http://a b" + ['?'] + (MARKER + ['='] + Query.QueryEscape(setting));
      url in Entries(EndpointsOf(p, [url]), false) && MARKER in QueryOf(url)
  {
    PlainNames();
    OneParameter("http://a b", MARKER, setting);
    var url := "http://a b" + ['?'] + (MARKER + ['='] + Query.QueryEscape(setting));
    LastDuplicateDecides(EndpointsOf(p, [url]), false, url);
    assert EndpointsOf(p, [url])[0].url == url;
  }
}
