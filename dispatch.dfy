/**
 * Which local backend a profile needs, where the embedded engine sends its
 * traffic, and what `start` writes, records and launches for that backend.
 */
module Dispatch {
  import opened Wrappers
  import opened Failures
  import opened Decimal
  import opened BackendConfig

  /** The bean `requireBean()` returns, by protocol family. */
  datatype Bean =
    | Shadowsocks(ss: ShadowsocksBean)
    | ShadowsocksR(ssr: ShadowsocksRBean)
    | OtherBean(address: string, port: int)
  {
    function ServerAddress(): string
    {
      match this
      case Shadowsocks(b) => b.serverAddress
      case ShadowsocksR(b) => b.serverAddress
      case OtherBean(a, _) => a
    }

    function ServerPort(): int
    {
      match this
      case Shadowsocks(b) => b.serverPort
      case ShadowsocksR(b) => b.serverPort
      case OtherBean(_, p) => p
    }
  }

  /**
   * The fields of a `ProxyEntity` that stay fixed for a session: its type
   * discriminator, its bean, and the answers of `useExternalShadowsocks()`
   * and `useXray()`.
   */
  datatype Profile = Profile(proxyType: int, bean: Bean, externalShadowsocks: bool, xray: bool)

  /** The branches of the `when` in `start`. */
  datatype Backend = ExternalShadowsocks | ShadowsocksRLocal | XrayPlugin | EmbeddedOnly

  /** The branch `start` takes: external Shadowsocks first, then type 2 (ShadowsocksR), then Xray. */
  function SelectBackend(p: Profile): (b: Backend)
    ensures b == ExternalShadowsocks <==> p.externalShadowsocks
    ensures b == ShadowsocksRLocal <==> !p.externalShadowsocks && p.proxyType == 2
    ensures b == XrayPlugin <==> !p.externalShadowsocks && p.proxyType != 2 && p.xray
    ensures b == EmbeddedOnly <==> !p.externalShadowsocks && p.proxyType != 2 && !p.xray
  {
    if p.externalShadowsocks then ExternalShadowsocks
    else if p.proxyType == 2 then ShadowsocksRLocal
    else if p.xray then XrayPlugin
    else EmbeddedOnly
  }

  /** The condition under which `init` points the engine at loopback. */
  predicate UsesLocalBackend(p: Profile)
  {
    p.externalShadowsocks || p.xray || p.proxyType == 2
  }

  /** `init` chains the engine to a local backend exactly when `start` launches one. */
  lemma InitAgreesWithStart(p: Profile)
    ensures UsesLocalBackend(p) <==> SelectBackend(p) != EmbeddedOnly
  {
  }

  /** The engine's `domainName`: the local backend's loopback port, or the remote server. */
  function DomainName(p: Profile, s: Settings): string
  {
    if UsesLocalBackend(p) then Endpoint(Loopback, BackendPort(s))
    else Endpoint(p.bean.ServerAddress(), p.bean.ServerPort())
  }

  /** The engine splits `domainName` back into the local backend's loopback port, or the remote server. */
  lemma DomainNameParses(p: Profile, s: Settings)
    ensures UsesLocalBackend(p) ==> ParseEndpoint(DomainName(p, s)) == Some((Loopback, s.socksPort + 10))
    ensures !UsesLocalBackend(p) ==>
              ParseEndpoint(DomainName(p, s)) == Some((p.bean.ServerAddress(), p.bean.ServerPort()))
  {
    if UsesLocalBackend(p) {
      EndpointRoundTrip(Loopback, BackendPort(s));
    } else {
      EndpointRoundTrip(p.bean.ServerAddress(), p.bean.ServerPort());
    }
  }

  /**
   * What `start` gets from its surroundings: the executables' absolute paths,
   * the no-backup directory of the storage area in use, the clock reading that
   * names the file, and whether writing the file succeeds.
   */
  datatype StartEnv = StartEnv(
    ssLocal: string, ssrLocal: string, scratchDir: string, clock: nat, writable: bool)

  /** The host service `init` stores in `base`; `processes` may be null. */
  datatype Service = Service(processesAvailable: bool)

  datatype Contents = JsonDocument(doc: Document) | Text(text: string)

  /** A config file written for a backend. */
  datatype Artifact = Artifact(path: string, contents: Contents)

  /**
   * What one call of `start` does: the file it writes and adds to
   * `cacheFiles`, the command it hands to the process pool, and whether it
   * completes or throws.
   */
  datatype StartEffect = StartEffect(
    tracked: Option<Artifact>, launched: Option<seq<string>>, outcome: Outcome<Failure>)

  /** `File(dir, prefix + clock + ".json").absolutePath`. */
  function ConfigPath(dir: string, prefix: string, clock: nat): string
  {
    dir + "/" + prefix + NatToString(clock) + ".json"
  }

  /** `v2rayPoint.runLoop(...)` at the end of `start`: it throws if `init` never ran. */
  function RunLoop(engineReady: bool): Outcome<Failure>
  {
    if engineReady then Pass else Fail(Uninitialized("v2rayPoint"))
  }

  /** After the file is recorded: `base.data.processes!!.start(argv)`, then the engine's run loop. */
  function Launch(artifact: Artifact, argv: seq<string>, base: Option<Service>, engineReady: bool)
    : StartEffect
  {
    if base.None? then StartEffect(Some(artifact), None, Fail(Uninitialized("base")))
    else if !base.value.processesAvailable then StartEffect(Some(artifact), None, Fail(NullPointer))
    else StartEffect(Some(artifact), Some(argv), RunLoop(engineReady))
  }

  /**
   * The effect of `start` for profile `p`. `base` and `engineReady` say what
   * `init` has set; `xrayPlugin` and `xrayConfig` are the `lateinit` values
   * `init` sets for Xray profiles.
   */
  function Start(
    p: Profile, s: Settings, env: StartEnv, resolve: string -> Option<ResolvedPlugin>,
    base: Option<Service>, engineReady: bool, xrayPlugin: Option<string>, xrayConfig: Option<string>)
    : StartEffect
  {
    match SelectBackend(p)
    case ExternalShadowsocks => StartShadowsocks(p.bean, s, env, resolve, base, engineReady)
    case ShadowsocksRLocal => StartShadowsocksR(p.bean, s, env, base, engineReady)
    case XrayPlugin => StartXray(env, base, engineReady, xrayPlugin, xrayConfig)
    case EmbeddedOnly => StartEffect(None, None, RunLoop(engineReady))
  }

  /** The external Shadowsocks branch of `start`. */
  function StartShadowsocks(
    bean: Bean, s: Settings, env: StartEnv, resolve: string -> Option<ResolvedPlugin>,
    base: Option<Service>, engineReady: bool): StartEffect
  {
    if !bean.Shadowsocks? then StartEffect(None, None, Fail(ClassCast))
    else
      var doc := ShadowsocksConfig(bean.ss, s, resolve);
      var path := ConfigPath(env.scratchDir, "shadowsocks_", env.clock);
      if !env.writable then StartEffect(None, None, Fail(IOFailure))
      else Launch(Artifact(path, JsonDocument(doc)), [env.ssLocal, "-c", path], base, engineReady)
  }

  /** The ShadowsocksR branch of `start` (profile type 2). */
  function StartShadowsocksR(bean: Bean, s: Settings, env: StartEnv, base: Option<Service>, engineReady: bool)
    : StartEffect
  {
    if !bean.ShadowsocksR? then StartEffect(None, None, Fail(ClassCast))
    else
      var doc := ShadowsocksRConfig(bean.ssr, s);
      var path := ConfigPath(env.scratchDir, "shadowsocksr_", env.clock);
      if !env.writable then StartEffect(None, None, Fail(IOFailure))
      else
        Launch(Artifact(path, JsonDocument(doc)), ShadowsocksRCommand(env.ssrLocal, path, s), base, engineReady)
  }

  /** `ssr-local -b 127.0.0.1 -c <file> -l <port>`: unlike `ss-local`, the listening port is given on the command line. */
  function ShadowsocksRCommand(ssrLocal: string, path: string, s: Settings): seq<string>
  {
    [ssrLocal, "-b", Loopback, "-c", path, "-l", IntToString(BackendPort(s))]
  }

  /** The Xray branch of `start`: it reads the `lateinit` config, then the `lateinit` plugin path. */
  function StartXray(
    env: StartEnv, base: Option<Service>, engineReady: bool, xrayPlugin: Option<string>, xrayConfig: Option<string>)
    : StartEffect
  {
    var path := ConfigPath(env.scratchDir, "xray_", env.clock);
    if xrayConfig.None? then StartEffect(None, None, Fail(Uninitialized("xrayConfig")))
    else if !env.writable then StartEffect(None, None, Fail(IOFailure))
    else
      var artifact := Artifact(path, Text(xrayConfig.value));
      if xrayPlugin.None? then StartEffect(Some(artifact), None, Fail(Uninitialized("xrayPlugin")))
      else Launch(artifact, [xrayPlugin.value, "-c", path], base, engineReady)
  }

  /**
   * What every call of `start` guarantees about the files it records and the
   * processes it launches.
   */
  lemma StartRecordsBeforeLaunch(
    p: Profile, s: Settings, env: StartEnv, resolve: string -> Option<ResolvedPlugin>,
    base: Option<Service>, engineReady: bool, xrayPlugin: Option<string>, xrayConfig: Option<string>)
    ensures var e := Start(p, s, env, resolve, base, engineReady, xrayPlugin, xrayConfig);
      // no local backend: nothing written, nothing launched
      && (SelectBackend(p) == EmbeddedOnly ==> e.tracked.None? && e.launched.None?)
      // a launch always comes after its config file was written and recorded, and names that file
      && (e.launched.Some? ==> e.tracked.Some? && e.tracked.value.path in e.launched.value)
      // a file that could not be written is neither recorded nor launched
      && (!env.writable ==> e.tracked.None? && e.launched.None?)
      // a start that completes with a local backend wrote and launched exactly that backend
      && (e.outcome.Pass? ==> (e.tracked.Some? <==> SelectBackend(p) != EmbeddedOnly))
      && (e.outcome.Pass? ==> (e.launched.Some? <==> SelectBackend(p) != EmbeddedOnly))
      // the engine is started only when everything before it succeeded
      && (e.outcome.Pass? ==> engineReady)
  {
  }

  /** The command line of each backend, once its file is recorded and the process pool is there. */
  lemma StartArgv(
    p: Profile, s: Settings, env: StartEnv, resolve: string -> Option<ResolvedPlugin>,
    base: Option<Service>, engineReady: bool, xrayPlugin: Option<string>, xrayConfig: Option<string>)
    requires base == Some(Service(true)) && env.writable
    ensures var e := Start(p, s, env, resolve, base, engineReady, xrayPlugin, xrayConfig);
      match SelectBackend(p)
      case ExternalShadowsocks =>
        p.bean.Shadowsocks? ==>
          var path := ConfigPath(env.scratchDir, "shadowsocks_", env.clock);
          e.tracked == Some(Artifact(path, JsonDocument(ShadowsocksConfig(p.bean.ss, s, resolve))))
          && e.launched == Some([env.ssLocal, "-c", path])
      case ShadowsocksRLocal =>
        p.bean.ShadowsocksR? ==>
          var path := ConfigPath(env.scratchDir, "shadowsocksr_", env.clock);
          e.tracked == Some(Artifact(path, JsonDocument(ShadowsocksRConfig(p.bean.ssr, s))))
          && e.launched == Some([env.ssrLocal, "-b", "127.0.0.1", "-c", path, "-l", IntToString(s.socksPort + 10)])
      case XrayPlugin =>
        xrayPlugin.Some? && xrayConfig.Some? ==>
          var path := ConfigPath(env.scratchDir, "xray_", env.clock);
          e.tracked == Some(Artifact(path, Text(xrayConfig.value)))
          && e.launched == Some([xrayPlugin.value, "-c", path])
      case EmbeddedOnly => e.launched.None?
  {
  }

  /**
   * The chaining `init` sets up reaches the backend `start` launches: the
   * engine's `domainName` is the endpoint the Shadowsocks document listens on.
   */
  lemma UpstreamIsShadowsocksListener(
    p: Profile, s: Settings, env: StartEnv, resolve: string -> Option<ResolvedPlugin>,
    base: Option<Service>, engineReady: bool)
    requires SelectBackend(p) == ExternalShadowsocks
    ensures var e := StartShadowsocks(p.bean, s, env, resolve, base, engineReady);
      e.tracked.Some? ==>
        e.tracked.value.contents.JsonDocument? &&
        var doc := e.tracked.value.contents.doc;
        doc[LocalAddress].JStr? && doc[LocalPort].JInt? &&
        DomainName(p, s) == Endpoint(doc[LocalAddress].str, doc[LocalPort].num)
  {
    LoopbackDomainName(p, s);
  }

  /** With a local backend, `domainName` is literally the loopback address, a colon and the local port. */
  lemma LoopbackDomainName(p: Profile, s: Settings)
    requires SelectBackend(p) != EmbeddedOnly
    ensures DomainName(p, s) == Loopback + ":" + IntToString(s.socksPort + 10)
  {
    InitAgreesWithStart(p);
  }

  /** The ShadowsocksR branch launches exactly `ShadowsocksRCommand` on the file it recorded. */
  lemma ShadowsocksRArgv(bean: Bean, s: Settings, env: StartEnv, base: Option<Service>, engineReady: bool)
    ensures var e := StartShadowsocksR(bean, s, env, base, engineReady);
      e.launched.Some? ==>
        e.tracked.Some? && e.launched.value == ShadowsocksRCommand(env.ssrLocal, e.tracked.value.path, s)
  {
  }

  /** The address given with `-b`, a colon and the port given with `-l` make up the engine's `domainName`. */
  lemma ShadowsocksRCommandListens(p: Profile, s: Settings, ssrLocal: string, path: string)
    requires SelectBackend(p) == ShadowsocksRLocal
    ensures var argv := ShadowsocksRCommand(ssrLocal, path, s);
      |argv| == 7 && argv[1] == "-b" && argv[5] == "-l" && DomainName(p, s) == argv[2] + ":" + argv[6]
  {
    var argv := ShadowsocksRCommand(ssrLocal, path, s);
    assert argv[2] == Loopback && argv[6] == IntToString(s.socksPort + 10);
    LoopbackDomainName(p, s);
  }

  /** Likewise for ShadowsocksR: the engine's `domainName` is the address given with `-b`, a colon, and the port given with `-l`. */
  lemma UpstreamIsShadowsocksRListener(
    p: Profile, s: Settings, env: StartEnv, base: Option<Service>, engineReady: bool)
    requires SelectBackend(p) == ShadowsocksRLocal
    ensures var e := StartShadowsocksR(p.bean, s, env, base, engineReady);
      e.launched.Some? ==>
        var argv := e.launched.value;
        |argv| == 7 && argv[1] == "-b" && argv[5] == "-l" && DomainName(p, s) == argv[2] + ":" + argv[6]
  {
    var e := StartShadowsocksR(p.bean, s, env, base, engineReady);
    if e.launched.Some? {
      ShadowsocksRArgv(p.bean, s, env, base, engineReady);
      ShadowsocksRCommandListens(p, s, env.ssrLocal, e.tracked.value.path);
    }
  }

  /**
   * The worked example: an external Shadowsocks profile for 1.2.3.4:8388
   * with aes-256-gcm and SOCKS port 1080 listens locally on 1090 and is
   * launched as `ss-local -c <file>`.
   */
  lemma ShadowsocksExample(s: Settings, env: StartEnv, resolve: string -> Option<ResolvedPlugin>)
    requires s.socksPort == 1080 && env.writable
    ensures
      var bean := ShadowsocksBean("1.2.3.4", 8388, "aes-256-gcm", "p", "");
      var p := Profile(0, Shadowsocks(bean), true, false);
      var e := Start(p, s, env, resolve, Some(Service(true)), true, None, None);
      var path := ConfigPath(env.scratchDir, "shadowsocks_", env.clock);
      && e.outcome == Pass
      && e.launched == Some([env.ssLocal, "-c", path])
      && e.tracked.Some? && e.tracked.value.path == path
      && var doc := e.tracked.value.contents.doc;
      && doc[LocalPort] == JInt(1090) && doc[ServerPort] == JInt(8388)
      && doc[Method] == JStr("aes-256-gcm") && Plugin !in doc && PluginOpts !in doc
  {
  }
}
