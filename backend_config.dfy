/**
 * The launch documents `ProxyInstance.start` writes for the two external
 * Shadowsocks-family backends: a fresh JSON object filled from the bean's
 * fields and the global settings.
 */
module BackendConfig {
  import opened Wrappers
  import opened Decimal

  /** The global `DataStore` values the core reads, as one immutable snapshot. */
  datatype Settings = Settings(
    socksPort: int,
    enableLocalDNS: bool,
    localDNSPort: int,
    remoteDNS: string,
    ipv6Route: bool,
    preferIpv6: bool,
    directBootAware: bool)

  const Loopback: string := "127.0.0.1"
  const TcpAndUdp: string := "tcp_and_udp"

  /** The port a local backend listens on: the SOCKS port plus ten. */
  function BackendPort(s: Settings): int { s.socksPort + 10 }

  /** The JSON values the documents hold. */
  datatype Json = JStr(str: string) | JInt(num: int) | JBool(flag: bool)

  /** The keys the two documents use; `KeyName` gives each one's JSON spelling. */
  datatype Key =
    | Server | ServerPort | Method | Password
    | LocalAddress | LocalPort | LocalUdpAddress | LocalUdpPort | Mode | Dns | Ipv6First | Plugin | PluginOpts
    | Protocol | ProtocolParam | Obfs | ObfsParam | Ipv6

  function KeyName(k: Key): string
  {
    match k
    case Server => "server"
    case ServerPort => "server_port"
    case Method => "method"
    case Password => "password"
    case LocalAddress => "local_address"
    case LocalPort => "local_port"
    case LocalUdpAddress => "local_udp_address"
    case LocalUdpPort => "local_udp_port"
    case Mode => "mode"
    case Dns => "dns"
    case Ipv6First => "ipv6_first"
    case Plugin => "plugin"
    case PluginOpts => "plugin_opts"
    case Protocol => "protocol"
    case ProtocolParam => "protocol_param"
    case Obfs => "obfs"
    case ObfsParam => "obfs_param"
    case Ipv6 => "ipv6"
  }

  /** The key a JSON member name stands for, if any. */
  function KeyOf(name: string): Option<Key>
  {
    if name == "server" then Some(Server)
    else if name == "server_port" then Some(ServerPort)
    else if name == "method" then Some(Method)
    else if name == "password" then Some(Password)
    else if name == "local_address" then Some(LocalAddress)
    else if name == "local_port" then Some(LocalPort)
    else if name == "local_udp_address" then Some(LocalUdpAddress)
    else if name == "local_udp_port" then Some(LocalUdpPort)
    else if name == "mode" then Some(Mode)
    else if name == "dns" then Some(Dns)
    else if name == "ipv6_first" then Some(Ipv6First)
    else if name == "plugin" then Some(Plugin)
    else if name == "plugin_opts" then Some(PluginOpts)
    else if name == "protocol" then Some(Protocol)
    else if name == "protocol_param" then Some(ProtocolParam)
    else if name == "obfs" then Some(Obfs)
    else if name == "obfs_param" then Some(ObfsParam)
    else if name == "ipv6" then Some(Ipv6)
    else None
  }

  /**
   * Every key's JSON name reads back as that key, so distinct keys have
   * distinct names and a `Document` stands for a JSON object.
   */
  lemma KeyNameRoundTrip(k: Key)
    ensures KeyOf(KeyName(k)) == Some(k)
  {
    match k
    case Server =>
    case ServerPort =>
    case Method =>
    case Password =>
    case LocalAddress =>
    case LocalPort =>
    case LocalUdpAddress =>
    case LocalUdpPort =>
    case Mode =>
    case Dns =>
    case Ipv6First =>
    case Plugin =>
    case PluginOpts =>
    case Protocol =>
    case ProtocolParam =>
    case Obfs =>
    case ObfsParam =>
    case Ipv6 =>
  }

  lemma KeyNamesDistinct(k1: Key, k2: Key)
    ensures KeyName(k1) == KeyName(k2) ==> k1 == k2
  {
    KeyNameRoundTrip(k1);
    KeyNameRoundTrip(k2);
  }

  type Document = map<Key, Json>

  datatype ShadowsocksBean = ShadowsocksBean(
    serverAddress: string, serverPort: int, cipherMethod: string, password: string, plugin: string)

  datatype ShadowsocksRBean = ShadowsocksRBean(
    serverAddress: string, serverPort: int, cipherMethod: string, password: string,
    protocol: string, protocolParam: string, obfs: string, obfsParam: string)

  /** What the plugin manager returns for a plugin it could install: its path and options. */
  datatype ResolvedPlugin = ResolvedPlugin(path: string, options: string)

  /** Kotlin's `Char.isWhitespace()`: Java whitespace or a Unicode space separator. */
  predicate IsWhitespace(c: char)
  {
    var n := c as int;
    (0x09 <= n <= 0x0D) || (0x1C <= n <= 0x20) || n == 0xA0 || n == 0x1680 ||
    (0x2000 <= n <= 0x200A) || n == 0x2028 || n == 0x2029 || n == 0x202F ||
    n == 0x205F || n == 0x3000
  }

  predicate IsBlank(s: string) { forall i :: 0 <= i < |s| ==> IsWhitespace(s[i]) }

  /** The `dns` entry: the local DNS forwarder on loopback when enabled, the remote DNS otherwise. */
  function DnsSetting(s: Settings): string
  {
    if s.enableLocalDNS then Endpoint(Loopback, s.localDNSPort) else s.remoteDNS
  }

  /** With local DNS on, the `dns` entry splits back into loopback and the local DNS port. */
  lemma DnsSettingParses(s: Settings)
    ensures s.enableLocalDNS ==> ParseEndpoint(DnsSetting(s)) == Some((Loopback, s.localDNSPort))
    ensures !s.enableLocalDNS ==> DnsSetting(s) == s.remoteDNS
  {
    if s.enableLocalDNS {
      EndpointRoundTrip(Loopback, s.localDNSPort);
    }
  }

  /** The plugin the document carries: asked of the resolver only for a non-blank plugin string. */
  function PluginFor(plugin: string, resolve: string -> Option<ResolvedPlugin>): (r: Option<ResolvedPlugin>)
    ensures r.Some? <==> !IsBlank(plugin) && resolve(plugin).Some?
    ensures r.Some? ==> r == resolve(plugin)
  {
    if IsBlank(plugin) then None else resolve(plugin)
  }

  const ShadowsocksKeys: set<Key> :=
    {Server, ServerPort, Method, Password, LocalAddress, LocalPort,
     LocalUdpAddress, LocalUdpPort, Mode, Dns}

  /** The entries every `ss-local` document has, before the optional ones are added. */
  function ShadowsocksBase(bean: ShadowsocksBean, s: Settings): (doc: Document)
    ensures doc.Keys == ShadowsocksKeys
    // the remote server, copied from the bean
    ensures doc[Server] == JStr(bean.serverAddress) && doc[ServerPort] == JInt(bean.serverPort)
    ensures doc[Method] == JStr(bean.cipherMethod) && doc[Password] == JStr(bean.password)
    // TCP and UDP both listen on loopback, on the SOCKS port plus ten
    ensures doc[LocalAddress] == JStr(Loopback) && doc[LocalUdpAddress] == JStr(Loopback)
    ensures doc[LocalPort] == JInt(s.socksPort + 10) && doc[LocalUdpPort] == JInt(s.socksPort + 10)
    ensures doc[Mode] == JStr(TcpAndUdp)
    ensures doc[Dns] == JStr(DnsSetting(s))
  {
    var port := BackendPort(s);
    map[
      Server := JStr(bean.serverAddress),
      ServerPort := JInt(bean.serverPort),
      Method := JStr(bean.cipherMethod),
      Password := JStr(bean.password),
      LocalAddress := JStr(Loopback),
      LocalPort := JInt(port),
      LocalUdpAddress := JStr(Loopback),
      LocalUdpPort := JInt(port),
      Mode := JStr(TcpAndUdp),
      Dns := JStr(DnsSetting(s))]
  }

  /** The document for the external `ss-local` backend: the base entries, then `ipv6_first`, then the plugin. */
  function ShadowsocksConfig(bean: ShadowsocksBean, s: Settings, resolve: string -> Option<ResolvedPlugin>)
    : (doc: Document)
    ensures ShadowsocksKeys <= doc.Keys
    ensures doc.Keys - ShadowsocksKeys <= {Ipv6First, Plugin, PluginOpts}
    // the base entries are kept as they are
    ensures forall k :: k in ShadowsocksKeys ==> doc[k] == ShadowsocksBase(bean, s)[k]
    // IPv6 first only when IPv6 is both routed and preferred
    ensures Ipv6First in doc <==> s.ipv6Route && s.preferIpv6
    ensures Ipv6First in doc ==> doc[Ipv6First] == JBool(true)
    // plugin keys only for a plugin that resolved, and then with what the resolver returned
    ensures (Plugin in doc <==> PluginFor(bean.plugin, resolve).Some?)
         && (PluginOpts in doc <==> Plugin in doc)
    ensures Plugin in doc ==>
              var p := resolve(bean.plugin).value;
              doc[Plugin] == JStr(p.path) && doc[PluginOpts] == JStr(p.options)
  {
    var base := ShadowsocksBase(bean, s);
    var withIpv6 := if s.ipv6Route && s.preferIpv6 then base[Ipv6First := JBool(true)] else base;
    match PluginFor(bean.plugin, resolve)
    case Some(p) => withIpv6[Plugin := JStr(p.path)][PluginOpts := JStr(p.options)]
    case None => withIpv6
  }

  const ShadowsocksRKeys: set<Key> :=
    {Server, ServerPort, Method, Password, Protocol, ProtocolParam,
     Obfs, ObfsParam, Ipv6, Dns}

  /** The document for the external `ssr-local` backend; its local port goes on the command line. */
  function ShadowsocksRConfig(bean: ShadowsocksRBean, s: Settings): (doc: Document)
    ensures doc.Keys == ShadowsocksRKeys
    ensures doc[Server] == JStr(bean.serverAddress) && doc[ServerPort] == JInt(bean.serverPort)
    ensures doc[Method] == JStr(bean.cipherMethod) && doc[Password] == JStr(bean.password)
    ensures doc[Protocol] == JStr(bean.protocol) && doc[ProtocolParam] == JStr(bean.protocolParam)
    ensures doc[Obfs] == JStr(bean.obfs) && doc[ObfsParam] == JStr(bean.obfsParam)
    // unlike the Shadowsocks document, `ipv6` is always present and mirrors the routing flag
    ensures doc[Ipv6] == JBool(s.ipv6Route)
    ensures doc[Dns] == JStr(DnsSetting(s))
  {
    map[
      Server := JStr(bean.serverAddress),
      ServerPort := JInt(bean.serverPort),
      Method := JStr(bean.cipherMethod),
      Password := JStr(bean.password),
      Protocol := JStr(bean.protocol),
      ProtocolParam := JStr(bean.protocolParam),
      Obfs := JStr(bean.obfs),
      ObfsParam := JStr(bean.obfsParam),
      Ipv6 := JBool(s.ipv6Route),
      Dns := JStr(DnsSetting(s))]
  }
}
