# SagerNet `ProxyInstance` — a Dafny model

`ProxyInstance` runs one proxy profile on the device. On `init` it creates the
embedded V2Ray engine and aims it at its upstream: the loopback port of a local
backend (`socksPort + 10`), or the remote server itself. On `start` it writes a
launch document for the profile's external backend (`ss-local`, `ssr-local` or the
Xray plugin), records the file in `cacheFiles`, launches the backend and starts the
engine's run loop. The `uplink`/`downlink` getters sample the engine and add each
sample to a running total. `persistStats` adds the totals to the profile and writes
it. When the database is locked, it can fall back to a dirty copy in
device-protected storage. `shutdown` persists and then forgets every config file.

The model is split into modules:

- `Decimal` (decimal.dfy): rendering integers as Kotlin's string templates do, and
  the `host:port` endpoints built from them, with parsing as the inverse.
- `BackendConfig` (backend_config.dfy): the global settings as one immutable record,
  and the Shadowsocks and ShadowsocksR launch documents as maps from keys to JSON values.
  `KeyName` gives each key's JSON spelling.
- `Dispatch` (dispatch.dfy): the backend choice, the engine's `domainName`, and
  `Start`. `Start` is a pure function giving what `start` writes, records, launches
  and throws.
- `Support` (support.dfy): `SagerSupportClass.protect` and the `Long.toInt()` truncation it applies.
- `Instance` (instance.dfy): the classes whose fields the source updates in place.
  These are `ProxyEntity` (counters `tx`/`rx`), `ProxyDao` (the primary store),
  `DirectBoot` (the device-protected copy and the unlock listener) and `ProxyInstance`.
  `ProxyInstance.Valid()` ties each running total to the ghost history of samples read.

The environment comes in as parameters: the plugin resolver, the engine's reported
counters, the clock that names files, whether a file can be written, and whether
the database is reachable.

## Model

| member | source | states |
|---|---|---|
| `Decimal.NatToString` | app/src/main/java/io/nekohasekai/sagernet/bg/ProxyInstance.kt:141 | the clock reading in a file name is a non-empty string of decimal digits with no leading zero |
| `Decimal.IntToStringRoundTrip` | app/src/main/java/io/nekohasekai/sagernet/bg/ProxyInstance.kt:194 | a port rendered with `"$port"` parses back to the same integer, negative ones included |
| `Decimal.EndpointRoundTrip` | app/src/main/java/io/nekohasekai/sagernet/bg/ProxyInstance.kt:76-79 | a `host:port` endpoint splits back at its last ':' into exactly its host and port, even when the host is an IPv6 literal |
| `BackendConfig.KeyNameRoundTrip` | app/src/main/java/io/nekohasekai/sagernet/bg/ProxyInstance.kt:106-172 | every key's JSON member name (`server`, `local_port`, `plugin_opts`, ...) reads back as that key |
| `BackendConfig.KeyNamesDistinct` | app/src/main/java/io/nekohasekai/sagernet/bg/ProxyInstance.kt:106-172 | distinct keys have distinct JSON member names, so a map from keys is a JSON object |
| `BackendConfig.DnsSetting` | app/src/main/java/io/nekohasekai/sagernet/bg/ProxyInstance.kt:115-119 | the `dns` entry of both documents (also lines 169-173); its behaviour is stated by `DnsSettingParses` |
| `BackendConfig.DnsSettingParses` | app/src/main/java/io/nekohasekai/sagernet/bg/ProxyInstance.kt:115-119 | with local DNS enabled, `dns` splits back into `127.0.0.1` and `localDNSPort`; otherwise it is `remoteDNS` |
| `BackendConfig.PluginFor` | app/src/main/java/io/nekohasekai/sagernet/bg/ProxyInstance.kt:126-128 | a plugin is used exactly when the plugin string is not blank and the resolver answers, and it is then the resolver's answer |
| `BackendConfig.ShadowsocksBase` | app/src/main/java/io/nekohasekai/sagernet/bg/ProxyInstance.kt:103-119 | the entries every Shadowsocks document has and no others: server, port, method and password copied from the bean; TCP and UDP on 127.0.0.1 at `socksPort + 10`; mode `tcp_and_udp`; `dns` as above |
| `BackendConfig.ShadowsocksConfig` | app/src/main/java/io/nekohasekai/sagernet/bg/ProxyInstance.kt:105-131 | keeps every base entry unchanged; `ipv6_first` is present (and true) iff `ipv6Route && preferIpv6`; `plugin`/`plugin_opts` are present iff the plugin resolves, and then hold its path and options; no other key |
| `BackendConfig.ShadowsocksRConfig` | app/src/main/java/io/nekohasekai/sagernet/bg/ProxyInstance.kt:158-174 | exactly the ten keys, with server, port, method, password, protocol and obfs fields from the bean; `ipv6` is always present and equals `ipv6Route`; `dns` is as above |
| `Dispatch.SelectBackend` | app/src/main/java/io/nekohasekai/sagernet/bg/ProxyInstance.kt:100-217 | exactly one branch is taken, in the order external Shadowsocks, then type 2, then Xray, then none, each with its iff condition |
| `Dispatch.InitAgreesWithStart` | app/src/main/java/io/nekohasekai/sagernet/bg/ProxyInstance.kt:75 | the condition under which `init` aims the engine at loopback holds iff `start` picks a backend branch |
| `Dispatch.DomainName` | app/src/main/java/io/nekohasekai/sagernet/bg/ProxyInstance.kt:75-80 | the engine's `domainName`; its behaviour is stated by `DomainNameParses`, `LoopbackDomainName` and the two `UpstreamIs...Listener` lemmas |
| `Dispatch.DomainNameParses` | app/src/main/java/io/nekohasekai/sagernet/bg/ProxyInstance.kt:75-80 | the engine's `domainName` parses as `127.0.0.1` with port `socksPort + 10` when a local backend is used, and otherwise as the bean's server address and port |
| `Dispatch.LoopbackDomainName` | app/src/main/java/io/nekohasekai/sagernet/bg/ProxyInstance.kt:75-80 | with a local backend, `domainName` is `127.0.0.1`, a colon and the rendered `socksPort + 10` |
| `Dispatch.Start` | app/src/main/java/io/nekohasekai/sagernet/bg/ProxyInstance.kt:97-219 | the effect of `start`; its behaviour is stated by `StartRecordsBeforeLaunch`, `StartArgv` and `ShadowsocksExample`, and `Instance.ProxyInstance.Start` is proved against it |
| `Dispatch.StartRecordsBeforeLaunch` | app/src/main/java/io/nekohasekai/sagernet/bg/ProxyInstance.kt:97-219 | about `Dispatch.Start`: no file and no launch without a local backend; a launch only after its file was written and recorded, and the argv names that file; an unwritable file is neither recorded nor launched; a start that completes has recorded and launched a backend iff one was selected, and had an engine to run |
| `Dispatch.StartArgv` | app/src/main/java/io/nekohasekai/sagernet/bg/ProxyInstance.kt:139-215 | the recorded file and the argv of each branch: `[ss-local, -c, f]`, `[ssr-local, -b, 127.0.0.1, -c, f, -l, socksPort+10]`, `[xrayPlugin, -c, f]`, with the file holding that branch's document |
| `Dispatch.UpstreamIsShadowsocksListener` | app/src/main/java/io/nekohasekai/sagernet/bg/ProxyInstance.kt:75-111 | the engine's upstream host and port are the `local_address` and `local_port` of the Shadowsocks document `start` writes |
| `Dispatch.ShadowsocksRCommand` | app/src/main/java/io/nekohasekai/sagernet/bg/ProxyInstance.kt:189-195 | the `ssr-local` command line; its behaviour is stated by `ShadowsocksRCommandListens` and `StartArgv` |
| `Dispatch.ShadowsocksRArgv` | app/src/main/java/io/nekohasekai/sagernet/bg/ProxyInstance.kt:182-197 | the ShadowsocksR branch launches only after recording its file, and then runs `[ssr-local, -b, 127.0.0.1, -c, f, -l, socksPort+10]` on that file |
| `Dispatch.ShadowsocksRCommandListens` | app/src/main/java/io/nekohasekai/sagernet/bg/ProxyInstance.kt:75-195 | the ShadowsocksR command has seven words, `-b` and `-l` in their places, and the values after them joined by a colon are the engine's `domainName` |
| `Dispatch.UpstreamIsShadowsocksRListener` | app/src/main/java/io/nekohasekai/sagernet/bg/ProxyInstance.kt:75-195 | whenever the ShadowsocksR branch launches, the engine's `domainName` is the address given with `-b`, a colon, and the port given with `-l` |
| `Dispatch.ShadowsocksExample` | app/src/main/java/io/nekohasekai/sagernet/bg/ProxyInstance.kt:101-152 | an aes-256-gcm profile for 1.2.3.4:8388 with SOCKS port 1080 gets `local_port` 1090, `server_port` 8388, no plugin keys, and argv `[ss-local, -c, f]` |
| `Support.ToInt32` | app/src/main/java/io/nekohasekai/sagernet/bg/ProxyInstance.kt:318 | `Long.toInt()` yields an `Int` congruent to the input modulo 2^32, and the input itself when it already fits |
| `Support.SagerSupportClass.Protect` | app/src/main/java/io/nekohasekai/sagernet/bg/ProxyInstance.kt:317-319 | without a VPN service every socket is protected; with one, the service decides on the truncated descriptor, which is the descriptor itself when it fits an `Int` |
| `Instance.SumAppend` | app/src/main/java/io/nekohasekai/sagernet/bg/ProxyInstance.kt:274-285 | the sum of the samples read in two stretches is the sum of the two stretches |
| `Instance.TwoSamplesAccumulate` | app/src/main/java/io/nekohasekai/sagernet/bg/ProxyInstance.kt:274-277 | samples `a` then `b` raise a total by `a + b`, and never lower it |
| `Instance.ProxyInstance.constructor` | app/src/main/java/io/nekohasekai/sagernet/bg/ProxyInstance.kt:284-285 | a new instance has no engine, no files, totals 0, and satisfies the totals invariant |
| `Instance.ProxyInstance.Init` | app/src/main/java/io/nekohasekai/sagernet/bg/ProxyInstance.kt:71-92 | stores the service and an engine with the `domainName` above and the VPN-aware support shim; for Xray profiles it stores the plugin path and config, or throws a null-pointer failure when the plugin is missing |
| `Instance.ProxyInstance.Start` | app/src/main/java/io/nekohasekai/sagernet/bg/ProxyInstance.kt:97-219 | appends to `cacheFiles` exactly the file `Dispatch.Start` records (at most one), returns its argv and outcome, and marks the engine running with the IPv6 preference only when start completes |
| `Instance.ProxyInstance.Stop` | app/src/main/java/io/nekohasekai/sagernet/bg/ProxyInstance.kt:258-259 | stops the engine's run loop, or throws when `init` never ran |
| `Instance.ProxyInstance.Stats` | app/src/main/java/io/nekohasekai/sagernet/bg/ProxyInstance.kt:267-272 | 0 before the engine exists, the engine's report afterwards |
| `Instance.ProxyInstance.Uplink` | app/src/main/java/io/nekohasekai/sagernet/bg/ProxyInstance.kt:274-277 | returns the sample, adds it to `uplinkTotal` and to the sample history, and keeps total = sum of samples |
| `Instance.ProxyInstance.Downlink` | app/src/main/java/io/nekohasekai/sagernet/bg/ProxyInstance.kt:279-282 | the same for `downlinkTotal` |
| `Instance.ProxyInstance.PersistStats` | app/src/main/java/io/nekohasekai/sagernet/bg/ProxyInstance.kt:287-303 | samples each direction once. The profile gains the totals even when the write throws. A reachable database stores the new counters and the fallback is untouched. A locked database rethrows when direct boot is off, and throws a null-pointer failure when no device copy exists. Otherwise the device copy gains the same totals, is marked dirty, and the unlock listener is registered |
| `Instance.ProxyInstance.ClearCacheFiles` | app/src/main/java/io/nekohasekai/sagernet/bg/ProxyInstance.kt:307 | every recorded file is handed to `delete` in order, and the list ends empty whatever `delete` answers |
| `Instance.ProxyInstance.Shutdown` | app/src/main/java/io/nekohasekai/sagernet/bg/ProxyInstance.kt:305-308 | persists first, leaving the primary store, the device copy and the unlock listener as `PersistStats` does in each of its four cases. When persisting throws, the files stay recorded and none is deleted. Otherwise every recorded file is deleted and the list is empty, so a second cleanup deletes nothing |

Behaviour of the code worth knowing:

- The fallback record is not created when missing. `DirectBoot.getDeviceProfile()!!` throws instead.
- The ShadowsocksR document has no local port. `ssr-local` gets it on the command line.
- `shutdown` does not stop the engine's run loop itself.
- When `persistStats` throws, `shutdown` leaves `cacheFiles` as it was.
- `persistStats` adds the cumulative totals, not the traffic since the last call. Calling it twice, or calling `shutdown` twice, adds the totals to the profile twice.

## Left out

- The WebView browser forwarder, its reload-after-one-second retry loop and its teardown in `stop` (ProxyInstance.kt:220-255, 261-264). These are UI and coroutine concurrency.
- Launching processes. The argv handed to `processes.start` is returned; the process is not modelled.
- File system work. `mkdirs` and `writeText` are one `writable` flag, and a failure throws before the file is recorded. `SystemClock.elapsedRealtime()` is the `clock` parameter. What `delete` answers is ignored, as the source ignores it.
- The choice between application and device-protected storage (`Build.VERSION`, `isUserUnlocked`). It is the `scratchDir` parameter.
- `buildV2RayConfig`, `buildXrayConfig`, `gson` and JSON serialisation. Their output is an opaque string parameter, and the documents are kept as maps.
- `PluginConfiguration` parsing and `PluginManager.init`. They are the `resolve` parameter. The xtls plugin lookup is the `xtlsPlugin` parameter.
- `Libv2ray` and `V2RayPoint` internals. `queryStats("out", direction)` is the `reported` parameter, assumed non-negative.
- `ProxyEntity.requireBean`, `useExternalShadowsocks` and `useXray` are not part of this model. Their answers are fields of `Profile`, and exceptions `requireBean` might throw are not modelled.
- `Executable.SS_LOCAL` and `SSR_LOCAL` are not part of this model. The executables' absolute paths are `StartEnv` fields.
- `SagerDatabase`, `DirectBoot.update` and `listenForUnlock` internals. The store is a reachable flag plus this profile's stored counters; the fallback is a record plus a listener flag.
- Logging, `onEmitStatus` and `SagerSupportClass.shutdown`, which return constants.
- Concurrency between sampling and start/stop.
- Instance.ProxyInstance.Uplink: `uplinkTotal` is an unbounded integer. The 64-bit `Long` wrap-around after 2^63 - 1 bytes is not modelled.
- Instance.ProxyInstance.Downlink: likewise for `downlinkTotal`.
- Instance.ProxyInstance.PersistStats: the profile's and the device copy's `tx`/`rx` are unbounded integers. `Long` wrap-around is not modelled.
- BackendConfig.ShadowsocksConfig: `socksPort + 10` is unbounded. The 32-bit `Int` overflow of a SOCKS port near 2^31 is not modelled (ports stay below 65536 in practice). The same holds for `Dispatch.DomainNameParses`, `Dispatch.StartArgv` and the ShadowsocksR command.
