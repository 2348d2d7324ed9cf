/**
 * `ProxyInstance`, the orchestrator: it aims the embedded engine (`init`),
 * launches the local backend and records its config file (`start`), samples
 * and accumulates traffic (`uplink`, `downlink`), writes the totals back to
 * storage with a device-storage fallback (`persistStats`) and forgets its
 * config files (`shutdown`).
 */
module Instance {
  import opened Wrappers
  import opened Failures
  import opened BackendConfig
  import opened Dispatch
  import Support

  /** A stored profile: its fixed fields and its traffic counters `tx` (sent) and `rx` (received). */
  class ProxyEntity {
    const info: Profile
    var tx: int
    var rx: int

    constructor (info: Profile, tx: int, rx: int)
      ensures this.info == info && this.tx == tx && this.rx == rx
    {
      this.info := info;
      this.tx := tx;
      this.rx := rx;
    }
  }

  datatype Counters = Counters(tx: int, rx: int)

  /** The primary database's proxy table, as far as this profile's row goes. */
  class ProxyDao {
    /** False while the device is locked: `updateProxy` then throws an `IOException`. */
    var accessible: bool
    /** The counters last written for this profile. */
    var stored: Option<Counters>

    constructor (accessible: bool, stored: Option<Counters>)
      ensures this.accessible == accessible && this.stored == stored
    {
      this.accessible := accessible;
      this.stored := stored;
    }
  }

  /** The copy of the profile kept in device-protected storage. */
  datatype DeviceProfile = DeviceProfile(tx: int, rx: int, dirty: bool)

  /** `DirectBoot`: the device-protected record and the unlock listener. */
  class DirectBoot {
    var deviceProfile: Option<DeviceProfile>
    var listeningForUnlock: bool

    constructor (deviceProfile: Option<DeviceProfile>)
      ensures this.deviceProfile == deviceProfile && !listeningForUnlock
    {
      this.deviceProfile := deviceProfile;
      listeningForUnlock := false;
    }
  }

  /** The embedded engine (`V2RayPoint`) as far as this class configures it. */
  datatype EnginePoint = EnginePoint(
    domainName: string,
    configureFileContent: string,
    support: Support.SagerSupportClass,
    running: bool,
    preferIpv6: bool)

  /** The sum of a sequence of traffic samples. */
  function Sum(samples: seq<nat>): nat
  {
    if samples == [] then 0 else samples[0] + Sum(samples[1..])
  }

  lemma {:induction false} SumAppend(xs: seq<nat>, ys: seq<nat>)
    ensures Sum(xs + ys) == Sum(xs) + Sum(ys)
  {
    if xs == [] {
      assert xs + ys == ys;
    } else {
      assert (xs + ys)[1..] == xs[1..] + ys;
      SumAppend(xs[1..], ys);
    }
  }

  /** Two samples `a` then `b` raise a running total by `a + b`, and never lower it. */
  lemma TwoSamplesAccumulate(history: seq<nat>, a: nat, b: nat)
    ensures Sum(history + [a] + [b]) == Sum(history) + a + b
    ensures Sum(history) <= Sum(history + [a]) <= Sum(history + [a] + [b])
  {
    SumAppend(history, [a]);
    SumAppend(history + [a], [b]);
  }

  class ProxyInstance {
    const profile: ProxyEntity

    /** The `lateinit` properties `init` assigns; `None` until then. */
    var base: Option<Service>
    var point: Option<EnginePoint>
    var xrayPlugin: Option<string>
    var xrayConfig: Option<string>

    /** The config files `start` wrote, by absolute path, in order. */
    var cacheFiles: seq<string>

    var uplinkTotal: int
    var downlinkTotal: int
    /** Every sample read so far, per direction. */
    ghost var uplinkSamples: seq<nat>
    ghost var downlinkSamples: seq<nat>

    /** The totals are exactly the sums of the samples read. */
    ghost predicate Valid()
      reads this
    {
      uplinkTotal == Sum(uplinkSamples) && downlinkTotal == Sum(downlinkSamples)
    }

    constructor (profile: ProxyEntity)
      ensures Valid()
      ensures this.profile == profile
      ensures base.None? && point.None? && xrayPlugin.None? && xrayConfig.None?
      ensures cacheFiles == [] && uplinkTotal == 0 && downlinkTotal == 0
    {
      this.profile := profile;
      base, point, xrayPlugin, xrayConfig := None, None, None, None;
      cacheFiles := [];
      uplinkTotal, downlinkTotal := 0, 0;
      uplinkSamples, downlinkSamples := [], [];
    }

    /**
     * `init`: store the service, create the engine aimed at its upstream, and
     * for Xray profiles look up the xtls plugin. `vpn` is the service itself
     * when it is a VPN service, `v2rayConfig` the engine's serialized config,
     * `xtlsPlugin` the plugin manager's answer and `xrayConfigText` the
     * serialized Xray config.
     */
    method Init(
      service: Service, vpn: Option<Support.VpnService>, s: Settings,
      v2rayConfig: string, xtlsPlugin: Option<string>, xrayConfigText: string)
      returns (outcome: Outcome<Failure>)
      modifies this`base, this`point, this`xrayPlugin, this`xrayConfig
      ensures base == Some(service)
      ensures point == Some(EnginePoint(DomainName(profile.info, s), v2rayConfig,
                                        Support.SagerSupportClass(vpn), false, false))
      ensures !profile.info.xray ==>
                outcome == Pass && xrayPlugin == old(xrayPlugin) && xrayConfig == old(xrayConfig)
      ensures profile.info.xray && xtlsPlugin.None? ==>
                outcome == Fail(NullPointer) && xrayPlugin == old(xrayPlugin) && xrayConfig == old(xrayConfig)
      ensures profile.info.xray && xtlsPlugin.Some? ==>
                outcome == Pass && xrayPlugin == xtlsPlugin && xrayConfig == Some(xrayConfigText)
    {
      base := Some(service);
      point := Some(EnginePoint(DomainName(profile.info, s), v2rayConfig,
                                Support.SagerSupportClass(vpn), false, false));
      outcome := Pass;
      if profile.info.xray {
        if xtlsPlugin.None? {
          outcome := Fail(NullPointer);
          return;
        }
        xrayPlugin := xtlsPlugin;
        xrayConfig := Some(xrayConfigText);
      }
    }

    /**
     * `start`: launch the profile's local backend, if any, then the engine's
     * run loop. Returns the command handed to the process pool.
     */
    method Start(s: Settings, env: StartEnv, resolve: string -> Option<ResolvedPlugin>)
      returns (outcome: Outcome<Failure>, launched: Option<seq<string>>)
      modifies this`cacheFiles, this`point
      ensures var e := Dispatch.Start(profile.info, s, env, resolve, base, old(point).Some?,
                                      xrayPlugin, xrayConfig);
        && outcome == e.outcome
        && launched == e.launched
        && cacheFiles == old(cacheFiles) + (if e.tracked.Some? then [e.tracked.value.path] else [])
        && point == (if outcome.Pass? then Some(old(point).value.(running := true, preferIpv6 := s.preferIpv6))
                     else old(point))
    {
      var e := Dispatch.Start(profile.info, s, env, resolve, base, point.Some?, xrayPlugin, xrayConfig);
      if e.tracked.Some? {
        cacheFiles := cacheFiles + [e.tracked.value.path];
      }
      outcome, launched := e.outcome, e.launched;
      if outcome.Pass? {
        point := Some(point.value.(running := true, preferIpv6 := s.preferIpv6));
      }
    }

    /** `stop`: halt the engine's run loop. */
    method Stop() returns (outcome: Outcome<Failure>)
      modifies this`point
      ensures old(point).None? ==> outcome == Fail(Uninitialized("v2rayPoint")) && point.None?
      ensures old(point).Some? ==> outcome == Pass && point == Some(old(point).value.(running := false))
    {
      if point.None? {
        return Fail(Uninitialized("v2rayPoint"));
      }
      point := Some(point.value.(running := false));
      outcome := Pass;
    }

    /**
     * `stats(direct)`: what the engine reports for one direction, `reported`,
     * or 0 while the engine does not exist yet.
     */
    function Stats(reported: nat): (r: nat)
      reads this
      ensures point.None? ==> r == 0
      ensures point.Some? ==> r == reported
    {
      if point.None? then 0 else reported
    }

    /** The `uplink` getter: sample, and add the sample to `uplinkTotal`. */
    method Uplink(reported: nat) returns (r: nat)
      requires Valid()
      modifies this`uplinkTotal, this`uplinkSamples
      ensures Valid()
      ensures r == Stats(reported)
      ensures uplinkSamples == old(uplinkSamples) + [r]
      ensures uplinkTotal == old(uplinkTotal) + r
    {
      r := Stats(reported);
      SumAppend(uplinkSamples, [r]);
      uplinkTotal := uplinkTotal + r;
      uplinkSamples := uplinkSamples + [r];
    }

    /** The `downlink` getter: sample, and add the sample to `downlinkTotal`. */
    method Downlink(reported: nat) returns (r: nat)
      requires Valid()
      modifies this`downlinkTotal, this`downlinkSamples
      ensures Valid()
      ensures r == Stats(reported)
      ensures downlinkSamples == old(downlinkSamples) + [r]
      ensures downlinkTotal == old(downlinkTotal) + r
    {
      r := Stats(reported);
      SumAppend(downlinkSamples, [r]);
      downlinkTotal := downlinkTotal + r;
      downlinkSamples := downlinkSamples + [r];
    }

    /**
     * `persistStats`: sample both directions once, add the totals to the
     * profile and write it; if the write throws an `IOException`, rethrow
     * unless direct boot is enabled, and otherwise add the same totals to the
     * device-protected copy, mark it dirty and wait for the unlock.
     */
    method PersistStats(
      s: Settings, uplinkReported: nat, downlinkReported: nat, dao: ProxyDao, directBoot: DirectBoot)
      returns (outcome: Outcome<Failure>)
      requires Valid()
      modifies this`uplinkTotal, this`uplinkSamples, this`downlinkTotal, this`downlinkSamples
      modifies profile, dao, directBoot
      ensures Valid()
      ensures uplinkSamples == old(uplinkSamples) + [Stats(uplinkReported)]
      ensures downlinkSamples == old(downlinkSamples) + [Stats(downlinkReported)]
      // the in-memory profile gains the totals whether or not the write succeeds
      ensures profile.tx == old(profile.tx) + uplinkTotal && profile.rx == old(profile.rx) + downlinkTotal
      ensures dao.accessible == old(dao.accessible)
      // primary store reachable: the profile is written there and the fallback is untouched
      ensures old(dao.accessible) ==>
                outcome == Pass && dao.stored == Some(Counters(profile.tx, profile.rx))
                && directBoot.deviceProfile == old(directBoot.deviceProfile)
                && directBoot.listeningForUnlock == old(directBoot.listeningForUnlock)
      ensures !old(dao.accessible) ==> dao.stored == old(dao.stored)
      // locked and not direct-boot aware: the IOException propagates
      ensures !old(dao.accessible) && !s.directBootAware ==>
                outcome == Fail(IOFailure)
                && directBoot.deviceProfile == old(directBoot.deviceProfile)
                && directBoot.listeningForUnlock == old(directBoot.listeningForUnlock)
      // locked, direct-boot aware, but no device copy: `getDeviceProfile()!!` throws
      ensures !old(dao.accessible) && s.directBootAware && old(directBoot.deviceProfile).None? ==>
                outcome == Fail(NullPointer)
                && directBoot.deviceProfile == old(directBoot.deviceProfile)
                && directBoot.listeningForUnlock == old(directBoot.listeningForUnlock)
      // locked, direct-boot aware: the device copy gains the same totals and is marked dirty
      ensures !old(dao.accessible) && s.directBootAware && old(directBoot.deviceProfile).Some? ==>
                var d := old(directBoot.deviceProfile).value;
                outcome == Pass
                && directBoot.deviceProfile == Some(DeviceProfile(d.tx + uplinkTotal, d.rx + downlinkTotal, true))
                && directBoot.listeningForUnlock
    {
      var _ := Uplink(uplinkReported);
      var _ := Downlink(downlinkReported);
      profile.tx := profile.tx + uplinkTotal;
      profile.rx := profile.rx + downlinkTotal;
      if dao.accessible {
        dao.stored := Some(Counters(profile.tx, profile.rx));
        return Pass;
      }
      if !s.directBootAware {
        return Fail(IOFailure);
      }
      if directBoot.deviceProfile.None? {
        return Fail(NullPointer);
      }
      var d := directBoot.deviceProfile.value;
      directBoot.deviceProfile := Some(DeviceProfile(d.tx + uplinkTotal, d.rx + downlinkTotal, true));
      directBoot.listeningForUnlock := true;
      outcome := Pass;
    }

    /**
     * `cacheFiles.removeAll { it.delete(); true }`: every file is handed to
     * `delete`, in order, and removed whatever `delete` answers.
     */
    method ClearCacheFiles() returns (deleted: seq<string>)
      modifies this`cacheFiles
      ensures deleted == old(cacheFiles)
      ensures cacheFiles == []
    {
      deleted := cacheFiles;
      cacheFiles := [];
    }

    /**
     * `shutdown`: persist the statistics, then forget every config file.
     * When persisting throws, the files stay recorded and none is deleted.
     */
    method Shutdown(
      s: Settings, uplinkReported: nat, downlinkReported: nat, dao: ProxyDao, directBoot: DirectBoot)
      returns (outcome: Outcome<Failure>, deleted: seq<string>)
      requires Valid()
      modifies this`uplinkTotal, this`uplinkSamples, this`downlinkTotal, this`downlinkSamples
      modifies this`cacheFiles, profile, dao, directBoot
      ensures Valid()
      ensures uplinkSamples == old(uplinkSamples) + [Stats(uplinkReported)]
      ensures downlinkSamples == old(downlinkSamples) + [Stats(downlinkReported)]
      ensures profile.tx == old(profile.tx) + uplinkTotal && profile.rx == old(profile.rx) + downlinkTotal
      ensures outcome ==
                if old(dao.accessible) then Pass
                else if !s.directBootAware then Fail(IOFailure)
                else if old(directBoot.deviceProfile).None? then Fail(NullPointer)
                else Pass
      // what persisting leaves in the primary store and the device-protected fallback
      ensures dao.accessible == old(dao.accessible)
      ensures old(dao.accessible) ==>
                dao.stored == Some(Counters(profile.tx, profile.rx))
                && directBoot.deviceProfile == old(directBoot.deviceProfile)
                && directBoot.listeningForUnlock == old(directBoot.listeningForUnlock)
      ensures !old(dao.accessible) ==> dao.stored == old(dao.stored)
      ensures !old(dao.accessible) && (!s.directBootAware || old(directBoot.deviceProfile).None?) ==>
                directBoot.deviceProfile == old(directBoot.deviceProfile)
                && directBoot.listeningForUnlock == old(directBoot.listeningForUnlock)
      ensures !old(dao.accessible) && s.directBootAware && old(directBoot.deviceProfile).Some? ==>
                var d := old(directBoot.deviceProfile).value;
                directBoot.deviceProfile == Some(DeviceProfile(d.tx + uplinkTotal, d.rx + downlinkTotal, true))
                && directBoot.listeningForUnlock
      ensures outcome.Pass? ==> cacheFiles == [] && deleted == old(cacheFiles)
      ensures outcome.Fail? ==> cacheFiles == old(cacheFiles) && deleted == []
    {
      outcome := PersistStats(s, uplinkReported, downlinkReported, dao, directBoot);
      deleted := [];
      if outcome.Pass? {
        deleted := ClearCacheFiles();
      }
    }
  }
}
