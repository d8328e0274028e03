/**
 * `getNetworkConfigFile`, `isDebuggable` and `isCleartextTrafficAllowed`.
 */
module Network {
  import opened Wrappers
  import opened Utils
  import opened Findings
  import opened Manifest
  import opened ApiLevels

  /** The path whose presence reveals a debuggable Flutter application's source. */
  const FlutterKernelBlobPath: string := "assets/flutter_assets/kernel_blob.bin"

  /** `getNetworkConfigFile`: reports the configuration file, or warns that there is none. */
  function GetNetworkConfigFile(networkSecurityConfig: Option<string>): (r: Checked<bool>)
    ensures r.value <==> networkSecurityConfig.Some?
    ensures r.value ==> r.out == [Log(Info, NetworkSecurityConfig(networkSecurityConfig.value))]
    ensures !r.value ==> r.out == [Log(Warning, NoNetworkSecurityConfig)]
    ensures CriticalFree(r.out)
  {
    if networkSecurityConfig.Some? then Checked(true, [Log(Info, NetworkSecurityConfig(networkSecurityConfig.value))])
    else Checked(false, [Log(Warning, NoNetworkSecurityConfig)])
  }

  /**
   * `isDebuggable`: only an explicit `android:debuggable="true"` makes the
   * application debuggable (the default is false); a debuggable Flutter
   * application with its kernel blob shipped is critical.
   */
  function IsDebuggable(debuggable: TriBool, hasFlutterKernelBlob: bool): (r: Checked<bool>)
    ensures r.value <==> Resolve(debuggable, false)
    ensures r.value <==> debuggable == True
    ensures Log(Critical, FlutterKernelBlob(FlutterKernelBlobPath)) in r.out <==> r.value && hasFlutterKernelBlob
    ensures CriticalFree(r.out) <==> !(r.value && hasFlutterKernelBlob)
    ensures |r.out| == if r.value && hasFlutterKernelBlob then 2 else 1
    ensures r.value ==> r.out[0] == Log(Warning, Debuggable)
    ensures !r.value ==> r.out == [Log(Info, NotDebuggable)]
  {
    if debuggable == True then
      var critical := if hasFlutterKernelBlob then [Log(Critical, FlutterKernelBlob(FlutterKernelBlobPath))] else [];
      var out := [Log(Warning, Debuggable)] + critical;
      assert hasFlutterKernelBlob ==> out[1] in out;
      Checked(true, out)
    else
      Checked(false, [Log(Info, NotDebuggable)])
  }

  /**
   * Whether cleartext traffic is permitted on one API level, as documented:
   * a network security configuration takes over from API 24; otherwise the
   * declared `usesCleartextTraffic`, defaulting to true up to API 27.
   */
  predicate CleartextPermittedAt(api: int, flag: TriBool, networkSecurityConfig: Option<string>)
  {
    !(networkSecurityConfig.Some? && NetworkConfigSupersedes(api))
    && Resolve(flag, CleartextDefault(api))
  }

  /**
   * The verdict of `isCleartextTrafficAllowed`, from the minimum supported
   * level alone: `None` when the network security configuration governs,
   * else whether cleartext traffic may be used.
   */
  function CleartextVerdict(flag: TriBool, networkSecurityConfig: Option<string>, minSdk: int): (r: Option<bool>)
    ensures r.None? <==> networkSecurityConfig.Some? && minSdk >= 24
    ensures r == Some(true) <==> r.Some? && (flag == True || (flag == Unset && minSdk <= 27))
    ensures r == Some(false) <==> r.Some? && (flag == False || (flag == Unset && minSdk >= 28))
  {
    if networkSecurityConfig.Some? && minSdk >= 24 then None
    else Some(flag == True || (flag == Unset && minSdk <= 27))
  }

  /** Permission on one level carries over to every lower level. */
  lemma CleartextMonotone(lo: int, hi: int, flag: TriBool, networkSecurityConfig: Option<string>)
    requires lo <= hi
    ensures CleartextPermittedAt(hi, flag, networkSecurityConfig) ==> CleartextPermittedAt(lo, flag, networkSecurityConfig)
  {
  }

  /**
   * Checking only the minimum level is exact: the verdict is `Some(true)`
   * if and only if cleartext traffic is permitted on some supported level,
   * and `None` if and only if the configuration governs every one of them.
   */
  lemma CleartextOnLevels(flag: TriBool, networkSecurityConfig: Option<string>, minSdk: int, maxSdk: int)
    requires minSdk <= maxSdk
    ensures CleartextVerdict(flag, networkSecurityConfig, minSdk) == Some(true)
        <==> exists api :: minSdk <= api <= maxSdk && CleartextPermittedAt(api, flag, networkSecurityConfig)
    ensures CleartextVerdict(flag, networkSecurityConfig, minSdk).None?
        <==> networkSecurityConfig.Some? && forall api :: minSdk <= api <= maxSdk ==> NetworkConfigSupersedes(api)
  {
    if exists api :: minSdk <= api <= maxSdk && CleartextPermittedAt(api, flag, networkSecurityConfig) {
      var api :| minSdk <= api <= maxSdk && CleartextPermittedAt(api, flag, networkSecurityConfig);
      CleartextMonotone(minSdk, api, flag, networkSecurityConfig);
    } else {
      assert !CleartextPermittedAt(minSdk, flag, networkSecurityConfig);
    }
    if networkSecurityConfig.Some? && !NetworkConfigSupersedes(minSdk) {
      assert !NetworkConfigSupersedes(minSdk);
    }
  }

  /** The isCleartextTrafficAllowed unit-test cases. */
  lemma CleartextTestCases()
    ensures CleartextVerdict(True, None, 27) == Some(true)
    ensures CleartextVerdict(True, None, 20) == Some(true)
    ensures CleartextVerdict(True, None, 28) == Some(true)
    ensures CleartextVerdict(False, None, 30) == Some(false)
    ensures CleartextVerdict(Unset, None, 27) == Some(true)
    ensures CleartextVerdict(Unset, None, 20) == Some(true)
    ensures CleartextVerdict(Unset, None, 28) == Some(false)
    ensures CleartextVerdict(Unset, Some("bla"), 23) == Some(true)
    ensures CleartextVerdict(True, Some("bla"), 23) == Some(true)
    ensures CleartextVerdict(False, Some("bla"), 23) == Some(false)
    ensures CleartextVerdict(Unset, Some("bla"), 24) == None
    ensures CleartextVerdict(True, Some("bla"), 24) == None
    ensures CleartextVerdict(False, Some("bla"), 24) == None
  {
  }

  /** `isCleartextTrafficAllowed`: the verdict and the one line that reports it. */
  function IsCleartextTrafficAllowed(flag: TriBool, networkSecurityConfig: Option<string>, minSdk: int): (r: Checked<Option<bool>>)
    ensures r.value == CleartextVerdict(flag, networkSecurityConfig, minSdk)
    ensures r.value.None? ==> r.out == [Log(Info, DeferredToNetworkSecurityConfig)]
    ensures r.value == Some(true) ==> r.out == [Log(Warning, CleartextTraffic(true))]
    ensures r.value == Some(false) ==> r.out == [Log(Info, CleartextTraffic(false))]
    ensures CriticalFree(r.out)
  {
    if networkSecurityConfig.Some? && minSdk >= 24 then Checked(None, [Log(Info, DeferredToNetworkSecurityConfig)])
    else if flag == True || (flag == Unset && minSdk <= 27) then Checked(Some(true), [Log(Warning, CleartextTraffic(true))])
    else Checked(Some(false), [Log(Info, CleartextTraffic(false))])
  }
}
