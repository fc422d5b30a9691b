/** The APK simulation switch of the sales-rep app (ventas/config/apkSimulation.ts):
    a module-level force flag that a developer can set, and the request headers
    and timeout that depend on whether the app behaves as a release APK. */
module ApkSimulation {
  /** An HTTP header, name and value. */
  type Header = (string, string)

  const ApkTimeout := 45000
  const DevTimeout := 15000

  /** `getAPKHeaders` for a given mode: the five headers an Android OkHttp
      client sends, in declaration order, or only the JSON content type. */
  function HeadersFor(apk: bool): (h: seq<Header>)
    ensures apk ==> |h| == 5 && h[0] == ("User-Agent", "okhttp/4.12.0")
    ensures !apk ==> h == [("Content-Type", "application/json")]
    ensures ("Content-Type", "application/json") in h
  {
    if apk then
      [("User-Agent", "okhttp/4.12.0"),
       ("Accept", "application/json"),
       ("Content-Type", "application/json"),
       ("Connection", "close"),
       ("Cache-Control", "no-cache")]
    else
      [("Content-Type", "application/json")]
  }

  /** `getAPKTimeout` for a given mode, in milliseconds. */
  function TimeoutFor(apk: bool): (t: int)
    ensures t == ApkTimeout <==> apk
    ensures t == DevTimeout <==> !apk
  {
    if apk then ApkTimeout else DevTimeout
  }

  /** The header names never repeat, so the object literal loses nothing. */
  lemma HeaderNamesDistinct(apk: bool)
    ensures var h := HeadersFor(apk);
            forall i, j :: 0 <= i < j < |h| ==> h[i].0 != h[j].0
  {
  }

  /** The module state: the build flag `__DEV__`, fixed for the process, and
      `FORCE_APK_MODE`, which starts false. */
  class Simulation {
    const isDev: bool
    var forceApkMode: bool

    constructor(isDev: bool)
      ensures this.isDev == isDev && !forceApkMode
    {
      this.isDev := isDev;
      forceApkMode := false;
    }

    /** `isAPKMode`. */
    predicate IsApkMode()
      reads this
    {
      forceApkMode || !isDev
    }

    /** `setForceAPKMode`: sets the flag. A release build stays in APK mode
        whatever the value; a dev build follows the value. */
    method SetForceApkMode(value: bool)
      modifies this
      ensures forceApkMode == value
      ensures !isDev ==> IsApkMode()
      ensures isDev ==> (IsApkMode() <==> value)
    {
      forceApkMode := value;
    }

    /** `getAPKHeaders`. */
    function ApkHeaders(): (h: seq<Header>)
      reads this
      ensures |h| == 5 <==> IsApkMode()
      ensures h == HeadersFor(IsApkMode())
    {
      HeadersFor(IsApkMode())
    }

    /** `getAPKTimeout`. */
    function ApkTimeoutValue(): (t: int)
      reads this
      ensures t == ApkTimeout <==> IsApkMode()
      ensures !isDev ==> t == ApkTimeout
    {
      TimeoutFor(IsApkMode())
    }
  }

  /** In a release build nothing a caller does leaves APK mode: after any
      call to `setForceAPKMode` the headers and timeout are the APK ones. */
  method ReleaseIgnoresToggle(value: bool) returns (headers: seq<Header>, timeout: int)
    ensures |headers| == 5 && headers[0] == ("User-Agent", "okhttp/4.12.0")
    ensures timeout == ApkTimeout
  {
    var sim := new Simulation(false);
    sim.SetForceApkMode(value);
    headers := sim.ApkHeaders();
    timeout := sim.ApkTimeoutValue();
  }
}
