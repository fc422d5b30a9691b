/** clientes/config/baseUrl.ts: the customer app's environment and service
    URLs. The environment falls back on `isAPKMode()` (an input here) rather
    than on `__DEV__`, and the services are split between the two BFFs
    differently from the sales-rep app. */
module ClientesBaseUrl {
  import opened Common
  import opened Deployment

  /** What the resolver reads: the override, `isAPKMode()`, `Platform.OS`
      and `EXPO_PUBLIC_API_HOST`. */
  datatype Inputs = Inputs(envVar: Option<string>, apkMode: bool, platform: Platform, lanHost: Option<string>)

  const BackendRoot: string := "https://medisupply-backend.duckdns.org/"

  /** The `ENVIRONMENTS` table; aws and production share one backend host. */
  function Table(e: Environment): (c: EnvConfig)
    ensures e != Local ==> StartsWith(c.bffVenta, BackendRoot) && StartsWith(c.bffCliente, BackendRoot)
  {
    match e
    case Local => EnvConfig("http://localhost:8001", "http://localhost:8002",
                            "http://localhost:8000", "http://localhost:3003",
                            "http://localhost:3001", "http://localhost:8003")
    case _ => EnvConfig("https://medisupply-backend.duckdns.org/venta",
                        "https://medisupply-backend.duckdns.org/cliente",
                        "", "", "", "")
  }

  /** `getCurrentEnvironment()`: a valid override first, then APK mode (real
      or simulated) means production, otherwise local. */
  function CurrentEnvironment(i: Inputs): (e: Environment)
    ensures ParseOverride(i.envVar).Some? ==> i.envVar == Some(EnvName(e))
    ensures ParseOverride(i.envVar).None? ==> (e == Production <==> i.apkMode) && (e == Local <==> !i.apkMode)
  {
    match ParseOverride(i.envVar)
    case Some(e) => e
    case None => if i.apkMode then Production else Local
  }

  /** `apiHost()`: the platform-dependent local host, or BFF Cliente. */
  function ApiHost(i: Inputs): (h: string)
    ensures CurrentEnvironment(i) == Local ==> h == LocalHost(i.platform, i.lanHost)
    ensures CurrentEnvironment(i) != Local ==> h == Table(CurrentEnvironment(i)).bffCliente
    ensures StartsWith(h, "http://") <==> CurrentEnvironment(i) == Local
  {
    var env := CurrentEnvironment(i);
    if env == Local then LocalHost(i.platform, i.lanHost)
    else
      var h := Table(env).bffCliente;
      assert h[..8] == BackendRoot[..8] == "https://";
      HttpsIsNotHttp(h);
      h
  }

  /** The path each service has behind its BFF; the client path keeps its
      trailing slash. */
  function BffPath(s: Service): (p: string)
    ensures p != "" && p[|p| - 1] == '/' <==> s == Cliente
  {
    match s
    case Orders => "/api/v1/orders"
    case Cliente => "/api/v1/client/"
    case Catalog => "/api/v1/catalog"
    case Rutas => "/api/v1/rutas"
  }

  /** Catalog and routes are served by BFF Venta, orders and clients by BFF
      Cliente. */
  predicate ViaBffVenta(s: Service)
  {
    s == Catalog || s == Rutas
  }

  /** `getServiceUrl(service)`: locally the host plus the service's port;
      otherwise the service's BFF followed by its path. */
  function ServiceUrl(i: Inputs, s: Service): (u: string)
    ensures CurrentEnvironment(i) == Local ==> u == ApiHost(i) + ":" + Port(s)
    ensures CurrentEnvironment(i) != Local ==>
      var bff := if ViaBffVenta(s) then Table(CurrentEnvironment(i)).bffVenta
                 else Table(CurrentEnvironment(i)).bffCliente;
      StartsWith(u, bff) && u[|bff|..] == BffPath(s)
  {
    var env := CurrentEnvironment(i);
    var config := Table(env);
    if env == Local then ApiHost(i) + ":" + Port(s)
    else if ViaBffVenta(s) then config.bffVenta + BffPath(s)
    else config.bffCliente + BffPath(s)
  }

  /** A valid override decides the environment whatever the APK mode. */
  lemma OverrideWins(i: Inputs, e: Environment)
    requires i.envVar == Some(EnvName(e))
    ensures CurrentEnvironment(i) == e
    ensures CurrentEnvironment(i.(apkMode := !i.apkMode)) == e
  {
    ParseEnvName(e);
  }

  /** aws and production resolve every service to the same URL. */
  lemma AwsMatchesProduction(i: Inputs, s: Service)
    ensures ServiceUrl(i.(envVar := Some("aws")), s) == ServiceUrl(i.(envVar := Some("production")), s)
    ensures ApiHost(i.(envVar := Some("aws"))) == ApiHost(i.(envVar := Some("production")))
  {
  }

  /** Outside the local environment every URL, host included, lies under the
      one HTTPS backend. */
  lemma RemoteUnderBackend(i: Inputs, s: Service)
    requires CurrentEnvironment(i) != Local
    ensures StartsWith(ServiceUrl(i, s), BackendRoot)
    ensures StartsWith(ApiHost(i), BackendRoot)
  {
    var u := ServiceUrl(i, s);
    var config := Table(CurrentEnvironment(i));
    var bff := if ViaBffVenta(s) then config.bffVenta else config.bffCliente;
    assert u[..|BackendRoot|] == bff[..|BackendRoot|];
  }

  /** The client service URL ends in `/` in every remote environment. */
  lemma ClientUrlTrailingSlash(i: Inputs)
    requires CurrentEnvironment(i) != Local
    ensures var u := ServiceUrl(i, Cliente); u != "" && u[|u| - 1] == '/'
  {
  }

  /** Every service gets its own URL in every environment. */
  lemma ServiceUrlInjective(i: Inputs, s: Service, t: Service)
    requires s != t
    ensures ServiceUrl(i, s) != ServiceUrl(i, t)
  {
    if CurrentEnvironment(i) == Local {
      LocalUrlInjective(ApiHost(i), s, t);
    } else {
      // The four BFF-plus-path combinations all differ in length.
      assert |ServiceUrl(i, s)| != |ServiceUrl(i, t)|;
    }
  }
}
