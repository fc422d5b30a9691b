/** ventas/config/baseUrl.ts: how the sales-rep app picks its environment
    and the URL of each backend service. `EXPO_PUBLIC_ENVIRONMENT`,
    `EXPO_PUBLIC_API_HOST`, `__DEV__` and `Platform.OS` are inputs. */
module VentasBaseUrl {
  import opened Common
  import opened Deployment

  /** What the resolver reads from the process and the runtime. */
  datatype Inputs = Inputs(envVar: Option<string>, isDev: bool, platform: Platform, lanHost: Option<string>)

  /** The `ENVIRONMENTS` table; the aws and production rows go to the same
      CloudFront distributions. */
  function Table(e: Environment): (c: EnvConfig)
    ensures e != Local ==> StartsWith(c.bffVenta, "https://") && StartsWith(c.bffCliente, "https://")
  {
    match e
    case Local => EnvConfig("http://localhost:8001", "http://localhost:8002",
                            "http://localhost:8000", "http://localhost:3003",
                            "http://localhost:3001", "http://localhost:8003")
    case _ => EnvConfig("https://d3f7r5jd3xated.cloudfront.net", "https://d2daixtzj6x1qi.cloudfront.net",
                        "", "", "", "")
  }

  /** `getCurrentEnvironment()`: a valid override first, then a release
      build means production, otherwise local. */
  function CurrentEnvironment(i: Inputs): (e: Environment)
    ensures ParseOverride(i.envVar).Some? ==> i.envVar == Some(EnvName(e))
    ensures ParseOverride(i.envVar).None? ==> (e == Production <==> !i.isDev) && (e == Local <==> i.isDev)
  {
    match ParseOverride(i.envVar)
    case Some(e) => e
    case None => if !i.isDev then Production else Local
  }

  /** `apiHost()`: the platform-dependent local host, or BFF Venta. Its
      scheme is plain `http://` exactly in the local environment. */
  function ApiHost(i: Inputs): (h: string)
    ensures CurrentEnvironment(i) == Local ==> h == LocalHost(i.platform, i.lanHost)
    ensures CurrentEnvironment(i) != Local ==> h == Table(CurrentEnvironment(i)).bffVenta
    ensures StartsWith(h, "http://") <==> CurrentEnvironment(i) == Local
  {
    var env := CurrentEnvironment(i);
    if env == Local then LocalHost(i.platform, i.lanHost)
    else
      var h := Table(env).bffVenta;
      HttpsIsNotHttp(h);
      h
  }

  /** The path each service has behind its BFF. */
  function BffPath(s: Service): string
  {
    match s
    case Orders => "/api/v1/orders"
    case Cliente => ""
    case Catalog => "/api/v1/catalog"
    case Rutas => "/api/v1/rutas"
  }

  /** `getServiceUrl(service)`: locally the host plus the service's port;
      otherwise BFF Cliente for `cliente` and BFF Venta plus the service path
      for the other three. */
  function ServiceUrl(i: Inputs, s: Service): (u: string)
    ensures CurrentEnvironment(i) == Local ==> u == ApiHost(i) + ":" + Port(s)
    ensures CurrentEnvironment(i) != Local && s == Cliente ==> u == Table(CurrentEnvironment(i)).bffCliente
    ensures CurrentEnvironment(i) != Local && s != Cliente ==>
      StartsWith(u, ApiHost(i)) && u[|ApiHost(i)|..] == BffPath(s)
  {
    var env := CurrentEnvironment(i);
    var config := Table(env);
    if env == Local then ApiHost(i) + ":" + Port(s)
    else if s == Cliente then config.bffCliente + BffPath(s)
    else config.bffVenta + BffPath(s)
  }

  /** A valid override decides the environment whatever the build mode. */
  lemma OverrideWins(i: Inputs, e: Environment)
    requires i.envVar == Some(EnvName(e))
    ensures CurrentEnvironment(i) == e
    ensures CurrentEnvironment(i.(isDev := !i.isDev)) == e
  {
    ParseEnvName(e);
  }

  /** aws and production resolve every service to the same URL. */
  lemma AwsMatchesProduction(i: Inputs, s: Service)
    ensures ServiceUrl(i.(envVar := Some("aws")), s) == ServiceUrl(i.(envVar := Some("production")), s)
    ensures ApiHost(i.(envVar := Some("aws"))) == ApiHost(i.(envVar := Some("production")))
  {
  }

  /** Every service gets its own URL in every environment. */
  lemma ServiceUrlInjective(i: Inputs, s: Service, t: Service)
    requires s != t
    ensures ServiceUrl(i, s) != ServiceUrl(i, t)
  {
    var env := CurrentEnvironment(i);
    if env == Local {
      LocalUrlInjective(ApiHost(i), s, t);
    } else {
      // BFF Cliente and the three BFF Venta paths all differ in length.
      assert |ServiceUrl(i, s)| != |ServiceUrl(i, t)|;
    }
  }

  /** Outside the local environment every service URL is HTTPS. */
  lemma RemoteIsHttps(i: Inputs, s: Service)
    requires CurrentEnvironment(i) != Local
    ensures StartsWith(ServiceUrl(i, s), "https://")
  {
    var u := ServiceUrl(i, s);
    var config := Table(CurrentEnvironment(i));
    if s == Cliente {
      assert u == config.bffCliente;
    } else {
      assert u[..8] == config.bffVenta[..8];
    }
  }
}
