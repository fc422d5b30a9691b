/** The vocabulary both copies of config/baseUrl.ts share: the three
    environments, the platforms React Native reports, the four backend
    services, and the parts of the resolution that the two copies write
    identically (the override check, the local host per platform and the
    local port per service). */
module Deployment {
  import opened Common

  datatype Environment = Local | Aws | Production

  /** `Platform.OS`, reduced to the two values the resolver tests for. */
  datatype Platform = Ios | Android | OtherPlatform

  datatype Service = Orders | Cliente | Catalog | Rutas

  /** A row of the `ENVIRONMENTS` table. */
  datatype EnvConfig = EnvConfig(
    bffVenta: string, bffCliente: string,
    ordersService: string, clienteService: string, catalogService: string, rutasService: string)

  /** The value of `EXPO_PUBLIC_ENVIRONMENT` that names each environment. */
  function EnvName(e: Environment): (name: string)
    ensures name != ""
  {
    match e
    case Local => "local"
    case Aws => "aws"
    case Production => "production"
  }

  /** The override test `envVar && ['local', 'aws', 'production'].includes(envVar)`:
      the environment the variable names, if it names one. */
  function ParseOverride(envVar: Option<string>): (r: Option<Environment>)
    ensures r.Some? ==> envVar == Some(EnvName(r.value))
    ensures r.None? ==> forall e: Environment :: envVar != Some(EnvName(e))
  {
    if !Truthy(envVar) then None
    else if envVar.value == "local" then Some(Local)
    else if envVar.value == "aws" then Some(Aws)
    else if envVar.value == "production" then Some(Production)
    else None
  }

  /** Parsing the name of an environment gives that environment back. */
  lemma ParseEnvName(e: Environment)
    ensures ParseOverride(Some(EnvName(e))) == Some(e)
  {
  }

  /** The LAN address used off-emulator when `EXPO_PUBLIC_API_HOST` is unset. */
  const DefaultLanHost: string := "10.189.117.176"

  /** The local-environment host: the simulator loopback on iOS, the Android
      emulator's alias for the host machine, else the LAN address (`??`
      replaces only a missing variable, so an empty one is kept). */
  function LocalHost(platform: Platform, lanHost: Option<string>): (h: string)
    ensures StartsWith(h, "http://")
    ensures platform == OtherPlatform && lanHost.None? ==> h == "http://" + DefaultLanHost
    ensures platform == OtherPlatform && lanHost.Some? ==> h == "http://" + lanHost.value
  {
    match platform
    case Ios => "http://localhost"
    case Android => "http://10.0.2.2"
    case OtherPlatform =>
      var ip := match lanHost case Some(v) => v case None => DefaultLanHost;
      "http://" + ip
  }

  /** The port of each microservice under Docker Compose. */
  function Port(s: Service): (p: string)
    ensures |p| == 4
  {
    match s
    case Orders => "8000"
    case Cliente => "3003"
    case Catalog => "3001"
    case Rutas => "8003"
  }

  /** No two services share a port. */
  lemma PortsDistinct(s: Service, t: Service)
    requires s != t
    ensures Port(s) != Port(t)
  {
  }

  /** `${base}:${port}` determines the service: the same base with two
      different services never gives the same URL. */
  lemma LocalUrlInjective(base: string, s: Service, t: Service)
    requires s != t
    ensures base + ":" + Port(s) != base + ":" + Port(t)
  {
    var u, v := base + ":" + Port(s), base + ":" + Port(t);
    PortsDistinct(s, t);
    assert u[|base| + 1..] == Port(s);
    assert v[|base| + 1..] == Port(t);
  }

  /** `https://...` never passes for `http://...`: the sixth characters differ. */
  lemma HttpsIsNotHttp(u: string)
    requires StartsWith(u, "https://")
    ensures !StartsWith(u, "http://")
  {
    assert u[4] == 's';
  }
}
