/**
 * `wandelbots_python_plan_motion/utils.py`: basic auth, protocol probing and
 * the base URL (with the API path), and the client configuration that
 * `get_api_client` builds and then adjusts field by field.
 */
module PlanMotionUtils {
  import opened Wrappers
  import opened Text
  import opened Http

  /** The version path appended to every base URL of this variant. */
  const ApiBasePath := "/api/v1"

  /** The environment settings the module reads. */
  datatype Settings = Settings(
    cellId: string,
    host: Option<string>,
    username: Option<string>,
    password: Option<string>)

  /** The client library's configuration object; `get_api_client` assigns its fields after construction. */
  class Configuration {
    var host: string
    var verifySsl: bool
    var username: Option<string>
    var password: Option<string>

    /** A fresh configuration has the library's defaults: certificates checked, no credentials. */
    constructor (host: string)
      ensures this.host == host && verifySsl
      ensures username == None && password == None
    {
      this.host := host;
      verifySsl := true;
      username := None;
      password := None;
    }
  }

  /** Both probes use basic auth exactly when user name and password are both set. */
  function ProbeAuth(username: Option<string>, password: Option<string>): (r: Option<BasicAuth>)
    ensures r.Some? <==> username.Some? && password.Some?
    ensures r.Some? ==> r.value == BasicAuth(username.value, password.value)
  {
    if username.Some? && password.Some? then Some(BasicAuth(username.value, password.value)) else None
  }

  /** A probe of `host` over `scheme`; neither probe sends extra headers. */
  function Probe(scheme: string, host: string, cellId: string, auth: Option<BasicAuth>): (q: ProbeRequest)
    ensures StartsWith(q.url, scheme)
    ensures q.headers == map[] && q.auth == auth && q.timeout == ProbeTimeout
    // the URL is the scheme, then the probed host, then the controllers path of the cell
    ensures |q.url| == |scheme| + |host| + |ControllersPath(cellId)|
    ensures q.url[|scheme|..|scheme| + |host|] == host && q.url[|scheme| + |host|..] == ControllersPath(cellId)
  {
    ProbeRequest(scheme + host + ControllersPath(cellId), map[], auth, ProbeTimeout)
  }

  /** `get_protocol`, with the answers the two probes would get as parameters. */
  function GetProtocol(host: string, cellId: string, username: Option<string>, password: Option<string>,
                       httpsOutcome: ProbeOutcome, httpOutcome: ProbeOutcome): (r: Probing)
    ensures r.protocol == Some(HttpsScheme) <==> Succeeded(httpsOutcome)
    ensures r.protocol == Some(HttpScheme) <==> !Succeeded(httpsOutcome) && Succeeded(httpOutcome)
    ensures r.protocol == None <==> !Succeeded(httpsOutcome) && !Succeeded(httpOutcome)
    ensures forall q :: q in r.sent ==> q.auth == ProbeAuth(username, password) && q.headers == map[]
    // the https probe goes first; the http probe follows exactly when it was not answered with 200
    ensures |r.sent| > 0 && r.sent[0] == Probe(HttpsScheme, host, cellId, ProbeAuth(username, password))
    ensures |r.sent| <= 2 && (|r.sent| == 2 <==> !Succeeded(httpsOutcome))
    ensures |r.sent| == 2 ==> r.sent[1] == Probe(HttpScheme, host, cellId, ProbeAuth(username, password))
  {
    var auth := ProbeAuth(username, password);
    ChooseProtocol(Probe(HttpsScheme, host, cellId, auth), Probe(HttpScheme, host, cellId, auth),
                   httpsOutcome, httpOutcome)
  }

  /** `get_base_url`: protocol, normalised host and API path, or an error when no probe answered 200. */
  function GetBaseUrl(settings: Settings, httpsOutcome: ProbeOutcome, httpOutcome: ProbeOutcome): (r: Result<string>)
    ensures r.Err? <==> !Succeeded(httpsOutcome) && !Succeeded(httpOutcome)
    ensures Succeeded(httpsOutcome) ==>
      r == Ok(HttpsScheme + NormaliseHost(HostSetting(settings.host)) + ApiBasePath)
    ensures !Succeeded(httpsOutcome) && Succeeded(httpOutcome) ==>
      r == Ok(HttpScheme + NormaliseHost(HostSetting(settings.host)) + ApiBasePath)
  {
    var host := NormaliseHost(HostSetting(settings.host));
    var probing := GetProtocol(host, settings.cellId, settings.username, settings.password, httpsOutcome, httpOutcome);
    if probing.protocol.None? then
      Err("Could not determine protocol for host " + host + ". Make sure the host is reachable.")
    else
      Ok(probing.protocol.value + host + ApiBasePath)
  }

  /** A URL built as scheme, host and API path splits back into those three parts. */
  lemma UrlSplits(scheme: string, host: string)
    ensures var url := scheme + host + ApiBasePath;
      && StartsWith(url, scheme)
      && url[|scheme|..|url| - |ApiBasePath|] == host
      && url[|url| - |ApiBasePath|..] == ApiBasePath
  {
  }

  /**
   * The normalised host can be read back out of a base URL: strip the
   * protocol in front and the API path behind.
   */
  lemma BaseUrlHost(settings: Settings, httpsOutcome: ProbeOutcome, httpOutcome: ProbeOutcome)
    ensures var b := GetBaseUrl(settings, httpsOutcome, httpOutcome);
      var scheme := if Succeeded(httpsOutcome) then HttpsScheme else HttpScheme;
      b.Ok? ==> && StartsWith(b.value, scheme)
                && b.value[|scheme|..|b.value| - |ApiBasePath|] == NormaliseHost(HostSetting(settings.host))
                && b.value[|b.value| - |ApiBasePath|..] == ApiBasePath
  {
    UrlSplits(if Succeeded(httpsOutcome) then HttpsScheme else HttpScheme, NormaliseHost(HostSetting(settings.host)));
  }

  /**
   * The configuration `get_api_client` builds for a known base URL: the
   * library's defaults, then certificate checks off, then user name and
   * password only when both are set.
   */
  method Configure(baseUrl: string, username: Option<string>, password: Option<string>)
    returns (config: Configuration)
    ensures fresh(config)
    ensures config.host == baseUrl && !config.verifySsl
    ensures username.Some? && password.Some? ==> config.username == username && config.password == password
    ensures username.None? || password.None? ==> config.username == None && config.password == None
  {
    config := new Configuration(baseUrl);
    config.verifySsl := false;
    if username.Some? && password.Some? {
      config.username := username;
      config.password := password;
    }
  }

  /**
   * `get_api_client`: on a base URL, a configuration for it with certificate
   * checks off, and user name and password only when both are set; no
   * configuration when the base URL cannot be determined.
   */
  method GetApiClient(settings: Settings, httpsOutcome: ProbeOutcome, httpOutcome: ProbeOutcome)
    returns (r: Result<Configuration>)
    ensures r.Err? <==> GetBaseUrl(settings, httpsOutcome, httpOutcome).Err?
    ensures r.Ok? ==> r.value.host == GetBaseUrl(settings, httpsOutcome, httpOutcome).value
    ensures r.Ok? ==> fresh(r.value) && !r.value.verifySsl
    ensures r.Ok? && settings.username.Some? && settings.password.Some? ==>
      r.value.username == settings.username && r.value.password == settings.password
    ensures r.Ok? && (settings.username.None? || settings.password.None?) ==>
      r.value.username == None && r.value.password == None
  {
    var baseUrl := GetBaseUrl(settings, httpsOutcome, httpOutcome);
    if baseUrl.Err? {
      return Err(baseUrl.message);
    }
    var config := Configure(baseUrl.value, settings.username, settings.password);
    r := Ok(config);
  }
}
