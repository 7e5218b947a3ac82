/**
 * `wandelbots_python_convenient/utils.py`: choosing the credentials, the
 * protocol and the base URL of the Nova API, and building the client
 * instance from them. Settings read from the environment and the outcomes
 * of the two probes are parameters.
 */
module ConvenientUtils {
  import opened Wrappers
  import opened Text
  import opened Http

  /** How an `Instance` authenticates. */
  datatype Credentials = Anonymous | AccessToken(token: string) | UserPassword(user: string, password: string)

  datatype Instance = Instance(url: string, credentials: Credentials)

  /** The environment settings the module reads. */
  datatype Settings = Settings(
    cellId: string,
    host: Option<string>,
    accessToken: Option<string>,
    username: Option<string>,
    password: Option<string>)

  const MissingCredentials := "Please provide access token or basic auth via env vars."

  /** Basic auth exists exactly when both user name and password are set. */
  function GetBasicAuth(username: Option<string>, password: Option<string>): (r: Option<BasicAuth>)
    ensures r.Some? <==> username.Some? && password.Some?
    ensures r.Some? ==> r.value.username == username.value && r.value.password == password.value
  {
    if username.Some? && password.Some? then Some(BasicAuth(username.value, password.value)) else None
  }

  /** The URL's scheme names https; the scheme is read off the URL's start. */
  predicate IsHttpsUrl(url: string) {
    StartsWith(url, "https")
  }

  /**
   * `create_instance`: an https URL needs credentials, and a token wins over
   * basic auth; any other URL gets a plain instance.
   */
  function CreateInstance(baseUrl: string, accessToken: Option<string>, basicAuth: Option<BasicAuth>): (r: Result<Instance>)
    ensures r.Ok? ==> r.value.url == baseUrl
    ensures !IsHttpsUrl(baseUrl) ==> r == Ok(Instance(baseUrl, Anonymous))
    ensures IsHttpsUrl(baseUrl) && accessToken.Some? ==> r.Ok? && r.value.credentials == AccessToken(accessToken.value)
    ensures IsHttpsUrl(baseUrl) && accessToken.None? && basicAuth.Some? ==>
      r.Ok? && r.value.credentials == UserPassword(basicAuth.value.username, basicAuth.value.password)
    ensures r.Err? <==> IsHttpsUrl(baseUrl) && accessToken.None? && basicAuth.None?
  {
    if IsHttpsUrl(baseUrl) then
      if accessToken.Some? then Ok(Instance(baseUrl, AccessToken(accessToken.value)))
      else if basicAuth.Some? then Ok(Instance(baseUrl, UserPassword(basicAuth.value.username, basicAuth.value.password)))
      else Err(MissingCredentials)
    else Ok(Instance(baseUrl, Anonymous))
  }

  /**
   * The https probe: with an access token it sends `Authorization: Bearer
   * <token>` (section 2.1 of RFC 6750) and drops the basic auth.
   */
  function HttpsProbe(host: string, cellId: string, accessToken: Option<string>, basicAuth: Option<BasicAuth>): (q: ProbeRequest)
    ensures StartsWith(q.url, HttpsScheme) && q.timeout == ProbeTimeout
    ensures accessToken.Some? ==> q.headers == map["Authorization" := "Bearer " + accessToken.value] && q.auth == None
    ensures accessToken.None? ==> q.headers == map[] && q.auth == basicAuth
    // the URL is the scheme, then the probed host, then the controllers path of the cell
    ensures |q.url| == |HttpsScheme| + |host| + |ControllersPath(cellId)|
    ensures q.url[|HttpsScheme|..|HttpsScheme| + |host|] == host && q.url[|HttpsScheme| + |host|..] == ControllersPath(cellId)
  {
    var headers := if accessToken.Some? then map["Authorization" := "Bearer " + accessToken.value] else map[];
    var auth := if accessToken.Some? then None else basicAuth;
    ProbeRequest(HttpsScheme + host + ControllersPath(cellId), headers, auth, ProbeTimeout)
  }

  /** The http probe never carries credentials. */
  function HttpProbe(host: string, cellId: string): (q: ProbeRequest)
    ensures StartsWith(q.url, HttpScheme) && q.timeout == ProbeTimeout
    ensures q.headers == map[] && q.auth == None
    // the URL is the scheme, then the probed host, then the controllers path of the cell
    ensures |q.url| == |HttpScheme| + |host| + |ControllersPath(cellId)|
    ensures q.url[|HttpScheme|..|HttpScheme| + |host|] == host && q.url[|HttpScheme| + |host|..] == ControllersPath(cellId)
  {
    ProbeRequest(HttpScheme + host + ControllersPath(cellId), map[], None, ProbeTimeout)
  }

  /** `get_protocol`, with the answers the two probes would get as parameters. */
  function GetProtocol(host: string, cellId: string, accessToken: Option<string>, basicAuth: Option<BasicAuth>,
                       httpsOutcome: ProbeOutcome, httpOutcome: ProbeOutcome): (r: Probing)
    ensures r.protocol == Some(HttpsScheme) <==> Succeeded(httpsOutcome)
    ensures r.protocol == Some(HttpScheme) <==> !Succeeded(httpsOutcome) && Succeeded(httpOutcome)
    ensures r.protocol == None <==> !Succeeded(httpsOutcome) && !Succeeded(httpOutcome)
    ensures forall q :: q in r.sent ==> (q.auth.Some? ==> accessToken.None? && basicAuth.Some?)
    ensures |r.sent| > 0 && r.sent[0] == HttpsProbe(host, cellId, accessToken, basicAuth)
    ensures |r.sent| == 2 ==> r.sent[1] == HttpProbe(host, cellId)
    ensures |r.sent| <= 2 && (|r.sent| == 2 <==> !Succeeded(httpsOutcome))
  {
    ChooseProtocol(HttpsProbe(host, cellId, accessToken, basicAuth), HttpProbe(host, cellId), httpsOutcome, httpOutcome)
  }

  /** `get_base_url`: the chosen protocol followed by the normalised host, or an error. */
  function GetBaseUrl(settings: Settings, basicAuth: Option<BasicAuth>,
                      httpsOutcome: ProbeOutcome, httpOutcome: ProbeOutcome): (r: Result<string>)
    ensures r.Err? <==> !Succeeded(httpsOutcome) && !Succeeded(httpOutcome)
    ensures Succeeded(httpsOutcome) ==> r == Ok(HttpsScheme + NormaliseHost(HostSetting(settings.host)))
    ensures !Succeeded(httpsOutcome) && Succeeded(httpOutcome) ==>
      r == Ok(HttpScheme + NormaliseHost(HostSetting(settings.host)))
  {
    var host := NormaliseHost(HostSetting(settings.host));
    var probing := GetProtocol(host, settings.cellId, settings.accessToken, basicAuth, httpsOutcome, httpOutcome);
    if probing.protocol.None? then
      Err("Could not determine protocol for host " + host + ". Make sure the host is reachable.")
    else
      Ok(probing.protocol.value + host)
  }

  /** `get_api_client`: credentials, then base URL, then the instance. */
  function GetApiClient(settings: Settings, httpsOutcome: ProbeOutcome, httpOutcome: ProbeOutcome): (r: Result<Instance>)
    ensures var b := GetBaseUrl(settings, GetBasicAuth(settings.username, settings.password), httpsOutcome, httpOutcome);
      r.Ok? ==> b.Ok? && r.value.url == b.value
  {
    var basicAuth := GetBasicAuth(settings.username, settings.password);
    var baseUrl := GetBaseUrl(settings, basicAuth, httpsOutcome, httpOutcome);
    if baseUrl.Err? then Err(baseUrl.message)
    else CreateInstance(baseUrl.value, settings.accessToken, basicAuth)
  }

  /** A base URL built by `GetBaseUrl` has an https scheme exactly when the https probe answered 200. */
  lemma BaseUrlSchemeFollowsProbe(settings: Settings, basicAuth: Option<BasicAuth>,
                                  httpsOutcome: ProbeOutcome, httpOutcome: ProbeOutcome)
    ensures var b := GetBaseUrl(settings, basicAuth, httpsOutcome, httpOutcome);
      b.Ok? ==> (IsHttpsUrl(b.value) <==> Succeeded(httpsOutcome))
  {
    SchemeOfUrl(NormaliseHost(HostSetting(settings.host)));
  }

  /**
   * The whole chain: reached over https the client uses the token when there
   * is one, else user name and password; with neither it is refused; reached
   * over plain http it is anonymous whatever the settings.
   */
  lemma ApiClientCredentials(settings: Settings, httpsOutcome: ProbeOutcome, httpOutcome: ProbeOutcome)
    ensures var r := GetApiClient(settings, httpsOutcome, httpOutcome);
      && (r.Err? <==> (!Succeeded(httpsOutcome) && !Succeeded(httpOutcome))
                      || (Succeeded(httpsOutcome) && settings.accessToken.None?
                          && (settings.username.None? || settings.password.None?)))
      && (r.Ok? && Succeeded(httpsOutcome) && settings.accessToken.Some? ==>
            r.value.credentials == AccessToken(settings.accessToken.value))
      && (r.Ok? && Succeeded(httpsOutcome) && settings.accessToken.None? ==>
            r.value.credentials == UserPassword(settings.username.value, settings.password.value))
      && (r.Ok? && !Succeeded(httpsOutcome) ==> r.value.credentials == Anonymous)
  {
    var basicAuth := GetBasicAuth(settings.username, settings.password);
    if GetBaseUrl(settings, basicAuth, httpsOutcome, httpOutcome).Ok? {
      BaseUrlSchemeFollowsProbe(settings, basicAuth, httpsOutcome, httpOutcome);
    }
  }
}
