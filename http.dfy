/**
 * What both `utils.py` files share: the probe requests `get_protocol` sends,
 * their abstract outcomes, the https-before-http decision, and the
 * normalisation `get_base_url` applies to the configured host.
 */
module Http {
  import opened Wrappers
  import opened Text

  const HttpsScheme := "https://"
  const HttpScheme := "http://"

  /** The default of the `WANDELAPI_BASE_URL` setting. */
  const DefaultHost := "api-gateway:8080"

  /** The seconds both probes wait before giving up. */
  const ProbeTimeout := 5

  datatype BasicAuth = BasicAuth(username: string, password: string)

  /**
   * One `requests.get`: the URL, the extra headers (empty when the source
   * passes `headers=None`), the basic-auth credentials and the timeout.
   */
  datatype ProbeRequest = ProbeRequest(
    url: string,
    headers: map<string, string>,
    auth: Option<BasicAuth>,
    timeout: int)

  /** What the network gave back: a response with a status code, or a `RequestException`. */
  datatype ProbeOutcome = Responded(status: int) | RequestFailed

  /** The probes actually sent, in order, and the protocol they settled on. */
  datatype Probing = Probing(protocol: Option<string>, sent: seq<ProbeRequest>)

  predicate Succeeded(o: ProbeOutcome) {
    o == Responded(200)
  }

  /** The controllers resource both probes ask for. */
  function ControllersPath(cellId: string): string {
    "/api/v1/cells/" + cellId + "/controllers"
  }

  /** The configured host when set, else the default. */
  function HostSetting(configured: Option<string>): string {
    if configured.Some? then configured.value else DefaultHost
  }

  /**
   * The host normalisation of `get_base_url`: strip whitespace, drop every
   * "http://", then every "https://", then drop trailing slashes.
   */
  function NormaliseHost(raw: string): (host: string)
    ensures |host| <= |raw|
    ensures !EndsWith(host, '/')
  {
    var stripped := Strip(raw);
    var noHttp := RemoveAll(stripped, HttpScheme);
    var noHttps := RemoveAll(noHttp, HttpsScheme);
    RStrip(noHttps, '/')
  }

  /**
   * The early returns of `get_protocol`: "https://" when the https probe
   * answered 200; otherwise the http probe is sent, and "http://" when it
   * answered 200; otherwise no protocol.
   */
  function ChooseProtocol(httpsProbe: ProbeRequest, httpProbe: ProbeRequest,
                          httpsOutcome: ProbeOutcome, httpOutcome: ProbeOutcome): (r: Probing)
    ensures r.protocol == Some(HttpsScheme) <==> Succeeded(httpsOutcome)
    ensures r.protocol == Some(HttpScheme) <==> !Succeeded(httpsOutcome) && Succeeded(httpOutcome)
    ensures r.protocol == None <==> !Succeeded(httpsOutcome) && !Succeeded(httpOutcome)
    ensures r.sent == [httpsProbe] || r.sent == [httpsProbe, httpProbe]
    ensures |r.sent| == 2 <==> !Succeeded(httpsOutcome)
  {
    if Succeeded(httpsOutcome) then Probing(Some(HttpsScheme), [httpsProbe])
    else if Succeeded(httpOutcome) then Probing(Some(HttpScheme), [httpsProbe, httpProbe])
    else Probing(None, [httpsProbe, httpProbe])
  }

  /** Of the two protocols only "https://" puts "https" at the start of a URL. */
  lemma SchemeOfUrl(host: string)
    ensures StartsWith(HttpsScheme + host, "https")
    ensures !StartsWith(HttpScheme + host, "https")
  {
    assert (HttpsScheme + host)[..5] == "https";
    assert (HttpScheme + host)[4] == ':';
  }

  /** A host with no '/' and no surrounding whitespace is its own normal form. */
  lemma NormaliseCleanHost(h: string)
    requires '/' !in h
    requires h == [] || (!IsSpace(h[0]) && !IsSpace(h[|h| - 1]))
    ensures NormaliseHost(h) == h
  {
    StripUnspaced(h);
    AbsentCharExcludes(h, HttpScheme, '/');
    RemoveAllAbsent(h, HttpScheme);
    AbsentCharExcludes(h, HttpsScheme, '/');
    RemoveAllAbsent(h, HttpsScheme);
    assert TrimEnd(h, Exactly('/')) == h;
  }

  /** "http://" in front of a clean host is removed. */
  lemma NormaliseHttpUrl(h: string)
    requires '/' !in h
    requires h == [] || (!IsSpace(h[0]) && !IsSpace(h[|h| - 1]))
    ensures NormaliseHost(HttpScheme + h) == h
  {
    var s := HttpScheme + h;
    if h == [] {
      assert s == HttpScheme;
    } else {
      assert s[|s| - 1] == h[|h| - 1];
    }
    StripUnspaced(s);
    RemoveAllLeading(HttpScheme, h);
    AbsentCharExcludes(h, HttpScheme, '/');
    RemoveAllAbsent(h, HttpScheme);
    AbsentCharExcludes(h, HttpsScheme, '/');
    RemoveAllAbsent(h, HttpsScheme);
    assert RStrip(h, '/') == h;
  }

  /** "http://" does not occur in "https://" + h + "/" when h has no '/': its "//" would have to sit inside "https://". */
  lemma HttpAbsentFromHttpsUrl(h: string)
    requires '/' !in h
    ensures !Occurs(HttpsScheme + h + "/", HttpScheme)
  {
    var s := HttpsScheme + h + "/";
    forall i | 0 <= i <= |s| - |HttpScheme| ensures !OccursAt(s, HttpScheme, i) {
      if i == 0 {
        assert s[4] != HttpScheme[4];
      } else if i < 8 {
        assert s[i] != HttpScheme[0];
      } else {
        assert s[i + 5] == h[i + 5 - 8];
        assert s[i + 5] != HttpScheme[5];
      }
    }
  }

  /** "https://" in front of a clean host, and a '/' after it, are removed. */
  lemma NormaliseHttpsUrl(h: string)
    requires '/' !in h
    requires h == [] || (!IsSpace(h[0]) && !IsSpace(h[|h| - 1]))
    ensures NormaliseHost(HttpsScheme + h + "/") == h
  {
    var t := h + "/";
    var s := HttpsScheme + t;
    assert s == HttpsScheme + h + "/";
    StripUnspaced(s);
    HttpAbsentFromHttpsUrl(h);
    RemoveAllAbsent(s, HttpScheme);
    RemoveAllLeading(HttpsScheme, t);
    assert t[..|t| - 1] == h;
    CharOnlyAtEndExcludes(t, HttpsScheme, '/', 6);
    RemoveAllAbsent(t, HttpsScheme);
    RStripOneTrailing(h, '/');
  }

  /** The in-cluster default needs no normalisation. */
  lemma DefaultHostIsNormal()
    ensures NormaliseHost(HostSetting(None)) == DefaultHost
  {
    NormaliseCleanHost(DefaultHost);
  }
}
