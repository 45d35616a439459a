/** `getBaseUrl()` of `src/lib/getBaseUrl.ts`, with the environment and request headers as parameters. */
module BaseUrl {

  import opened Wrappers
  import opened Text

  /** The host a request names: `x-forwarded-host` when truthy, else `host` when truthy. */
  function RequestHost(forwardedHost: Option<string>, host: Option<string>): (r: Option<string>)
    ensures Truthy(forwardedHost) ==> r == forwardedHost
    ensures !Truthy(forwardedHost) && Truthy(host) ==> r == host
    ensures r.None? <==> !Truthy(forwardedHost) && !Truthy(host)
    ensures r.Some? ==> r.value != ""
  {
    if Truthy(forwardedHost) then forwardedHost else if Truthy(host) then host else None
  }

  /** `http` for a host naming localhost, `https` for every other host. */
  function Protocol(host: string): (r: string)
    ensures r == "http" <==> Includes(host, "localhost")
    ensures r == "http" || r == "https"
  {
    if Includes(host, "localhost") then "http" else "https"
  }

  /**
   * The site's origin: `NEXT_PUBLIC_SITE_URL` when set, else `https://` and
   * `VERCEL_URL` when that is set, else protocol and host of the request,
   * else `http://localhost:3000`. Empty strings count as unset.
   */
  function GetBaseUrl(siteUrl: Option<string>, vercelUrl: Option<string>,
                      forwardedHost: Option<string>, host: Option<string>): (r: string)
    ensures Truthy(siteUrl) ==> r == siteUrl.value
    ensures !Truthy(siteUrl) && Truthy(vercelUrl) ==> r == "https://" + vercelUrl.value
    ensures !Truthy(siteUrl) && !Truthy(vercelUrl) && RequestHost(forwardedHost, host).Some? ==>
              r == Protocol(RequestHost(forwardedHost, host).value) + "://" + RequestHost(forwardedHost, host).value
    ensures !Truthy(siteUrl) && !Truthy(vercelUrl) && RequestHost(forwardedHost, host).None? ==>
              r == "http://localhost:3000"
  {
    var env := if Truthy(siteUrl) then siteUrl.value
               else if Truthy(vercelUrl) then "https://" + vercelUrl.value
               else "";
    if env != "" then env
    else
      var h := RequestHost(forwardedHost, host);
      if h.Some? then Protocol(h.value) + "://" + h.value
      else "http://localhost:3000"
  }

  /**
   * Without either environment setting the origin is always an `http` or
   * `https` URL, and it is `http` exactly when the chosen host names
   * localhost or there is no host at all.
   */
  lemma WithoutEnvTheOriginIsAUrl(forwardedHost: Option<string>, host: Option<string>)
    ensures var r := GetBaseUrl(None, None, forwardedHost, host);
            var h := RequestHost(forwardedHost, host);
            && (StartsWith(r, "http://") || StartsWith(r, "https://"))
            && (StartsWith(r, "http://") <==> h.None? || Includes(h.value, "localhost"))
  {
    var r := GetBaseUrl(None, None, forwardedHost, host);
    var h := RequestHost(forwardedHost, host);
    if h.Some? {
      if Includes(h.value, "localhost") {
        assert r == "http://" + h.value;
        assert r[..7] == "http://";
      } else {
        assert r == "https://" + h.value;
        assert r[..8] == "https://";
        assert r[..7] != "http://" by { assert r[4] == 's'; }
      }
    } else {
      assert r[..7] == "http://";
    }
  }
}
