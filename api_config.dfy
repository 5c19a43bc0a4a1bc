/** How the studio screen finds the proxy: from three build-time environment variables,
    each either unset (`None`) or a string; an empty string counts as unset. */
module ApiConfig {
  import opened Wrappers

  const DefaultApiUrl: string := "http://localhost:3001"

  predicate IsSet(v: Option<string>) {
    v.Some? && v.value != ""
  }

  predicate IsLocalHost(host: string) {
    host == "localhost" || host == "127.0.0.1"
  }

  /** `port === '443' || port === '80' || !port` */
  predicate OmitsPort(port: Option<string>) {
    !IsSet(port) || port.value == "443" || port.value == "80"
  }

  /** `API_URL`: an explicit URL wins; otherwise a host gives `http` for the local host and
      `https` for any other, with the port appended unless it is unset, 80 or 443; with
      neither, the local development proxy. */
  function ApiUrl(apiUrl: Option<string>, host: Option<string>, port: Option<string>): (url: string)
    ensures IsSet(apiUrl) ==> url == apiUrl.value
    ensures !IsSet(apiUrl) && !IsSet(host) ==> url == DefaultApiUrl
    ensures !IsSet(apiUrl) && IsSet(host) ==>
      && url == (if IsLocalHost(host.value) then "http" else "https") + "://" + host.value
                + (if OmitsPort(port) then "" else ":" + port.value)
  {
    if IsSet(apiUrl) then apiUrl.value
    else if IsSet(host) then
      var protocol := if IsLocalHost(host.value) then "http" else "https";
      if OmitsPort(port) then protocol + "://" + host.value
      else protocol + "://" + host.value + ":" + port.value
    else DefaultApiUrl
  }

  /** Without an explicit URL, the scheme is plain `http` exactly for the local host: the URL
      then starts with "http://", and otherwise with "https://". */
  lemma SchemeFollowsHost(host: string, port: Option<string>)
    requires host != ""
    ensures var url := ApiUrl(None, Some(host), port);
      IsLocalHost(host) <==> url[..7] == "http://"
  {
    var url := ApiUrl(None, Some(host), port);
    if !IsLocalHost(host) {
      assert url[..8] == "https://";
      assert url[4] == 's';
    }
  }

  /** The port is written after the host exactly when it is set and neither 80 nor 443. */
  lemma PortShownIff(host: string, port: Option<string>)
    requires host != ""
    ensures var url := ApiUrl(None, Some(host), port);
      var prefix := (if IsLocalHost(host) then "http" else "https") + "://" + host;
      && prefix <= url
      && (url == prefix <==> OmitsPort(port))
  {
  }
}
