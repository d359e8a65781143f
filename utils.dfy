/** `proxyHttpToAxiosProxy` of src/tele2-ats2-api/utils.js: the SDK's proxy
    description turned into the HTTP library's proxy setting. */
module ApiUtils {
  import opened Js

  /** The SDK's proxy description; user and password are optional. */
  datatype ProxyHttp = ProxyHttp(host: string, port: int, user: Option<string>, pass: Option<string>)

  datatype ProxyAuth = ProxyAuth(username: string, password: string)

  /** `false` (no proxy) or the library's `{ host, port, auth }`. */
  datatype AxiosProxy = NoProxy | AxiosProxyConfig(host: string, port: int, auth: Option<ProxyAuth>)

  function ProxyHttpToAxiosProxy(proxy: Option<ProxyHttp>): (r: AxiosProxy)
    // no proxy is `false`, and a proxy never is
    ensures proxy.None? <==> r.NoProxy?
    // host and port are copied unchanged
    ensures proxy.Some? ==> r.host == proxy.value.host && r.port == proxy.value.port
    // credentials are passed on exactly when both are non-empty
    ensures proxy.Some? ==> (r.auth.Some? <==> Truthy(proxy.value.user) && Truthy(proxy.value.pass))
    ensures proxy.Some? && r.auth.Some? ==> r.auth.value == ProxyAuth(proxy.value.user.value, proxy.value.pass.value)
  {
    match proxy
    case None => NoProxy
    case Some(p) =>
      AxiosProxyConfig(p.host, p.port,
        if Truthy(p.user) && Truthy(p.pass) then Some(ProxyAuth(p.user.value, p.pass.value)) else None)
  }
}
