/** StaticProxyStore of src/tele2-ats2-client/proxy-store.static.impl.js: a
    proxy fixed at construction, handed out on every `loadProxy`. */
module ProxyStores {
  import opened Js
  import opened ApiUtils

  /** A proxy store's resolved value `{ proxy? }`; a null result is None
      around it. */
  datatype ProxyLoad = ProxyLoad(proxy: Option<ProxyHttp>)

  /** The store keeps the constructor's proxy and never changes it. */
  datatype StaticProxyStore = StaticProxyStore(proxy: Option<ProxyHttp>)

  /** `loadProxy()`: null without a proxy, else a field-by-field copy. */
  function LoadProxy(store: StaticProxyStore): (r: Option<ProxyLoad>)
    ensures store.proxy.None? <==> r.None?
    ensures r.Some? ==> r.value.proxy == store.proxy
  {
    match store.proxy
    case None => None
    case Some(p) => Some(ProxyLoad(Some(ProxyHttp(p.host, p.port, p.user, p.pass))))
  }

  /** `loadProxy?.proxy`, as the client reads a store's reply. */
  function ProxyOf(load: Option<ProxyLoad>): Option<ProxyHttp> {
    match load
    case None => None
    case Some(l) => l.proxy
  }

  /** What the client takes from a static store is the configured proxy: a
      null reply means no proxy. */
  lemma ClientSeesConfiguredProxy(store: StaticProxyStore)
    ensures ProxyOf(LoadProxy(store)) == store.proxy
  {
  }
}
