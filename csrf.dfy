/**
 * The same-origin check guarding the state-changing security routes. URL
 * parsing (`new URL`) is the parameter `parseUrl`; `None` is a parse error.
 */
module Csrf {
  import opened Wrappers

  /** The parts of a parsed URL that the check compares. */
  datatype UrlParts = UrlParts(protocol: string, host: string)

  /**
   * `isSameOrigin`: the request URL must parse; a missing or empty Origin
   * header passes; otherwise the origin must parse and agree on protocol and
   * host.
   */
  function IsSameOrigin(requestUrl: string, origin: Option<string>, parseUrl: string -> Option<UrlParts>): (ok: bool)
    ensures parseUrl(requestUrl).None? ==> !ok
    ensures parseUrl(requestUrl).Some? && (origin.None? || origin.value == "") ==> ok
    ensures parseUrl(requestUrl).Some? && origin.Some? && origin.value != "" ==>
      (ok <==> parseUrl(origin.value).Some? && parseUrl(origin.value).value == parseUrl(requestUrl).value)
  {
    var reqUrl := parseUrl(requestUrl);
    if reqUrl.None? then false
    else if origin.None? || origin.value == "" then true
    else
      var o := parseUrl(origin.value);
      o.Some? && o.value.protocol == reqUrl.value.protocol && o.value.host == reqUrl.value.host
  }

  /** An origin naming the request's own scheme and host passes. */
  lemma OwnOriginAccepted(requestUrl: string, origin: string, parseUrl: string -> Option<UrlParts>)
    requires parseUrl(requestUrl).Some? && origin != ""
    requires parseUrl(origin) == parseUrl(requestUrl)
    ensures IsSameOrigin(requestUrl, Some(origin), parseUrl)
  {
  }

  /** An origin that differs in protocol or host is refused. */
  lemma ForeignOriginRefused(requestUrl: string, origin: string, parseUrl: string -> Option<UrlParts>)
    requires parseUrl(requestUrl).Some? && parseUrl(origin).Some? && origin != ""
    requires parseUrl(origin).value.protocol != parseUrl(requestUrl).value.protocol
      || parseUrl(origin).value.host != parseUrl(requestUrl).value.host
    ensures !IsSameOrigin(requestUrl, Some(origin), parseUrl)
  {
  }
}
