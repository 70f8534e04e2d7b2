/**
 * The address of the signaling socket that the root page hands to the browser
 * (the `get` endpoint of app/main.py).
 */
module Page {

  import opened Wrappers

  /** The fixed path of the signaling endpoint. */
  const SocketPath: string := "/ws"

  /** TLS-protected socket exactly when the page request itself was secure. */
  function Scheme(secure: bool): string {
    if secure then "wss" else "ws"
  }

  /** The `Host` header as the f-string renders it: a missing header prints as "None". */
  function HostText(host: Option<string>): string {
    match host
    case Some(h) => h
    case None => "None"
  }

  /** `ws_url` of the page: scheme, "://", the Host header, then "/ws". */
  function WsUrl(secure: bool, host: Option<string>): (url: string)
    ensures secure ==> |url| >= 9 && url[..6] == "wss://"
    ensures !secure ==> |url| >= 8 && url[..5] == "ws://"
    ensures url[|url| - 3..] == SocketPath
  {
    Scheme(secure) + "://" + HostText(host) + SocketPath
  }

  /** Splits a socket address back into "is it secure" and the host text. */
  function ParseWsUrl(url: string): Option<(bool, string)> {
    if |url| >= 9 && url[..6] == "wss://" && url[|url| - 3..] == SocketPath then
      Some((true, url[6..|url| - 3]))
    else if |url| >= 8 && url[..5] == "ws://" && url[|url| - 3..] == SocketPath then
      Some((false, url[5..|url| - 3]))
    else
      None
  }

  /** The page's address determines both the scheme choice and the host it came from. */
  lemma WsUrlRoundTrip(secure: bool, host: Option<string>)
    ensures ParseWsUrl(WsUrl(secure, host)) == Some((secure, HostText(host)))
  {
    var url := WsUrl(secure, host);
    if secure {
      assert url[6..|url| - 3] == HostText(host);
    } else {
      assert url[2] == ':';
      assert url[5..|url| - 3] == HostText(host);
    }
  }

  /** Two requests get the same socket address only if they agree on security and host text. */
  lemma WsUrlInjective(s1: bool, h1: Option<string>, s2: bool, h2: Option<string>)
    requires WsUrl(s1, h1) == WsUrl(s2, h2)
    ensures s1 == s2 && HostText(h1) == HostText(h2)
  {
    WsUrlRoundTrip(s1, h1);
    WsUrlRoundTrip(s2, h2);
  }
}
