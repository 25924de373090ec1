/** The persisted settings record (`store` in static/ui.js) and the endpoints it falls back
    to when the page's `_CONFIG` does not override them. */
module Settings {
  import opened Options
  import opened JsString

  /** The fields of the page's own `location` that the defaults are derived from. The page's
      `location.href` is not kept here: `BrowserApp.App.OnLoad` reads it at each `load`. */
  datatype PageLocation = PageLocation(protocol: string, host: string)

  /** The optional global `_CONFIG` object; either field may be missing. */
  datatype ConfigOverrides = ConfigOverrides(wispurl: Option<string>, bareurl: Option<string>)

  const InitialAddress: string := "https://google.com"
  const WispPath: string := "/wisp/"
  const BarePath: string := "/bare/"

  /** `scheme://host path`, where the scheme is `plain` or, on a secure page, `plain + "s"`. */
  function Endpoint(secure: bool, plain: string, host: string, path: string): (e: string)
    ensures StartsWith(e, plain) && EndsWith(e, host + path)
    ensures |e| == |plain| + (if secure then 1 else 0) + 3 + |host| + |path|
  {
    (if secure then plain + "s" else plain) + "://" + host + path
  }

  /** The Wisp endpoint served by the page's own host: a WebSocket URL ending in `/wisp/`. */
  function DefaultWisp(protocol: string, host: string): (e: string)
    ensures StartsWith(e, "ws") && EndsWith(e, host + WispPath)
  {
    Endpoint(protocol == "https:", "ws", host, WispPath)
  }

  /** The Bare endpoint served by the page's own host: an HTTP URL ending in `/bare/`. */
  function DefaultBare(protocol: string, host: string): (e: string)
    ensures StartsWith(e, "http") && EndsWith(e, host + BarePath)
  {
    Endpoint(protocol == "https:", "http", host, BarePath)
  }

  /** Reads back the security flag and the host from an endpoint built by Endpoint with the
      given plain scheme and path; the partner of Endpoint. */
  function ParseEndpoint(e: string, plain: string, path: string): Option<(bool, string)> {
    var secure := plain + "s://";
    var insecure := plain + "://";
    if StartsWith(e, secure) && |secure| + |path| <= |e| && EndsWith(e, path) then
      Some((true, e[|secure|..|e| - |path|]))
    else if StartsWith(e, insecure) && |insecure| + |path| <= |e| && EndsWith(e, path) then
      Some((false, e[|insecure|..|e| - |path|]))
    else
      None
  }

  /** An endpoint built from a security flag and a host gives both back. */
  lemma {:induction false} EndpointRoundTrip(secure: bool, plain: string, host: string, path: string)
    ensures ParseEndpoint(Endpoint(secure, plain, host, path), plain, path) == Some((secure, host))
    ensures StartsWith(Endpoint(secure, plain, host, path), plain + "s://") <==> secure
  {
    var e := Endpoint(secure, plain, host, path);
    var sp := plain + "s://";
    var ip := plain + "://";
    if secure {
      assert e == sp + host + path;
      assert e[..|sp|] == sp;
      assert e[|e| - |path|..] == path;
      assert e[|sp|..|e| - |path|] == host;
    } else {
      assert e == ip + host + path;
      assert e[|plain|] == ':';
      assert sp[|plain|] == 's';
      assert !StartsWith(e, sp) by {
        if |sp| <= |e| { assert e[..|sp|][|plain|] != sp[|plain|]; }
      }
      assert e[..|ip|] == ip;
      assert e[|e| - |path|..] == path;
      assert e[|ip|..|e| - |path|] == host;
    }
  }

  /** The default Wisp endpoint uses `wss` exactly on an `https:` page, and names the page's
      host under `/wisp/`. */
  lemma DefaultWispShape(protocol: string, host: string)
    ensures ParseEndpoint(DefaultWisp(protocol, host), "ws", WispPath) == Some((protocol == "https:", host))
    ensures StartsWith(DefaultWisp(protocol, host), "wss://") <==> protocol == "https:"
  {
    EndpointRoundTrip(protocol == "https:", "ws", host, WispPath);
    assert "ws" + "s://" == "wss://";
  }

  /** The default Bare endpoint uses `https` exactly on an `https:` page, and names the page's
      host under `/bare/`. */
  lemma DefaultBareShape(protocol: string, host: string)
    ensures ParseEndpoint(DefaultBare(protocol, host), "http", BarePath) == Some((protocol == "https:", host))
    ensures StartsWith(DefaultBare(protocol, host), "https://") <==> protocol == "https:"
  {
    EndpointRoundTrip(protocol == "https:", "http", host, BarePath);
    assert "http" + "s://" == "https://";
  }

  /** `_CONFIG?.wispurl || <default>`: a truthy override wins, otherwise the default. */
  function InitialWispUrl(cfg: Option<ConfigOverrides>, loc: PageLocation): (r: string)
    ensures r != ""
    ensures cfg.Some? && Truthy(cfg.value.wispurl) ==> r == cfg.value.wispurl.value
    ensures !(cfg.Some? && Truthy(cfg.value.wispurl)) ==> r == DefaultWisp(loc.protocol, loc.host)
  {
    if cfg.Some? && Truthy(cfg.value.wispurl) then cfg.value.wispurl.value
    else DefaultWisp(loc.protocol, loc.host)
  }

  /** `_CONFIG?.bareurl || <default>`: a truthy override wins, otherwise the default. */
  function InitialBareUrl(cfg: Option<ConfigOverrides>, loc: PageLocation): (r: string)
    ensures r != ""
    ensures cfg.Some? && Truthy(cfg.value.bareurl) ==> r == cfg.value.bareurl.value
    ensures !(cfg.Some? && Truthy(cfg.value.bareurl)) ==> r == DefaultBare(loc.protocol, loc.host)
  {
    if cfg.Some? && Truthy(cfg.value.bareurl) then cfg.value.bareurl.value
    else DefaultBare(loc.protocol, loc.host)
  }

  /** The settings record. Its fields are reassigned in place by the address bar and by the
      two endpoint inputs of the configuration panel. */
  class Store {
    var url: string
    var wispurl: string
    var bareurl: string
    var proxy: string

    /** The record with its built-in defaults. */
    constructor (cfg: Option<ConfigOverrides>, loc: PageLocation)
      ensures url == InitialAddress && proxy == ""
      ensures wispurl == InitialWispUrl(cfg, loc) && bareurl == InitialBareUrl(cfg, loc)
    {
      url := InitialAddress;
      wispurl := InitialWispUrl(cfg, loc);
      bareurl := InitialBareUrl(cfg, loc);
      proxy := "";
    }
  }
}
