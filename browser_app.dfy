/** The browser view (`BrowserApp` in static/ui.js): the address bar, the proxied frame's
    `urlchange` and `load` events, the submit path, the navigation buttons, and the start-up
    code that builds the settings and installs the first transport. */
module BrowserApp {
  import opened Options
  import opened JsString
  import opened Settings
  import opened Transport
  import opened ConfigPanel

  const HttpsPrefix: string := "https://"
  /** `"/scramjet".length` is added to the page's own `location.href.length` when the frame's
      location is cut. */
  const MountPath: string := "/scramjet"
  const BlankPage: string := "about:blank"
  const EnterKey: int := 13

  /** What `handleSubmit` navigates to: the trimmed address, with `https://` put in front
      unless it already starts with `http`. */
  function Normalize(address: string): (r: string)
    ensures StartsWith(r, "http")
    ensures StartsWith(Trim(address), "http") ==> r == Trim(address)
    ensures !StartsWith(Trim(address), "http") ==> r == HttpsPrefix + Trim(address)
  {
    var t := Trim(address);
    if StartsWith(t, "http") then t else HttpsPrefix + t
  }

  /** A normalised address has no whitespace at either end. */
  lemma NormalizeHasNoEdgeWhitespace(address: string)
    ensures NoEdgeWhitespace(Normalize(address))
  {
  }

  /** Submitting a second time navigates to the very address the first submit produced. */
  lemma NormalizeIdempotent(address: string)
    ensures Normalize(Normalize(address)) == Normalize(address)
  {
    var r := Normalize(address);
    NormalizeHasNoEdgeWhitespace(address);
    TrimUnique([], r, []);
    assert [] + r + [] == r;
  }

  /** A whitespace-only address is truthy, so Enter still submits it, and it becomes
      `https://`. */
  lemma NormalizeBlank(address: string)
    requires AllWhitespace(address)
    ensures Normalize(address) == HttpsPrefix
  {
  }

  /** Whatever whitespace the user typed around an address, the frame is sent to the
      address itself, with `https://` in front exactly when it does not start with `http`. */
  lemma NormalizePadded(before: string, address: string, after: string)
    requires AllWhitespace(before) && AllWhitespace(after) && NoEdgeWhitespace(address)
    ensures Normalize(before + address + after) ==
      if StartsWith(address, "http") then address else HttpsPrefix + address
  {
    TrimUnique(before, address, after);
  }

  /** The scheme test is a bare prefix test: a host whose name starts with `http` is kept
      as it is, without a scheme. */
  lemma NormalizeKeepsHttpPrefix()
    ensures Normalize("httpbin.org") == "httpbin.org"
  {
  }

  /** What a frame `load` hands to the codec: `None` when the location is empty or
      `about:blank` (the handler then does nothing); otherwise the frame's location with its
      first `|pageHref| + |"/scramjet"|` characters cut off. */
  function CodecInput(href: string, pageHref: string): (r: Option<string>)
    ensures r.None? <==> href == "" || href == BlankPage
  {
    if href != "" && href != BlankPage then
      Some(Substring(href, |pageHref| + |MountPath|))
    else
      None
  }

  /** The codec sees exactly the part of the frame's location after the page's own address
      and `/scramjet`. */
  lemma {:induction false} LoadDecodesEncodedPart(pageHref: string, encoded: string)
    ensures CodecInput(pageHref + MountPath + encoded, pageHref) == Some(encoded)
  {
    var href := pageHref + MountPath + encoded;
    assert href[|pageHref| + |MountPath|..] == encoded;
    assert href[|pageHref|..|pageHref| + |MountPath|] == MountPath;
    assert href != BlankPage by {
      if |href| == |BlankPage| {
        assert href[|pageHref|..|pageHref| + |MountPath|] != BlankPage[|pageHref|..|pageHref| + |MountPath|] by {
          assert MountPath[0] == '/';
          assert forall i :: 0 <= i < |BlankPage| ==> BlankPage[i] != '/';
          assert href[|pageHref|] == '/';
        }
      }
    }
  }

  /** The prefix is cut by length only and never compared: two locations that differ only
      in their first `|pageHref| + 9` characters hand the codec the same text. */
  lemma LoadIgnoresPrefixText(pageHref: string, p1: string, p2: string, encoded: string)
    requires |p1| == |p2| == |pageHref| + |MountPath|
    requires p1 + encoded != BlankPage && p2 + encoded != BlankPage
    ensures CodecInput(p1 + encoded, pageHref) == CodecInput(p2 + encoded, pageHref)
  {
  }

  /** A location no longer than the page's address plus `/scramjet` reaches the codec as the
      empty string. */
  lemma LoadShortLocation(href: string, pageHref: string)
    requires href != "" && href != BlankPage && |href| <= |pageHref| + |MountPath|
    ensures CodecInput(href, pageHref) == Some("")
  {
  }

  /** A call the view makes on the proxied frame. */
  datatype FrameCall = Go(address: string) | Back | Forward | Reload

  /** The proxied frame, seen through the calls made on it. */
  class Frame {
    var calls: seq<FrameCall>

    constructor ()
      ensures calls == []
    {
      calls := [];
    }

    method Go(address: string)
      modifies this
      ensures calls == old(calls) + [FrameCall.Go(address)]
    {
      calls := calls + [FrameCall.Go(address)];
    }

    method Back()
      modifies this
      ensures calls == old(calls) + [FrameCall.Back]
    {
      calls := calls + [FrameCall.Back];
    }

    method Forward()
      modifies this
      ensures calls == old(calls) + [FrameCall.Forward]
    {
      calls := calls + [FrameCall.Forward];
    }

    method Reload()
      modifies this
      ensures calls == old(calls) + [FrameCall.Reload]
    {
      calls := calls + [FrameCall.Reload];
    }
  }

  /** The browser view. `url` is the address bar; `windows` records the windows opened by
      the Open button. The codec's `decode` and `encodeUrl` are given, not modelled; `None`
      from either stands for the call throwing, which ends the handler at that point. */
  class App {
    var url: string
    var windows: seq<string>
    const store: Store
    const frame: Frame
    const decode: string -> Option<string>
    const encodeUrl: string -> Option<string>

    constructor (store: Store, decode: string -> Option<string>, encodeUrl: string -> Option<string>)
      ensures url == "" && windows == []
      ensures this.store == store && this.decode == decode && this.encodeUrl == encodeUrl
      ensures fresh(frame) && frame.calls == []
    {
      url := "";
      windows := [];
      this.store := store;
      this.decode := decode;
      this.encodeUrl := encodeUrl;
      frame := new Frame();
    }

    /** `input` on the address bar: the bar takes the typed text. */
    method OnInput(value: string)
      modifies this
      ensures url == value && windows == old(windows)
      ensures unchanged(store) && unchanged(frame)
    {
      url := value;
    }

    /** `handleSubmit`: trims the address, adds `https://` if it does not start with
        `http`, and sends the frame there. */
    method HandleSubmit()
      modifies this, frame
      ensures url == Normalize(old(url)) && windows == old(windows)
      ensures frame.calls == old(frame.calls) + [FrameCall.Go(url)]
      ensures unchanged(store)
    {
      url := Trim(url);
      if !StartsWith(url, "http") {
        url := HttpsPrefix + url;
      }
      frame.Go(url);
    }

    /** `keyup` on the address bar: on Enter, the untrimmed address is saved in the
        settings, and submitted when it is not empty. */
    method OnKeyUp(keyCode: int)
      modifies this, frame, store
      ensures keyCode != EnterKey ==> url == old(url) && unchanged(store) && unchanged(frame)
      ensures keyCode == EnterKey ==> store.url == old(url)
      ensures keyCode == EnterKey && !Truthy(Some(old(url))) ==> url == old(url) && unchanged(frame)
      ensures keyCode == EnterKey && Truthy(Some(old(url))) ==>
        url == Normalize(old(url)) && frame.calls == old(frame.calls) + [FrameCall.Go(url)]
      ensures store.wispurl == old(store.wispurl) && store.bareurl == old(store.bareurl)
      ensures store.proxy == old(store.proxy)
      ensures windows == old(windows)
    {
      if keyCode == EnterKey {
        store.url := url;
        if Truthy(Some(store.url)) {
          HandleSubmit();
        }
      }
    }

    /** The frame's `urlchange` event: a non-empty URL replaces the address bar, whatever
        is being typed there; a missing or empty one changes nothing. */
    method OnUrlChange(eventUrl: Option<string>)
      modifies this
      ensures url == if Truthy(eventUrl) then eventUrl.value else old(url)
      ensures windows == old(windows)
      ensures unchanged(store) && unchanged(frame)
    {
      if Truthy(eventUrl) {
        url := eventUrl.value;
      }
    }

    /** The frame element's `load` event, given the frame's location and the page's own
        `location.href`: the decoded address replaces the address bar, unless the location
        is ignored or the codec throws, in which case the address bar keeps its value. */
    method OnLoad(href: string, pageHref: string)
      modifies this
      ensures url == match CodecInput(href, pageHref)
                     case None => old(url)
                     case Some(suffix) =>
                       match decode(suffix)
                       case Some(address) => address
                       case None => old(url)
      ensures windows == old(windows)
      ensures unchanged(store) && unchanged(frame)
    {
      if href != "" && href != BlankPage {
        var decoded := decode(Substring(href, |pageHref| + |MountPath|));
        if decoded.Some? {
          url := decoded.value;
        }
      }
    }

    method OnBack()
      modifies frame
      ensures frame.calls == old(frame.calls) + [FrameCall.Back]
      ensures unchanged(this) && unchanged(store)
    {
      frame.Back();
    }

    method OnForward()
      modifies frame
      ensures frame.calls == old(frame.calls) + [FrameCall.Forward]
      ensures unchanged(this) && unchanged(store)
    {
      frame.Forward();
    }

    method OnReload()
      modifies frame
      ensures frame.calls == old(frame.calls) + [FrameCall.Reload]
      ensures unchanged(this) && unchanged(store)
    {
      frame.Reload();
    }

    /** The Open button: opens the engine's encoding of the current address in a new
        window, or nothing when the encoder throws; the address bar, the settings and the
        frame are left as they were. */
    method OnOpen()
      modifies this
      ensures windows == match encodeUrl(url)
                         case Some(encoded) => old(windows) + [encoded]
                         case None => old(windows)
      ensures url == old(url)
      ensures unchanged(store) && unchanged(frame)
    {
      var encoded := encodeUrl(url);
      if encoded.Some? {
        windows := windows + [encoded.value];
      }
    }

    /** Submitting twice in a row sends the frame to the same address twice and leaves the
        address bar as the first submit set it. */
    method SubmitTwice()
      modifies this, frame
      ensures url == Normalize(old(url))
      ensures frame.calls == old(frame.calls) + [FrameCall.Go(url), FrameCall.Go(url)]
      ensures windows == old(windows) && unchanged(store)
    {
      HandleSubmit();
      NormalizeIdempotent(old(url));
      HandleSubmit();
    }
  }

  /** Start-up on a first visit: the settings with their defaults, a fresh connection with
      Epoxy installed against the settings' Wisp URL, the browser view, and the configuration
      dialog it builds on the same settings and connection. */
  method Start(cfg: Option<ConfigOverrides>, loc: PageLocation,
               decode: string -> Option<string>, encodeUrl: string -> Option<string>)
    returns (store: Store, connection: Connection, app: App, panel: Panel)
    ensures fresh(store) && fresh(connection) && fresh(app) && fresh(app.frame) && fresh(panel)
    ensures store.url == InitialAddress && store.proxy == ""
    ensures store.wispurl == InitialWispUrl(cfg, loc) && store.bareurl == InitialBareUrl(cfg, loc)
    ensures connection.transport == Some(BindingFor(Epoxy, store.wispurl, store.bareurl))
    ensures app.store == store && app.decode == decode && app.encodeUrl == encodeUrl
    ensures app.url == "" && app.windows == [] && app.frame.calls == []
    ensures panel.store == store && panel.connection == connection
  {
    store := new Store(cfg, loc);
    connection := new Connection();
    connection.SetTransport(EpoxyModule, [WispOptions(store.wispurl)]);
    app := new App(store, decode, encodeUrl);
    panel := new Panel(store, connection);
  }
}
