# Session coordination of the scramjet browser page

This project models the logic in `static/ui.js` that ties together the settings record, the
BareMux connection and the proxied frame of the scramjet demo page. It covers these parts:

- **Address submission.** On Enter, the raw address is saved in the settings. A non-empty
  address is then trimmed and given `https://` unless it starts with `http`, and the frame goes
  there.
- **Frame-to-address-bar sync.** A `urlchange` event replaces the address with its URL when that
  URL is truthy. A frame `load` cuts `location.href.length + "/scramjet".length` characters off the
  frame's location and decodes the rest. It does nothing when the location is empty or
  `about:blank`.
- **Transport selection.** The connection holds one binding (module path and arguments). Each
  "Use ..." button replaces that binding using the endpoint the settings hold when the button is
  clicked. Start-up installs Epoxy.
- **Default settings.** The Wisp and Bare endpoints are derived from the page's protocol and
  host. A truthy `_CONFIG` value overrides each one.
- **Read-only actions.** Back, forward, reload and Open only call collaborators.

Modules:

- `Options` (`options.dfy`) holds the `Option` datatype.
- `JsString` (`jsstring.dfy`) defines JavaScript `trim`, `startsWith`, one-argument `substring`
  and truthiness. `JsString.Truthy` is a definition with no contract of its own: `undefined` and
  `""` are the only falsy values. The truth tests of static/ui.js:30-31, 194 and 222 all use it.
- `Settings` (`settings.dfy`) holds the default endpoints and the `Store` class.
- `Transport` (`transport.dfy`) holds the bindings and the `Connection` class.
- `ConfigPanel` (`config_panel.dfy`) models the dialog's buttons and its two bound inputs.
- `BrowserApp` (`browser_app.dfy`) holds the address normalisation, the load decoding, the
  `Frame` call log, the `App` class and start-up.

The code's handlers reassign fields in place, so `Store`, `Connection`, `Frame` and `App` are
classes. Their methods state the whole new state. The string transformations are functions, and
lemmas state their properties.

The collaborators are not implemented:

- The codec's `decode` and `encodeUrl` are function-valued constants of `App`. They return an
  `Option`, and `None` stands for the call throwing. A throw ends the handler before it assigns
  anything, so the address bar or the list of opened windows stays as it was.
- `frame.go/back/forward/reload` are recorded as a sequence of `FrameCall`s.
- `window.open` is recorded in `App.windows`.

The code does not have the following behaviour, and the model follows the code:

- A whitespace-only address is truthy. Enter therefore submits it, and the frame is sent to
  `https://` (`BrowserApp.NormalizeBlank`).
- There is no typing buffer. A `urlchange` overwrites the address even while the user is typing.
- There is no `urlchange`-over-`load` precedence and no Idle/Navigating state. Of the events that
  change the address, the last one to arrive wins. A `urlchange` without a truthy URL, a `load` of
  an empty or `about:blank` location, and a `load` whose decoding throws change nothing.
- `load` never checks the prefix it cuts. Any location that is not empty and not `about:blank`
  is decoded (`BrowserApp.LoadIgnoresPrefixText`).
- There is no rollback when a transport switch fails. `setTransport` replaces the binding
  outright.
- The scheme test is only `startsWith("http")`. `httpbin.org` is kept without a scheme
  (`BrowserApp.NormalizeKeepsHttpPrefix`).

## Model

| member | source | states |
|---|---|---|
| `JsString.StartsWith` | static/ui.js:206 | `s.startsWith(p)` holds exactly when `s` is `p` followed by some text |
| `JsString.Trim` | static/ui.js:205 | the result is the slice of the address that follows its leading whitespace; everything before and after it is whitespace; it neither starts nor ends with whitespace |
| `JsString.TrimUnique` | static/ui.js:205 | any text without whitespace at its edges, wrapped in any whitespace, trims back to exactly that text |
| `JsString.TrimIdempotent` | static/ui.js:205 | trimming twice gives the same string as trimming once |
| `JsString.TrimAllWhitespace` | static/ui.js:205 | a whitespace-only string trims to the empty string |
| `JsString.Substring` | static/ui.js:200 | `substring(n)` keeps the characters from index `n` on, and is empty when `n` is past the end |
| `Settings.Endpoint` | static/ui.js:30-31 | an endpoint starts with the plain scheme, ends with the host and path, and is one character longer when secure |
| `Settings.DefaultWisp` | static/ui.js:30 | the default Wisp endpoint is a `ws` URL ending in the page host and `/wisp/` |
| `Settings.DefaultBare` | static/ui.js:31 | the default Bare endpoint is an `http` URL ending in the page host and `/bare/` |
| `Settings.EndpointRoundTrip` | static/ui.js:30-31 | an endpoint `scheme://host/path/` parses back to its security flag and host; it starts with the secure scheme exactly when secure |
| `Settings.DefaultWispShape` | static/ui.js:30 | the default Wisp endpoint starts with `wss://` exactly when the protocol is `https:`, and it carries the page host under `/wisp/` |
| `Settings.DefaultBareShape` | static/ui.js:31 | the default Bare endpoint starts with `https://` exactly when the protocol is `https:`, and it carries the page host under `/bare/` |
| `Settings.InitialWispUrl` | static/ui.js:30 | a truthy `_CONFIG.wispurl` wins; otherwise the default is used; the result is never empty |
| `Settings.InitialBareUrl` | static/ui.js:31 | a truthy `_CONFIG.bareurl` wins; otherwise the default is used; the result is never empty |
| `Settings.Store.constructor` | static/ui.js:27-35 | on a first visit, the settings start at `https://google.com`, the derived endpoints and an empty `proxy` |
| `Transport.BindingFor` | static/ui.js:109-111 | each transport gets one constructor argument; it is a plain URL exactly for Bare and a `{ wisp }` options object for libcurl and Epoxy |
| `Transport.BindingRoundTrip` | static/ui.js:109-111 | each button's binding reads back as its own kind; its endpoint is the Bare URL for Bare and the Wisp URL for libcurl and Epoxy |
| `Transport.BindingUsesOneEndpoint` | static/ui.js:109-111 | two bindings of one kind are equal exactly when the endpoint that kind uses is equal |
| `Transport.Connection.constructor` | static/ui.js:19 | a new connection has no transport |
| `Transport.Connection.SetTransport` | static/ui.js:37 | the active binding becomes exactly the given module path and arguments; nothing of the old one remains |
| `ConfigPanel.Panel.constructor` | static/ui.js:210 | the dialog works on the given settings and connection |
| `ConfigPanel.Panel.UseBare` | static/ui.js:109 | the connection's binding becomes Bare with the Bare URL the settings hold at the click; the settings are unchanged |
| `ConfigPanel.Panel.UseLibcurl` | static/ui.js:110 | the connection's binding becomes libcurl with the current Wisp URL; the settings are unchanged |
| `ConfigPanel.Panel.UseEpoxy` | static/ui.js:111 | the connection's binding becomes Epoxy with the current Wisp URL; the settings are unchanged |
| `ConfigPanel.Panel.EditWispUrl` | static/ui.js:116 | the Wisp input writes only the settings' Wisp URL; the connection is untouched until a button is clicked |
| `ConfigPanel.Panel.EditBareUrl` | static/ui.js:120 | the Bare input writes only the settings' Bare URL; the connection is untouched until a button is clicked |
| `ConfigPanel.EditThenSwitch` | static/ui.js:109-120 | an endpoint edited after one switch is the one the next switch installs, and only the last binding is active |
| `BrowserApp.Normalize` | static/ui.js:204-206 | the submitted address starts with `http`; it is the trimmed address, with `https://` in front exactly when the trimmed text does not start with `http` |
| `BrowserApp.NormalizeHasNoEdgeWhitespace` | static/ui.js:205-206 | a submitted address has no whitespace at either end |
| `BrowserApp.NormalizeIdempotent` | static/ui.js:205-206 | submitting an already submitted address leaves it unchanged |
| `BrowserApp.NormalizeBlank` | static/ui.js:205-206 | a whitespace-only address becomes `https://` |
| `BrowserApp.NormalizePadded` | static/ui.js:205-206 | an address wrapped in any whitespace is sent as the bare address, with `https://` in front exactly when it does not start with `http` |
| `BrowserApp.NormalizeKeepsHttpPrefix` | static/ui.js:206 | `httpbin.org` is kept as it is, because it starts with `http` |
| `BrowserApp.CodecInput` | static/ui.js:197-200 | a `load` hands nothing to the codec exactly when the frame's location is empty or `about:blank` |
| `BrowserApp.LoadDecodesEncodedPart` | static/ui.js:200 | for a location `pageHref + "/scramjet" + e`, the codec receives exactly `e` |
| `BrowserApp.LoadIgnoresPrefixText` | static/ui.js:200 | two locations that differ only in the cut prefix hand the codec the same text |
| `BrowserApp.LoadShortLocation` | static/ui.js:200 | a location no longer than the cut prefix hands the codec the empty string |
| `BrowserApp.Frame.constructor` | static/ui.js:191 | a new frame has had no calls made on it |
| `BrowserApp.Frame.Go` | static/ui.js:207 | the frame records one navigation to the given address |
| `BrowserApp.Frame.Back` | static/ui.js:218 | the frame records one history-back call |
| `BrowserApp.Frame.Forward` | static/ui.js:219 | the frame records one history-forward call |
| `BrowserApp.Frame.Reload` | static/ui.js:220 | the frame records one reload call |
| `BrowserApp.App.constructor` | static/ui.js:191 | the view starts with an empty address, a fresh frame with no calls and no opened windows |
| `BrowserApp.App.OnInput` | static/ui.js:222 | the address becomes exactly the typed value; the settings and the frame are unchanged |
| `BrowserApp.App.HandleSubmit` | static/ui.js:204-208 | the address becomes its normalised form, and the frame is sent to that same string |
| `BrowserApp.App.OnKeyUp` | static/ui.js:222 | other keys change nothing; Enter stores the raw address in the settings; a falsy (empty) address then stops; a truthy one is submitted; the endpoints are never touched |
| `BrowserApp.App.OnUrlChange` | static/ui.js:193-195 | a truthy event URL becomes the address; a missing or empty one changes nothing |
| `BrowserApp.App.OnLoad` | static/ui.js:197-202 | the address becomes the codec's decoding of `CodecInput`; it stays when there is no codec input or the codec throws |
| `BrowserApp.App.OnBack` | static/ui.js:218 | only a history-back call is recorded; the address and the settings are unchanged |
| `BrowserApp.App.OnForward` | static/ui.js:219 | only a history-forward call is recorded; the address and the settings are unchanged |
| `BrowserApp.App.OnReload` | static/ui.js:220 | only a reload call is recorded; the address and the settings are unchanged |
| `BrowserApp.App.OnOpen` | static/ui.js:224 | the encoded current address is opened, and nothing is opened when the encoder throws; the address, the settings and the frame are unchanged |
| `BrowserApp.App.SubmitTwice` | static/ui.js:204-208 | two submits navigate twice to the same address, and the address keeps the value the first one gave it; no window opens and the settings are unchanged |
| `BrowserApp.Start` | static/ui.js:27-37 | on a first visit, start-up builds the default settings and installs Epoxy with the initial Wisp URL as the only binding; the view holds the given codec and shares the settings with the dialog, which also holds that connection |

## Left out

- Scramjet controller setup and service-worker registration (static/ui.js:1-17) are runtime plumbing outside the coordinator.
- BareMux internals are not modelled. `Connection` only records the active binding.
- The codec's `decode`/`encodeUrl` are given functions, and a throw is modelled as `None`. The round trip `decode(encodeUrl(x)) == x` belongs to the proxy engine, so it is not stated.
- `frame.go`, `back`, `forward` and `reload` are recorded as calls, not executed. `window.open` is recorded the same way.
- The frame's own history and the page it loads are not modelled.
- `$store` persistence to localStorage and its autosave are a storage backend, so they are not modelled. `Store` holds the values only.
- `BrowserApp.Start` models a first visit only. When a saved `settings` record exists, `$store` starts from the saved values, and line 37 installs Epoxy with the saved Wisp URL. That case is not modelled, because the storage backend is not.
- `BrowserApp.Start`: `cfg == None` stands for a declared `_CONFIG` whose value is `undefined`. An undeclared `_CONFIG` makes lines 30-31 throw a ReferenceError, and the page never starts. That case is not modelled.
- The `html`/`css`/`use` rendering and two-way binding are the view layer, so they are not modelled. The bound inputs appear only as the methods that write the bound fields (`OnInput`, `EditWispUrl`, `EditBareUrl`).
- The Config button's `showModal`, the modal's close fade with `setTimeout`, all CSS strings and the version/GitHub link are cosmetic.
- The console logo (`fetch`, the `b64` helper, `btoa`) is decoration and I/O.
- `BrowserApp.App.constructor`: the address starts as `undefined` in the code and is modelled as the empty string. The Enter guard treats both alike. Before any input, Open and `store.url` would see `undefined` rather than `""`.
- `JsString.Trim`: JavaScript strings are sequences of UTF-16 code units, but the model uses Unicode scalar values. Lengths, and so the characters cut by `substring`, differ only for characters outside the Basic Multilingual Plane.
- Asynchronous event ordering is not modelled. Each handler is one atomic step, as in the single-threaded event loop.
