/** The shared BareMux connection and the transport bindings static/ui.js installs on it. */
module Transport {
  import opened Options

  datatype TransportKind = Bare | Libcurl | Epoxy

  /** One constructor argument of a transport module: a bare server URL, or the
      `{ wisp: url }` options object. */
  datatype TransportArg = Url(url: string) | WispOptions(wisp: string)

  /** What `setTransport(modulePath, args)` installs. */
  datatype Binding = Binding(modulePath: string, args: seq<TransportArg>)

  const BareModule: string := "/baremod/index.mjs"
  const LibcurlModule: string := "/libcurl/index.mjs"
  const EpoxyModule: string := "/epoxy/index.mjs"

  /** The binding each "Use ..." button (and the start-up call) installs, given the endpoints
      the settings hold at that moment. */
  function BindingFor(kind: TransportKind, wispurl: string, bareurl: string): (b: Binding)
    ensures |b.args| == 1
    ensures b.args[0].Url? <==> kind == Bare
  {
    match kind
    case Bare => Binding(BareModule, [Url(bareurl)])
    case Libcurl => Binding(LibcurlModule, [WispOptions(wispurl)])
    case Epoxy => Binding(EpoxyModule, [WispOptions(wispurl)])
  }

  /** Which transport a binding is, read off its module path. */
  function KindOf(b: Binding): Option<TransportKind> {
    if b.modulePath == BareModule then Some(Bare)
    else if b.modulePath == LibcurlModule then Some(Libcurl)
    else if b.modulePath == EpoxyModule then Some(Epoxy)
    else None
  }

  /** The endpoint a binding connects to: the bare URL, or the `wisp` option. */
  function EndpointOf(b: Binding): Option<string> {
    if |b.args| != 1 then None
    else match b.args[0]
      case Url(u) => Some(u)
      case WispOptions(w) => Some(w)
  }

  /** A binding built for a kind reads back as that kind, and its endpoint is the Bare URL
      for Bare and the Wisp URL for libcurl and Epoxy. */
  lemma BindingRoundTrip(kind: TransportKind, wispurl: string, bareurl: string)
    ensures KindOf(BindingFor(kind, wispurl, bareurl)) == Some(kind)
    ensures EndpointOf(BindingFor(kind, wispurl, bareurl)) == Some(if kind == Bare then bareurl else wispurl)
  {
  }

  /** The binding only depends on the endpoint its kind uses: Bare ignores the Wisp URL, and
      libcurl and Epoxy ignore the Bare URL. */
  lemma BindingUsesOneEndpoint(kind: TransportKind, w1: string, b1: string, w2: string, b2: string)
    ensures (if kind == Bare then b1 == b2 else w1 == w2) <==>
            BindingFor(kind, w1, b1) == BindingFor(kind, w2, b2)
  {
  }

  /** The BareMux connection: it holds at most one active binding, and `setTransport`
      replaces it. */
  class Connection {
    var transport: Option<Binding>

    /** A connection that has no transport yet. */
    constructor ()
      ensures transport == None
    {
      transport := None;
    }

    /** `connection.setTransport(modulePath, args)`: the new binding replaces the old one
      wholesale; nothing of the old one is kept. */
    method SetTransport(modulePath: string, args: seq<TransportArg>)
      modifies this
      ensures transport == Some(Binding(modulePath, args))
    {
      transport := Some(Binding(modulePath, args));
    }
  }
}
