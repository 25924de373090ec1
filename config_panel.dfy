/** The configuration dialog (`Config` in static/ui.js): three buttons that switch the
    connection's transport and two inputs bound to the settings' endpoints. */
module ConfigPanel {
  import opened Options
  import opened Settings
  import opened Transport

  class Panel {
    const store: Store
    const connection: Connection

    constructor (store: Store, connection: Connection)
      ensures this.store == store && this.connection == connection
    {
      this.store := store;
      this.connection := connection;
    }

    /** "Use Bare Server": installs the Bare module with the Bare URL the settings hold now. */
    method UseBare()
      modifies connection
      ensures connection.transport == Some(BindingFor(Bare, store.wispurl, store.bareurl))
      ensures unchanged(store)
    {
      connection.SetTransport(BareModule, [Url(store.bareurl)]);
    }

    /** "Use libcurl.js": installs the libcurl module with the Wisp URL the settings hold now. */
    method UseLibcurl()
      modifies connection
      ensures connection.transport == Some(BindingFor(Libcurl, store.wispurl, store.bareurl))
      ensures unchanged(store)
    {
      connection.SetTransport(LibcurlModule, [WispOptions(store.wispurl)]);
    }

    /** "Use Epoxy": installs the Epoxy module with the Wisp URL the settings hold now. */
    method UseEpoxy()
      modifies connection
      ensures connection.transport == Some(BindingFor(Epoxy, store.wispurl, store.bareurl))
      ensures unchanged(store)
    {
      connection.SetTransport(EpoxyModule, [WispOptions(store.wispurl)]);
    }

    /** Typing in the "Wisp URL" input writes the settings' Wisp endpoint and nothing else. */
    method EditWispUrl(value: string)
      modifies store
      ensures store.wispurl == value
      ensures store.url == old(store.url) && store.bareurl == old(store.bareurl)
      ensures store.proxy == old(store.proxy)
      ensures unchanged(connection)
    {
      store.wispurl := value;
    }

    /** Typing in the "Bare URL" input writes the settings' Bare endpoint and nothing else. */
    method EditBareUrl(value: string)
      modifies store
      ensures store.bareurl == value
      ensures store.url == old(store.url) && store.wispurl == old(store.wispurl)
      ensures store.proxy == old(store.proxy)
      ensures unchanged(connection)
    {
      store.bareurl := value;
    }
  }

  /** Endpoints are read when a button is clicked, not when the panel was built: an edit made
      just before a switch is the one installed, and a second switch leaves no trace of the
      first. */
  method EditThenSwitch(p: Panel, wisp: string, bare: string)
    modifies p.store, p.connection
    ensures p.connection.transport == Some(Binding(LibcurlModule, [WispOptions(wisp)]))
  {
    p.UseBare();
    p.EditWispUrl(wisp);
    p.EditBareUrl(bare);
    assert p.connection.transport == Some(Binding(BareModule, [Url(old(p.store.bareurl))]));
    p.UseLibcurl();
  }
}
