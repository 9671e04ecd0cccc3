/**
 Hot reload (internal/proxy/proxy.go): the configuration file is read by a poller and on SIGHUP, and
 what it says replaces the live routes and DNS servers, or is found to be what is live already.

 `Proxy` is the object, proved against the function `Reloaded`. The state machine after it splits a
 reload into its steps, which interleave with writes to the file, with the other reloads waiting for
 the lock, and with the ticks of the poller. A file is a sequence of versions, each with its metadata
 and content; reading it gives the content of the version that is current at that moment.
 */
module Reloads {
  import opened GoText
  import opened HostPort
  import opened Targets
  import opened Routes
  import opened Fingerprints
  import opened Tables
  import opened Configs
  import opened Caches
  import DnsFlight
  import CertFlight

  /** What config.Load finds: nothing it can read and decode, or servers and nameservers. */
  datatype Document = Unreadable(reason: string) | Decoded(servers: seq<ServerConfig>, nameservers: seq<string>)

  datatype ReloadError =
    | LoadFailed(reason: string)
    | BadConfig(config: ConfigError)
    | BadNameserver(nameserver: NameserverError)

  datatype Loaded = Loaded(index: Index, nameservers: seq<string>)

  /** The parsers of the libraries: net/url's, and whether net.ParseIP accepts a text. */
  datatype Parsers = Parsers(url: Parser, isIP: string -> bool)

  function Load(document: Document, parsers: Parsers): Result<Loaded, ReloadError> {
    match document
    case Unreadable(reason) => Err(LoadFailed(reason))
    case Decoded(servers, nameservers) =>
      match IndexOfServers(servers, parsers.url)
      case Err(e) => Err(BadConfig(e))
      case Ok(index) => Ok(Loaded(index, nameservers))
  }

  ghost predicate Changes(live: Option<Index>, loaded: Index) {
    live.None? || Fingerprint(live.value) != Fingerprint(loaded)
  }

  // ---------------------------------------------------------------------------------------------
  // The object
  // ---------------------------------------------------------------------------------------------

  /** What a reload reads and writes: the table, the resolver and the certificate authority. */
  datatype Whole = Whole(index: Option<Index>, resolver: DnsFlight.Shared, authority: Option<CertFlight.Shared>)

  function WithEmptyCaches(whole: Whole): Whole {
    var resolver := whole.resolver.(cache := AfterClear(whole.resolver.cache));
    var authority := match whole.authority
      case None => None
      case Some(sh) => Some(sh.(cache := AfterClear(sh.cache)));
    whole.(resolver := resolver, authority := authority)
  }

  ghost function Reloaded(whole: Whole, document: Document, parsers: Parsers): (Whole, Option<ReloadError>) {
    match Load(document, parsers)
    case Err(e) => (whole, Some(e))
    case Ok(loaded) =>
      var (resolver, updated) := DnsFlight.Updated(whole.resolver, loaded.nameservers, parsers.isIP);
      match updated
      case Err(e) => (whole, Some(BadNameserver(e)))
      case Ok(changed) =>
        if !Changes(whole.index, loaded.index) && !changed then (whole, None)
        else
          var index := if Changes(whole.index, loaded.index) then Some(loaded.index) else whole.index;
          (WithEmptyCaches(whole.(index := index, resolver := resolver)), None)
  }

  class Proxy {
    var table: Table?
    const nameservers: DnsFlight.Resolver
    const authority: CertFlight.Authority?

    /** The resolver and the authority have caches of their own. */
    ghost predicate Valid() {
      authority != null ==> (nameservers.cache as object) != authority.cache
    }

    ghost function Value(): Whole
      reads this, table, nameservers, nameservers.cache, authority, if authority == null then {} else {authority.cache}
    {
      Whole(if table == null then None else Some(table.byDomain), nameservers.Value(),
            if authority == null then None else Some(authority.Value()))
    }

    constructor (nameservers: DnsFlight.Resolver, authority: CertFlight.Authority?)
      requires authority != null ==> (nameservers.cache as object) != authority.cache
      ensures Valid()
      ensures this.nameservers == nameservers && this.authority == authority
      ensures table == null
    {
      this.nameservers := nameservers;
      this.authority := authority;
      table := null;
    }

    method ResetCaches()
      requires Valid()
      modifies nameservers.cache, if authority == null then {} else {authority.cache}
      ensures Value() == WithEmptyCaches(old(Value()))
    {
      nameservers.ClearCache();
      if authority != null {
        authority.Clear();
      }
    }

    method RoutesChanged(loaded: Table) returns (changed: bool)
      ensures changed == Changes(Value().index, loaded.byDomain)
    {
      if table == null {
        return true;
      }
      var live := table.Fingerprint();
      var text := loaded.Fingerprint();
      return live != text;
    }

    /** `document` is what the file holds when the lock has been taken and the file is read. */
    method Reload(document: Document, parsers: Parsers) returns (error: Option<ReloadError>)
      requires Valid()
      modifies this, nameservers, nameservers.cache, if authority == null then {} else {authority.cache}
      ensures (Value(), error) == Reloaded(old(Value()), document, parsers)
    {
      hide Load, Changes, DnsFlight.Updated;
      var loaded, failure := LoadDocument(document, parsers);
      if failure.Some? {
        return failure;
      }
      var routesChanged := RoutesChanged(loaded);
      var updated := nameservers.Update(document.nameservers, parsers.isIP);
      if updated.Err? {
        RejectedUpdate(old(Value().resolver), document.nameservers, parsers);
        return Some(BadNameserver(updated.error));
      }
      if !routesChanged && !updated.value {
        RejectedUpdate(old(Value().resolver), document.nameservers, parsers);
        return None;
      }
      if routesChanged {
        table := loaded;
      }
      ResetCaches();
      return None;
    }
  }

  /** An update that fails or finds no change leaves the resolver as it is. */
  lemma RejectedUpdate(resolver: DnsFlight.Shared, nameservers: seq<string>, parsers: Parsers)
    ensures var (after, changed) := DnsFlight.Updated(resolver, nameservers, parsers.isIP);
            changed.Err? || !changed.value ==> after == resolver
  {
  }

  // Two configurations with one fingerprint: the reload from one to the other is taken for no change.

  /** A configuration of one server for domain "a" with one route that answers 200. */
  function OneServer(request: map<string, string>, body: string, host: string): seq<ServerConfig> {
    [ServerConfig("a", 0, "", [RouteConfig("/", "", 200, body, host, request, map[])])]
  }

  function StatusRoute(request: map<string, string>, body: string, host: string): Route {
    Route("/", host, request, map[], None, 200, body)
  }

  lemma TrimmedTexts()
    ensures TrimSpace("a") == "a" && ToLower("a") == "a" && TrimSpace("/") == "/" && TrimSpace("") == "" && ToLower("") == ""
  {
    TrimNothing("a");
    TrimNothing("/");
  }

  /** It is accepted, and builds the table of that one route. */
  lemma OneServerBuilds(request: map<string, string>, body: string, host: string, parse: Parser)
    requires TrimSpace(host) == host
    ensures IndexOfServers(OneServer(request, body, host), parse) == Ok(OneRoute("a", StatusRoute(request, body, host)))
  {
    TrimmedTexts();
    hide TrimSpace, ToLower;
    var servers := OneServer(request, body, host);
    var server := servers[0];
    var configured := server.routes;
    var route := StatusRoute(request, body, host);
    assert CheckRoute(configured[0], {}, parse) == Ok(route) by {
      assert HasPrefix("/", "/");
    }
    var none: seq<Route> := [];
    assert configured[..0] == [] && PrefixesOf(none) == {} && none + [route] == [route];
    assert RoutesOf(configured[..0], parse) == Ok(none);
    assert RoutesOf(configured, parse) == Ok([route]);
    var entry := Entry("", 0, [route]);
    assert ServerEntry(server) == Ok(entry.(routes := []));
    var empty: Index := map[];
    assert EntriesOf(empty, "a") + [entry] == [entry];
    assert servers[..0] == [] && IndexOfServers(servers[..0], parse) == Ok(empty);
    assert AddServer(empty, server, parse) == Ok(OneRoute("a", route));
  }

  /** The second of two files with one fingerprint, the first of which has been loaded, is never made live. */
  lemma SameTextIsSkipped(whole: Whole, older: seq<ServerConfig>, newer: seq<ServerConfig>, nameservers: seq<string>,
                          parsers: Parsers)
    requires whole.index.None? && NormalizeNameservers(nameservers, parsers.isIP).Ok?
    requires IndexOfServers(older, parsers.url).Ok? && IndexOfServers(newer, parsers.url).Ok?
    requires Fingerprint(IndexOfServers(older, parsers.url).value) == Fingerprint(IndexOfServers(newer, parsers.url).value)
    ensures var (live, error) := Reloaded(whole, Decoded(older, nameservers), parsers);
            && error == None && live.index == Some(IndexOfServers(older, parsers.url).value)
            && Reloaded(live, Decoded(newer, nameservers), parsers) == (live, None)
  {
    hide Fingerprint, IndexOfServers, NormalizeNameservers;
  }

  /**
   A header name with "=" in it becomes a shorter name with a longer value. Both files are accepted and
   build different tables; after the first has been loaded, a reload of the second succeeds and leaves the
   first live.
   */
  lemma CollidingReloadIsSkipped(whole: Whole, nameservers: seq<string>, parsers: Parsers, body: string, host: string,
                                 name: string, middle: string, value: string)
    requires whole.index.None? && NormalizeNameservers(nameservers, parsers.isIP).Ok? && TrimSpace(host) == host
    ensures var older := OneServer(map[name + "=" + middle := value], body, host);
            var newer := OneServer(map[name := middle + "=" + value], body, host);
            var (live, error) := Reloaded(whole, Decoded(older, nameservers), parsers);
            && error == None && Reloaded(live, Decoded(newer, nameservers), parsers) == (live, None)
            && live.index.Some? && IndexOfServers(newer, parsers.url).Ok?
            && !SameTable(live.index.value, IndexOfServers(newer, parsers.url).value)
  {
    hide Fingerprint, IndexOfServers, NormalizeNameservers, SameTable, Reloaded, TrimSpace;
    var older, newer := map[name + "=" + middle := value], map[name := middle + "=" + value];
    OneServerBuilds(older, body, host, parsers.url);
    OneServerBuilds(newer, body, host, parsers.url);
    EqualsSignInNameCollides("a", StatusRoute(older, body, host), name, middle, value);
    SameTextIsSkipped(whole, OneServer(older, body, host), OneServer(newer, body, host), nameservers, parsers);
  }

  /** The same for a NUL in a body: what follows it becomes the host, and the host a header. */
  lemma NulReloadIsSkipped(whole: Whole, nameservers: seq<string>, parsers: Parsers, body: string, host: string,
                           name: string, value: string)
    requires whole.index.None? && NormalizeNameservers(nameservers, parsers.isIP).Ok?
    requires TrimSpace(host) == host && TrimSpace(name + "=" + value) == name + "=" + value
    ensures var older := OneServer(map[], body + [NUL] + host, name + "=" + value);
            var newer := OneServer(map[name := value], body, host);
            var (live, error) := Reloaded(whole, Decoded(older, nameservers), parsers);
            && error == None && Reloaded(live, Decoded(newer, nameservers), parsers) == (live, None)
            && live.index.Some? && IndexOfServers(newer, parsers.url).Ok?
            && !SameTable(live.index.value, IndexOfServers(newer, parsers.url).value)
  {
    hide Fingerprint, IndexOfServers, NormalizeNameservers, SameTable, Reloaded, TrimSpace;
    OneServerBuilds(map[], body + [NUL] + host, name + "=" + value, parsers.url);
    OneServerBuilds(map[name := value], body, host, parsers.url);
    NulInBodyCollides("a", StatusRoute(map[name := value], body, host), body, host, name, value);
    SameTextIsSkipped(whole, OneServer(map[], body + [NUL] + host, name + "=" + value),
                      OneServer(map[name := value], body, host), nameservers, parsers);
  }

  method LoadDocument(document: Document, parsers: Parsers) returns (table: Table, error: Option<ReloadError>)
    ensures fresh(table)
    ensures error.None? ==> document.Decoded? && Load(document, parsers) == Ok(Loaded(table.byDomain, document.nameservers))
    ensures error.Some? ==> Load(document, parsers) == Err(error.value)
  {
    if document.Unreadable? {
      table := new Table();
      return table, Some(LoadFailed(document.reason));
    }
    var failure;
    table, failure := BuildTable(document.servers, parsers.url);
    return table, if failure.Some? then Some(BadConfig(failure.value)) else None;
  }
}
