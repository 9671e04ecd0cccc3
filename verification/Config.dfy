/**
 From the decoded configuration to the route table (internal/config/config.go): what is accepted, what
 every accepted table satisfies, and that its index by domain answers like a scan of the servers in
 file order. `parse` is net/url's parser.
 */
module Configs {
  import opened GoText
  import opened Prefixes
  import opened Targets
  import opened Routes
  import opened Fingerprints
  import opened Tables

  datatype RouteConfig = RouteConfig(
    prefix: string, upstream: string, status: int, body: string, host: string,
    request: map<string, string>, response: map<string, string>)

  datatype ServerConfig = ServerConfig(domain: string, port: int, protocol: string, routes: seq<RouteConfig>)

  datatype ConfigError =
    | DomainRequired
    | UnsupportedProtocol(protocol: string)
    | ServerPortOutOfRange(port: int)
    | PrefixRequired
    | PrefixWithoutSlash(prefix: string)
    | StatusAndUpstream
    | StatusOrUpstreamRequired
    | StatusOutOfRange(status: int)
    | BodyNotAllowed(status: int)
    | DuplicatePrefix(prefix: string)
    | BadTarget(target: TargetError)
    | DuplicateServer(duplicate: DuplicateEntry)

  type Parser = string -> Option<Parsed>

  // ---------------------------------------------------------------------------------------------
  // Routes of one server
  // ---------------------------------------------------------------------------------------------

  /** The checks on one route, in their order; `seen` are the prefixes before it. */
  function CheckRoute(configured: RouteConfig, seen: set<string>, parse: Parser): Result<Route, ConfigError> {
    var prefix, upstream, status := TrimSpace(configured.prefix), TrimSpace(configured.upstream), configured.status;
    if prefix == "" then Err(PrefixRequired)
    else if !HasPrefix(prefix, "/") then Err(PrefixWithoutSlash(prefix))
    else if status != 0 && upstream != "" then Err(StatusAndUpstream)
    else if status == 0 && upstream == "" then Err(StatusOrUpstreamRequired)
    else if status != 0 && (status < 200 || status > 599) then Err(StatusOutOfRange(status))
    else if configured.body != "" && (status == 204 || status == 304) then Err(BodyNotAllowed(status))
    else if prefix in seen then Err(DuplicatePrefix(prefix))
    else
      var route := Route(prefix, TrimSpace(configured.host), configured.request, configured.response, None, 0, "");
      if status != 0 then Ok(route.(status := status, body := configured.body))
      else
        match ParseTarget(upstream, parse)
        case Err(e) => Err(BadTarget(e))
        case Ok(target) => Ok(route.(target := Some(target)))
  }

  function PrefixesOf(routes: seq<Route>): set<string> {
    set i | 0 <= i < |routes| :: routes[i].prefix
  }

  function RoutesOf(configured: seq<RouteConfig>, parse: Parser): Result<seq<Route>, ConfigError> {
    if |configured| == 0 then Ok([])
    else
      match RoutesOf(configured[..|configured| - 1], parse)
      case Err(e) => Err(e)
      case Ok(routes) =>
        match CheckRoute(configured[|configured| - 1], PrefixesOf(routes), parse)
        case Err(e) => Err(e)
        case Ok(route) => Ok(routes + [route])
  }

  lemma RoutesStep(configured: seq<RouteConfig>, i: nat, routes: seq<Route>, parse: Parser)
    requires i < |configured| && RoutesOf(configured[..i], parse) == Ok(routes)
    ensures RoutesOf(configured[..i + 1], parse) ==
            match CheckRoute(configured[i], PrefixesOf(routes), parse)
            case Err(e) => Err(e)
            case Ok(route) => Ok(routes + [route])
  {
    assert configured[..i + 1][..i] == configured[..i];
  }

  lemma MorePrefixes(routes: seq<Route>, route: Route)
    ensures PrefixesOf(routes + [route]) == PrefixesOf(routes) + {route.prefix}
  {
    var more := routes + [route];
    forall p | p in PrefixesOf(routes) + {route.prefix}
      ensures p in PrefixesOf(more)
    {
      if p == route.prefix {
        assert more[|routes|].prefix == p;
      } else {
        var i :| 0 <= i < |routes| && routes[i].prefix == p;
        assert more[i].prefix == p;
      }
    }
  }

  method BuildRoutes(server: ServerConfig, parse: Parser) returns (result: Result<seq<Route>, ConfigError>)
    ensures result == RoutesOf(server.routes, parse)
  {
    var seen: set<string> := {};
    var entries: seq<Route> := [];
    var configured := server.routes;
    for i := 0 to |configured|
      invariant RoutesOf(configured[..i], parse) == Ok(entries)
      invariant seen == PrefixesOf(entries)
    {
      RoutesStep(configured, i, entries, parse);
      var checked := CheckRoute(configured[i], seen, parse);
      if checked.Err? {
        RoutesFailEarly(configured, i + 1, parse);
        return Err(checked.error);
      }
      MorePrefixes(entries, checked.value);
      seen := seen + {checked.value.prefix};
      entries := entries + [checked.value];
    }
    assert configured[..|configured|] == configured;
    return Ok(entries);
  }

  /** An error in the first routes is the error of all. */
  lemma {:induction false} RoutesFailEarly(configured: seq<RouteConfig>, n: nat, parse: Parser)
    requires n <= |configured| && RoutesOf(configured[..n], parse).Err?
    ensures RoutesOf(configured, parse) == Err(RoutesOf(configured[..n], parse).error)
  {
    if n < |configured| {
      var before := configured[..|configured| - 1];
      assert before[..n] == configured[..n];
      RoutesFailEarly(before, n, parse);
    } else {
      assert configured[..n] == configured;
    }
  }

  // ---------------------------------------------------------------------------------------------
  // Servers
  // ---------------------------------------------------------------------------------------------

  function ServerName(server: ServerConfig): string {
    ToLower(TrimSpace(server.domain))
  }

  function ServerProtocol(server: ServerConfig): string {
    ToLower(TrimSpace(server.protocol))
  }

  function ServerEntry(server: ServerConfig): Result<Entry, ConfigError> {
    if !IsProtocol(ServerProtocol(server)) then Err(UnsupportedProtocol(server.protocol))
    else if server.port != 0 && (server.port < 1 || server.port > 65535) then Err(ServerPortOutOfRange(server.port))
    else Ok(Entry(ServerProtocol(server), server.port, []))
  }

  /** The checks on one server, in their order, against the table built before it. */
  function AddServer(index: Index, server: ServerConfig, parse: Parser): Result<Index, ConfigError> {
    var name := ServerName(server);
    if name == "" then Err(DomainRequired)
    else
      match ServerEntry(server) case Err(e) => Err(e) case Ok(entry) =>
      match RoutesOf(server.routes, parse) case Err(e) => Err(e) case Ok(routes) =>
        if Occupied(EntriesOf(index, name), entry.protocol, entry.port)
        then Err(DuplicateServer(DuplicateEntry(name, entry.protocol, entry.port)))
        else Ok(index[name := EntriesOf(index, name) + [entry.(routes := routes)]])
  }

  function IndexOfServers(servers: seq<ServerConfig>, parse: Parser): Result<Index, ConfigError> {
    if |servers| == 0 then Ok(map[])
    else
      match IndexOfServers(servers[..|servers| - 1], parse)
      case Err(e) => Err(e)
      case Ok(index) => AddServer(index, servers[|servers| - 1], parse)
  }

  lemma {:induction false} ServersFailEarly(servers: seq<ServerConfig>, n: nat, parse: Parser)
    requires n <= |servers| && IndexOfServers(servers[..n], parse).Err?
    ensures IndexOfServers(servers, parse) == Err(IndexOfServers(servers[..n], parse).error)
  {
    if n < |servers| {
      var before := servers[..|servers| - 1];
      assert before[..n] == servers[..n];
      ServersFailEarly(before, n, parse);
    } else {
      assert servers[..n] == servers;
    }
  }

  method BuildTable(servers: seq<ServerConfig>, parse: Parser) returns (table: Table, error: Option<ConfigError>)
    ensures fresh(table)
    ensures error.None? ==> IndexOfServers(servers, parse) == Ok(table.byDomain)
    ensures error.Some? ==> IndexOfServers(servers, parse) == Err(error.value)
  {
    table := new Table();
    for i := 0 to |servers|
      invariant fresh(table)
      invariant IndexOfServers(servers[..i], parse) == Ok(table.byDomain)
    {
      assert servers[..i + 1][..i] == servers[..i];
      var server := servers[i];
      var name := ServerName(server);
      var outcome := AddServer(table.byDomain, server, parse);
      if outcome.Err? {
        ServersFailEarly(servers, i + 1, parse);
      }
      if name == "" {
        return table, Some(DomainRequired);
      }
      var entry := ServerEntry(server);
      if entry.Err? {
        return table, Some(entry.error);
      }
      var routes := BuildRoutes(server, parse);
      if routes.Err? {
        return table, Some(routes.error);
      }
      var duplicate := table.Add(name, entry.value, routes.value);
      if duplicate.Some? {
        return table, Some(DuplicateServer(DuplicateEntry(name, entry.value.protocol, entry.value.port)));
      }
    }
    assert servers[..|servers|] == servers;
    return table, None;
  }

  // ---------------------------------------------------------------------------------------------
  // What every accepted table satisfies
  // ---------------------------------------------------------------------------------------------

  ghost predicate AcceptedRoute(route: Route) {
    && HasPrefix(route.prefix, "/")
    && (route.status == 0 <==> route.target.Some?)
    && (route.status != 0 ==> 200 <= route.status <= 599)
    && (route.body != "" ==> route.status != 0 && route.status != 204 && route.status != 304)
  }

  ghost predicate DistinctPrefixes(routes: seq<Route>) {
    forall i, j :: 0 <= i < j < |routes| ==> routes[i].prefix != routes[j].prefix
  }

  ghost predicate AcceptedRoutes(routes: seq<Route>) {
    DistinctPrefixes(routes) && forall i :: 0 <= i < |routes| ==> AcceptedRoute(routes[i])
  }

  ghost predicate AcceptedEntry(entry: Entry) {
    IsProtocol(entry.protocol) && 0 <= entry.port <= 65535 && AcceptedRoutes(entry.routes)
  }

  ghost predicate AcceptedEntries(entries: seq<Entry>) {
    && |entries| > 0
    && (forall i :: 0 <= i < |entries| ==> AcceptedEntry(entries[i]))
    && forall i, j :: 0 <= i < j < |entries| ==>
         entries[i].protocol != entries[j].protocol || entries[i].port != entries[j].port
  }

  ghost predicate AcceptedTable(index: Index) {
    forall domain :: domain in index ==> domain != "" && AcceptedEntries(index[domain])
  }

  lemma {:induction false} RoutesAreAccepted(configured: seq<RouteConfig>, parse: Parser)
    requires RoutesOf(configured, parse).Ok?
    ensures AcceptedRoutes(RoutesOf(configured, parse).value)
    ensures |RoutesOf(configured, parse).value| == |configured|
  {
    if |configured| > 0 {
      RoutesAreAccepted(configured[..|configured| - 1], parse);
    }
  }

  lemma {:induction false} BuiltTablesAreAccepted(servers: seq<ServerConfig>, parse: Parser)
    requires IndexOfServers(servers, parse).Ok?
    ensures AcceptedTable(IndexOfServers(servers, parse).value)
  {
    if |servers| > 0 {
      var before := IndexOfServers(servers[..|servers| - 1], parse).value;
      BuiltTablesAreAccepted(servers[..|servers| - 1], parse);
      var server := servers[|servers| - 1];
      RoutesAreAccepted(server.routes, parse);
      var index := IndexOfServers(servers, parse).value;
      forall domain | domain in index
        ensures domain != "" && AcceptedEntries(index[domain])
      {
        if domain != ServerName(server) {
          assert domain in before;
        } else {
          var last := |index[domain]| - 1;
          assert index[domain][..last] == EntriesOf(before, domain);
          assert AcceptedEntry(index[domain][last]);
        }
      }
    }
  }

  // No summary begins with a newline: a URL begins with its scheme, and a directory has been trimmed.

  predicate OwnLine(route: Route) {
    route.target.Some? ==> !HasPrefix(route.target.value.summary, "\n")
  }

  lemma CheckedHasOwnLine(configured: RouteConfig, seen: set<string>, parse: Parser)
    requires PrintsScheme(parse)
    requires CheckRoute(configured, seen, parse).Ok?
    ensures OwnLine(CheckRoute(configured, seen, parse).value)
  {
    if configured.status == 0 {
      var upstream := TrimSpace(configured.upstream);
      var target := CheckRoute(configured, seen, parse).value.target.value;
      SummaryTellsKind(upstream, parse);
      TrimmedStart(configured.upstream);
      assert PROTOCOL_HTTP[0] == 'h' && PROTOCOL_HTTPS[0] == 'h';
      if target.url.Some? {
        assert target.summary[0] == (target.url.value.scheme + "://")[0] == 'h';
      }
    }
  }

  lemma {:induction false} RoutesHaveOwnLines(configured: seq<RouteConfig>, parse: Parser)
    requires PrintsScheme(parse)
    requires RoutesOf(configured, parse).Ok?
    ensures forall r :: 0 <= r < |RoutesOf(configured, parse).value| ==> OwnLine(RoutesOf(configured, parse).value[r])
  {
    hide CheckRoute, OwnLine, PrintsScheme;
    if |configured| > 0 {
      var before := configured[..|configured| - 1];
      RoutesHaveOwnLines(before, parse);
      CheckedHasOwnLine(configured[|configured| - 1], PrefixesOf(RoutesOf(before, parse).value), parse);
    }
  }

  ghost predicate OwnLines(index: Index) {
    forall domain, e, r :: domain in index && 0 <= e < |index[domain]| && 0 <= r < |index[domain][e].routes| ==>
      OwnLine(index[domain][e].routes[r])
  }

  lemma {:induction false} BuiltTablesHaveOwnLines(servers: seq<ServerConfig>, parse: Parser)
    requires PrintsScheme(parse)
    requires IndexOfServers(servers, parse).Ok?
    ensures OwnLines(IndexOfServers(servers, parse).value)
  {
    hide CheckRoute, OwnLine, PrintsScheme, RoutesOf;
    if |servers| > 0 {
      BuiltTablesHaveOwnLines(servers[..|servers| - 1], parse);
      RoutesHaveOwnLines(servers[|servers| - 1].routes, parse);
    }
  }

  /** A built table has all that its fingerprint needs but the hypotheses on its strings. */
  lemma BuiltIsWellFormed(servers: seq<ServerConfig>, parse: Parser)
    requires PrintsScheme(parse)
    requires IndexOfServers(servers, parse).Ok?
    ensures WellFormed(IndexOfServers(servers, parse).value)
  {
    hide OwnLine, PrintsScheme, IndexOfServers;
    BuiltTablesAreAccepted(servers, parse);
    BuiltTablesHaveOwnLines(servers, parse);
    var index := IndexOfServers(servers, parse).value;
    forall domain, e | domain in index && 0 <= e < |index[domain]|
      ensures WellFormedEntry(index[domain][e])
    {
      assert AcceptedEntry(index[domain][e]);
      forall r | 0 <= r < |index[domain][e].routes|
        ensures WellFormedRoute(index[domain][e].routes[r])
      {
        AcceptedOwnLineIsWellFormed(index[domain][e].routes[r]);
      }
    }
  }

  lemma AcceptedOwnLineIsWellFormed(route: Route)
    requires AcceptedRoute(route) && OwnLine(route)
    ensures WellFormedRoute(route)
  {
  }

  /**
   For configurations without NUL, and without "=" in header names, the fingerprint is the table: two
   accepted configurations have one fingerprint if and only if they build the same table.
   */
  lemma FingerprintTellsConfigurations(a: seq<ServerConfig>, b: seq<ServerConfig>, parse: Parser)
    requires PrintsScheme(parse)
    requires IndexOfServers(a, parse).Ok? && Printable(IndexOfServers(a, parse).value)
    requires IndexOfServers(b, parse).Ok? && Printable(IndexOfServers(b, parse).value)
    ensures Fingerprint(IndexOfServers(a, parse).value) == Fingerprint(IndexOfServers(b, parse).value)
       <==> SameTable(IndexOfServers(a, parse).value, IndexOfServers(b, parse).value)
  {
    hide PrintsScheme, IndexOfServers, Printable, WellFormed;
    BuiltIsWellFormed(a, parse);
    BuiltIsWellFormed(b, parse);
    EqualFingerprintsIffSameTable(IndexOfServers(a, parse).value, IndexOfServers(b, parse).value);
  }

  // ---------------------------------------------------------------------------------------------
  // What is accepted, on the fields of the configuration
  // ---------------------------------------------------------------------------------------------

  /**
   A route that can stand alone: its prefix starts with a slash, it has a status or an upstream and not
   both, the status is a final one with a body only where HTTP allows one, and the upstream is a target.
   With an upstream any body will do.
   */
  predicate Valid(configured: RouteConfig, parse: Parser) {
    && HasPrefix(TrimSpace(configured.prefix), "/")
    && (configured.status == 0 <==> TrimSpace(configured.upstream) != "")
    && (configured.status != 0 ==> 200 <= configured.status <= 599)
    && (configured.status in [204, 304] ==> configured.body == "")
    && (configured.status == 0 ==> ParseTarget(TrimSpace(configured.upstream), parse).Ok?)
  }

  /** The route that a configured one becomes. */
  predicate BuiltFrom(route: Route, configured: RouteConfig, parse: Parser) {
    && route.prefix == TrimSpace(configured.prefix) && route.host == TrimSpace(configured.host)
    && route.request == configured.request && route.response == configured.response
    && route.status == configured.status
    && (route.status != 0 ==> route.body == configured.body && route.target == None)
    && (route.status == 0 ==>
          route.body == "" && route.target.Some? && Ok(route.target.value) == ParseTarget(TrimSpace(configured.upstream), parse))
  }

  ghost predicate AllValid(configured: seq<RouteConfig>, parse: Parser) {
    forall i :: 0 <= i < |configured| ==> Valid(configured[i], parse)
  }

  ghost predicate DistinctConfigured(configured: seq<RouteConfig>) {
    forall i, j :: 0 <= i < j < |configured| ==> TrimSpace(configured[i].prefix) != TrimSpace(configured[j].prefix)
  }

  lemma CheckedAgainstSeen(configured: RouteConfig, seen: set<string>, parse: Parser)
    ensures CheckRoute(configured, seen, parse).Ok? <==>
            Valid(configured, parse) && TrimSpace(configured.prefix) !in seen
    ensures CheckRoute(configured, seen, parse).Ok? ==>
            CheckRoute(configured, seen, parse) == CheckRoute(configured, {}, parse)
  {
  }

  /** The last of the accepted routes is what the checks make of its configuration alone. */
  lemma LastAcceptedRoute(configured: seq<RouteConfig>, parse: Parser)
    requires |configured| > 0 && RoutesOf(configured, parse).Ok?
    ensures var before := RoutesOf(configured[..|configured| - 1], parse);
            var checked := CheckRoute(configured[|configured| - 1], {}, parse);
            before.Ok? && checked.Ok? && RoutesOf(configured, parse).value == before.value + [checked.value]
  {
    var before := RoutesOf(configured[..|configured| - 1], parse);
    CheckedAgainstSeen(configured[|configured| - 1], PrefixesOf(before.value), parse);
  }

  lemma NoRoutes(parse: Parser)
    ensures RoutesOf([], parse) == Ok([])
  {
  }

  lemma {:induction false} AcceptedRoutesAreValid(configured: seq<RouteConfig>, parse: Parser)
    requires RoutesOf(configured, parse).Ok?
    ensures var routes := RoutesOf(configured, parse).value;
      && |routes| == |configured|
      && forall i :: 0 <= i < |routes| ==> Ok(routes[i]) == CheckRoute(configured[i], {}, parse)
  {
    hide RoutesOf, CheckRoute;
    NoRoutes(parse);
    if |configured| > 0 {
      var n := |configured| - 1;
      LastAcceptedRoute(configured, parse);
      AcceptedRoutesAreValid(configured[..n], parse);
      var routes := RoutesOf(configured, parse).value;
      assert routes[n] == CheckRoute(configured[n], {}, parse).value;
      forall i | 0 <= i < n
        ensures Ok(routes[i]) == CheckRoute(configured[i], {}, parse)
      {
        assert configured[..n][i] == configured[i];
      }
    }
  }

  lemma {:induction false} ValidRoutesAreAccepted(configured: seq<RouteConfig>, parse: Parser)
    requires AllValid(configured, parse) && DistinctConfigured(configured)
    ensures RoutesOf(configured, parse).Ok?
  {
    if |configured| > 0 {
      var n := |configured| - 1;
      var before := configured[..n];
      assert AllValid(before, parse) by {
        assert forall i :: 0 <= i < n ==> before[i] == configured[i];
      }
      ValidRoutesAreAccepted(before, parse);
      AcceptedRoutesAreValid(before, parse);
      var routes := RoutesOf(before, parse).value;
      forall i | 0 <= i < n
        ensures routes[i].prefix != TrimSpace(configured[n].prefix)
      {
        RouteKeepsItsFields(before[i], {}, parse);
      }
      CheckedAgainstSeen(configured[n], PrefixesOf(routes), parse);
    }
  }

  /** The checks accept exactly the valid routes with distinct prefixes. */
  lemma RoutesAcceptedIff(configured: seq<RouteConfig>, parse: Parser)
    ensures RoutesOf(configured, parse).Ok? <==> AllValid(configured, parse) && DistinctConfigured(configured)
  {
    if RoutesOf(configured, parse).Ok? {
      AcceptedRoutesAreValid(configured, parse);
      RoutesAreAccepted(configured, parse);
      var routes := RoutesOf(configured, parse).value;
      forall i | 0 <= i < |configured|
        ensures Valid(configured[i], parse) && routes[i].prefix == TrimSpace(configured[i].prefix)
      {
        RouteKeepsItsFields(configured[i], {}, parse);
      }
    } else if AllValid(configured, parse) && DistinctConfigured(configured) {
      ValidRoutesAreAccepted(configured, parse);
    }
  }

  /** What an accepted route takes from its configuration. */
  lemma RouteKeepsItsFields(configured: RouteConfig, seen: set<string>, parse: Parser)
    requires CheckRoute(configured, seen, parse).Ok?
    ensures BuiltFrom(CheckRoute(configured, seen, parse).value, configured, parse)
  {
  }

  /** Something wrong with a route or a server, if it is there, and the error that reports it. */
  datatype Fault = Fault(there: bool, error: ConfigError)

  /** The first fault that is there gives the error, and without any there is none. */
  ghost predicate FirstFault<T>(faults: seq<Fault>, result: Result<T, ConfigError>) {
    && (result.Ok? <==> forall k :: 0 <= k < |faults| ==> !faults[k].there)
    && (result.Err? ==> exists k :: 0 <= k < |faults| && faults[k] == Fault(true, result.error)
                          && forall j :: 0 <= j < k ==> !faults[j].there)
  }

  /** What can be wrong with a route, in the order in which it is reported; `seen` are the prefixes before it. */
  ghost function RouteFaults(configured: RouteConfig, seen: set<string>, parse: Parser): seq<Fault> {
    var prefix, upstream, status := TrimSpace(configured.prefix), TrimSpace(configured.upstream), configured.status;
    var target := ParseTarget(upstream, parse);
    [ Fault(AllSpace(configured.prefix), PrefixRequired),
      Fault(!HasPrefix(prefix, "/"), PrefixWithoutSlash(prefix)),
      Fault(status != 0 && upstream != "", StatusAndUpstream),
      Fault(status == 0 && upstream == "", StatusOrUpstreamRequired),
      Fault(status != 0 && !(200 <= status <= 599), StatusOutOfRange(status)),
      Fault(status in [204, 304] && configured.body != "", BodyNotAllowed(status)),
      Fault(prefix in seen, DuplicatePrefix(prefix)),
      Fault(status == 0 && target.Err?, BadTarget(if target.Err? then target.error else InvalidURL)) ]
  }

  /** The checks report the first of a route's faults, and accept it without one: valid, with a new prefix. */
  lemma RouteReportsFirstFault(configured: RouteConfig, seen: set<string>, parse: Parser)
    ensures FirstFault(RouteFaults(configured, seen, parse), CheckRoute(configured, seen, parse))
    ensures CheckRoute(configured, seen, parse).Ok? <==>
            Valid(configured, parse) && TrimSpace(configured.prefix) !in seen
  {
    BlankIsEmpty(configured.prefix);
    hide TrimSpace, ParseTarget, AllSpace;
    var faults := RouteFaults(configured, seen, parse);
    var result := CheckRoute(configured, seen, parse);
    if result.Err? {
      var k := if faults[0].there then 0 else if faults[1].there then 1 else if faults[2].there then 2
        else if faults[3].there then 3 else if faults[4].there then 4 else if faults[5].there then 5
        else if faults[6].there then 6 else 7;
      assert faults[k] == Fault(true, result.error);
    }
  }

  ghost function ConfiguredPrefixes(configured: seq<RouteConfig>): set<string> {
    set i | 0 <= i < |configured| :: TrimSpace(configured[i].prefix)
  }

  lemma {:induction false} AcceptedPrefixes(configured: seq<RouteConfig>, parse: Parser)
    requires RoutesOf(configured, parse).Ok?
    ensures PrefixesOf(RoutesOf(configured, parse).value) == ConfiguredPrefixes(configured)
  {
    AcceptedRoutesAreValid(configured, parse);
    hide CheckRoute, RoutesOf, TrimSpace;
    var routes := RoutesOf(configured, parse).value;
    forall i | 0 <= i < |configured|
      ensures routes[i].prefix == TrimSpace(configured[i].prefix)
    {
      RouteKeepsItsFields(configured[i], {}, parse);
    }
    assert forall p :: p in ConfiguredPrefixes(configured) ==> p in PrefixesOf(routes);
  }

  /**
   Refused routes are refused for the first one that is not valid or repeats a prefix, and for the first
   of its faults.
   */
  lemma {:induction false} RoutesReportFirstFault(configured: seq<RouteConfig>, parse: Parser) returns (k: nat)
    requires RoutesOf(configured, parse).Err?
    ensures k < |configured| && AllValid(configured[..k], parse) && DistinctConfigured(configured[..k])
    ensures FirstFault(RouteFaults(configured[k], ConfiguredPrefixes(configured[..k]), parse), RoutesOf(configured, parse))
  {
    var n := |configured| - 1;
    var before := configured[..n];
    if RoutesOf(before, parse).Err? {
      k := RoutesReportFirstFault(before, parse);
      assert before[..k] == configured[..k];
    } else {
      k := n;
      RoutesAcceptedIff(before, parse);
      AcceptedPrefixes(before, parse);
      RouteReportsFirstFault(configured[n], ConfiguredPrefixes(before), parse);
    }
  }

  predicate Supported(protocol: string) {
    protocol == "" || protocol == "http" || protocol == "https"
  }

  /** A server that can stand alone. */
  ghost predicate ValidServer(server: ServerConfig, parse: Parser) {
    && ToLower(TrimSpace(server.domain)) != ""
    && Supported(ToLower(TrimSpace(server.protocol)))
    && 0 <= server.port <= 65535
    && AllValid(server.routes, parse) && DistinctConfigured(server.routes)
  }

  /** Two servers that claim the same domain for the same protocol and port. */
  predicate SameSlot(a: ServerConfig, b: ServerConfig) {
    && ToLower(TrimSpace(a.domain)) == ToLower(TrimSpace(b.domain))
    && ToLower(TrimSpace(a.protocol)) == ToLower(TrimSpace(b.protocol))
    && a.port == b.port
  }

  ghost predicate DistinctServers(servers: seq<ServerConfig>) {
    forall i, j :: 0 <= i < j < |servers| ==> !SameSlot(servers[i], servers[j])
  }

  ghost predicate Taken(servers: seq<ServerConfig>, server: ServerConfig) {
    exists k :: 0 <= k < |servers| && SameSlot(servers[k], server)
  }

  function ServerRoutes(server: ServerConfig, parse: Parser): seq<Route> {
    match RoutesOf(server.routes, parse) case Ok(routes) => routes case Err(_) => []
  }

  /** The entry that an accepted server becomes. */
  function EntryFor(server: ServerConfig, parse: Parser): Entry {
    Entry(ToLower(TrimSpace(server.protocol)), server.port, ServerRoutes(server, parse))
  }

  lemma LastServerIndexed(servers: seq<ServerConfig>, parse: Parser, domain: string)
    requires |servers| > 0 && IndexOfServers(servers, parse).Ok?
    ensures var before, last := IndexOfServers(servers[..|servers| - 1], parse), servers[|servers| - 1];
            && before.Ok?
            && EntriesOf(IndexOfServers(servers, parse).value, domain) ==
               EntriesOf(before.value, domain) + if ToLower(TrimSpace(last.domain)) == domain then [EntryFor(last, parse)] else []
  {
    hide RoutesOf, TrimSpace, ToLower;
  }

  /** The index holds the servers, each under its name, and nothing else. */
  lemma {:induction false} EntriesAreServers(servers: seq<ServerConfig>, parse: Parser, domain: string, entry: Entry)
    requires IndexOfServers(servers, parse).Ok?
    ensures entry in EntriesOf(IndexOfServers(servers, parse).value, domain) <==>
            exists k :: 0 <= k < |servers| && ToLower(TrimSpace(servers[k].domain)) == domain && EntryFor(servers[k], parse) == entry
  {
    hide RoutesOf, TrimSpace, ToLower, AddServer;
    if |servers| > 0 {
      var n := |servers| - 1;
      LastServerIndexed(servers, parse, domain);
      EntriesAreServers(servers[..n], parse, domain, entry);
      assert forall k :: 0 <= k < n ==> servers[..n][k] == servers[k];
    }
  }

  lemma OccupiedIffSameSlot(servers: seq<ServerConfig>, parse: Parser, server: ServerConfig)
    requires IndexOfServers(servers, parse).Ok?
    ensures Occupied(EntriesOf(IndexOfServers(servers, parse).value, ServerName(server)), ServerProtocol(server), server.port)
       <==> Taken(servers, server)
  {
    hide IndexOfServers, TrimSpace, ToLower, RoutesOf;
    var entries := EntriesOf(IndexOfServers(servers, parse).value, ServerName(server));
    forall k | 0 <= k < |servers| && SameSlot(servers[k], server)
      ensures Occupied(entries, ServerProtocol(server), server.port)
    {
      EntriesAreServers(servers, parse, ServerName(server), EntryFor(servers[k], parse));
    }
    forall i | 0 <= i < |entries| && entries[i].protocol == ServerProtocol(server) && entries[i].port == server.port
      ensures Taken(servers, server)
    {
      EntriesAreServers(servers, parse, ServerName(server), entries[i]);
      var k :| 0 <= k < |servers| && ToLower(TrimSpace(servers[k].domain)) == ServerName(server) && EntryFor(servers[k], parse) == entries[i];
      assert EntryFor(servers[k], parse).protocol == ServerProtocol(server) && servers[k].port == server.port;
      assert SameSlot(servers[k], server);
    }
  }

  /** What can be wrong with a server, in the order in which it is reported; `servers` are those before it. */
  ghost function ServerFaults(servers: seq<ServerConfig>, server: ServerConfig, parse: Parser): seq<Fault> {
    var domain, protocol := ToLower(TrimSpace(server.domain)), ToLower(TrimSpace(server.protocol));
    var routes := RoutesOf(server.routes, parse);
    [ Fault(AllSpace(server.domain), DomainRequired),
      Fault(!Supported(protocol), UnsupportedProtocol(server.protocol)),
      Fault(!(0 <= server.port <= 65535), ServerPortOutOfRange(server.port)),
      Fault(!(AllValid(server.routes, parse) && DistinctConfigured(server.routes)), if routes.Err? then routes.error else DomainRequired),
      Fault(Taken(servers, server), DuplicateServer(DuplicateEntry(domain, protocol, server.port))) ]
  }

  lemma BlankName(server: ServerConfig)
    ensures ServerName(server) == "" <==> AllSpace(server.domain)
  {
    BlankIsEmpty(server.domain);
    LowerIffSameFold(TrimSpace(server.domain), "");
  }

  /** A server is added or refused for the first of its faults. */
  lemma ServerReportsFirstFault(servers: seq<ServerConfig>, server: ServerConfig, parse: Parser)
    requires IndexOfServers(servers, parse).Ok?
    ensures var result := AddServer(IndexOfServers(servers, parse).value, server, parse);
            && FirstFault(ServerFaults(servers, server, parse), result)
            && (result.Ok? <==> ValidServer(server, parse) && !Taken(servers, server))
  {
    hide RoutesOf, TrimSpace, ToLower, IndexOfServers, AllSpace, AllValid, DistinctConfigured, Taken, AddServer, Supported;
    ServerOutcome(servers, server, parse);
    var result := AddServer(IndexOfServers(servers, parse).value, server, parse);
    var faults := ServerFaults(servers, server, parse);
    if result.Err? {
      var k := if faults[0].there then 0 else if faults[1].there then 1 else if faults[2].there then 2
        else if faults[3].there then 3 else 4;
      assert faults[k] == Fault(true, result.error);
    }
  }

  lemma ServerOutcome(servers: seq<ServerConfig>, server: ServerConfig, parse: Parser)
    requires IndexOfServers(servers, parse).Ok?
    ensures var result, routes := AddServer(IndexOfServers(servers, parse).value, server, parse), RoutesOf(server.routes, parse);
            var name, protocol := ToLower(TrimSpace(server.domain)), ToLower(TrimSpace(server.protocol));
            && (name == "" <==> AllSpace(server.domain))
            && (routes.Err? <==> !(AllValid(server.routes, parse) && DistinctConfigured(server.routes)))
            && if AllSpace(server.domain) then result == Err(DomainRequired)
               else if !Supported(protocol) then result == Err(UnsupportedProtocol(server.protocol))
               else if !(0 <= server.port <= 65535) then result == Err(ServerPortOutOfRange(server.port))
               else if routes.Err? then result == Err(routes.error)
               else if Taken(servers, server) then result == Err(DuplicateServer(DuplicateEntry(name, protocol, server.port)))
               else result.Ok?
  {
    RoutesAcceptedIff(server.routes, parse);
    OccupiedIffSameSlot(servers, parse, server);
    BlankName(server);
    AddedServer(IndexOfServers(servers, parse).value, server, parse);
    hide RoutesOf, TrimSpace, ToLower, IndexOfServers, AllSpace, AllValid, DistinctConfigured, Taken, Occupied, EntriesOf, AddServer, Supported;
  }

  lemma AddedServer(index: Index, server: ServerConfig, parse: Parser)
    ensures var result, routes := AddServer(index, server, parse), RoutesOf(server.routes, parse);
            var name, protocol := ServerName(server), ServerProtocol(server);
            if name == "" then result == Err(DomainRequired)
            else if !Supported(protocol) then result == Err(UnsupportedProtocol(server.protocol))
            else if !(0 <= server.port <= 65535) then result == Err(ServerPortOutOfRange(server.port))
            else if routes.Err? then result == Err(routes.error)
            else if Occupied(EntriesOf(index, name), protocol, server.port)
            then result == Err(DuplicateServer(DuplicateEntry(name, protocol, server.port)))
            else result.Ok?
  {
    hide RoutesOf, TrimSpace, ToLower, Occupied, EntriesOf;
  }

  /** A configuration is accepted exactly when every server is valid and no two claim the same place. */
  lemma {:induction false} TableAcceptedIff(servers: seq<ServerConfig>, parse: Parser)
    ensures IndexOfServers(servers, parse).Ok? <==>
            (forall k :: 0 <= k < |servers| ==> ValidServer(servers[k], parse)) && DistinctServers(servers)
  {
    hide AddServer, ValidServer, SameSlot, Taken;
    if |servers| > 0 {
      var n := |servers| - 1;
      var before := servers[..n];
      TableAcceptedIff(before, parse);
      OneMoreServer(servers, parse);
      if IndexOfServers(before, parse).Ok? {
        ServerReportsFirstFault(before, servers[n], parse);
      }
    }
  }

  lemma OneMoreServer(servers: seq<ServerConfig>, parse: Parser)
    requires |servers| > 0
    ensures var n, before := |servers| - 1, servers[..|servers| - 1];
            && (DistinctServers(servers) <==> DistinctServers(before) && !Taken(before, servers[n]))
            && ((forall k :: 0 <= k < |servers| ==> ValidServer(servers[k], parse)) <==>
                (forall k :: 0 <= k < |before| ==> ValidServer(before[k], parse)) && ValidServer(servers[n], parse))
  {
    hide ValidServer, SameSlot;
    var n, before := |servers| - 1, servers[..|servers| - 1];
    assert forall k :: 0 <= k < n ==> before[k] == servers[k];
    if Taken(before, servers[n]) {
      var k :| 0 <= k < n && SameSlot(before[k], servers[n]);
      assert SameSlot(servers[k], servers[n]);
    }
    if forall k :: 0 <= k < |before| ==> ValidServer(before[k], parse) {
      assert forall k :: 0 <= k < n ==> ValidServer(before[k], parse) && before[k] == servers[k];
    }
  }

  /** A refused configuration is refused for its first server that is not valid or whose place is taken. */
  lemma {:induction false} TableReportsFirstFault(servers: seq<ServerConfig>, parse: Parser) returns (k: nat)
    requires IndexOfServers(servers, parse).Err?
    ensures k < |servers| && IndexOfServers(servers[..k], parse).Ok?
    ensures FirstFault(ServerFaults(servers[..k], servers[k], parse), IndexOfServers(servers, parse))
  {
    hide AddServer, ServerFaults;
    var n := |servers| - 1;
    if IndexOfServers(servers[..n], parse).Err? {
      k := TableReportsFirstFault(servers[..n], parse);
      assert servers[..n][..k] == servers[..k];
    } else {
      k := n;
      ServerReportsFirstFault(servers[..n], servers[n], parse);
    }
  }

  // ---------------------------------------------------------------------------------------------
  // The index agrees with a scan of all servers in file order
  // ---------------------------------------------------------------------------------------------

  /** A server is consulted for a request when its name, protocol and port fit it. */
  predicate Serves(server: ServerConfig, protocol: string, port: int, domain: string) {
    && ToLower(TrimSpace(server.domain)) == domain
    && ToLower(TrimSpace(server.protocol)) in ["", protocol]
    && server.port in [0, port]
  }

  /** The routes of all servers consulted, in file order. */
  function Scan(servers: seq<ServerConfig>, parse: Parser, protocol: string, port: int, domain: string): seq<Route> {
    if |servers| == 0 then []
    else
      var last := servers[|servers| - 1];
      Scan(servers[..|servers| - 1], parse, protocol, port, domain)
      + if Serves(last, protocol, port, domain) then ServerRoutes(last, parse) else []
  }

  lemma {:induction false} IndexIsScan(servers: seq<ServerConfig>, parse: Parser, protocol: string, port: int, domain: string)
    requires IndexOfServers(servers, parse).Ok?
    ensures Candidates(EntriesOf(IndexOfServers(servers, parse).value, domain), protocol, port)
         == Scan(servers, parse, protocol, port, domain)
  {
    hide IndexOfServers, RoutesOf, TrimSpace, ToLower, Matches;
    if |servers| == 0 {
      NoServers(parse);
    } else {
      var n := |servers| - 1;
      LastServerIndexed(servers, parse, domain);
      IndexIsScan(servers[..n], parse, protocol, port, domain);
      var entries := EntriesOf(IndexOfServers(servers, parse).value, domain);
      if ToLower(TrimSpace(servers[n].domain)) == domain {
        assert entries[..|entries| - 1] == EntriesOf(IndexOfServers(servers[..n], parse).value, domain);
        assert entries[|entries| - 1] == EntryFor(servers[n], parse);
      } else {
        assert entries == EntriesOf(IndexOfServers(servers[..n], parse).value, domain);
      }
      LastServerMatches(servers[n], parse, protocol, port);
    }
  }

  lemma NoServers(parse: Parser)
    ensures IndexOfServers([], parse) == Ok(map[])
  {
  }

  lemma LastServerMatches(server: ServerConfig, parse: Parser, protocol: string, port: int)
    ensures Serves(server, protocol, port, ToLower(TrimSpace(server.domain))) <==> Matches(EntryFor(server, parse), protocol, port)
  {
  }

  /** Picking is scanning all servers in file order for the longest matching prefix, earliest on ties. */
  lemma PickIsScan(servers: seq<ServerConfig>, parse: Parser, protocol: string, port: int, domain: string, path: string)
    requires IndexOfServers(servers, parse).Ok?
    ensures var picked := PickFrom(IndexOfServers(servers, parse).value, protocol, port, domain, path);
            var scan := Scan(servers, parse, protocol, port, domain);
            && (picked.None? <==> forall i :: 0 <= i < |scan| ==> !PathHasPrefix(path, scan[i].prefix))
            && (picked.Some? ==> exists i: nat :: FirstLongest(scan, path, i) && picked.value == scan[i])
  {
    IndexIsScan(servers, parse, protocol, port, domain);
    BestIsFirstLongest(Scan(servers, parse, protocol, port, domain), path);
  }

  // ---------------------------------------------------------------------------------------------
  // The order of the routes inside a server does not matter
  // ---------------------------------------------------------------------------------------------

  lemma DistinctUnderPermutation(a: seq<RouteConfig>, b: seq<RouteConfig>)
    requires multiset(a) == multiset(b) && DistinctConfigured(a)
    ensures DistinctConfigured(b)
  {
    forall i, j | 0 <= i < j < |b|
      ensures TrimSpace(b[i].prefix) != TrimSpace(b[j].prefix)
    {
      if TrimSpace(b[i].prefix) == TrimSpace(b[j].prefix) {
        assert b[i] in multiset(a) && b[j] in multiset(a);
        var k, l :| 0 <= k < |a| && 0 <= l < |a| && a[k] == b[i] && a[l] == b[j];
        assert k == l;
        TwiceInMultiset(b, i, j);
        OnceInMultiset(a, k);
      }
    }
  }

  lemma TwiceInMultiset(s: seq<RouteConfig>, i: nat, j: nat)
    requires i < j < |s| && s[i] == s[j]
    ensures multiset(s)[s[i]] >= 2
  {
    assert s == s[..j] + s[j..];
    assert s[i] in s[..j] && s[j] in s[j..];
  }

  lemma OnceInMultiset(s: seq<RouteConfig>, k: nat)
    requires k < |s| && DistinctConfigured(s)
    ensures multiset(s)[s[k]] == 1
  {
    assert s == s[..k] + [s[k]] + s[k + 1..];
    assert s[k] !in s[..k] && s[k] !in s[k + 1..];
  }

  ghost predicate SameElements(a: seq<Route>, b: seq<Route>) {
    forall r :: r in a <==> r in b
  }

  lemma PermutedRoutes(a: seq<RouteConfig>, b: seq<RouteConfig>, parse: Parser)
    requires multiset(a) == multiset(b)
    requires RoutesOf(a, parse).Ok?
    ensures RoutesOf(b, parse).Ok?
    ensures SameElements(RoutesOf(a, parse).value, RoutesOf(b, parse).value)
  {
    RoutesAcceptedIff(a, parse);
    RoutesAcceptedIff(b, parse);
    DistinctUnderPermutation(a, b);
    forall i | 0 <= i < |b|
      ensures Valid(b[i], parse)
    {
      assert b[i] in multiset(a);
    }
    RoutesFollow(a, b, parse);
    RoutesFollow(b, a, parse);
  }

  lemma RoutesFollow(a: seq<RouteConfig>, b: seq<RouteConfig>, parse: Parser)
    requires multiset(a) == multiset(b)
    requires RoutesOf(a, parse).Ok? && RoutesOf(b, parse).Ok?
    ensures forall r :: r in RoutesOf(a, parse).value ==> r in RoutesOf(b, parse).value
  {
    AcceptedRoutesAreValid(a, parse);
    AcceptedRoutesAreValid(b, parse);
    var listA, listB := RoutesOf(a, parse).value, RoutesOf(b, parse).value;
    forall r | r in listA
      ensures r in listB
    {
      var i :| 0 <= i < |listA| && listA[i] == r;
      assert a[i] in multiset(b);
      var j :| 0 <= j < |b| && b[j] == a[i];
      assert listB[j] == r;
    }
  }

  /** Of two best routes the longer, the first on ties. */
  function Longer(a: Option<Route>, b: Option<Route>): Option<Route> {
    if b.Some? && (a.None? || |b.value.prefix| > |a.value.prefix|) then b else a
  }

  lemma {:induction false} BestOfBoth(a: seq<Route>, b: seq<Route>, path: string)
    ensures Best(a + b, path) == Longer(Best(a, path), Best(b, path))
  {
    if b == [] {
      assert a + b == a;
    } else {
      assert (a + b)[..|a + b| - 1] == a + b[..|b| - 1];
      BestOfBoth(a, b[..|b| - 1], path);
    }
  }

  /** Among routes with distinct prefixes the longest match is one route, wherever it stands. */
  lemma BestOfPermuted(a: seq<Route>, b: seq<Route>, path: string)
    requires AcceptedRoutes(a) && AcceptedRoutes(b) && SameElements(a, b)
    ensures Best(a, path) == Best(b, path)
  {
    if Best(a, path).Some? {
      BestOnlyInBoth(a, b, path);
    }
    if Best(b, path).Some? {
      BestOnlyInBoth(b, a, path);
      var i := BestIndex(a, path);
      assert a[i] in b;
      var k :| 0 <= k < |b| && b[k] == a[i];
      var j := BestIndex(b, path);
      assert b[j] in a;
      var l :| 0 <= l < |a| && a[l] == b[j];
      assert AcceptedRoute(b[k]) && AcceptedRoute(b[j]);
      EqualLengthPrefixesAgree(path, b[k].prefix, b[j].prefix);
      assert k == j;
    }
  }

  lemma BestOnlyInBoth(a: seq<Route>, b: seq<Route>, path: string)
    requires SameElements(a, b)
    requires Best(a, path).Some?
    ensures Best(b, path).Some?
  {
    var i := BestIndex(a, path);
    assert a[i] in b;
    NoBest(b, path);
  }

  ghost predicate RoutesPermuted(servers: seq<ServerConfig>, permuted: seq<ServerConfig>) {
    && |servers| == |permuted|
    && forall k :: 0 <= k < |servers| ==> RoutesPermutedIn(servers[k], permuted[k])
  }

  ghost predicate RoutesPermutedIn(server: ServerConfig, permuted: ServerConfig) {
    permuted == server.(routes := permuted.routes) && multiset(server.routes) == multiset(permuted.routes)
  }

  /** Two lists of entries that stand for the same protocols and ports. */
  ghost predicate SameSlots(a: seq<Entry>, b: seq<Entry>) {
    |a| == |b| && forall i :: 0 <= i < |a| ==> a[i].protocol == b[i].protocol && a[i].port == b[i].port
  }

  lemma {:induction false} PermutedIsAccepted(servers: seq<ServerConfig>, permuted: seq<ServerConfig>, parse: Parser)
    requires RoutesPermuted(servers, permuted)
    requires IndexOfServers(servers, parse).Ok?
    ensures IndexOfServers(permuted, parse).Ok?
    ensures forall domain :: SameSlots(EntriesOf(IndexOfServers(servers, parse).value, domain),
                                       EntriesOf(IndexOfServers(permuted, parse).value, domain))
  {
    if |servers| > 0 {
      var n := |servers| - 1;
      PermutedIsAccepted(servers[..n], permuted[..n], parse);
      var a, b := IndexOfServers(servers[..n], parse).value, IndexOfServers(permuted[..n], parse).value;
      assert RoutesPermutedIn(servers[n], permuted[n]);
      PermutedRoutes(servers[n].routes, permuted[n].routes, parse);
      PermutedServerIsAdded(a, b, servers[n], permuted[n], parse);
    }
  }

  lemma PermutedServerIsAdded(a: Index, b: Index, server: ServerConfig, permuted: ServerConfig, parse: Parser)
    requires forall domain :: SameSlots(EntriesOf(a, domain), EntriesOf(b, domain))
    requires permuted == server.(routes := permuted.routes)
    requires RoutesOf(server.routes, parse).Ok? && RoutesOf(permuted.routes, parse).Ok?
    requires AddServer(a, server, parse).Ok?
    ensures AddServer(b, permuted, parse).Ok?
    ensures forall domain :: SameSlots(EntriesOf(AddServer(a, server, parse).value, domain),
                                       EntriesOf(AddServer(b, permuted, parse).value, domain))
  {
    var name := ServerName(server);
    assert ServerEntry(server) == ServerEntry(permuted);
    var entry := ServerEntry(server).value;
    assert SameSlots(EntriesOf(a, name), EntriesOf(b, name));
    assert Occupied(EntriesOf(b, name), entry.protocol, entry.port) ==> Occupied(EntriesOf(a, name), entry.protocol, entry.port);
    var after, after' := AddServer(a, server, parse).value, AddServer(b, permuted, parse).value;
    forall domain
      ensures SameSlots(EntriesOf(after, domain), EntriesOf(after', domain))
    {
      assert SameSlots(EntriesOf(a, domain), EntriesOf(b, domain));
    }
  }

  lemma {:induction false} ServersHaveRoutes(servers: seq<ServerConfig>, parse: Parser)
    requires IndexOfServers(servers, parse).Ok?
    ensures forall k :: 0 <= k < |servers| ==> RoutesOf(servers[k].routes, parse).Ok?
  {
    hide RoutesOf, AddServer;
    if |servers| > 0 {
      var n := |servers| - 1;
      LastServerHasRoutes(servers, parse);
      ServersHaveRoutes(servers[..n], parse);
      assert forall k :: 0 <= k < n ==> servers[..n][k] == servers[k];
    }
  }

  lemma LastServerHasRoutes(servers: seq<ServerConfig>, parse: Parser)
    requires |servers| > 0 && IndexOfServers(servers, parse).Ok?
    ensures IndexOfServers(servers[..|servers| - 1], parse).Ok?
    ensures RoutesOf(servers[|servers| - 1].routes, parse).Ok?
  {
    hide RoutesOf, ServerEntry, ServerName;
  }

  lemma PermutedServer(server: ServerConfig, permuted: ServerConfig, parse: Parser, path: string)
    requires RoutesPermutedIn(server, permuted) && RoutesOf(server.routes, parse).Ok?
    ensures Best(ServerRoutes(server, parse), path) == Best(ServerRoutes(permuted, parse), path)
  {
    PermutedRoutes(server.routes, permuted.routes, parse);
    RoutesAreAccepted(server.routes, parse);
    RoutesAreAccepted(permuted.routes, parse);
    BestOfPermuted(ServerRoutes(server, parse), ServerRoutes(permuted, parse), path);
  }

  lemma {:induction false} PermutedScan(servers: seq<ServerConfig>, permuted: seq<ServerConfig>, parse: Parser,
                                        protocol: string, port: int, domain: string, path: string)
    requires RoutesPermuted(servers, permuted)
    requires forall k :: 0 <= k < |servers| ==> RoutesOf(servers[k].routes, parse).Ok?
    ensures Best(Scan(servers, parse, protocol, port, domain), path)
         == Best(Scan(permuted, parse, protocol, port, domain), path)
  {
    if |servers| > 0 {
      var n := |servers| - 1;
      PermutedScan(servers[..n], permuted[..n], parse, protocol, port, domain, path);
      assert RoutesPermutedIn(servers[n], permuted[n]);
      PermutedServer(servers[n], permuted[n], parse, path);
      var a, b := ServerRoutes(servers[n], parse), ServerRoutes(permuted[n], parse);
      var scanA := Scan(servers[..n], parse, protocol, port, domain);
      var scanB := Scan(permuted[..n], parse, protocol, port, domain);
      BestOfBoth(scanA, if Serves(servers[n], protocol, port, domain) then a else [], path);
      BestOfBoth(scanB, if Serves(permuted[n], protocol, port, domain) then b else [], path);
    }
  }

  /** Permuting routes inside servers changes neither acceptance nor any picked route. */
  lemma RouteOrderIsIrrelevant(servers: seq<ServerConfig>, permuted: seq<ServerConfig>, parse: Parser,
                               protocol: string, port: int, domain: string, path: string)
    requires RoutesPermuted(servers, permuted)
    requires IndexOfServers(servers, parse).Ok?
    ensures IndexOfServers(permuted, parse).Ok?
    ensures PickFrom(IndexOfServers(servers, parse).value, protocol, port, domain, path)
         == PickFrom(IndexOfServers(permuted, parse).value, protocol, port, domain, path)
  {
    PermutedIsAccepted(servers, permuted, parse);
    IndexIsScan(servers, parse, protocol, port, domain);
    IndexIsScan(permuted, parse, protocol, port, domain);
    ServersHaveRoutes(servers, parse);
    PermutedScan(servers, permuted, parse, protocol, port, domain, path);
  }

  // ---------------------------------------------------------------------------------------------
  // What is picked, on the fields of the configuration
  // ---------------------------------------------------------------------------------------------

  /** Route r of server k is consulted for the request and matches its path. */
  ghost predicate Fits(servers: seq<ServerConfig>, protocol: string, port: int, domain: string, path: string, k: nat, r: nat) {
    && k < |servers| && r < |servers[k].routes|
    && Serves(servers[k], protocol, port, domain)
    && PathHasPrefix(path, TrimSpace(servers[k].routes[r].prefix))
  }

  function PrefixLength(servers: seq<ServerConfig>, k: nat, r: nat): nat {
    if k < |servers| && r < |servers[k].routes| then |TrimSpace(servers[k].routes[r].prefix)| else 0
  }

  /** It has the longest prefix of those that fit, and is the first of that length in the file. */
  ghost predicate FileBest(servers: seq<ServerConfig>, protocol: string, port: int, domain: string, path: string, k: nat, r: nat) {
    && Fits(servers, protocol, port, domain, path, k, r)
    && forall k': nat, r': nat :: Fits(servers, protocol, port, domain, path, k', r') ==>
         && PrefixLength(servers, k', r') <= PrefixLength(servers, k, r)
         && (k' < k || (k' == k && r' < r) ==> PrefixLength(servers, k', r') < PrefixLength(servers, k, r))
  }

  ghost predicate SomeFits(servers: seq<ServerConfig>, protocol: string, port: int, domain: string, path: string) {
    exists k: nat, r: nat :: Fits(servers, protocol, port, domain, path, k, r)
  }

  /** The route of one server that is best for a path, as it stands in the file. */
  lemma ServerBest(server: ServerConfig, parse: Parser, path: string) returns (r: nat)
    requires RoutesOf(server.routes, parse).Ok?
    ensures var best := Best(ServerRoutes(server, parse), path);
            if best.None? then
              forall i :: 0 <= i < |server.routes| ==> !PathHasPrefix(path, TrimSpace(server.routes[i].prefix))
            else
              && r < |server.routes| && BuiltFrom(best.value, server.routes[r], parse)
              && PathHasPrefix(path, TrimSpace(server.routes[r].prefix))
              && forall i :: 0 <= i < |server.routes| && PathHasPrefix(path, TrimSpace(server.routes[i].prefix)) ==>
                   && |TrimSpace(server.routes[i].prefix)| <= |TrimSpace(server.routes[r].prefix)|
                   && (i < r ==> |TrimSpace(server.routes[i].prefix)| < |TrimSpace(server.routes[r].prefix)|)
  {
    AcceptedRoutesAreValid(server.routes, parse);
    hide CheckRoute, RoutesOf, TrimSpace, PathHasPrefix, BuiltFrom;
    var routes := ServerRoutes(server, parse);
    forall i | 0 <= i < |routes|
      ensures BuiltFrom(routes[i], server.routes[i], parse) && routes[i].prefix == TrimSpace(server.routes[i].prefix)
    {
      RouteKeepsItsFields(server.routes[i], {}, parse);
      BuiltPrefix(routes[i], server.routes[i], parse);
    }
    NoBest(routes, path);
    r := 0;
    if Best(routes, path).Some? {
      r := BestIndex(routes, path);
    }
  }

  lemma BuiltPrefix(route: Route, configured: RouteConfig, parse: Parser)
    requires BuiltFrom(route, configured, parse)
    ensures route.prefix == TrimSpace(configured.prefix)
  {
  }

  /** What fits all servers fits those before the last, or the last. */
  lemma FitsLast(servers: seq<ServerConfig>, protocol: string, port: int, domain: string, path: string, k: nat, r: nat)
    requires |servers| > 0
    ensures var n, before := |servers| - 1, servers[..|servers| - 1];
            && (k != n ==> (Fits(servers, protocol, port, domain, path, k, r) <==> Fits(before, protocol, port, domain, path, k, r)))
            && (k < n ==> PrefixLength(servers, k, r) == PrefixLength(before, k, r))
            && (Fits(before, protocol, port, domain, path, k, r) ==> k < n)
            && (Fits(servers, protocol, port, domain, path, n, r) <==>
                  && Serves(servers[n], protocol, port, domain) && r < |servers[n].routes|
                  && PathHasPrefix(path, TrimSpace(servers[n].routes[r].prefix)))
  {
    hide Serves, PathHasPrefix, TrimSpace;
  }

  lemma SomeFitsLast(servers: seq<ServerConfig>, protocol: string, port: int, domain: string, path: string)
    requires |servers| > 0
    ensures SomeFits(servers, protocol, port, domain, path) <==>
              SomeFits(servers[..|servers| - 1], protocol, port, domain, path)
              || exists k: nat, r: nat :: k == |servers| - 1 && Fits(servers, protocol, port, domain, path, k, r)
  {
    hide Fits;
    if SomeFits(servers, protocol, port, domain, path) {
      var k: nat, r: nat :| Fits(servers, protocol, port, domain, path, k, r);
      FitsLast(servers, protocol, port, domain, path, k, r);
    }
    if SomeFits(servers[..|servers| - 1], protocol, port, domain, path) {
      var k: nat, r: nat :| Fits(servers[..|servers| - 1], protocol, port, domain, path, k, r);
      FitsLast(servers, protocol, port, domain, path, k, r);
    }
  }

  lemma NothingFits(protocol: string, port: int, domain: string, path: string)
    ensures !SomeFits([], protocol, port, domain, path)
  {
  }

  lemma BestOfNone(path: string)
    ensures Best([], path) == None
  {
  }

  lemma {:induction false} ScanIsFileBest(servers: seq<ServerConfig>, parse: Parser, protocol: string, port: int, domain: string,
                                          path: string) returns (k: nat, r: nat)
    requires forall k :: 0 <= k < |servers| ==> RoutesOf(servers[k].routes, parse).Ok?
    ensures var best := Best(Scan(servers, parse, protocol, port, domain), path);
            && (best.None? <==> !SomeFits(servers, protocol, port, domain, path))
            && (best.Some? ==>
                  && k < |servers| && r < |servers[k].routes|
                  && FileBest(servers, protocol, port, domain, path, k, r)
                  && BuiltFrom(best.value, servers[k].routes[r], parse))
  {
    hide RoutesOf, TrimSpace, PathHasPrefix, BuiltFrom, Best, ServerRoutes, Serves, Fits, PrefixLength;
    k, r := 0, 0;
    if |servers| == 0 {
      NothingFits(protocol, port, domain, path);
      BestOfNone(path);
    } else {
      var n := |servers| - 1;
      k, r := ScanIsFileBest(servers[..n], parse, protocol, port, domain, path);
      var scan := Scan(servers[..n], parse, protocol, port, domain);
      assert scan + [] == scan;
      assert Scan(servers, parse, protocol, port, domain)
          == scan + if Serves(servers[n], protocol, port, domain) then ServerRoutes(servers[n], parse) else [];
      k, r := LastServerJoins(servers, parse, protocol, port, domain, path, Best(scan, path), k, r);
      BestOfBoth(scan, ServerRoutes(servers[n], parse), path);
    }
  }

  lemma NoneOrWorse(servers: seq<ServerConfig>, protocol: string, port: int, domain: string, path: string, length: nat, k: nat, r: nat)
    requires !SomeFits(servers, protocol, port, domain, path)
             || (FileBest(servers, protocol, port, domain, path, k, r) && PrefixLength(servers, k, r) < length)
    ensures forall i: nat, j: nat :: Fits(servers, protocol, port, domain, path, i, j) ==> PrefixLength(servers, i, j) < length
  {
    hide Fits, PrefixLength;
  }

  /** Best among the routes of server k alone. */
  ghost predicate ServersBest(servers: seq<ServerConfig>, protocol: string, port: int, domain: string, path: string, k: nat, r: nat) {
    && Fits(servers, protocol, port, domain, path, k, r)
    && forall j: nat :: Fits(servers, protocol, port, domain, path, k, j) ==>
         && PrefixLength(servers, k, j) <= PrefixLength(servers, k, r)
         && (j < r ==> PrefixLength(servers, k, j) < PrefixLength(servers, k, r))
  }

  lemma LastServerBest(servers: seq<ServerConfig>, parse: Parser, protocol: string, port: int, domain: string, path: string)
    returns (r: nat)
    requires |servers| > 0 && RoutesOf(servers[|servers| - 1].routes, parse).Ok?
    ensures var n := |servers| - 1;
            var best := Best(ServerRoutes(servers[n], parse), path);
            if best.None? || !Serves(servers[n], protocol, port, domain) then
              forall j: nat :: !Fits(servers, protocol, port, domain, path, n, j)
            else
              && r < |servers[n].routes| && BuiltFrom(best.value, servers[n].routes[r], parse)
              && |best.value.prefix| == PrefixLength(servers, n, r)
              && ServersBest(servers, protocol, port, domain, path, n, r)
  {
    hide RoutesOf, TrimSpace, PathHasPrefix, BuiltFrom, Best, ServerRoutes, Serves;
    var n := |servers| - 1;
    r := ServerBest(servers[n], parse, path);
    var best := Best(ServerRoutes(servers[n], parse), path);
    if best.Some? {
      BuiltPrefix(best.value, servers[n].routes[r], parse);
    }
  }

  lemma BecomesBest(servers: seq<ServerConfig>, protocol: string, port: int, domain: string, path: string, n: nat, r: nat)
    requires |servers| > 0 && n == |servers| - 1 && ServersBest(servers, protocol, port, domain, path, n, r)
    requires forall i: nat, j: nat :: Fits(servers[..n], protocol, port, domain, path, i, j) ==>
               PrefixLength(servers[..n], i, j) < PrefixLength(servers, n, r)
    ensures FileBest(servers, protocol, port, domain, path, n, r)
  {
    hide Fits, PrefixLength;
    forall k: nat, j: nat | Fits(servers, protocol, port, domain, path, k, j)
      ensures k == n || (k < n && PrefixLength(servers, k, j) < PrefixLength(servers, n, r))
    {
      FitsLast(servers, protocol, port, domain, path, k, j);
    }
  }

  lemma StaysBest(servers: seq<ServerConfig>, protocol: string, port: int, domain: string, path: string, n: nat, k: nat, r: nat)
    requires |servers| > 0 && n == |servers| - 1 && FileBest(servers[..n], protocol, port, domain, path, k, r)
    requires forall j: nat :: Fits(servers, protocol, port, domain, path, n, j) ==>
               PrefixLength(servers, n, j) <= PrefixLength(servers, k, r)
    ensures FileBest(servers, protocol, port, domain, path, k, r)
  {
    hide Fits, PrefixLength;
    FitsLast(servers, protocol, port, domain, path, k, r);
    forall l: nat, j: nat | Fits(servers, protocol, port, domain, path, l, j)
      ensures PrefixLength(servers, l, j) <= PrefixLength(servers, k, r)
      ensures l < k || (l == k && j < r) ==> PrefixLength(servers, l, j) < PrefixLength(servers, k, r)
    {
      FitsLast(servers, protocol, port, domain, path, l, j);
    }
  }

  lemma BestLength(servers: seq<ServerConfig>, parse: Parser, route: Route, k: nat, r: nat)
    requires k < |servers| - 1 && r < |servers[k].routes| && BuiltFrom(route, servers[k].routes[r], parse)
    ensures |route.prefix| == PrefixLength(servers, k, r) == PrefixLength(servers[..|servers| - 1], k, r)
  {
    hide TrimSpace;
  }

  lemma BestFits(servers: seq<ServerConfig>, protocol: string, port: int, domain: string, path: string, k: nat, r: nat)
    requires FileBest(servers, protocol, port, domain, path, k, r)
    ensures SomeFits(servers, protocol, port, domain, path)
  {
    hide Fits, PrefixLength;
  }

  /** The last server has no longer prefix for the path if its best has not, or if nothing of it fits. */
  lemma LastIsNoLonger(servers: seq<ServerConfig>, protocol: string, port: int, domain: string, path: string, length: nat, r: nat)
    requires |servers| > 0
    requires (forall j: nat, n: nat :: n == |servers| - 1 ==> !Fits(servers, protocol, port, domain, path, n, j))
             || (ServersBest(servers, protocol, port, domain, path, |servers| - 1, r) && PrefixLength(servers, |servers| - 1, r) <= length)
    ensures forall j: nat, n: nat :: n == |servers| - 1 && Fits(servers, protocol, port, domain, path, n, j) ==>
              PrefixLength(servers, n, j) <= length
  {
    hide Fits, PrefixLength;
  }

  /** The best so far in the file, with the last server's best route where that server is consulted. */
  lemma LastServerJoins(servers: seq<ServerConfig>, parse: Parser, protocol: string, port: int, domain: string, path: string,
                        best: Option<Route>, k: nat, r: nat) returns (k': nat, r': nat)
    requires |servers| > 0 && RoutesOf(servers[|servers| - 1].routes, parse).Ok?
    requires best.None? <==> !SomeFits(servers[..|servers| - 1], protocol, port, domain, path)
    requires best.Some? ==>
      && k < |servers| - 1 && r < |servers[k].routes|
      && FileBest(servers[..|servers| - 1], protocol, port, domain, path, k, r)
      && BuiltFrom(best.value, servers[k].routes[r], parse)
    ensures var last := servers[|servers| - 1];
            var joined := if Serves(last, protocol, port, domain) then Longer(best, Best(ServerRoutes(last, parse), path)) else best;
            && (joined.None? <==> !SomeFits(servers, protocol, port, domain, path))
            && (joined.Some? ==>
                  && k' < |servers| && r' < |servers[k'].routes|
                  && FileBest(servers, protocol, port, domain, path, k', r')
                  && BuiltFrom(joined.value, servers[k'].routes[r'], parse))
  {
    hide RoutesOf, TrimSpace, PathHasPrefix, BuiltFrom, Best, ServerRoutes, Serves, SomeFits, Fits, FileBest, PrefixLength, ServersBest;
    var n := |servers| - 1;
    SomeFitsLast(servers, protocol, port, domain, path);
    var last := LastServerBest(servers, parse, protocol, port, domain, path);
    var mine := Best(ServerRoutes(servers[n], parse), path);
    if best.Some? {
      BestLength(servers, parse, best.value, k, r);
    }
    if Serves(servers[n], protocol, port, domain) && mine.Some? && (best.None? || |mine.value.prefix| > |best.value.prefix|) {
      k', r' := n, last;
      NoneOrWorse(servers[..n], protocol, port, domain, path, |mine.value.prefix|, k, r);
      BecomesBest(servers, protocol, port, domain, path, n, last);
      BestFits(servers, protocol, port, domain, path, n, last);
    } else {
      k', r' := k, r;
      if best.Some? {
        LastIsNoLonger(servers, protocol, port, domain, path, |best.value.prefix|, last);
        StaysBest(servers, protocol, port, domain, path, n, k, r);
        BestFits(servers, protocol, port, domain, path, k, r);
      }
    }
  }

  /**
   The picked route is built from the one in the file that has the longest prefix of all that fit the
   request, the first of that length, and there is none exactly when nothing fits.
   */
  lemma PickIsFileBest(servers: seq<ServerConfig>, parse: Parser, protocol: string, port: int, domain: string, path: string)
    requires IndexOfServers(servers, parse).Ok?
    ensures var picked := PickFrom(IndexOfServers(servers, parse).value, protocol, port, domain, path);
            && (picked.None? <==> !SomeFits(servers, protocol, port, domain, path))
            && (picked.Some? ==>
                  exists k: nat, r: nat :: k < |servers| && r < |servers[k].routes|
                    && FileBest(servers, protocol, port, domain, path, k, r)
                    && BuiltFrom(picked.value, servers[k].routes[r], parse))
  {
    hide RoutesOf, TrimSpace, PathHasPrefix, BuiltFrom, Best, Scan, FileBest, SomeFits, IndexOfServers;
    IndexIsScan(servers, parse, protocol, port, domain);
    ServersHaveRoutes(servers, parse);
    var k, r := ScanIsFileBest(servers, parse, protocol, port, domain, path);
  }
}
