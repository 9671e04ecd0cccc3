/**
 From the file to the upstream: a request picked by a table that was built from a configuration goes out
 under the upstream's base with the picked prefix taken off and the rest of its encoding as it came.
 */
module Forwarding {
  import opened GoText
  import opened Urls
  import opened HostPort
  import opened Prefixes
  import opened Targets
  import opened Routes
  import opened Configs
  import opened Rewrite
  import opened Tables
  import Tunnels

  /** A picked route is one of the candidates and matches the path. */
  lemma PickedMatches(index: Index, protocol: string, port: int, domain: string, path: string, route: Route)
    requires PickFrom(index, protocol, port, domain, path) == Some(route)
    ensures PathHasPrefix(path, route.prefix)
    ensures route in Candidates(EntriesOf(index, domain), protocol, port)
  {
    var i := BestIndex(Candidates(EntriesOf(index, domain), protocol, port), path);
  }

  lemma {:induction false} CandidateIsAccepted(entries: seq<Entry>, protocol: string, port: int, route: Route)
    requires forall e :: 0 <= e < |entries| ==> AcceptedEntry(entries[e])
    requires route in Candidates(entries, protocol, port)
    ensures AcceptedRoute(route)
  {
    if |entries| > 0 {
      var last := entries[|entries| - 1];
      assert AcceptedEntry(last);
      if route in Candidates(entries[..|entries| - 1], protocol, port) {
        CandidateIsAccepted(entries[..|entries| - 1], protocol, port, route);
      }
    }
  }

  /**
   Whatever configuration was accepted, whatever the request and whatever the upstream's base: the
   picked route has a prefix on a segment boundary of the path, rewriting does not fail, the decoded path
   that goes out is the base's with the rest of the inbound path, and its encoding is the base's with the
   rest of the inbound encoding, byte for byte, for a prefix without "%" unless the guard gives it up or
   the rest starts with an encoded slash under a base that ends in one.
   */
  lemma PickedRouteForwards(servers: seq<ServerConfig>, parse: Parser, protocol: string, port: int, domain: string,
                            inbound: Url, rawQuery: string, base: Url, route: Route)
    requires IsBytes(inbound.path) && IsBytes(base.path)
    requires IndexOfServers(servers, parse).Ok?
    requires PickFrom(IndexOfServers(servers, parse).value, protocol, port, domain, inbound.path) == Some(route)
    ensures AcceptedRoute(route) && PathHasPrefix(inbound.path, route.prefix)
    ensures var out, rest := OutboundURL(inbound, rawQuery, route.prefix, base), TrimPrefix(EscapedPath(inbound), route.prefix);
            && out.Some?
            && out.value.path == SingleJoiningSlash(base.path, TrimPrefix(inbound.path, route.prefix))
            && Unescape(EscapedPath(out.value)) == Some(out.value.path)
            && ('%' !in route.prefix && !EncodedPrefixMissing(inbound, route.prefix)
                && !(HasSuffix(base.path, "/") && StartsWithEncodedSlash(rest)) ==>
                  EscapedPath(out.value) == JoinEncoded(inbound, route.prefix, base))
  {
    hide Unescape, EscapedPath, IndexOfServers, PickFrom, OutboundURL, JoinEncoded, PathHasPrefix, IsBytes;
    var index := IndexOfServers(servers, parse).value;
    PickedMatches(index, protocol, port, domain, inbound.path, route);
    BuiltTablesAreAccepted(servers, parse);
    CandidateIsAccepted(EntriesOf(index, domain), protocol, port, route);
    PickedIsAligned(inbound, route.prefix);
    OutboundEncoding(inbound, rawQuery, route.prefix, base);
  }

  predicate HasEntry(index: Index, protocol: string, port: int, domain: string) {
    exists i :: 0 <= i < |EntriesOf(index, domain)| && Matches(EntriesOf(index, domain)[i], protocol, port)
  }

  /** serveConnect's choice for a CONNECT target. */
  function ChoiceFor(index: Index, protocol: string, port: int, domain: string, hasAuthority: bool, written: bool): Tunnels.Choice {
    if !HasEntry(index, protocol, port, domain) then Tunnels.Relay
    else if !hasAuthority then Tunnels.NoCertificate
    else if !written then Tunnels.WriteFailed
    else Tunnels.Intercept
  }

  /** The choice falls among those for an intercepted target exactly when some server of the file has the target. */
  lemma ConnectChoiceIff(servers: seq<ServerConfig>, parse: Parser, protocol: string, port: int, domain: string,
                         hasAuthority: bool, written: bool)
    requires IndexOfServers(servers, parse).Ok?
    ensures var choice := ChoiceFor(IndexOfServers(servers, parse).value, protocol, port, domain, hasAuthority, written);
            var served := exists k :: 0 <= k < |servers| && Serves(servers[k], protocol, port, domain);
            && (choice == Tunnels.Relay <==> !served)
            && (choice == Tunnels.NoCertificate <==> served && !hasAuthority)
            && (choice == Tunnels.WriteFailed <==> served && hasAuthority && !written)
            && (choice == Tunnels.Intercept <==> served && hasAuthority && written)
  {
    HasEntryIffServed(servers, parse, protocol, port, domain);
    hide HasEntry, IndexOfServers, Serves;
  }

  /** The index has an entry for a target exactly when some server of the file serves it. */
  lemma HasEntryIffServed(servers: seq<ServerConfig>, parse: Parser, protocol: string, port: int, domain: string)
    requires IndexOfServers(servers, parse).Ok?
    ensures HasEntry(IndexOfServers(servers, parse).value, protocol, port, domain)
       <==> exists k :: 0 <= k < |servers| && Serves(servers[k], protocol, port, domain)
  {
    hide IndexOfServers, TrimSpace, ToLower, RoutesOf, EntriesOf;
    var entries := EntriesOf(IndexOfServers(servers, parse).value, domain);
    forall k | 0 <= k < |servers| && Serves(servers[k], protocol, port, domain)
      ensures HasEntry(IndexOfServers(servers, parse).value, protocol, port, domain)
    {
      EntriesAreServers(servers, parse, domain, EntryFor(servers[k], parse));
      var i :| 0 <= i < |entries| && entries[i] == EntryFor(servers[k], parse);
      assert Matches(entries[i], protocol, port);
    }
    forall i | 0 <= i < |entries| && Matches(entries[i], protocol, port)
      ensures exists k :: 0 <= k < |servers| && Serves(servers[k], protocol, port, domain)
    {
      EntriesAreServers(servers, parse, domain, entries[i]);
      var k :| 0 <= k < |servers| && ToLower(TrimSpace(servers[k].domain)) == domain && EntryFor(servers[k], parse) == entries[i];
      assert Serves(servers[k], protocol, port, domain);
    }
  }

  /**
   A CONNECT to a target for which some path is routed is never relayed past its routes; it is
   intercepted as soon as there is an authority and the answer can be written.
   */
  lemma RoutedTargetIsIntercepted(index: Index, protocol: string, port: int, domain: string, path: string,
                                  hasAuthority: bool, written: bool)
    requires PickFrom(index, protocol, port, domain, path).Some?
    ensures ChoiceFor(index, protocol, port, domain, hasAuthority, written) != Tunnels.Relay
    ensures ChoiceFor(index, protocol, port, domain, hasAuthority, written) == Tunnels.NoCertificate <==> !hasAuthority
    ensures ChoiceFor(index, protocol, port, domain, hasAuthority, written) == Tunnels.Intercept <==> hasAuthority && written
  {
    PickImpliesHas(EntriesOf(index, domain), protocol, port, path);
  }

  const DEFAULT_HTTP_PORT := 80
  const DEFAULT_HTTPS_PORT := 443

  datatype Destination = Destination(protocol: string, port: int, domain: string)

  /** targetOf for a request that names its target by a host alone: a CONNECT, or a path with a Host header. */
  function TargetOf(connect: bool, host: string, tls: bool): Destination {
    var protocol := if connect || tls then PROTOCOL_HTTPS else PROTOCOL_HTTP;
    var (name, port) := HostAndPort(host, if protocol == PROTOCOL_HTTPS then DEFAULT_HTTPS_PORT else DEFAULT_HTTP_PORT);
    Destination(protocol, port, ToLower(name))
  }

  /** The server has this name but for the case of letters, and takes the protocol and the port. */
  predicate Answers(server: ServerConfig, protocol: string, port: int, name: string) {
    && SameFold(TrimSpace(server.domain), name)
    && (SameFold(TrimSpace(server.protocol), "") || SameFold(TrimSpace(server.protocol), protocol))
    && (server.port == 0 || server.port == port)
  }

  lemma LowerTexts()
    ensures ToLower("") == "" && ToLower("https") == "https"
  {
  }

  lemma AnswersIsServes(server: ServerConfig, protocol: string, port: int, name: string)
    requires ToLower(protocol) == protocol
    ensures Serves(server, protocol, port, ToLower(name)) <==> Answers(server, protocol, port, name)
  {
    LowerIffSameFold(TrimSpace(server.domain), name);
    LowerIffSameFold(TrimSpace(server.protocol), protocol);
    LowerIffSameFold(TrimSpace(server.protocol), "");
    LowerTexts();
    hide TrimSpace, ToLower, SameFold;
  }

  /** The target of a host with a port, and of a host without one. */
  lemma TargetAsWritten(connect: bool, tls: bool, name: string, port: nat)
    requires name != "" && BracketFree(name) && 1 <= port <= 65535
    ensures var protocol := if connect || tls then "https" else "http";
            && TargetOf(connect, JoinHostPort(name, Itoa(port)), tls) == Destination(protocol, port, ToLower(name))
            && TargetOf(connect, "[" + name + "]", tls) == Destination(protocol, if connect || tls then 443 else 80, ToLower(name))
            && (':' !in name ==>
                  TargetOf(connect, name, tls) == Destination(protocol, if connect || tls then 443 else 80, ToLower(name)))
  {
    var fallback := if connect || tls then 443 else 80;
    HostAndPortRecoversIff(name, port, fallback);
    HostAndPortFallsBack(name, "", fallback);
    hide HostAndPort, JoinHostPort, ToLower, BracketFree;
  }

  /**
   A CONNECT to a host and a port is relayed if and only if no server of the file has that name, the
   case of letters aside, for https and the port; otherwise it gets a 502 without an authority, and with
   one it is intercepted once the answer has been written.
   */
  lemma ConnectByConfiguration(servers: seq<ServerConfig>, parse: Parser, name: string, port: nat, hasAuthority: bool, written: bool)
    requires IndexOfServers(servers, parse).Ok?
    requires name != "" && BracketFree(name) && 1 <= port <= 65535
    ensures var target := TargetOf(true, JoinHostPort(name, Itoa(port)), false);
            var index := IndexOfServers(servers, parse).value;
            var choice := ChoiceFor(index, target.protocol, target.port, target.domain, hasAuthority, written);
            var answered := exists k :: 0 <= k < |servers| && Answers(servers[k], "https", port, name);
            && (choice == Tunnels.Relay <==> !answered)
            && (choice == Tunnels.NoCertificate <==> answered && !hasAuthority)
            && (choice == Tunnels.WriteFailed <==> answered && hasAuthority && !written)
            && (choice == Tunnels.Intercept <==> answered && hasAuthority && written)
  {
    TargetAsWritten(true, false, name, port);
    LowerTexts();
    hide TargetOf, IndexOfServers, Answers, Serves, ChoiceFor, ToLower, BracketFree, JoinHostPort, Itoa;
    ConnectChoiceIff(servers, parse, "https", port, ToLower(name), hasAuthority, written);
    forall k | 0 <= k < |servers|
      ensures Serves(servers[k], "https", port, ToLower(name)) <==> Answers(servers[k], "https", port, name)
    {
      AnswersIsServes(servers[k], "https", port, name);
    }
  }
}
