/**
 The table object of internal/route/route.go: entries are added while a configuration is read, and
 from then on it is only asked.
 */
module Tables {
  import opened GoText
  import opened Ordering
  import opened Prefixes
  import opened Targets
  import opened Routes
  import opened Fingerprints

  /** Whether the entries hold one for this very protocol and port. */
  predicate Occupied(entries: seq<Entry>, protocol: string, port: int) {
    exists i :: 0 <= i < |entries| && entries[i].protocol == protocol && entries[i].port == port
  }

  class Table {
    var byDomain: Index

    constructor ()
      ensures byDomain == map[]
    {
      byDomain := map[];
    }

    method Add(domain: string, entry: Entry, routes: seq<Route>) returns (error: Option<DuplicateEntry>)
      modifies this
      ensures error.Some? <==> Occupied(old(EntriesOf(byDomain, domain)), entry.protocol, entry.port)
      ensures error.Some? ==> byDomain == old(byDomain)
      ensures error.None? ==>
        byDomain == old(byDomain)[domain := old(EntriesOf(byDomain, domain)) + [entry.(routes := routes)]]
    {
      var existing := EntriesOf(byDomain, domain);
      for i := 0 to |existing|
        invariant !Occupied(existing[..i], entry.protocol, entry.port)
      {
        if existing[i].protocol == entry.protocol && existing[i].port == entry.port {
          return Some(DuplicateEntry(domain, entry.protocol, entry.port));
        }
      }
      assert existing[..|existing|] == existing;
      byDomain := byDomain[domain := existing + [entry.(routes := routes)]];
      return None;
    }

    method Pick(protocol: string, port: int, domain: string, path: string) returns (best: Option<Route>)
      ensures best == PickFrom(byDomain, protocol, port, domain, path)
    {
      best := None;
      var entries := EntriesOf(byDomain, domain);
      for i := 0 to |entries|
        invariant best == Best(Candidates(entries[..i], protocol, port), path)
      {
        CandidatesStep(entries, i, protocol, port);
        ghost var before := Candidates(entries[..i], protocol, port);
        assert before + [] == before;
        if Matches(entries[i], protocol, port) {
          var routes := entries[i].routes;
          for j := 0 to |routes|
            invariant best == Best(before + routes[..j], path)
          {
            BestStep(before, routes, j, path);
            if PathHasPrefix(path, routes[j].prefix) && (best.None? || |routes[j].prefix| > |best.value.prefix|) {
              best := Some(routes[j]);
            }
          }
          assert routes[..|routes|] == routes;
        }
      }
      assert entries[..|entries|] == entries;
    }

    method Has(protocol: string, port: int, domain: string) returns (found: bool)
      ensures found <==> exists i :: 0 <= i < |EntriesOf(byDomain, domain)| && Matches(EntriesOf(byDomain, domain)[i], protocol, port)
    {
      var entries := EntriesOf(byDomain, domain);
      for i := 0 to |entries|
        invariant forall k :: 0 <= k < i ==> !Matches(entries[k], protocol, port)
      {
        if Matches(entries[i], protocol, port) {
          return true;
        }
      }
      return false;
    }

    method Fingerprint() returns (text: string)
      ensures text == Fingerprints.Fingerprint(byDomain)
    {
      text := "";
      var names := SortKeys(byDomain.Keys);
      ghost var domains := DomainsOf(byDomain);
      for i := 0 to |names|
        invariant text == FlatText(domains[..i], DomainText)
      {
        assert names[i] in names;
        var entries := EntriesFingerprint(byDomain[names[i]]);
        text := text + (names[i] + [NUL] + entries);
        FlatTextStep(domains, i, DomainText);
      }
      assert domains[..|domains|] == domains;
    }
  }

  lemma CandidatesStep(entries: seq<Entry>, i: nat, protocol: string, port: int)
    requires i < |entries|
    ensures Candidates(entries[..i + 1], protocol, port)
         == Candidates(entries[..i], protocol, port) + if Matches(entries[i], protocol, port) then entries[i].routes else []
  {
    assert entries[..i + 1][..i] == entries[..i];
  }

  lemma BestStep(before: seq<Route>, routes: seq<Route>, j: nat, path: string)
    requires j < |routes|
    ensures Best(before + routes[..j + 1], path) == Better(Best(before + routes[..j], path), routes[j], path)
  {
    assert (before + routes[..j + 1])[..|before| + j] == before + routes[..j];
  }

  lemma FlatTextStep<T>(items: seq<T>, i: nat, text: T -> string)
    requires i < |items|
    ensures FlatText(items[..i + 1], text) == FlatText(items[..i], text) + text(items[i])
  {
    assert items[..i + 1][..i] == items[..i];
  }

  method EntriesFingerprint(entries: seq<Entry>) returns (text: string)
    ensures text == FlatText(entries, EntryText)
  {
    text := "";
    for j := 0 to |entries|
      invariant text == FlatText(entries[..j], EntryText)
    {
      FlatTextStep(entries, j, EntryText);
      var routes := RoutesFingerprint(entries[j].routes);
      text := text + (entries[j].protocol + [NUL] + Itoa(entries[j].port) + [NUL] + routes);
    }
    assert entries[..|entries|] == entries;
  }

  method RoutesFingerprint(routes: seq<Route>) returns (text: string)
    ensures text == FlatText(routes, RouteText)
  {
    text := "";
    for k := 0 to |routes|
      invariant text == FlatText(routes[..k], RouteText)
    {
      FlatTextStep(routes, k, RouteText);
      var route := RouteFingerprint(routes[k]);
      text := text + route;
    }
    assert routes[..|routes|] == routes;
  }

  method RouteFingerprint(route: Route) returns (text: string)
    ensures text == RouteText(route)
  {
    var request := HeaderFingerprint(route.request);
    var response := HeaderFingerprint(route.response);
    text := Join([route.prefix, SummaryOf(route.target), Itoa(route.status), route.body, route.host,
                  request, response], NUL) + "\n";
  }

  method HeaderFingerprint(headers: map<string, string>) returns (text: string)
    ensures text == HeadersText(headers)
  {
    text := "";
    var keys := SortKeys(headers.Keys);
    ghost var list := HeadersOf(headers);
    for i := 0 to |keys|
      invariant text == FlatText(list[..i], HeaderText)
    {
      assert keys[i] in keys;
      FlatTextStep(list, i, HeaderText);
      text := text + (keys[i] + "=" + headers[keys[i]] + [NUL]);
    }
    assert list[..|list|] == list;
  }

  /** A pick succeeds only where Has says so. */
  lemma {:induction false} PickImpliesHas(entries: seq<Entry>, protocol: string, port: int, path: string)
    requires Best(Candidates(entries, protocol, port), path).Some?
    ensures exists i :: 0 <= i < |entries| && Matches(entries[i], protocol, port)
  {
    if !Matches(entries[|entries| - 1], protocol, port) {
      var before := entries[..|entries| - 1];
      assert Candidates(entries, protocol, port) == Candidates(before, protocol, port);
      PickImpliesHas(before, protocol, port, path);
      var i :| 0 <= i < |before| && Matches(before[i], protocol, port);
      assert entries[i] == before[i];
    }
  }
}
