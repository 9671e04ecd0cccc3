/**
 The route table (internal/route/route.go): virtual servers indexed by domain, filtered by protocol
 and port, and within them the longest prefix on segment boundaries.
 */
module Routes {
  import opened GoText
  import opened Prefixes
  import opened Targets

  datatype Route = Route(
    prefix: string,
    host: string,
    request: map<string, string>,
    response: map<string, string>,
    target: Option<Target>,
    status: int,
    body: string)

  /** A virtual server; an empty protocol and port 0 match anything. */
  datatype Entry = Entry(protocol: string, port: int, routes: seq<Route>)

  type Index = map<string, seq<Entry>>

  datatype DuplicateEntry = DuplicateEntry(domain: string, protocol: string, port: int)

  predicate Matches(entry: Entry, protocol: string, port: int) {
    (entry.protocol == "" || entry.protocol == protocol) && (entry.port == 0 || entry.port == port)
  }

  function EntriesOf(index: Index, domain: string): seq<Entry> {
    if domain in index then index[domain] else []
  }

  /** The routes of the matching entries, in order. */
  function Candidates(entries: seq<Entry>, protocol: string, port: int): seq<Route> {
    if |entries| == 0 then []
    else
      var last := entries[|entries| - 1];
      Candidates(entries[..|entries| - 1], protocol, port)
      + if Matches(last, protocol, port) then last.routes else []
  }

  /** The better of the best so far and one more route. */
  function Better(best: Option<Route>, route: Route, path: string): Option<Route> {
    if PathHasPrefix(path, route.prefix) && (best.None? || |route.prefix| > |best.value.prefix|)
    then Some(route) else best
  }

  function Best(routes: seq<Route>, path: string): Option<Route> {
    if |routes| == 0 then None
    else Better(Best(routes[..|routes| - 1], path), routes[|routes| - 1], path)
  }

  function PickFrom(index: Index, protocol: string, port: int, domain: string, path: string): Option<Route> {
    Best(Candidates(EntriesOf(index, domain), protocol, port), path)
  }

  // ---------------------------------------------------------------------------------------------
  // What the picked route is
  // ---------------------------------------------------------------------------------------------

  /** Route i is the longest match, and the earliest of that length. */
  ghost predicate FirstLongest(routes: seq<Route>, path: string, i: nat) {
    && i < |routes|
    && PathHasPrefix(path, routes[i].prefix)
    && forall j :: 0 <= j < |routes| && PathHasPrefix(path, routes[j].prefix) ==>
         |routes[j].prefix| <= |routes[i].prefix| && (j < i ==> |routes[j].prefix| < |routes[i].prefix|)
  }

  lemma FirstLongestIsUnique(routes: seq<Route>, path: string, i: nat, k: nat)
    requires FirstLongest(routes, path, i) && FirstLongest(routes, path, k)
    ensures i == k
  {
  }

  lemma {:induction false} BestIndex(routes: seq<Route>, path: string) returns (i: nat)
    requires Best(routes, path).Some?
    ensures FirstLongest(routes, path, i) && routes[i] == Best(routes, path).value
  {
    hide PathHasPrefix;
    var before, last := routes[..|routes| - 1], |routes| - 1;
    if Best(before, path).None? {
      NoBest(before, path);
      i := last;
    } else {
      i := BestIndex(before, path);
      if Best(routes, path) != Best(before, path) {
        i := last;
      }
    }
  }

  lemma {:induction false} NoBest(routes: seq<Route>, path: string)
    ensures Best(routes, path).None? <==> forall j :: 0 <= j < |routes| ==> !PathHasPrefix(path, routes[j].prefix)
  {
    if |routes| > 0 {
      NoBest(routes[..|routes| - 1], path);
    }
  }

  /** The best route is the longest match, the earliest of that length, and there is none iff nothing matches. */
  lemma BestIsFirstLongest(routes: seq<Route>, path: string)
    ensures Best(routes, path).None? <==> forall j :: 0 <= j < |routes| ==> !PathHasPrefix(path, routes[j].prefix)
    ensures forall i: nat :: FirstLongest(routes, path, i) ==> Best(routes, path) == Some(routes[i])
    ensures Best(routes, path).Some? ==> exists i: nat :: FirstLongest(routes, path, i)
  {
    NoBest(routes, path);
    if Best(routes, path).Some? {
      var b := BestIndex(routes, path);
      forall i: nat | FirstLongest(routes, path, i)
        ensures i == b
      {
        FirstLongestIsUnique(routes, path, i, b);
      }
    }
  }

  /** Matching prefixes of one length are one prefix, because every prefix starts with a slash. */
  lemma EqualLengthPrefixesAgree(path: string, a: string, b: string)
    requires PathHasPrefix(path, a) && PathHasPrefix(path, b)
    requires HasPrefix(a, "/") && HasPrefix(b, "/")
    requires |a| == |b|
    ensures a == b
  {
  }
}
