/**
 The sequential parts of internal/dns/resolver.go: which answer a lookup gives, the order of its
 addresses, and which connection a dial returns. DNS servers and sockets are oracles: an answer per
 server asked, an attempt per address dialled. `net.IPAddr` is its text and whether it is IPv4.
 */
module Resolvers {
  import opened GoText
  import opened HostPort

  datatype IP = IP(text: string, v4: bool)

  datatype DialError =
    | ServerFailed(reason: string)
    | NoAddresses(host: string)
    | ContextDone(reason: string)
    | ConnectFailed(reason: string)

  /** What one DNS server says. */
  datatype Answer = Addresses(ips: seq<IP>) | NoAnswer(reason: string)

  /** The two results of a resolution; no targets and no error is Go's (nil, nil). */
  datatype Found = Found(targets: seq<string>, err: Option<DialError>)

  datatype Attempt = Connected(conn: nat) | Refused(reason: string)

  datatype Dialed = Dialed(conn: Option<nat>, err: Option<DialError>)

  // ---------------------------------------------------------------------------------------------
  // Order of the addresses
  // ---------------------------------------------------------------------------------------------

  /** The comparison handed to slices.SortStableFunc. */
  function Compare(a: IP, b: IP): int {
    if a.v4 == b.v4 then 0 else if a.v4 then -1 else 1
  }

  /** The order a stable sort gives two elements of its result. */
  ghost predicate Before(sorted: seq<IP>, from: seq<nat>, k: nat, l: nat)
    requires k < l < |sorted| == |from|
  {
    Compare(sorted[k], sorted[l]) < 0 || (Compare(sorted[k], sorted[l]) == 0 && from[k] < from[l])
  }

  /** What a stable sort promises: `from` says where each element came from. */
  ghost predicate StableSort(ips: seq<IP>, sorted: seq<IP>, from: seq<nat>) {
    && |sorted| == |from| == |ips|
    && (forall k :: 0 <= k < |from| ==> from[k] < |ips| && sorted[k] == ips[from[k]])
    && (forall x: nat :: x < |ips| ==> x in from)
    && (forall k, l :: 0 <= k < l < |from| ==> Before(sorted, from, k, l))
  }

  /** The addresses of one family, in their order. */
  function OfFamily(ips: seq<IP>, v4: bool): seq<IP> {
    if |ips| == 0 then []
    else
      var last := ips[|ips| - 1];
      OfFamily(ips[..|ips| - 1], v4) + if last.v4 == v4 then [last] else []
  }

  function V4First(ips: seq<IP>): seq<IP> {
    OfFamily(ips, true) + OfFamily(ips, false)
  }

  lemma {:induction false} FamilySize(ips: seq<IP>)
    ensures |V4First(ips)| == |ips|
    ensures forall k :: 0 <= k < |OfFamily(ips, true)| ==> OfFamily(ips, true)[k].v4
    ensures forall k :: 0 <= k < |OfFamily(ips, false)| ==> !OfFamily(ips, false)[k].v4
  {
    if |ips| > 0 {
      FamilySize(ips[..|ips| - 1]);
    }
  }

  lemma NoFamily()
    ensures OfFamily([], true) == [] && OfFamily([], false) == []
  {
  }

  lemma FamilySnoc(ips: seq<IP>)
    requires |ips| > 0
    ensures var rest, last := ips[..|ips| - 1], ips[|ips| - 1];
            && OfFamily(ips, last.v4) == OfFamily(rest, last.v4) + [last]
            && OfFamily(ips, !last.v4) == OfFamily(rest, !last.v4)
  {
  }

  /** No address is lost and none is made up. */
  lemma {:induction false} V4FirstPermutes(ips: seq<IP>)
    ensures multiset(V4First(ips)) == multiset(ips)
  {
    hide OfFamily;
    if |ips| == 0 {
      NoFamily();
    } else {
      var rest, last := ips[..|ips| - 1], ips[|ips| - 1];
      V4FirstPermutes(rest);
      FamilySnoc(ips);
      assert ips == rest + [last];
      assert multiset(V4First(rest)) == multiset(OfFamily(rest, true)) + multiset(OfFamily(rest, false));
      assert multiset(V4First(ips)) == multiset(OfFamily(ips, true)) + multiset(OfFamily(ips, false));
    }
  }

  function Without<T>(s: seq<T>, q: nat): seq<T>
    requires q < |s|
  {
    s[..q] + s[q + 1..]
  }

  /** Taking the last address away leaves a stable sort of the others. */
  lemma StableSortWithoutLast(ips: seq<IP>, sorted: seq<IP>, from: seq<nat>, q: nat)
    requires StableSort(ips, sorted, from) && q < |from| && from[q] == |ips| - 1
    ensures StableSort(ips[..|ips| - 1], Without(sorted, q), Without(from, q))
  {
    var rest, left := Without(from, q), Without(sorted, q);
    forall k | 0 <= k < |rest|
      ensures rest[k] < |ips| - 1 && left[k] == ips[rest[k]]
    {
      if k < q {
        assert Before(sorted, from, k, q);
      } else {
        assert Before(sorted, from, q, k + 1);
      }
    }
    forall x: nat | x < |ips| - 1
      ensures x in rest
    {
      assert x in from;
      var k :| 0 <= k < |from| && from[k] == x;
      assert rest[if k < q then k else k - 1] == x;
    }
    forall k, l | 0 <= k < l < |rest|
      ensures Before(left, rest, k, l)
    {
      assert Before(sorted, from, if k < q then k else k + 1, if l < q then l else l + 1);
    }
  }

  /** The last address comes after the IPv4 addresses, and is followed by others only if it is IPv4. */
  lemma PlaceOfLast(ips: seq<IP>, sorted: seq<IP>, from: seq<nat>, q: nat)
    requires StableSort(ips, sorted, from) && q < |from| && from[q] == |ips| - 1
    ensures sorted[q] == ips[|ips| - 1]
    ensures !sorted[q].v4 ==> q == |sorted| - 1
    ensures sorted[q].v4 ==> forall k :: 0 <= k < q ==> sorted[k].v4
    ensures forall k :: q < k < |sorted| ==> !sorted[k].v4
  {
    forall k | q < k < |sorted|
      ensures sorted[q].v4 && !sorted[k].v4
    {
      assert Before(sorted, from, q, k);
    }
    if q < |sorted| - 1 {
      assert Before(sorted, from, q, |sorted| - 1);
    }
    forall k | 0 <= k < q
      ensures sorted[q].v4 ==> sorted[k].v4
    {
      assert Before(sorted, from, k, q);
    }
  }

  /** There is one stable sort: the IPv4 addresses in their order, then the others in theirs. */
  lemma {:induction false} StableSortIsV4First(ips: seq<IP>, sorted: seq<IP>, from: seq<nat>)
    requires StableSort(ips, sorted, from)
    ensures sorted == V4First(ips)
  {
    if |ips| > 0 {
      hide StableSort, Compare;
      var n := |ips| - 1;
      var q := PositionOf(ips, sorted, from);
      StableSortWithoutLast(ips, sorted, from, q);
      StableSortIsV4First(ips[..n], Without(sorted, q), Without(from, q));
      FamilySize(ips[..n]);
      PlaceOfLast(ips, sorted, from, q);
      Reinsert(sorted, q, OfFamily(ips[..n], true), OfFamily(ips[..n], false));
    }
  }

  /** IPv4 stands before the rest, and within a family the order of the answer stays. */
  lemma StableSortInOrder(ips: seq<IP>, sorted: seq<IP>, from: seq<nat>)
    requires StableSort(ips, sorted, from)
    ensures forall k, l :: 0 <= k < l < |sorted| ==> (sorted[l].v4 ==> sorted[k].v4)
    ensures forall k, l :: 0 <= k < l < |sorted| && sorted[k].v4 == sorted[l].v4 ==> from[k] < from[l]
  {
    forall k, l | 0 <= k < l < |sorted|
      ensures sorted[l].v4 ==> sorted[k].v4
      ensures sorted[k].v4 == sorted[l].v4 ==> from[k] < from[l]
    {
      assert Before(sorted, from, k, l);
    }
  }

  lemma PositionOf(ips: seq<IP>, sorted: seq<IP>, from: seq<nat>) returns (q: nat)
    requires StableSort(ips, sorted, from) && |ips| > 0
    ensures |sorted| == |from| == |ips| && q < |from| && from[q] == |ips| - 1
  {
    assert |ips| - 1 in from;
    q :| q < |from| && from[q] == |ips| - 1;
  }

  /** IPv4 addresses followed by others: there is one place where they meet. */
  lemma SamePlace(ips: seq<IP>, a: nat, b: nat)
    requires a <= |ips| && b <= |ips|
    requires forall k :: 0 <= k < |ips| ==> (ips[k].v4 <==> k < a)
    requires forall k :: 0 <= k < |ips| ==> (ips[k].v4 <==> k < b)
    ensures a == b
  {
    var k := if a < b then a else b;
    if k < |ips| {
      var ip := ips[k];
    }
  }

  lemma Reinsert(sorted: seq<IP>, q: nat, four: seq<IP>, six: seq<IP>)
    requires q < |sorted| && Without(sorted, q) == four + six
    requires !sorted[q].v4 ==> q == |sorted| - 1
    requires sorted[q].v4 ==> forall k :: 0 <= k < q ==> sorted[k].v4
    requires forall k :: q < k < |sorted| ==> !sorted[k].v4
    requires forall k :: 0 <= k < |four| ==> four[k].v4
    requires forall k :: 0 <= k < |six| ==> !six[k].v4
    ensures sorted == if sorted[q].v4 then (four + [sorted[q]]) + six else four + (six + [sorted[q]])
  {
    var rest := Without(sorted, q);
    assert rest[..q] == sorted[..q] && rest[q..] == sorted[q + 1..];
    assert sorted == rest[..q] + [sorted[q]] + rest[q..];
    if sorted[q].v4 {
      SamePlace(rest, q, |four|);
      assert rest[..q] == four && rest[q..] == six;
    }
  }

  function Targets(ips: seq<IP>, port: string): (targets: seq<string>)
    ensures |targets| == |ips|
  {
    FamilySize(ips);
    var sorted := V4First(ips);
    seq(|sorted|, k requires 0 <= k < |sorted| => JoinHostPort(sorted[k].text, port))
  }

  /**
   Whatever stable sort is used: a target per address, in the order of the sort, and each splits into the
   address's text and the port, in brackets if and only if the text has a colon.
   */
  lemma TargetsSplit(ips: seq<IP>, port: string, sorted: seq<IP>, from: seq<nat>)
    requires StableSort(ips, sorted, from)
    requires BracketFree(port) && ':' !in port
    requires forall k :: 0 <= k < |ips| ==> BracketFree(ips[k].text)
    ensures |Targets(ips, port)| == |sorted| == |ips|
    ensures forall k :: 0 <= k < |ips| ==>
              && SplitHostPort(Targets(ips, port)[k]) == Some(Address(sorted[k].text, port))
              && ('[' in Targets(ips, port)[k] <==> ':' in sorted[k].text)
  {
    StableSortIsV4First(ips, sorted, from);
    hide SplitHostPort, JoinHostPort, StandsFor, BracketFree, V4First;
    forall k | 0 <= k < |ips|
      ensures SplitHostPort(Targets(ips, port)[k]) == Some(Address(sorted[k].text, port))
      ensures '[' in Targets(ips, port)[k] <==> ':' in sorted[k].text
    {
      assert sorted[k] == ips[from[k]];
      SplitJoined(sorted[k].text, port);
      JoinedIff(sorted[k].text, port);
    }
  }

  method FormatTargets(ips: seq<IP>, port: string) returns (targets: seq<string>)
    ensures targets == Targets(ips, port)
  {
    FamilySize(ips);
    var sorted := V4First(ips);
    targets := [];
    for i := 0 to |sorted|
      invariant targets == Targets(ips, port)[..i]
    {
      targets := targets + [JoinHostPort(sorted[i].text, port)];
    }
  }

  // ---------------------------------------------------------------------------------------------
  // Servers
  // ---------------------------------------------------------------------------------------------

  datatype Server = System | At(address: string)

  /** Whom a lookup asks, in order: the configured servers, or the system when there are none. */
  function ServersOf(addresses: seq<string>): (servers: seq<Server>)
    ensures |servers| >= 1
  {
    if |addresses| == 0 then [System] else seq(|addresses|, k requires 0 <= k < |addresses| => At(addresses[k]))
  }

  /** One server per address in their order, and the system's if there is none. */
  lemma ServersInOrder(addresses: seq<string>)
    ensures addresses == [] ==> ServersOf(addresses) == [System]
    ensures addresses != [] ==>
              |ServersOf(addresses)| == |addresses|
              && forall k :: 0 <= k < |addresses| ==> ServersOf(addresses)[k] == At(addresses[k])
  {
  }

  method BuildResolvers(addresses: seq<string>) returns (servers: seq<Server>)
    ensures servers == ServersOf(addresses)
  {
    if |addresses| == 0 {
      return [System];
    }
    servers := [];
    for i := 0 to |addresses|
      invariant servers == ServersOf(addresses)[..i]
    {
      servers := servers + [At(addresses[i])];
    }
  }

  method NormalizeEntries(entries: seq<string>, isIP: string -> bool)
    returns (result: Result<seq<string>, NameserverError>)
    ensures result == NormalizeNameservers(entries, isIP)
  {
    var addresses: seq<string> := [];
    for i := 0 to |entries|
      invariant NormalizeNameservers(entries[..i], isIP) == Ok(addresses)
    {
      assert entries[..i + 1][..i] == entries[..i];
      match NormalizeNameserver(entries[i], isIP) {
        case Err(e) =>
          NormalizeStopsAt(entries, i + 1, isIP);
          return Err(e);
        case Ok(address) =>
          addresses := addresses + [address];
      }
    }
    assert entries[..|entries|] == entries;
    return Ok(addresses);
  }

  /** The first bad entry decides. */
  lemma {:induction false} NormalizeStopsAt(entries: seq<string>, n: nat, isIP: string -> bool)
    requires n <= |entries| && NormalizeNameservers(entries[..n], isIP).Err?
    ensures NormalizeNameservers(entries, isIP) == NormalizeNameservers(entries[..n], isIP)
  {
    hide NormalizeNameserver;
    if n < |entries| {
      assert entries[..|entries| - 1][..n] == entries[..n];
      NormalizeStopsAt(entries[..|entries| - 1], n, isIP);
    } else {
      assert entries[..n] == entries;
    }
  }

  // ---------------------------------------------------------------------------------------------
  // Failover
  // ---------------------------------------------------------------------------------------------

  predicate Useful(answer: Answer) {
    answer.Addresses? && |answer.ips| > 0
  }

  function ErrorOf(answer: Answer, host: string): DialError {
    match answer
    case Addresses(_) => NoAddresses(host)
    case NoAnswer(reason) => ServerFailed(reason)
  }

  /** The answer of the first server that gives an address, or the error of the last one. */
  ghost predicate IsResolution(answers: seq<Answer>, host: string, port: string, found: Found) {
    if exists k :: 0 <= k < |answers| && Useful(answers[k]) then
      exists k :: 0 <= k < |answers| && Useful(answers[k]) && (forall j :: 0 <= j < k ==> !Useful(answers[j]))
                  && found == Found(Targets(answers[k].ips, port), None)
    else
      found == Found([], if answers == [] then None else Some(ErrorOf(answers[|answers| - 1], host)))
  }

  function Resolution(answers: seq<Answer>, host: string, port: string): (found: Found)
    ensures IsResolution(answers, host, port, found)
  {
    if |answers| == 0 then Found([], None)
    else
      var rest := Resolution(answers[..|answers| - 1], host, port);
      var last := answers[|answers| - 1];
      assert forall k :: 0 <= k < |answers| - 1 ==> answers[..|answers| - 1][k] == answers[k];
      if rest.targets != [] then rest
      else if Useful(last) then Found(Targets(last.ips, port), None)
      else Found([], Some(ErrorOf(last, host)))
  }

  method Resolve(answers: seq<Answer>, host: string, port: string) returns (found: Found)
    ensures IsResolution(answers, host, port, found)
  {
    var lastError: Option<DialError> := None;
    for i := 0 to |answers|
      invariant forall j :: 0 <= j < i ==> !Useful(answers[j])
      invariant lastError == if i == 0 then None else Some(ErrorOf(answers[i - 1], host))
    {
      if answers[i].Addresses? && |answers[i].ips| > 0 {
        var targets := FormatTargets(answers[i].ips, port);
        return Found(targets, None);
      }
      lastError := Some(ErrorOf(answers[i], host));
    }
    return Found([], lastError);
  }

  /** The answers determine the resolution. */
  lemma ResolutionIsUnique(answers: seq<Answer>, host: string, port: string, a: Found, b: Found)
    requires IsResolution(answers, host, port, a) && IsResolution(answers, host, port, b)
    ensures a == b
  {
  }

  /** Addresses or an error, never both and never neither. */
  predicate Sound(found: Found) {
    found.targets != [] <==> found.err.None?
  }

  /** With at least one server to ask, a resolution is addresses or an error. */
  lemma ResolutionIsSound(answers: seq<Answer>, host: string, port: string)
    requires |answers| >= 1
    ensures Sound(Resolution(answers, host, port))
  {
  }

  /** The connection of the first address that accepts one, or the error of the last address. */
  ghost predicate IsDial(attempts: seq<Attempt>, result: Dialed) {
    if exists k :: 0 <= k < |attempts| && attempts[k].Connected? then
      exists k :: 0 <= k < |attempts| && attempts[k].Connected? && (forall j :: 0 <= j < k ==> attempts[j].Refused?)
                  && result == Dialed(Some(attempts[k].conn), None)
    else
      result == Dialed(None, if attempts == [] then None else Some(ConnectFailed(attempts[|attempts| - 1].reason)))
  }

  function DialResult(attempts: seq<Attempt>): (result: Dialed)
    ensures IsDial(attempts, result)
    ensures attempts != [] ==> (result.conn.Some? <==> result.err.None?)
  {
    if |attempts| == 0 then Dialed(None, None)
    else
      var rest := DialResult(attempts[..|attempts| - 1]);
      assert forall k :: 0 <= k < |attempts| - 1 ==> attempts[..|attempts| - 1][k] == attempts[k];
      if rest.conn.Some? then rest
      else match attempts[|attempts| - 1]
        case Connected(conn) => Dialed(Some(conn), None)
        case Refused(reason) => Dialed(None, Some(ConnectFailed(reason)))
  }

  method ConnectAny(attempts: seq<Attempt>) returns (result: Dialed)
    ensures IsDial(attempts, result)
  {
    var lastError: Option<DialError> := None;
    for i := 0 to |attempts|
      invariant forall j :: 0 <= j < i ==> attempts[j].Refused?
      invariant lastError == if i == 0 then None else Some(ConnectFailed(attempts[i - 1].reason))
    {
      match attempts[i] {
        case Connected(conn) => return Dialed(Some(conn), None);
        case Refused(reason) => lastError := Some(ConnectFailed(reason));
      }
    }
    return Dialed(None, lastError);
  }

  lemma DialIsUnique(attempts: seq<Attempt>, a: Dialed, b: Dialed)
    requires IsDial(attempts, a) && IsDial(attempts, b)
    ensures a == b
  {
  }
}
