/**
 Address forms: net.SplitHostPort and net.JoinHostPort, the Host splitting of
 internal/proxy/target.go and the nameserver entries of internal/dns/resolver.go.
 */
module HostPort {
  import opened GoText

  datatype Address = Address(host: string, port: string)

  const MAX_PORT := 65535

  /** net.SplitHostPort: None is any of its errors. */
  function SplitHostPort(s: string): Option<Address> {
    var i := AfterLast(s, ':');
    if i == 0 then None
    else if s[0] == '[' then
      var end := IndexOf(s, ']');
      if end == |s| || end + 1 != i - 1 || '[' in s[1..] || ']' in s[end + 1..] then None
      else Some(Address(s[1..end], s[i..]))
    else if ':' in s[..i - 1] || '[' in s || ']' in s then None
    else Some(Address(s[..i - 1], s[i..]))
  }

  function JoinHostPort(host: string, port: string): string {
    if ':' in host then "[" + host + "]:" + port else host + ":" + port
  }

  predicate BracketFree(s: string) {
    '[' !in s && ']' !in s
  }

  lemma AfterLastAt(s: string, c: char, i: nat)
    requires i < |s| && s[i] == c
    requires forall j :: i < j < |s| ==> s[j] != c
    ensures AfterLast(s, c) == i + 1
  {
  }

  lemma IndexOfAt(s: string, c: char, i: nat)
    requires i < |s| && s[i] == c
    requires forall j :: 0 <= j < i ==> s[j] != c
    ensures IndexOf(s, c) == i
  {
  }

  lemma SplitPlain(host: string, port: string)
    requires BracketFree(host) && BracketFree(port) && ':' !in port && ':' !in host
    ensures SplitHostPort(host + ":" + port) == Some(Address(host, port))
  {
    var s := host + ":" + port;
    AfterLastAt(s, ':', |host|);
    assert s[..|host|] == host && s[|host| + 1..] == port;
  }

  lemma SplitBracketed(host: string, port: string)
    requires BracketFree(host) && BracketFree(port) && ':' !in port
    ensures SplitHostPort("[" + host + "]:" + port) == Some(Address(host, port))
  {
    hide AfterLast, IndexOf;
    var s := "[" + host + "]:" + port;
    var end := |host| + 1;
    assert s[end] == ']' && s[end + 1] == ':';
    assert s[end + 2..] == port;
    AfterLastAt(s, ':', end + 1);
    assert s[1..end] == host;
    IndexOfAt(s, ']', end);
    assert s[1..] == host + "]:" + port;
    assert s[end + 1..] == ":" + port;
  }

  /** Splitting undoes joining for a host without brackets and a port that is plain text. */
  lemma SplitJoined(host: string, port: string)
    requires BracketFree(host) && BracketFree(port) && ':' !in port
    ensures SplitHostPort(JoinHostPort(host, port)) == Some(Address(host, port))
  {
    if ':' in host {
      SplitBracketed(host, port);
    } else {
      SplitPlain(host, port);
    }
  }

  /** What splits has a host without brackets. */
  lemma SplitHostIsBracketFree(s: string)
    requires SplitHostPort(s).Some?
    ensures BracketFree(SplitHostPort(s).value.host)
  {
    var i := AfterLast(s, ':');
    if s[0] == '[' {
      var end := IndexOf(s, ']');
      assert forall c :: c in s[1..end] ==> c in s[1..];
    }
  }

  /** What may stand for a host and a port: the host in brackets, or plain if it has no colon. */
  predicate StandsFor(s: string, host: string, port: string) {
    && BracketFree(host) && BracketFree(port) && ':' !in port
    && (s == "[" + host + "]:" + port || (':' !in host && s == host + ":" + port))
  }

  /** A text splits exactly if it stands for a host and a port, and then into these. */
  lemma SplitIff(s: string, host: string, port: string)
    ensures SplitHostPort(s) == Some(Address(host, port)) <==> StandsFor(s, host, port)
  {
    if SplitHostPort(s) == Some(Address(host, port)) {
      SplitStandsFor(s);
    }
    if StandsFor(s, host, port) {
      if s == "[" + host + "]:" + port {
        SplitBracketed(host, port);
      } else {
        SplitPlain(host, port);
      }
    }
  }

  lemma SplitStandsFor(s: string)
    requires SplitHostPort(s).Some?
    ensures StandsFor(s, SplitHostPort(s).value.host, SplitHostPort(s).value.port)
  {
    SplitHostIsBracketFree(s);
    var i := AfterLast(s, ':');
    if s[0] == '[' {
      var end := IndexOf(s, ']');
      hide AfterLast, IndexOf;
      assert forall c :: c in s[i..] ==> c in s[1..] && c in s[end + 1..];
      assert s == "[" + s[1..end] + "]:" + s[i..];
    } else {
      hide AfterLast;
      assert forall c :: c in s[i..] || c in s[..i - 1] ==> c in s;
      assert s == s[..i - 1] + ":" + s[i..];
    }
  }

  /** Joining is one of these forms, with brackets only where a colon asks for them. */
  lemma JoinedIff(host: string, port: string)
    requires BracketFree(host) && BracketFree(port) && ':' !in port
    ensures StandsFor(JoinHostPort(host, port), host, port)
    ensures '[' in JoinHostPort(host, port) <==> ':' in host
  {
    SplitJoined(host, port);
    SplitIff(JoinHostPort(host, port), host, port);
    if ':' in host {
      assert JoinHostPort(host, port)[0] == '[';
    }
  }

  // ---------------------------------------------------------------------------------------------
  // internal/proxy/target.go
  // ---------------------------------------------------------------------------------------------

  function TrimIPv6Brackets(host: string): string {
    if |host| >= 2 && host[0] == '[' && host[|host| - 1] == ']' then host[1..|host| - 1] else host
  }

  function HostAndPort(host: string, fallback: int): (string, int) {
    var split := SplitHostPort(host);
    var name := if split.None? || split.value.host == "" then TrimIPv6Brackets(host) else split.value.host;
    var number := if split.None? then None else Atoi(split.value.port);
    (name, if number.Some? && 1 <= number.value <= MAX_PORT then number.value else fallback)
  }

  lemma DecimalIsPlain(n: nat)
    ensures BracketFree(Itoa(n)) && ':' !in Itoa(n)
  {
    AtoiItoa(n);
  }

  /**
   The name and the port come back from the form the tunnel dials, if and only if the name is not
   empty and has no brackets.
   */
  lemma HostAndPortRecoversIff(name: string, port: nat, fallback: int)
    requires 1 <= port <= MAX_PORT
    ensures HostAndPort(JoinHostPort(name, Itoa(port)), fallback) == (name, port)
       <==> name != "" && BracketFree(name)
  {
    var joined := JoinHostPort(name, Itoa(port));
    AtoiItoa(port);
    DecimalIsPlain(port);
    if BracketFree(name) {
      SplitJoined(name, Itoa(port));
    } else if SplitHostPort(joined).Some? {
      SplitHostIsBracketFree(joined);
      TrimmedEndsInBracket(joined);
    }
  }

  /**
   Without a usable port the fallback stands in: for a plain name, for a name in brackets, and for a
   name with a port that is no number from 1 to 65535.
   */
  lemma HostAndPortFallsBack(name: string, port: string, fallback: int)
    requires name != "" && BracketFree(name) && BracketFree(port) && ':' !in port
    requires Atoi(port).None? || Atoi(port).value < 1 || Atoi(port).value > 65535
    ensures ':' !in name ==> HostAndPort(name, fallback) == (name, fallback)
    ensures HostAndPort("[" + name + "]", fallback) == (name, fallback)
    ensures HostAndPort(JoinHostPort(name, port), fallback) == (name, fallback)
  {
    hide SplitHostPort, JoinHostPort, Atoi;
    if ':' !in name {
      PlainDoesNotSplit(name);
    }
    BracketedDoesNotSplit(name);
    var bracketed := "[" + name + "]";
    assert bracketed[1..|bracketed| - 1] == name;
    assert name[0] in name;
    SplitJoined(name, port);
  }

  lemma PlainDoesNotSplit(name: string)
    requires ':' !in name
    ensures SplitHostPort(name).None?
  {
  }

  lemma BracketedDoesNotSplit(name: string)
    requires BracketFree(name)
    ensures SplitHostPort("[" + name + "]").None?
  {
    var s := "[" + name + "]";
    if SplitHostPort(s).Some? {
      hide SplitHostPort;
      SplitStandsFor(s);
      LastIsPort(s, SplitHostPort(s).value.host, SplitHostPort(s).value.port);
    }
  }

  /** What stands for a host and a port does not end in a bracket. */
  lemma LastIsPort(s: string, host: string, port: string)
    requires StandsFor(s, host, port)
    ensures s != "" && s[|s| - 1] != ']'
  {
    if port != "" {
      assert s[|s| - 1] == port[|port| - 1] && port[|port| - 1] in port;
    } else {
      assert s[|s| - 1] == ':';
    }
  }

  /** What does not split is a name as a whole, without a pair of brackets around it. */
  lemma UnsplitIsName(host: string, fallback: int)
    requires SplitHostPort(host).None?
    ensures HostAndPort(host, fallback).1 == fallback
    ensures (exists name :: host == "[" + name + "]" && HostAndPort(host, fallback).0 == name)
            || (HostAndPort(host, fallback).0 == host && !(exists name :: host == "[" + name + "]"))
  {
    if |host| >= 2 && host[0] == '[' && host[|host| - 1] == ']' {
      assert host == "[" + host[1..|host| - 1] + "]";
    }
  }

  /** What does split is its host, unless that is empty, and its port, unless that is no port number. */
  lemma SplitIsNameAndPort(host: string, name: string, port: string, fallback: int)
    requires StandsFor(host, name, port)
    ensures HostAndPort(host, fallback).0 == if name == "" then host else name
    ensures Atoi(port).Some? && 1 <= Atoi(port).value <= 65535 ==> HostAndPort(host, fallback).1 == Atoi(port).value
    ensures Atoi(port).None? || Atoi(port).value < 1 || Atoi(port).value > 65535 ==> HostAndPort(host, fallback).1 == fallback
  {
    SplitIff(host, name, port);
    LastIsPort(host, name, port);
    hide SplitHostPort, StandsFor, Atoi;
  }

  /** Only a text that ends in a bracket has brackets trimmed. */
  lemma TrimmedEndsInBracket(joined: string)
    ensures TrimIPv6Brackets(joined) == joined || (joined != "" && joined[|joined| - 1] == ']')
  {
  }

  // ---------------------------------------------------------------------------------------------
  // internal/dns/resolver.go: nameserver entries
  // ---------------------------------------------------------------------------------------------

  const DEFAULT_DNS_PORT := "53"

  datatype NameserverError = NotAnIPAddress(entry: string) | PortOutOfRange(entry: string)

  /** `isIP` says whether net.ParseIP accepts a text. */
  function NormalizeNameserver(entry: string, isIP: string -> bool): Result<string, NameserverError> {
    var trimmed := TrimSpace(entry);
    var address := match SplitHostPort(trimmed)
      case Some(split) => split
      case None => Address(trimmed, DEFAULT_DNS_PORT);
    if !isIP(address.host) then Err(NotAnIPAddress(entry))
    else
      var number := Atoi(address.port);
      if number.None? || number.value < 1 || number.value > MAX_PORT then Err(PortOutOfRange(entry))
      else Ok(JoinHostPort(address.host, address.port))
  }

  predicate IsIPByte(c: char) {
    IsDigit(c) || 'a' <= c <= 'f' || 'A' <= c <= 'F' || c == ':' || c == '.'
  }

  /** net.ParseIP accepts nothing but non-empty texts of hex digits, colons and dots. */
  ghost predicate AcceptsOnlyIPText(isIP: string -> bool) {
    forall s :: isIP(s) ==> s != "" && forall i :: 0 <= i < |s| ==> IsIPByte(s[i])
  }

  lemma NumberIsPlain(port: string)
    requires Atoi(port).Some?
    ensures port != "" && BracketFree(port) && ':' !in port && !IsSpace(port[|port| - 1])
  {
    if port[0] == '+' || port[0] == '-' {
      assert port == [port[0]] + port[1..];
      assert IsDigit(port[1..][|port| - 2]);
    }
  }

  lemma JoinedIsTrimmed(host: string, port: string)
    requires host != "" && forall i :: 0 <= i < |host| ==> IsIPByte(host[i])
    requires Atoi(port).Some?
    ensures BracketFree(host) && BracketFree(port) && ':' !in port
    ensures TrimSpace(JoinHostPort(host, port)) == JoinHostPort(host, port)
  {
    NumberIsPlain(port);
    TrimNothing(JoinHostPort(host, port));
  }

  /** An accepted entry is already in the form it is normalized to. */
  lemma NormalizeIsIdempotent(entry: string, isIP: string -> bool)
    requires AcceptsOnlyIPText(isIP)
    requires NormalizeNameserver(entry, isIP).Ok?
    ensures var address := NormalizeNameserver(entry, isIP).value;
            NormalizeNameserver(address, isIP) == Ok(address)
  {
    var trimmed := TrimSpace(entry);
    var address := match SplitHostPort(trimmed)
      case Some(split) => split
      case None => Address(trimmed, DEFAULT_DNS_PORT);
    JoinedIsTrimmed(address.host, address.port);
    SplitJoined(address.host, address.port);
    hide SplitHostPort, JoinHostPort, TrimSpace, Atoi, BracketFree;
  }

  /** An entry is accepted exactly for an address with a port from 1 to 65535, the port 53 if it has none. */
  ghost predicate NamesServer(trimmed: string, host: string, port: string, isIP: string -> bool) {
    && isIP(host) && Atoi(port).Some? && 1 <= Atoi(port).value <= 65535
    && (StandsFor(trimmed, host, port)
        || (port == "53" && trimmed == host && forall h, p :: !StandsFor(trimmed, h, p)))
  }

  /** Space around it does not matter, the host and the port stay, and they are joined. */
  lemma NormalizeIff(entry: string, isIP: string -> bool, address: string)
    ensures NormalizeNameserver(entry, isIP) == Ok(address) <==>
            exists host, port :: NamesServer(TrimSpace(entry), host, port, isIP) && address == JoinHostPort(host, port)
  {
    var trimmed := TrimSpace(entry);
    forall host, port
      ensures StandsFor(trimmed, host, port) <==> SplitHostPort(trimmed) == Some(Address(host, port))
    {
      SplitIff(trimmed, host, port);
    }
    hide SplitHostPort, StandsFor, TrimSpace, Atoi, JoinHostPort;
    var split := match SplitHostPort(trimmed)
      case Some(split) => split
      case None => Address(trimmed, "53");
    if NormalizeNameserver(entry, isIP) == Ok(address) {
      assert NamesServer(trimmed, split.host, split.port, isIP);
    }
    assert SplitHostPort(trimmed).Some? ==> StandsFor(trimmed, split.host, split.port);
    if host, port :| NamesServer(trimmed, host, port, isIP) && address == JoinHostPort(host, port) {
      assert split == Address(host, port);
    }
  }

  /** A refused entry is refused for its host first, then for its port, and named in the error. */
  lemma NormalizeRefuses(entry: string, isIP: string -> bool)
    ensures NormalizeNameserver(entry, isIP).Err? ==>
              NormalizeNameserver(entry, isIP).error ==
              if (exists host, port :: StandsFor(TrimSpace(entry), host, port) && isIP(host))
                 || (isIP(TrimSpace(entry)) && forall h, p :: !StandsFor(TrimSpace(entry), h, p))
              then PortOutOfRange(entry) else NotAnIPAddress(entry)
  {
    var trimmed := TrimSpace(entry);
    forall host, port
      ensures StandsFor(trimmed, host, port) <==> SplitHostPort(trimmed) == Some(Address(host, port))
    {
      SplitIff(trimmed, host, port);
    }
    hide SplitHostPort, StandsFor, TrimSpace, Atoi, JoinHostPort;
    if SplitHostPort(trimmed).Some? {
      var split := SplitHostPort(trimmed).value;
      assert StandsFor(trimmed, split.host, split.port);
    }
  }

  function NormalizeNameservers(entries: seq<string>, isIP: string -> bool): Result<seq<string>, NameserverError> {
    if |entries| == 0 then Ok([])
    else match NormalizeNameservers(entries[..|entries| - 1], isIP)
      case Err(e) => Err(e)
      case Ok(addresses) =>
        match NormalizeNameserver(entries[|entries| - 1], isIP)
        case Err(e) => Err(e)
        case Ok(address) => Ok(addresses + [address])
  }

  /** The list is normalized entry by entry, and its error is that of the first entry refused. */
  lemma {:induction false} NormalizedEntryByEntry(entries: seq<string>, isIP: string -> bool)
    ensures var result := NormalizeNameservers(entries, isIP);
            && (result.Ok? ==>
                  && |result.value| == |entries|
                  && forall k :: 0 <= k < |entries| ==> NormalizeNameserver(entries[k], isIP) == Ok(result.value[k]))
            && (result.Err? ==> exists k :: 0 <= k < |entries| && NormalizeNameserver(entries[k], isIP) == Err(result.error)
                                  && forall j :: 0 <= j < k ==> NormalizeNameserver(entries[j], isIP).Ok?)
  {
    hide NormalizeNameserver;
    if |entries| > 0 {
      var n := |entries| - 1;
      NormalizedEntryByEntry(entries[..n], isIP);
      assert forall k :: 0 <= k < n ==> entries[..n][k] == entries[k];
      var before := NormalizeNameservers(entries[..n], isIP);
      if before.Err? {
        var k :| 0 <= k < n && NormalizeNameserver(entries[..n][k], isIP) == Err(before.error)
                   && forall j :: 0 <= j < k ==> NormalizeNameserver(entries[..n][j], isIP).Ok?;
        assert NormalizeNameserver(entries[k], isIP) == Err(before.error);
      }
    }
  }

  /** Feeding back the addresses in use is accepted and changes nothing. */
  lemma {:induction false} NormalizedListIsStable(entries: seq<string>, isIP: string -> bool)
    requires AcceptsOnlyIPText(isIP)
    requires NormalizeNameservers(entries, isIP).Ok?
    ensures var addresses := NormalizeNameservers(entries, isIP).value;
            NormalizeNameservers(addresses, isIP) == Ok(addresses)
  {
    if |entries| > 0 {
      NormalizedListIsStable(entries[..|entries| - 1], isIP);
      NormalizeIsIdempotent(entries[|entries| - 1], isIP);
      var addresses := NormalizeNameservers(entries, isIP).value;
      assert addresses[..|addresses| - 1] == NormalizeNameservers(entries[..|entries| - 1], isIP).value;
    }
  }
}
