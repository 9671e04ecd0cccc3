/**
 The table's fingerprint (Fingerprint, Route.fingerprint and headerFingerprint in
 internal/route/route.go) and a decoder for it.

 Hot reload compares two fingerprints and keeps the old table when they are equal, so it is right only
 if the text determines the table. NUL ends every field; the nested header lists have no length, and a
 route, a server entry and a domain are told apart by looking ahead: what starts with a slash and reads
 as a route is one, an entry is a protocol followed by a number, anything else is a domain.
 */
module Fingerprints {
  import opened GoText
  import opened Ordering
  import opened Targets
  import opened Routes

  const NUL: char := '\0'

  // ---------------------------------------------------------------------------------------------
  // The text
  // ---------------------------------------------------------------------------------------------

  datatype Header = Header(name: string, value: string)

  ghost function HeadersOf(headers: map<string, string>): seq<Header> {
    var names := Sorted(headers.Keys);
    seq(|names|, i requires 0 <= i < |names| => Header(names[i], headers[names[i]]))
  }

  /** Texts one after the other. */
  function FlatText<T>(items: seq<T>, text: T -> string): string {
    if |items| == 0 then "" else FlatText(items[..|items| - 1], text) + text(items[|items| - 1])
  }

  function HeaderText(header: Header): string {
    header.name + "=" + header.value + [NUL]
  }

  ghost function HeadersText(headers: map<string, string>): string {
    FlatText(HeadersOf(headers), HeaderText)
  }

  function SummaryOf(target: Option<Target>): string {
    match target
    case None => ""
    case Some(t) => t.summary
  }

  ghost function RouteText(route: Route): string {
    Join([route.prefix, SummaryOf(route.target), Itoa(route.status), route.body, route.host,
          HeadersText(route.request), HeadersText(route.response)], NUL) + "\n"
  }

  ghost function EntryText(entry: Entry): string {
    entry.protocol + [NUL] + Itoa(entry.port) + [NUL] + FlatText(entry.routes, RouteText)
  }

  datatype Domain = Domain(name: string, entries: seq<Entry>)

  ghost function DomainText(domain: Domain): string {
    domain.name + [NUL] + FlatText(domain.entries, EntryText)
  }

  ghost function DomainsOf(index: Index): seq<Domain> {
    var names := Sorted(index.Keys);
    seq(|names|, i requires 0 <= i < |names| => Domain(names[i], index[names[i]]))
  }

  ghost function Fingerprint(index: Index): string {
    FlatText(DomainsOf(index), DomainText)
  }

  // ---------------------------------------------------------------------------------------------
  // What the text shows of a table
  // ---------------------------------------------------------------------------------------------

  datatype RouteView = RouteView(
    prefix: string, target: string, status: int, body: string, host: string,
    request: seq<Header>, response: seq<Header>)

  datatype EntryView = EntryView(protocol: string, port: int, routes: seq<RouteView>)

  datatype DomainView = DomainView(name: string, entries: seq<EntryView>)

  function Map<S, T>(items: seq<S>, f: S -> T): (mapped: seq<T>)
    ensures |mapped| == |items|
    ensures forall i :: 0 <= i < |items| ==> mapped[i] == f(items[i])
  {
    seq(|items|, i requires 0 <= i < |items| => f(items[i]))
  }

  /** A header as its text shows it: what stands before and after the first equals sign. */
  function Shown(header: Header): Header {
    var token := header.name + "=" + header.value;
    var i := IndexOf(token, '=');
    assert token[|header.name|] == '=';
    Header(token[..i], token[i + 1..])
  }

  /** Two headers are shown alike exactly when their texts are the same. */
  lemma ShownIsText(a: Header, b: Header)
    ensures Shown(a).name + "=" + Shown(a).value == a.name + "=" + a.value
    ensures Shown(a) == Shown(b) <==> a.name + "=" + a.value == b.name + "=" + b.value
  {
    SplitAtEquals(a);
    SplitAtEquals(b);
  }

  lemma SplitAtEquals(header: Header)
    ensures Shown(header).name + "=" + Shown(header).value == header.name + "=" + header.value
    ensures '=' !in Shown(header).name
  {
    var token := header.name + "=" + header.value;
    assert token[|header.name|] == '=';
    var i := IndexOf(token, '=');
    assert token == token[..i] + [token[i]] + token[i + 1..];
  }

  lemma PlainNameIsShown(header: Header)
    requires '=' !in header.name
    ensures Shown(header) == header
  {
    var token := header.name + "=" + header.value;
    assert token[|header.name|] == '=' && forall j :: 0 <= j < |header.name| ==> token[j] == header.name[j];
    assert token[..|header.name|] == header.name && token[|header.name| + 1..] == header.value;
  }

  ghost function ViewHeaders(headers: map<string, string>): seq<Header> {
    Map(HeadersOf(headers), Shown)
  }

  ghost function ViewRoute(route: Route): RouteView {
    RouteView(route.prefix, SummaryOf(route.target), route.status, route.body, route.host,
              ViewHeaders(route.request), ViewHeaders(route.response))
  }

  ghost function ViewEntry(entry: Entry): EntryView {
    EntryView(entry.protocol, entry.port, Map(entry.routes, ViewRoute))
  }

  ghost function ViewDomain(domain: Domain): DomainView {
    DomainView(domain.name, Map(domain.entries, ViewEntry))
  }

  ghost function View(index: Index): seq<DomainView> {
    Map(DomainsOf(index), ViewDomain)
  }

  // ---------------------------------------------------------------------------------------------
  // The same text read from the front: each piece followed by what comes after it
  // ---------------------------------------------------------------------------------------------

  function Field(token: string, tail: string): string {
    token + [NUL] + tail
  }

  function FlatThen<T>(items: seq<T>, thenText: (T, string) -> string, tail: string): string {
    if |items| == 0 then tail else thenText(items[0], FlatThen(items[1..], thenText, tail))
  }

  function HeaderThen(header: Header, tail: string): string {
    Field(header.name + "=" + header.value, tail)
  }

  function HeadersThen(headers: seq<Header>, tail: string): string {
    FlatThen(headers, HeaderThen, tail)
  }

  function RouteThen(route: RouteView, tail: string): string {
    Field(route.prefix, Field(route.target, Field(Itoa(route.status), Field(route.body, Field(route.host,
      HeadersThen(route.request, [NUL] + HeadersThen(route.response, "\n" + tail)))))))
  }

  function EntryThen(entry: EntryView, tail: string): string {
    Field(entry.protocol, Field(Itoa(entry.port), FlatThen(entry.routes, RouteThen, tail)))
  }

  function DomainThen(domain: DomainView, tail: string): string {
    Field(domain.name, FlatThen(domain.entries, EntryThen, tail))
  }

  lemma {:induction false} FlatThenSnoc<T>(items: seq<T>, last: T, thenText: (T, string) -> string, tail: string)
    ensures FlatThen(items + [last], thenText, tail) == FlatThen(items, thenText, thenText(last, tail))
  {
    if |items| > 0 {
      assert (items + [last])[1..] == items[1..] + [last];
      FlatThenSnoc(items[1..], last, thenText, tail);
    }
  }

  /** Pieces that are followed by their continuations one by one are so as a whole. */
  lemma {:induction false} FlatTextThen<S, T>(
      items: seq<S>, text: S -> string, view: S -> T, thenText: (T, string) -> string, tail: string)
    requires forall i, t :: 0 <= i < |items| ==> text(items[i]) + t == thenText(view(items[i]), t)
    ensures FlatText(items, text) + tail == FlatThen(Map(items, view), thenText, tail)
  {
    if |items| > 0 {
      var before, last := items[..|items| - 1], items[|items| - 1];
      FlatTextThen(before, text, view, thenText, text(last) + tail);
      assert Map(items, view) == Map(before, view) + [view(last)];
      FlatThenSnoc(Map(before, view), view(last), thenText, tail);
      assert FlatText(before, text) + (text(last) + tail) == FlatText(items, text) + tail;
    }
  }

  lemma HeadersTextThen(headers: map<string, string>, tail: string)
    ensures HeadersText(headers) + tail == HeadersThen(ViewHeaders(headers), tail)
  {
    hide Shown;
    var hs := HeadersOf(headers);
    forall i, t | 0 <= i < |hs|
      ensures HeaderText(hs[i]) + t == HeaderThen(Shown(hs[i]), t)
    {
      SplitAtEquals(hs[i]);
      assert hs[i].name + "=" + hs[i].value + [NUL] + t == (hs[i].name + "=" + hs[i].value) + [NUL] + t;
    }
    FlatTextThen(hs, HeaderText, Shown, HeaderThen, tail);
  }

  lemma JoinField(first: string, rest: seq<string>, tail: string)
    requires |rest| >= 1
    ensures Join([first] + rest, NUL) + tail == Field(first, Join(rest, NUL) + tail)
  {
    assert ([first] + rest)[1..] == rest;
    assert first + [NUL] + Join(rest, NUL) + tail == first + [NUL] + (Join(rest, NUL) + tail);
  }

  lemma JoinFields(a: string, b: string, c: string, d: string, e: string, f: string, g: string, tail: string)
    ensures Join([a, b, c, d, e, f, g], NUL) + tail
         == Field(a, Field(b, Field(c, Field(d, Field(e, Field(f, g + tail))))))
  {
    JoinField(f, [g], tail);
    JoinField(e, [f] + [g], tail);
    JoinField(d, [e] + ([f] + [g]), tail);
    JoinField(c, [d] + ([e] + ([f] + [g])), tail);
    JoinField(b, [c] + ([d] + ([e] + ([f] + [g]))), tail);
    JoinField(a, [b] + ([c] + ([d] + ([e] + ([f] + [g])))), tail);
    assert [a] + ([b] + ([c] + ([d] + ([e] + ([f] + [g]))))) == [a, b, c, d, e, f, g];
  }

  lemma RouteTextThen(route: Route, tail: string)
    ensures RouteText(route) + tail == RouteThen(ViewRoute(route), tail)
  {
    hide HeadersText, ViewHeaders, HeadersThen, Join, Itoa;
    var end := "\n" + tail;
    var request, response := HeadersText(route.request), HeadersText(route.response);
    var fields := [route.prefix, SummaryOf(route.target), Itoa(route.status), route.body, route.host, request, response];
    assert Join(fields, NUL) + "\n" + tail == Join(fields, NUL) + end;
    JoinFields(route.prefix, SummaryOf(route.target), Itoa(route.status), route.body, route.host,
               request, response, end);
    HeadersTextThen(route.response, end);
    HeadersTextThen(route.request, [NUL] + (response + end));
    assert Field(request, response + end) == request + ([NUL] + (response + end));
  }

  lemma EntryTextThen(entry: Entry, tail: string)
    ensures EntryText(entry) + tail == EntryThen(ViewEntry(entry), tail)
  {
    hide RouteText, RouteThen, ViewRoute, FlatText, FlatThen, Itoa;
    forall i, t | 0 <= i < |entry.routes|
      ensures RouteText(entry.routes[i]) + t == RouteThen(ViewRoute(entry.routes[i]), t)
    {
      RouteTextThen(entry.routes[i], t);
    }
    FlatTextThen(entry.routes, RouteText, ViewRoute, RouteThen, tail);
    var routes := FlatText(entry.routes, RouteText);
    assert entry.protocol + [NUL] + Itoa(entry.port) + [NUL] + routes + tail
        == entry.protocol + [NUL] + (Itoa(entry.port) + [NUL] + (routes + tail));
  }

  lemma DomainTextThen(domain: Domain, tail: string)
    ensures DomainText(domain) + tail == DomainThen(ViewDomain(domain), tail)
  {
    hide EntryText, EntryThen, ViewEntry, FlatText, FlatThen;
    forall i, t | 0 <= i < |domain.entries|
      ensures EntryText(domain.entries[i]) + t == EntryThen(ViewEntry(domain.entries[i]), t)
    {
      EntryTextThen(domain.entries[i], t);
    }
    FlatTextThen(domain.entries, EntryText, ViewEntry, EntryThen, tail);
    var entries := FlatText(domain.entries, EntryText);
    assert domain.name + [NUL] + entries + tail == domain.name + [NUL] + (entries + tail);
  }

  lemma FingerprintThen(index: Index)
    ensures Fingerprint(index) == FlatThen(View(index), DomainThen, "")
  {
    var domains := DomainsOf(index);
    forall i, t | 0 <= i < |domains|
      ensures DomainText(domains[i]) + t == DomainThen(ViewDomain(domains[i]), t)
    {
      DomainTextThen(domains[i], t);
    }
    FlatTextThen(domains, DomainText, ViewDomain, DomainThen, "");
    assert Fingerprint(index) + "" == Fingerprint(index);
  }

  // ---------------------------------------------------------------------------------------------
  // The decoder
  // ---------------------------------------------------------------------------------------------

  /** A value read from the front of a text, and what is left. */
  datatype Read<+T> = Read(value: T, rest: string)

  function NextToken(s: string): (r: Option<Read<string>>)
    ensures r.Some? ==> |r.value.rest| < |s|
  {
    var i := IndexOf(s, NUL);
    if i == |s| then None else Some(Read(s[..i], s[i + 1..]))
  }

  function ReadNumber(s: string): (r: Option<Read<int>>)
    ensures r.Some? ==> |r.value.rest| < |s|
  {
    match NextToken(s)
    case None => None
    case Some(token) =>
      match Atoi(token.value) case None => None case Some(n) => Some(Read(n, token.rest))
  }

  predicate IsProtocol(s: string) {
    s == "" || s == PROTOCOL_HTTP || s == PROTOCOL_HTTPS
  }

  /** Looking two tokens ahead: a protocol and a number open a server entry. */
  predicate StartsEntry(s: string) {
    var token := NextToken(s);
    token.Some? && IsProtocol(token.value.value) && ReadNumber(token.value.rest).Some?
  }

  /** Three tokens ahead: a prefix, a target that begins on its own line, and a status open a route. */
  predicate StartsRoute(s: string) {
    s != "" && s[0] == '/' &&
    var prefix := NextToken(s);
    prefix.Some? &&
    var target := NextToken(prefix.value.rest);
    target.Some? && !HasPrefix(target.value.value, "\n") && ReadNumber(target.value.rest).Some?
  }

  /** A name and an entry open a domain. */
  predicate StartsDomain(s: string) {
    var token := NextToken(s);
    token.Some? && StartsEntry(token.value.rest)
  }

  predicate StartsRecord(s: string) {
    s == "" || StartsRoute(s) || StartsEntry(s) || StartsDomain(s)
  }

  /**
   Where a list of headers ends: at `end`; at a newline only if a record, or nothing, comes next, since
   the name of a response header may itself begin with a newline.
   */
  predicate EndsHere(s: string, end: char) {
    s != "" && s[0] == end && (end == '\n' ==> StartsRecord(s[1..]))
  }

  function ReadHeaders(s: string, end: char): (r: Option<Read<seq<Header>>>)
    ensures r.Some? ==> |r.value.rest| < |s|
  {
    if EndsHere(s, end) then Some(Read([], s[1..]))
    else
      match NextToken(s)
      case None => None
      case Some(token) =>
        var i := IndexOf(token.value, '=');
        if i == |token.value| then None
        else
          match ReadHeaders(token.rest, end)
          case None => None
          case Some(more) => Some(Read([Header(token.value[..i], token.value[i + 1..])] + more.value, more.rest))
  }

  function ReadRoute(s: string): (r: Option<Read<RouteView>>)
    ensures r.Some? ==> |r.value.rest| < |s|
  {
    match NextToken(s) case None => None case Some(prefix) =>
    match NextToken(prefix.rest) case None => None case Some(target) =>
    match ReadNumber(target.rest) case None => None case Some(status) =>
    match NextToken(status.rest) case None => None case Some(body) =>
    match NextToken(body.rest) case None => None case Some(host) =>
    match ReadHeaders(host.rest, NUL) case None => None case Some(request) =>
    match ReadHeaders(request.rest, '\n') case None => None case Some(response) =>
      Some(Read(RouteView(prefix.value, target.value, status.value, body.value, host.value,
                          request.value, response.value), response.rest))
  }

  /** Where a list of routes ends: a domain may begin with a slash as well, but does not read as a route. */
  predicate NoRoute(s: string) {
    s == "" || s[0] != '/' || ReadRoute(s).None?
  }

  function ReadRoutes(s: string): (r: Option<Read<seq<RouteView>>>)
    ensures r.Some? ==> |r.value.rest| <= |s|
    decreases |s|
  {
    if NoRoute(s) then Some(Read([], s))
    else
      match ReadRoute(s) case None => None case Some(route) =>
      match ReadRoutes(route.rest) case None => None case Some(more) =>
        Some(Read([route.value] + more.value, more.rest))
  }

  function ReadEntry(s: string): (r: Option<Read<EntryView>>)
    requires StartsEntry(s)
    ensures r.Some? ==> |r.value.rest| < |s|
  {
    var protocol := NextToken(s).value;
    var port := ReadNumber(protocol.rest).value;
    match ReadRoutes(port.rest) case None => None case Some(routes) =>
      Some(Read(EntryView(protocol.value, port.value, routes.value), routes.rest))
  }

  function ReadEntries(s: string): (r: Option<Read<seq<EntryView>>>)
    ensures r.Some? ==> |r.value.rest| <= |s|
    decreases |s|
  {
    if !StartsEntry(s) then Some(Read([], s))
    else
      match ReadEntry(s) case None => None case Some(entry) =>
      match ReadEntries(entry.rest) case None => None case Some(more) =>
        Some(Read([entry.value] + more.value, more.rest))
  }

  function ReadDomain(s: string): (r: Option<Read<DomainView>>)
    ensures r.Some? ==> |r.value.rest| < |s|
  {
    match NextToken(s) case None => None case Some(name) =>
    match ReadEntries(name.rest) case None => None case Some(entries) =>
      Some(Read(DomainView(name.value, entries.value), entries.rest))
  }

  function Decode(s: string): Option<seq<DomainView>>
    decreases |s|
  {
    if s == "" then Some([])
    else
      match ReadDomain(s) case None => None case Some(domain) =>
      match Decode(domain.rest) case None => None case Some(more) => Some([domain.value] + more)
  }

  // ---------------------------------------------------------------------------------------------
  // Decoding a fingerprint
  // ---------------------------------------------------------------------------------------------

  predicate Plain(s: string) {
    NUL !in s
  }

  predicate CleanHeader(header: Header) {
    Plain(header.name) && Plain(header.value) && '=' !in header.name
  }

  predicate CleanHeaders(headers: seq<Header>) {
    forall i :: 0 <= i < |headers| ==> CleanHeader(headers[i])
  }

  predicate CleanRoute(route: RouteView) {
    && Plain(route.prefix) && HasPrefix(route.prefix, "/")
    && Plain(route.target) && !HasPrefix(route.target, "\n")
    && Plain(route.body) && Plain(route.host)
    && route.status >= 0
    && CleanHeaders(route.request) && CleanHeaders(route.response)
  }

  predicate CleanEntry(entry: EntryView) {
    && IsProtocol(entry.protocol)
    && entry.port >= 0
    && forall i :: 0 <= i < |entry.routes| ==> CleanRoute(entry.routes[i])
  }

  predicate CleanDomain(domain: DomainView) {
    && Plain(domain.name) && domain.name != ""
    && |domain.entries| > 0
    && forall i :: 0 <= i < |domain.entries| ==> CleanEntry(domain.entries[i])
  }

  lemma TokenComesBack(token: string, tail: string)
    requires Plain(token)
    ensures NextToken(Field(token, tail)) == Some(Read(token, tail))
  {
    var s := Field(token, tail);
    assert s[|token|] == NUL;
    assert IndexOf(s, NUL) == |token|;
    assert s[..|token|] == token && s[|token| + 1..] == tail;
  }

  lemma NumberComesBack(n: nat, tail: string)
    ensures ReadNumber(Field(Itoa(n), tail)) == Some(Read(n, tail))
  {
    AtoiItoa(n);
    TokenComesBack(Itoa(n), tail);
  }

  lemma HeaderComesBack(header: Header)
    requires CleanHeader(header)
    ensures var token := header.name + "=" + header.value;
            && Plain(token) && token != "" && '=' in token
            && IndexOf(token, '=') == |header.name|
            && token[..|header.name|] == header.name && token[|header.name| + 1..] == header.value
  {
    var token := header.name + "=" + header.value;
    assert token[|header.name|] == '=';
  }

  lemma SlashStart(s: string, c: char)
    ensures HasPrefix(s, [c]) <==> s != "" && s[0] == c
  {
    if s != "" && s[0] == c {
      assert s[..1] == [c];
    }
  }

  /** A number is made of digits and a sign. */
  lemma NumberIsNoHeader(token: string)
    requires Atoi(token).Some?
    ensures token != "" && '=' !in token && token[0] != '\n' && token[0] != NUL
  {
    if token[0] == '+' || token[0] == '-' {
      assert token == [token[0]] + token[1..];
    }
  }

  /** What follows a header: another one, or a newline and what comes next. */
  lemma AfterHeader(headers: seq<Header>, tail: string)
    requires CleanHeaders(headers)
    ensures var next := NextToken(HeadersThen(headers, "\n" + tail));
            next.Some? && !HasPrefix(next.value.value, "\n") ==>
              && headers != [] && '=' in next.value.value
              && next.value.rest == HeadersThen(headers[1..], "\n" + tail)
  {
    var text := HeadersThen(headers, "\n" + tail);
    if headers == [] {
      if NextToken(text).Some? {
        SlashStart(NextToken(text).value.value, '\n');
      }
    } else {
      HeaderComesBack(headers[0]);
      TokenComesBack(headers[0].name + "=" + headers[0].value, HeadersThen(headers[1..], "\n" + tail));
    }
  }

  /** A header text, its first byte taken off, is not where a record starts. */
  lemma HeaderIsNoRecord(token: string, headers: seq<Header>, tail: string)
    requires Plain(token) && '=' in token && CleanHeaders(headers)
    ensures !StartsRecord(Field(token, HeadersThen(headers, "\n" + tail)))
  {
    hide HeadersThen, Atoi;
    var more := HeadersThen(headers, "\n" + tail);
    TokenComesBack(token, more);
    AfterHeader(headers, tail);
    if NextToken(more).Some? {
      var second := NextToken(more).value;
      SlashStart(second.value, '\n');
      if !HasPrefix(second.value, "\n") {
        AfterHeader(headers[1..], tail);
        if ReadNumber(second.rest).Some? {
          var third := NextToken(second.rest).value.value;
          SlashStart(third, '\n');
          NumberIsNoHeader(third);
        }
      }
    }
  }

  lemma HeadersGoOn(header: Header, end: char, headers: seq<Header>, tail: string)
    requires CleanHeader(header) && CleanHeaders(headers)
    requires end == NUL || end == '\n'
    ensures !EndsHere(HeaderThen(header, HeadersThen(headers, [end] + tail)), end)
  {
    hide StartsRecord, HeadersThen;
    HeaderComesBack(header);
    var token := header.name + "=" + header.value;
    var more := HeadersThen(headers, [end] + tail);
    assert HeaderThen(header, more)[0] == token[0];
    if end == '\n' && token[0] == '\n' {
      assert token[1..] == header.name[1..] + "=" + header.value;
      assert token[1..][|header.name| - 1] == '=';
      assert HeaderThen(header, more)[1..] == Field(token[1..], more);
      HeaderIsNoRecord(token[1..], headers, tail);
    }
  }

  lemma HeadersStep(header: Header, end: char, more: string, headers: seq<Header>, tail: string)
    requires CleanHeader(header) && !EndsHere(HeaderThen(header, more), end)
    requires ReadHeaders(more, end) == Some(Read(headers, tail))
    ensures ReadHeaders(HeaderThen(header, more), end) == Some(Read([header] + headers, tail))
  {
    HeaderComesBack(header);
    TokenComesBack(header.name + "=" + header.value, more);
    hide IndexOf, EndsHere;
  }

  lemma HeadersEnd(end: char, tail: string)
    requires end == NUL || (end == '\n' && StartsRecord(tail))
    ensures ReadHeaders([end] + tail, end) == Some(Read([], tail))
  {
    hide StartsRecord;
    assert ([end] + tail)[1..] == tail;
  }

  lemma {:induction false} HeadersComeBack(headers: seq<Header>, end: char, tail: string)
    requires CleanHeaders(headers)
    requires end == NUL || (end == '\n' && StartsRecord(tail))
    ensures ReadHeaders(HeadersThen(headers, [end] + tail), end) == Some(Read(headers, tail))
  {
    hide ReadHeaders, HeaderThen, CleanHeader, EndsHere, StartsRecord;
    if headers == [] {
      HeadersEnd(end, tail);
    } else {
      HeadersComeBack(headers[1..], end, tail);
      HeadersGoOn(headers[0], end, headers[1..], tail);
      HeadersStep(headers[0], end, HeadersThen(headers[1..], [end] + tail), headers[1..], tail);
      assert headers == [headers[0]] + headers[1..];
    }
  }

  lemma RouteComesBack(route: RouteView, tail: string)
    requires CleanRoute(route) && StartsRecord(tail)
    ensures ReadRoute(RouteThen(route, tail)) == Some(Read(route, tail))
    ensures StartsRoute(RouteThen(route, tail))
  {
    hide StartsRecord, ReadHeaders;
    assert "\n" + tail == ['\n'] + tail;
    HeadersComeBack(route.response, '\n', tail);
    var response := HeadersThen(route.response, "\n" + tail);
    HeadersComeBack(route.request, NUL, response);
    var request := HeadersThen(route.request, [NUL] + response);
    TokenComesBack(route.host, request);
    TokenComesBack(route.body, Field(route.host, request));
    var body := Field(route.body, Field(route.host, request));
    NumberComesBack(route.status, body);
    TokenComesBack(route.target, Field(Itoa(route.status), body));
    TokenComesBack(route.prefix, Field(route.target, Field(Itoa(route.status), body)));
    assert RouteThen(route, tail)[0] == '/';
  }

  lemma RoutesStep(route: RouteView, more: string, routes: seq<RouteView>, tail: string)
    requires CleanRoute(route) && StartsRecord(more)
    requires ReadRoutes(more) == Some(Read(routes, tail))
    ensures ReadRoutes(RouteThen(route, more)) == Some(Read([route] + routes, tail))
  {
    RouteComesBack(route, more);
    assert RouteThen(route, more)[0] == '/';
    hide ReadRoute, RouteThen;
  }

  lemma NoRoutesComeBack(tail: string)
    requires NoRoute(tail)
    ensures ReadRoutes(tail) == Some(Read([], tail))
  {
    hide NoRoute;
  }

  lemma {:induction false} RoutesComeBack(routes: seq<RouteView>, tail: string)
    requires forall i :: 0 <= i < |routes| ==> CleanRoute(routes[i])
    requires NoRoute(tail) && StartsRecord(tail)
    ensures ReadRoutes(FlatThen(routes, RouteThen, tail)) == Some(Read(routes, tail))
    ensures StartsRecord(FlatThen(routes, RouteThen, tail))
  {
    hide ReadRoutes, ReadRoute, RouteThen, CleanRoute, StartsRoute, StartsDomain, StartsEntry;
    if routes == [] {
      NoRoutesComeBack(tail);
    } else {
      RoutesComeBack(routes[1..], tail);
      RoutesStep(routes[0], FlatThen(routes[1..], RouteThen, tail), routes[1..], tail);
      RouteComesBack(routes[0], FlatThen(routes[1..], RouteThen, tail));
      assert routes == [routes[0]] + routes[1..];
    }
  }

  lemma EntryComesBack(entry: EntryView, tail: string)
    requires CleanEntry(entry) && NoRoute(tail) && StartsRecord(tail)
    ensures var text := EntryThen(entry, tail);
            StartsEntry(text) && NoRoute(text) && ReadEntry(text) == Some(Read(entry, tail))
  {
    hide NoRoute, StartsRecord, ReadRoutes, RouteThen, Atoi, Itoa, CleanRoute;
    var routes := FlatThen(entry.routes, RouteThen, tail);
    RoutesComeBack(entry.routes, tail);
    NumberComesBack(entry.port, routes);
    TokenComesBack(entry.protocol, Field(Itoa(entry.port), routes));
    NoSlashNoRoute(EntryThen(entry, tail));
  }

  lemma NoSlashNoRoute(s: string)
    requires s == "" || s[0] != '/'
    ensures NoRoute(s)
  {
  }

  lemma {:induction false} EntriesComeBack(entries: seq<EntryView>, tail: string)
    requires forall i :: 0 <= i < |entries| ==> CleanEntry(entries[i])
    requires !StartsEntry(tail) && NoRoute(tail) && StartsRecord(tail)
    ensures var text := FlatThen(entries, EntryThen, tail);
            NoRoute(text) && StartsRecord(text) && ReadEntries(text) == Some(Read(entries, tail))
  {
    hide NoRoute, StartsDomain, StartsRoute, StartsEntry, ReadEntry, EntryThen, CleanEntry;
    if entries != [] {
      EntriesComeBack(entries[1..], tail);
      EntryComesBack(entries[0], FlatThen(entries[1..], EntryThen, tail));
      assert entries == [entries[0]] + entries[1..];
    }
  }

  lemma ProtocolIsNoNumber(protocol: string)
    requires IsProtocol(protocol)
    ensures Plain(protocol) && Atoi(protocol).None?
  {
    assert !IsDigit('h') && PROTOCOL_HTTP[0] == 'h' && PROTOCOL_HTTPS[0] == 'h';
  }

  // A domain that begins with a slash reads like a route as far as the status. It cannot be read on: two
  // more tokens are a body and a host, and then a number stands where headers are due.

  /** A token and a number: how an entry begins. */
  predicate TwoAhead(s: string) {
    var token := NextToken(s);
    token.Some? && ReadNumber(token.value.rest).Some?
  }

  /** Two tokens, the first not empty, and a number: how a route and a domain begin. */
  predicate ThreeAhead(s: string) {
    var token := NextToken(s);
    token.Some? && token.value.value != "" && TwoAhead(token.value.rest)
  }

  /** No request and response headers can be read here. */
  predicate NoHeaders(s: string) {
    var request := ReadHeaders(s, NUL);
    request.None? || ReadHeaders(request.value.rest, '\n').None?
  }

  lemma NumberEndsHeaders(s: string, end: char)
    requires ReadNumber(s).Some? && (end == NUL || end == '\n')
    ensures ReadHeaders(s, end).None?
  {
    hide Atoi, StartsRecord;
    NumberIsNoHeader(NextToken(s).value.value);
  }

  lemma TwoAheadNoHeaders(s: string)
    requires TwoAhead(s)
    ensures NoHeaders(s)
  {
    hide Atoi, StartsRecord;
    var token := NextToken(s).value;
    NumberEndsHeaders(token.rest, NUL);
    NumberEndsHeaders(token.rest, '\n');
    if s[0] == NUL {
      assert token.rest == s[1..];
    }
  }

  lemma ThreeAheadNoHeaders(s: string)
    requires ThreeAhead(s)
    ensures NoHeaders(s)
  {
    hide Atoi, StartsRecord;
    TwoAheadNoHeaders(NextToken(s).value.rest);
  }

  /** What may follow a number that could be a status: what follows is no body, host and headers. */
  predicate NoRest(s: string) {
    || NextToken(s).None?
    || ThreeAhead(s)
    || (TwoAhead(s) && NoHeaders(NextToken(NextToken(s).value.rest).value.rest))
  }

  lemma NoRestNoRoute(s: string)
    requires NextToken(s).Some? && TwoAhead(NextToken(s).value.rest)
    requires NoRest(NextToken(NextToken(NextToken(s).value.rest).value.rest).value.rest)
    ensures ReadRoute(s).None?
  {
    hide ReadHeaders, Atoi;
    var rest := NextToken(NextToken(NextToken(s).value.rest).value.rest).value.rest;
    if ThreeAhead(rest) {
      NumberEndsHeaders(NextToken(NextToken(rest).value.rest).value.rest, NUL);
    }
  }

  lemma RouteIsThreeAhead(route: RouteView, tail: string)
    requires CleanRoute(route)
    ensures ThreeAhead(RouteThen(route, tail))
  {
    var request := HeadersThen(route.request, [NUL] + HeadersThen(route.response, "\n" + tail));
    var body := Field(route.body, Field(route.host, request));
    NumberComesBack(route.status, body);
    TokenComesBack(route.target, Field(Itoa(route.status), body));
    TokenComesBack(route.prefix, Field(route.target, Field(Itoa(route.status), body)));
  }

  lemma EntryIsTwoAhead(entry: EntryView, tail: string)
    requires CleanEntry(entry)
    ensures TwoAhead(EntryThen(entry, tail))
    ensures NextToken(NextToken(EntryThen(entry, tail)).value.rest).value.rest == FlatThen(entry.routes, RouteThen, tail)
  {
    var routes := FlatThen(entry.routes, RouteThen, tail);
    ProtocolIsNoNumber(entry.protocol);
    AtoiItoa(entry.port);
    NumberComesBack(entry.port, routes);
    TokenComesBack(Itoa(entry.port), routes);
    TokenComesBack(entry.protocol, Field(Itoa(entry.port), routes));
  }

  lemma RoutesThenNoHeaders(routes: seq<RouteView>, entries: seq<EntryView>, tail: string)
    requires forall i :: 0 <= i < |routes| ==> CleanRoute(routes[i])
    requires forall i :: 0 <= i < |entries| ==> CleanEntry(entries[i])
    requires tail == "" || ThreeAhead(tail)
    ensures NoHeaders(FlatThen(routes, RouteThen, FlatThen(entries, EntryThen, tail)))
  {
    hide NoHeaders, TwoAhead, ThreeAhead, CleanRoute, CleanEntry, RouteThen, EntryThen;
    if routes != [] {
      var text := FlatThen(routes[1..], RouteThen, FlatThen(entries, EntryThen, tail));
      RouteIsThreeAhead(routes[0], text);
      ThreeAheadNoHeaders(RouteThen(routes[0], text));
    } else if entries != [] {
      EntryIsTwoAhead(entries[0], FlatThen(entries[1..], EntryThen, tail));
      TwoAheadNoHeaders(EntryThen(entries[0], FlatThen(entries[1..], EntryThen, tail)));
    } else if tail == "" {
      NothingNoHeaders();
    } else {
      ThreeAheadNoHeaders(tail);
    }
  }

  lemma NothingNoHeaders()
    ensures NoHeaders("")
  {
  }

  lemma RoutesThenNoRest(routes: seq<RouteView>, entries: seq<EntryView>, tail: string)
    requires forall i :: 0 <= i < |routes| ==> CleanRoute(routes[i])
    requires forall i :: 0 <= i < |entries| ==> CleanEntry(entries[i])
    requires tail == "" || ThreeAhead(tail)
    ensures NoRest(FlatThen(routes, RouteThen, FlatThen(entries, EntryThen, tail)))
  {
    hide NoHeaders, TwoAhead, ThreeAhead, CleanRoute, RouteThen, EntryThen;
    if routes != [] {
      RouteIsThreeAhead(routes[0], FlatThen(routes[1..], RouteThen, FlatThen(entries, EntryThen, tail)));
    } else if entries != [] {
      EntryIsTwoAhead(entries[0], FlatThen(entries[1..], EntryThen, tail));
      RoutesThenNoHeaders(entries[0].routes, entries[1..], tail);
    }
  }

  /** A domain is followed by an entry, whose protocol is not a number, so it does not look like one. */
  lemma DomainIsNoEntry(domain: DomainView, tail: string)
    requires CleanDomain(domain)
    requires tail == "" || ThreeAhead(tail)
    ensures var text := DomainThen(domain, tail);
            text != "" && !StartsEntry(text) && NoRoute(text) && StartsDomain(text) && ThreeAhead(text)
  {
    hide ReadRoute, RouteThen, Atoi, NoRest;
    var first, others := domain.entries[0], domain.entries[1..];
    var entries := FlatThen(domain.entries, EntryThen, tail);
    var more := FlatThen(first.routes, RouteThen, FlatThen(others, EntryThen, tail));
    TokenComesBack(domain.name, entries);
    ProtocolIsNoNumber(first.protocol);
    EntryIsTwoAhead(first, FlatThen(others, EntryThen, tail));
    TokenComesBack(first.protocol, Field(Itoa(first.port), more));
    RoutesThenNoRest(first.routes, others, tail);
    NoRestNoRoute(DomainThen(domain, tail));
  }

  lemma DomainComesBack(domain: DomainView, tail: string)
    requires CleanDomain(domain)
    requires !StartsEntry(tail) && NoRoute(tail) && StartsRecord(tail)
    ensures ReadDomain(DomainThen(domain, tail)) == Some(Read(domain, tail))
  {
    hide NoRoute, StartsRecord;
    EntriesComeBack(domain.entries, tail);
    TokenComesBack(domain.name, FlatThen(domain.entries, EntryThen, tail));
  }

  lemma DecodeStep(domain: DomainView, more: string, rest: seq<DomainView>)
    requires CleanDomain(domain)
    requires more == "" || (ThreeAhead(more) && StartsDomain(more))
    requires !StartsEntry(more) && NoRoute(more)
    requires Decode(more) == Some(rest)
    ensures Decode(DomainThen(domain, more)) == Some([domain] + rest)
  {
    DomainIsNoEntry(domain, more);
    DomainComesBack(domain, more);
    hide ReadDomain, NoRoute, StartsDomain, ThreeAhead, StartsEntry;
  }

  lemma NothingIsNoRecord()
    ensures !StartsEntry("") && NoRoute("")
  {
  }

  lemma {:induction false} DomainsComeBack(domains: seq<DomainView>)
    requires forall i :: 0 <= i < |domains| ==> CleanDomain(domains[i])
    ensures var text := FlatThen(domains, DomainThen, "");
            && !StartsEntry(text) && NoRoute(text) && Decode(text) == Some(domains)
            && (text == "" || (ThreeAhead(text) && StartsDomain(text)))
  {
    hide NoRoute, StartsDomain, ThreeAhead, StartsEntry, CleanDomain, DomainThen, ReadDomain;
    if domains == [] {
      NothingIsNoRecord();
    } else {
      var more := FlatThen(domains[1..], DomainThen, "");
      DomainsComeBack(domains[1..]);
      DomainIsNoEntry(domains[0], more);
      DecodeStep(domains[0], more, domains[1..]);
      assert domains == [domains[0]] + domains[1..];
    }
  }

  // ---------------------------------------------------------------------------------------------
  // Equal fingerprints, equal tables
  // ---------------------------------------------------------------------------------------------

  ghost predicate NulFreeHeaders(headers: map<string, string>) {
    forall name :: name in headers ==> Plain(name) && Plain(headers[name])
  }

  ghost predicate NulFreeRoute(route: Route) {
    && Plain(route.prefix) && Plain(SummaryOf(route.target)) && Plain(route.body) && Plain(route.host)
    && NulFreeHeaders(route.request) && NulFreeHeaders(route.response)
  }

  ghost predicate NulFree(index: Index) {
    forall domain :: domain in index ==>
      && Plain(domain)
      && forall e, r :: 0 <= e < |index[domain]| && 0 <= r < |index[domain][e].routes| ==>
           NulFreeRoute(index[domain][e].routes[r])
  }

  ghost predicate PlainNames(headers: map<string, string>) {
    forall name :: name in headers ==> '=' !in name
  }

  ghost predicate PlainNamesRoute(route: Route) {
    PlainNames(route.request) && PlainNames(route.response)
  }

  ghost predicate PlainNamesEntries(entries: seq<Entry>) {
    forall e, r :: 0 <= e < |entries| && 0 <= r < |entries[e].routes| ==> PlainNamesRoute(entries[e].routes[r])
  }

  ghost predicate PlainNamesTable(index: Index) {
    forall domain :: domain in index ==> PlainNamesEntries(index[domain])
  }

  /** No NUL anywhere and no "=" in a header name. */
  ghost predicate Printable(index: Index) {
    NulFree(index) && PlainNamesTable(index)
  }

  /** What every table built from a configuration satisfies. */
  ghost predicate WellFormed(index: Index) {
    forall domain :: domain in index ==>
      domain != "" && |index[domain]| > 0 && WellFormedEntries(index[domain])
  }

  ghost predicate WellFormedEntries(entries: seq<Entry>) {
    forall e :: 0 <= e < |entries| ==> WellFormedEntry(entries[e])
  }

  ghost predicate WellFormedRoute(route: Route) {
    && HasPrefix(route.prefix, "/") && route.status >= 0
    && (route.status == 0 <==> route.target.Some?)
    && (route.target.Some? ==> !HasPrefix(route.target.value.summary, "\n"))
  }

  ghost predicate WellFormedEntry(entry: Entry) {
    && IsProtocol(entry.protocol)
    && 0 <= entry.port
    && forall r :: 0 <= r < |entry.routes| ==> WellFormedRoute(entry.routes[r])
  }

  lemma HeadersAreClean(headers: map<string, string>)
    requires NulFreeHeaders(headers)
    ensures CleanHeaders(ViewHeaders(headers))
  {
    hide Shown;
    var names := Sorted(headers.Keys);
    forall i | 0 <= i < |names|
      ensures CleanHeader(ViewHeaders(headers)[i])
    {
      assert names[i] in names;
      ShownIsClean(HeadersOf(headers)[i]);
    }
  }

  lemma ShownIsClean(header: Header)
    requires Plain(header.name) && Plain(header.value)
    ensures CleanHeader(Shown(header))
  {
    SplitAtEquals(header);
    var shown := Shown(header);
    var token := shown.name + "=" + shown.value;
    assert forall c :: c in shown.name || c in shown.value ==> c in token;
    assert NUL !in header.name + "=" + header.value;
  }

  lemma RouteIsClean(route: Route)
    requires NulFreeRoute(route) && WellFormedRoute(route)
    ensures CleanRoute(ViewRoute(route))
  {
    HeadersAreClean(route.request);
    HeadersAreClean(route.response);
  }

  lemma ViewIsClean(index: Index)
    requires WellFormed(index) && NulFree(index)
    ensures forall i :: 0 <= i < |View(index)| ==> CleanDomain(View(index)[i])
  {
    var names := Sorted(index.Keys);
    forall i | 0 <= i < |names|
      ensures CleanDomain(View(index)[i])
    {
      assert names[i] in names;
      var entries := index[names[i]];
      forall e | 0 <= e < |entries|
        ensures CleanEntry(ViewEntry(entries[e]))
      {
        assert WellFormedEntry(entries[e]);
        forall r | 0 <= r < |entries[e].routes|
          ensures CleanRoute(ViewRoute(entries[e].routes[r]))
        {
          RouteIsClean(entries[e].routes[r]);
        }
      }
    }
  }

  /**
   The fingerprint of a table without NUL is uniquely decodable: everything comes back, header by header
   as it is shown, which for names without "=" is as it is.
   */
  lemma FingerprintDecodes(index: Index)
    requires WellFormed(index) && NulFree(index)
    ensures Decode(Fingerprint(index)) == Some(View(index))
    ensures PlainNamesTable(index) ==>
              forall domain, e, r :: domain in index && 0 <= e < |index[domain]| && 0 <= r < |index[domain][e].routes| ==>
                var route := index[domain][e].routes[r];
                && ViewRoute(route).request == HeadersOf(route.request)
                && ViewRoute(route).response == HeadersOf(route.response)
  {
    hide Decode, WellFormed, NulFree;
    ViewIsClean(index);
    DomainsComeBack(View(index));
    FingerprintThen(index);
    forall domain, e, r | domain in index && 0 <= e < |index[domain]| && 0 <= r < |index[domain][e].routes|
      ensures PlainNamesTable(index) ==> ViewRoute(index[domain][e].routes[r]).request == HeadersOf(index[domain][e].routes[r].request)
      ensures PlainNamesTable(index) ==> ViewRoute(index[domain][e].routes[r]).response == HeadersOf(index[domain][e].routes[r].response)
    {
      if PlainNamesTable(index) {
        assert PlainNamesRoute(index[domain][e].routes[r]);
        PlainHeadersAreShown(index[domain][e].routes[r].request);
        PlainHeadersAreShown(index[domain][e].routes[r].response);
      }
    }
  }

  lemma PlainHeadersAreShown(headers: map<string, string>)
    requires PlainNames(headers)
    ensures ViewHeaders(headers) == HeadersOf(headers)
  {
    hide Shown;
    var names := Sorted(headers.Keys);
    forall i | 0 <= i < |names|
      ensures Shown(HeadersOf(headers)[i]) == HeadersOf(headers)[i]
    {
      assert names[i] in names;
      PlainNameIsShown(HeadersOf(headers)[i]);
    }
  }

  /**
   Without NUL, two tables have one fingerprint if and only if they are the same with every list of
   headers compared by the texts of its headers.
   */
  lemma EqualFingerprintsIffSameView(a: Index, b: Index)
    requires WellFormed(a) && NulFree(a)
    requires WellFormed(b) && NulFree(b)
    ensures Fingerprint(a) == Fingerprint(b) <==> View(a) == View(b)
  {
    hide Decode, View, WellFormed, NulFree;
    FingerprintDecodes(a);
    FingerprintDecodes(b);
    FingerprintThen(a);
    FingerprintThen(b);
  }

  /** Both routes have a target, with one summary, or neither has. */
  ghost predicate SameTarget(a: Route, b: Route) {
    && (a.target.Some? <==> b.target.Some?)
    && (a.target.Some? ==> a.target.value.summary == b.target.value.summary)
  }

  ghost predicate SameRoute(a: Route, b: Route) {
    && a.prefix == b.prefix && a.host == b.host && a.status == b.status && a.body == b.body
    && a.request == b.request && a.response == b.response
    && SameTarget(a, b)
  }

  ghost predicate SameRoutes(a: seq<Route>, b: seq<Route>) {
    |a| == |b| && forall i :: 0 <= i < |a| ==> SameRoute(a[i], b[i])
  }

  ghost predicate SameEntry(a: Entry, b: Entry) {
    a.protocol == b.protocol && a.port == b.port && SameRoutes(a.routes, b.routes)
  }

  ghost predicate SameEntries(a: seq<Entry>, b: seq<Entry>) {
    |a| == |b| && forall i :: 0 <= i < |a| ==> SameEntry(a[i], b[i])
  }

  /** The same table, targets compared by their summaries. */
  ghost predicate SameTable(a: Index, b: Index) {
    a.Keys == b.Keys && forall domain :: domain in a ==> SameEntries(a[domain], b[domain])
  }

  lemma SameTableTransitive(a: Index, b: Index, c: Index)
    requires SameTable(a, b) && SameTable(b, c)
    ensures SameTable(a, c)
  {
    forall domain | domain in a
      ensures SameEntries(a[domain], c[domain])
    {
      SameEntriesTransitive(a[domain], b[domain], c[domain]);
    }
  }

  lemma SameEntriesTransitive(a: seq<Entry>, b: seq<Entry>, c: seq<Entry>)
    requires SameEntries(a, b) && SameEntries(b, c)
    ensures SameEntries(a, c)
  {
    forall i | 0 <= i < |a|
      ensures SameEntry(a[i], c[i])
    {
      assert SameEntry(a[i], b[i]) && SameEntry(b[i], c[i]);
      forall r | 0 <= r < |a[i].routes|
        ensures SameRoute(a[i].routes[r], c[i].routes[r])
      {
        assert SameRoute(a[i].routes[r], b[i].routes[r]) && SameRoute(b[i].routes[r], c[i].routes[r]);
      }
    }
  }

  lemma SameTableSymmetric(a: Index, b: Index)
    requires SameTable(a, b)
    ensures SameTable(b, a)
  {
    forall domain | domain in b
      ensures SameEntries(b[domain], a[domain])
    {
      assert SameEntries(a[domain], b[domain]);
      forall i | 0 <= i < |b[domain]|
        ensures SameEntry(b[domain][i], a[domain][i])
      {
        assert SameEntry(a[domain][i], b[domain][i]);
        forall r | 0 <= r < |b[domain][i].routes|
          ensures SameRoute(b[domain][i].routes[r], a[domain][i].routes[r])
        {
          assert SameRoute(a[domain][i].routes[r], b[domain][i].routes[r]);
        }
      }
    }
  }

  lemma HeadersDetermineMap(a: map<string, string>, b: map<string, string>)
    requires HeadersOf(a) == HeadersOf(b)
    ensures a == b
  {
    var namesA, namesB := Sorted(a.Keys), Sorted(b.Keys);
    assert forall i :: 0 <= i < |namesA| ==> HeadersOf(a)[i] == Header(namesA[i], a[namesA[i]]);
    assert forall i :: 0 <= i < |namesB| ==> HeadersOf(b)[i] == Header(namesB[i], b[namesB[i]]);
    assert namesA == namesB;
    assert a.Keys == b.Keys;
    forall name | name in a
      ensures a[name] == b[name]
    {
      assert name in namesA;
    }
  }

  lemma SameViewSameRoute(a: Route, b: Route)
    requires WellFormedRoute(a) && WellFormedRoute(b)
    requires PlainNamesRoute(a) && PlainNamesRoute(b)
    ensures ViewRoute(a) == ViewRoute(b) <==> SameRoute(a, b)
  {
    PlainHeadersAreShown(a.request);
    PlainHeadersAreShown(a.response);
    PlainHeadersAreShown(b.request);
    PlainHeadersAreShown(b.response);
    hide ViewHeaders, HeadersOf;
    if ViewRoute(a) == ViewRoute(b) {
      HeadersDetermineMap(a.request, b.request);
      HeadersDetermineMap(a.response, b.response);
    }
  }

  lemma SameViewSameEntry(a: Entry, b: Entry)
    requires WellFormedEntry(a) && WellFormedEntry(b)
    requires PlainNamesEntries([a]) && PlainNamesEntries([b])
    ensures ViewEntry(a) == ViewEntry(b) <==> SameEntry(a, b)
  {
    hide ViewRoute, SameRoute, WellFormedRoute;
    forall i | 0 <= i < |a.routes| && 0 <= i < |b.routes|
      ensures ViewRoute(a.routes[i]) == ViewRoute(b.routes[i]) <==> SameRoute(a.routes[i], b.routes[i])
    {
      assert PlainNamesRoute([a][0].routes[i]) && PlainNamesRoute([b][0].routes[i]);
      SameViewSameRoute(a.routes[i], b.routes[i]);
    }
    if ViewEntry(a) == ViewEntry(b) {
      assert |Map(a.routes, ViewRoute)| == |Map(b.routes, ViewRoute)|;
      assert forall i :: 0 <= i < |a.routes| ==> Map(a.routes, ViewRoute)[i] == Map(b.routes, ViewRoute)[i];
    }
  }

  lemma SameViewSameEntries(a: seq<Entry>, b: seq<Entry>)
    requires WellFormedEntries(a) && WellFormedEntries(b)
    requires PlainNamesEntries(a) && PlainNamesEntries(b)
    ensures Map(a, ViewEntry) == Map(b, ViewEntry) <==> SameEntries(a, b)
  {
    hide ViewEntry, SameEntry, WellFormedEntry;
    forall i | 0 <= i < |a| && 0 <= i < |b|
      ensures ViewEntry(a[i]) == ViewEntry(b[i]) <==> SameEntry(a[i], b[i])
    {
      SameViewSameEntry(a[i], b[i]);
    }
    if Map(a, ViewEntry) == Map(b, ViewEntry) {
      assert forall i :: 0 <= i < |a| ==> Map(a, ViewEntry)[i] == Map(b, ViewEntry)[i];
    }
  }

  lemma ViewAt(index: Index)
    ensures |View(index)| == |Sorted(index.Keys)|
    ensures forall i :: 0 <= i < |View(index)| ==> var name := Sorted(index.Keys)[i];
              name in index && View(index)[i] == DomainView(name, Map(index[name], ViewEntry))
  {
    var names := Sorted(index.Keys);
    assert forall i :: 0 <= i < |names| ==> names[i] in names;
    hide ViewEntry, Sorted;
  }

  lemma SameViewTables(a: Index, b: Index)
    requires View(a) == View(b)
    requires WellFormed(a) && WellFormed(b)
    requires PlainNamesTable(a) && PlainNamesTable(b)
    ensures SameTable(a, b)
  {
    ViewAt(a);
    ViewAt(b);
    hide View, ViewEntry, SameEntries, PlainNamesEntries, WellFormedEntries;
    var names := Sorted(a.Keys);
    assert names == Sorted(b.Keys) by {
      assert forall i :: 0 <= i < |names| ==> names[i] == View(a)[i].name == Sorted(b.Keys)[i];
    }
    assert a.Keys == b.Keys;
    forall domain | domain in a
      ensures SameEntries(a[domain], b[domain])
    {
      assert domain in names;
      var i :| 0 <= i < |names| && names[i] == domain;
      assert View(a)[i].entries == View(b)[i].entries;
      SameViewSameEntries(a[domain], b[domain]);
    }
  }

  lemma SameTablesView(a: Index, b: Index)
    requires SameTable(a, b)
    requires WellFormed(a) && WellFormed(b)
    requires PlainNamesTable(a) && PlainNamesTable(b)
    ensures View(a) == View(b)
  {
    ViewAt(a);
    ViewAt(b);
    hide View, ViewEntry, SameEntries, PlainNamesEntries, WellFormedEntries;
    forall i | 0 <= i < |View(a)|
      ensures View(a)[i] == View(b)[i]
    {
      var name := Sorted(a.Keys)[i];
      SameViewSameEntries(a[name], b[name]);
    }
  }

  /** Two tables have one fingerprint if and only if they are the same table. */
  lemma EqualFingerprintsIffSameTable(a: Index, b: Index)
    requires WellFormed(a) && Printable(a)
    requires WellFormed(b) && Printable(b)
    ensures Fingerprint(a) == Fingerprint(b) <==> SameTable(a, b)
  {
    hide View, WellFormed, NulFree, SameTable, Fingerprint;
    EqualFingerprintsIffSameView(a, b);
    if View(a) == View(b) {
      SameViewTables(a, b);
    }
    if SameTable(a, b) {
      SameTablesView(a, b);
    }
  }

  // ---------------------------------------------------------------------------------------------
  // The same table picks the same route
  // ---------------------------------------------------------------------------------------------

  ghost predicate SamePick(a: Option<Route>, b: Option<Route>) {
    (a.None? <==> b.None?) && (a.Some? ==> SameRoute(a.value, b.value))
  }

  lemma {:induction false} SameRoutesSameBest(a: seq<Route>, b: seq<Route>, path: string)
    requires SameRoutes(a, b)
    ensures SamePick(Best(a, path), Best(b, path))
  {
    if |a| > 0 {
      SameRoutesSameBest(a[..|a| - 1], b[..|b| - 1], path);
      assert SameRoute(a[|a| - 1], b[|b| - 1]);
    }
  }

  lemma {:induction false} SameEntriesSameCandidates(a: seq<Entry>, b: seq<Entry>, protocol: string, port: int)
    requires SameEntries(a, b)
    ensures SameRoutes(Candidates(a, protocol, port), Candidates(b, protocol, port))
  {
    if |a| > 0 {
      SameEntriesSameCandidates(a[..|a| - 1], b[..|b| - 1], protocol, port);
      assert SameEntry(a[|a| - 1], b[|b| - 1]);
    }
  }

  lemma SameTableSamePick(a: Index, b: Index, protocol: string, port: int, domain: string, path: string)
    requires SameTable(a, b)
    ensures SamePick(PickFrom(a, protocol, port, domain, path), PickFrom(b, protocol, port, domain, path))
  {
    assert SameEntries(EntriesOf(a, domain), EntriesOf(b, domain));
    SameEntriesSameCandidates(EntriesOf(a, domain), EntriesOf(b, domain), protocol, port);
    SameRoutesSameBest(Candidates(EntriesOf(a, domain), protocol, port),
                       Candidates(EntriesOf(b, domain), protocol, port), path);
  }

  // ---------------------------------------------------------------------------------------------
  // Outside the hypotheses different tables collide
  // ---------------------------------------------------------------------------------------------

  /** The table with one domain, one server for anything and one route. */
  function OneRoute(domain: string, route: Route): Index {
    map[domain := [Entry("", 0, [route])]]
  }

  lemma SortedSingleton(name: string)
    ensures Sorted({name}) == [name]
    ensures Sorted({}) == []
  {
    SortedIsUnique(Sorted({name}), [name], {name});
    SortedIsUnique(Sorted({}), [], {});
  }

  lemma OneHeaderText(name: string, value: string)
    ensures HeadersText(map[name := value]) == name + "=" + value + [NUL]
    ensures HeadersText(map[]) == ""
  {
    SortedSingleton(name);
    var headers := map[name := value];
    assert headers.Keys == {name};
    assert HeadersOf(headers) == [Header(name, value)];
    assert HeadersOf(headers)[..0] == [];
    assert FlatText(HeadersOf(headers)[..0], HeaderText) == "";
    var none: map<string, string> := map[];
    assert none.Keys == {};
    assert HeadersOf(none) == [];
  }

  lemma OneRouteCollision(domain: string, a: Route, b: Route)
    requires RouteText(a) == RouteText(b)
    ensures Fingerprint(OneRoute(domain, a)) == Fingerprint(OneRoute(domain, b))
  {
    SortedSingleton(domain);
    assert OneRoute(domain, a).Keys == {domain} && OneRoute(domain, b).Keys == {domain};
    assert DomainsOf(OneRoute(domain, a)) == [Domain(domain, [Entry("", 0, [a])])];
    assert DomainsOf(OneRoute(domain, b)) == [Domain(domain, [Entry("", 0, [b])])];
    assert FlatText([a], RouteText) == RouteText(a) by {
      assert [a][..0] == [] && FlatText([a][..0], RouteText) == "";
    }
    assert FlatText([b], RouteText) == RouteText(b) by {
      assert [b][..0] == [] && FlatText([b][..0], RouteText) == "";
    }
    SingleText(Entry("", 0, [a]), Entry("", 0, [b]), EntryText);
    SingleText(Domain(domain, [Entry("", 0, [a])]), Domain(domain, [Entry("", 0, [b])]), DomainText);
  }

  lemma SingleText<T>(a: T, b: T, text: T -> string)
    requires text(a) == text(b)
    ensures FlatText([a], text) == FlatText([b], text)
  {
    assert [a][..0] == [] && [b][..0] == [];
    assert FlatText([a][..0], text) == FlatText([b][..0], text);
  }

  lemma OneRouteDiffers(domain: string, a: Route, b: Route)
    requires a.request != b.request
    ensures !SameTable(OneRoute(domain, a), OneRoute(domain, b))
  {
    assert !SameRoute([a][0], [b][0]);
    assert !SameEntry(OneRoute(domain, a)[domain][0], OneRoute(domain, b)[domain][0]);
  }

  lemma EqualsSignMoves(name: string, middle: string, value: string)
    ensures HeadersText(map[name + "=" + middle := value]) == HeadersText(map[name := middle + "=" + value])
  {
    hide HeadersText;
    OneHeaderText(name + "=" + middle, value);
    OneHeaderText(name, middle + "=" + value);
    assert name + "=" + middle + "=" + value + [NUL] == name + "=" + (middle + "=" + value) + [NUL];
  }

  lemma OtherKeyOtherMap(longer: string, v: string, shorter: string, w: string)
    requires |shorter| < |longer|
    ensures map[longer := v] != map[shorter := w]
  {
    assert shorter !in map[longer := v];
  }

  /** An equals sign in a header name can as well belong to the value. */
  lemma EqualsSignInNameCollides(domain: string, route: Route, name: string, middle: string, value: string)
    ensures var a := route.(request := map[name + "=" + middle := value]);
            var b := route.(request := map[name := middle + "=" + value]);
            Fingerprint(OneRoute(domain, a)) == Fingerprint(OneRoute(domain, b))
            && !SameTable(OneRoute(domain, a), OneRoute(domain, b))
  {
    var a := route.(request := map[name + "=" + middle := value]);
    var b := route.(request := map[name := middle + "=" + value]);
    hide HeadersText, Fingerprint;
    EqualsSignMoves(name, middle, value);
    OneRouteCollision(domain, a, b);
    OtherKeyOtherMap(name + "=" + middle, value, name, middle + "=" + value);
    OneRouteDiffers(domain, a, b);
  }

  lemma FieldsRegroup(body: string, host: string, name: string, value: string, tail: string)
    ensures Field(body + [NUL] + host, Field(name + "=" + value, Field("", tail)))
         == Field(body, Field(host, Field(name + "=" + value + [NUL], tail)))
  {
    var header := name + "=" + value;
    calc {
      Field(body + [NUL] + host, Field(header, Field("", tail)));
      body + [NUL] + host + [NUL] + (header + [NUL] + ("" + [NUL] + tail));
      { assert "" + [NUL] + tail == [NUL] + tail; }
      body + [NUL] + (host + [NUL] + (header + [NUL] + [NUL] + tail));
      Field(body, Field(host, Field(header + [NUL], tail)));
    }
  }

  /** A NUL in a body can as well end it: the rest then reads as the host, and the host as a header. */
  lemma NulInBodyCollides(domain: string, route: Route, body: string, host: string, name: string, value: string)
    ensures var a := route.(body := body + [NUL] + host, host := name + "=" + value, request := map[]);
            var b := route.(body := body, host := host, request := map[name := value]);
            Fingerprint(OneRoute(domain, a)) == Fingerprint(OneRoute(domain, b))
            && !SameTable(OneRoute(domain, a), OneRoute(domain, b))
  {
    var a := route.(body := body + [NUL] + host, host := name + "=" + value, request := map[]);
    var b := route.(body := body, host := host, request := map[name := value]);
    assert RouteText(a) == RouteText(b) by {
      OneHeaderText(name, value);
      var response := HeadersText(route.response);
      JoinFields(a.prefix, SummaryOf(a.target), Itoa(a.status), a.body, a.host, "", response, "\n");
      JoinFields(b.prefix, SummaryOf(b.target), Itoa(b.status), b.body, b.host, name + "=" + value + [NUL], response, "\n");
      FieldsRegroup(body, host, name, value, response + "\n");
    }
    OneRouteCollision(domain, a, b);
    assert a.request != b.request by {
      assert name in b.request && name !in a.request;
    }
    OneRouteDiffers(domain, a, b);
  }
}
