/**
 Upstream targets (internal/route/target.go): a URL or a local directory, with the summary text that
 stands for the target in the table's fingerprint.
 */
module Targets {
  import opened GoText
  import opened Urls
  import opened HostPort

  const PROTOCOL_HTTP := "http"
  const PROTOCOL_HTTPS := "https"

  datatype Target = Target(url: Option<Url>, root: string, summary: string)

  datatype TargetError =
    | InvalidURL | UnsupportedScheme(scheme: string) | MissingHost | BadPort | MalformedHost

  /** What net/url makes of a text: the URL and the text it prints. */
  datatype Parsed = Parsed(url: Url, text: string)

  predicate Contains(s: string, sub: string) {
    sub <= s || (s != "" && Contains(s[1..], sub))
  }

  function ParseTarget(upstream: string, parse: string -> Option<Parsed>): Result<Target, TargetError> {
    if Contains(upstream, "://") then
      match parse(upstream)
      case None => Err(InvalidURL)
      case Some(parsed) =>
        if parsed.url.scheme != PROTOCOL_HTTP && parsed.url.scheme != PROTOCOL_HTTPS then
          Err(UnsupportedScheme(parsed.url.scheme))
        else if parsed.url.host == "" then Err(MissingHost)
        else Ok(Target(Some(parsed.url), "", parsed.text))
    else if IsLocalPath(upstream) then Ok(Target(None, upstream, upstream))
    else ParseTargetHost(upstream)
  }

  function ParseTargetHost(upstream: string): Result<Target, TargetError> {
    match SplitHostPort(upstream)
    case Some(split) =>
      if split.host == "" then Err(MissingHost)
      else if !ValidPort(split.port) then Err(BadPort)
      else Ok(HostTarget(upstream))
    case None =>
      if ':' in upstream then Err(MalformedHost) else Ok(HostTarget(upstream))
  }

  function HostTarget(host: string): Target {
    Target(Some(Url(PROTOCOL_HTTP, host, "", "", "")), "", PROTOCOL_HTTP + "://" + EscapeHost(host))
  }

  predicate ValidPort(port: string) {
    var number := Atoi(port);
    number.Some? && Itoa(number.value) == port && 1 <= number.value <= MAX_PORT
  }

  predicate IsLocalPath(upstream: string) {
    upstream == "." || upstream == ".." || '/' in upstream || '\\' in upstream
  }

  /** url.shouldEscape in host mode. */
  predicate ShouldEscapeInHost(c: char) {
    !('a' <= c <= 'z' || 'A' <= c <= 'Z' || '0' <= c <= '9' || c in "!$&'()*+,;=:[]<>\"-_.~")
  }

  function EscapeHost(host: string): string {
    if host == "" then ""
    else
      var c := host[0];
      (if ShouldEscapeInHost(c) then ['%', UpperHex(c as int / 16 % 16), UpperHex(c as int % 16)] else [c])
      + EscapeHost(host[1..])
  }

  // ---------------------------------------------------------------------------------------------
  // The summary tells URLs and directories apart
  // ---------------------------------------------------------------------------------------------

  /** What is known of net/url: a URL with a host prints its scheme, "://" and more. */
  ghost predicate PrintsScheme(parse: string -> Option<Parsed>) {
    forall s :: parse(s).Some? && parse(s).value.url.host != "" ==>
      HasPrefix(parse(s).value.text, parse(s).value.url.scheme + "://")
  }

  lemma {:induction false} SchemeMarkIsThere(s: string, scheme: string)
    requires HasPrefix(s, scheme + "://")
    ensures Contains(s, "://")
  {
    if scheme == "" {
      assert "" + "://" == "://";
    } else {
      assert s[1..][..|scheme| + 2] == (scheme + "://")[1..] == scheme[1..] + "://";
      SchemeMarkIsThere(s[1..], scheme[1..]);
    }
  }

  /** The summary of a URL target has a scheme mark, that of a directory has not and is its root. */
  lemma SummaryTellsKind(upstream: string, parse: string -> Option<Parsed>)
    requires PrintsScheme(parse)
    requires ParseTarget(upstream, parse).Ok?
    ensures var target := ParseTarget(upstream, parse).value;
            && (target.url.Some? <==> Contains(target.summary, "://"))
            && (target.url.Some? ==> target.root == "" && HasPrefix(target.summary, target.url.value.scheme + "://"))
            && (target.url.None? ==> target.root == target.summary == upstream)
  {
    var target := ParseTarget(upstream, parse).value;
    if target.url.Some? {
      SchemeMarkIsThere(target.summary, target.url.value.scheme);
    }
  }

  /** So two accepted targets with one summary are both URLs, or one and the same directory. */
  lemma EqualSummariesEqualKinds(a: string, b: string, parse: string -> Option<Parsed>)
    requires PrintsScheme(parse)
    requires ParseTarget(a, parse).Ok? && ParseTarget(b, parse).Ok?
    requires ParseTarget(a, parse).value.summary == ParseTarget(b, parse).value.summary
    ensures ParseTarget(a, parse).value.url.Some? <==> ParseTarget(b, parse).value.url.Some?
    ensures ParseTarget(a, parse).value.url.None? ==> ParseTarget(a, parse).value == ParseTarget(b, parse).value
  {
    SummaryTellsKind(a, parse);
    SummaryTellsKind(b, parse);
  }

  // ---------------------------------------------------------------------------------------------
  // What each upstream becomes
  // ---------------------------------------------------------------------------------------------

  predicate NamesDirectory(upstream: string) {
    !Contains(upstream, "://") && (upstream == "." || upstream == ".." || '/' in upstream || '\\' in upstream)
  }

  /** A text without a scheme mark that has a separator, or is one of the two dots, is a directory as it stands. */
  lemma DirectoryTarget(upstream: string, parse: string -> Option<Parsed>)
    requires NamesDirectory(upstream)
    ensures ParseTarget(upstream, parse) == Ok(Target(None, upstream, upstream))
  {
  }

  /** A text with a scheme mark is what net/url makes of it, if that has a supported scheme and a host. */
  lemma UrlTarget(upstream: string, parse: string -> Option<Parsed>)
    requires Contains(upstream, "://")
    ensures ParseTarget(upstream, parse).Ok? <==>
              && parse(upstream).Some? && parse(upstream).value.url.scheme in ["http", "https"]
              && parse(upstream).value.url.host != ""
    ensures ParseTarget(upstream, parse).Ok? ==>
              ParseTarget(upstream, parse).value == Target(Some(parse(upstream).value.url), "", parse(upstream).value.text)
    ensures ParseTarget(upstream, parse).Err? ==>
              match parse(upstream)
              case None => ParseTarget(upstream, parse).error == InvalidURL
              case Some(parsed) =>
                ParseTarget(upstream, parse).error ==
                if parsed.url.scheme in ["http", "https"] then MissingHost else UnsupportedScheme(parsed.url.scheme)
  {
  }

  /** A decimal number from 1 to 65535 without sign or leading zero. */
  ghost predicate PortText(port: string) {
    exists n: nat :: 1 <= n <= 65535 && port == Itoa(n)
  }

  lemma ValidPortIff(port: string)
    ensures ValidPort(port) <==> PortText(port)
  {
    if ValidPort(port) {
      var n: nat := Atoi(port).value;
      assert port == Itoa(n);
    }
    forall n: nat | 1 <= n <= 65535 && port == Itoa(n)
      ensures ValidPort(port)
    {
      AtoiItoa(n);
    }
  }

  lemma ShorthandHost(upstream: string)
    ensures ParseTargetHost(upstream).Ok? <==>
              ':' !in upstream || exists host, port :: StandsFor(upstream, host, port) && host != "" && PortText(port)
    ensures ParseTargetHost(upstream).Ok? ==>
              ParseTargetHost(upstream).value == Target(Some(Url("http", upstream, "", "", "")), "", "http://" + EscapeHost(upstream))
    ensures ParseTargetHost(upstream).Err? ==>
              ParseTargetHost(upstream).error ==
              if forall host, port :: !StandsFor(upstream, host, port) then MalformedHost
              else if exists port :: StandsFor(upstream, "", port) then MissingHost else BadPort
  {
    forall host, port
      ensures SplitHostPort(upstream) == Some(Address(host, port)) <==> StandsFor(upstream, host, port)
    {
      SplitIff(upstream, host, port);
    }
    if SplitHostPort(upstream).Some? {
      var split := SplitHostPort(upstream).value;
      assert StandsFor(upstream, split.host, split.port);
      StandingForHasColon(upstream, split.host, split.port);
      ValidPortIff(split.port);
    }
    hide SplitHostPort, StandsFor, ValidPort, PortText, EscapeHost;
    assert PROTOCOL_HTTP + "://" == "http://";
  }

  /**
   Any other text is a host: without a colon as it stands, and with one if it splits into a host and a
   plain port number. It is forwarded to over http, and its summary is the URL it stands for.
   */
  lemma ShorthandTarget(upstream: string, parse: string -> Option<Parsed>)
    requires !Contains(upstream, "://") && !NamesDirectory(upstream)
    ensures ParseTarget(upstream, parse).Ok? <==>
              ':' !in upstream || exists host, port :: StandsFor(upstream, host, port) && host != "" && PortText(port)
    ensures ParseTarget(upstream, parse).Ok? ==>
              ParseTarget(upstream, parse).value
              == Target(Some(Url("http", upstream, "", "", "")), "", "http://" + EscapeHost(upstream))
    ensures ParseTarget(upstream, parse).Err? ==>
              ParseTarget(upstream, parse).error ==
              if forall host, port :: !StandsFor(upstream, host, port) then MalformedHost
              else if exists port :: StandsFor(upstream, "", port) then MissingHost else BadPort
  {
    ShorthandHost(upstream);
    hide ParseTargetHost, StandsFor, PortText, EscapeHost, Contains;
  }

  lemma StandingForHasColon(s: string, host: string, port: string)
    requires StandsFor(s, host, port)
    ensures ':' in s
  {
    if s == "[" + host + "]:" + port {
      assert s[|host| + 2] == ':';
    } else {
      assert s[|host|] == ':';
    }
  }

  predicate HostByte(c: char) {
    'a' <= c <= 'z' || 'A' <= c <= 'Z' || '0' <= c <= '9' || c in "-_.~:[]!$&'()*+,;=<>\""
  }

  /** The bytes of names, addresses and ports are printed as they are. */
  lemma {:induction false} HostBytesStay(host: string)
    requires forall i :: 0 <= i < |host| ==> HostByte(host[i])
    ensures EscapeHost(host) == host
  {
    if host != "" {
      HostBytesStay(host[1..]);
      assert host == [host[0]] + host[1..];
    }
  }

  lemma EscapedOneByte(c: char)
    requires c as int < 256
    ensures EscapeHost([c]) == [c] <==> HostByte(c)
    ensures !HostByte(c) ==> |EscapeHost([c])| == 3 && EscapeHost([c])[0] == '%' && forall i :: 1 <= i < 3 ==> EscapeHost([c])[i] in "0123456789ABCDEF"
    ensures 16 * HexValue(UpperHex(c as int / 16 % 16)) + HexValue(UpperHex(c as int % 16)) == c as int
  {
    HexPair(c);
    assert [c][1..] == "" && EscapeHost("") == "";
  }

  /** Different hosts print differently. */
  lemma {:induction false} EscapeHostInjective(a: string, b: string)
    requires IsBytes(a) && IsBytes(b) && EscapeHost(a) == EscapeHost(b)
    ensures a == b
  {
    if a != "" && b != "" {
      HexPair(a[0]);
      HexPair(b[0]);
      FirstByteShows(a);
      FirstByteShows(b);
      assert a[0] == b[0];
      var n := if ShouldEscapeInHost(a[0]) then 3 else 1;
      assert EscapeHost(a)[n..] == EscapeHost(a[1..]) && EscapeHost(b)[n..] == EscapeHost(b[1..]);
      EscapeHostInjective(a[1..], b[1..]);
      assert a == [a[0]] + a[1..] && b == [b[0]] + b[1..];
    }
  }

  lemma FirstByteShows(host: string)
    requires host != ""
    ensures var shown, c := EscapeHost(host), host[0];
            if ShouldEscapeInHost(c) then
              |shown| >= 3 && shown[0] == '%' && shown[1] == UpperHex(c as int / 16 % 16) && shown[2] == UpperHex(c as int % 16)
            else |shown| >= 1 && shown[0] == c && c != '%'
  {
  }

  /** Two host shorthands with one summary are the same target. */
  lemma EqualShorthandsEqualTargets(a: string, b: string, parse: string -> Option<Parsed>)
    requires IsBytes(a) && !Contains(a, "://") && !NamesDirectory(a)
    requires IsBytes(b) && !Contains(b, "://") && !NamesDirectory(b)
    requires ParseTarget(a, parse).Ok? && ParseTarget(b, parse).Ok?
    requires ParseTarget(a, parse).value.summary == ParseTarget(b, parse).value.summary
    ensures a == b && ParseTarget(a, parse).value == ParseTarget(b, parse).value
  {
    hide ParseTarget, Contains, EscapeHost, NamesDirectory;
    ShorthandTarget(a, parse);
    ShorthandTarget(b, parse);
    assert ("http://" + EscapeHost(a))[7..] == EscapeHost(a) && ("http://" + EscapeHost(b))[7..] == EscapeHost(b);
    EscapeHostInjective(a, b);
  }
}
