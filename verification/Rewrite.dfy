/**
 Path rewriting (buildOutPath in internal/route/path.go, OutboundURL in internal/route/handler.go):
 the decoded path and its encoded form are stripped and joined in step.
 */
module Rewrite {
  import opened GoText
  import opened Urls
  import opened Prefixes

  /** The pair buildOutPath returns, or the panic of its slice expression. */
  datatype OutPath = OutPath(path: string, rawPath: string) | SliceOutOfRange

  function BuildOutPath(inbound: Url, prefix: string, base: Url): OutPath {
    var restPath := TrimPrefix(inbound.path, prefix);
    var escaped := EscapedPath(inbound);
    var restRawPath := TrimPrefix(escaped, prefix);
    var path := SingleJoiningSlash(base.path, restPath);
    if HasPrefix(inbound.path, prefix) && !HasPrefix(escaped, prefix) then OutPath(path, "")
    else if HasSuffix(base.path, "/") && HasPrefix(restPath, "/") && restRawPath == "" then SliceOutOfRange
    else
      var raw := JoinRaw(EscapedPath(base), base.path, restRawPath, restPath);
      OutPath(path, if raw == EscapedPath(PathOnly(path)) then "" else raw)
  }

  /** The switch of buildOutPath: the encoded halves, joined by what the decoded halves look like. */
  function JoinRaw(baseRaw: string, base: string, restRaw: string, rest: string): string
    requires HasSuffix(base, "/") && HasPrefix(rest, "/") ==> restRaw != ""
  {
    var baseSlash := HasSuffix(base, "/");
    var restSlash := HasPrefix(rest, "/");
    if baseSlash && restSlash then baseRaw + restRaw[1..]
    else if !baseSlash && !restSlash then baseRaw + "/" + restRaw
    else baseRaw + restRaw
  }

  /** Route.OutboundURL, for the prefix and the base URL of the route. */
  function OutboundURL(inbound: Url, rawQuery: string, prefix: string, base: Url): Option<Url> {
    match BuildOutPath(inbound, prefix, base)
    case SliceOutOfRange => None
    case OutPath(path, rawPath) =>
      var query := if base.rawQuery == "" || rawQuery == "" then base.rawQuery + rawQuery
                   else base.rawQuery + "&" + rawQuery;
      Some(Url(base.scheme, base.host, path, rawPath, query))
  }

  // ---------------------------------------------------------------------------------------------
  // What the caller can check beforehand
  // ---------------------------------------------------------------------------------------------

  /** If the encoded path has the prefix, so has the decoded one. Picking a route gives this. */
  predicate Aligned(inbound: Url, prefix: string) {
    HasPrefix(EscapedPath(inbound), prefix) ==> HasPrefix(inbound.path, prefix)
  }

  /** The guard of buildOutPath: only the decoded path has the prefix. */
  predicate EncodedPrefixMissing(inbound: Url, prefix: string) {
    HasPrefix(inbound.path, prefix) && !HasPrefix(EscapedPath(inbound), prefix)
  }

  predicate StartsWithEncodedSlash(s: string) {
    |s| >= 3 && (s[..3] == "%2F" || s[..3] == "%2f")
  }

  predicate RemainderUsable(inbound: Url, prefix: string, base: Url) {
    && (HasPrefix(inbound.path, prefix) ==> '%' !in prefix)
    && !(HasSuffix(base.path, "/") && StartsWithEncodedSlash(TrimPrefix(EscapedPath(inbound), prefix)))
  }

  /** A path that matches a prefix is aligned with it, whatever its raw form. */
  lemma PickedIsAligned(inbound: Url, prefix: string)
    requires IsBytes(inbound.path)
    requires PathHasPrefix(inbound.path, prefix)
    ensures Aligned(inbound, prefix)
  {
  }

  /** Stripping a percent-free prefix commutes with decoding. */
  lemma PlainPrefixDecodes(escaped: string, prefix: string)
    requires HasPrefix(escaped, prefix) && '%' !in prefix && Unescape(escaped).Some?
    ensures HasPrefix(Unescape(escaped).value, prefix)
    ensures Unescape(escaped[|prefix|..]) == Some(Unescape(escaped).value[|prefix|..])
  {
    UnescapePlain(prefix);
    UnescapeAppend(prefix, escaped[|prefix|..]);
    assert escaped == prefix + escaped[|prefix|..];
  }

  /** A decoded leading slash was encoded either as itself or as %2F. */
  lemma LeadingSlash(encoded: string, decoded: string)
    requires Unescape(encoded) == Some(decoded)
    ensures HasPrefix(decoded, "/") <==> HasPrefix(encoded, "/") || StartsWithEncodedSlash(encoded)
    ensures HasPrefix(encoded, "/") ==> Unescape(encoded[1..]) == Some(decoded[1..])
  {
    SlashEnding(decoded);
    SlashEnding(encoded);
    if encoded != "" && encoded[0] == '%' {
      assert encoded[..3] == ['%', encoded[1], encoded[2]];
      assert DecodedByte(encoded) == '/' <==> HexValue(encoded[1]) == 2 && HexValue(encoded[2]) == 15;
    } else if encoded != "" {
      var rest := Unescape(encoded[1..]).value;
      assert ([encoded[0]] + rest)[1..] == rest;
    }
  }

  // ---------------------------------------------------------------------------------------------
  // The slice is in range
  // ---------------------------------------------------------------------------------------------

  /** How long the decoded remainder is, next to the encoded one. */
  lemma RemainderLength(inbound: Url, prefix: string)
    requires IsBytes(inbound.path)
    requires HasPrefix(inbound.path, prefix) == HasPrefix(EscapedPath(inbound), prefix)
    ensures var rest := TrimPrefix(EscapedPath(inbound), prefix);
            |TrimPrefix(inbound.path, prefix)| ==
            |rest| - 2 * Percents(rest) - if HasPrefix(inbound.path, prefix) then 2 * Percents(prefix) else 0
  {
    var escaped := EscapedPath(inbound);
    EscapedPathDecodes(inbound);
    UnescapedLength(escaped);
    if HasPrefix(inbound.path, prefix) {
      assert escaped == prefix + escaped[|prefix|..];
      PercentsAppend(prefix, escaped[|prefix|..]);
    }
  }

  /** The slice `restRawPath[1:]` is in range for every aligned path and every base. */
  lemma SliceInRange(inbound: Url, prefix: string, base: Url)
    requires IsBytes(inbound.path)
    requires Aligned(inbound, prefix)
    ensures BuildOutPath(inbound, prefix, base).OutPath?
  {
    if !EncodedPrefixMissing(inbound, prefix) {
      RemainderLength(inbound, prefix);
    }
  }

  /** Without the guarantee that picking the route gives, the slice can be out of range. */
  lemma SliceNeedsAlignment()
    ensures BuildOutPath(Url("", "", "/A", "/%41", ""), "/%41", PathOnly("/")) == SliceOutOfRange
  {
    var inbound := Url("", "", "/A", "/%41", "");
    UnescapePlain("/");
    assert Unescape("%41") == Some("A") by {
      assert "%41"[3..] == "" && Unescape("") == Some("") && DecodedByte("%41") == 'A';
      assert ['A'] + "" == "A";
    }
    UnescapeAppend("/", "%41");
    assert "/" + "%41" == "/%41" && "/" + "A" == "/A";
    assert EscapedPath(inbound) == "/%41";
    SlashEnding("/");
    SlashEnding("/A");
    assert TrimPrefix("/A", "/%41") == "/A";
    assert TrimPrefix("/%41", "/%41") == "";
  }

  // ---------------------------------------------------------------------------------------------
  // The raw path decodes to the path
  // ---------------------------------------------------------------------------------------------

  lemma JoinRawDecodes(baseRaw: string, base: string, restRaw: string, rest: string)
    requires Unescape(baseRaw) == Some(base) && Unescape(restRaw) == Some(rest)
    requires !(HasSuffix(base, "/") && StartsWithEncodedSlash(restRaw))
    ensures HasSuffix(base, "/") && HasPrefix(rest, "/") ==> restRaw != ""
    ensures Unescape(JoinRaw(baseRaw, base, restRaw, rest)) == Some(SingleJoiningSlash(base, rest))
  {
    LeadingSlash(restRaw, rest);
    if HasSuffix(base, "/") && HasPrefix(rest, "/") {
      UnescapeAppend(baseRaw, restRaw[1..]);
    } else if !HasSuffix(base, "/") && !HasPrefix(rest, "/") {
      UnescapePlain("/");
      UnescapeAppend(baseRaw, "/");
      UnescapeAppend(baseRaw + "/", restRaw);
    } else {
      UnescapeAppend(baseRaw, restRaw);
    }
  }

  /** The decoded length of the joined raw path exceeds that of the joined path by `extra` at least. */
  lemma JoinRawIsLonger(baseRaw: string, base: string, restRaw: string, rest: string, extra: nat)
    requires |base| == |baseRaw| - 2 * Percents(baseRaw)
    requires |rest| + extra == |restRaw| - 2 * Percents(restRaw)
    requires extra > 0 || (HasSuffix(base, "/") && HasPrefix(rest, "/") && restRaw != "" && restRaw[0] == '%')
    ensures HasSuffix(base, "/") && HasPrefix(rest, "/") ==> restRaw != ""
    ensures var raw := JoinRaw(baseRaw, base, restRaw, rest);
            |raw| - 2 * Percents(raw) > |SingleJoiningSlash(base, rest)|
  {
    PercentsAppend(baseRaw, restRaw);
    PercentsAppend(baseRaw, "/");
    PercentsAppend(baseRaw + "/", restRaw);
    NoPercent("/");
    if restRaw != "" {
      PercentsAppend(baseRaw, restRaw[1..]);
    }
  }

  /** The remainder that JoinRaw gets decodes to the decoded remainder. */
  lemma PlainRemainderDecodes(inbound: Url, prefix: string)
    requires IsBytes(inbound.path)
    requires HasPrefix(inbound.path, prefix) == HasPrefix(EscapedPath(inbound), prefix)
    requires HasPrefix(inbound.path, prefix) ==> '%' !in prefix
    ensures Unescape(TrimPrefix(EscapedPath(inbound), prefix)) == Some(TrimPrefix(inbound.path, prefix))
  {
    EscapedPathDecodes(inbound);
    if HasPrefix(inbound.path, prefix) {
      PlainPrefixDecodes(EscapedPath(inbound), prefix);
    }
  }

  lemma UsableRemainderDecodes(inbound: Url, prefix: string, base: Url)
    requires IsBytes(inbound.path) && IsBytes(base.path)
    requires Aligned(inbound, prefix) && !EncodedPrefixMissing(inbound, prefix)
    requires RemainderUsable(inbound, prefix, base)
    ensures var built := BuildOutPath(inbound, prefix, base);
            var restRaw, rest := TrimPrefix(EscapedPath(inbound), prefix), TrimPrefix(inbound.path, prefix);
            && built.OutPath?
            && (HasSuffix(base.path, "/") && HasPrefix(rest, "/") ==> restRaw != "")
            && var raw := JoinRaw(EscapedPath(base), base.path, restRaw, rest);
            && Unescape(raw) == Some(built.path)
            && built.rawPath == if raw == EscapedPath(PathOnly(built.path)) then "" else raw
  {
    EscapedPathDecodes(base);
    PlainRemainderDecodes(inbound, prefix);
    JoinRawDecodes(EscapedPath(base), base.path,
                   TrimPrefix(EscapedPath(inbound), prefix), TrimPrefix(inbound.path, prefix));
  }

  lemma UnusableRemainderIsLonger(inbound: Url, prefix: string, base: Url)
    requires IsBytes(inbound.path) && IsBytes(base.path)
    requires Aligned(inbound, prefix) && !EncodedPrefixMissing(inbound, prefix)
    requires !RemainderUsable(inbound, prefix, base)
    ensures var built := BuildOutPath(inbound, prefix, base);
            built.OutPath? && built.rawPath != ""
            && |built.rawPath| - 2 * Percents(built.rawPath) > |built.path|
  {
    SliceInRange(inbound, prefix, base);
    RemainderLength(inbound, prefix);
    NoPercent(prefix);
    EscapedPathDecodes(base);
    UnescapedLength(EscapedPath(base));
    var restRaw, rest := TrimPrefix(EscapedPath(inbound), prefix), TrimPrefix(inbound.path, prefix);
    var extra := if HasPrefix(inbound.path, prefix) then 2 * Percents(prefix) else 0;
    if extra == 0 {
      PlainRemainderDecodes(inbound, prefix);
      LeadingSlash(restRaw, rest);
      assert restRaw[0] == restRaw[..3][0];
    }
    JoinRawIsLonger(EscapedPath(base), base.path, restRaw, rest, extra);
    var path := SingleJoiningSlash(base.path, rest);
    JoiningBytes(base.path, rest);
    EscapedPathDecodes(PathOnly(path));
    UnescapedLength(EscapedPath(PathOnly(path)));
  }

  lemma JoiningBytes(base: string, rest: string)
    requires IsBytes(base) && IsBytes(rest)
    ensures IsBytes(SingleJoiningSlash(base, rest))
  {
  }

  /**
   The raw path that comes out is empty or decodes to the path, if and only if either the guard
   gave it up or the encoded remainder was usable.
   */
  lemma RawPathDecodesIff(inbound: Url, prefix: string, base: Url)
    requires IsBytes(inbound.path) && IsBytes(base.path)
    requires Aligned(inbound, prefix)
    ensures var built := BuildOutPath(inbound, prefix, base);
            && built.OutPath?
            && (built.rawPath == "" || Unescape(built.rawPath) == Some(built.path)
                <==> EncodedPrefixMissing(inbound, prefix) || RemainderUsable(inbound, prefix, base))
  {
    SliceInRange(inbound, prefix, base);
    if !EncodedPrefixMissing(inbound, prefix) {
      if RemainderUsable(inbound, prefix, base) {
        UsableRemainderDecodes(inbound, prefix, base);
      } else {
        UnusableRemainderIsLonger(inbound, prefix, base);
        var raw := BuildOutPath(inbound, prefix, base).rawPath;
        if Unescape(raw).Some? {
          UnescapedLength(raw);
        }
      }
    }
  }

  // ---------------------------------------------------------------------------------------------
  // The encoding that goes out
  // ---------------------------------------------------------------------------------------------

  /** The base's encoded path joined with the inbound encoded remainder, byte for byte. */
  function JoinEncoded(inbound: Url, prefix: string, base: Url): string {
    var rest := TrimPrefix(EscapedPath(inbound), prefix);
    if HasSuffix(base.path, "/") then
      EscapedPath(base) + (if HasPrefix(rest, "/") then rest[1..] else rest)
    else
      EscapedPath(base) + (if HasPrefix(rest, "/") || StartsWithEncodedSlash(rest) then rest else "/" + rest)
  }

  lemma ValidConcat(a: string, b: string)
    requires ValidEncoded(a) && ValidEncoded(b)
    ensures ValidEncoded(a + b)
  {
  }

  lemma JoinRawIsValid(baseRaw: string, base: string, restRaw: string, rest: string)
    requires ValidEncoded(baseRaw) && ValidEncoded(restRaw)
    requires HasSuffix(base, "/") && HasPrefix(rest, "/") ==> restRaw != ""
    ensures ValidEncoded(JoinRaw(baseRaw, base, restRaw, rest))
  {
    assert ValidByte('/');
    ValidConcat(baseRaw, "/");
    ValidConcat(baseRaw + "/", restRaw);
    ValidConcat(baseRaw, restRaw);
    if restRaw != "" {
      ValidConcat(baseRaw, restRaw[1..]);
    }
  }

  /** A valid encoding of the path, given as raw path or left out as the default, is what is sent. */
  lemma RawIsSent(path: string, raw: string, rawPath: string)
    requires ValidEncoded(raw) && Unescape(raw) == Some(path)
    requires rawPath == raw || (rawPath == "" && raw == EscapedPath(PathOnly(path)))
    ensures EscapedPath(PathOnly(path).(rawPath := rawPath)) == raw
  {
  }

  lemma JoinRawIsJoinEncoded(inbound: Url, prefix: string, base: Url)
    requires Unescape(TrimPrefix(EscapedPath(inbound), prefix)) == Some(TrimPrefix(inbound.path, prefix))
    requires RemainderUsable(inbound, prefix, base)
    requires var rest := TrimPrefix(inbound.path, prefix);
             HasSuffix(base.path, "/") && HasPrefix(rest, "/") ==> TrimPrefix(EscapedPath(inbound), prefix) != ""
    ensures JoinRaw(EscapedPath(base), base.path, TrimPrefix(EscapedPath(inbound), prefix), TrimPrefix(inbound.path, prefix))
         == JoinEncoded(inbound, prefix, base)
  {
    var restRaw := TrimPrefix(EscapedPath(inbound), prefix);
    LeadingSlash(restRaw, TrimPrefix(inbound.path, prefix));
    hide Unescape, EscapedPath;
    assert EscapedPath(base) + "/" + restRaw == EscapedPath(base) + ("/" + restRaw);
  }

  lemma JoinedIsNotEmpty(inbound: Url, prefix: string, base: Url)
    ensures BuildOutPath(inbound, prefix, base).OutPath? ==> BuildOutPath(inbound, prefix, base).path != ""
    ensures Unescape("") == Some("")
  {
    hide EscapedPath, TrimPrefix, JoinRaw;
  }

  lemma UsableRemainderIsSent(inbound: Url, prefix: string, base: Url)
    requires IsBytes(inbound.path) && IsBytes(base.path)
    requires Aligned(inbound, prefix) && !EncodedPrefixMissing(inbound, prefix)
    requires RemainderUsable(inbound, prefix, base)
    ensures var built := BuildOutPath(inbound, prefix, base);
            && built.OutPath? && EscapedPath(PathOnly(built.path).(rawPath := built.rawPath)) == JoinEncoded(inbound, prefix, base)
            && (built.rawPath == "" <==> JoinEncoded(inbound, prefix, base) == EscapedPath(PathOnly(built.path)))
  {
    JoinedIsNotEmpty(inbound, prefix, base);
    hide Unescape, EscapedPath, BuildOutPath, JoinRaw, JoinEncoded;
    UsableRemainderDecodes(inbound, prefix, base);
    EscapedPathDecodes(inbound);
    EscapedPathDecodes(base);
    PlainRemainderDecodes(inbound, prefix);
    var restRaw, rest := TrimPrefix(EscapedPath(inbound), prefix), TrimPrefix(inbound.path, prefix);
    JoinRawIsValid(EscapedPath(base), base.path, restRaw, rest);
    JoinRawIsJoinEncoded(inbound, prefix, base);
    var built := BuildOutPath(inbound, prefix, base);
    RawIsSent(built.path, JoinEncoded(inbound, prefix, base), built.rawPath);
  }

  /** Where the outbound path and query come from, however the encoding turns out. */
  lemma OutboundParts(inbound: Url, rawQuery: string, prefix: string, base: Url)
    requires BuildOutPath(inbound, prefix, base).OutPath?
    ensures var out, built := OutboundURL(inbound, rawQuery, prefix, base), BuildOutPath(inbound, prefix, base);
            && out.Some?
            && out.value.scheme == base.scheme && out.value.host == base.host
            && (base.rawQuery == "" ==> out.value.rawQuery == rawQuery)
            && (rawQuery == "" ==> out.value.rawQuery == base.rawQuery)
            && (base.rawQuery != "" && rawQuery != "" ==> out.value.rawQuery == base.rawQuery + "&" + rawQuery)
            && out.value.path == built.path && out.value.rawPath == built.rawPath
            && built.path == SingleJoiningSlash(base.path, TrimPrefix(inbound.path, prefix))
  {
    hide EscapedPath, JoinRaw, SingleJoiningSlash, TrimPrefix, HasPrefix, HasSuffix;
  }

  /** What is sent depends on the path and the raw path alone. */
  lemma SentEncoding(u: Url)
    ensures EscapedPath(u) == EscapedPath(PathOnly(u.path).(rawPath := u.rawPath))
    ensures u.rawPath == "" ==> EscapedPath(u) == EscapedPath(PathOnly(u.path))
  {
    hide Unescape, Escape, ValidEncoded;
  }

  /** A raw path that does not decode to the path is not sent. */
  lemma RejectedRaw(u: Url)
    requires Unescape(u.rawPath) != Some(u.path)
    ensures EscapedPath(u) == EscapedPath(PathOnly(u.path))
  {
    hide Unescape, Escape, ValidEncoded;
  }

  /**
   What goes out for an aligned inbound path. The decoded path is always the joined one; its
   encoding is the inbound encoding joined to the base's byte for byte when the remainder is
   usable, and the default encoding when the guard gave it up or it is not usable.
   */
  lemma OutboundEncoding(inbound: Url, rawQuery: string, prefix: string, base: Url)
    requires IsBytes(inbound.path) && IsBytes(base.path)
    requires Aligned(inbound, prefix)
    ensures var out := OutboundURL(inbound, rawQuery, prefix, base);
            && out.Some?
            && out.value.scheme == base.scheme && out.value.host == base.host
            && (base.rawQuery == "" ==> out.value.rawQuery == rawQuery)
            && (rawQuery == "" ==> out.value.rawQuery == base.rawQuery)
            && (base.rawQuery != "" && rawQuery != "" ==> out.value.rawQuery == base.rawQuery + "&" + rawQuery)
            && out.value.path == SingleJoiningSlash(base.path, TrimPrefix(inbound.path, prefix))
            && Unescape(EscapedPath(out.value)) == Some(out.value.path)
            && EscapedPath(out.value) ==
               if !EncodedPrefixMissing(inbound, prefix) && RemainderUsable(inbound, prefix, base)
               then JoinEncoded(inbound, prefix, base)
               else EscapedPath(PathOnly(out.value.path))
  {
    hide Unescape, EscapedPath, BuildOutPath, OutboundURL, JoinEncoded, SingleJoiningSlash, TrimPrefix, IsBytes,
         Aligned, EncodedPrefixMissing, RemainderUsable;
    RawPathDecodesIff(inbound, prefix, base);
    OutboundParts(inbound, rawQuery, prefix, base);
    var out := OutboundURL(inbound, rawQuery, prefix, base).value;
    TrimmedBytes(inbound.path, prefix);
    JoiningBytes(base.path, TrimPrefix(inbound.path, prefix));
    EscapedPathDecodes(out);
    SentEncoding(out);
    if EncodedPrefixMissing(inbound, prefix) {
      GivenUp(inbound, prefix, base);
    } else if RemainderUsable(inbound, prefix, base) {
      UsableRemainderIsSent(inbound, prefix, base);
    } else if out.rawPath != "" {
      RejectedRaw(out);
    }
  }

  /** Where the remainder is usable, a raw path is set exactly when the default encoding is not the one that goes out. */
  lemma RawPathIsNeeded(inbound: Url, rawQuery: string, prefix: string, base: Url)
    requires IsBytes(inbound.path) && IsBytes(base.path)
    requires Aligned(inbound, prefix)
    requires !EncodedPrefixMissing(inbound, prefix) && RemainderUsable(inbound, prefix, base)
    ensures var out := OutboundURL(inbound, rawQuery, prefix, base);
            && out.Some?
            && (out.value.rawPath == "" <==> JoinEncoded(inbound, prefix, base) == EscapedPath(PathOnly(out.value.path)))
  {
    hide EscapedPath, BuildOutPath, OutboundURL, JoinEncoded, IsBytes, Aligned, EncodedPrefixMissing, RemainderUsable;
    UsableRemainderIsSent(inbound, prefix, base);
    OutboundParts(inbound, rawQuery, prefix, base);
  }

  /** The guard leaves no raw path. */
  lemma GivenUp(inbound: Url, prefix: string, base: Url)
    requires EncodedPrefixMissing(inbound, prefix)
    ensures BuildOutPath(inbound, prefix, base).OutPath? && BuildOutPath(inbound, prefix, base).rawPath == ""
  {
    hide EscapedPath, SingleJoiningSlash;
  }

  lemma TrimmedBytes(s: string, prefix: string)
    requires IsBytes(s)
    ensures IsBytes(TrimPrefix(s, prefix))
  {
  }
}
