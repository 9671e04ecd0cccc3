/**
 The part of Go's net/url that path rewriting rests on: percent-encoding of a path
 (section 2.1 of RFC 3986), its inverse, and URL.EscapedPath.
 */
module Urls {
  import opened GoText

  datatype Url = Url(scheme: string, host: string, path: string, rawPath: string, rawQuery: string)

  /** The URL that has nothing but a decoded path. */
  function PathOnly(path: string): Url {
    Url("", "", path, "", "")
  }

  predicate IsBytes(s: string) {
    forall i :: 0 <= i < |s| ==> s[i] as int < 256
  }

  predicate IsHex(c: char) {
    '0' <= c <= '9' || 'a' <= c <= 'f' || 'A' <= c <= 'F'
  }

  function HexValue(c: char): (v: nat)
    requires IsHex(c)
    ensures v < 16
  {
    if '0' <= c <= '9' then c as int - '0' as int
    else if 'a' <= c <= 'f' then c as int - 'a' as int + 10
    else c as int - 'A' as int + 10
  }

  function UpperHex(v: nat): (c: char)
    requires v < 16
    ensures IsHex(c) && HexValue(c) == v
  {
    if v < 10 then ('0' as int + v) as char else ('A' as int + v - 10) as char
  }

  /** url.shouldEscape in path mode. */
  predicate ShouldEscape(c: char) {
    if 'a' <= c <= 'z' || 'A' <= c <= 'Z' || '0' <= c <= '9' then false
    else if c in "-_.~" then false
    else if c in "$&+,/:;=?@" then c == '?'
    else true
  }

  /** What one byte of an encoded path may be (url.validEncoded). */
  predicate ValidByte(c: char) {
    c in "!$&'()*+,;=:@" || c in "[]" || c == '%' || !ShouldEscape(c)
  }

  predicate ValidEncoded(s: string) {
    forall i :: 0 <= i < |s| ==> ValidByte(s[i])
  }

  function EscapeByte(c: char): string {
    if ShouldEscape(c) then ['%', UpperHex(c as int / 16 % 16), UpperHex(c as int % 16)] else [c]
  }

  function Escape(s: string): string {
    if s == "" then "" else EscapeByte(s[0]) + Escape(s[1..])
  }

  predicate StartsWithEscape(s: string) {
    |s| >= 3 && s[0] == '%' && IsHex(s[1]) && IsHex(s[2])
  }

  function DecodedByte(s: string): char
    requires StartsWithEscape(s)
  {
    (16 * HexValue(s[1]) + HexValue(s[2])) as char
  }

  /** url.unescape in path mode: None is the invalid-escape error. */
  function Unescape(s: string): Option<string> {
    if s == "" then Some("")
    else if s[0] == '%' then
      if !StartsWithEscape(s) then None
      else match Unescape(s[3..]) case None => None case Some(rest) => Some([DecodedByte(s)] + rest)
    else match Unescape(s[1..]) case None => None case Some(rest) => Some([s[0]] + rest)
  }

  /** URL.EscapedPath: the raw form when it is a valid encoding of the path, else the default one. */
  function EscapedPath(u: Url): string {
    if u.rawPath != "" && ValidEncoded(u.rawPath) && Unescape(u.rawPath) == Some(u.path) then u.rawPath
    else if u.path == "*" then "*"
    else Escape(u.path)
  }

  // ---------------------------------------------------------------------------------------------
  // Encoding and decoding
  // ---------------------------------------------------------------------------------------------

  function Percents(s: string): nat {
    if s == "" then 0 else (if s[0] == '%' then 1 else 0) + Percents(s[1..])
  }

  lemma {:induction false} PercentsAppend(a: string, b: string)
    ensures Percents(a + b) == Percents(a) + Percents(b)
  {
    if a == "" {
      assert a + b == b;
    } else {
      assert (a + b)[1..] == a[1..] + b;
      PercentsAppend(a[1..], b);
    }
  }

  lemma {:induction false} NoPercent(s: string)
    ensures '%' !in s <==> Percents(s) == 0
  {
    if s != "" {
      NoPercent(s[1..]);
    }
  }

  /** Every escape takes three bytes to one, so decoding shortens by two for each percent sign. */
  lemma {:induction false} UnescapedLength(s: string)
    requires Unescape(s).Some?
    ensures |Unescape(s).value| == |s| - 2 * Percents(s)
  {
    if s != "" {
      if s[0] == '%' {
        UnescapedLength(s[3..]);
        assert s == s[..3] + s[3..];
        PercentsAppend(s[..3], s[3..]);
        NoPercent(s[1..3]);
        assert s[..3][1..] == s[1..3];
      } else {
        UnescapedLength(s[1..]);
      }
    }
  }

  lemma UnescapeFirst(a: string, n: nat, c: char, b: string)
    requires n <= |a| && Unescape(a[n..]).Some? && Unescape(b).Some?
    ensures [c] + (Unescape(a[n..]).value + Unescape(b).value) == ([c] + Unescape(a[n..]).value) + Unescape(b).value
  {
    hide Unescape;
  }

  /** Decoding distributes over a cut that does not fall inside an escape. */
  lemma {:induction false} UnescapeAppend(a: string, b: string)
    requires Unescape(a).Some?
    ensures Unescape(a + b) == match Unescape(b) case None => None case Some(t) => Some(Unescape(a).value + t)
  {
    if a == "" {
      assert a + b == b;
      assert Unescape(b).Some? ==> "" + Unescape(b).value == Unescape(b).value;
    } else if a[0] == '%' {
      UnescapeAppend(a[3..], b);
      assert (a + b)[3..] == a[3..] + b;
      assert (a + b)[1] == a[1] && (a + b)[2] == a[2];
      if Unescape(b).Some? {
        UnescapeFirst(a, 3, DecodedByte(a), b);
      }
    } else {
      UnescapeAppend(a[1..], b);
      assert (a + b)[1..] == a[1..] + b;
      if Unescape(b).Some? {
        UnescapeFirst(a, 1, a[0], b);
      }
    }
  }

  lemma {:induction false} UnescapePlain(s: string)
    requires '%' !in s
    ensures Unescape(s) == Some(s)
  {
    if s != "" {
      UnescapePlain(s[1..]);
      assert s == [s[0]] + s[1..];
    }
  }

  lemma HexIsValid(c: char)
    requires IsHex(c)
    ensures ValidByte(c)
  {
  }

  lemma HexPair(c: char)
    requires c as int < 256
    ensures 16 * HexValue(UpperHex(c as int / 16 % 16)) + HexValue(UpperHex(c as int % 16)) == c as int
  {
    assert c as int / 16 < 16;
  }

  lemma EscapedByteDecodes(c: char)
    requires c as int < 256 && ShouldEscape(c)
    ensures Unescape(EscapeByte(c)) == Some([c])
    ensures ValidEncoded(EscapeByte(c))
  {
    hide ValidByte, ShouldEscape, HexValue, UpperHex, IsHex;
    var e := EscapeByte(c);
    HexPair(c);
    PercentIsValid();
    HexIsValid(e[1]);
    HexIsValid(e[2]);
    assert StartsWithEscape(e) && e[3..] == "" && Unescape("") == Some("");
    assert [c] + "" == [c];
  }

  lemma PercentIsValid()
    ensures ValidByte('%')
  {
  }

  lemma EscapeByteDecodes(c: char)
    requires c as int < 256
    ensures Unescape(EscapeByte(c)) == Some([c])
    ensures ValidEncoded(EscapeByte(c))
  {
    if ShouldEscape(c) {
      EscapedByteDecodes(c);
    } else {
      assert ShouldEscape('%');
      assert [c][1..] == "" && Unescape("") == Some("");
      assert Unescape([c]) == Some([c] + "") && [c] + "" == [c];
    }
  }

  lemma {:induction false} EscapeDecodes(s: string)
    requires IsBytes(s)
    ensures Unescape(Escape(s)) == Some(s)
    ensures ValidEncoded(Escape(s))
  {
    if s != "" {
      EscapeDecodes(s[1..]);
      EscapeByteDecodes(s[0]);
      UnescapeAppend(EscapeByte(s[0]), Escape(s[1..]));
      assert s == [s[0]] + s[1..];
    }
  }

  /** Whatever the raw path says, EscapedPath is a valid encoding of the path. */
  lemma EscapedPathDecodes(u: Url)
    requires IsBytes(u.path)
    ensures Unescape(EscapedPath(u)) == Some(u.path)
    ensures ValidEncoded(EscapedPath(u))
  {
    EscapeDecodes(u.path);
    if u.path == "*" {
      UnescapePlain("*");
    }
  }

  /** A byte that no path is sent with: controls, spaces, bytes beyond ASCII and the delimiters of RFC 3986. */
  predicate NeverSent(c: char) {
    c <= ' ' || c >= 127 as char || c in "\"<>\\^`{|}?#"
  }

  /** Whatever the path and the raw path, none of these is sent. */
  lemma EscapedPathIsSafe(u: Url)
    ensures forall i :: 0 <= i < |EscapedPath(u)| ==> !NeverSent(EscapedPath(u)[i])
  {
    if EscapedPath(u) == Escape(u.path) {
      EscapeIsSafe(u.path);
    } else if EscapedPath(u) == u.rawPath {
      forall i | 0 <= i < |u.rawPath|
        ensures ValidByte(u.rawPath[i]) ==> !NeverSent(u.rawPath[i])
      {
        ValidIsSafe(u.rawPath[i]);
      }
    }
  }

  lemma ValidIsSafe(c: char)
    requires ValidByte(c)
    ensures !NeverSent(c)
  {
  }

  lemma {:induction false} EscapeIsSafe(s: string)
    ensures forall i :: 0 <= i < |Escape(s)| ==> !NeverSent(Escape(s)[i])
  {
    hide NeverSent, EscapeByte;
    if s != "" {
      EscapeIsSafe(s[1..]);
      EscapeByteIsSafe(s[0]);
    }
  }

  lemma EscapeByteIsSafe(c: char)
    ensures forall i :: 0 <= i < |EscapeByte(c)| ==> !NeverSent(EscapeByte(c)[i])
  {
    forall h | IsHex(h)
      ensures !NeverSent(h)
    {
    }
  }

  predicate Ordinary(c: char) {
    'a' <= c <= 'z' || 'A' <= c <= 'Z' || '0' <= c <= '9' || c in "-_.~$&+,/:;=@"
  }

  /** The default encoding leaves ordinary bytes, and writes any other as "%" and two digits in upper case. */
  lemma EscapedByte(c: char)
    requires c as int < 256
    ensures Ordinary(c) <==> EscapeByte(c) == [c]
    ensures !Ordinary(c) ==>
              && StartsWithEscape(EscapeByte(c)) && DecodedByte(EscapeByte(c)) == c
              && |EscapeByte(c)| == 3 && forall i :: 1 <= i < 3 ==> EscapeByte(c)[i] in "0123456789ABCDEF"
  {
    HexPair(c);
  }

  lemma OrdinaryStays(c: char)
    requires Ordinary(c)
    ensures !ShouldEscape(c)
  {
  }

  lemma {:induction false} EscapeOrdinary(path: string)
    requires forall i :: 0 <= i < |path| ==> Ordinary(path[i])
    ensures Escape(path) == path
  {
    hide Ordinary, ShouldEscape;
    if path != "" {
      OrdinaryStays(path[0]);
      EscapeOrdinary(path[1..]);
      assert path == [path[0]] + path[1..];
    }
  }

  /** A path of ordinary bytes is sent as it is, and so is the path "*". */
  lemma OrdinaryIsSentAsIs(path: string)
    requires path == "*" || forall i :: 0 <= i < |path| ==> Ordinary(path[i])
    ensures EscapedPath(PathOnly(path)) == path
  {
    hide Ordinary, Escape, Unescape, ValidEncoded;
    if path != "*" {
      EscapeOrdinary(path);
    }
  }

  /** A raw path that is a valid encoding of the path is what is sent, rather than the default encoding. */
  lemma GoodRawPathIsSent(u: Url)
    requires u.rawPath != "" && Unescape(u.rawPath) == Some(u.path)
    requires forall i :: 0 <= i < |u.rawPath| ==> Ordinary(u.rawPath[i]) || u.rawPath[i] in "!'()*[]%"
    ensures EscapedPath(u) == u.rawPath
  {
  }

  // ---------------------------------------------------------------------------------------------
  // What an encoding means
  // ---------------------------------------------------------------------------------------------

  const LOWER_DIGITS := "0123456789abcdef"
  const UPPER_DIGITS := "0123456789ABCDEF"

  /** The digits of escapes, of either case, and the case in which they are written. */
  lemma HexDigits(c: char, v: nat)
    requires v < 16
    ensures IsHex(c) && HexValue(c) == v <==> c == LOWER_DIGITS[v] || c == UPPER_DIGITS[v]
    ensures UpperHex(v) == UPPER_DIGITS[v]
  {
  }

  /** A byte of a path as it may be written: as it is, or as an escape with two digits. */
  datatype Piece = Plain(byte: char) | Coded(high: nat, low: nat, upperHigh: bool, upperLow: bool)

  predicate ValidPiece(piece: Piece) {
    match piece
    case Plain(byte) => byte != '%'
    case Coded(high, low, _, _) => high < 16 && low < 16
  }

  function Digit(v: nat, upper: bool): char
    requires v < 16
  {
    if upper then UPPER_DIGITS[v] else LOWER_DIGITS[v]
  }

  function PieceText(piece: Piece): string
    requires ValidPiece(piece)
  {
    match piece
    case Plain(byte) => [byte]
    case Coded(high, low, upperHigh, upperLow) => ['%', Digit(high, upperHigh), Digit(low, upperLow)]
  }

  function PieceByte(piece: Piece): char
    requires ValidPiece(piece)
  {
    match piece
    case Plain(byte) => byte
    case Coded(high, low, _, _) => (16 * high + low) as char
  }

  predicate ValidPieces(pieces: seq<Piece>) {
    forall i :: 0 <= i < |pieces| ==> ValidPiece(pieces[i])
  }

  function Written(pieces: seq<Piece>): string
    requires ValidPieces(pieces)
  {
    if |pieces| == 0 then "" else PieceText(pieces[0]) + Written(pieces[1..])
  }

  function Meant(pieces: seq<Piece>): string
    requires ValidPieces(pieces)
  {
    if |pieces| == 0 then "" else [PieceByte(pieces[0])] + Meant(pieces[1..])
  }

  lemma DigitIsHex(v: nat, upper: bool)
    requires v < 16
    ensures IsHex(Digit(v, upper)) && HexValue(Digit(v, upper)) == v
  {
    HexDigits(Digit(v, upper), v);
  }

  lemma {:induction false} WrittenDecodes(pieces: seq<Piece>)
    requires ValidPieces(pieces)
    ensures Unescape(Written(pieces)) == Some(Meant(pieces))
  {
    hide HexValue, IsHex, Digit;
    if |pieces| > 0 {
      WrittenDecodes(pieces[1..]);
      var s, rest := Written(pieces), Written(pieces[1..]);
      match pieces[0] {
        case Plain(byte) => assert s[0] == byte && s[1..] == rest;
        case Coded(high, low, upperHigh, upperLow) =>
          DigitIsHex(high, upperHigh);
          DigitIsHex(low, upperLow);
          assert s[0] == '%' && s[1] == Digit(high, upperHigh) && s[2] == Digit(low, upperLow) && s[3..] == rest;
      }
    }
  }

  lemma FirstPiece(s: string) returns (piece: Piece)
    requires s != "" && (s[0] == '%' ==> StartsWithEscape(s))
    ensures ValidPiece(piece)
    ensures s == PieceText(piece) + (if s[0] == '%' then s[3..] else s[1..])
    ensures PieceByte(piece) == if s[0] == '%' then DecodedByte(s) else s[0]
  {
    if s[0] == '%' {
      var high, low := HexValue(s[1]), HexValue(s[2]);
      HexDigits(s[1], high);
      HexDigits(s[2], low);
      hide HexValue, IsHex;
      piece := Coded(high, low, s[1] == UPPER_DIGITS[high], s[2] == UPPER_DIGITS[low]);
      assert s == ['%', s[1], s[2]] + s[3..];
    } else {
      piece := Plain(s[0]);
    }
  }

  lemma {:induction false} DecodedIsWritten(s: string) returns (pieces: seq<Piece>)
    requires Unescape(s).Some?
    ensures ValidPieces(pieces) && Written(pieces) == s && Meant(pieces) == Unescape(s).value
  {
    hide HexValue, IsHex, PieceText, PieceByte;
    pieces := [];
    if s != "" {
      var piece := FirstPiece(s);
      var rest := DecodedIsWritten(if s[0] == '%' then s[3..] else s[1..]);
      pieces := [piece] + rest;
      assert pieces[1..] == rest;
    }
  }

  /** A text decodes to a path exactly when it writes each of its bytes as it is or as an escape, in either case. */
  lemma UnescapeIff(s: string, path: string)
    ensures Unescape(s) == Some(path) <==> exists pieces :: ValidPieces(pieces) && Written(pieces) == s && Meant(pieces) == path
  {
    if Unescape(s) == Some(path) {
      var pieces := DecodedIsWritten(s);
    }
    forall pieces | ValidPieces(pieces) && Written(pieces) == s && Meant(pieces) == path
      ensures Unescape(s) == Some(path)
    {
      WrittenDecodes(pieces);
    }
  }
}
