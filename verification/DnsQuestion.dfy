/**
 The DNS question encoder and decoder of internal/testutil/dns.go: the header of section 4.1.1, the
 question of section 4.1.2 and the label form of section 3.1 of RFC 1035. A byte is a char.
 */
module DnsQuestion {
  import opened GoText

  // ---------------------------------------------------------------------------------------------
  // Decoder
  // ---------------------------------------------------------------------------------------------

  datatype Question = Question(id: nat, name: string, qtype: nat)

  datatype Name = Name(dotted: string, rest: string)

  function Uint16(s: string): nat
    requires |s| >= 2
  {
    256 * (s[0] as int) + s[1] as int
  }

  /** `length & 0xc0 != 0` for a byte. */
  predicate HighBitsSet(length: nat) {
    length >= 64
  }

  /** Labels up to the empty one, each written with a dot in front, and the bytes after them. */
  function ReadLabels(s: string): Option<Name> {
    if s == "" then None
    else
      var length := s[0] as int;
      if length == 0 then Some(Name("", s[1..]))
      else if HighBitsSet(length) || 1 + length > |s| then None
      else Prepend("." + s[1..1 + length], ReadLabels(s[1 + length..]))
  }

  function Prepend(text: string, name: Option<Name>): Option<Name> {
    match name
    case None => None
    case Some(n) => Some(Name(text + n.dotted, n.rest))
  }

  lemma PrependTwice(a: string, b: string, name: Option<Name>)
    ensures Prepend(a, Prepend(b, name)) == Prepend(a + b, name)
    ensures Prepend("", name) == name
  {
    if name.Some? {
      assert a + (b + name.value.dotted) == (a + b) + name.value.dotted;
      assert "" + name.value.dotted == name.value.dotted;
    }
  }

  /** Reading on from an offset of the message. */
  lemma ReadAt(data: string, offset: nat)
    requires offset <= |data|
    ensures ReadLabels(data[offset..]) ==
            if offset >= |data| then None
            else
              var length := data[offset] as int;
              if length == 0 then Some(Name("", data[offset + 1..]))
              else if HighBitsSet(length) || offset + 1 + length > |data| then None
              else Prepend("." + data[offset + 1..offset + 1 + length], ReadLabels(data[offset + 1 + length..]))
  {
    if offset < |data| {
      var s, length := data[offset..], data[offset] as int;
      assert s[1..] == data[offset + 1..];
      if offset + 1 + length <= |data| {
        assert s[1..1 + length] == data[offset + 1..offset + 1 + length];
        assert s[1 + length..] == data[offset + 1 + length..];
      }
    }
  }

  function ParseQuestion(data: string): Option<Question> {
    if |data| < 12 || Uint16(data[4..6]) != 1 then None
    else
      match ReadLabels(data[12..])
      case None => None
      case Some(name) =>
        if |name.rest| < 4 then None
        else Some(Question(Uint16(data[0..2]), TrimPrefix(name.dotted, "."), Uint16(name.rest[0..2])))
  }

  method ParseDNSQuestion(data: string) returns (question: Option<Question>)
    ensures question == ParseQuestion(data)
  {
    hide ReadLabels;
    if |data| < 12 {
      return None;
    }
    var id := Uint16(data[0..2]);
    if Uint16(data[4..6]) != 1 {
      return None;
    }
    var offset := 12;
    var name := "";
    PrependTwice("", "", ReadLabels(data[12..]));
    while true
      invariant 12 <= offset <= |data|
      invariant ReadLabels(data[12..]) == Prepend(name, ReadLabels(data[offset..]))
      decreases |data| - offset
    {
      ReadAt(data, offset);
      if offset >= |data| {
        return None;
      }
      var length := data[offset] as int;
      if length == 0 {
        offset := offset + 1;
        break;
      }
      if HighBitsSet(length) || offset + 1 + length > |data| {
        return None;
      }
      var part := "." + data[offset + 1..offset + 1 + length];
      PrependTwice(name, part, ReadLabels(data[offset + 1 + length..]));
      name := name + part;
      offset := offset + 1 + length;
    }
    assert name + "" == name;
    if offset + 4 > |data| {
      return None;
    }
    assert data[offset..][0..2] == data[offset..offset + 2];
    return Some(Question(id, TrimPrefix(name, "."), Uint16(data[offset..offset + 2])));
  }

  // ---------------------------------------------------------------------------------------------
  // Encoder
  // ---------------------------------------------------------------------------------------------

  function PutUint16(v: nat): (bytes: string)
    ensures |bytes| == 2
  {
    [(v / 256 % 256) as char, (v % 256) as char]
  }

  /** One part of the name: nothing for an empty one, else its length in one byte and its text. */
  function PartBytes(part: string): string {
    if |part| == 0 then "" else [(|part| % 256) as char] + part
  }

  function PartsBytes(parts: seq<string>): string {
    if |parts| == 0 then "" else PartsBytes(parts[..|parts| - 1]) + PartBytes(parts[|parts| - 1])
  }

  function QuestionBytes(name: string, qtype: nat): string {
    PartsBytes(Split(name, '.')) + "\0" + PutUint16(qtype) + PutUint16(1)
  }

  /** The two bytes of the time to live stand where the four bytes of RFC 1035 begin. */
  function AnswerBytes(qtype: nat, rdata: string, ttl: nat): string {
    PutUint16(0xc00c) + PutUint16(qtype) + PutUint16(1) + PutUint16(ttl) + PutUint16(0) + PutUint16(|rdata|) + rdata
  }

  function AnswersBytes(qtype: nat, records: seq<string>, ttl: nat): string {
    if |records| == 0 then ""
    else AnswersBytes(qtype, records[..|records| - 1], ttl) + AnswerBytes(qtype, records[|records| - 1], ttl)
  }

  function HeaderBytes(id: nat, answers: nat): string {
    PutUint16(id) + PutUint16(0x8180) + PutUint16(1) + PutUint16(answers) + PutUint16(0) + PutUint16(0)
  }

  function Reply(id: nat, name: string, qtype: nat, records: seq<string>, ttl: nat): string {
    HeaderBytes(id, |records|) + QuestionBytes(name, qtype) + AnswersBytes(qtype, records, ttl)
  }

  method DNSQuestion(name: string, qtype: nat) returns (question: string)
    ensures question == QuestionBytes(name, qtype)
  {
    question := "";
    var parts := Split(name, '.');
    for i := 0 to |parts|
      invariant question == PartsBytes(parts[..i])
    {
      assert parts[..i + 1][..i] == parts[..i];
      if |parts[i]| == 0 {
        continue;
      }
      question := question + ([(|parts[i]| % 256) as char] + parts[i]);
    }
    assert parts[..|parts|] == parts;
    question := question + "\0" + PutUint16(qtype) + PutUint16(1);
  }

  method DNSReply(id: nat, name: string, qtype: nat, records: seq<string>, ttl: nat) returns (reply: string)
    ensures reply == Reply(id, name, qtype, records, ttl)
  {
    hide PutUint16, HeaderBytes, AnswerBytes, QuestionBytes;
    var question := DNSQuestion(name, qtype);
    reply := HeaderBytes(id, |records|) + question;
    ghost var start := reply;
    for i := 0 to |records|
      invariant reply == start + AnswersBytes(qtype, records[..i], ttl)
    {
      assert records[..i + 1][..i] == records[..i];
      reply := reply + AnswerBytes(qtype, records[i], ttl);
    }
    assert records[..|records|] == records;
  }

  // ---------------------------------------------------------------------------------------------
  // What the decoder accepts
  // ---------------------------------------------------------------------------------------------

  predicate ValidLabels(labels: seq<string>) {
    forall i :: 0 <= i < |labels| ==> 1 <= |labels[i]| <= 63
  }

  /** Labels on the wire. */
  function Wire(labels: seq<string>): string
    requires ValidLabels(labels)
  {
    if |labels| == 0 then "" else [|labels[0]| as char] + labels[0] + Wire(labels[1..])
  }

  function Dotted(labels: seq<string>): string {
    if |labels| == 0 then "" else "." + labels[0] + Dotted(labels[1..])
  }

  lemma LabelIsRead(text: string, tail: string)
    requires 1 <= |text| <= 63
    ensures ReadLabels([|text| as char] + text + tail) == Prepend("." + text, ReadLabels(tail))
  {
    var s := [|text| as char] + text + tail;
    assert s[1..1 + |text|] == text && s[1 + |text|..] == tail;
  }

  lemma EndIsRead(rest: string)
    ensures ReadLabels("\0" + rest) == Some(Name("", rest))
  {
    assert ("\0" + rest)[1..] == rest;
  }

  lemma {:induction false} WireIsRead(labels: seq<string>, rest: string)
    requires ValidLabels(labels)
    ensures ReadLabels(Wire(labels) + "\0" + rest) == Some(Name(Dotted(labels), rest))
  {
    hide ReadLabels;
    if labels == [] {
      assert Wire(labels) + "\0" + rest == "\0" + rest;
      EndIsRead(rest);
    } else {
      var tail := Wire(labels[1..]) + "\0" + rest;
      WireIsRead(labels[1..], rest);
      LabelIsRead(labels[0], tail);
      assert Wire(labels) + "\0" + rest == [|labels[0]| as char] + labels[0] + tail;
    }
  }

  lemma WireCons(first: string, labels: seq<string>)
    requires 1 <= |first| <= 63 && ValidLabels(labels)
    ensures ValidLabels([first] + labels)
    ensures Wire([first] + labels) == [|first| as char] + first + Wire(labels)
    ensures Dotted([first] + labels) == "." + first + Dotted(labels)
  {
    assert ([first] + labels)[1..] == labels;
  }

  lemma FirstLabel(s: string, length: nat)
    requires 1 + length <= |s|
    ensures s == [s[0]] + s[1..1 + length] + s[1 + length..]
  {
  }

  lemma LabelThen(first: string, wire: string, rest: string)
    ensures first + (wire + "\0" + rest) == first + wire + "\0" + rest
  {
  }

  lemma {:induction false} ReadIsWire(s: string) returns (labels: seq<string>)
    requires ReadLabels(s).Some?
    ensures ValidLabels(labels)
    ensures var name := ReadLabels(s).value; s == Wire(labels) + "\0" + name.rest && name.dotted == Dotted(labels)
    decreases |s|
  {
    var length := s[0] as int;
    if length == 0 {
      labels := [];
      assert s == "\0" + s[1..] == "" + "\0" + s[1..];
    } else {
      var first, after := s[1..1 + length], s[1 + length..];
      assert ReadLabels(s) == Prepend("." + first, ReadLabels(after));
      hide ReadLabels, Wire, Dotted;
      var more := ReadIsWire(after);
      WireCons(first, more);
      labels := [first] + more;
      FirstLabel(s, length);
      LabelThen([s[0]] + first, Wire(more), ReadLabels(after).value.rest);
      return;
    }
  }

  /**
   The decoder accepts a message exactly when it asks one question whose name is a list of labels of 1
   to 63 bytes, with four more bytes to come; it then returns the identifier, the labels joined by
   dots and the type.
   */
  lemma ParseAcceptsIff(data: string, question: Question)
    ensures ParseQuestion(data) == Some(question) <==>
      && |data| >= 12
      && Uint16(data[4..6]) == 1
      && exists labels, rest :: ValidLabels(labels) && data[12..] == Wire(labels) + "\0" + rest
           && |rest| >= 4 && question == Question(Uint16(data[0..2]), TrimPrefix(Dotted(labels), "."), Uint16(rest[0..2]))
  {
    if |data| >= 12 && ReadLabels(data[12..]).Some? {
      var labels := ReadIsWire(data[12..]);
      var rest := ReadLabels(data[12..]).value.rest;
      assert data[12..] == Wire(labels) + "\0" + rest;
    }
    if |data| >= 12 {
      forall labels, rest | ValidLabels(labels) && data[12..] == Wire(labels) + "\0" + rest
        ensures ReadLabels(data[12..]) == Some(Name(Dotted(labels), rest))
      {
        WireIsRead(labels, rest);
      }
    }
    hide ReadLabels, Wire, Dotted;
  }

  // ---------------------------------------------------------------------------------------------
  // Round trip
  // ---------------------------------------------------------------------------------------------

  /** The parts of a name that are put on the wire. */
  function NonEmpty(parts: seq<string>): seq<string> {
    if |parts| == 0 then []
    else NonEmpty(parts[..|parts| - 1]) + if |parts[|parts| - 1]| == 0 then [] else [parts[|parts| - 1]]
  }

  predicate Short(parts: seq<string>) {
    forall i :: 0 <= i < |parts| ==> |parts[i]| <= 63
  }

  lemma {:induction false} NonEmptyIsValid(parts: seq<string>)
    requires Short(parts)
    ensures ValidLabels(NonEmpty(parts))
  {
    if |parts| > 0 {
      NonEmptyIsValid(parts[..|parts| - 1]);
    }
  }

  lemma {:induction false} WireAppend(labels: seq<string>, last: string)
    requires ValidLabels(labels) && 1 <= |last| <= 63
    ensures Wire(labels + [last]) == Wire(labels) + [|last| as char] + last
  {
    if labels == [] {
      assert [last][1..] == [];
    } else {
      assert (labels + [last])[1..] == labels[1..] + [last];
      WireAppend(labels[1..], last);
    }
  }

  lemma WirePart(labels: seq<string>, part: string)
    requires ValidLabels(labels) && |part| <= 63
    ensures Wire(labels) + PartBytes(part) == if |part| == 0 then Wire(labels) else Wire(labels + [part])
  {
    if |part| > 0 {
      WireAppend(labels, part);
      hide Wire;
      assert |part| % 256 == |part|;
      assert Wire(labels) + ([|part| as char] + part) == Wire(labels) + [|part| as char] + part;
    }
  }

  /** Parts of at most 63 bytes are encoded as their non-empty ones. */
  lemma {:induction false} PartsAreWire(parts: seq<string>)
    requires Short(parts)
    ensures ValidLabels(NonEmpty(parts))
    ensures PartsBytes(parts) == Wire(NonEmpty(parts))
  {
    hide PartBytes;
    if |parts| > 0 {
      var before, last := parts[..|parts| - 1], parts[|parts| - 1];
      PartsAreWire(before);
      WirePart(NonEmpty(before), last);
      assert NonEmpty(before) + [] == NonEmpty(before);
    }
  }

  lemma {:induction false} DottedIsJoined(labels: seq<string>)
    ensures TrimPrefix(Dotted(labels), ".") == Join(labels, '.')
    ensures labels != [] ==> Dotted(labels) == "." + Join(labels, '.')
  {
    if |labels| > 1 {
      DottedIsJoined(labels[1..]);
    }
    if |labels| > 0 {
      assert Dotted(labels) == "." + Join(labels, '.');
      assert Dotted(labels)[..1] == ".";
    }
  }

  lemma Uint16RoundTrip(v: nat, tail: string)
    requires v < 65536
    ensures |PutUint16(v) + tail| >= 2 && Uint16((PutUint16(v) + tail)[0..2]) == v
  {
    assert (PutUint16(v) + tail)[0..2] == PutUint16(v);
  }

  lemma HeaderFields(id: nat, answers: nat)
    ensures var header := HeaderBytes(id, answers);
            |header| == 12 && header[0..2] == PutUint16(id) && header[4..6] == PutUint16(1)
  {
  }

  lemma Regroup(header: string, parts: string, qtype: string, kind: string, answers: string)
    ensures header + (parts + "\0" + qtype + kind) + answers == header + (parts + "\0" + (qtype + (kind + answers)))
  {
  }

  lemma HeaderOf(header: string, tail: string)
    requires |header| == 12
    ensures (header + tail)[0..2] == header[0..2] && (header + tail)[4..6] == header[4..6] && (header + tail)[12..] == tail
  {
  }

  lemma ReplyHeader(id: nat, name: string, qtype: nat, records: seq<string>, ttl: nat)
    requires id < 65536
    ensures var data := Reply(id, name, qtype, records, ttl);
            && |data| >= 12 && Uint16(data[0..2]) == id && Uint16(data[4..6]) == 1
            && data[12..] == PartsBytes(Split(name, '.')) + "\0"
                             + (PutUint16(qtype) + (PutUint16(1) + AnswersBytes(qtype, records, ttl)))
  {
    var header := HeaderBytes(id, |records|);
    HeaderFields(id, |records|);
    Uint16RoundTrip(id, "");
    Uint16RoundTrip(1, "");
    hide HeaderBytes, PartsBytes, AnswersBytes, Split, PutUint16;
    assert PutUint16(id) + "" == PutUint16(id) && PutUint16(1) + "" == PutUint16(1);
    var parts, answers := PartsBytes(Split(name, '.')), AnswersBytes(qtype, records, ttl);
    Regroup(header, parts, PutUint16(qtype), PutUint16(1), answers);
    HeaderOf(header, parts + "\0" + (PutUint16(qtype) + (PutUint16(1) + answers)));
  }

  /** With short parts, what comes back is the name without its empty parts. */
  lemma ShortNameComesBack(id: nat, name: string, qtype: nat, records: seq<string>, ttl: nat)
    requires id < 65536 && qtype < 65536
    requires Short(Split(name, '.'))
    ensures ParseQuestion(Reply(id, name, qtype, records, ttl))
         == Some(Question(id, Join(NonEmpty(Split(name, '.')), '.'), qtype))
  {
    var labels := NonEmpty(Split(name, '.'));
    var rest := PutUint16(qtype) + (PutUint16(1) + AnswersBytes(qtype, records, ttl));
    ReplyHeader(id, name, qtype, records, ttl);
    PartsAreWire(Split(name, '.'));
    WireIsRead(labels, rest);
    DottedIsJoined(labels);
    Uint16RoundTrip(qtype, PutUint16(1) + AnswersBytes(qtype, records, ttl));
    hide ReadLabels, Wire, Dotted, Join, Split, NonEmpty, Reply, AnswersBytes, PartsBytes;
  }

  /** A name is put on the wire as it is: it is empty, or all its parts have 1 to 63 bytes. */
  predicate Encodable(name: string) {
    name == "" || ValidLabels(Split(name, '.'))
  }

  lemma {:induction false} NonEmptyKeepsValid(parts: seq<string>)
    ensures (forall i :: 0 <= i < |parts| ==> |parts[i]| > 0) ==> NonEmpty(parts) == parts
    ensures forall i :: 0 <= i < |NonEmpty(parts)| ==> |NonEmpty(parts)[i]| > 0 && NonEmpty(parts)[i] in parts
  {
    if |parts| > 0 {
      NonEmptyKeepsValid(parts[..|parts| - 1]);
    }
  }

  lemma {:induction false} SplitSizes(s: string)
    ensures forall i :: 0 <= i < |Split(s, '.')| ==> |Split(s, '.')[i]| <= |s|
  {
    if s != "" {
      SplitSizes(s[1..]);
    }
  }

  /** Whatever bytes are decoded, no part of the resulting name is longer than a label. */
  lemma {:induction false} DottedPartsAreShort(labels: seq<string>)
    requires ValidLabels(labels)
    ensures labels != [] ==> Short(Split(Join(labels, '.'), '.'))
  {
    if labels != [] {
      SplitSizes(labels[0]);
      if |labels| > 1 {
        DottedPartsAreShort(labels[1..]);
        SplitAppend(labels[0], Join(labels[1..], '.'), '.');
      }
    }
  }

  lemma ParsedNameIsShort(data: string)
    requires ParseQuestion(data).Some?
    ensures Short(Split(ParseQuestion(data).value.name, '.'))
  {
    var labels := ReadIsWire(data[12..]);
    DottedIsJoined(labels);
    if labels == [] {
      SplitSizes("");
    } else {
      DottedPartsAreShort(labels);
    }
  }

  lemma ShortNameIsKeptIff(name: string)
    requires Short(Split(name, '.'))
    ensures Join(NonEmpty(Split(name, '.')), '.') == name <==> Encodable(name)
  {
    var parts := Split(name, '.');
    var labels := NonEmpty(parts);
    NonEmptyKeepsValid(parts);
    JoinSplit(name, '.');
    SplitPartsFreeOfSeparator(name, '.');
    NonEmptyIsValid(parts);
    if labels != [] {
      SplitJoin(labels, '.');
    }
    assert Join([], '.') == "";
    hide Split, NonEmpty, Join;
  }

  /**
   The question of a reply decodes to what was encoded, whatever answers follow, if and only if the
   name is empty or all its dot-separated parts have 1 to 63 bytes.
   */
  lemma RoundTripIff(id: nat, name: string, qtype: nat, records: seq<string>, ttl: nat)
    requires id < 65536 && qtype < 65536
    ensures ParseQuestion(Reply(id, name, qtype, records, ttl)) == Some(Question(id, name, qtype))
       <==> Encodable(name)
  {
    hide ParseQuestion, Reply, Join, Split, NonEmpty;
    EmptyNameParts();
    if Short(Split(name, '.')) {
      ShortNameComesBack(id, name, qtype, records, ttl);
      ShortNameIsKeptIff(name);
    } else if ParseQuestion(Reply(id, name, qtype, records, ttl)).Some? {
      ParsedNameIsShort(Reply(id, name, qtype, records, ttl));
    }
  }

  lemma EmptyNameParts()
    ensures Short(Split("", '.'))
  {
  }

  // ---------------------------------------------------------------------------------------------
  // What a client reads in a reply
  // ---------------------------------------------------------------------------------------------

  /** The fields of the header (section 4.1.1 of RFC 1035): flags of an answer without error, one question. */
  lemma ReplyHeaderIsRead(id: nat, name: string, qtype: nat, records: seq<string>, ttl: nat)
    requires id < 65536 && |records| < 65536
    ensures var data := Reply(id, name, qtype, records, ttl);
            && |data| >= 12
            && Uint16(data[0..2]) == id && Uint16(data[2..4]) == 0x8180
            && Uint16(data[4..6]) == 1 && Uint16(data[6..8]) == |records|
            && Uint16(data[8..10]) == 0 && Uint16(data[10..12]) == 0
            && data[12..] == QuestionBytes(name, qtype) + AnswersBytes(qtype, records, ttl)
  {
    hide QuestionBytes, AnswersBytes;
    var header, tail := HeaderBytes(id, |records|), QuestionBytes(name, qtype) + AnswersBytes(qtype, records, ttl);
    assert Reply(id, name, qtype, records, ttl) == header + tail;
    assert header + tail == header + tail + "";
    hide PutUint16, Uint16, HeaderBytes, Reply;
    SixNumbers(id, 0x8180, 1, |records|, 0, 0);
    PartsOfThree(header, tail, "");
  }

  /** A question ends with the type and class IN. */
  lemma QuestionEnds(name: string, qtype: nat)
    requires qtype < 65536
    ensures var question := QuestionBytes(name, qtype);
            && |question| >= 5
            && question[|question| - 5] == '\0'
            && Uint16(question[|question| - 4..|question| - 2]) == qtype && Uint16(question[|question| - 2..]) == 1
  {
    hide PartsBytes, Split;
    var question := QuestionBytes(name, qtype);
    assert question[|question| - 4..|question| - 2] == PutUint16(qtype) && question[|question| - 2..] == PutUint16(1);
  }

  /** A resource record (section 4.1.3 of RFC 1035) whose name is a pointer. */
  datatype Record = Record(name: nat, rtype: nat, rclass: nat, ttl: nat, rdata: string)

  datatype Read = Read(record: Record, rest: string)

  function ReadRecord(s: string): Option<Read> {
    if |s| < 12 || 12 + Uint16(s[10..12]) > |s| then None
    else
      var end := 12 + Uint16(s[10..12]);
      var ttl := 65536 * Uint16(s[6..8]) + Uint16(s[8..10]);
      Some(Read(Record(Uint16(s[0..2]), Uint16(s[2..4]), Uint16(s[4..6]), ttl, s[12..end]), s[end..]))
  }

  /** A text of `n` records and nothing else. */
  function ReadRecords(s: string, n: nat): Option<seq<Record>> {
    if n == 0 then if s == "" then Some([]) else None
    else
      match ReadRecord(s)
      case None => None
      case Some(read) =>
        match ReadRecords(read.rest, n - 1) case None => None case Some(records) => Some([read.record] + records)
  }

  lemma SixNumbers(a: nat, b: nat, c: nat, d: nat, e: nat, f: nat)
    requires a < 65536 && b < 65536 && c < 65536 && d < 65536 && e < 65536 && f < 65536
    ensures var s := PutUint16(a) + PutUint16(b) + PutUint16(c) + PutUint16(d) + PutUint16(e) + PutUint16(f);
            && |s| == 12
            && Uint16(s[0..2]) == a && Uint16(s[2..4]) == b && Uint16(s[4..6]) == c
            && Uint16(s[6..8]) == d && Uint16(s[8..10]) == e && Uint16(s[10..12]) == f
  {
  }

  lemma PartsOfThree(fixed: string, middle: string, rest: string)
    requires |fixed| == 12
    ensures var s := fixed + middle + rest;
            && s[0..2] == fixed[0..2] && s[2..4] == fixed[2..4] && s[4..6] == fixed[4..6]
            && s[6..8] == fixed[6..8] && s[8..10] == fixed[8..10] && s[10..12] == fixed[10..12]
            && s[12..12 + |middle|] == middle && s[12 + |middle|..] == rest
  {
  }

  lemma AnswerIsRead(qtype: nat, rdata: string, ttl: nat, rest: string)
    requires qtype < 65536 && ttl < 65536 && |rdata| < 65536
    ensures ReadRecord(AnswerBytes(qtype, rdata, ttl) + rest) == Some(Read(Record(0xc00c, qtype, 1, 65536 * ttl, rdata), rest))
  {
    var fixed := PutUint16(0xc00c) + PutUint16(qtype) + PutUint16(1) + PutUint16(ttl) + PutUint16(0) + PutUint16(|rdata|);
    assert AnswerBytes(qtype, rdata, ttl) == fixed + rdata;
    hide PutUint16, Uint16, AnswerBytes;
    SixNumbers(0xc00c, qtype, 1, ttl, 0, |rdata|);
    PartsOfThree(fixed, rdata, rest);
  }

  lemma {:induction false} FirstAnswer(qtype: nat, records: seq<string>, ttl: nat)
    requires |records| > 0
    ensures AnswersBytes(qtype, records, ttl) == AnswerBytes(qtype, records[0], ttl) + AnswersBytes(qtype, records[1..], ttl)
  {
    hide AnswerBytes;
    var n := |records| - 1;
    if n > 0 {
      FirstAnswer(qtype, records[..n], ttl);
      assert records[..n][1..] == records[1..][..n - 1];
    } else {
      assert records[..n] == [] && records[1..] == [];
    }
  }

  /**
   After the question a client reads one record per address, in their order, for the name of the question,
   with the type asked and class IN. The time to live stands in the upper half of its field: it is read
   as 65536 times the one given.
   */
  lemma {:induction false} AnswersAreRead(qtype: nat, records: seq<string>, ttl: nat)
    requires qtype < 65536 && ttl < 65536 && forall k :: 0 <= k < |records| ==> |records[k]| < 65536
    ensures var read := ReadRecords(AnswersBytes(qtype, records, ttl), |records|);
            && read.Some? && |read.value| == |records|
            && forall k :: 0 <= k < |records| ==> read.value[k] == Record(0xc00c, qtype, 1, 65536 * ttl, records[k])
  {
    hide AnswerBytes, ReadRecord;
    if |records| > 0 {
      FirstAnswer(qtype, records, ttl);
      AnswerIsRead(qtype, records[0], ttl, AnswersBytes(qtype, records[1..], ttl));
      AnswersAreRead(qtype, records[1..], ttl);
    }
  }
}
