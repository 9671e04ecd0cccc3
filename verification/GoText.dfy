/**
 The pieces of Go's `strings` and `strconv` that the proxy calls, on byte strings: one `char`
 stands for one byte. Trimming and lower-casing are modelled on ASCII.
 */
module GoText {

  datatype Option<+T> = None | Some(value: T)

  datatype Result<+T, +E> = Ok(value: T) | Err(error: E)

  // ---------------------------------------------------------------------------------------------
  // Prefixes and suffixes
  // ---------------------------------------------------------------------------------------------

  predicate HasPrefix(s: string, prefix: string) {
    prefix <= s
  }

  predicate HasSuffix(s: string, suffix: string) {
    |suffix| <= |s| && s[|s| - |suffix|..] == suffix
  }

  function TrimPrefix(s: string, prefix: string): string {
    if HasPrefix(s, prefix) then s[|prefix|..] else s
  }

  // ---------------------------------------------------------------------------------------------
  // Searching
  // ---------------------------------------------------------------------------------------------

  /** Index of the first `c` in `s`, or |s| when there is none. */
  function IndexOf(s: string, c: char): (i: nat)
    ensures i <= |s|
    ensures i < |s| ==> s[i] == c
    ensures forall j :: 0 <= j < i ==> s[j] != c
  {
    if s == "" then 0 else if s[0] == c then 0 else 1 + IndexOf(s[1..], c)
  }

  /** One past the last `c` in `s`, or 0 when there is none. */
  function AfterLast(s: string, c: char): (i: nat)
    ensures i <= |s|
    ensures i > 0 ==> s[i - 1] == c
    ensures forall j :: i <= j < |s| ==> s[j] != c
  {
    if s == "" then 0 else if s[|s| - 1] == c then |s| else AfterLast(s[..|s| - 1], c)
  }

  // ---------------------------------------------------------------------------------------------
  // Split and Join with a one-byte separator
  // ---------------------------------------------------------------------------------------------

  function Split(s: string, sep: char): (parts: seq<string>)
    ensures |parts| >= 1
  {
    if s == "" then [""]
    else
      var rest := Split(s[1..], sep);
      if s[0] == sep then [""] + rest else [[s[0]] + rest[0]] + rest[1..]
  }

  function Join(parts: seq<string>, sep: char): string {
    if |parts| == 0 then ""
    else if |parts| == 1 then parts[0]
    else parts[0] + [sep] + Join(parts[1..], sep)
  }

  lemma {:induction false} JoinSplit(s: string, sep: char)
    ensures Join(Split(s, sep), sep) == s
  {
    if s != "" {
      JoinSplit(s[1..], sep);
      var rest := Split(s[1..], sep);
      if s[0] == sep {
        assert ([""] + rest)[1..] == rest;
      } else {
        assert ([[s[0]] + rest[0]] + rest[1..])[1..] == rest[1..];
      }
    }
  }

  lemma {:induction false} SplitAppend(a: string, b: string, sep: char)
    ensures Split(a + [sep] + b, sep) == Split(a, sep) + Split(b, sep)
  {
    if a == "" {
      assert (a + [sep] + b)[1..] == b;
    } else {
      assert (a + [sep] + b)[1..] == a[1..] + [sep] + b;
      SplitAppend(a[1..], b, sep);
    }
  }

  lemma {:induction false} SplitWithout(a: string, sep: char)
    requires sep !in a
    ensures Split(a, sep) == [a]
  {
    if a != "" {
      SplitWithout(a[1..], sep);
      assert a == [a[0]] + a[1..];
    }
  }

  lemma {:induction false} JoinAppend(a: seq<string>, b: seq<string>, sep: char)
    requires |a| >= 1 && |b| >= 1
    ensures Join(a + b, sep) == Join(a, sep) + [sep] + Join(b, sep)
  {
    if |a| == 1 {
      assert (a + b)[1..] == b;
    } else {
      assert (a + b)[1..] == a[1..] + b;
      JoinAppend(a[1..], b, sep);
    }
  }

  lemma {:induction false} SplitPartsFreeOfSeparator(s: string, sep: char)
    ensures forall k :: 0 <= k < |Split(s, sep)| ==> sep !in Split(s, sep)[k]
  {
    if s != "" {
      SplitPartsFreeOfSeparator(s[1..], sep);
    }
  }

  lemma JoinUnfold(parts: seq<string>, sep: char)
    requires |parts| >= 1
    ensures Join(parts, sep) == if |parts| == 1 then parts[0] else parts[0] + [sep] + Join(parts[1..], sep)
  {
  }

  /** Splitting is the inverse of joining parts that do not contain the separator. */
  lemma {:induction false} SplitJoin(parts: seq<string>, sep: char)
    requires |parts| >= 1
    requires forall k :: 0 <= k < |parts| ==> sep !in parts[k]
    ensures Split(Join(parts, sep), sep) == parts
  {
    hide Split, Join;
    SplitWithout(parts[0], sep);
    JoinUnfold(parts, sep);
    if |parts| == 1 {
      assert parts == [parts[0]];
    } else {
      assert parts == [parts[0]] + parts[1..];
      SplitJoin(parts[1..], sep);
      SplitAppend(parts[0], Join(parts[1..], sep), sep);
    }
  }

  // ---------------------------------------------------------------------------------------------
  // Decimal numbers
  // ---------------------------------------------------------------------------------------------

  predicate IsDigit(c: char) {
    '0' <= c <= '9'
  }

  function DigitOf(n: nat): char
    requires n < 10
  {
    ('0' as int + n) as char
  }

  function ItoaNat(n: nat): string {
    if n < 10 then [DigitOf(n)] else ItoaNat(n / 10) + [DigitOf(n % 10)]
  }

  /** strconv.Itoa, and the %d verb of fmt. */
  function Itoa(n: int): string {
    if n < 0 then "-" + ItoaNat(-n) else ItoaNat(n)
  }

  predicate AllDigits(s: string) {
    forall i :: 0 <= i < |s| ==> IsDigit(s[i])
  }

  function DigitsValue(s: string): nat
    requires AllDigits(s)
  {
    if s == "" then 0 else 10 * DigitsValue(s[..|s| - 1]) + (s[|s| - 1] as int - '0' as int)
  }

  /**
   strconv.Atoi: an optional sign and at least one digit. Go also fails when the value leaves the
   int range; every caller modelled here rejects such a value anyway.
   */
  function Atoi(s: string): Option<int> {
    if s != "" && (s[0] == '+' || s[0] == '-') then
      if |s| > 1 && AllDigits(s[1..]) then
        var magnitude: int := DigitsValue(s[1..]);
        Some(if s[0] == '-' then -magnitude else magnitude)
      else None
    else if s != "" && AllDigits(s) then Some(DigitsValue(s))
    else None
  }

  lemma {:induction false} ItoaNatDigits(n: nat)
    ensures ItoaNat(n) != "" && AllDigits(ItoaNat(n))
    ensures DigitsValue(ItoaNat(n)) == n
  {
    if n < 10 {
      assert ItoaNat(n)[..0] == "";
      assert DigitsValue(ItoaNat(n)[..0]) == 0;
    } else {
      ItoaNatDigits(n / 10);
      var s := ItoaNat(n);
      assert s[..|s| - 1] == ItoaNat(n / 10);
    }
  }

  lemma AtoiItoa(n: nat)
    ensures AllDigits(Itoa(n)) && Itoa(n) != ""
    ensures Atoi(Itoa(n)) == Some(n)
  {
    ItoaNatDigits(n);
    assert IsDigit(Itoa(n)[0]);
  }

  // ---------------------------------------------------------------------------------------------
  // Spaces and case (ASCII)
  // ---------------------------------------------------------------------------------------------

  predicate IsSpace(c: char) {
    c == ' ' || '\t' <= c <= '\r'
  }

  function TrimLeft(s: string): string {
    if s != "" && IsSpace(s[0]) then TrimLeft(s[1..]) else s
  }

  function TrimRight(s: string): string {
    if s != "" && IsSpace(s[|s| - 1]) then TrimRight(s[..|s| - 1]) else s
  }

  function TrimSpace(s: string): string {
    TrimRight(TrimLeft(s))
  }

  function LowerChar(c: char): char {
    if 'A' <= c <= 'Z' then (c as int + 32) as char else c
  }

  function ToLower(s: string): string {
    seq(|s|, i requires 0 <= i < |s| => LowerChar(s[i]))
  }

  lemma {:induction false} TrimmedStart(s: string)
    ensures TrimSpace(s) != "" ==> !IsSpace(TrimSpace(s)[0])
  {
    TrimLeftStart(s);
    TrimRightStart(TrimLeft(s));
  }

  lemma {:induction false} TrimLeftStart(s: string)
    ensures TrimLeft(s) != "" ==> !IsSpace(TrimLeft(s)[0])
  {
    if s != "" {
      TrimLeftStart(s[1..]);
    }
  }

  lemma {:induction false} TrimRightStart(s: string)
    ensures TrimRight(s) <= s
  {
    if s != "" {
      TrimRightStart(s[..|s| - 1]);
    }
  }

  lemma TrimNothing(s: string)
    requires s != "" ==> !IsSpace(s[0]) && !IsSpace(s[|s| - 1])
    ensures TrimSpace(s) == s
  {
  }

  predicate AllSpace(s: string) {
    forall i :: 0 <= i < |s| ==> s[i] in " \t\n\U{000b}\U{000c}\r"
  }

  /** Trimming takes the space around a text away, and no more. */
  lemma TrimsAround(before: string, text: string, after: string)
    requires AllSpace(before) && AllSpace(after)
    requires text != "" ==> !IsSpace(text[0]) && !IsSpace(text[|text| - 1])
    ensures TrimSpace(before + text + after) == text
  {
    assert before + text + after == before + (text + after);
    if text == "" {
      TrimLeftSpace(before + text + after, "");
      assert before + text + after + "" == before + text + after;
    } else {
      TrimLeftSpace(before, text + after);
      TrimRightSpace(text, after);
    }
  }

  lemma {:induction false} TrimLeftSpace(before: string, rest: string)
    requires AllSpace(before) && (rest != "" ==> !IsSpace(rest[0]))
    ensures TrimLeft(before + rest) == rest
  {
    if before == "" {
      assert before + rest == rest;
    } else {
      assert (before + rest)[1..] == before[1..] + rest;
      TrimLeftSpace(before[1..], rest);
    }
  }

  lemma {:induction false} TrimRightSpace(rest: string, after: string)
    requires AllSpace(after) && rest != "" && !IsSpace(rest[|rest| - 1])
    ensures TrimRight(rest + after) == rest
  {
    if after == "" {
      assert rest + after == rest;
    } else {
      assert (rest + after)[..|rest + after| - 1] == rest + after[..|after| - 1];
      TrimRightSpace(rest, after[..|after| - 1]);
    }
  }

  /** Nothing is left exactly when there was only space. */
  lemma BlankIsEmpty(s: string)
    ensures TrimSpace(s) == "" <==> AllSpace(s)
  {
    if AllSpace(s) {
      TrimsAround(s, "", "");
      assert s + "" + "" == s;
    } else {
      TrimLeftLeaves(s);
      TrimRightLeaves(TrimLeft(s));
    }
  }

  lemma {:induction false} TrimLeftLeaves(s: string)
    requires !AllSpace(s)
    ensures TrimLeft(s) != "" && !IsSpace(TrimLeft(s)[0])
  {
    if IsSpace(s[0]) {
      TrimLeftLeaves(s[1..]);
    }
  }

  lemma {:induction false} TrimRightLeaves(s: string)
    requires s != "" && !IsSpace(s[0])
    ensures TrimRight(s) != ""
  {
    if IsSpace(s[|s| - 1]) {
      TrimRightLeaves(s[..|s| - 1]);
    }
  }

  predicate IsUpper(c: char) {
    'A' <= c <= 'Z'
  }

  /** The same but for the case of letters. */
  predicate SameFold(a: string, b: string) {
    |a| == |b| && forall i :: 0 <= i < |a| ==> SameLetter(a[i], b[i])
  }

  predicate SameLetter(c: char, d: char) {
    c == d || (IsUpper(c) && c as int + 32 == d as int) || (IsUpper(d) && d as int + 32 == c as int)
  }

  lemma LowerIffSameLetter(c: char, d: char)
    ensures LowerChar(c) == LowerChar(d) <==> SameLetter(c, d)
    ensures !IsUpper(LowerChar(c)) && SameLetter(LowerChar(c), c)
  {
    assert IsUpper(c) ==> LowerChar(c) as int == c as int + 32;
    assert IsUpper(d) ==> LowerChar(d) as int == d as int + 32;
  }

  /** Lower-casing forgets the case of letters and nothing else, and leaves no capital. */
  lemma LowerIffSameFold(a: string, b: string)
    ensures ToLower(a) == ToLower(b) <==> SameFold(a, b)
    ensures forall i :: 0 <= i < |ToLower(a)| ==> !IsUpper(ToLower(a)[i])
    ensures SameFold(ToLower(a), a)
  {
    forall i | 0 <= i < |a|
      ensures !IsUpper(ToLower(a)[i]) && SameLetter(ToLower(a)[i], a[i])
      ensures i < |b| ==> (ToLower(a)[i] == ToLower(b)[i] <==> SameLetter(a[i], b[i]))
    {
      LowerIffSameLetter(a[i], if i < |b| then b[i] else a[i]);
    }
    if ToLower(a) == ToLower(b) {
      assert |ToLower(a)| == |ToLower(b)|;
    }
  }

  lemma SignedNumbers(n: nat)
    ensures Atoi("+" + Itoa(n)) == Some(n)
    ensures Atoi("-" + Itoa(n)).Some? && Atoi("-" + Itoa(n)).value == -(n as int)
  {
    ItoaNatDigits(n);
    assert ("+" + Itoa(n))[1..] == Itoa(n) && ("-" + Itoa(n))[1..] == Itoa(n);
  }

  /** Numbers are an optional sign and digits. */
  lemma NumberIff(s: string)
    ensures Atoi(s).Some? <==>
      exists sign, digits :: sign in ["", "+", "-"] && digits != "" && AllDigits(digits) && s == sign + digits
  {
    if Atoi(s).Some? {
      var sign := if s[0] == '+' then "+" else if s[0] == '-' then "-" else "";
      assert s == sign + s[|sign|..];
      assert AllDigits(s[|sign|..]);
    }
    forall sign, digits | sign in ["", "+", "-"] && digits != "" && AllDigits(digits) && s == sign + digits
      ensures Atoi(s).Some?
    {
      assert IsDigit(digits[0]);
      if sign == "" {
        assert s == digits;
      } else {
        assert s[1..] == digits;
      }
    }
  }
}
