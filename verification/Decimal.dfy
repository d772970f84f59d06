/** Searching text, and the decimal identifiers the server reads from paths and rows. */
module Decimal {
  import opened Wrappers

  const TWO_64: int := 0x1_0000_0000_0000_0000

  /** `find`: the first position at or after `from` that holds `c`. */
  function Find(text: string, c: char, from: nat): (r: Option<nat>)
    ensures r.Some? ==>
      from <= r.value < |text| && text[r.value] == c && forall i :: from <= i < r.value ==> text[i] != c
    ensures r.None? ==> forall i :: from <= i < |text| ==> text[i] != c
    decreases |text| - from
  {
    if from >= |text| then None
    else if text[from] == c then Some(from)
    else Find(text, c, from + 1)
  }

  predicate IsDigit(c: char) { '0' <= c <= '9' }

  function Digit(d: nat): (c: char)
    requires d < 10
    ensures IsDigit(c)
  {
    ('0' as int + d) as char
  }

  /** `std::to_string` of an unsigned number. */
  function ToDecimal(n: nat): (s: string)
    ensures s != "" && forall i :: 0 <= i < |s| ==> IsDigit(s[i])
  {
    if n < 10 then [Digit(n)] else ToDecimal(n / 10) + [Digit(n % 10)]
  }

  function LeadingDigits(s: string): (d: string)
    ensures |d| <= |s| && d == s[..|d|]
    ensures forall i :: 0 <= i < |d| ==> IsDigit(d[i])
    ensures |d| < |s| ==> !IsDigit(s[|d|])
  {
    if s == "" || !IsDigit(s[0]) then "" else [s[0]] + LeadingDigits(s[1..])
  }

  function ValueOf(digits: string): nat
    requires forall i :: 0 <= i < |digits| ==> IsDigit(digits[i])
  {
    if digits == "" then 0
    else
      var last := digits[|digits| - 1];
      assert IsDigit(last);
      ValueOf(digits[..|digits| - 1]) * 10 + (last as int - '0' as int)
  }

  /** `std::from_chars` into 64 bits: the digits at the front; an error without digits or on overflow. */
  function FromChars(s: string): Option<nat> {
    var d := LeadingDigits(s);
    if d == "" || ValueOf(d) >= TWO_64 then None else Some(ValueOf(d))
  }

  /** A path segment as an identifier: digits and nothing after them. */
  function ParseId(s: string): Option<nat> {
    if LeadingDigits(s) == s then FromChars(s) else None
  }

  lemma {:induction false} ValueOfDecimal(n: nat)
    ensures ValueOf(ToDecimal(n)) == n
  {
    if n >= 10 {
      var s := ToDecimal(n);
      assert s[..|s| - 1] == ToDecimal(n / 10);
      ValueOfDecimal(n / 10);
    }
  }

  lemma {:induction false} DigitsThenOther(d: string, rest: string)
    requires forall i :: 0 <= i < |d| ==> IsDigit(d[i])
    requires rest == "" || !IsDigit(rest[0])
    ensures LeadingDigits(d + rest) == d
  {
    if d != "" {
      assert (d + rest)[1..] == d[1..] + rest;
      DigitsThenOther(d[1..], rest);
    } else {
      assert d + rest == rest;
    }
  }

  /** A printed number parses to itself exactly when it fits into 64 bits. */
  lemma ParseIdRoundTrip(n: nat)
    ensures ParseId(ToDecimal(n)) == if n < TWO_64 then Some(n) else None
  {
    DigitsThenOther(ToDecimal(n), "");
    assert ToDecimal(n) + "" == ToDecimal(n);
    ValueOfDecimal(n);
  }

  /** Only digits parse, all of them, as long as the number fits into 64 bits. */
  lemma ParseIdIff(s: string)
    ensures ParseId(s).Some? <==>
      && s != "" && (forall i :: 0 <= i < |s| ==> '0' <= s[i] <= '9')
      && ValueOf(LeadingDigits(s)) < 0x1_0000_0000_0000_0000
    ensures ParseId(s).Some? ==> LeadingDigits(s) == s && ParseId(s) == Some(ValueOf(s))
  {
  }

  lemma OneMoreDigit(n: nat, d: nat, s: string)
    requires n > 0 && d < 10 && ToDecimal(n) == s
    ensures ToDecimal(10 * n + d) == s + [Digit(d)]
  {
  }

  /** Digits are those of the decimal system, the most significant first. */
  lemma DecimalDigits()
    ensures ToDecimal(0) == "0" && ToDecimal(1234567890) == "1234567890"
  {
    OneMoreDigit(1, 2, "1");
    OneMoreDigit(12, 3, "12");
    OneMoreDigit(123, 4, "123");
    OneMoreDigit(1234, 5, "1234");
    OneMoreDigit(12345, 6, "12345");
    OneMoreDigit(123456, 7, "123456");
    OneMoreDigit(1234567, 8, "1234567");
    OneMoreDigit(12345678, 9, "12345678");
    OneMoreDigit(123456789, 0, "123456789");
  }

  // ---------------------------------------------------------------------------
  // The text of a PostgreSQL array of identifiers, e.g. {1,2,3}
  // ---------------------------------------------------------------------------

  function Join(ids: seq<nat>): string {
    if ids == [] then ""
    else if |ids| == 1 then ToDecimal(ids[0])
    else ToDecimal(ids[0]) + "," + Join(ids[1..])
  }

  function ArrayText(ids: seq<nat>): string {
    "{" + Join(ids) + "}"
  }

  function TokenIds(token: string): seq<nat> {
    var id := FromChars(token);
    if id.Some? then [id.value] else []
  }

  function FirstToken(inner: string): string {
    var comma := Find(inner, ',', 0);
    if comma.None? then inner else inner[..comma.value]
  }

  function AfterToken(inner: string): (rest: string)
    ensures inner != "" ==> |rest| < |inner|
  {
    var comma := Find(inner, ',', 0);
    if comma.None? then "" else inner[comma.value + 1..]
  }

  /** The identifiers of a comma-separated list; tokens that are not numbers are skipped. */
  function SplitIds(inner: string): seq<nat>
    decreases |inner|
  {
    if inner == "" then [] else TokenIds(FirstToken(inner)) + SplitIds(AfterToken(inner))
  }

  lemma TokenTaken(ids: seq<nat>, inner: string)
    requires inner != ""
    ensures ids + SplitIds(inner) == (ids + TokenIds(FirstToken(inner))) + SplitIds(AfterToken(inner))
  {
  }

  method ParseArrayText(text: string) returns (ids: seq<nat>)
    ensures ids == if |text| >= 2 then SplitIds(text[1..|text| - 1]) else []
  {
    ids := [];
    if |text| >= 2 {
      var inner := text[1..|text| - 1];
      ghost var all := SplitIds(inner);
      while inner != ""
        invariant ids + SplitIds(inner) == all
        decreases |inner|
      {
        TokenTaken(ids, inner);
        ids := ids + TokenIds(FirstToken(inner));
        inner := AfterToken(inner);
      }
    }
  }

  function Fitting(ids: seq<nat>): seq<nat> {
    if ids == [] then []
    else (if ids[0] < TWO_64 then [ids[0]] else []) + Fitting(ids[1..])
  }

  lemma TokenRoundTrip(n: nat)
    ensures TokenIds(ToDecimal(n)) == if n < TWO_64 then [n] else []
  {
    ParseIdRoundTrip(n);
    DigitsThenOther(ToDecimal(n), "");
    assert ToDecimal(n) + "" == ToDecimal(n);
  }

  /** Reading the array text of any list of identifiers gives the list, in order. */
  lemma {:induction false} ArrayTextRoundTrip(ids: seq<nat>)
    ensures var text := ArrayText(ids); SplitIds(text[1..|text| - 1]) == Fitting(ids)
  {
    var text, inner := ArrayText(ids), Join(ids);
    assert text[1..|text| - 1] == inner;
    if ids != [] {
      var first := ToDecimal(ids[0]);
      TokenRoundTrip(ids[0]);
      if |ids| > 1 {
        var rest := ArrayText(ids[1..]);
        assert rest[1..|rest| - 1] == Join(ids[1..]);
        FirstOfJoined(first, Join(ids[1..]));
        ArrayTextRoundTrip(ids[1..]);
      } else {
        assert Find(inner, ',', 0) == None;
        assert SplitIds(inner) == TokenIds(first) + SplitIds("");
      }
    }
  }

  lemma FirstOfJoined(first: string, rest: string)
    requires first != "" && forall i :: 0 <= i < |first| ==> IsDigit(first[i])
    ensures var inner := first + "," + rest; inner != "" && FirstToken(inner) == first && AfterToken(inner) == rest
  {
    var inner := first + "," + rest;
    assert inner[|first|] == ',';
    assert Find(inner, ',', 0) == Some(|first|);
  }

  /** A token that starts with no digit, or does not fit, is skipped. */
  lemma SkipsWhatIsNoNumber(token: string, rest: string)
    requires token != "" && (forall i :: 0 <= i < |token| ==> token[i] != ',')
    requires !IsDigit(token[0]) || ValueOf(LeadingDigits(token)) >= TWO_64
    ensures SplitIds(token + "," + rest) == SplitIds(rest) && SplitIds(token) == []
  {
    var inner := token + "," + rest;
    assert inner[|token|] == ',';
    assert Find(inner, ',', 0) == Some(|token|);
    assert Find(token, ',', 0) == None;
    assert inner[..|token|] == token && inner[|token| + 1..] == rest;
    assert LeadingDigits(token) == "" || ValueOf(LeadingDigits(token)) >= TWO_64;
  }
}
