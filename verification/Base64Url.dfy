/**
 Base64url without padding (section 5 of RFC 4648) as the server produces and
 reads it: the padded base64 of section 4, with two characters replaced and
 the padding dropped or restored around it.
 */
module Base64Url {
  import opened Wrappers

  type byte = b: int | 0 <= b < 256
  type Sextet = v: int | 0 <= v < 64

  // ---------------------------------------------------------------------------
  // The padded base64 of section 4
  // ---------------------------------------------------------------------------

  /** The value of one input character; the padding character reads as zero. */
  function Value(c: char): Option<Sextet> {
    if 'A' <= c <= 'Z' then Some(c as int - 'A' as int)
    else if 'a' <= c <= 'z' then Some(c as int - 'a' as int + 26)
    else if '0' <= c <= '9' then Some(c as int - '0' as int + 52)
    else if c == '+' then Some(62)
    else if c == '/' then Some(63)
    else if c == '=' then Some(0)
    else None
  }

  predicate IsDigit64(c: char) {
    'A' <= c <= 'Z' || 'a' <= c <= 'z' || '0' <= c <= '9' || c == '+' || c == '/'
  }

  function Char(v: Sextet): (c: char)
    ensures IsDigit64(c) && Value(c) == Some(v)
  {
    if v < 26 then ('A' as int + v) as char
    else if v < 52 then ('a' as int + (v - 26)) as char
    else if v < 62 then ('0' as int + (v - 52)) as char
    else if v == 62 then '+' else '/'
  }

  function Quad(a: byte, b: byte, c: byte): string {
    [Char(a / 4), Char(a % 4 * 16 + b / 16), Char(b % 16 * 4 + c / 64), Char(c % 64)]
  }

  function EncodeBlock(data: seq<byte>): string {
    if |data| == 0 then ""
    else if |data| == 1 then Quad(data[0], 0, 0)[..2] + "=="
    else if |data| == 2 then Quad(data[0], data[1], 0)[..3] + "="
    else Quad(data[0], data[1], data[2]) + EncodeBlock(data[3..])
  }

  function Triple(p: Sextet, q: Sextet, r: Sextet, s: Sextet): seq<byte> {
    [p * 4 + q / 16, q % 16 * 16 + r / 4, r % 4 * 64 + s]
  }

  /** Three bytes for every four characters, padding included; nothing for other input. */
  function DecodeBlock(text: string): Option<seq<byte>> {
    if |text| == 0 then Some([])
    else if |text| < 4 then None
    else
      var p, q, r, s := Value(text[0]), Value(text[1]), Value(text[2]), Value(text[3]);
      var rest := DecodeBlock(text[4..]);
      if p.None? || q.None? || r.None? || s.None? || rest.None? then None
      else Some(Triple(p.value, q.value, r.value, s.value) + rest.value)
  }

  predicate IsBlank(c: char) { c == ' ' || c == '\t' }

  /** What the library's block decoder drops from the end of its input. */
  predicate IsTrailing(c: char) { IsBlank(c) || c == '\r' || c == '\n' || c == '-' }

  function TrimStart(text: string): string {
    if text != "" && IsBlank(text[0]) then TrimStart(text[1..]) else text
  }

  /** Three characters are always left. */
  function TrimEnd(text: string): string {
    if |text| > 3 && IsTrailing(text[|text| - 1]) then TrimEnd(text[..|text| - 1]) else text
  }

  /** The library's block decoder (OpenSSL's EVP_DecodeBlock): white space around the text is dropped first. */
  function DecodeTrimmed(text: string): Option<seq<byte>> {
    DecodeBlock(TrimEnd(TrimStart(text)))
  }

  // ---------------------------------------------------------------------------
  // The url form
  // ---------------------------------------------------------------------------

  function ToUrl(c: char): char {
    if c == '+' then '-' else if c == '/' then '_' else c
  }

  function FromUrl(c: char): char {
    if c == '-' then '+' else if c == '_' then '/' else c
  }

  function ToUrlText(text: string): string {
    seq(|text|, i requires 0 <= i < |text| => ToUrl(text[i]))
  }

  function FromUrlText(text: string): string {
    seq(|text|, i requires 0 <= i < |text| => FromUrl(text[i]))
  }

  function Strip(text: string): string {
    if text != "" && text[|text| - 1] == '=' then Strip(text[..|text| - 1]) else text
  }

  function Pad(text: string): string
    decreases (4 - |text| % 4) % 4
  {
    if |text| % 4 != 0 then Pad(text + "=") else text
  }

  function Encode(data: seq<byte>): string {
    Strip(ToUrlText(EncodeBlock(data)))
  }

  /** One for each of the last two characters that is a padding character. */
  function PaddingCount(padded: string): nat {
    (if |padded| > 0 && padded[|padded| - 1] == '=' then 1 else 0)
    + (if |padded| > 1 && padded[|padded| - 2] == '=' then 1 else 0)
  }

  function DecodePadded(padded: string): Option<seq<byte>> {
    var decoded := DecodeTrimmed(padded);
    if decoded.None? || |decoded.value| < PaddingCount(padded) then None
    else Some(decoded.value[..|decoded.value| - PaddingCount(padded)])
  }

  function Decode(encoded: string): Option<seq<byte>> {
    DecodePadded(Pad(FromUrlText(encoded)))
  }

  method Base64UrlEncode(data: seq<byte>) returns (encoded: string)
    ensures encoded == Encode(data)
  {
    encoded := EncodeBlock(data);
    ghost var block := encoded;
    for i := 0 to |encoded|
      invariant |encoded| == |block|
      invariant forall k :: 0 <= k < i ==> encoded[k] == ToUrl(block[k])
      invariant forall k :: i <= k < |block| ==> encoded[k] == block[k]
    {
      if encoded[i] == '+' {
        encoded := encoded[i := '-'];
      } else if encoded[i] == '/' {
        encoded := encoded[i := '_'];
      }
    }
    assert encoded == ToUrlText(block);
    while encoded != "" && encoded[|encoded| - 1] == '='
      invariant Strip(encoded) == Encode(data)
      decreases |encoded|
    {
      encoded := encoded[..|encoded| - 1];
    }
  }

  /** The first part of decoding: the characters of the padded form, then its padding. */
  method PaddedForm(encoded: string) returns (padded: string)
    ensures padded == Pad(FromUrlText(encoded))
  {
    padded := encoded;
    for i := 0 to |padded|
      invariant |padded| == |encoded|
      invariant forall k :: 0 <= k < i ==> padded[k] == FromUrl(encoded[k])
      invariant forall k :: i <= k < |encoded| ==> padded[k] == encoded[k]
    {
      if padded[i] == '-' {
        padded := padded[i := '+'];
      } else if padded[i] == '_' {
        padded := padded[i := '/'];
      }
    }
    assert padded == FromUrlText(encoded);
    while |padded| % 4 != 0
      invariant Pad(padded) == Pad(FromUrlText(encoded))
      decreases (4 - |padded| % 4) % 4
    {
      padded := padded + "=";
    }
  }

  method Base64UrlDecode(encoded: string) returns (decoded: Option<seq<byte>>)
    ensures decoded == Decode(encoded)
  {
    var padded := PaddedForm(encoded);
    var block := DecodeTrimmed(padded);
    if block.None? {
      return None;
    }
    var padding := 0;
    if padded != "" && padded[|padded| - 1] == '=' {
      padding := padding + 1;
    }
    if |padded| > 1 && padded[|padded| - 2] == '=' {
      padding := padding + 1;
    }
    if |block.value| < padding {
      return None;
    }
    decoded := Some(block.value[..|block.value| - padding]);
  }

  // ---------------------------------------------------------------------------
  // Round trip and alphabet
  // ---------------------------------------------------------------------------

  function Fill(n: nat): nat {
    (3 - n % 3) % 3
  }

  lemma FillStep(n: nat)
    requires n >= 3
    ensures Fill(n - 3) == Fill(n) <= 2
    ensures 4 * ((n - 3 + 2) / 3) + 4 == 4 * ((n + 2) / 3)
  {
  }

  /** Whole groups of four: base64 digits, then one `=` for every missing byte. */
  ghost predicate Shape(e: string, n: nat) {
    && |e| == 4 * ((n + 2) / 3)
    && Fill(n) <= |e|
    && (forall i :: 0 <= i < |e| - Fill(n) ==> IsDigit64(e[i]))
    && (forall i :: |e| - Fill(n) <= i < |e| ==> e[i] == '=')
  }

  lemma ShapeStep(quad: string, rest: string, n: nat)
    requires n >= 3 && Shape(rest, n - 3)
    requires |quad| == 4 && forall i :: 0 <= i < 4 ==> IsDigit64(quad[i])
    ensures Shape(quad + rest, n)
  {
    FillStep(n);
  }

  lemma {:induction false} BlockShape(data: seq<byte>)
    ensures Shape(EncodeBlock(data), |data|)
  {
    if |data| >= 3 {
      BlockShape(data[3..]);
      ShapeStep(Quad(data[0], data[1], data[2]), EncodeBlock(data[3..]), |data|);
    }
  }

  lemma TripleOfQuad(a: byte, b: byte, c: byte)
    ensures Triple(a / 4, a % 4 * 16 + b / 16, b % 16 * 4 + c / 64, c % 64) == [a, b, c]
  {
    assert (a % 4 * 16 + b / 16) / 16 == a % 4;
    assert (a % 4 * 16 + b / 16) % 16 == b / 16;
    assert (b % 16 * 4 + c / 64) / 4 == b % 16;
    assert (b % 16 * 4 + c / 64) % 4 == c / 64;
  }

  lemma DecodeStep(quad: string, rest: string, decoded: seq<byte>)
    requires |quad| == 4 && forall i :: 0 <= i < 4 ==> Value(quad[i]).Some?
    requires DecodeBlock(rest) == Some(decoded)
    ensures DecodeBlock(quad + rest)
         == Some(Triple(Value(quad[0]).value, Value(quad[1]).value, Value(quad[2]).value, Value(quad[3]).value)
                 + decoded)
  {
  }

  lemma QuadRoundTrip(a: byte, b: byte, c: byte, rest: string, decoded: seq<byte>)
    requires DecodeBlock(rest) == Some(decoded)
    ensures DecodeBlock(Quad(a, b, c) + rest) == Some([a, b, c] + decoded)
  {
    DecodeStep(Quad(a, b, c), rest, decoded);
    TripleOfQuad(a, b, c);
  }

  function Zeros(n: nat): (z: seq<byte>)
    ensures |z| == n && forall i :: 0 <= i < n ==> z[i] == 0
  {
    seq(n, _ => 0)
  }

  lemma DecodeOneQuad(e: string)
    requires |e| == 4 && forall i :: 0 <= i < 4 ==> Value(e[i]).Some?
    ensures DecodeBlock(e) == Some(Triple(Value(e[0]).value, Value(e[1]).value, Value(e[2]).value, Value(e[3]).value))
  {
    DecodeStep(e, "", []);
    assert e + "" == e;
    var t := Triple(Value(e[0]).value, Value(e[1]).value, Value(e[2]).value, Value(e[3]).value);
    assert t + [] == t;
  }

  lemma TripleOfTwo(a: byte, b: byte)
    ensures Triple(a / 4, a % 4 * 16 + b / 16, b % 16 * 4, 0) == [a, b, 0]
  {
    TripleOfQuad(a, b, 0);
  }

  lemma TripleOfOne(a: byte)
    ensures Triple(a / 4, a % 4 * 16, 0, 0) == [a, 0, 0]
  {
    var q: Sextet := a % 4 * 16;
    assert q / 16 == a % 4 && q % 16 == 0;
  }

  lemma TwoByteBlock(a: byte, b: byte)
    ensures DecodeBlock(EncodeBlock([a, b])) == Some([a, b] + Zeros(Fill(2)))
  {
    var p: Sextet, q: Sextet, r: Sextet := a / 4, a % 4 * 16 + b / 16, b % 16 * 4;
    assert EncodeBlock([a, b]) == [Char(p), Char(q), Char(r), '='];
    DecodeOneQuad([Char(p), Char(q), Char(r), '=']);
    TripleOfTwo(a, b);
    assert [a, b, 0] == [a, b] + Zeros(Fill(2));
  }

  lemma OneByteBlock(a: byte)
    ensures DecodeBlock(EncodeBlock([a])) == Some([a] + Zeros(Fill(1)))
  {
    var p: Sextet, q: Sextet := a / 4, a % 4 * 16;
    assert EncodeBlock([a]) == [Char(p), Char(q), '=', '='];
    DecodeOneQuad([Char(p), Char(q), '=', '=']);
    TripleOfOne(a);
    assert [a, 0, 0] == [a] + Zeros(Fill(1));
  }

  lemma {:induction false} BlockRoundTrip(data: seq<byte>)
    ensures DecodeBlock(EncodeBlock(data)) == Some(data + Zeros(Fill(|data|)))
  {
    if |data| >= 3 {
      var rest := data[3..];
      BlockRoundTrip(rest);
      FillStep(|data|);
      QuadRoundTrip(data[0], data[1], data[2], EncodeBlock(rest), rest + Zeros(Fill(|rest|)));
      assert data + Zeros(Fill(|data|)) == [data[0], data[1], data[2]] + (rest + Zeros(Fill(|rest|)));
    } else if |data| == 2 {
      TwoByteBlock(data[0], data[1]);
      assert data == [data[0], data[1]];
    } else if |data| == 1 {
      OneByteBlock(data[0]);
      assert data == [data[0]];
    } else {
      assert data + Zeros(Fill(0)) == [];
    }
  }

  lemma {:induction false} StripTail(body: string, n: nat)
    requires body != "" ==> body[|body| - 1] != '='
    ensures Strip(body + seq(n, _ => '=')) == body
  {
    var text := body + seq(n, _ => '=');
    if n > 0 {
      assert text[..|text| - 1] == body + seq(n - 1, _ => '=');
      StripTail(body, n - 1);
    } else {
      assert text == body;
    }
  }

  lemma {:induction false} PadTail(text: string, n: nat)
    requires n < 4 && (|text| + n) % 4 == 0
    ensures Pad(text) == text + seq(n, _ => '=')
    decreases n
  {
    if n > 0 {
      PadTail(text + "=", n - 1);
      assert text + "=" + seq(n - 1, _ => '=') == text + seq(n, _ => '=');
    } else {
      assert text + seq(n, _ => '=') == text;
    }
  }

  /** The encoding is the padded text's digits, each replaced by its url character. */
  lemma EncodeIsBody(data: seq<byte>)
    ensures var e := EncodeBlock(data);
            Fill(|data|) <= |e| && Encode(data) == ToUrlText(e[..|e| - Fill(|data|)])
  {
    var e, n := EncodeBlock(data), Fill(|data|);
    var body := ToUrlText(e[..|e| - n]) by {
      BlockShape(data);
    }
    assert ToUrlText(e) == body + seq(n, _ => '=') && (body != "" ==> body[|body| - 1] != '=') by {
      BlockShape(data);
    }
    StripTail(body, n);
  }

  lemma UnpaddedLength(n: nat)
    ensures 4 * ((n + 2) / 3) - Fill(n) == (4 * n + 2) / 3
  {
    var q, r := n / 3, n % 3;
    assert n == 3 * q + r;
    assert (n + 2) / 3 == if r == 0 then q else q + 1;
    assert (4 * n + 2) / 3 == if r == 0 then 4 * q else if r == 1 then 4 * q + 2 else 4 * q + 3;
  }

  /** Only letters, digits, `-` and `_`: never `+`, `/`, `=` or the dot that separates token parts. */
  lemma EncodeAlphabet(data: seq<byte>)
    ensures |Encode(data)| == (4 * |data| + 2) / 3
    ensures forall c :: c in Encode(data) ==>
      ('A' <= c <= 'Z' || 'a' <= c <= 'z' || '0' <= c <= '9' || c == '-' || c == '_')
      && c != '+' && c != '/' && c != '=' && c != '.'
  {
    BlockShape(data);
    EncodeIsBody(data);
    UnpaddedLength(|data|);
  }

  lemma FromToUrl(body: string)
    requires forall i :: 0 <= i < |body| ==> IsDigit64(body[i])
    ensures FromUrlText(ToUrlText(body)) == body
  {
  }

  lemma BodyRecovered(e: string, n: nat)
    requires Shape(e, n)
    ensures FromUrlText(ToUrlText(e[..|e| - Fill(n)])) == e[..|e| - Fill(n)]
  {
    FromToUrl(e[..|e| - Fill(n)]);
  }

  lemma RefilledBody(e: string, n: nat)
    requires Shape(e, n)
    ensures Pad(e[..|e| - Fill(n)]) == e
  {
    var body := e[..|e| - Fill(n)];
    assert |e| % 4 == 0;
    PadTail(body, Fill(n));
    assert body + seq(Fill(n), _ => '=') == e;
  }

  lemma PaddingRestored(data: seq<byte>)
    ensures Pad(FromUrlText(Encode(data))) == EncodeBlock(data)
  {
    BlockShape(data);
    EncodeIsBody(data);
    BodyRecovered(EncodeBlock(data), |data|);
    RefilledBody(EncodeBlock(data), |data|);
  }

  lemma PaddingCounted(data: seq<byte>)
    ensures PaddingCount(EncodeBlock(data)) == Fill(|data|)
  {
    BlockShape(data);
  }

  lemma PaddingDropped(text: string, data: seq<byte>, n: nat)
    requires DecodeTrimmed(text) == Some(data + Zeros(n)) && PaddingCount(text) == n
    ensures DecodePadded(text) == Some(data)
  {
  }

  lemma Untouched(text: string)
    requires text == "" || (!IsBlank(text[0]) && !IsTrailing(text[|text| - 1]))
    ensures TrimEnd(TrimStart(text)) == text
  {
  }

  lemma NothingToTrim(data: seq<byte>)
    ensures DecodeTrimmed(EncodeBlock(data)) == DecodeBlock(EncodeBlock(data))
  {
    var e := EncodeBlock(data);
    assert e == "" || (!IsBlank(e[0]) && !IsTrailing(e[|e| - 1])) by {
      BlockShape(data);
      assert e != "" ==> |e| >= 4;
    }
    Untouched(e);
  }

  const UPPER := "ABCDEFGHIJKLMNOPQRSTUVWXYZ"
  const LOWER := "abcdefghijklmnopqrstuvwxyz"

  /** The digits in the order of their values, as in table 2 of section 5 of RFC 4648. */
  const ALPHABET := UPPER + LOWER + "0123456789" + "-_"

  lemma DigitsInOrder(v: Sextet)
    ensures |ALPHABET| == 64 && ToUrl(Char(v)) == ALPHABET[v]
  {
    assert |UPPER| == 26 && |LOWER| == 26;
    if v < 26 {
      assert UPPER[v] == ('A' as int + v) as char;
    } else if v < 52 {
      assert LOWER[v - 26] == ('a' as int + (v - 26)) as char;
    } else if v < 62 {
      assert "0123456789"[v - 52] == ('0' as int + (v - 52)) as char;
    }
  }

  /** Three bytes and their four digits are the same number, most significant first. */
  lemma SameNumber(a: byte, b: byte, c: byte)
    ensures var e := EncodeBlock([a, b, c]);
            && |e| == 4 && (forall i :: 0 <= i < 4 ==> Value(e[i]).Some?)
            && ((Value(e[0]).value * 64 + Value(e[1]).value) * 64 + Value(e[2]).value) * 64 + Value(e[3]).value
               == (a * 256 + b) * 256 + c
  {
    assert [a, b, c][3..] == [];
    assert EncodeBlock([a, b, c]) == Quad(a, b, c);
  }

  predicate IsBase64(c: char) { IsDigit64(c) || c == '=' }

  predicate AllBase64(text: string) {
    forall i {:trigger IsBase64(text[i])} :: 0 <= i < |text| ==> IsBase64(text[i])
  }

  lemma ReadsGroup(text: string)
    requires |text| >= 4
    ensures DecodeBlock(text).Some? <==>
      && DecodeBlock(text[4..]).Some?
      && IsBase64(text[0]) && IsBase64(text[1]) && IsBase64(text[2]) && IsBase64(text[3])
  {
  }

  lemma AllInGroups(text: string)
    requires |text| >= 4
    ensures AllBase64(text) <==>
      && AllBase64(text[4..])
      && IsBase64(text[0]) && IsBase64(text[1]) && IsBase64(text[2]) && IsBase64(text[3])
  {
    var rest := text[4..];
    if AllBase64(rest) && IsBase64(text[0]) && IsBase64(text[1]) && IsBase64(text[2]) && IsBase64(text[3]) {
      forall i | 0 <= i < |text| ensures IsBase64(text[i]) {
        assert i >= 4 ==> text[i] == rest[i - 4] && IsBase64(rest[i - 4]);
      }
    }
    if AllBase64(text) {
      forall i | 0 <= i < |rest| ensures IsBase64(rest[i]) {
        assert rest[i] == text[i + 4] && IsBase64(text[i + 4]);
      }
    }
  }

  predicate IsWhole(n: nat) { n % 4 == 0 }

  lemma WholeLess(n: nat)
    requires n >= 4
    ensures IsWhole(n - 4) <==> IsWhole(n)
  {
  }

  lemma ShortBlock(text: string)
    requires |text| < 4
    ensures DecodeBlock(text).Some? <==> IsWhole(|text|) && AllBase64(text)
  {
  }

  /** The block decoder reads exactly whole groups of base64 characters. */
  lemma {:induction false} BlockReadsIff(text: string)
    ensures DecodeBlock(text).Some? <==> IsWhole(|text|) && AllBase64(text)
  {
    if |text| < 4 {
      ShortBlock(text);
    } else {
      var rest := text[4..];
      BlockReadsIff(rest);
      ReadsGroup(text);
      AllInGroups(text);
      WholeLess(|text|);
      assert |rest| == |text| - 4;
    }
  }

  /** Decoding the encoding of any byte string gives the byte string back. */
  lemma RoundTrip(data: seq<byte>)
    ensures Decode(Encode(data)) == Some(data)
  {
    PaddingRestored(data);
    BlockRoundTrip(data);
    NothingToTrim(data);
    PaddingCounted(data);
    PaddingDropped(EncodeBlock(data), data, Fill(|data|));
  }

  /** Distinct byte strings have distinct encodings. */
  lemma EncodeInjective(a: seq<byte>, b: seq<byte>)
    requires Encode(a) == Encode(b)
    ensures a == b
  {
    RoundTrip(a);
    RoundTrip(b);
  }
}
