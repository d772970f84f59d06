/**
 Session tokens in the compact form of section 7.1 of RFC 7515: three
 base64url parts separated by dots, the last one a keyed hash of the first two.
 */
module Jwt {
  import opened Wrappers
  import opened Base64Url
  import opened Decimal
  import Json

  /** The keyed hash: (secret, message) to digest. */
  type Hmac = (string, string) -> seq<byte>

  /** `Throws` is an exception of the JSON library about a member of the wrong type. */
  datatype Verification = Verified(payload: Json.Value) | Invalid | Throws

  function Signature(hmac: Hmac, input: string, secret: string): string {
    Encode(hmac(secret, input))
  }

  function HeaderJson(): Json.Value {
    Json.Object(map["alg" := Json.Text("HS256"), "typ" := Json.Text("JWT")])
  }

  /** The claims; the expiry is a 64-bit sum. */
  function ClaimsJson(userId: nat, username: string, issuedAt: nat, ttl: nat): Json.Value {
    Json.Object(map["sub" := Json.Text(ToDecimal(userId)),
                    "username" := Json.Text(username),
                    "iat" := Json.Unsigned(issuedAt),
                    "exp" := Json.Unsigned((issuedAt + ttl) % TWO_64)])
  }

  function CreateSession(json: Json.Library, hmac: Hmac, secret: string,
                         userId: nat, username: string, issuedAt: nat, ttl: nat): string
  {
    var input := Encode(json.dump(HeaderJson())) + "." + Encode(json.dump(ClaimsJson(userId, username, issuedAt, ttl)));
    input + "." + Signature(hmac, input, secret)
  }

  /** The parts around the first two dots, when there are two. */
  function FirstDots(token: string): (r: Option<(nat, nat)>)
    ensures r.Some? ==> r.value.0 < r.value.1 < |token|
  {
    var first := Find(token, '.', 0);
    if first.None? then None
    else
      var second := Find(token, '.', first.value + 1);
      if second.None? then None else Some((first.value, second.value))
  }

  datatype Parts = Parts(header: string, payload: string, signed: string, signature: string)

  /** The three parts of a token with exactly two dots, and the text its signature covers. */
  function Split(token: string): Option<Parts> {
    var dots := FirstDots(token);
    if dots.None? then None
    else
      var (first, second) := dots.value;
      if Find(token, '.', second + 1).Some? then None
      else Some(Parts(token[..first], token[first + 1..second], token[..second], token[second + 1..]))
  }

  function CheckClaims(json: Json.Library, header: Json.Value, payload: Json.Value, now: nat): Verification {
    if !header.Object? then Throws
    else if !Json.Contains(header, "alg") then Invalid
    else if !header.members["alg"].Text? then Throws
    else if header.members["alg"].text != "HS256" then Invalid
    else if !Json.Contains(payload, "exp") then Invalid
    else
      var expiry := Json.ToUint64(json, payload.members["exp"]);
      if expiry.None? then Throws else if expiry.value < now then Invalid else Verified(payload)
  }

  function VerifiedPayload(json: Json.Library, hmac: Hmac, token: string, secret: string, now: nat): Verification {
    var parts := Split(token);
    if parts.None? || parts.value.signature != Signature(hmac, parts.value.signed, secret) then Invalid
    else
      var headerBody, payloadBody := Decode(parts.value.header), Decode(parts.value.payload);
      if headerBody.None? || payloadBody.None? then Invalid
      else
        var header, payload := json.parse(headerBody.value), json.parse(payloadBody.value);
        if header.None? || payload.None? then Invalid else CheckClaims(json, header.value, payload.value, now)
  }

  /** The user a verified token speaks for. */
  function AuthenticatedUser(json: Json.Library, hmac: Hmac, token: string, secret: string, now: nat): Option<nat> {
    var v := VerifiedPayload(json, hmac, token, secret, now);
    if !v.Verified? || !Json.Contains(v.payload, "sub") || !v.payload.members["sub"].Text? then None
    else FromChars(v.payload.members["sub"].text)
  }

  /** The expiry the logout list reads from a token, without checking its signature. */
  function ExpiryFromToken(json: Json.Library, token: string): Option<nat> {
    var dots := FirstDots(token);
    if dots.None? then None
    else
      var body := Decode(token[dots.value.0 + 1..dots.value.1]);
      var payload := if body.None? then None else json.parse(body.value);
      if payload.None? || !Json.Contains(payload.value, "exp") || !payload.value.members["exp"].Unsigned? then None
      else Some(payload.value.members["exp"].number)
  }

  predicate Dotless(s: string) { forall i :: 0 <= i < |s| ==> s[i] != '.' }

  /** Three dot-free parts joined by dots are found again, and there is no third dot. */
  lemma SplitsAtItsDots(a: string, b: string, c: string)
    requires Dotless(a) && Dotless(b) && Dotless(c)
    ensures var token := a + "." + b + "." + c;
            && FirstDots(token) == Some((|a|, |a| + 1 + |b|))
            && token[|a| + 1..|a| + 1 + |b|] == b
            && Split(token) == Some(Parts(a, b, a + "." + b, c))
  {
    var token := a + "." + b + "." + c;
    var s := |a| + 1 + |b|;
    assert token == (a + ".") + (b + "." + c);
    assert token == (a + "." + b + ".") + c;
    forall i | s < i < |token| ensures token[i] != '.' {
      assert token[i] == c[i - s - 1];
    }
    forall i | |a| < i < s ensures token[i] != '.' {
      assert token[i] == b[i - |a| - 1];
    }
    DotsAt(token, |a|, s);
    assert token[..|a|] == a && token[|a| + 1..s] == b;
    assert token[..s] == a + "." + b && token[s + 1..] == c;
  }

  lemma DotsAt(token: string, first: nat, second: nat)
    requires first < second < |token| && token[first] == token[second] == '.'
    requires forall i :: 0 <= i < |token| && i != first && i != second ==> token[i] != '.'
    ensures FirstDots(token) == Some((first, second)) && Find(token, '.', second + 1) == None
  {
    assert Find(token, '.', 0) == Some(first);
    assert Find(token, '.', first + 1) == Some(second);
  }

  lemma EncodedIsDotless(data: seq<byte>)
    ensures Dotless(Encode(data))
  {
    EncodeAlphabet(data);
    var e := Encode(data);
    forall i | 0 <= i < |e| ensures e[i] != '.' {
      assert e[i] in e;
    }
  }

  lemma VerifiesByParts(json: Json.Library, hmac: Hmac, secret: string, a: string, b: string, claims: Json.Value,
                        now: nat)
    requires Dotless(a) && Dotless(b) && Dotless(Signature(hmac, a + "." + b, secret))
    requires Decode(a).Some? && json.parse(Decode(a).value) == Some(HeaderJson())
    requires Decode(b).Some? && json.parse(Decode(b).value) == Some(claims)
    requires Json.Contains(claims, "exp") && claims.members["exp"].Unsigned?
    ensures var token := a + "." + b + "." + Signature(hmac, a + "." + b, secret);
            && VerifiedPayload(json, hmac, token, secret, now)
               == (if now <= claims.members["exp"].number then Verified(claims) else Invalid)
            && ExpiryFromToken(json, token) == Some(claims.members["exp"].number)
  {
    var token := a + "." + b + "." + Signature(hmac, a + "." + b, secret);
    SplitsAtItsDots(a, b, Signature(hmac, a + "." + b, secret));
    assert HeaderJson().members["alg"] == Json.Text("HS256");
    assert CheckClaims(json, HeaderJson(), claims, now)
        == if now <= claims.members["exp"].number then Verified(claims) else Invalid;
    assert VerifiedPayload(json, hmac, token, secret, now) == CheckClaims(json, HeaderJson(), claims, now);
  }

  /**
   A minted token verifies under its own secret, to its own claims, exactly
   while the clock has not passed its expiry; at the expiry itself it is still good.
   */
  lemma MintedTokenVerifies(json: Json.Library, hmac: Hmac, secret: string,
                            userId: nat, username: string, issuedAt: nat, ttl: nat, now: nat)
    requires Json.Lawful(json)
    ensures VerifiedPayload(json, hmac, CreateSession(json, hmac, secret, userId, username, issuedAt, ttl), secret, now)
         == if now <= (issuedAt + ttl) % TWO_64 then Verified(ClaimsJson(userId, username, issuedAt, ttl)) else Invalid
    ensures ExpiryFromToken(json, CreateSession(json, hmac, secret, userId, username, issuedAt, ttl))
         == Some((issuedAt + ttl) % TWO_64)
  {
    var header, claims := json.dump(HeaderJson()), json.dump(ClaimsJson(userId, username, issuedAt, ttl));
    EncodedIsDotless(header);
    EncodedIsDotless(claims);
    EncodedIsDotless(hmac(secret, Encode(header) + "." + Encode(claims)));
    RoundTrip(header);
    RoundTrip(claims);
    VerifiesByParts(json, hmac, secret, Encode(header), Encode(claims),
                    ClaimsJson(userId, username, issuedAt, ttl), now);
  }

  /** The subject survives the round trip through its decimal text. */
  lemma {:induction false} MintedTokenNamesItsUser(json: Json.Library, hmac: Hmac, secret: string,
                                userId: nat, username: string, issuedAt: nat, ttl: nat, now: nat)
    requires Json.Lawful(json) && userId < TWO_64
    ensures AuthenticatedUser(json, hmac, CreateSession(json, hmac, secret, userId, username, issuedAt, ttl),
                              secret, now)
         == if now <= (issuedAt + ttl) % TWO_64 then Some(userId) else None
  {
    MintedTokenVerifies(json, hmac, secret, userId, username, issuedAt, ttl, now);
    var claims := ClaimsJson(userId, username, issuedAt, ttl);
    assert claims.members["sub"] == Json.Text(ToDecimal(userId));
    TokenRoundTrip(userId);
    assert TokenIds(ToDecimal(userId)) == [userId];
  }

  lemma SplitCoversToken(token: string)
    requires Split(token).Some?
    ensures var parts := Split(token).value; token == parts.signed + "." + parts.signature
  {
  }

  /** A token splits exactly if it has two dots: its parts are dot-free, and joined again they are the token. */
  lemma SplitPartsAreDotless(token: string)
    requires Split(token).Some?
    ensures var p := Split(token).value;
            && Dotless(p.header) && Dotless(p.payload) && Dotless(p.signature)
            && p.signed == p.header + "." + p.payload && token == p.signed + "." + p.signature
  {
    SplitCoversToken(token);
    var (first, second) := FirstDots(token).value;
    assert token[..second] == token[..first] + [token[first]] + token[first + 1..second];
  }

  /** What a minted token says while it verifies, claim by claim. */
  lemma {:induction false} MintedClaims(json: Json.Library, hmac: Hmac, secret: string,
                                        userId: nat, username: string, issuedAt: nat, ttl: nat, now: nat)
    requires Json.Lawful(json) && now <= (issuedAt + ttl) % TWO_64
    ensures VerifiedPayload(json, hmac, CreateSession(json, hmac, secret, userId, username, issuedAt, ttl), secret, now)
         == Verified(Json.Object(map["sub" := Json.Text(ToDecimal(userId)), "username" := Json.Text(username),
                                     "iat" := Json.Unsigned(issuedAt),
                                     "exp" := Json.Unsigned((issuedAt + ttl) % TWO_64)]))
  {
    MintedTokenVerifies(json, hmac, secret, userId, username, issuedAt, ttl, now);
  }

  /**
   A token verifies only if its last part is the keyed hash of everything before
   it, its header names HS256 and its expiry, read as 64 bits, has not passed. The logout list reads the
   same expiry exactly if it is an unsigned integer, and otherwise none.
   */
  lemma {:induction false} VerifiedMeansSigned(json: Json.Library, hmac: Hmac, token: string, secret: string, now: nat)
    requires VerifiedPayload(json, hmac, token, secret, now).Verified?
    ensures Split(token).Some?
    ensures var signed := Split(token).value.signed; token == signed + "." + Signature(hmac, signed, secret)
    ensures Decode(Split(token).value.header).Some?
    ensures var header := json.parse(Decode(Split(token).value.header).value);
            && header.Some? && Json.Contains(header.value, "alg")
            && header.value.members["alg"] == Json.Text("HS256")
    ensures var claims := VerifiedPayload(json, hmac, token, secret, now).payload;
            && Json.Contains(claims, "exp")
            && var expiry := Json.ToUint64(json, claims.members["exp"]);
               && expiry.Some? && now <= expiry.value
               && ExpiryFromToken(json, token) == if claims.members["exp"].Unsigned? then expiry else None
  {
    SplitCoversToken(token);
  }
}
