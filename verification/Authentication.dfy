/**
 Who gets past the server's authentication filter: the list of logged-out
 tokens, and the order in which a request's token is checked.

 The list is pruned of expired tokens on every call. Times are readings of the
 wall clock in seconds; logging out reads the clock twice.
 */
module Authentication {
  import opened Wrappers
  import opened Decimal
  import Json
  import Jwt

  type Tokens = map<string, nat>

  datatype Call =
    | Revoke(token: string, now: nat, later: nat)
    | Query(token: string, now: nat)

  function Prune(tokens: Tokens, now: nat): Tokens {
    map t | t in tokens && tokens[t] > now :: tokens[t]
  }

  function Apply(json: Json.Library, tokens: Tokens, call: Call): Tokens {
    match call
    case Query(_, now) => Prune(tokens, now)
    case Revoke(token, now, later) =>
      var expiry := Jwt.ExpiryFromToken(json, token);
      Prune(tokens, now)[token := if expiry.Some? then expiry.value else later]
  }

  function Run(json: Json.Library, calls: seq<Call>): Tokens {
    if calls == [] then map[]
    else Apply(json, Run(json, calls[..|calls| - 1]), calls[|calls| - 1])
  }

  /** `Raised`: the JSON library's exception about a claim of the wrong type leaves the filter. */
  datatype Verdict = Pass | Refuse(status: nat) | Raised

  const PUBLIC_PATHS := ["/login", "/signup", "/health", "/", "/api"]

  /** The public paths, and `/users/<digits>/public-key`. */
  predicate IsPublic(path: string) {
    || path in PUBLIC_PATHS
    || (&& |path| > 18 && path[..7] == "/users/" && path[|path| - 11..] == "/public-key"
        && forall i :: 7 <= i < |path| - 11 ==> IsDigit(path[i]))
  }

  predicate AllDigits(n: string) {
    n != "" && forall i :: 0 <= i < |n| ==> '0' <= n[i] <= '9'
  }

  lemma NumberInPath(path: string, n: string)
    requires path == "/users/" + n + "/public-key"
    ensures |path| == |n| + 18
    ensures path[..7] == "/users/" && path[7..|path| - 11] == n && path[|path| - 11..] == "/public-key"
  {
  }

  /** Exactly five fixed paths and the public-key path of any user number need no token. */
  lemma PublicPathsAre(path: string)
    ensures IsPublic(path) <==>
      || path == "/login" || path == "/signup" || path == "/health" || path == "/" || path == "/api"
      || exists n :: AllDigits(n) && path == "/users/" + n + "/public-key"
  {
    if |path| > 18 && path[..7] == "/users/" && path[|path| - 11..] == "/public-key" {
      var n := path[7..|path| - 11];
      assert path == "/users/" + n + "/public-key";
      assert IsPublic(path) ==> AllDigits(n) || path in PUBLIC_PATHS;
    }
    forall n | AllDigits(n) && path == "/users/" + n + "/public-key" ensures IsPublic(path) {
      NumberInPath(path, n);
      assert forall i :: 7 <= i < |path| - 11 ==> path[i] == n[i - 7];
    }
  }

  class TokenBlacklist {
    var tokens: Tokens
    const json: Json.Library

    constructor (json: Json.Library)
      ensures tokens == map[] && this.json == json
    {
      this.json := json;
      tokens := map[];
    }

    method PruneExpired(now: nat)
      modifies this`tokens
      ensures tokens == Prune(old(tokens), now)
    {
      var unseen := tokens.Keys;
      while unseen != {}
        invariant unseen <= tokens.Keys <= old(tokens.Keys)
        invariant forall t :: t in tokens ==> tokens[t] == old(tokens)[t]
        invariant forall t :: t in old(tokens) ==> (t in tokens <==> t in unseen || old(tokens)[t] > now)
        decreases unseen
      {
        var t :| t in unseen;
        unseen := unseen - {t};
        if tokens[t] <= now {
          tokens := tokens - {t};
        }
      }
    }

    method RevokeToken(token: string, now: nat, later: nat)
      modifies this`tokens
      ensures tokens == Apply(json, old(tokens), Revoke(token, now, later))
    {
      PruneExpired(now);
      var expiry := Jwt.ExpiryFromToken(json, token);
      tokens := tokens[token := if expiry.Some? then expiry.value else later];
    }

    method IsRevoked(token: string, now: nat) returns (revoked: bool)
      modifies this`tokens
      ensures tokens == Apply(json, old(tokens), Query(token, now))
      ensures revoked <==> token in tokens
    {
      PruneExpired(now);
      revoked := token in tokens;
    }

    /** The filter: `verifiedAt` is the clock the signature check reads, `listedAt` the list's. */
    method ValidateAuthenticated(path: string, token: Option<string>, hmac: Jwt.Hmac, secret: Option<string>,
                                 verifiedAt: nat, listedAt: nat) returns (verdict: Verdict)
      modifies this`tokens
      ensures IsPublic(path) ==> verdict == Pass && tokens == old(tokens)
      ensures !IsPublic(path) && token.None? ==> verdict == Refuse(401) && tokens == old(tokens)
      ensures !IsPublic(path) && token.Some? && secret.None? ==> verdict == Refuse(500) && tokens == old(tokens)
      ensures !IsPublic(path) && token.Some? && secret.Some? ==>
        var verified := Jwt.VerifiedPayload(json, hmac, token.value, secret.value, verifiedAt);
        && tokens == (if verified.Verified? then Prune(old(tokens), listedAt) else old(tokens))
        && verdict == if verified.Throws? then Raised
                      else if Accepts(json, old(tokens), hmac, token.value, secret.value, verifiedAt, listedAt)
                      then Pass else Refuse(401)
    {
      if IsPublic(path) {
        return Pass;
      }
      if token.None? {
        return Refuse(401);
      }
      if secret.None? {
        return Refuse(500);
      }
      var verified := Jwt.VerifiedPayload(json, hmac, token.value, secret.value, verifiedAt);
      if verified.Throws? {
        return Raised;
      }
      if verified.Invalid? {
        return Refuse(401);
      }
      var revoked := IsRevoked(token.value, listedAt);
      verdict := if revoked then Refuse(401) else Pass;
    }
  }

  /** The token verifies, and the list does not report it. */
  predicate Accepts(json: Json.Library, tokens: Tokens, hmac: Jwt.Hmac, token: string, secret: string,
                    verifiedAt: nat, listedAt: nat)
  {
    Jwt.VerifiedPayload(json, hmac, token, secret, verifiedAt).Verified? && token !in Prune(tokens, listedAt)
  }

  // ---------------------------------------------------------------------------
  // The pruned list against the history of all logouts
  // ---------------------------------------------------------------------------

  function Last(call: Call): nat {
    if call.Revoke? then call.later else call.now
  }

  /** The clock never goes back, within a call or between calls, and has not passed `now`. */
  predicate Timed(calls: seq<Call>, now: nat) {
    calls == [] ||
    (var call := calls[|calls| - 1];
     && call.now <= Last(call) <= now
     && Timed(calls[..|calls| - 1], call.now))
  }

  /** The specification: every token ever logged out, never forgotten. */
  predicate EverRevoked(calls: seq<Call>, token: string) {
    exists i :: 0 <= i < |calls| && calls[i].Revoke? && calls[i].token == token
  }

  lemma EverRevokedStep(calls: seq<Call>, token: string)
    requires calls != []
    ensures var last := calls[|calls| - 1];
            EverRevoked(calls, token) <==>
              EverRevoked(calls[..|calls| - 1], token) || (last.Revoke? && last.token == token)
  {
  }

  lemma {:induction false} ListAgainstHistory(json: Json.Library, calls: seq<Call>, now: nat, token: string)
    requires Timed(calls, now)
    ensures var tokens, expiry := Run(json, calls), Jwt.ExpiryFromToken(json, token);
            && (token in tokens ==> EverRevoked(calls, token))
            && (token in tokens && expiry.Some? ==> tokens[token] == expiry.value)
            && (token in tokens && expiry.None? ==> tokens[token] <= now)
            && (EverRevoked(calls, token) && expiry.Some? && expiry.value > now ==> token in tokens)
  {
    if calls != [] {
      var n := |calls| - 1;
      ListAgainstHistory(json, calls[..n], calls[n].now, token);
      EverRevokedStep(calls, token);
    }
  }

  /**
   Pruning loses nothing: after any history, a query at `now` reports exactly
   the tokens that were ever logged out and whose expiry is still ahead.
   */
  lemma ReportsExactlyTheLiveLogouts(json: Json.Library, calls: seq<Call>, now: nat, token: string)
    requires Timed(calls, now)
    ensures token in Run(json, calls + [Query(token, now)]) <==>
      && EverRevoked(calls, token)
      && Jwt.ExpiryFromToken(json, token).Some?
      && Jwt.ExpiryFromToken(json, token).value > now
  {
    assert (calls + [Query(token, now)])[..|calls|] == calls;
    ListAgainstHistory(json, calls, now, token);
  }

  /**
   A minted token that was logged out is let through again exactly when the
   signature check reads a clock not after the expiry and the list reads one
   not before it; one never logged out is let through until its expiry.
   */
  lemma {:induction false} LoggedOutTokenAcceptedOnlyAcrossExpiry(
      json: Json.Library, calls: seq<Call>, hmac: Jwt.Hmac, secret: string,
      userId: nat, username: string, issuedAt: nat, ttl: nat, verifiedAt: nat, listedAt: nat)
    requires Json.Lawful(json)
    requires verifiedAt <= listedAt && Timed(calls, listedAt)
    ensures var token := Jwt.CreateSession(json, hmac, secret, userId, username, issuedAt, ttl);
            var expiry := (issuedAt + ttl) % TWO_64;
            Accepts(json, Run(json, calls), hmac, token, secret, verifiedAt, listedAt) <==>
              verifiedAt <= expiry && (EverRevoked(calls, token) ==> expiry <= listedAt)
  {
    var token := Jwt.CreateSession(json, hmac, secret, userId, username, issuedAt, ttl);
    Jwt.MintedTokenVerifies(json, hmac, secret, userId, username, issuedAt, ttl, verifiedAt);
    ListAgainstHistory(json, calls, listedAt, token);
  }

  lemma OneLogout(token: string, now: nat, later: nat)
    requires now <= later
    ensures EverRevoked([Revoke(token, now, now)], token) && Timed([Revoke(token, now, now)], later)
  {
    var calls := [Revoke(token, now, now)];
    assert calls[0].Revoke? && calls[..0] == [];
  }

  lemma NoWrap(n: nat)
    requires n < TWO_64
    ensures n % TWO_64 == n
  {
  }

  lemma {:induction false} AcceptedAtExpiry(json: Json.Library, calls: seq<Call>, hmac: Jwt.Hmac, secret: string,
                                            userId: nat, username: string, issuedAt: nat, ttl: nat, expiry: nat)
    requires Json.Lawful(json) && expiry == (issuedAt + ttl) % TWO_64 && Timed(calls, expiry)
    ensures var token := Jwt.CreateSession(json, hmac, secret, userId, username, issuedAt, ttl);
            Accepts(json, Run(json, calls), hmac, token, secret, expiry, expiry)
  {
    LoggedOutTokenAcceptedOnlyAcrossExpiry(json, calls, hmac, secret, userId, username, issuedAt, ttl, expiry, expiry);
  }

  /** An input: a token logged out the moment it was minted is let through when both clocks read its expiry. */
  lemma {:induction false} LoggedOutTokenAcceptedAtExpiry(json: Json.Library, hmac: Jwt.Hmac, secret: string,
                                                          userId: nat, username: string, issuedAt: nat, ttl: nat)
    requires Json.Lawful(json) && issuedAt + ttl < TWO_64
    ensures var token := Jwt.CreateSession(json, hmac, secret, userId, username, issuedAt, ttl);
            var calls := [Revoke(token, issuedAt, issuedAt)];
            && EverRevoked(calls, token)
            && Accepts(json, Run(json, calls), hmac, token, secret, issuedAt + ttl, issuedAt + ttl)
  {
    var token := Jwt.CreateSession(json, hmac, secret, userId, username, issuedAt, ttl);
    OneLogout(token, issuedAt, issuedAt + ttl);
    NoWrap(issuedAt + ttl);
    AcceptedAtExpiry(json, [Revoke(token, issuedAt, issuedAt)], hmac, secret, userId, username, issuedAt, ttl,
                     issuedAt + ttl);
  }
}
