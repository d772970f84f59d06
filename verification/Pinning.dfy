/** Trust on first use: the client remembers which identity it first saw for every user. */
module Pinning {
  import opened Wrappers
  import opened Crypto
  import opened Bundles

  /** What is remembered: the identity and signing keys of a bundle, or the whole text of anything else. */
  datatype Anchor = Identities(identityKey: PublicKey, signingKey: PublicKey) | Whole(text: KeyText)

  function AnchorOf(key: KeyText): Anchor {
    if key.BundleText? && key.bundle.identityKey.Some? && key.bundle.signingKey.Some?
    then Identities(key.bundle.identityKey.value, key.bundle.signingKey.value)
    else Whole(key)
  }

  /** An entry of the known-keys file; one that is not a string is never matched. */
  datatype Entry = Pinned(anchor: Anchor) | NotAString

  datatype Refusal = InvalidEntry | IdentityChanged

  type Pins = map<nat, Entry>

  function Accept(pins: Pins, userId: nat, key: KeyText): Result<KeyText, Refusal> {
    if userId !in pins then Ok(key)
    else if pins[userId].NotAString? then Err(InvalidEntry)
    else if pins[userId].anchor != AnchorOf(key) then Err(IdentityChanged)
    else Ok(key)
  }

  function Remember(pins: Pins, userId: nat, key: KeyText): Pins {
    if userId in pins then pins else pins[userId := Pinned(AnchorOf(key))]
  }

  class KnownKeys {
    var pins: Pins

    constructor (pins: Pins)
      ensures this.pins == pins
    {
      this.pins := pins;
    }

    method PinPublicKey(userId: nat, key: KeyText) returns (result: Result<KeyText, Refusal>)
      modifies this`pins
      ensures result == Accept(old(pins), userId, key)
      ensures pins == Remember(old(pins), userId, key)
    {
      var anchor := AnchorOf(key);
      if userId !in pins {
        pins := pins[userId := Pinned(anchor)];
        return Ok(key);
      }
      if pins[userId].NotAString? {
        return Err(InvalidEntry);
      }
      if pins[userId].anchor != anchor {
        return Err(IdentityChanged);
      }
      result := Ok(key);
    }
  }

  /** A pinned pair of identity and signing key accepts exactly the bundles with both keys; and it never changes. */
  lemma PinnedPairAcceptsIff(pins: Pins, userId: nat, identityKey: PublicKey, signingKey: PublicKey, key: KeyText)
    requires userId in pins && pins[userId] == Pinned(Identities(identityKey, signingKey))
    ensures Accept(pins, userId, key).Ok? <==>
      key.BundleText? && key.bundle.identityKey == Some(identityKey) && key.bundle.signingKey == Some(signingKey)
    ensures Remember(pins, userId, key) == pins
  {
  }

  /** A first key is accepted and pins its own pair; an entry that is not a string accepts nothing. */
  lemma FirstKeyPinsItsPair(pins: Pins, userId: nat, key: KeyText)
    ensures userId !in pins ==> Accept(pins, userId, key) == Ok(key)
    ensures userId !in pins && key.BundleText? && key.bundle.identityKey.Some? && key.bundle.signingKey.Some? ==>
      Remember(pins, userId, key)
      == pins[userId := Pinned(Identities(key.bundle.identityKey.value, key.bundle.signingKey.value))]
    ensures userId in pins && pins[userId].NotAString? ==> Accept(pins, userId, key) == Err(InvalidEntry)
  {
  }

  // ---------------------------------------------------------------------------
  // Runs of lookups against any server
  // ---------------------------------------------------------------------------

  datatype Lookup = Lookup(userId: nat, key: KeyText)

  function After(pins: Pins, lookups: seq<Lookup>): Pins {
    if lookups == [] then pins
    else
      var n := |lookups| - 1;
      Remember(After(pins, lookups[..n]), lookups[n].userId, lookups[n].key)
  }

  /** The answer to the lookup at position `i` of a run. */
  function Answer(pins: Pins, lookups: seq<Lookup>, i: nat): Result<KeyText, Refusal>
    requires i < |lookups|
  {
    Accept(After(pins, lookups[..i]), lookups[i].userId, lookups[i].key)
  }

  lemma {:induction false} PinsOnlyGrow(pins: Pins, lookups: seq<Lookup>, i: nat, userId: nat)
    requires i <= |lookups| && userId in After(pins, lookups[..i])
    ensures userId in After(pins, lookups)
    ensures After(pins, lookups)[userId] == After(pins, lookups[..i])[userId]
  {
    if i < |lookups| {
      var n := |lookups| - 1;
      assert lookups[..n][..i] == lookups[..i];
      PinsOnlyGrow(pins, lookups[..n], i, userId);
    } else {
      assert lookups[..i] == lookups;
    }
  }

  /** Whatever the server answers, all keys accepted for one user in a run share one anchor. */
  lemma AcceptedKeysShareAnchor(pins: Pins, lookups: seq<Lookup>, i: nat, j: nat)
    requires i < j < |lookups| && lookups[i].userId == lookups[j].userId
    requires Answer(pins, lookups, i).Ok? && Answer(pins, lookups, j).Ok?
    ensures AnchorOf(Answer(pins, lookups, i).value) == AnchorOf(Answer(pins, lookups, j).value)
  {
    var userId := lookups[i].userId;
    assert lookups[..i + 1][..i] == lookups[..i];
    assert lookups[..j][..i + 1] == lookups[..i + 1];
    assert userId in After(pins, lookups[..i + 1]);
    PinsOnlyGrow(pins, lookups[..j], i + 1, userId);
  }

  // ---------------------------------------------------------------------------
  // An honest server only consumes prekeys
  // ---------------------------------------------------------------------------

  datatype ServerEvent = Consumed(userId: nat, preKeyId: nat) | Fetched(userId: nat)

  type Column = map<nat, KeyText>

  function ConsumeAt(column: Column, userId: nat, preKeyId: nat): Column {
    if userId in column && Consume(column[userId], preKeyId).Some?
    then column[userId := Consume(column[userId], preKeyId).value] else column
  }

  /** The column and one client's pins after a run of consumptions and fetches. */
  function Serve(column: Column, events: seq<ServerEvent>): (Column, Pins) {
    if events == [] then (column, map[])
    else
      var (c, pins) := Serve(column, events[..|events| - 1]);
      match events[|events| - 1]
      case Consumed(userId, id) => (ConsumeAt(c, userId, id), pins)
      case Fetched(userId) => if userId in c then (c, Remember(pins, userId, c[userId])) else (c, pins)
  }

  /** Consuming a prekey does not move the anchor of a bundle that names both keys. */
  lemma ConsumeKeepsAnchor(key: KeyText, id: nat)
    requires Consume(key, id).Some? && AnchorOf(key).Identities?
    ensures AnchorOf(Consume(key, id).value) == AnchorOf(key)
  {
  }

  lemma {:induction false} HonestServer(column: Column, events: seq<ServerEvent>)
    requires forall u :: u in column ==> IsValidText(column[u])
    ensures var (c, pins) := Serve(column, events);
            && c.Keys == column.Keys
            && (forall u :: u in c ==> IsValidText(c[u]) && AnchorOf(c[u]) == AnchorOf(column[u]))
            && (forall u :: u in pins ==> u in column && pins[u] == Pinned(AnchorOf(column[u])))
  {
    if events != [] {
      HonestServer(column, events[..|events| - 1]);
    }
  }

  /** With valid bundles and no change but consumption, no fetch is ever refused, and what it returns is valid. */
  lemma {:induction false} HonestServerNeverRefused(column: Column, events: seq<ServerEvent>, userId: nat)
    requires forall u :: u in column ==> IsValidText(column[u])
    requires userId in column
    ensures var (c, pins) := Serve(column, events);
            && userId in c && IsValidText(c[userId])
            && Accept(pins, userId, c[userId]) == Ok(c[userId])
  {
    HonestServer(column, events);
  }
}
