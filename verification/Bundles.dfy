/** The public key bundles users publish, and the text column the server keeps them in. */
module Bundles {
  import opened Wrappers
  import opened Crypto

  datatype SignedPreKey = SignedPreKey(id: nat, publicKey: PublicKey, signature: Signature)

  datatype BundleKey = PreKey(id: nat, publicKey: PublicKey) | NotAPreKey

  datatype KeyList = Missing | NotAList | Keys(keys: seq<BundleKey>)

  /** A bundle object; `supported` says that its version and algorithm are the known ones. */
  datatype Bundle = Bundle(
    supported: bool,
    identityKey: Option<PublicKey>,
    signingKey: Option<PublicKey>,
    signedPreKey: Option<SignedPreKey>,
    oneTimePreKeys: KeyList)

  /** The text of a bundle object, or any other text. */
  datatype KeyText = BundleText(bundle: Bundle) | OtherText(text: string)

  /** Complete, well-formed, and with a signed prekey that its signing key signed. */
  predicate IsValid(b: Bundle) {
    && b.supported
    && b.identityKey.Some? && b.identityKey.value.Pub?
    && b.signingKey.Some? && b.signingKey.value.Pub?
    && b.signedPreKey.Some? && b.signedPreKey.value.publicKey.Pub?
    && !b.oneTimePreKeys.Missing?
    && b.signedPreKey.value.signature
       == Signed(b.signingKey.value.secret, b.signedPreKey.value.id, b.signedPreKey.value.publicKey)
  }

  predicate IsValidText(t: KeyText) {
    t.BundleText? && IsValid(t.bundle)
  }

  // ---------------------------------------------------------------------------
  // Consuming a one-time prekey on the server
  // ---------------------------------------------------------------------------

  function Without(keys: seq<BundleKey>, id: nat): (r: seq<BundleKey>)
    ensures |r| <= |keys|
    ensures forall k :: k in r <==> k in keys && !(k.PreKey? && k.id == id)
  {
    if keys == [] then []
    else (if keys[0].PreKey? && keys[0].id == id then [] else [keys[0]]) + Without(keys[1..], id)
  }

  /** The column after every prekey with this identifier is dropped; nothing when there is none. */
  function Consume(t: KeyText, id: nat): Option<KeyText> {
    if !t.BundleText? || !t.bundle.oneTimePreKeys.Keys? then None
    else
      var left := Without(t.bundle.oneTimePreKeys.keys, id);
      if |left| == |t.bundle.oneTimePreKeys.keys| then None
      else Some(BundleText(t.bundle.(oneTimePreKeys := Keys(left))))
  }

  function PreKeys(t: KeyText): seq<BundleKey> {
    if t.BundleText? && t.bundle.oneTimePreKeys.Keys? then t.bundle.oneTimePreKeys.keys else []
  }

  predicate Offers(t: KeyText, id: nat) {
    exists k :: k in PreKeys(t) && k.PreKey? && k.id == id
  }

  predicate Distinct(keys: seq<BundleKey>) {
    forall i, j :: 0 <= i < j < |keys| && keys[i].PreKey? && keys[j].PreKey? ==> keys[i].id != keys[j].id
  }

  lemma {:induction false} WithoutShrinks(keys: seq<BundleKey>, id: nat)
    ensures |Without(keys, id)| < |keys| <==> exists k :: k in keys && k.PreKey? && k.id == id
  {
    if keys != [] {
      WithoutShrinks(keys[1..], id);
      assert keys[0] in keys;
    }
  }

  lemma DistinctFromFirst(keys: seq<BundleKey>, k: BundleKey)
    requires keys != [] && Distinct(keys) && k in keys[1..] && k.PreKey? && keys[0].PreKey?
    ensures k.id != keys[0].id
  {
  }

  lemma {:induction false} DistinctDropsOne(keys: seq<BundleKey>, id: nat)
    requires Distinct(keys)
    ensures Distinct(Without(keys, id)) && |keys| <= |Without(keys, id)| + 1
  {
    if keys != [] {
      var first, rest := keys[0], keys[1..];
      assert Distinct(rest);
      DistinctDropsOne(rest, id);
      var w := Without(rest, id);
      if first.PreKey? && first.id == id {
        forall k | k in rest && k.PreKey? ensures k.id != id {
          DistinctFromFirst(keys, k);
        }
        WithoutShrinks(rest, id);
      } else {
        forall j | 0 <= j < |w| && w[j].PreKey? && first.PreKey? ensures w[j].id != first.id {
          assert w[j] in rest;
          DistinctFromFirst(keys, w[j]);
        }
      }
    }
  }

  /** Consuming succeeds exactly when the bundle offers the prekey, and then it is no longer offered. */
  lemma {:induction false} ConsumeIffOffered(t: KeyText, id: nat)
    ensures Consume(t, id).Some? <==> Offers(t, id)
    ensures Consume(t, id).Some? ==>
      var after := Consume(t, id).value;
      && !Offers(after, id)
      && (forall other :: other != id ==> (Offers(after, other) <==> Offers(t, other)))
      && (Distinct(PreKeys(t)) ==> Distinct(PreKeys(after)) && |PreKeys(t)| == |PreKeys(after)| + 1)
  {
    if t.BundleText? && t.bundle.oneTimePreKeys.Keys? {
      WithoutShrinks(t.bundle.oneTimePreKeys.keys, id);
      if Distinct(t.bundle.oneTimePreKeys.keys) {
        DistinctDropsOne(t.bundle.oneTimePreKeys.keys, id);
      }
    }
  }

  /** Consuming leaves a valid bundle valid, and an invalid one invalid. */
  lemma ConsumeKeepsValidity(t: KeyText, id: nat)
    requires Consume(t, id).Some?
    ensures IsValidText(Consume(t, id).value) <==> IsValidText(t)
  {
  }
}
