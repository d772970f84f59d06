/**
 Fresh secrets stay fresh: over every run of the messenger no two messages are
 sealed under one key, and no ephemeral key is anyone's long-lived key.
 */
module DeliverySecrets {
  import opened Wrappers
  import opened Crypto
  import opened LocalKeyStore
  import opened Database
  import opened Transactions
  import opened Session
  import opened X3dh
  import opened Delivery
  import opened DeliveryInvariant

  /** All secrets of the client are below `bound`. */
  predicate IsBelow(c: Client, bound: nat) {
    forall i :: 0 <= i < |Secrets(c.stored)| ==> Secrets(c.stored)[i] < bound
  }

  /** `x` is no secret of the client. */
  predicate IsForeign(c: Client, x: nat) {
    forall i :: 0 <= i < |Secrets(c.stored)| ==> Secrets(c.stored)[i] != x
  }

  ghost predicate ForeignToAll(clients: map<nat, Client>, x: nat) {
    forall u {:trigger IsForeign(clients[u], x)} :: u in clients ==> IsForeign(clients[u], x)
  }

  ghost predicate AllBelow(clients: map<nat, Client>, bound: nat) {
    forall u {:trigger IsBelow(clients[u], bound)} :: u in clients ==> IsBelow(clients[u], bound)
  }

  predicate ShareNone(a: Client, b: Client) {
    forall i :: 0 <= i < |Secrets(a.stored)| ==> IsForeign(b, Secrets(a.stored)[i])
  }

  ghost predicate NoneShareSecrets(clients: map<nat, Client>) {
    forall u, v {:trigger ShareNone(clients[u], clients[v])} ::
      u in clients && v in clients && u != v ==> ShareNone(clients[u], clients[v])
  }

  /** An ephemeral secret that was drawn, and for no client's keys. */
  ghost predicate IsDrawn(clients: map<nat, Client>, bound: nat, s: Sent) {
    s.ephemeral < bound && ForeignToAll(clients, s.ephemeral)
  }

  ghost predicate DraftsFresh(w: World) {
    && (forall d {:trigger w.drafts[d]} :: d in w.drafts ==> IsDrawn(w.clients, w.nextSecret, w.drafts[d].sent))
    && (forall d, e :: d in w.drafts && e in w.drafts && d != e ==>
          w.drafts[d].sent.ephemeral != w.drafts[e].sent.ephemeral)
    && (forall d, m :: d in w.drafts && m in w.log ==> w.drafts[d].sent.ephemeral != w.log[m].ephemeral)
  }

  ghost predicate LogFresh(w: World) {
    && (forall m {:trigger w.log[m]} :: m in w.log ==> IsDrawn(w.clients, w.nextSecret, w.log[m]))
    && (forall m, n :: m in w.log && n in w.log && m != n ==> w.log[m].ephemeral != w.log[n].ephemeral)
  }

  ghost predicate Fresh(w: World) {
    AllBelow(w.clients, w.nextSecret) && NoneShareSecrets(w.clients) && DraftsFresh(w) && LogFresh(w)
  }

  // ---------------------------------------------------------------------------
  // What every step keeps
  // ---------------------------------------------------------------------------

  /** Nothing is drawn, and no draft or message changes. */
  lemma SecretsStay(w: World, x: World)
    requires Fresh(w) && x.nextSecret == w.nextSecret && x.drafts == w.drafts && x.log == w.log
    requires x.clients.Keys == w.clients.Keys && SameStored(w.clients, x.clients)
    ensures Fresh(x)
  {
    forall u | u in x.clients ensures IsBelow(x.clients[u], w.nextSecret) {
      assert IsBelow(w.clients[u], w.nextSecret);
    }
    forall u, v | u in x.clients && v in x.clients && u != v ensures ShareNone(x.clients[u], x.clients[v]) {
      assert ShareNone(w.clients[u], w.clients[v]);
    }
    DrawnStays(w.clients, x.clients, w.nextSecret, w.nextSecret);
  }

  lemma DrawnStays(clients: map<nat, Client>, after: map<nat, Client>, bound: nat, more: nat)
    requires clients.Keys == after.Keys && SameStored(clients, after) && bound <= more
    ensures forall s {:trigger IsDrawn(clients, bound, s)} :: IsDrawn(clients, bound, s) ==> IsDrawn(after, more, s)
  {
    forall s | IsDrawn(clients, bound, s) ensures IsDrawn(after, more, s) {
      forall u | u in after ensures IsForeign(after[u], s.ephemeral) {
        assert IsForeign(clients[u], s.ephemeral);
      }
    }
  }

  lemma NewSecrets(c: Client, secret: nat, bound: nat, other: Client)
    requires c.stored == NewIdentity(secret) && IsBelow(other, secret) && bound <= secret
    ensures IsBelow(c, secret + SECRETS_PER_USER) && IsBelow(other, secret + SECRETS_PER_USER)
    ensures ShareNone(c, other) && ShareNone(other, c)
  {
    SecretsAreDistinct(secret);
  }

  lemma NewIsForeign(secret: nat, x: nat)
    requires x < secret
    ensures IsForeign(NewClient(secret), x) && IsBelow(NewClient(secret), secret + SECRETS_PER_USER)
  {
    SecretsAreDistinct(secret);
  }

  lemma SignUpDraws(w: World, s: Sent)
    requires IsDrawn(w.clients, w.nextSecret, s)
    ensures IsDrawn(SignUpStep(w).clients, SignUpStep(w).nextSecret, s)
  {
    var x := SignUpStep(w);
    forall u | u in x.clients ensures IsForeign(x.clients[u], s.ephemeral) {
      if u == w.tables.nextUserId {
        NewIsForeign(w.nextSecret, s.ephemeral);
      } else {
        assert IsForeign(w.clients[u], s.ephemeral);
      }
    }
  }

  lemma SignUpClients(w: World)
    requires AllBelow(w.clients, w.nextSecret) && NoneShareSecrets(w.clients)
    ensures var x := SignUpStep(w); AllBelow(x.clients, x.nextSecret) && NoneShareSecrets(x.clients)
  {
    var x, id := SignUpStep(w), w.tables.nextUserId;
    forall u | u in x.clients ensures IsBelow(x.clients[u], x.nextSecret) {
      if u == id {
        SecretsAreDistinct(w.nextSecret);
      } else {
        assert IsBelow(w.clients[u], w.nextSecret);
      }
    }
    forall u, v | u in x.clients && v in x.clients && u != v ensures ShareNone(x.clients[u], x.clients[v]) {
      if u == id {
        assert IsBelow(w.clients[v], w.nextSecret);
        NewSecrets(x.clients[u], w.nextSecret, w.nextSecret, x.clients[v]);
      } else if v == id {
        assert IsBelow(w.clients[u], w.nextSecret);
        NewSecrets(x.clients[v], w.nextSecret, w.nextSecret, x.clients[u]);
      } else {
        assert ShareNone(w.clients[u], w.clients[v]);
      }
    }
  }

  lemma SignUpKeepsFresh(w: World)
    requires Fresh(w)
    ensures Fresh(SignUpStep(w))
  {
    var x := SignUpStep(w);
    SignUpClients(w);
    forall d | d in x.drafts ensures IsDrawn(x.clients, x.nextSecret, x.drafts[d].sent) {
      SignUpDraws(w, w.drafts[d].sent);
    }
    forall m | m in x.log ensures IsDrawn(x.clients, x.nextSecret, x.log[m]) {
      SignUpDraws(w, w.log[m]);
    }
  }

  /** The next secret is drawn for a draft. */
  lemma DraftDraws(w: World, draft: nat, d: Draft)
    requires Fresh(w) && d.sent.ephemeral == w.nextSecret
    ensures Fresh(WithDraft(w, draft, d))
  {
    var x := WithDraft(w, draft, d);
    forall u | u in w.clients ensures IsBelow(w.clients[u], x.nextSecret) && IsForeign(w.clients[u], w.nextSecret) {
      assert IsBelow(w.clients[u], w.nextSecret);
    }
    assert IsDrawn(w.clients, x.nextSecret, d.sent);
    DrawnStays(w.clients, w.clients, w.nextSecret, x.nextSecret);
    forall e | e in x.drafts ensures IsDrawn(x.clients, x.nextSecret, x.drafts[e].sent) {
      assert e != draft ==> IsDrawn(w.clients, w.nextSecret, w.drafts[e].sent);
    }
    forall m | m in x.log ensures IsDrawn(x.clients, x.nextSecret, x.log[m]) {
      assert IsDrawn(w.clients, w.nextSecret, w.log[m]);
    }
  }

  lemma ComposeKeepsFresh(w: World, draft: nat, c: Context, text: string, nonce: nat)
    requires Fresh(w)
    ensures Fresh(ComposeStep(w, draft, c, text, nonce))
  {
    if text != "" && CanCompose(w, draft, c) {
      var fetched := FetchedKey(w, c.senderId, c.recipientId);
      SecretsStay(w, fetched);
      if Composed(w, c, text, nonce).Some? {
        DraftDraws(fetched, draft, Composed(w, c, text, nonce).value);
      }
    }
  }

  /** A draft moves to the log. */
  lemma MoveKeepsFresh(w: World, draft: nat, id: nat, x: World)
    requires Fresh(w) && draft in w.drafts && id !in w.log && x.nextSecret == w.nextSecret && x.clients == w.clients
    requires x.drafts == w.drafts - {draft} && (x.log == w.log || x.log == w.log[id := w.drafts[draft].sent])
    ensures Fresh(x)
  {
    forall m | m in x.log ensures IsDrawn(x.clients, x.nextSecret, x.log[m]) {
      assert m in w.log ==> IsDrawn(w.clients, w.nextSecret, w.log[m]);
      assert IsDrawn(w.clients, w.nextSecret, w.drafts[draft].sent);
    }
    forall d | d in x.drafts ensures IsDrawn(x.clients, x.nextSecret, x.drafts[d].sent) {
      assert IsDrawn(w.clients, w.nextSecret, w.drafts[d].sent);
    }
  }

  lemma SendKeepsFresh(w: World, draft: nat, timestamp: nat, answered: bool)
    requires Fresh(w) && w.tables.nextMessageId !in w.log
    ensures Fresh(SendStep(w, draft, timestamp, answered))
  {
    if draft in w.drafts {
      var x := SendStep(w, draft, timestamp, answered);
      var moved := x.(clients := w.clients);
      MoveKeepsFresh(w, draft, w.tables.nextMessageId, moved);
      SecretsStay(moved, x);
    }
  }

  /** Logins, polls, viewings and other people's transactions draw nothing. */
  lemma QuietStep(w: World, e: Delivery.Event)
    requires !e.SignUp? && !e.Compose? && !e.Send?
    ensures var x := Delivery.Step(w, e);
            && x.nextSecret == w.nextSecret && x.drafts == w.drafts && x.log == w.log
            && x.clients.Keys == w.clients.Keys && SameStored(w.clients, x.clients)
  {
  }

  lemma StepKeepsFresh(w: World, e: Delivery.Event)
    requires Fresh(w) && w.tables.nextMessageId !in w.log
    ensures Fresh(Delivery.Step(w, e))
  {
    if e.SignUp? {
      SignUpKeepsFresh(w);
    } else if e.Compose? {
      ComposeKeepsFresh(w, e.draft, e.context, e.text, e.nonce);
    } else if e.Send? {
      SendKeepsFresh(w, e.draft, e.timestamp, e.answered);
    } else {
      QuietStep(w, e);
      SecretsStay(w, Delivery.Step(w, e));
    }
  }

  lemma {:induction false} EveryWorldIsFresh(events: seq<Delivery.Event>)
    ensures Fresh(Delivery.Run(events))
  {
    if events != [] {
      EveryWorldIsFresh(events[..|events| - 1]);
      EveryWorldIsGood(events[..|events| - 1]);
      StepKeepsFresh(Delivery.Run(events[..|events| - 1]), events[|events| - 1]);
    }
  }

  // ---------------------------------------------------------------------------
  // Payloads
  // ---------------------------------------------------------------------------

  /** The stored message's payload, when it is one that encryption made. */
  predicate IsPlainPayload(p: Payload) {
    p.Payload? && p.senderEphemeralKey.Pub? && p.ciphertext.Sealed? && |p.ciphertext.key.outputs| >= 3
  }

  /** The payload's ephemeral key is no key of this client: identity, signing, signed prekey or one-time prekey. */
  predicate IsNoKeyOf(p: Payload, c: Client) {
    && p.Payload?
    && p.senderEphemeralKey != c.stored.publicKey && p.senderEphemeralKey != c.stored.signingPublicKey
    && p.senderEphemeralKey != c.stored.signedPreKey.publicKey
    && forall k :: k in c.stored.oneTimePreKeys ==> p.senderEphemeralKey != k.publicKey
  }

  lemma SealedFields(clients: map<nat, Client>, s: Sent, p: Payload)
    requires IsSealed(clients, s, p) && IsConsistent(clients[s.context.recipientId].stored)
    ensures IsPlainPayload(p) && p.senderEphemeralKey == Pub(s.ephemeral)
    ensures p.ciphertext.key.outputs[1] == Between(s.ephemeral, clients[s.context.recipientId].stored.privateKey)
  {
    var recipient := clients[s.context.recipientId].stored;
    EncryptedIsX3dh(s.text, clients[s.context.senderId].stored, BundleOf(recipient, FrontList(s.preKey)), s.context,
                    s.ephemeral, s.nonce);
  }

  lemma ForeignIsNoKey(p: Payload, c: Client)
    requires p.Payload? && p.senderEphemeralKey.Pub? && IsForeign(c, p.senderEphemeralKey.secret)
    requires IsConsistent(c.stored)
    ensures IsNoKeyOf(p, c)
  {
    var r := Secrets(c.stored);
    assert r[0] == c.stored.privateKey && r[1] == c.stored.signingSecretKey && r[2] == c.stored.signedPreKey.privateKey;
    forall k | k in c.stored.oneTimePreKeys ensures p.senderEphemeralKey != k.publicKey {
      var i :| 0 <= i < |c.stored.oneTimePreKeys| && c.stored.oneTimePreKeys[i] == k;
      assert r[i + 3] == k.privateKey;
    }
  }

  lemma BetweenBinds(a: nat, b: nat, c: nat, d: nat)
    requires Between(a, b) == Between(c, d)
    ensures (a == c && b == d) || (a == d && b == c)
  {
    assert Dh(a, Pub(b)) == Some(Between(a, b)) && Dh(c, Pub(d)) == Some(Between(c, d));
    DhBinds(a, b, c, d);
  }

  /**
   Over every run: a stored payload's ephemeral key is no client's key of any
   kind, and two different stored messages have different ephemeral keys and are
   sealed under different message keys.
   */
  lemma {:induction false} MessageKeysAreFresh(events: seq<Delivery.Event>, m: nat, n: nat)
    ensures var w := Delivery.Run(events);
            m in w.tables.messages ==>
              var p := w.tables.messages[m].payload;
              && IsPlainPayload(p) && (forall u :: u in w.clients ==> IsNoKeyOf(p, w.clients[u]))
              && (n in w.tables.messages && n != m ==>
                    var q := w.tables.messages[n].payload;
                    IsPlainPayload(q) && p.senderEphemeralKey != q.senderEphemeralKey
                    && p.ciphertext.key != q.ciphertext.key)
  {
    EveryWorldIsGood(events);
    EveryWorldIsFresh(events);
    MessageKeysIn(Delivery.Run(events), m, n);
  }

  lemma PayloadIsForeign(w: World, m: nat)
    requires Good(w) && Fresh(w) && m in w.tables.messages
    ensures var p := w.tables.messages[m].payload;
            IsPlainPayload(p) && forall u :: u in w.clients ==> IsNoKeyOf(p, w.clients[u])
  {
    assert IsLogged(w.clients, w.log, m, w.tables.messages[m]);
    var s, p := w.log[m], w.tables.messages[m].payload;
    assert IsDrawn(w.clients, w.nextSecret, s);
    assert ClientOk(w.clients[s.context.recipientId], w.nextSecret);
    SealedFields(w.clients, s, p);
    forall u | u in w.clients ensures IsNoKeyOf(p, w.clients[u]) {
      assert IsForeign(w.clients[u], s.ephemeral) && ClientOk(w.clients[u], w.nextSecret);
      ForeignIsNoKey(p, w.clients[u]);
    }
  }

  lemma PayloadsDiffer(w: World, m: nat, n: nat)
    requires Good(w) && Fresh(w) && m in w.tables.messages && n in w.tables.messages && m != n
    ensures var p, q := w.tables.messages[m].payload, w.tables.messages[n].payload;
            && IsPlainPayload(p) && IsPlainPayload(q)
            && p.senderEphemeralKey != q.senderEphemeralKey && p.ciphertext.key != q.ciphertext.key
  {
    assert IsLogged(w.clients, w.log, m, w.tables.messages[m]) && IsLogged(w.clients, w.log, n, w.tables.messages[n]);
    var s, t := w.log[m], w.log[n];
    var a, b := w.clients[s.context.recipientId], w.clients[t.context.recipientId];
    assert ClientOk(a, w.nextSecret) && ClientOk(b, w.nextSecret);
    SealedFields(w.clients, s, w.tables.messages[m].payload);
    SealedFields(w.clients, t, w.tables.messages[n].payload);
    assert s.ephemeral != t.ephemeral;
    assert IsDrawn(w.clients, w.nextSecret, s) && IsForeign(b, s.ephemeral);
    assert Secrets(b.stored)[0] == b.stored.privateKey;
    if Between(s.ephemeral, a.stored.privateKey) == Between(t.ephemeral, b.stored.privateKey) {
      BetweenBinds(s.ephemeral, a.stored.privateKey, t.ephemeral, b.stored.privateKey);
    }
  }

  lemma MessageKeysIn(w: World, m: nat, n: nat)
    requires Good(w) && Fresh(w)
    ensures m in w.tables.messages ==>
              var p := w.tables.messages[m].payload;
              && IsPlainPayload(p) && (forall u :: u in w.clients ==> IsNoKeyOf(p, w.clients[u]))
              && (n in w.tables.messages && n != m ==>
                    var q := w.tables.messages[n].payload;
                    IsPlainPayload(q) && p.senderEphemeralKey != q.senderEphemeralKey
                    && p.ciphertext.key != q.ciphertext.key)
  {
    if m in w.tables.messages {
      PayloadIsForeign(w, m);
      if n in w.tables.messages && n != m {
        PayloadsDiffer(w, m, n);
      }
    }
  }

  /** And no two clients share a secret of any kind. */
  lemma {:induction false} NoSharedSecrets(events: seq<Delivery.Event>, u: nat, v: nat, i: nat, j: nat)
    requires var w := Delivery.Run(events);
             && u in w.clients && v in w.clients && u != v
             && i < |Secrets(w.clients[u].stored)| && j < |Secrets(w.clients[v].stored)|
    ensures var w := Delivery.Run(events); Secrets(w.clients[u].stored)[i] != Secrets(w.clients[v].stored)[j]
  {
    EveryWorldIsFresh(events);
    var w := Delivery.Run(events);
    assert ShareNone(w.clients[u], w.clients[v]) && IsForeign(w.clients[v], Secrets(w.clients[u].stored)[i]);
  }
}
