/**
 The encrypted cache of decrypted messages: one file per user, sealed under a
 key derived from the password and from parameters kept in the file itself.
 Files of version 1 hold the messages in the clear and are converted on opening.
 */
module MessageStore {
  import opened Wrappers

  /** One cached message; an entry without a text field is malformed. */
  datatype Record =
    | Record(messageId: nat, conversationId: nat, senderId: nat, timestamp: nat, plaintext: string)
    | Malformed

  type Messages = map<nat, Record>

  datatype KdfParams = KdfParams(salt: nat, opsLimit: nat, memLimit: nat)

  const OPS_LIMIT: nat := 3
  const MEM_LIMIT: nat := 268435456

  /** Argon2id and HKDF: equal keys come from equal inputs. */
  datatype CacheKey = Derived(password: string, params: KdfParams)

  /** The sealed messages, authenticated together with the username. */
  datatype Box = Sealed(key: CacheKey, nonce: nat, username: string, messages: Messages) | Junk

  /** What is on disk at the store's path. */
  datatype File =
    | Absent
    | NotJson
    | Plain(messages: Option<Messages>)                          // version 1 or no version; None: not an object
    | Envelope(params: Option<KdfParams>, supported: bool, box: Box)  // version 2
    | OtherVersion

  datatype StoreError = NotValidJson | UnsupportedFormat | CannotDecrypt

  /** An opened store: everything but the file. */
  datatype Handle = Handle(username: string, key: CacheKey, params: KdfParams)

  function MessagesOf(m: Option<Messages>): Messages {
    if m.Some? then m.value else map[]
  }

  /** The parameters a file was written with; fresh ones for a file that has none. */
  function ParamsFor(file: File, salt: nat): KdfParams {
    if file.Envelope? && file.params.Some? then file.params.value else KdfParams(salt, OPS_LIMIT, MEM_LIMIT)
  }

  function HandleFor(file: File, username: string, password: string, salt: nat): Handle {
    Handle(username, Derived(password, ParamsFor(file, salt)), ParamsFor(file, salt))
  }

  function Seal(h: Handle, messages: Messages, nonce: nat): File {
    Envelope(Some(h.params), true, Sealed(h.key, nonce, h.username, messages))
  }

  /** Opening converts a readable version 1 file; a file that is not JSON becomes an empty store. */
  function Opened(file: File, h: Handle, nonce: nat): File {
    match file
    case Plain(m) => Seal(h, MessagesOf(m), nonce)
    case NotJson => Seal(h, map[], nonce)
    case _ => file
  }

  function Read(file: File, h: Handle): Result<Messages, StoreError> {
    match file
    case Absent => Ok(map[])
    case NotJson => Err(NotValidJson)
    case Plain(m) => Ok(MessagesOf(m))
    case OtherVersion => Err(UnsupportedFormat)
    case Envelope(params, supported, box) =>
      if params.None? || !supported then Err(UnsupportedFormat)
      else if box.Junk? || box.key != h.key || box.username != h.username then Err(CannotDecrypt)
      else Ok(box.messages)
  }

  function Lookup(messages: Messages, id: nat): Option<string> {
    if id in messages && messages[id].Record? then Some(messages[id].plaintext) else None
  }

  class Disk {
    var file: File

    constructor (file: File)
      ensures this.file == file
    {
      this.file := file;
    }
  }

  /** The store object. Reading and writing go through the whole file every time. */
  class Store {
    const disk: Disk
    const username: string
    const key: CacheKey
    const params: KdfParams

    function View(): Handle {
      Handle(username, key, params)
    }

    constructor EncryptedAtPath(disk: Disk, username: string, password: string, salt: nat, nonce: nat)
      modifies disk
      ensures this.disk == disk
      ensures View() == HandleFor(old(disk.file), username, password, salt)
      ensures disk.file == Opened(old(disk.file), View(), nonce)
    {
      this.disk := disk;
      this.username := username;
      var params := KdfParams(salt, OPS_LIMIT, MEM_LIMIT);
      if disk.file.Envelope? && disk.file.params.Some? {
        params := disk.file.params.value;
      }
      this.params := params;
      this.key := Derived(password, params);
      new;
      if disk.file.NotJson? {
        WriteStore(map[], nonce);
      } else if disk.file.Plain? {
        WriteStore(MessagesOf(disk.file.messages), nonce);
      }
    }

    method WriteStore(messages: Messages, nonce: nat)
      modifies disk
      ensures disk.file == Seal(View(), messages, nonce)
    {
      disk.file := Envelope(Some(params), true, Sealed(key, nonce, username, messages));
    }

    method GetPlaintext(messageId: nat) returns (result: Result<Option<string>, StoreError>)
      ensures var store := Read(disk.file, View());
              && (store.Err? ==> result == Err(store.error))
              && (store.Ok? && messageId in store.value && store.value[messageId].Record? ==>
                    result == Ok(Some(store.value[messageId].plaintext)))
              && (store.Ok? && (messageId !in store.value || store.value[messageId].Malformed?) ==> result == Ok(None))
    {
      var store := Read(disk.file, View());
      if store.Err? {
        return Err(store.error);
      }
      if messageId !in store.value {
        return Ok(None);
      }
      var record := store.value[messageId];
      if record.Malformed? {
        return Ok(None);
      }
      result := Ok(Some(record.plaintext));
    }

    method SavePlaintext(messageId: nat, conversationId: nat, senderId: nat, timestamp: nat, plaintext: string,
                         nonce: nat)
      returns (result: Result<(), StoreError>)
      modifies disk
      ensures var store := Read(old(disk.file), View());
              && (store.Err? ==> result == Err(store.error) && disk.file == old(disk.file))
              && (store.Ok? ==> result == Ok(()))
              && (store.Ok? ==>
                    var record := Record(messageId, conversationId, senderId, timestamp, plaintext);
                    disk.file == Seal(View(), store.value[messageId := record], nonce))
    {
      var store := Read(disk.file, View());
      if store.Err? {
        return Err(store.error);
      }
      var messages := store.value[messageId := Record(messageId, conversationId, senderId, timestamp, plaintext)];
      WriteStore(messages, nonce);
      result := Ok(());
    }

    method DeletePlaintext(messageId: nat, nonce: nat) returns (result: Result<(), StoreError>)
      modifies disk
      ensures var store := Read(old(disk.file), View());
              && (store.Err? ==> result == Err(store.error) && disk.file == old(disk.file))
              && (store.Ok? ==> result == Ok(()) && disk.file == Seal(View(), store.value - {messageId}, nonce))
    {
      var store := Read(disk.file, View());
      if store.Err? {
        return Err(store.error);
      }
      WriteStore(store.value - {messageId}, nonce);
      result := Ok(());
    }
  }

  // ---------------------------------------------------------------------------
  // Against a plain map
  // ---------------------------------------------------------------------------

  datatype Op =
    | Save(messageId: nat, record: Record, nonce: nat)
    | Remove(messageId: nat, nonce: nat)
    | Reopen(salt: nat, nonce: nat)

  /** A file and the store opened on it. */
  datatype Cache = Cache(file: File, handle: Handle)

  function Open(file: File, username: string, password: string, salt: nat, nonce: nat): Cache {
    var h := HandleFor(file, username, password, salt);
    Cache(Opened(file, h, nonce), h)
  }

  function Apply(c: Cache, username: string, password: string, op: Op): Cache {
    match op
    case Reopen(salt, nonce) => Open(c.file, username, password, salt, nonce)
    case Save(id, record, nonce) =>
      (var store := Read(c.file, c.handle);
       if store.Err? then c else c.(file := Seal(c.handle, store.value[id := record], nonce)))
    case Remove(id, nonce) =>
      (var store := Read(c.file, c.handle);
       if store.Err? then c else c.(file := Seal(c.handle, store.value - {id}, nonce)))
  }

  function Run(c: Cache, username: string, password: string, ops: seq<Op>): Cache {
    if ops == [] then c
    else Apply(Run(c, username, password, ops[..|ops| - 1]), username, password, ops[|ops| - 1])
  }

  /** The specification: reopening does nothing. */
  function Model(m: Messages, ops: seq<Op>): Messages {
    if ops == [] then m
    else
      var before := Model(m, ops[..|ops| - 1]);
      match ops[|ops| - 1]
      case Save(id, record, _) => before[id := record]
      case Remove(id, _) => before - {id}
      case Reopen(_, _) => before
  }

  /** What a user with this password finds in a file, before opening it. */
  function Content(file: File, username: string, password: string): Option<Messages> {
    match file
    case Absent => Some(map[])
    case NotJson => Some(map[])
    case Plain(m) => Some(MessagesOf(m))
    case OtherVersion => None
    case Envelope(params, supported, box) =>
      if params.Some? && supported && box.Sealed? && box.key == Derived(password, params.value)
          && box.username == username
      then Some(box.messages) else None
  }

  /** The store's parameters are the file's own, so the next opening derives the same key. */
  predicate InStep(c: Cache, username: string, password: string, m: Messages) {
    && c.handle == Handle(username, Derived(password, c.handle.params), c.handle.params)
    && (c.file.Absent? ==> m == map[])
    && (!c.file.Absent? ==>
        && c.file.Envelope? && c.file.params == Some(c.handle.params)
        && Content(c.file, username, password) == Some(m))
  }

  lemma OpenInStep(file: File, username: string, password: string, salt: nat, nonce: nat)
    requires Content(file, username, password).Some?
    ensures InStep(Open(file, username, password, salt, nonce), username, password,
            Content(file, username, password).value)
  {
  }

  lemma {:induction false} RunInStep(c: Cache, username: string, password: string, m: Messages, ops: seq<Op>)
    requires InStep(c, username, password, m)
    ensures InStep(Run(c, username, password, ops), username, password, Model(m, ops))
  {
    if ops != [] {
      var n := |ops| - 1;
      RunInStep(c, username, password, m, ops[..n]);
      var before := Run(c, username, password, ops[..n]);
      if ops[n].Reopen? {
        OpenInStep(before.file, username, password, ops[n].salt, ops[n].nonce);
      }
    }
  }

  /**
   Opening a file and then saving, deleting and reopening in any order, with
   fresh salts every time, never fails and always reads back what a plain map
   holds, starting from a new, a damaged, a version 1 or the user's own file.
   */
  lemma CacheIsAMap(file: File, username: string, password: string, salt: nat, nonce: nat, ops: seq<Op>, id: nat)
    requires Content(file, username, password).Some?
    ensures var c := Run(Open(file, username, password, salt, nonce), username, password, ops);
            var m := Model(Content(file, username, password).value, ops);
            && Read(c.file, c.handle) == Ok(m)
            && Lookup(Read(c.file, c.handle).value, id) == Lookup(m, id)
  {
    OpenInStep(file, username, password, salt, nonce);
    RunInStep(Open(file, username, password, salt, nonce), username, password,
              Content(file, username, password).value, ops);
  }

  /** The texts a user can read in records: those of the well-formed ones. */
  function TextsOf(m: Messages): map<nat, string> {
    map id | id in m && m[id].Record? :: m[id].plaintext
  }

  /** A plain map of texts under the same operations. */
  function Texts(texts: map<nat, string>, ops: seq<Op>): map<nat, string> {
    if ops == [] then texts
    else
      var before := Texts(texts, ops[..|ops| - 1]);
      match ops[|ops| - 1]
      case Save(id, record, _) => if record.Record? then before[id := record.plaintext] else before - {id}
      case Remove(id, _) => before - {id}
      case Reopen(_, _) => before
  }

  lemma {:induction false} TextsFollow(m: Messages, ops: seq<Op>)
    ensures TextsOf(Model(m, ops)) == Texts(TextsOf(m), ops)
  {
    if ops != [] {
      TextsFollow(m, ops[..|ops| - 1]);
    }
  }

  /**
   What is read for an identifier after any operations is the text of its last
   save that no delete followed, or else what the file held; and nothing if it
   was deleted, never there, or malformed.
   */
  lemma {:induction false} ReadsTheLastSave(file: File, username: string, password: string, salt: nat, nonce: nat,
                                            ops: seq<Op>, id: nat)
    requires Content(file, username, password).Some?
    ensures var c := Run(Open(file, username, password, salt, nonce), username, password, ops);
            var texts := Texts(TextsOf(Content(file, username, password).value), ops);
            && Read(c.file, c.handle).Ok?
            && Lookup(Read(c.file, c.handle).value, id) == if id in texts then Some(texts[id]) else None
  {
    CacheIsAMap(file, username, password, salt, nonce, ops, id);
    TextsFollow(Content(file, username, password).value, ops);
  }

  /** A file that is not this user's own is never changed, by any opening and any operations. */
  lemma {:induction false} ForeignFileIsUntouched(file: File, username: string, password: string, salt: nat, nonce: nat,
                                                  ops: seq<Op>)
    requires Content(file, username, password).None?
    ensures var c := Run(Open(file, username, password, salt, nonce), username, password, ops);
            c.file == file && Read(c.file, c.handle).Err?
  {
    ForeignRun(file, username, password, Open(file, username, password, salt, nonce), ops);
  }

  lemma {:induction false} ForeignRun(file: File, username: string, password: string, c: Cache, ops: seq<Op>)
    requires Content(file, username, password).None? && c.file == file
    requires c.handle == Handle(username, Derived(password, c.handle.params), c.handle.params)
    requires file.Envelope? && file.params.Some? ==> c.handle.params == file.params.value
    ensures var d := Run(c, username, password, ops);
            && d.file == file && Read(d.file, d.handle).Err?
            && d.handle == Handle(username, Derived(password, d.handle.params), d.handle.params)
            && (file.Envelope? && file.params.Some? ==> d.handle.params == file.params.value)
  {
    if ops != [] {
      ForeignRun(file, username, password, c, ops[..|ops| - 1]);
    }
  }

  /** A new file records the salt drawn and the moderate cost parameters. */
  lemma NewFileParameters(username: string, password: string, salt: nat, nonce: nat, id: nat, record: Record)
    ensures var c := Apply(Open(Absent, username, password, salt, nonce), username, password, Save(id, record, nonce));
            c.file.Envelope? && c.file.params == Some(KdfParams(salt, 3, 268435456))
  {
  }

  /** A file that was opened by its user is readable by exactly that user and password. */
  lemma {:induction false} OnlyOwnerReads(file: File, username: string, password: string, salt: nat, nonce: nat,
                                          ops: seq<Op>,
                                          otherUser: string, otherPassword: string, otherSalt: nat, otherNonce: nat)
    requires Content(file, username, password).Some?
    ensures var c := Run(Open(file, username, password, salt, nonce), username, password, ops);
            var other := Open(c.file, otherUser, otherPassword, otherSalt, otherNonce);
            !c.file.Absent? ==>
              (Read(other.file, other.handle).Ok? <==> otherUser == username && otherPassword == password)
  {
    OpenInStep(file, username, password, salt, nonce);
    RunInStep(Open(file, username, password, salt, nonce), username, password,
              Content(file, username, password).value, ops);
  }

  // ---------------------------------------------------------------------------
  // Two stores on one path
  // ---------------------------------------------------------------------------

  /**
   Two stores opened one after the other read each other's writes exactly if
   there was a file to open; without one, only if they drew the same salt.
   */
  lemma SecondStoreReadsIff(file: File, username: string, password: string, s1: nat, n1: nat, s2: nat, n2: nat,
                            id: nat, record: Record, nonce: nat)
    requires Content(file, username, password).Some?
    ensures var a := Open(file, username, password, s1, n1);
            var b := Open(a.file, username, password, s2, n2);
            var written := Apply(Cache(b.file, a.handle), username, password, Save(id, record, nonce)).file;
            && (Read(written, b.handle).Ok? <==> !file.Absent? || s1 == s2)
            && (Read(written, b.handle).Ok? ==> Read(written, b.handle) == Read(written, a.handle))
  {
  }

  /**
   Openings that overlap: both read the parameters before either converts the
   file. The first store can always read. The second reads the first one's
   writes exactly if the file already had parameters, or they drew the same salt.
   */
  lemma OverlappingStoreReadsIff(file: File, username: string, password: string, s1: nat, n1: nat, s2: nat, n2: nat,
                                 id: nat, record: Record, nonce: nat)
    requires Content(file, username, password).Some?
    ensures var a, b := HandleFor(file, username, password, s1), HandleFor(file, username, password, s2);
            var after := Opened(Opened(file, a, n1), b, n2);
            var written := Apply(Cache(after, a), username, password, Save(id, record, nonce)).file;
            && Read(after, a) == Ok(Content(file, username, password).value)
            && (Read(written, b).Ok? <==> file.Envelope? || s1 == s2)
  {
  }

  /** An instance: a version 1 file, opened twice at once, is lost to the second store. */
  lemma OverlappingConversions(username: string, password: string, m: Messages)
    ensures var file := Plain(Some(m));
            var a, b := HandleFor(file, username, password, 1), HandleFor(file, username, password, 2);
            var after := Opened(Opened(file, a, 0), b, 1);
            Read(after, a) == Ok(m) && Read(after, b) == Err(CannotDecrypt)
  {
  }

  /** An operation through the first or the second of two stores. */
  datatype Turn = Turn(first: bool, op: Op)

  datatype TwoStores = TwoStores(file: File, first: Handle, second: Handle)

  function TakeTurn(t: TwoStores, username: string, password: string, turn: Turn): TwoStores {
    var c := Apply(Cache(t.file, if turn.first then t.first else t.second), username, password, turn.op);
    if turn.first then TwoStores(c.file, c.handle, t.second) else TwoStores(c.file, t.first, c.handle)
  }

  function TakeTurns(t: TwoStores, username: string, password: string, turns: seq<Turn>): TwoStores {
    if turns == [] then t
    else TakeTurn(TakeTurns(t, username, password, turns[..|turns| - 1]), username, password, turns[|turns| - 1])
  }

  function Ops(turns: seq<Turn>): (ops: seq<Op>)
    ensures |ops| == |turns| && forall i :: 0 <= i < |ops| ==> ops[i] == turns[i].op
  {
    seq(|turns|, i requires 0 <= i < |turns| => turns[i].op)
  }

  predicate BothInStep(t: TwoStores, username: string, password: string, m: Messages) {
    && !t.file.Absent?
    && InStep(Cache(t.file, t.first), username, password, m)
    && InStep(Cache(t.file, t.second), username, password, m)
  }

  lemma {:induction false} TurnsInStep(t: TwoStores, username: string, password: string, m: Messages, turns: seq<Turn>)
    requires BothInStep(t, username, password, m)
    ensures BothInStep(TakeTurns(t, username, password, turns), username, password, Model(m, Ops(turns)))
  {
    if turns != [] {
      var n := |turns| - 1;
      TurnsInStep(t, username, password, m, turns[..n]);
      assert Ops(turns)[..n] == Ops(turns[..n]);
    }
  }

  /**
   With a file to open, saves, deletes and reopenings through both stores, in any
   order, are those of one plain map.
   */
  lemma {:induction false} TwoStoresAreOneMap(file: File, username: string, password: string,
                                              s1: nat, n1: nat, s2: nat, n2: nat, turns: seq<Turn>)
    requires Content(file, username, password).Some? && !file.Absent?
    ensures var a := Open(file, username, password, s1, n1);
            var b := Open(a.file, username, password, s2, n2);
            var t := TakeTurns(TwoStores(b.file, a.handle, b.handle), username, password, turns);
            var m := Model(Content(file, username, password).value, Ops(turns));
            Read(t.file, t.first) == Ok(m) && Read(t.file, t.second) == Ok(m)
  {
    var a := Open(file, username, password, s1, n1);
    var b := Open(a.file, username, password, s2, n2);
    OpenInStep(file, username, password, s1, n1);
    OpenInStep(a.file, username, password, s2, n2);
    TurnsInStep(TwoStores(b.file, a.handle, b.handle), username, password,
                Content(file, username, password).value, turns);
  }

  /** An instance: two stores opened on a path with no file, where the first then saves message 1. */
  lemma {:induction false} ConcurrentFirstOpenings(username: string, password: string, s1: nat, s2: nat, record: Record)
    ensures var a, b := Open(Absent, username, password, s1, 0), Open(Absent, username, password, s2, 0);
            var written := Apply(a, username, password, Save(1, record, 1)).file;
            Read(written, b.handle).Ok? <==> s1 == s2
  {
  }
}
