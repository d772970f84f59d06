/** The browser page that checks a message against the transaction that recorded its batch. */
module VerificationPage {
  import opened Wrappers
  import opened Merkle
  import opened MessageIntegrity

  /** A log line of a receipt; `event` is absent when it is no batch event. */
  datatype Log = Log(address: string, event: Option<BatchRecorded>)

  datatype Verdict =
    | FieldsRequired
    | TransactionNotFound
    | NoBatchEvent
    | Error
    | Shown(leafFound: bool, rootMatch: bool)

  predicate Passes(v: Verdict) {
    v.Shown? && v.leafFound && v.rootMatch
  }

  /** White space and line terminators, as `trim` removes them. */
  predicate IsSpace(c: char) {
    var n := c as int;
    || 0x09 <= n <= 0x0D || n == 0x20 || n == 0xA0 || n == 0x1680 || 0x2000 <= n <= 0x200A
    || n == 0x2028 || n == 0x2029 || n == 0x202F || n == 0x205F || n == 0x3000 || n == 0xFEFF
  }

  function Trim(s: string): (r: string)
    ensures r == "" || (!IsSpace(r[0]) && !IsSpace(r[|r| - 1]))
    ensures s != "" && !IsSpace(s[0]) && !IsSpace(s[|s| - 1]) ==> r == s
    decreases |s|
  {
    if s == "" then ""
    else if IsSpace(s[0]) then Trim(s[1..])
    else if IsSpace(s[|s| - 1]) then Trim(s[..|s| - 1])
    else s
  }

  function LowerChar(c: char): char {
    if 'A' <= c <= 'Z' then (c as int - 'A' as int + 'a' as int) as char else c
  }

  function Lower(s: string): (r: string)
    ensures |r| == |s| && forall i :: 0 <= i < |s| ==> r[i] == LowerChar(s[i])
  {
    seq(|s|, i requires 0 <= i < |s| => LowerChar(s[i]))
  }

  /** The batch event of the first log line that has one and comes from the contract. */
  function FirstEvent(logs: seq<Log>, contract: string): Option<BatchRecorded> {
    if logs == [] then None
    else if Lower(logs[0].address) == Lower(contract) && logs[0].event.Some? then logs[0].event
    else FirstEvent(logs[1..], contract)
  }

  function Check(h: Keccak, leafOf: string -> Hash, receipts: map<string, seq<Log>>, contract: string,
                 ciphertextField: string, hashField: string): Verdict
  {
    var ciphertext, txHash := Trim(ciphertextField), Trim(hashField);
    if ciphertext == "" || txHash == "" then FieldsRequired
    else if txHash !in receipts then TransactionNotFound
    else
      var event := FirstEvent(receipts[txHash], contract);
      if event.None? then NoBatchEvent
      else if event.value.leaves == [] then Error
      else
        Shown(exists l :: l in event.value.leaves && Lower(l) == Lower(leafOf(ciphertext)),
              Lower(Root(h, event.value.leaves)) == Lower(event.value.root))
  }

  /** The page's click handler; `receipts` are those the network answers with. */
  method Verify(h: Keccak, leafOf: string -> Hash, receipts: map<string, seq<Log>>, contract: string,
                ciphertextField: string, hashField: string) returns (verdict: Verdict)
    ensures verdict == Check(h, leafOf, receipts, contract, ciphertextField, hashField)
  {
    var ciphertext, txHash := Trim(ciphertextField), Trim(hashField);
    if ciphertext == "" || txHash == "" {
      return FieldsRequired;
    }
    if txHash !in receipts {
      return TransactionNotFound;
    }
    var logs, event := receipts[txHash], None;
    var i := 0;
    while i < |logs| && event.None?
      invariant 0 <= i <= |logs|
      invariant event.None? ==> FirstEvent(logs[i..], contract) == FirstEvent(logs, contract)
      invariant event.Some? ==> event == FirstEvent(logs, contract)
    {
      assert logs[i..][1..] == logs[i + 1..];
      if Lower(logs[i].address) == Lower(contract) && logs[i].event.Some? {
        event := logs[i].event;
      }
      i := i + 1;
    }
    if event.None? {
      return NoBatchEvent;
    }
    var leaf := Lower(leafOf(ciphertext));
    var leafFound := false;
    for j := 0 to |event.value.leaves|
      invariant leafFound <==> exists k :: 0 <= k < j && Lower(event.value.leaves[k]) == leaf
    {
      leafFound := leafFound || Lower(event.value.leaves[j]) == leaf;
    }
    var root := BuildMerkleRoot(h, event.value.leaves);
    verdict := if root.None? then Error else Shown(leafFound, Lower(root.value) == Lower(event.value.root));
  }

  /** The hashing library prints digests in lower case. */
  ghost predicate PrintsLowerCase(leafOf: string -> Hash) {
    forall s :: Lower(leafOf(s)) == leafOf(s)
  }

  /** Between these positions is the text without the white space around it. */
  predicate IsSpaceAround(s: string, i: nat, j: nat) {
    && i <= j <= |s|
    && (forall k :: 0 <= k < i ==> IsSpace(s[k])) && (forall k :: j <= k < |s| ==> IsSpace(s[k]))
  }

  lemma SpaceInFront(s: string, i: nat, j: nat)
    requires s != "" && IsSpace(s[0]) && IsSpaceAround(s[1..], i, j)
    ensures IsSpaceAround(s, i + 1, j + 1) && s[1..][i..j] == s[i + 1..j + 1]
  {
    forall k | 0 <= k < i + 1 || j + 1 <= k < |s| ensures IsSpace(s[k]) {
      assert k > 0 ==> s[k] == s[1..][k - 1];
    }
  }

  lemma SpaceBehind(s: string, i: nat, j: nat)
    requires s != "" && IsSpace(s[|s| - 1]) && IsSpaceAround(s[..|s| - 1], i, j)
    ensures IsSpaceAround(s, i, j) && s[..|s| - 1][i..j] == s[i..j]
  {
    forall k | 0 <= k < i || j <= k < |s| ensures IsSpace(s[k]) {
      assert k < |s| - 1 ==> s[k] == s[..|s| - 1][k];
    }
  }

  /** Trimming drops white space at both ends and nothing else. */
  lemma {:induction false} TrimDropsOnlySpace(s: string)
    ensures exists i: nat, j: nat :: IsSpaceAround(s, i, j) && Trim(s) == s[i..j]
    decreases |s|
  {
    if s != "" && IsSpace(s[0]) {
      TrimDropsOnlySpace(s[1..]);
      var i: nat, j: nat :| IsSpaceAround(s[1..], i, j) && Trim(s[1..]) == s[1..][i..j];
      SpaceInFront(s, i, j);
    } else if s != "" && IsSpace(s[|s| - 1]) {
      TrimDropsOnlySpace(s[..|s| - 1]);
      var i: nat, j: nat :| IsSpaceAround(s[..|s| - 1], i, j) && Trim(s[..|s| - 1]) == s[..|s| - 1][i..j];
      SpaceBehind(s, i, j);
    } else {
      assert IsSpaceAround(s, 0, |s|) && s == s[0..|s|];
    }
  }

  predicate IsBatchLine(log: Log, contract: string) {
    Lower(log.address) == Lower(contract) && log.event.Some?
  }

  lemma {:induction false} FirstEventIsFirst(logs: seq<Log>, contract: string)
    ensures FirstEvent(logs, contract).None? ==> forall i :: 0 <= i < |logs| ==> !IsBatchLine(logs[i], contract)
    ensures FirstEvent(logs, contract).Some? ==>
      exists i :: 0 <= i < |logs| && IsBatchLine(logs[i], contract) && FirstEvent(logs, contract) == logs[i].event
                  && forall j :: 0 <= j < i ==> !IsBatchLine(logs[j], contract)
  {
    if logs != [] && !IsBatchLine(logs[0], contract) {
      FirstEventIsFirst(logs[1..], contract);
      if FirstEvent(logs[1..], contract).Some? {
        var i :| 0 <= i < |logs| - 1 && IsBatchLine(logs[1..][i], contract)
          && FirstEvent(logs[1..], contract) == logs[1..][i].event
          && forall j :: 0 <= j < i ==> !IsBatchLine(logs[1..][j], contract);
        assert logs[i + 1] == logs[1..][i];
        forall j | 0 <= j < i + 1 ensures !IsBatchLine(logs[j], contract) {
          assert j > 0 ==> logs[j] == logs[1..][j - 1];
        }
      } else {
        forall j | 0 <= j < |logs| ensures !IsBatchLine(logs[j], contract) {
          assert j > 0 ==> logs[j] == logs[1..][j - 1];
        }
      }
    }
  }

  /**
   What the page shows: the first flag is about the pasted text's leaf and the
   second about the root, both against the first batch event that the contract's
   own address emitted in that transaction; without one there is no verdict.
   */
  lemma {:induction false} ShowsLeafAndRoot(h: Keccak, leafOf: string -> Hash, receipts: map<string, seq<Log>>,
                                            contract: string, text: string, txHash: string)
    requires Trim(text) != "" && Trim(txHash) != "" && Trim(txHash) in receipts
    ensures var verdict, logs := Check(h, leafOf, receipts, contract, text, txHash), receipts[Trim(txHash)];
            && (verdict == NoBatchEvent <==> forall i :: 0 <= i < |logs| ==> !IsBatchLine(logs[i], contract))
            && (verdict.Shown? ==>
                  exists i :: 0 <= i < |logs| && IsBatchLine(logs[i], contract)
                    && (forall j :: 0 <= j < i ==> !IsBatchLine(logs[j], contract))
                    && var event := logs[i].event.value;
                       && event.leaves != []
                       && (verdict.leafFound <==>
                             exists k :: 0 <= k < |event.leaves| && Lower(event.leaves[k]) == Lower(leafOf(Trim(text))))
                       && (verdict.rootMatch <==> Lower(Root(h, event.leaves)) == Lower(event.root)))
  {
    FirstEventIsFirst(receipts[Trim(txHash)], contract);
  }

  /** Addresses and digests compare without case. */
  lemma LowerFolds()
    ensures Lower("0xABCDEF0123456789") == "0xabcdef0123456789"
  {
  }
}
