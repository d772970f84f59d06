/**
 The Merkle root over a batch of leaf hashes, built the same way by the
 sidecar and by the verification page: pairs are sorted before hashing, and a
 level of odd length repeats its last element.
 */
module Merkle {
  import opened Wrappers

  /** A 32-byte digest as lower-case hexadecimal text, which is what is sorted. */
  type Hash = string

  /** The hash of two digests written one after the other. */
  type Keccak = (Hash, Hash) -> Hash

  /** Text order by characters, as `Array.prototype.sort` compares. */
  predicate Less(a: Hash, b: Hash) {
    if b == "" then false
    else if a == "" then true
    else a[0] < b[0] || (a[0] == b[0] && Less(a[1..], b[1..]))
  }

  /** The hash of a pair sorted first. */
  function SortedPair(h: Keccak): Keccak {
    (a: Hash, b: Hash) => if Less(b, a) then h(b, a) else h(a, b)
  }

  /** The partner of position `i` in its pair: the last element of an odd level stands in for a missing one. */
  function Partner(level: seq<Hash>, i: nat): Hash
    requires 2 * i < |level|
  {
    if 2 * i + 1 < |level| then level[2 * i + 1] else level[2 * i]
  }

  function NextLevel(pair: Keccak, level: seq<Hash>): (next: seq<Hash>)
    ensures |next| == (|level| + 1) / 2
    ensures forall i :: 0 <= i < |next| ==> next[i] == pair(level[2 * i], Partner(level, i))
  {
    seq((|level| + 1) / 2, i requires 0 <= i < (|level| + 1) / 2 => pair(level[2 * i], Partner(level, i)))
  }

  function Fold(pair: Keccak, leaves: seq<Hash>): Hash
    requires leaves != []
    decreases |leaves|
  {
    if |leaves| == 1 then leaves[0] else Fold(pair, NextLevel(pair, leaves))
  }

  function Root(h: Keccak, leaves: seq<Hash>): Hash
    requires leaves != []
  {
    Fold(SortedPair(h), leaves)
  }

  lemma PadOdd(pair: Keccak, level: seq<Hash>)
    requires level != []
    ensures var padded := if |level| % 2 != 0 then level + [level[|level| - 1]] else level;
            var next := NextLevel(pair, level);
            |padded| == 2 * |next| && forall i :: 0 <= i < |next| ==> next[i] == pair(padded[2 * i], padded[2 * i + 1])
  {
  }

  /** The root, or nothing for an empty list. */
  method BuildMerkleRoot(h: Keccak, leaves: seq<Hash>) returns (root: Option<Hash>)
    ensures leaves == [] <==> root.None?
    ensures leaves != [] ==> root == Some(Root(h, leaves))
  {
    ghost var pair := SortedPair(h);
    var level := leaves;
    if |level| == 1 {
      return Some(level[0]);
    }
    while |level| > 1
      invariant leaves == [] <==> level == []
      invariant leaves != [] ==> Fold(pair, level) == Fold(pair, leaves)
      decreases |level|
    {
      ghost var above, k := NextLevel(pair, level), 0;
      assert Fold(pair, level) == Fold(pair, above);
      PadOdd(pair, level);
      if |level| % 2 != 0 {
        level := level + [level[|level| - 1]];
      }
      var next := [];
      var i := 0;
      while i < |level|
        invariant i == 2 * k && k <= |above| && next == above[..k]
      {
        var a, b := level[i], level[i + 1];
        assert above[k] == SortedPair(h)(a, b);
        if Less(b, a) {
          a, b := b, a;
        }
        TakeOneMore(above, k);
        next := next + [h(a, b)];
        i, k := i + 2, k + 1;
      }
      assert next == above;
      level := next;
    }
    root := if level == [] then None else Some(level[0]);
  }

  lemma TakeOneMore(level: seq<Hash>, k: nat)
    requires k < |level|
    ensures level[..k + 1] == level[..k] + [level[k]]
  {
  }

  // ---------------------------------------------------------------------------
  // Order inside a pair
  // ---------------------------------------------------------------------------

  lemma {:induction false} LessTotal(a: Hash, b: Hash)
    ensures !(Less(a, b) && Less(b, a))
    ensures a == b || Less(a, b) || Less(b, a)
  {
    if a != "" && b != "" && a[0] == b[0] {
      LessTotal(a[1..], b[1..]);
      assert a == [a[0]] + a[1..] && b == [b[0]] + b[1..];
    }
  }

  ghost predicate Commutative(pair: Keccak) {
    forall a, b :: pair(a, b) == pair(b, a)
  }

  lemma SortedPairCommutes(h: Keccak)
    ensures Commutative(SortedPair(h))
  {
    forall a, b ensures SortedPair(h)(a, b) == SortedPair(h)(b, a) {
      LessTotal(a, b);
    }
  }

  /** `x` comes before `y` in text order: it is a proper prefix, or smaller where they first differ. */
  predicate ComesFirst(x: Hash, y: Hash) {
    || (|x| < |y| && x == y[..|x|])
    || exists i :: 0 <= i < |x| && i < |y| && x[..i] == y[..i] && x[i] < y[i]
  }

  lemma FirstAfterSame(x: Hash, y: Hash)
    requires x != "" && y != "" && x[0] == y[0]
    ensures ComesFirst(x[1..], y[1..]) ==> ComesFirst(x, y)
  {
    var a, b := x[1..], y[1..];
    if |a| < |b| && a == b[..|a|] {
      assert x == [x[0]] + a && y[..|x|] == [y[0]] + b[..|a|];
    } else if ComesFirst(a, b) {
      var i :| 0 <= i < |a| && i < |b| && a[..i] == b[..i] && a[i] < b[i];
      assert x[..i + 1] == [x[0]] + a[..i] && y[..i + 1] == [y[0]] + b[..i];
      assert x[i + 1] < y[i + 1];
    }
  }

  lemma SameBeforeFirst(x: Hash, y: Hash)
    requires x != "" && y != "" && x[0] == y[0]
    ensures ComesFirst(x, y) ==> ComesFirst(x[1..], y[1..])
  {
    var a, b := x[1..], y[1..];
    if |x| < |y| && x == y[..|x|] {
      assert b[..|a|] == y[..|x|][1..];
    } else if ComesFirst(x, y) {
      var i :| 0 <= i < |x| && i < |y| && x[..i] == y[..i] && x[i] < y[i];
      assert a[..i - 1] == x[..i][1..] && b[..i - 1] == y[..i][1..];
      assert a[i - 1] < b[i - 1];
    }
  }

  lemma {:induction false} LessIff(x: Hash, y: Hash)
    ensures Less(x, y) <==> ComesFirst(x, y)
  {
    if x != "" && y != "" && x[0] == y[0] {
      LessIff(x[1..], y[1..]);
      FirstAfterSame(x, y);
      SameBeforeFirst(x, y);
    } else if x != "" && y != "" && x[0] < y[0] {
      assert x[..0] == y[..0];
    } else if x == "" && y != "" {
      assert x == y[..0];
    }
  }

  /** The smaller digest is hashed first, in whichever order the pair is given. */
  lemma {:induction false} SmallerFirst(h: Keccak, x: Hash, y: Hash)
    requires ComesFirst(x, y)
    ensures Root(h, [x, y]) == h(x, y) && Root(h, [y, x]) == h(x, y)
  {
    LessIff(x, y);
    LessTotal(x, y);
    FoldOfTwo(SortedPair(h), x, y);
    FoldOfTwo(SortedPair(h), y, x);
  }

  lemma FoldOfTwo(pair: Keccak, x: Hash, y: Hash)
    ensures Fold(pair, [x, y]) == pair(x, y)
  {
    assert NextLevel(pair, [x, y]) == [pair(x, y)];
  }

  /** Two hash functions that agree on pairs whose first digest does not come after the second. */
  ghost predicate AgreeInOrder(g: Keccak, h: Keccak) {
    forall x, y :: x == y || ComesFirst(x, y) ==> g(x, y) == h(x, y)
  }

  /** On every level only pairs in order are hashed: what a function does with other pairs changes no root. */
  lemma {:induction false} OnlyOrderedPairsMatter(g: Keccak, h: Keccak, leaves: seq<Hash>)
    requires leaves != [] && AgreeInOrder(g, h)
    ensures Root(g, leaves) == Root(h, leaves)
    decreases |leaves|
  {
    if |leaves| > 1 {
      var a, b := NextLevel(SortedPair(g), leaves), NextLevel(SortedPair(h), leaves);
      forall i | 0 <= i < |a| ensures a[i] == b[i] {
        SortedPairsAgree(g, h, leaves[2 * i], Partner(leaves, i));
      }
      assert a == b;
      OnlyOrderedPairsMatter(g, h, a);
    }
  }

  lemma SortedPairsAgree(g: Keccak, h: Keccak, x: Hash, y: Hash)
    requires AgreeInOrder(g, h)
    ensures SortedPair(g)(x, y) == SortedPair(h)(x, y)
  {
    LessIff(x, y);
    LessIff(y, x);
    LessTotal(x, y);
  }

  // ---------------------------------------------------------------------------
  // Sibling blocks
  // ---------------------------------------------------------------------------

  function Pow2(k: nat): (p: nat)
    ensures p >= 1
  {
    if k == 0 then 1 else 2 * Pow2(k - 1)
  }

  /** Where position `i` finds its element when [start, start + w) and [start + w, start + 2w) are exchanged. */
  function Origin(i: nat, start: nat, w: nat): nat {
    if start <= i < start + w then i + w else if start + w <= i < start + 2 * w then i - w else i
  }

  function SwapBlocks(list: seq<Hash>, start: nat, w: nat): (r: seq<Hash>)
    requires start + 2 * w <= |list|
  {
    seq(|list|, i requires 0 <= i < |list| => list[Origin(i, start, w)])
  }

  lemma SwapPair(pair: Keccak, list: seq<Hash>, i: nat)
    requires Commutative(pair) && 2 * i + 2 <= |list|
    ensures NextLevel(pair, SwapBlocks(list, 2 * i, 1)) == NextLevel(pair, list)
  {
  }

  lemma SwapHalves(pair: Keccak, list: seq<Hash>, start: nat, w: nat)
    requires 2 * start + 4 * w <= |list|
    ensures NextLevel(pair, SwapBlocks(list, 2 * start, 2 * w)) == SwapBlocks(NextLevel(pair, list), start, w)
  {
  }

  lemma {:induction false} SwapKeepsFold(pair: Keccak, leaves: seq<Hash>, k: nat, i: nat, start: nat, w: nat)
    requires Commutative(pair)
    requires w == Pow2(k) && start == 2 * (i * w) && start + 2 * w <= |leaves|
    ensures Fold(pair, SwapBlocks(leaves, start, w)) == Fold(pair, leaves)
    decreases k
  {
    if k == 0 {
      SwapPair(pair, leaves, i);
    } else {
      var v := Pow2(k - 1);
      assert i * w == 2 * (i * v) by {
        assert w == 2 * v;
      }
      SwapHalves(pair, leaves, i * w, v);
      SwapKeepsFold(pair, NextLevel(pair, leaves), k - 1, i, i * w, v);
    }
  }

  /**
   Exchanging two adjacent aligned blocks of 2^k leaves leaves the root alone,
   for lists of every length, as long as both blocks lie wholly inside the list.
   */
  lemma SiblingBlocksCommute(h: Keccak, leaves: seq<Hash>, k: nat, i: nat)
    requires 2 * (i * Pow2(k)) + 2 * Pow2(k) <= |leaves|
    ensures Root(h, SwapBlocks(leaves, 2 * (i * Pow2(k)), Pow2(k))) == Root(h, leaves)
  {
    SortedPairCommutes(h);
    SwapKeepsFold(SortedPair(h), leaves, k, i, 2 * (i * Pow2(k)), Pow2(k));
  }

  // ---------------------------------------------------------------------------
  // What the root binds
  // ---------------------------------------------------------------------------

  /** No two pairs of digests hash alike. */
  ghost predicate CollisionFree(h: Keccak) {
    forall a, b, c, d :: h(a, b) == h(c, d) ==> a == c && b == d
  }

  /** Equal hashes come from the same unordered pair. */
  ghost predicate BindsPairs(pair: Keccak) {
    forall a, b, c, d :: pair(a, b) == pair(c, d) ==> (a == c && b == d) || (a == d && b == c)
  }

  lemma SortedPairBinds(h: Keccak)
    requires CollisionFree(h)
    ensures BindsPairs(SortedPair(h))
  {
  }

  function Levels(n: nat): nat {
    if n <= 1 then 0 else 1 + Levels((n + 1) / 2)
  }

  function Elements(list: seq<Hash>): set<Hash> {
    set x | x in list
  }

  /** All pairs that are hashed in the tree over these leaves. */
  function Hashed(pair: Keccak, leaves: seq<Hash>): set<(Hash, Hash)>
    decreases |leaves|
  {
    if |leaves| <= 1 then {}
    else (set i | 0 <= i < (|leaves| + 1) / 2 :: (leaves[2 * i], Partner(leaves, i)))
         + Hashed(pair, NextLevel(pair, leaves))
  }

  /** A pair hashed in one tree and a pair hashed in the other with equal hashes are the same unordered pair. */
  ghost predicate NoCollisionBetween(pair: Keccak, a: seq<Hash>, b: seq<Hash>) {
    forall p, q :: p in Hashed(pair, a) && q in Hashed(pair, b) && pair(p.0, p.1) == pair(q.0, q.1) ==>
      (p.0 == q.0 && p.1 == q.1) || (p.0 == q.1 && p.1 == q.0)
  }

  lemma HashedAt(pair: Keccak, level: seq<Hash>, i: nat)
    requires |level| > 1 && 2 * i < |level|
    ensures (level[2 * i], Partner(level, i)) in Hashed(pair, level)
  {
  }

  lemma PairPulledBack(pair: Keccak, a: seq<Hash>, b: seq<Hash>, i: nat, j: nat)
    requires |a| > 1 && |b| > 1 && 2 * i < |a| && 2 * j < |b| && NoCollisionBetween(pair, a, b)
    requires pair(a[2 * i], Partner(a, i)) == pair(b[2 * j], Partner(b, j))
    ensures a[2 * i] in b && Partner(a, i) in b
  {
    HashedAt(pair, a, i);
    HashedAt(pair, b, j);
    var p, q := (a[2 * i], Partner(a, i)), (b[2 * j], Partner(b, j));
    assert pair(p.0, p.1) == pair(q.0, q.1);
    assert q.0 in b && q.1 in b;
  }

  lemma PulledBack(pair: Keccak, a: seq<Hash>, b: seq<Hash>)
    requires |a| > 1 && |b| > 1 && NoCollisionBetween(pair, a, b)
    requires Elements(NextLevel(pair, a)) <= Elements(NextLevel(pair, b))
    ensures Elements(a) <= Elements(b)
  {
    var na, nb := NextLevel(pair, a), NextLevel(pair, b);
    forall x | x in a ensures x in b {
      var i :| 0 <= i < |a| && a[i] == x;
      assert na[i / 2] in Elements(na);
      var j :| 0 <= j < |nb| && nb[j] == na[i / 2];
      PairPulledBack(pair, a, b, i / 2, j);
      assert x == a[2 * (i / 2)] || x == Partner(a, i / 2);
    }
  }

  lemma {:induction false} FoldBinds(pair: Keccak, a: seq<Hash>, b: seq<Hash>)
    requires NoCollisionBetween(pair, a, b)
    requires a != [] && b != [] && Levels(|a|) == Levels(|b|)
    requires Fold(pair, a) == Fold(pair, b)
    ensures Elements(a) == Elements(b)
    decreases |a|
  {
    if |a| > 1 {
      assert |b| > 1;
      var na, nb := NextLevel(pair, a), NextLevel(pair, b);
      assert Hashed(pair, na) <= Hashed(pair, a) && Hashed(pair, nb) <= Hashed(pair, b);
      FoldBinds(pair, na, nb);
      assert NoCollisionBetween(pair, b, a);
      PulledBack(pair, a, b);
      PulledBack(pair, b, a);
    } else {
      assert |b| == 1;
      assert a == [a[0]] && b == [a[0]];
    }
  }

  /**
   Two batches whose trees have the same height and the same root have the same
   leaves as a set, in spite of the sorting and of the repeated last elements,
   unless the two trees themselves contain a collision of the pair hash.
   */
  lemma {:induction false} TreesBindLeaves(h: Keccak, a: seq<Hash>, b: seq<Hash>)
    requires NoCollisionBetween(SortedPair(h), a, b)
    requires a != [] && b != [] && Levels(|a|) == Levels(|b|)
    requires Root(h, a) == Root(h, b)
    ensures Elements(a) == Elements(b)
  {
    FoldBinds(SortedPair(h), a, b);
  }

  /** In particular when the hash has no collisions at all. */
  lemma {:induction false} RootBindsLeaves(h: Keccak, a: seq<Hash>, b: seq<Hash>)
    requires CollisionFree(h)
    requires a != [] && b != [] && Levels(|a|) == Levels(|b|)
    requires Root(h, a) == Root(h, b)
    ensures Elements(a) == Elements(b)
  {
    SortedPairBinds(h);
    TreesBindLeaves(h, a, b);
  }

  /** Not more than the set: a batch of odd size has the root of the batch with its last leaf repeated. */
  lemma OddBatchRepeatsItsLast(h: Keccak, leaves: seq<Hash>)
    requires |leaves| > 1 && |leaves| % 2 == 1
    ensures Root(h, leaves + [leaves[|leaves| - 1]]) == Root(h, leaves)
  {
    RepeatedLast(SortedPair(h), leaves);
  }

  lemma RepeatedLast(pair: Keccak, leaves: seq<Hash>)
    requires |leaves| > 1 && |leaves| % 2 == 1
    ensures Fold(pair, leaves + [leaves[|leaves| - 1]]) == Fold(pair, leaves)
  {
    var longer := leaves + [leaves[|leaves| - 1]];
    var a, b := NextLevel(pair, longer), NextLevel(pair, leaves);
    forall i | 0 <= i < |a| ensures a[i] == b[i] {
      assert longer[2 * i] == leaves[2 * i] && Partner(longer, i) == Partner(leaves, i);
    }
    assert a == b;
  }

  /** The height matters: a batch of one inner digest has the root of the two leaves below it. */
  lemma HeightIsNeeded(h: Keccak, x: Hash, y: Hash)
    ensures Root(h, [SortedPair(h)(x, y)]) == Root(h, [x, y])
    ensures ComesFirst(x, y) ==> Root(h, [h(x, y)]) == Root(h, [x, y])
    ensures Levels(1) != Levels(2)
  {
    FoldOfTwo(SortedPair(h), x, y);
    if ComesFirst(x, y) {
      SmallerFirst(h, x, y);
    }
  }
}
