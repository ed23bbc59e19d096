// The hash tree of src/merkleTree/merkleTree.go: an array with the root at 1, the
// children of i at 2i and 2i+1, and leaf i at bottomrow+i.

module Bytes {
  type Byte = x: int | 0 <= x < 256
  type Bytes = seq<Byte>

  // Byte arithmetic wraps around.
  function Wrap(x: int): Byte {
    x % 256
  }

  function Plus(x: Byte, y: Byte): Byte {
    Wrap(x as int + y as int)
  }
}

module MerkleTree {
  import opened Options
  import opened Bytes

  const SIZE := 32
  const ZEROS: Bytes := seq(SIZE, _ => 0)

  type Digest = d: Bytes | |d| == SIZE witness ZEROS

  // The byte-wise sum a parent hashes; every byte wraps around.
  function Sum(a: Digest, b: Digest): Digest {
    seq(SIZE, i requires 0 <= i < SIZE => Plus(a[i], b[i]))
  }

  // 32 bytes, each the sum of x's and y's, less 256 where that does not fit a byte.
  predicate Adds(bytes: Bytes, x: Digest, y: Digest) {
    && |bytes| == 32
    && forall j :: 0 <= j < 32 ==>
         var sum := x[j] as int + y[j] as int;
         bytes[j] as int == sum || bytes[j] as int == sum - 256
  }

  predicate AllZero(bytes: Bytes) {
    |bytes| == 32 && forall j :: 0 <= j < 32 ==> bytes[j] == 0
  }

  // That is what it is, and 32 zero bytes are its unit.
  lemma SumBytes(a: Digest, b: Digest)
    ensures Adds(Sum(a, b), a, b)
    ensures AllZero(b) ==> Sum(a, b) == a == Sum(b, a)
  {
    forall j | 0 <= j < 32
      ensures Sum(a, b)[j] as int == a[j] as int + b[j] as int
              || Sum(a, b)[j] as int == a[j] as int + b[j] as int - 256
    {
      assert Sum(a, b)[j] == Plus(a[j], b[j]);
    }
    if AllZero(b) {
      assert Sum(a, b) == a && Sum(b, a) == a;
    }
  }

  lemma SumCommutes(a: Digest, b: Digest)
    ensures Sum(a, b) == Sum(b, a)
  {
  }

  // Equal sums with one summand in common have the other in common.
  lemma SumCancels(a: Digest, b: Digest, x: Digest)
    requires Sum(a, x) == Sum(b, x)
    ensures a == b
  {
    forall i | 0 <= i < SIZE ensures a[i] == b[i] {
      assert Sum(a, x)[i] == Plus(a[i], x[i]);
      assert Sum(b, x)[i] == Plus(b[i], x[i]);
    }
  }

  function Pow2(e: nat): nat {
    if e == 0 then 1 else 2 * Pow2(e - 1)
  }

  // The least power of two that is at least n, as an exponent.
  function Height(n: nat): (e: nat)
    requires n > 0
    ensures n <= Pow2(e)
    ensures e > 0 ==> Pow2(e - 1) < n
  {
    if n == 1 then 0 else Height((n + 1) / 2) + 1
  }

  function BottomRow(n: nat): nat
    requires n > 0
  {
    Pow2(Height(n))
  }

  // ----- the tree -----

  function Leaf(sha: Bytes -> Digest, shards: seq<Bytes>, i: nat): Digest {
    if i < |shards| then sha(shards[i]) else ZEROS
  }

  // Node i of the tree over rows of b leaves.
  function Node(sha: Bytes -> Digest, shards: seq<Bytes>, b: nat, i: nat): Digest
    requires 0 < i
    decreases 2 * b - i
  {
    if i >= b then Leaf(sha, shards, i - b)
    else sha(Sum(Node(sha, shards, b, 2 * i), Node(sha, shards, b, 2 * i + 1)))
  }

  lemma NodeAt(sha: Bytes -> Digest, shards: seq<Bytes>, b: nat, i: nat)
    requires 0 < i
    ensures i >= b ==> Node(sha, shards, b, i) == Leaf(sha, shards, i - b)
    ensures i < b ==> Node(sha, shards, b, i) == sha(Sum(Node(sha, shards, b, 2 * i), Node(sha, shards, b, 2 * i + 1)))
  {
  }

  // mt holds the tree over the shards.
  ghost predicate IsTree(sha: Bytes -> Digest, shards: seq<Bytes>, mt: seq<Digest>) {
    && shards != [] && |mt| == 2 * BottomRow(|shards|)
    && forall i :: 1 <= i < |mt| ==> mt[i] == Node(sha, shards, BottomRow(|shards|), i)
  }

  method AddBytes(a: Digest, b: Digest) returns (parent: Digest)
    ensures parent == Sum(a, b)
  {
    var bytes := new Byte[SIZE](_ => 0);
    for j := 0 to SIZE
      invariant forall k :: 0 <= k < j ==> bytes[k] == Plus(a[k], b[k])
    {
      bytes[j] := Plus(a[j], b[j]);
    }
    parent := bytes[..];
  }

  // The loop over the shards.
  method FillLeaves(sha: Bytes -> Digest, shards: seq<Bytes>, mt: array<Digest>, bottomrow: nat)
    requires |shards| <= bottomrow && 0 < bottomrow && mt.Length == 2 * bottomrow
    requires forall k :: 0 <= k < mt.Length ==> mt[k] == ZEROS
    modifies mt
    ensures mt[0] == ZEROS
    ensures forall k :: bottomrow <= k < mt.Length ==> mt[k] == Leaf(sha, shards, k - bottomrow)
  {
    for i := 0 to |shards|
      invariant mt[0] == ZEROS
      invariant forall k :: bottomrow <= k < mt.Length ==>
        mt[k] == if k < bottomrow + i then sha(shards[k - bottomrow]) else ZEROS
    {
      mt[bottomrow + i] := sha(shards[i]);
    }
  }

  // The loop over the parents, from the last one up to the root.
  method HashParents(sha: Bytes -> Digest, ghost shards: seq<Bytes>, mt: array<Digest>, bottomrow: nat)
    requires 0 < bottomrow && mt.Length == 2 * bottomrow
    requires forall k :: bottomrow <= k < mt.Length ==> mt[k] == Leaf(sha, shards, k - bottomrow)
    modifies mt
    ensures mt[0] == old(mt[0])
    ensures forall k :: 1 <= k < mt.Length ==> mt[k] == Node(sha, shards, bottomrow, k)
  {
    hide Sum, Leaf, Node;
    var i := bottomrow - 1;
    forall k: nat | bottomrow <= k < mt.Length ensures mt[k] == Node(sha, shards, bottomrow, k) {
      NodeAt(sha, shards, bottomrow, k);
    }
    while i > 0
      invariant 0 <= i < bottomrow && mt[0] == old(mt[0])
      invariant forall k :: i < k < mt.Length ==> mt[k] == Node(sha, shards, bottomrow, k)
    {
      NodeAt(sha, shards, bottomrow, i);
      var parent := AddBytes(mt[i * 2], mt[i * 2 + 1]);
      mt[i] := sha(parent);
      i := i - 1;
    }
  }

  // null: "too few shards"
  method MakeMerkleTree(sha: Bytes -> Digest, shards: seq<Bytes>) returns (mt: array?<Digest>)
    ensures mt == null <==> shards == []
    ensures mt != null ==> IsTree(sha, shards, mt[..]) && AllZero(mt[0])
  {
    var n := |shards|;
    if n < 1 {
      return null;
    }
    var bottomrow := BottomRow(n);
    mt := new Digest[2 * bottomrow](_ => ZEROS);
    FillLeaves(sha, shards, mt, bottomrow);
    HashParents(sha, shards, mt, bottomrow);
  }

  // What the array holds: the shards' hashes, then 32 zero bytes for each missing
  // leaf, and in every parent the hash of its children's bytes added up.
  lemma TreeBytes(sha: Bytes -> Digest, shards: seq<Bytes>, mt: seq<Digest>)
    requires IsTree(sha, shards, mt)
    ensures var b := |mt| / 2;
      && |shards| <= b
      && (forall k :: b <= k < b + |shards| ==> mt[k] == sha(shards[k - b]))
      && (forall k :: b + |shards| <= k < |mt| ==> AllZero(mt[k]))
      && (forall k :: 1 <= k < b ==> HashesSum(sha, mt[k], mt[2 * k], mt[2 * k + 1]))
  {
    hide Sum, Node, Adds, HashesSum;
    var b := BottomRow(|shards|);
    forall k: nat | b <= k < |mt| ensures mt[k] == Leaf(sha, shards, k - b) {
      NodeAt(sha, shards, b, k);
    }
    forall k: nat | 1 <= k < b ensures HashesSum(sha, mt[k], mt[2 * k], mt[2 * k + 1]) {
      NodeAt(sha, shards, b, k);
      SumHashed(sha, mt[2 * k], mt[2 * k + 1]);
    }
  }

  ghost predicate HashesSum(sha: Bytes -> Digest, d: Digest, x: Digest, y: Digest) {
    exists bytes: Bytes :: Adds(bytes, x, y) && d == sha(bytes)
  }

  lemma SumHashed(sha: Bytes -> Digest, x: Digest, y: Digest)
    ensures HashesSum(sha, sha(Sum(x, y)), x, y)
  {
    hide Sum, Adds;
    SumBytes(x, y);
  }

  // ----- branches -----

  // t^1
  function Sibling(t: int): int {
    if t % 2 == 0 then t + 1 else t - 1
  }

  // The siblings on the way from t to the root; None: an access out of range.
  function Branch(mt: seq<Digest>, t: int): Option<seq<Digest>> {
    if t <= 1 then Some([])
    else if Sibling(t) >= |mt| then None
    else
      match Branch(mt, t / 2)
      case None => None
      case Some(rest) => Some([mt[Sibling(t)]] + rest)
  }

  // The lookup panics exactly for a position beyond the array.
  lemma {:induction false} BranchIff(mt: seq<Digest>, t: int)
    requires |mt| > 0 && |mt| % 2 == 0
    ensures Branch(mt, t) == None <==> t >= |mt|
  {
    if t > 1 {
      BranchIff(mt, t / 2);
    }
  }

  method GetMerkleBranch(index: int, mt: array<Digest>) returns (branch: Option<seq<Digest>>)
    ensures branch == Branch(mt[..], index + mt.Length / 2)
  {
    var res := [];
    var t := index + mt.Length / 2;
    ghost var whole := Branch(mt[..], t);
    assert forall rest: seq<Digest> :: res + rest == rest;
    while t > 1
      invariant whole == match Branch(mt[..], t) case None => None case Some(rest) => Some(res + rest)
    {
      if Sibling(t) >= mt.Length {
        return None;
      }
      assert forall rest :: res + ([mt[Sibling(t)]] + rest) == (res + [mt[Sibling(t)]]) + rest;
      res := res + [mt[Sibling(t)]];
      t := t / 2;
    }
    assert res + [] == res;
    return Some(res);
  }

  // ----- checking -----

  // The digest the loop ends with: the index picks the order of the summands.
  function Fold(sha: Bytes -> Digest, tmp: Digest, branch: seq<Digest>, index: int): Digest
    decreases |branch|
  {
    if branch == [] then tmp
    else
      var parent := if index % 2 == 1 then Sum(branch[0], tmp) else Sum(tmp, branch[0]);
      Fold(sha, sha(parent), branch[1..], index / 2)
  }

  predicate Accepts(sha: Bytes -> Digest, val: Bytes, root: Digest, branch: seq<Digest>, index: int) {
    Fold(sha, sha(val), branch, index) == root
  }

  method MerkleTreeVerify(sha: Bytes -> Digest, val: Bytes, root: Digest, branch: seq<Digest>, index: int)
    returns (ok: bool)
    ensures ok <==> Accepts(sha, val, root, branch, index)
  {
    var tmp := sha(val);
    var tIndex := index;
    for k := 0 to |branch|
      invariant Fold(sha, tmp, branch[k..], tIndex) == Fold(sha, sha(val), branch, index)
    {
      assert branch[k..][1..] == branch[k + 1..];
      var parent;
      if tIndex % 2 == 1 {
        parent := AddBytes(branch[k], tmp);
      } else {
        parent := AddBytes(tmp, branch[k]);
      }
      tmp := sha(parent);
      tIndex := tIndex / 2;
    }
    return tmp == root;
  }

  // One level of the check hashes the bytes added up, on whichever side they stand.
  lemma FoldStep(sha: Bytes -> Digest, tmp: Digest, branch: seq<Digest>, index: int) returns (bytes: Bytes)
    requires branch != []
    ensures Adds(bytes, tmp, branch[0])
    ensures Fold(sha, tmp, branch, index) == Fold(sha, sha(bytes), branch[1..], index / 2)
  {
    hide Sum;
    bytes := Sum(tmp, branch[0]);
    SumBytes(tmp, branch[0]);
    SumCommutes(tmp, branch[0]);
  }

  // ----- completeness -----

  // From any node of depth d the branch has d siblings and leads to the root.
  lemma {:induction false} UpToRoot(sha: Bytes -> Digest, shards: seq<Bytes>, mt: seq<Digest>, t: nat, d: nat,
                                    index: int)
    requires IsTree(sha, shards, mt) && Pow2(d) <= t < Pow2(d + 1) && t < |mt|
    ensures Branch(mt, t).Some? && |Branch(mt, t).value| == d
    ensures Fold(sha, mt[t], Branch(mt, t).value, index) == mt[1]
    decreases d
  {
    hide Sum, IsTree;
    if d > 0 {
      TreeShape(sha, shards, mt, t);
      UpToRoot(sha, shards, mt, t / 2, d - 1, index / 2);
      SumCommutes(mt[t], mt[Sibling(t)]);
      var rest := Branch(mt, t / 2).value;
      assert ([mt[Sibling(t)]] + rest)[1..] == rest;
    } else {
      assert t == 1;
    }
  }

  // Below the root: the sibling is in the tree, and the parent hashes the sum.
  lemma TreeShape(sha: Bytes -> Digest, shards: seq<Bytes>, mt: seq<Digest>, t: nat)
    requires IsTree(sha, shards, mt) && 1 < t < |mt|
    ensures Sibling(t) < |mt|
    ensures var s := if t % 2 == 0 then Sum(mt[t], mt[Sibling(t)]) else Sum(mt[Sibling(t)], mt[t]);
      mt[t / 2] == sha(s)
  {
    hide Sum, Node;
    var b := BottomRow(|shards|);
    NodeAt(sha, shards, b, t / 2);
    if t % 2 == 0 {
      assert Sibling(t) == 2 * (t / 2) + 1;
    } else {
      assert Sibling(t) == 2 * (t / 2);
    }
  }

  // Every shard is accepted with the root and its own branch, whose length is
  // log2 of the padded leaf count.
  lemma Completeness(sha: Bytes -> Digest, shards: seq<Bytes>, mt: seq<Digest>, i: nat)
    requires IsTree(sha, shards, mt) && i < |shards|
    ensures var branch := Branch(mt, i + |mt| / 2);
      && branch.Some?
      && Pow2(|branch.value|) == BottomRow(|shards|)
      && Accepts(sha, shards[i], mt[1], branch.value, i)
  {
    hide Sum, Node, Branch, Fold;
    var e := Height(|shards|);
    UpToRoot(sha, shards, mt, i + Pow2(e), e, i);
    NodeAt(sha, shards, Pow2(e), i + Pow2(e));
    assert mt[i + Pow2(e)] == Leaf(sha, shards, i);
  }

  // ----- binding -----

  // The index does not matter: the byte-wise sum commutes.
  lemma {:induction false} IndexIgnored(sha: Bytes -> Digest, tmp: Digest, branch: seq<Digest>, i: int, j: int)
    ensures Fold(sha, tmp, branch, i) == Fold(sha, tmp, branch, j)
    decreases |branch|
  {
    hide Sum;
    if branch != [] {
      SumCommutes(branch[0], tmp);
      IndexIgnored(sha, sha(Sum(tmp, branch[0])), branch[1..], i / 2, j / 2);
    }
  }

  // The byte strings hashed on the way up.
  function Hashed(sha: Bytes -> Digest, tmp: Digest, branch: seq<Digest>): set<Bytes>
    decreases |branch|
  {
    if branch == [] then {}
    else
      var parent := Sum(tmp, branch[0]);
      {parent} + Hashed(sha, sha(parent), branch[1..])
  }

  // The hash has no collision among these inputs. (No hash into 32 bytes is
  // injective on all byte strings.)
  ghost predicate CollisionFree(sha: Bytes -> Digest, inputs: set<Bytes>) {
    forall a, b :: a in inputs && b in inputs && sha(a) == sha(b) ==> a == b
  }

  // Two digests folded to one root along one branch are equal: the sum is
  // cancelled at every level.
  lemma {:induction false} FoldInjective(sha: Bytes -> Digest, a: Digest, b: Digest, branch: seq<Digest>, i: int,
                                         j: int)
    requires CollisionFree(sha, Hashed(sha, a, branch) + Hashed(sha, b, branch))
    requires Fold(sha, a, branch, i) == Fold(sha, b, branch, j)
    ensures a == b
    decreases |branch|
  {
    hide Sum;
    if branch != [] {
      var pa, pb := Sum(a, branch[0]), Sum(b, branch[0]);
      SumCommutes(a, branch[0]);
      SumCommutes(b, branch[0]);
      FoldInjective(sha, sha(pa), sha(pb), branch[1..], i / 2, j / 2);
      assert pa in Hashed(sha, a, branch) && pb in Hashed(sha, b, branch);
      SumCancels(a, b, branch[0]);
    }
  }

  // All inputs hashed when val and shard i are checked along the branch.
  function Inputs(sha: Bytes -> Digest, val: Bytes, shard: Bytes, branch: seq<Digest>): set<Bytes> {
    {val, shard} + Hashed(sha, sha(val), branch) + Hashed(sha, sha(shard), branch)
  }

  // With a tree's own branch for index i, exactly shard i is accepted against the
  // tree's root, at whatever index it is claimed to stand.
  lemma Binding(sha: Bytes -> Digest, shards: seq<Bytes>, mt: seq<Digest>, i: nat, val: Bytes, claimed: int)
    requires IsTree(sha, shards, mt) && i < |shards|
    requires Branch(mt, i + |mt| / 2).Some?
    requires CollisionFree(sha, Inputs(sha, val, shards[i], Branch(mt, i + |mt| / 2).value))
    ensures Accepts(sha, val, mt[1], Branch(mt, i + |mt| / 2).value, claimed) <==> val == shards[i]
  {
    hide Sum, Node, Leaf, Branch, Fold, Hashed;
    var branch := Branch(mt, i + |mt| / 2).value;
    Completeness(sha, shards, mt, i);
    IndexIgnored(sha, sha(shards[i]), branch, i, claimed);
    if Accepts(sha, val, mt[1], branch, claimed) {
      FoldInjective(sha, sha(val), sha(shards[i]), branch, claimed, i);
      assert val in Inputs(sha, val, shards[i], branch);
    }
  }
}
