// The certificate store of src/consensus/path.go.

module PathStore {
  import opened Options
  import opened Certificates

  type Txs = seq<seq<int>>
  type Proposal = seq<seq<QuorumCert>>

  // A delivered transactions pointer may be nil: a broadcast that delivers
  // before the SEND arrived has none.
  datatype Store = Store(qcs: Proposal, deliveredTxs: map<int, map<int, Option<Txs>>>, batchSize: Option<nat>)

  function NoTxs(k: nat): (m: map<int, map<int, Option<Txs>>>)
    ensures forall r :: r in m <==> 0 <= r < k
    ensures forall r :: r in m ==> m[r] == map[]
  {
    if k == 0 then map[] else NoTxs(k - 1)[k - 1 := map[]]
  }

  function Empty(k: nat): Store {
    Store(seq(k, _ => []), NoTxs(k), None)
  }

  // The code indexes by qc.Round: a certificate with another round panics.
  predicate InRange(st: Store, qc: QuorumCert) {
    0 <= qc.round < |st.qcs|
  }

  predicate Held(st: Store, qc: QuorumCert) {
    InRange(st, qc) && qc in st.qcs[qc.round]
  }

  // None: the lookup panics.
  function Exist(st: Store, qc: QuorumCert): Option<bool> {
    if InRange(st, qc) then Some(qc in st.qcs[qc.round]) else None
  }

  function Entry(st: Store, round: int): map<int, Option<Txs>> {
    if round in st.deliveredTxs then st.deliveredTxs[round] else map[]
  }

  // None: the call panics, on a round out of range or on the size of no
  // transactions.
  function Add(st: Store, qc: QuorumCert, txs: Option<Txs>): Option<Store> {
    if !InRange(st, qc) || (st.batchSize.None? && txs.None?) then None
    else
      Some(Store(
        st.qcs[qc.round := st.qcs[qc.round] + [qc]],
        st.deliveredTxs[qc.round := Entry(st, qc.round)[qc.initiator := txs]],
        if st.batchSize.None? then Some(|txs.value|) else st.batchSize))
  }

  // At least n-f certificates in each round.
  predicate RecvThreshold(qcs: Proposal, n: int, f: int) {
    forall r :: 0 <= r < |qcs| ==> |qcs[r]| >= n - f
  }

  function Total(qcs: Proposal): nat {
    if qcs == [] then 0 else Total(qcs[..|qcs| - 1]) + |qcs[|qcs| - 1]|
  }

  // The places of a path: round and position in it.
  ghost function Places(qcs: Proposal): set<(int, int)> {
    set r, i | 0 <= r < |qcs| && 0 <= i < |qcs[r]| :: (r, i)
  }

  lemma RowPlaces(r: int, len: nat)
    ensures |(set i | 0 <= i < len :: (r, i))| == len
  {
    if len > 0 {
      RowPlaces(r, len - 1);
      assert (set i | 0 <= i < len :: (r, i)) == (set i | 0 <= i < len - 1 :: (r, i)) + {(r, len - 1)};
    }
  }

  // The length of a path is the number of its places.
  lemma {:induction false} TotalPlaces(qcs: Proposal)
    ensures Total(qcs) == |Places(qcs)|
  {
    if qcs == [] {
      assert Places(qcs) == {};
    } else {
      var init, k := qcs[..|qcs| - 1], |qcs| - 1;
      TotalPlaces(init);
      RowPlaces(k, |qcs[k]|);
      var row := set i | 0 <= i < |qcs[k]| :: (k, i);
      assert Places(qcs) == Places(init) + row;
      assert Places(init) !! row;
    }
  }
}

module PathInstance {
  import opened Options
  import opened Certificates
  import opened PathStore

  class Path {
    const n: int
    const f: int
    const k: nat

    var batchSize: Option<nat>
    var deliveredTxs: map<int, map<int, Option<Txs>>>
    var qcs: array<seq<QuorumCert>>

    ghost predicate Valid()
      reads this
    {
      qcs.Length == k && forall r :: r in deliveredTxs <==> 0 <= r < k
    }

    ghost function Contents(): Store
      reads this, qcs
    {
      Store(qcs[..], deliveredTxs, batchSize)
    }

    // NewPath
    constructor (n: int, f: int, k: nat)
      ensures Valid() && fresh(qcs) && Contents() == Empty(k)
      ensures this.n == n && this.f == f && this.k == k
    {
      this.n, this.f, this.k := n, f, k;
      batchSize := None;
      qcs := new seq<QuorumCert>[k](_ => []);
      deliveredTxs := map[];
      new;
      for i := 0 to k
        invariant qcs.Length == k && fresh(qcs) && batchSize == None
        invariant deliveredTxs == NoTxs(i)
        invariant forall r :: 0 <= r < i ==> qcs[r] == []
      {
        deliveredTxs := deliveredTxs[i := map[]];
        qcs[i] := [];
      }
      assert qcs[..] == Empty(k).qcs;
    }

    method Len() returns (l: nat)
      requires Valid()
      ensures l == Total(Contents().qcs)
    {
      l := 0;
      for i := 0 to k
        invariant l == Total(qcs[..i])
      {
        assert qcs[..i + 1][..i] == qcs[..i];
        l := l + |qcs[i]|;
      }
      assert qcs[..k] == qcs[..];
    }

    method Exist(qc: QuorumCert) returns (found: Option<bool>)
      requires Valid()
      ensures found == PathStore.Exist(Contents(), qc)
    {
      if !(0 <= qc.round < qcs.Length) {
        return None;
      }
      var row := qcs[qc.round];
      for i := 0 to |row|
        invariant qc !in row[..i]
      {
        if row[i] == qc {
          return Some(true);
        }
      }
      assert row[..|row|] == row;
      return Some(false);
    }

    method Add(qc: QuorumCert, txs: Option<Txs>) returns (ok: bool)
      requires Valid()
      modifies this`deliveredTxs, this`batchSize, qcs
      ensures Valid() && ok == PathStore.Add(old(Contents()), qc, txs).Some?
      ensures ok ==> Contents() == PathStore.Add(old(Contents()), qc, txs).value
    {
      if !(0 <= qc.round < qcs.Length) {
        return false;
      }
      qcs[qc.round] := qcs[qc.round] + [qc];
      if batchSize == None {
        if txs == None {
          return false;
        }
        batchSize := Some(|txs.value|);
      }
      deliveredTxs := deliveredTxs[qc.round := deliveredTxs[qc.round][qc.initiator := txs]];
      return true;
    }

    method RecvThreshold() returns (result: bool)
      requires Valid()
      ensures result <==> PathStore.RecvThreshold(Contents().qcs, n, f)
    {
      result := true;
      for i := 0 to k
        invariant result <==> forall r :: 0 <= r < i ==> |qcs[r]| >= n - f
      {
        if |qcs[i]| < n - f {
          result := false;
        }
      }
    }

    // The live rows, not a copy.
    method GetQC() returns (rows: array<seq<QuorumCert>>)
      ensures rows == qcs
    {
      return qcs;
    }

    // None: the pointer is nil and the call panics.
    method GetBatchSize() returns (size: Option<nat>)
      ensures size == Contents().batchSize
    {
      return batchSize;
    }
  }
}
