// The broadcast objects of src/consensus/pb.go and cbc.go, with the fields they
// update in place. Every method takes exactly the step Certified describes.

module PbInstance {
  import opened Options
  import opened Certificates
  import opened PathStore
  import C = Certified

  datatype PbOutput = PbOutput(txsHash: Hash, txs: Option<Txs>, qc: QuorumCert)

  function PayloadOf(txs: Option<Txs>): Option<C.Payload> {
    match txs case None => None case Some(t) => Some(C.Txs(t))
  }

  class PB {
    const f: nat
    const id: int
    const r: int
    const fromInitiator: int
    // the hash of a list of transactions
    const hash: Txs -> Hash

    var txsHash: Hash
    var txs: Option<Txs>
    var sigSets: map<int, Sig>
    // messages sent and outputs on the epoch's event channel
    var outbox: seq<C.Msg>
    var outputs: seq<PbOutput>

    ghost var outs: seq<C.Output>

    ghost function Me(): C.Cfg {
      C.Cfg(0, f, {}, fromInitiator, C.PB, (p: C.Payload) => match p case Txs(t) => hash(t) case Qcs(_) => ZERO)
    }

    ghost function Node(): C.Node
      reads this
    {
      C.Node(txsHash, PayloadOf(txs), sigSets, (set m | m in outbox), outs)
    }

    // The outputs are the deliveries, as certificates of this round and initiator.
    ghost predicate Valid()
      reads this
    {
      && |outputs| == |outs|
      && forall i :: 0 <= i < |outs| ==>
           && outputs[i].txsHash == outs[i].hash && PayloadOf(outputs[i].txs) == outs[i].payload
           && outputs[i].qc == QuorumCert(r, fromInitiator, outs[i].hash, outs[i].sigs)
    }

    // MakePB
    constructor (f: nat, id: int, r: int, fromInitiator: int, hash: Txs -> Hash)
      ensures Valid() && Node() == C.Node(ZERO, None, map[], {}, [])
      ensures this.f == f && this.id == id && this.r == r && this.fromInitiator == fromInitiator && this.hash == hash
    {
      this.f, this.id, this.r, this.fromInitiator, this.hash := f, id, r, fromInitiator, hash;
      txsHash, txs, sigSets, outbox, outputs, outs := ZERO, None, map[], [], [], [];
    }

    method HandleNewTransaction(transactions: Txs)
      requires Valid()
      modifies this`txsHash, this`outbox
      ensures Valid() && Node() == C.Propose(Me(), old(Node()), id, C.Txs(transactions))
    {
      txsHash := hash(transactions);
      outbox := outbox + [C.Send(id, C.Txs(transactions), txsHash, Sig(id, txsHash))];
    }

    method HandleSend(initiator: int, transactions: Txs, h: Hash, signature: Sig)
      requires Valid()
      modifies this`txsHash, this`txs, this`outbox
      ensures Valid() && Node() == C.HandleSend(Me(), old(Node()), id, initiator, C.Txs(transactions), h, signature,
              true)
    {
      if initiator != fromInitiator || !Verify(h, signature, initiator) {
        return;
      }
      txsHash := h;
      txs := Some(transactions);
      outbox := outbox + [C.Ack(txsHash, Sig(id, h), id)];
    }

    method HandleAck(h: Hash, signature: Sig, voter: int)
      requires Valid()
      modifies this`sigSets, this`outbox
      ensures Valid() && Node() == C.HandleAck(Me(), old(Node()), id, h, signature, voter)
    {
      if h != txsHash {
        return;
      }
      if voter in sigSets {
        return;
      }
      if !Verify(h, signature, voter) {
        return;
      }
      sigSets := sigSets[voter := signature];
      if |sigSets| == 2 * f + 1 {
        outbox := outbox + [C.Done(id, txsHash, sigSets)];
      }
    }

    method HandleDone(initiator: int, h: Hash, signatures: map<int, Sig>)
      requires Valid()
      modifies this`outputs, this`outs
      ensures Valid() && Node() == C.HandleDone(Me(), old(Node()), initiator, h, signatures)
    {
      if initiator != fromInitiator {
        return;
      }
      var ok := VerifyAll(h, signatures);
      if !ok {
        return;
      }
      var qc := QuorumCert(r, fromInitiator, txsHash, signatures);
      outputs := outputs + [PbOutput(txsHash, txs, qc)];
      outs := outs + [C.Output(txsHash, PayloadOf(txs), signatures)];
    }
  }
}

module CbcInstance {
  import opened Options
  import opened Certificates
  import opened PathStore
  import opened Commit
  import C = Certified
  import P = PathInstance

  // External validation of a candidate's certificates, one after the other: those
  // the path does not hold must verify. None: a lookup panics.
  function Acceptable(st: Store, qcs: seq<QuorumCert>): Option<bool> {
    if qcs == [] then Some(true)
    else if !InRange(st, qcs[0]) then None
    else if Held(st, qcs[0]) || AllVerify(qcs[0].txsHash, qcs[0].signatures) then Acceptable(st, qcs[1..])
    else Some(false)
  }

  lemma {:induction false} AcceptableIff(st: Store, qcs: seq<QuorumCert>)
    ensures Acceptable(st, qcs) == Some(true) <==>
      forall qc :: qc in qcs ==> Fine(st, qc)
    ensures Acceptable(st, qcs) == None <==> exists k :: PanicsAt(st, qcs, k)
  {
    if qcs != [] {
      var rest := qcs[1..];
      AcceptableIff(st, rest);
      assert forall qc :: qc in qcs <==> qc == qcs[0] || qc in rest;
      if k :| PanicsAt(st, qcs, k) {
        if k > 0 {
          assert PanicsAt(st, rest, k - 1) by { assert forall i :: 0 <= i < k - 1 ==> rest[i] == qcs[i + 1]; }
        }
      }
      if Fine(st, qcs[0]) {
        if k :| PanicsAt(st, rest, k) {
          assert PanicsAt(st, qcs, k + 1) by { assert forall i :: 0 < i < k + 1 ==> qcs[i] == rest[i - 1]; }
        }
      } else if !InRange(st, qcs[0]) {
        assert PanicsAt(st, qcs, 0);
      }
    }
  }

  // Held, or with signatures that all are their voters' own.
  predicate Fine(st: Store, qc: QuorumCert) {
    InRange(st, qc) && (Held(st, qc) || forall v :: v in qc.signatures ==> qc.signatures[v] == Sig(v, qc.txsHash))
  }

  predicate PanicsAt(st: Store, qcs: seq<QuorumCert>, k: int) {
    0 <= k < |qcs| && (forall i :: 0 <= i < k ==> Fine(st, qcs[i])) && !InRange(st, qcs[k])
  }

  datatype CbcOutput = CbcOutput(candidateId: int, qcsHash: Hash, proof: map<int, Sig>)

  class CBC {
    const f: nat
    const id: int
    const fromCandidate: int
    const hash: Proposal -> Hash
    const selfPath: P.Path

    var qcsHash: Hash
    var qcs: Option<Proposal>
    var sigSets: map<int, Sig>
    var outbox: seq<C.Msg>
    var outputs: seq<CbcOutput>

    ghost var outs: seq<C.Output>

    ghost function Me(): C.Cfg {
      C.Cfg(0, f, {}, fromCandidate, C.CBC, (p: C.Payload) => match p case Qcs(q) => hash(q) case Txs(_) => ZERO)
    }

    ghost function PayloadOf(p: Option<Proposal>): Option<C.Payload> {
      match p case None => None case Some(q) => Some(C.Qcs(q))
    }

    ghost function Node(): C.Node
      reads this
    {
      C.Node(qcsHash, PayloadOf(qcs), sigSets, (set m | m in outbox), outs)
    }

    ghost predicate Valid()
      reads this, selfPath
    {
      && selfPath.Valid()
      && |outputs| == |outs|
      && forall i :: 0 <= i < |outs| ==> outputs[i] == CbcOutput(fromCandidate, outs[i].hash, outs[i].sigs)
    }

    // MakeCBC
    constructor (f: nat, id: int, fromCandidate: int, hash: Proposal -> Hash, path: P.Path)
      requires path.Valid()
      ensures Valid() && Node() == C.Node(ZERO, None, map[], {}, [])
      ensures this.f == f && this.id == id && this.fromCandidate == fromCandidate && this.hash == hash
              && selfPath == path
    {
      this.f, this.id, this.fromCandidate, this.hash, selfPath := f, id, fromCandidate, hash, path;
      qcsHash, qcs, sigSets, outbox, outputs, outs := ZERO, None, map[], [], [], [];
    }

    // AssignQcsHash, and the SEND broadcastPath makes after it
    method Propose(proposal: Proposal)
      requires Valid()
      modifies this`qcsHash, this`qcs, this`outbox
      ensures Valid() && Node() == C.Propose(Me(), old(Node()), id, C.Qcs(proposal))
    {
      qcsHash := hash(proposal);
      qcs := Some(proposal);
      outbox := outbox + [C.Send(id, C.Qcs(proposal), qcsHash, Sig(id, qcsHash))];
    }

    // The two nested loops of the validation.
    method Validate(proposal: Proposal) returns (accept: Option<bool>)
      requires Valid()
      ensures accept == Acceptable(selfPath.Contents(), Flat(proposal))
    {
      var st := selfPath.Contents();
      for i := 0 to |proposal|
        invariant Acceptable(st, Flat(proposal)) == Acceptable(st, Flat(proposal[i..]))
      {
        var row := proposal[i];
        assert Flat(proposal[i..]) == row + Flat(proposal[i + 1..]) by {
          assert proposal[i..][1..] == proposal[i + 1..];
        }
        for j := 0 to |row|
          invariant Acceptable(st, Flat(proposal)) == Acceptable(st, row[j..] + Flat(proposal[i + 1..]))
        {
          var rest := row[j..] + Flat(proposal[i + 1..]);
          assert rest[0] == row[j] && rest[1..] == row[j + 1..] + Flat(proposal[i + 1..]);
          var found := selfPath.Exist(row[j]);
          if found == None {
            return None;
          }
          if found == Some(true) {
            continue;
          }
          var ok := VerifyAll(row[j].txsHash, row[j].signatures);
          if !ok {
            return Some(false);
          }
        }
        assert row[|row|..] + Flat(proposal[i + 1..]) == Flat(proposal[i + 1..]);
      }
      return Some(true);
    }

    // panicked: the validation looked up a round out of range.
    method HandleCBCSend(candidate: int, proposal: Proposal, h: Hash, signature: Sig) returns (panicked: bool)
      requires Valid()
      modifies this`qcsHash, this`qcs, this`outbox
      ensures Valid()
      ensures panicked <==> candidate == fromCandidate && Verify(h, signature, candidate)
                            && Acceptable(selfPath.Contents(), Flat(proposal)) == None
      ensures !panicked ==>
        Node() == C.HandleSend(Me(), old(Node()), id, candidate, C.Qcs(proposal), h, signature,
                               Acceptable(selfPath.Contents(), Flat(proposal)) == Some(true))
    {
      if candidate != fromCandidate || !Verify(h, signature, candidate) {
        return false;
      }
      var accept := Validate(proposal);
      if accept != Some(true) {
        return accept == None;
      }
      if id != candidate {
        qcsHash := h;
        qcs := Some(proposal);
      }
      outbox := outbox + [C.Ack(qcsHash, Sig(id, h), id)];
      return false;
    }

    method HandleCBCAck(h: Hash, signature: Sig, voter: int)
      requires Valid()
      modifies this`sigSets, this`outbox
      ensures Valid() && Node() == C.HandleAck(Me(), old(Node()), id, h, signature, voter)
    {
      if h != qcsHash {
        return;
      }
      if voter in sigSets {
        return;
      }
      if !Verify(h, signature, voter) {
        return;
      }
      sigSets := sigSets[voter := signature];
      if |sigSets| == 2 * f + 1 {
        outbox := outbox + [C.Done(id, qcsHash, sigSets)];
      }
    }

    method HandleCBCDone(candidate: int, h: Hash, proof: map<int, Sig>)
      requires Valid()
      modifies this`outputs, this`outs
      ensures Valid() && Node() == C.HandleDone(Me(), old(Node()), candidate, h, proof)
    {
      if candidate != fromCandidate {
        return;
      }
      var ok := VerifyAll(h, proof);
      if !ok {
        return;
      }
      outputs := outputs + [CbcOutput(fromCandidate, h, proof)];
      outs := outs + [C.Output(h, PayloadOf(qcs), proof)];
    }
  }
}
