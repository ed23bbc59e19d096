// The epoch object of src/consensus/epoch.go. Its handlers take the steps of
// EpochNode (election) and of Commit (commit), on one set of fields.

module EpochInstance {
  import opened Options
  import opened Certificates
  import opened PathStore
  import opened EpochNode
  import K = Commit
  import C = Certified
  import P = PathInstance
  import B = CbcInstance

  class EpochObject {
    const n: int
    const f: nat
    const id: int
    const path: P.Path
    // its own instance, cbcs[id]
    const cbc: B.CBC

    var lotteryTimes: int
    var currProducer: int
    var broadcastedQcs: bool
    var receiveAll: bool
    var cbcOuts: map<int, Body>
    var producerQcs: Option<Proposal>

    // a nil dereference or an index out of range ended the process
    var crashed: bool
    // broadcast: lottery shares, decisions, paths; inputs given to agreement
    // instances; exits reported
    var shares: seq<int>
    var decisions: seq<Decision>
    var proposed: Option<Proposal>
    var abaInputs: seq<(int, int)>
    var exits: seq<Proposal>

    ghost function Election(): Epoch
      reads this
    {
      Epoch(cbcOuts, currProducer, lotteryTimes, set t | t in shares, set d | d in decisions)
    }

    ghost function Committing(): K.State
      reads this, path, path.qcs
    {
      K.State(path.Contents(), producerQcs, receiveAll, broadcastedQcs, proposed, exits, crashed)
    }

    ghost predicate Valid()
      reads this, path, cbc, cbc.selfPath
    {
      cbc.selfPath == path && cbc.Valid() && path.n == n && path.f == f && cbc.id == id
    }

    // MakeEpoch
    constructor (n: int, f: nat, id: int, maxRound: nat, hash: Proposal -> Hash)
      ensures Valid() && Election() == START && Committing() == K.Start(maxRound) && abaInputs == []
      ensures this.n == n && this.f == f && this.id == id && fresh(path) && fresh(path.qcs) && fresh(cbc)
    {
      var p := new P.Path(n, f, maxRound);
      var c := new B.CBC(f, id, id, hash, p);
      this.n, this.f, this.id, path, cbc := n, f, id, p, c;
      lotteryTimes, currProducer, broadcastedQcs, receiveAll := 0, 0, false, false;
      cbcOuts, producerQcs, crashed := map[], None, false;
      shares, decisions, proposed, abaInputs, exits := [], [], None, [], [];
    }

    // ----- election -----

    method BroadcastCoinShare()
      modifies this`shares
      ensures Election() == EpochNode.BroadcastCoinShare(old(Election()))
    {
      shares := shares + [lotteryTimes];
    }

    method HandleCBCOut(candidate: int, body: Body)
      modifies this`cbcOuts, this`shares
      ensures Election() == HandleCbcOut(old(Election()), f, candidate, body)
    {
      if candidate in cbcOuts {
        return;
      }
      cbcOuts := cbcOuts[candidate := body];
      if |cbcOuts| != 2 * f + 1 {
        return;
      }
      BroadcastCoinShare();
    }

    method HandleLotteryOut(times: int, producer: int)
      modifies this`currProducer, this`abaInputs
      ensures Election() == EpochNode.HandleLotteryOut(old(Election()), producer)
      ensures abaInputs == old(abaInputs) + [(times, AbaInput(old(Election()), producer))]
    {
      currProducer := producer;
      if producer in cbcOuts {
        abaInputs := abaInputs + [(times, 1)];
      } else {
        abaInputs := abaInputs + [(times, 0)];
      }
    }

    method BroadcastDecision()
      modifies this`decisions
      ensures Election() == old(Election()).(decisions := old(Election()).decisions + {DecisionOf(old(Election()), id)})
    {
      var decision := UNDELIVERED;
      if currProducer in cbcOuts {
        decision := Decision(currProducer, id, true, cbcOuts[currProducer]);
      }
      decisions := decisions + [decision];
    }

    method HandleABAOut(decide: int)
      modifies this`decisions, this`lotteryTimes, this`shares
      ensures Election() == HandleAbaOut(old(Election()), id, decide)
    {
      if decide == 1 {
        BroadcastDecision();
      } else {
        lotteryTimes := lotteryTimes + 1;
        BroadcastCoinShare();
      }
    }

    // ----- commit -----

    // The two nested loops; None: a lookup panics.
    method CheckRecvAll() returns (all: Option<bool>)
      requires Valid() && producerQcs.Some?
      ensures all == K.Check(path.Contents(), K.Flat(producerQcs.value))
    {
      var p := producerQcs.value;
      var st := path.Contents();
      for i := 0 to |p|
        invariant K.Check(st, K.Flat(p)) == K.Check(st, K.Flat(p[i..]))
      {
        var row := p[i];
        assert K.Flat(p[i..]) == row + K.Flat(p[i + 1..]) by { assert p[i..][1..] == p[i + 1..]; }
        for j := 0 to |row|
          invariant K.Check(st, K.Flat(p)) == K.Check(st, row[j..] + K.Flat(p[i + 1..]))
        {
          var rest := row[j..] + K.Flat(p[i + 1..]);
          assert rest[0] == row[j] && rest[1..] == row[j + 1..] + K.Flat(p[i + 1..]);
          var found := path.Exist(row[j]);
          if found != Some(true) {
            return found;
          }
        }
        assert row[|row|..] + K.Flat(p[i + 1..]) == K.Flat(p[i + 1..]);
      }
      return Some(true);
    }

    // decideOut, on the size of the path
    method DecideOut()
      requires producerQcs.Some?
      modifies this`exits, this`crashed
      ensures Committing() == K.DecideOut(old(Committing()))
    {
      var size := path.GetBatchSize();
      if size == None {
        crashed := true;
      } else {
        exits := exits + [producerQcs.value];
      }
    }

    method BroadcastPath()
      requires Valid()
      modifies this`broadcastedQcs, this`proposed, cbc
      ensures Valid() && Committing() == K.BroadcastPath(old(Committing()))
      ensures cbc.Node() == C.Propose(cbc.Me(), old(cbc.Node()), id, C.Qcs(path.qcs[..]))
    {
      var qcs := path.GetQC();
      cbc.Propose(qcs[..]);
      proposed := Some(qcs[..]);
      broadcastedQcs := true;
    }

    // handlePBOut: a pending commit may now be complete
    method Recover()
      requires Valid()
      modifies this`exits, this`crashed
      ensures Committing() == K.Recover(old(Committing()))
    {
      hide K.Check, K.Flat;
      if producerQcs.Some? && !receiveAll {
        var all := CheckRecvAll();
        if all == None {
          crashed := true;
        } else if all == Some(true) {
          DecideOut();
        }
      }
    }

    method HandlePBOut(qc: QuorumCert, txs: Option<Txs>)
      requires Valid() && !crashed
      modifies this`broadcastedQcs, this`proposed, this`exits, this`crashed, path, path.qcs, cbc
      ensures Valid()
      ensures var s := K.Handle(old(Committing()), n, f, K.PbOut(qc, txs));
        crashed == s.crashed && (!crashed ==> Committing() == s)
      ensures cbc.Node() == if broadcastedQcs && !old(broadcastedQcs)
                            then C.Propose(cbc.Me(), old(cbc.Node()), id, C.Qcs(path.qcs[..])) else old(cbc.Node())
    {
      hide K.Recover, RecvThreshold, PathStore.Add, PathStore.Exist;
      var found := path.Exist(qc);
      if found == None {
        crashed := true;
        return;
      }
      if found == Some(true) {
        return;
      }
      var ok := path.Add(qc, txs);
      if !ok {
        crashed := true;
        return;
      }
      var enough := path.RecvThreshold();
      if !enough || broadcastedQcs {
        return;
      }
      Recover();
      if !crashed {
        BroadcastPath();
      }
    }

    method HandleDecisionOut(qcs: Proposal)
      requires Valid() && !crashed
      modifies this`producerQcs, this`receiveAll, this`exits, this`crashed
      ensures Valid()
      ensures Committing() == K.Handle(old(Committing()), n, f, K.DecisionOut(qcs))
    {
      producerQcs := Some(qcs);
      var all := CheckRecvAll();
      if all == None {
        crashed := true;
        return;
      }
      if all != Some(true) {
        return;
      }
      receiveAll := true;
      DecideOut();
    }
  }
}
