// The handlers of src/consensus/epoch.go, lottery.go and decision.go that elect
// and commit a producer, as pure state transitions.

module Certificates {
  import opened Quorum

  // A 32-byte hash. The all-zero array is the initial value of every hash field.
  type Hash = int
  const ZERO: Hash := 0

  // An ideal signature: what it signs and who made it. Verification of a
  // signature against a voter's key succeeds only for that voter's own.
  datatype Sig = Sig(signer: int, over: Hash)

  predicate Verify(h: Hash, sig: Sig, voter: int) {
    sig == Sig(voter, h)
  }

  datatype QuorumCert = QuorumCert(round: int, initiator: int, txsHash: Hash, signatures: map<int, Sig>)

  // All signatures of a map verify over one hash.
  predicate AllVerify(h: Hash, sigs: map<int, Sig>) {
    forall voter :: voter in sigs ==> Verify(h, sigs[voter], voter)
  }

  // The loop over a signature map, in no fixed order, that every receiver of a
  // certificate runs.
  method VerifyAll(h: Hash, sigs: map<int, Sig>) returns (ok: bool)
    ensures ok <==> AllVerify(h, sigs)
  {
    var left := sigs.Keys;
    while left != {}
      invariant left <= sigs.Keys
      invariant forall voter :: voter in sigs.Keys - left ==> Verify(h, sigs[voter], voter)
      decreases |left|
    {
      SomeElement(left);
      var voter :| voter in left;
      left := left - {voter};
      if !Verify(h, sigs[voter], voter) {
        return false;
      }
    }
    return true;
  }
}

module EpochNode {
  import opened Certificates

  // What a candidate's broadcast delivered: voters' signatures and a proposal.
  datatype Body = Body(proof: map<int, Sig>, qcs: seq<seq<QuorumCert>>)

  datatype Decision = Decision(producer: int, sender: int, delivered: bool, body: Body)

  // What a node without the producer's proposal broadcasts: Producer and Sender
  // keep their zero values.
  const UNDELIVERED := Decision(0, 0, false, Body(map[], []))

  // Events on the epoch's channel. The code's ABA event carries no instance:
  // instance is history, never read by the handlers.
  datatype Event =
    | CbcOut(candidate: int, body: Body)
    | LotteryOut(times: int, producer: int)
    | AbaOut(decide: int, instance: int)
    | DecisionOut(decided: Decision)

  // The fields of Epoch the handlers below update, and what they broadcast:
  // lottery shares (by lotteryTimes) and decisions.
  datatype Epoch = Epoch(
    cbcOuts: map<int, Body>, currProducer: int, lotteryTimes: int,
    shares: set<int>, decisions: set<Decision>)

  const START := Epoch(map[], 0, 0, {}, {})

  function BroadcastCoinShare(e: Epoch): Epoch {
    e.(shares := e.shares + {e.lotteryTimes})
  }

  function HandleCbcOut(e: Epoch, f: nat, candidate: int, body: Body): Epoch {
    if candidate in e.cbcOuts then e
    else
      var e1 := e.(cbcOuts := e.cbcOuts[candidate := body]);
      if |e1.cbcOuts| != 2 * f + 1 then e1 else BroadcastCoinShare(e1)
  }

  // A delivery points to the proposal its CBC instance holds: a SEND handled
  // later changes it in place.
  function Overwrite(e: Epoch, candidate: int, qcs: seq<seq<QuorumCert>>): Epoch
    requires candidate in e.cbcOuts
  {
    e.(cbcOuts := e.cbcOuts[candidate := Body(e.cbcOuts[candidate].proof, qcs)])
  }

  // The value given to the lottery's binary agreement.
  function AbaInput(e: Epoch, producer: int): int {
    if producer in e.cbcOuts then 1 else 0
  }

  function HandleLotteryOut(e: Epoch, producer: int): Epoch {
    e.(currProducer := producer)
  }

  function DecisionOf(e: Epoch, id: int): Decision {
    if e.currProducer !in e.cbcOuts then UNDELIVERED
    else Decision(e.currProducer, id, true, e.cbcOuts[e.currProducer])
  }

  function HandleAbaOut(e: Epoch, id: int, decide: int): Epoch {
    if decide == 1 then e.(decisions := e.decisions + {DecisionOf(e, id)})
    else BroadcastCoinShare(e.(lotteryTimes := e.lotteryTimes + 1))
  }

  function HandleEvent(e: Epoch, f: nat, id: int, ev: Event): Epoch {
    match ev
    case CbcOut(candidate, body) => HandleCbcOut(e, f, candidate, body)
    case LotteryOut(_, producer) => HandleLotteryOut(e, producer)
    case AbaOut(decide, _) => HandleAbaOut(e, id, decide)
    case DecisionOut(_) => e
  }

  // ----- lottery -----

  // Accepted shares of all lotteries of a node, newest first.
  datatype Shares = NoShares | Got(rest: Shares, times: int, sender: int)

  function ShareSenders(l: Shares, j: int): set<int> {
    match l
    case NoShares => {}
    case Got(rest, j', s) => if j' == j then ShareSenders(rest, j) + {s} else ShareSenders(rest, j)
  }

  // handleLottery of instance j; ok is the verdict of VerifySignature.
  function HandleLottery(l: Shares, j: int, sender: int, ok: bool): Shares {
    if sender in ShareSenders(l, j) || !ok then l else Got(l, j, sender)
  }

  // The share makes lottery j fire.
  predicate Fires(l: Shares, f: nat, j: int, sender: int, ok: bool) {
    sender !in ShareSenders(l, j) && ok && |ShareSenders(l, j) + {sender}| == f + 1
  }

  // ----- decision -----

  // Recorded decisions, newest first: one per producer and sender.
  datatype Record = Blank | Keep(rest: Record, d: Decision)

  function Deciders(r: Record, producer: int): set<int> {
    match r
    case Blank => {}
    case Keep(rest, d) => if d.producer == producer then Deciders(rest, producer) + {d.sender}
      else Deciders(rest, producer)
  }

  function Kept(r: Record): set<Decision> {
    match r
    case Blank => {}
    case Keep(rest, d) => Kept(rest) + {d}
  }

  function HandleDecision(r: Record, d: Decision): Record {
    if d.sender in Deciders(r, d.producer) then r else Keep(r, d)
  }

  // validate: delivered, and every signature of the proof is over the proposal.
  predicate Validated(hash: seq<seq<QuorumCert>> -> Hash, d: Decision) {
    d.delivered && AllVerify(hash(d.body.qcs), d.body.proof)
  }

  // handleDecision loops over the map of producers, in no fixed order: it may
  // emit any valid decision of any producer that has exactly 2f+1.
  predicate Emits(r: Record, f: nat, hash: seq<seq<QuorumCert>> -> Hash, d: Decision) {
    d in Kept(r) && |Deciders(r, d.producer)| == 2 * f + 1 && Validated(hash, d)
  }
}
