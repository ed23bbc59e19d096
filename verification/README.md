# PipelineBFT in Dafny

A model of the consensus core of PipelineBFT with machine-checked proofs of its
safety. The model follows the Go code branch by branch; where the code and its
comments disagree it follows the code.

## What is modelled

**Binary agreement** (`src/consensus/aba.go`). `AbaNode.dfy` gives one peer's
handlers and the phases of its loop as pure transitions, `AbaInstance.dfy` the
object itself: a class with the code's fields (votes as round, value, list of
senders; binary values; coin shares; the unlabelled coin channel), every method
proved to take exactly the transition. `CoinQueue.dfy` is the coin. `AbaSystem.dfy`
puts all peers together: any interleaving of inputs, deliveries and loop wake-ups,
with up to f peers that send anything in their own name, coin shares included.
`AbaLocal.dfy` and `AbaSystem.dfy` prove the invariant for every step and every run;
`AbaTheorems.dfy` and `AbaRuns.dfy` draw validity, justification, convergence of
binary values and the absence of conflicting values from it, whatever the coin
shares, and agreement, the lock after a decision and safe stopping for runs whose
coin shares are paced. `AbaProgress.dfy` shows that what is handled counts and that no
round gets stuck, `AbaChoices.dfy` what exactly the two thresholds choose.
`AbaScenes.dfy` and `AbaDisagreement.dfy` build a run that shows why agreement needs
paced shares.

**The epoch** (`epoch.go`, `lottery.go`, `decision.go`). `EpochNode.dfy` holds the
handlers that elect and decide, `EpochSystem.dfy` one epoch at all peers: lotteries,
one binary agreement system per lottery taking the steps of `AbaSystem`, decisions.
The event an agreement puts on the epoch's channel does not say which instance it
is from; the model keeps that as history only. `EpochInv.dfy` and `EpochSteps.dfy`
prove the invariant, `EpochTheorems.dfy` and `EpochRuns.dfy` the uniqueness of the
winning lottery, its backing, and the one committed producer; `EpochLaws.dfy` says
exactly what a peer holds, broadcasts and relays. `EpochScenes.dfy`,
`EpochSplit.dfy` and `EpochWide.dfy` build two runs that output decisions for two.
`Lottery.dfy`,
`Decision.dfy` and `EpochInstance.dfy` are the objects.

**Certificates and commit** (`pb.go`, `cbc.go`, `path.go`, `epoch.go`).
`Certified.dfy` treats PB and CBC as one certificate-collecting protocol with the
places where the two files differ, `CertifiedRuns.dfy` says what a certificate
means over a run, `CertifiedProgress.dfy` that it comes and is delivered,
`CertifiedScenes.dfy` has two runs that go wrong; `Broadcast.dfy`
holds the two objects, and `Proposals.dfy` links CBC to the epoch's decisions and
outputs. `Path.dfy` is the certificate store, `Commit.dfy` the interplay of deliveries
and decisions up to the exit report, with every panic of an index or nil pointer as an
outcome, `CommitContent.dfy` what the path, its entries and the broadcast path hold.
`Delivery.dfy` fills paths from broadcast instances.

**Two sequential algorithms**: `MerkleTree.dfy` (`merkleTree.go`) and
`ErasureCode.dfy` (`ec.go`), loops proved against recursive definitions.

`Quorum.dfy` has the counting facts.

## Fault model

- n >= 3f+1 peers, at most f of them faulty; Sender, Voter and Initiator fields are
  authentic, so nothing is sent in a correct peer's name by anyone else. (A decision
  message that is not delivered keeps producer 0 and sender 0 and is in nobody's
  name.) A message once sent may be delivered any number of times, in any order, to
  anyone including its sender.
- Signatures are ideal and scoped to one instance. Votes in the certificate proofs
  carry them; for coin and lottery shares a verdict is given. An accepted lottery
  share carries the hash the code builds for its lottery
  (`src/consensus/epoch.go:436-442`).
- Coin shares: the invariants and all theorems not named here allow any share at any
  time, with any hash. Agreement, the lock, stopping, one winner and one committed
  producer are about paced runs (`AbaRuns.IsPaced`, `EpochRuns.IsPaced`): an accepted
  share, also a faulty sender's, does not complete a round before all lower ones are
  complete at that peer, and the one that completes a round carries that round's bit.
  That is one step's exact condition for the unlabelled bits to stay in place
  (`CoinQueue.SyncStepIff`). Ordered runs (`AbaRuns.IsOrdered`, `EpochRuns.IsOrdered`)
  are paced (`AbaRuns.OrderedIsPaced`, `EpochRuns.OrderedIsPaced`): each link delivers
  its sender's accepted shares in round order, none skipped, each over its round's hash
  (`src/consensus/aba.go:617-623`). The receiver checks neither the order nor the hash.
- A theorem about `Inv(c, s)` holds in every state of every run, by the `RunInv` of
  its module.

## Where the code falls short of what it is for

- The coin channel carries bits without rounds, so agreement does not hold against
  arbitrary faulty senders: one that skips a round of coin shares makes two correct
  peers output 0 and 1, though all correct peers' shares come in order
  (`AbaDisagreement.FaultySharesBreakAgreement`; the slip alone in
  `CoinQueue.SkippedRoundSlips`). A share's signature is verified over whatever hash
  the share has, so a share in order over another hash pushes a wrong bit too
  (`CoinQueue.OtherHashSlips`). `AbaTheorems.DecisionLocksIff` says exactly when a
  decision locks the other peers, and `AbaRuns.Agreement` gives agreement for paced
  runs.
- `handleLotteryOut` overwrites `currProducer` whatever the index. A decision names
  the producer of the last lottery output handled, if that is delivered, and 0
  otherwise; `EpochTheorems.BroadcastNamesWinnerIff` says when that is the winner's.
  With lottery outputs out of order, and producer 0 elected, decisions for two
  producers are output (`EpochSplit.OutOfOrderOutputsTwo`). One committed producer
  holds if at every correct peer the last lottery output before an accepting agreement
  output names the accepted producer; and, in any order, for producers other than 0
  when n + |faulty| <= 4f+1, as for n = 3f+1. One peer more is too many: with n = 5 and
  f = 1, decisions for two producers other than 0 are output
  (`EpochWide.WideOutputsTwo`).
- Before an initiator has its payload its hash is all zeros, and an ACK over zeros
  is accepted and counted. Such a vote makes the certificate invalid, so nothing is
  delivered: `CertifiedRuns.CertificateEver`, `CertifiedRuns.BlockedEver`; it does
  happen: `CertifiedScenes.EarlyVoteArises`.
- A DONE handled before the SEND delivers the zero hash in PB, except at the
  initiator: `CertifiedRuns.DeliveryIff` with `CertifiedRuns.SendGivesPayload`,
  `CertifiedScenes.DoneBeforeSendArises`.
- After the path was broadcast, a delivery that completes a pending commit does not
  report exit: `Commit.LateDeliveries`, `Commit.PendingForever`; the exact conditions
  are `Commit.DecisionExitIff` and `Commit.DeliveryExitIff`.
- The byte-wise sum in the hash tree commutes, so the index passed to
  `MerkleTreeVerify` has no effect: `MerkleTree.IndexIgnored`.
- The pad count is cut to a byte: `ErasureCode.RoundTripIff`.
- validate does not look at how many voters a proof has, so a faulty peer's vote alone
  lets a proposal out that nobody delivered: `EpochSplit.FaultyProposalOutput`. The
  proposal is the producer's exactly when some voter is correct
  (`Proposals.HashForcedIff`), as it is with f+1 voters (`Proposals.BackedOutput`).

## Model

| member | source | states |
|---|---|---|
| AbaRuns.Agreement | src/consensus/aba.go:355-381 | in paced runs any two outputs of correct peers of one instance, at any points and from any rounds, are equal |
| AbaRuns.AgreementOrdered | src/consensus/aba.go:355-381 | the same in ordered runs: every sender's coin shares come in round order, none skipped, each over its round's hash |
| AbaDisagreement.FaultySharesBreakAgreement | src/consensus/aba.go:523-555 | n = 4, f = 1: a run with all correct peers' coin shares in order in which two correct peers output 0 and 1 |
| AbaRuns.OrderedIsPaced | src/consensus/aba.go:523-555 | runs in which every sender's shares come in round order, none skipped, each over its round's hash, are paced |
| AbaRuns.TakenIsCoin | src/consensus/aba.go:306-333 | in runs with every share in round order and over its round's hash, the bit every correct peer takes in round r is round r's coin, for every r |
| AbaRuns.OnlyInputs | src/consensus/aba.go:201-241 | validity, whatever the coin shares: if every correct input is v, only v is ever output |
| AbaRuns.Lock | src/consensus/aba.go:338-381 | in paced runs: if a correct peer ever decides v in round r, every correct peer has in every later round, at any point of the run, estimate v, no other binary value, and no other value from confThreshold |
| AbaRuns.LockOrdered | src/consensus/aba.go:338-381 | the same in runs with every share in round order and over its round's hash |
| AbaTheorems.DecisionLocksIff | src/consensus/aba.go:355-381 | whatever the coin shares: a decision on v in round r leaves all correct peers that go on with v exactly when those that ended the round with Both took bit v |
| AbaRuns.Stopping | src/consensus/aba.go:338-339 | in paced runs: if a peer ever stops in a round, every correct peer that has completed it, before or after, has decided, on the same value, and output it once |
| AbaRuns.StoppingOrdered | src/consensus/aba.go:338-339 | the same in runs with every share in round order and over its round's hash |
| AbaRuns.StopsIff | src/consensus/aba.go:355-381 | a correct peer has stopped exactly when its output was, in two rounds, both its value and the bit it took |
| AbaRuns.NoConflict | src/consensus/aba.go:413-446 | whatever the coin shares: in one round confThreshold never returns 0 at one correct peer and 1 at another, whenever each gets there |
| AbaTheorems.NoConflictingConf | src/consensus/aba.go:384-410 | in one round no two correct peers send CONF 0 and CONF 1 |
| AbaRuns.Justification | src/consensus/aba.go:451-484 | whatever the coin shares: every binary value is 0 or 1, listed once, and was a correct peer's estimate in that round |
| AbaRuns.Convergence | src/consensus/aba.go:451-484 | whatever the coin shares: once all EST messages of correct peers for a round are handled, all correct peers have the same binary values for it, also those without an input |
| AbaProgress.RoundMoves | src/consensus/aba.go:243-333 | no round gets stuck: where all correct peers are in one round and have handled each other's messages of it, whoever waits earliest in the round moves on when woken up, whatever faulty peers sent; the wait for the coin in ordered runs |
| AbaProgress.BinaryMoves | src/consensus/aba.go:245-271 | there, a peer waiting for binary values has one and sends AUX, by the relay at f+1 |
| AbaProgress.AuxMoves | src/consensus/aba.go:384-410 | there, once all correct peers sent AUX, auxThreshold holds at each that waits for it |
| AbaProgress.ConfMoves | src/consensus/aba.go:413-446 | there, once all correct peers sent CONF, confThreshold holds at each that waits for it |
| AbaProgress.HandledCounts | src/consensus/aba.go:451-555 | a message a correct peer handles, of any round and value, counts for its sender from then on (a share unless its round has its bit) |
| AbaProgress.DeliveredHandled | src/consensus/aba.go:163-198 | so if every message of a round that correct peers sent was delivered to all of them, the round is handled as RoundMoves asks |
| AbaChoices.AuxChoiceIff | src/consensus/aba.go:384-410 | on every board: the CONF value is a bit exactly when some binary bit has a quorum of AUX votes, and 1 before 0; Both needs that none has, and a quorum in all |
| AbaChoices.AuxWake | src/consensus/aba.go:273-286 | in every run: a correct peer waiting for AUX sends CONF for a bit with n-f votes if there is one, CONF Both if the votes for binary bits together are n-f, else nothing, and no second CONF of the round |
| AbaChoices.ConfChoiceIff | src/consensus/aba.go:413-446 | on every board: the value is a bit exactly when some binary bit has a quorum of CONF votes; Both needs that none has, two binary values, and a quorum of votes for 0, 1 and Both |
| AbaChoices.ConfWake | src/consensus/aba.go:288-304 | in every run: a correct peer waiting for CONF takes that value and sends its coin share, or stays as it is |
| AbaChoices.BinaryWake | src/consensus/aba.go:245-271 | in every run: the AUX message is for the binary value that came last, since at an earlier point the peer had exactly the others |
| AbaTheorems.OutputDecided | src/consensus/aba.go:359-369 | an output is a single value equal to the coin of some round, and the only output of its peer |
| AbaSystem.RunInv | src/consensus/aba.go:147-352 | the invariant behind these holds in every state of every run, with up to f peers that send anything, coin shares included |
| AbaSystem.RunGrows | src/consensus/aba.go:147-352 | messages sent, per-round history and outputs of a correct peer are never lost |
| AbaLocal.WakeInv | src/consensus/aba.go:243-351 | every phase of the agreement loop keeps one peer's invariant, without any assumption on the others |
| AbaLocal.HandleMsgInv | src/consensus/aba.go:164-198 | so does every handler of the receive loop, on any message |
| AbaInstance.Aba.HandleEST | src/consensus/aba.go:451-484 | on the code's fields: duplicates ignored, relay once at f+1, binary value at 2f+1 |
| AbaInstance.Aba.HandleAUX | src/consensus/aba.go:486-502 | on the code's fields: an AUX vote is counted once |
| AbaInstance.Aba.HandleCONF | src/consensus/aba.go:504-521 | on the code's fields: a CONF vote is counted once |
| AbaInstance.Aba.HandleCOIN | src/consensus/aba.go:523-555 | on the code's fields: shares kept up to the cap, the f+1st pushes the bit |
| AbaInstance.Aba.TakeInput | src/consensus/aba.go:214-241 | the input starts round 0 and its EST is broadcast unless it was |
| AbaInstance.Aba.WakeBinary | src/consensus/aba.go:245-271 | AUX is sent for the last binary value |
| AbaInstance.Aba.AuxThreshold | src/consensus/aba.go:384-410 | sends CONF 1, 0 or Both by the code's counts, or nothing |
| AbaInstance.Aba.WakeAux | src/consensus/aba.go:273-286 | the loop goes on when auxThreshold holds |
| AbaInstance.Aba.ConfThreshold | src/consensus/aba.go:413-446 | returns 1, 0 or Both by the code's counts and sends the coin share, or nothing |
| AbaInstance.Aba.WakeConf | src/consensus/aba.go:288-304 | the loop keeps the value confThreshold returned |
| AbaInstance.Aba.SetNewEst | src/consensus/aba.go:355-381 | decides on the first hit, stops on the second, sets the estimate |
| AbaInstance.Aba.WakeCoin | src/consensus/aba.go:306-351 | one bit is taken; stop, or enter the next round and broadcast its EST |
| AbaInstance.InSlice | src/consensus/aba.go:137-144 | linear search finds an element exactly when it is there |
| CoinQueue.OrderedRunInSync | src/consensus/aba.go:523-555 | for any mix of takes and arrivals in order, each over its round's hash: each complete round has emitted one bit, in round order, and the bit taken in round r is round r's coin |
| CoinQueue.SyncStepIff | src/consensus/aba.go:538-554 | one accepted arrival, over any hash, keeps positions and rounds matched exactly when it completes no round, or the next one due with that round's bit |
| CoinQueue.SkippedRoundSlips | src/consensus/aba.go:549-552 | three shares, one sender skipping round 0: the bit taken in round 0 is round 1's |
| CoinQueue.OtherHashSlips | src/consensus/aba.go:529-552 | two shares of round 0 in order, one over another hash: the bit taken is not the round's |
| EpochTheorems.OneWinner | src/consensus/epoch.go:462-485 | with common coins in each instance, at most one lottery index has agreement output 1 at any correct peers |
| EpochRuns.OneWinnerEver | src/consensus/epoch.go:462-485 | in paced runs, at most one lottery index has agreement output 1 at any correct peers, between any two points |
| EpochRuns.OneWinnerOrdered | src/consensus/epoch.go:462-485 | the same in runs with every coin share in round order and over its round's hash |
| EpochRuns.FiringRejects | src/consensus/lottery.go:120-130 | whatever the coin shares: if lottery m fires at a correct peer, every earlier instance output 0 at some correct peer |
| EpochTheorems.NoneFiresAfterWinner | src/consensus/epoch.go:475-485 | with common coins, no lottery after a winning one fires at a correct peer |
| EpochRuns.FiringBacked | src/consensus/epoch.go:418-431 | no lottery fires before some correct peer has 2f+1 delivered candidates |
| EpochTheorems.WinnerBacked | src/consensus/epoch.go:462-473 | if an instance outputs 1, a correct peer gave input 1 to it and holds the elected producer's proposal |
| EpochRuns.WinnerBackedEver | src/consensus/epoch.go:418-473 | it held the proposal when it gave that input, and at every later point of the run |
| EpochRuns.InputIff | src/consensus/epoch.go:462-473 | the input of an instance is 1 exactly if the peer holds the elected producer's proposal when it gives it, and 0 otherwise |
| EpochRuns.HeldNotRejected | src/consensus/epoch.go:462-473 | an instance whose producer every correct peer holds when it gives its input outputs 0 at no correct peer, whatever the coin shares |
| EpochTheorems.OutputHasCorrectDecision | src/consensus/decision.go:98-132 | the decisions behind an output include a delivered one of a correct peer for its producer, although undelivered ones count under producer 0, sender 0 |
| EpochTheorems.CommitNamesWinner | src/consensus/epoch.go:475-508 | every decision output names a winning lottery's producer, if at every correct peer the last lottery output before an accepting agreement output names the accepted producer |
| EpochTheorems.OneCommittedProducer | src/consensus/epoch.go:462-508 | hence, with common coins, all decision outputs at all correct peers name one producer |
| EpochRuns.OneCommittedProducerEver | src/consensus/epoch.go:462-508 | the same in paced runs, between any two points |
| EpochRuns.OneCommittedProducerInOrder | src/consensus/epoch.go:462-508 | in particular if every correct peer's lottery outputs come in index order |
| EpochTheorems.OneDecision | src/consensus/epoch.go:475-508 | in whatever order lottery outputs come, a correct peer names one producer in its delivered decisions |
| EpochTheorems.OneProducerByQuorum | src/consensus/decision.go:98-132 | in any order, with n + faulty <= 4f+1 (as for n = 3f+1): all decision outputs that do not name producer 0 name one producer |
| EpochRuns.OneProducerByQuorumEver | src/consensus/decision.go:98-132 | the same in paced runs, between any two points |
| EpochWide.WideOutputsTwo | src/consensus/decision.go:98-132 | that bound is needed: with n + faulty = 4f+2 (n = 5, f = 1) and all coin shares in order, a run in which peer 0 outputs decisions for two producers other than 0 |
| EpochSplit.OutOfOrderOutputsTwo | src/consensus/epoch.go:462-508 | n = 4, f = 1, all coin shares in order: a run in which lottery outputs out of order and an undelivered decision make peer 0 output decisions for producers 1 and 0 |
| EpochTheorems.BroadcastNamesWinnerIff | src/consensus/epoch.go:475-508 | the decision a peer broadcasts on output 1 carries a proposal exactly when the last elected producer is delivered, and names the winner's producer exactly when that lottery elects it too or, with nothing delivered, the winner's producer is 0 |
| EpochSteps.RunInv | src/consensus/epoch.go:339-352 | the epoch invariant, over all instances at once, holds in every state of every run, whatever the coin shares |
| EpochLaws.RunLaws | src/consensus/epoch.go:418-485 | at every correct peer, always: candidates held are exactly those handled, with the first delivery's proof; the share for each lottery up to the count of rejections is out, the first from 2f+1 candidates on; a sender's first decision for a producer counts; decision outputs are as many as the times a producer had exactly 2f+1 decisions with a valid one; a lottery with f+1 shares gives one output |
| EpochLaws.DecisionHeld | src/consensus/epoch.go:487-508 | every delivered decision a correct peer broadcasts carries exactly the proof and proposal it held for the decision's producer, the last one elected, when it handled the accepting output |
| EpochLaws.HeldStep | src/consensus/epoch.go:418-425 | what is held for a candidate changes in no step, except that a later SEND overwrites its proposal |
| EpochLaws.HandledRecorded | src/consensus/decision.go:98-110 | a handled decision counts for its producer from then on, and a verified lottery share for its lottery |
| EpochLaws.ElectedIsHead | src/consensus/lottery.go:120-130 | a lottery output names a peer, which is the first byte of the lottery's hash modulo n |
| EpochLaws.OutputRelayed | src/consensus/aba.go:359-369 | every output of an agreement instance is on its peer's event channel |
| EpochInstance.EpochObject.HandleCBCOut | src/consensus/epoch.go:418-431 | a candidate is delivered once, the share goes out at 2f+1 |
| EpochInstance.EpochObject.HandleLotteryOut | src/consensus/epoch.go:462-473 | the producer is recorded and the input is whether its proposal is delivered |
| EpochInstance.EpochObject.HandleABAOut | src/consensus/epoch.go:475-485 | decision on 1, next lottery otherwise |
| EpochInstance.EpochObject.BroadcastDecision | src/consensus/epoch.go:487-508 | the current producer's proposal, or the zero decision |
| EpochInstance.EpochObject.HandlePBOut | src/consensus/epoch.go:354-375 | duplicates absorbed, early return, recovery of a pending commit, one path broadcast through the own CBC instance |
| EpochInstance.EpochObject.HandleDecisionOut | src/consensus/epoch.go:510-522 | exit is reported at once or the proposal stays pending |
| EpochInstance.EpochObject.CheckRecvAll | src/consensus/epoch.go:524-533 | the nested loops look the certificates up in order, up to a miss or a panic |
| LotteryInstance.FiresOnce | src/consensus/lottery.go:98-132 | for every order and repetition of shares the lottery fires exactly once if f+1 peers sent a valid one, else never |
| LotteryInstance.Lottery.HandleLottery | src/consensus/lottery.go:98-132 | on the code's fields: the f+1st sender's share elects the producer |
| DecisionInstance.DecisionCollector.HandleDecision | src/consensus/decision.go:98-132 | a decision is recorded once per producer and sender; the output is a valid decision of a producer with 2f+1, and none only if there is none |
| DecisionInstance.DecisionCollector.FindOutput | src/consensus/decision.go:112-131 | the two loops over the maps, in any order, find such a decision exactly when one exists |
| DecisionInstance.DecisionCollector.Validate | src/consensus/decision.go:134-155 | delivered, and every signature of the proof is over the hash of the proposal |
| EpochSplit.FaultyProposalOutput | src/consensus/decision.go:134-155 | n = 4, f = 1: a run in which a decision with the faulty peer's vote alone is output with a proposal no correct peer delivered, though the producer's own is delivered |
| Proposals.HashForcedIff | src/consensus/decision.go:134-155 | for a producer that follows the code as a candidate, every possible output with a given set of voters carries its hash exactly when a correct peer is among them; else any proposal can be output |
| Proposals.CorrectVoterBacks | src/consensus/decision.go:134-155 | a valid decision with a correct voter carries the hash its producer, following the code as a candidate, proposed |
| Proposals.BackedOutput | src/consensus/decision.go:134-155 | so an output of a run with f+1 voters does |
| Proposals.DecisionCarries | src/consensus/epoch.go:487-508 | for a producer that follows the code as a candidate, a correct peer's decision is valid: 2f+1 signatures over the hash of the candidate's own proposal, if what peers hold for it came from its broadcast, SEND first |
| Proposals.DecisionsEqual | src/consensus/epoch.go:487-508 | then any two correct peers' decisions for it carry the same proposal and certificate |
| Certificates.VerifyAll | src/consensus/pb.go:298-305 | the loop over a signature map accepts exactly when every signature is its voter's over the hash |
| CertifiedRuns.OneDoneEver | src/consensus/pb.go:242-291 | a correct initiator broadcasts at most one DONE in a run |
| CertifiedRuns.CertificateEver | src/consensus/pb.go:193-291 | the certificate of an initiator that follows the code has exactly 2f+1 voters over the proposed hash, at least f+1 of them correct peers that hold exactly the proposal ever after; all signatures verify exactly when no vote was accepted before the proposal; also for candidates in cbc.go |
| Certified.HoldersKeepEver | src/consensus/pb.go:193-239 | if the initiator follows the code, what a correct peer holds it keeps, through the rest of the run |
| CertifiedRuns.IdenticalEver | src/consensus/pb.go:293-327 | if the initiator follows the code, correct peers that ever deliver with the payload in hand deliver equal hash, certificate and payload |
| CertifiedRuns.DeliveryIff | src/consensus/pb.go:293-327 | if the initiator follows the code, the delivery made on a DONE in PB carries the proposed hash exactly when the peer held a payload before it or is the initiator |
| CertifiedRuns.SendGivesPayload | src/consensus/pb.go:193-239 | and an accepted SEND of the initiator gives the payload, the proposal, for good |
| CertifiedRuns.DeliveredEver | src/consensus/pb.go:293-327 | at any later point each delivery of such an instance has 2f+1 signatures over the proposed hash, and that hash exactly when it came with the proposal or at the initiator |
| CertifiedScenes.DoneBeforeSendArises | src/consensus/pb.go:313-320 | n = 4, f = 1: a run in which a correct peer delivers the zero hash and no payload |
| CertifiedRuns.BlockedEver | src/consensus/pb.go:242-265 | if the initiator follows the code, a vote accepted before the proposal was made blocks every delivery of the instance, for good |
| CertifiedScenes.EarlyVoteArises | src/consensus/pb.go:242-265 | n = 4, f = 1: a run in which a vote is accepted before the proposal is made |
| Certified.RunInv | src/consensus/cbc.go:112-141 | the invariant of a broadcast whose initiator follows the code, PB or CBC, holds in every state of every run, with up to f faulty receivers |
| CertifiedProgress.ProposalSent | src/consensus/pb.go:153-191 | an initiator that follows the code sends its proposal, signed; also candidates |
| CertifiedProgress.SendAcked | src/consensus/cbc.go:189-209 | in PB and CBC: an accepted SEND of an initiator that follows the code is acknowledged with a vote over the proposal, for good |
| CertifiedProgress.AcceptedIff | src/consensus/pb.go:193-239 | a correct peer has voted, and holds a payload, exactly if it accepted a SEND; only a candidate holds its own before |
| CertifiedProgress.DoneIff | src/consensus/pb.go:263-285 | an initiator that follows the code has sent a DONE exactly when it has 2f+1 votes |
| CertifiedProgress.CertificateComes | src/consensus/cbc.go:212-260 | once it has handled the votes of all correct peers, its DONE is out, with 2f+1 votes over the proposed hash |
| CertifiedProgress.DoneDelivers | src/consensus/cbc.go:262-293 | each correct peer that handles that DONE delivers the certificate, with the proposal and its hash if it holds it, exactly if no vote was accepted before the proposal |
| CertifiedProgress.AllDeliver | src/consensus/pb.go:293-327 | so a correct peer that accepted the SEND before delivers the proposal under its certificate |
| CertifiedProgress.TwoVotes | src/consensus/pb.go:215-239 | an initiator that sends two payloads gets a receiver's vote for both, and the last is held |
| CertifiedProgress.AnySizeDelivers | src/consensus/pb.go:298-325 | a DONE is delivered exactly when it is the initiator's and every signature is its voter's own, however few they are |
| PbInstance.PB.HandleNewTransaction | src/consensus/pb.go:153-191 | sets the hash, not the transactions, and sends SEND |
| PbInstance.PB.HandleSend | src/consensus/pb.go:193-239 | a verified SEND of the instance's initiator is kept and acknowledged |
| PbInstance.PB.HandleAck | src/consensus/pb.go:242-291 | a vote over the own hash is kept once, the 2f+1st sends DONE |
| PbInstance.PB.HandleDone | src/consensus/pb.go:293-327 | a DONE with valid signatures is delivered as a certificate over the hash held |
| CbcInstance.AcceptableIff | src/consensus/cbc.go:160-175 | external validation accepts exactly when each certificate is in the path or verifies, and all rounds are in range |
| CbcInstance.CBC.Validate | src/consensus/cbc.go:160-175 | the nested loops compute that verdict, or panic where the code does |
| CbcInstance.CBC.Propose | src/consensus/cbc.go:92-95 | the candidate's own hash and proposal, and its SEND |
| CbcInstance.CBC.HandleCBCSend | src/consensus/cbc.go:143-210 | a verified and acceptable proposal is kept, except by the candidate, and acknowledged |
| CbcInstance.CBC.HandleCBCAck | src/consensus/cbc.go:212-260 | a vote over the own hash is kept once, the 2f+1st sends DONE |
| CbcInstance.CBC.HandleCBCDone | src/consensus/cbc.go:262-293 | a DONE with valid signatures is delivered with the hash it carries |
| PathInstance.Path.constructor | src/consensus/path.go:21-34 | k empty rounds |
| PathInstance.Path.Exist | src/consensus/path.go:49-59 | the loop finds a certificate exactly when its round lists it; a round out of range panics |
| PathInstance.Path.Add | src/consensus/path.go:62-74 | appends to the certificate's round and records its transactions and the batch size, or panics |
| PathInstance.Path.RecvThreshold | src/consensus/path.go:77-88 | true exactly when each round lists n-f certificates |
| PathInstance.Path.Len | src/consensus/path.go:37-46 | the number of certificates of all rounds |
| PathStore.TotalPlaces | src/consensus/path.go:37-46 | that number is the number of places, round and position |
| Commit.CommitHeld | src/consensus/epoch.go:354-375 | in every interleaving: once exit is reported, every certificate of the committed proposal is in the path under its own round with a transactions entry, then and ever after |
| Commit.DecisionExitIff | src/consensus/epoch.go:510-522 | a decision reports exit exactly when the whole proposal is held; and exactly when it panics |
| Commit.DeliveryExitIff | src/consensus/epoch.go:354-375 | a delivery reports exit exactly when it is new, completes the thresholds before the path broadcast, and a pending proposal is held |
| Commit.DeliveryPanicIff | src/consensus/epoch.go:354-375 | a delivery panics exactly on a round out of range, on no transactions in an empty path, or where the check of a pending proposal meets a round out of range before a miss; it leaves the pending proposal |
| Commit.LateDeliveries | src/consensus/epoch.go:363-365 | after the path broadcast no sequence of deliveries reports exit |
| Commit.PendingForever | src/consensus/epoch.go:363-372 | n = 4, f = 1, one round: three deliveries, a decision listing the fourth initiator's certificate, then its delivery: everything held, no exit |
| Commit.ExitDecided | src/consensus/epoch.go:510-522 | only proposals of decisions are committed |
| Commit.CheckFirst | src/consensus/epoch.go:524-533 | the first certificate that is not held decides between a miss and a panic |
| Commit.FlatMisplaced | src/consensus/epoch.go:524-533 | the order of the lookups is by round, then by position |
| CommitContent.EntryLast | src/consensus/path.go:62-74 | in every interleaving: the transactions entry of a round and initiator is that of the last delivery stored for them |
| CommitContent.EntryOwn | src/consensus/path.go:62-74 | with one certificate per instance, each certificate in the path has the transactions of its own first delivery |
| CommitContent.BatchFirst | src/consensus/path.go:68-71 | the batch size is the number of transactions of the first delivery |
| CommitContent.BroadcastIff | src/consensus/epoch.go:363-375 | a running node has broadcast its path exactly when something is delivered and every round has n-f certificates, and what it broadcast is the path as it then was |
| Commit.DistinctInitiators | src/consensus/path.go:49-88 | with one certificate per instance, duplicates are absorbed and a path over the threshold has n-f distinct initiators in every round |
| Delivery.PathsAgree | src/consensus/pb.go:293-327 | for an initiator that follows the code, SEND before DONE: two correct replicas never hold different certificates of its instance, whatever other instances delivered |
| Delivery.EntryProposed | src/consensus/path.go:62-74 | for a certificate in the path whose initiator follows the code, SEND before DONE, the entry holds the transactions its initiator proposed, whatever other instances delivered |
| Delivery.CommitProposed | src/consensus/epoch.go:354-375 | so it is for each such certificate of a committed proposal, at the exit report and ever after |
| Delivery.OneCertificateEach | src/consensus/epoch.go:354-365 | with faulty deliveries mixed in, an initiator listed twice in a round of a correct replica's path does not follow the code |
| Delivery.PathInitiators | src/consensus/epoch.go:354-365 | if all delivering initiators follow the code, a path over the threshold has n-f distinct initiators in every round |
| MerkleTree.Completeness | src/merkleTree/merkleTree.go:40-75 | every shard is accepted with the root and its own branch, of length log2 of the padded leaf count |
| MerkleTree.Binding | src/merkleTree/merkleTree.go:51-75 | with a tree's own branch for index i exactly shard i is accepted, given no collision among the inputs hashed |
| MerkleTree.FoldInjective | src/merkleTree/merkleTree.go:55-68 | along one branch, digests with equal results are equal: the wrapping sum is cancelled at every level |
| MerkleTree.IndexIgnored | src/merkleTree/merkleTree.go:57-66 | the result is the same for every index |
| MerkleTree.SumBytes | src/merkleTree/merkleTree.go:27-33 | each byte a parent hashes is the sum of its children's, less 256 if that does not fit a byte; 32 zero bytes are the unit |
| MerkleTree.TreeBytes | src/merkleTree/merkleTree.go:15-34 | the array holds the shards' hashes, 32 zero bytes for each missing leaf, and in each parent the hash of its children's byte sums |
| MerkleTree.FoldStep | src/merkleTree/merkleTree.go:55-68 | each level of the check hashes the byte sums of the digest and the branch entry, on whichever side they stand |
| MerkleTree.BranchIff | src/merkleTree/merkleTree.go:40-48 | the lookup panics exactly for a position beyond the array |
| MerkleTree.MakeMerkleTree | src/merkleTree/merkleTree.go:10-37 | the array holds the hash tree over the padded shards; an empty list is an error |
| MerkleTree.GetMerkleBranch | src/merkleTree/merkleTree.go:40-48 | the siblings on the way to the root, or a panic on an index out of range |
| MerkleTree.MerkleTreeVerify | src/merkleTree/merkleTree.go:51-75 | accepts exactly when folding the branch from the hashed value ends in the root |
| ErasureCode.RoundTripIff | src/consensus/ec.go:10-62 | decoding undoes encoding after an ideal reconstruction exactly when the pad count fits a byte |
| ErasureCode.RoundTrip | src/consensus/ec.go:10-62 | so for every data and every K up to 255 |
| ErasureCode.NoRoundTripAbove | src/consensus/ec.go:11-14 | for every K above 255 that the library accepts, encoding no data does not come back |
| ErasureCode.PaddingIsRfc5652 | src/consensus/ec.go:11-14 | 1 to K bytes, each their number, up to a multiple of K, as in section 6.3 of RFC 5652 |
| ErasureCode.PadBytes | src/consensus/ec.go:11-14 | for every K: 1 to K bytes up to a multiple of K, each the low byte of their number |
| ErasureCode.ShardBytes | src/consensus/ec.go:16-23 | byte j of data shard i is byte i*step+j of the padded data |
| ErasureCode.JoinParts | src/consensus/ec.go:59 | joining is concatenation: parts are joined on their own, a single shard is itself |
| ErasureCode.EncodedIff | src/consensus/ec.go:10-44 | encoding panics exactly for K <= 0 or N < 0, and succeeds exactly if the library accepts K and N and computes parity for the data shards |
| ErasureCode.StripIff | src/consensus/ec.go:60-61 | as many bytes come off as the last one says, whatever they are; it panics exactly if there are not as many |
| ErasureCode.EqualShards | src/consensus/ec.go:16-23 | K data shards of one positive length which join to the padded data |
| ErasureCode.ECEncode | src/consensus/ec.go:10-44 | the loops pad, split and leave placeholders as specified, with the error and panic cases |
| ErasureCode.ECDecode | src/consensus/ec.go:47-62 | reconstruct, join, strip by the last byte, with the error and panic cases |

## Left out

- AbaRuns.Agreement: about paced runs; without that it is false, as FaultySharesBreakAgreement shows.
- EpochTheorems.OneCommittedProducer: assumes the order of lottery outputs that Undisturbed states; without it decisions for two producers can be output, as OutOfOrderOutputsTwo shows, but not two other than 0 when n + |faulty| <= 4f+1.
- MerkleTree.Binding: assumes no collision among the byte strings hashed for the two values, not an injective hash, which no map to 32 bytes is.
- MerkleTree.MakeMerkleTree: takes the leaf count as the least power of two that is at least n; floating-point rounding of the logarithm is not modelled.
- ErasureCode.ECEncode: that appending padding may write into the caller's backing array, which the shards share, is not modelled.
- EpochInstance.EpochObject.BroadcastPath: the candidate's own CBC instance gets the rows by value; in the code it shares them with the live path, which later deliveries change.
- Delivery.PathInitiators: the count is for paths whose deliveries all come from initiators that follow the code; a faulty one can certify two payloads, and receivers do not check how many signatures a certificate has. OneCertificateEach is what remains with faulty deliveries.
- Certified.RunInv: and with it the other results on certificates, TwoVotes and AnySizeDelivers excepted, are about initiators that follow the code; receivers may be faulty.
- Faulty initiators and candidates: nothing is claimed of their certificates; CBC proposals delivered to the epoch are arbitrary in its model and may be overwritten there by a later SEND.
- Equality of the proposals committed by two nodes: shown only for outputs whose proofs have a correct voter and a producer that follows the code, by CorrectVoterBacks; HashForcedIff says that nothing less will do. Decisions of correct peers are equal by DecisionsEqual.
- Backing of Both by n-f distinct senders: counts are summed per value, and the agreement proof does not need it.
- Shares for a lottery with index n or above: the code looks up an instance that does not exist; the model has no such step.
- Liveness beyond RoundMoves and CertificateComes: consumed wake-ups, the two-minute timer, that messages arrive, that the coin ever hits. Threshold checks are steps that may happen at any time.
- The stop, exit and done channels, the routing between epochs and the client path in consensus.go, and the client's transaction counter K.
- Transport, JSON and its nil-or-empty distinctions, logging, timing, keys: messages are values, hashes and signatures ideal, pubKeys are those of the peers.
- Locking and data races: every handler and every wake-up is one atomic step; channel capacities are unbounded.
- SHA-256, secp256k1 and the Reed-Solomon library: parameters with the assumptions stated above.
- block.go, genhash, fake, readAddress, main.go: no property of their own.
