// The certificate-collecting broadcast of src/consensus/pb.go and cbc.go: an
// initiator sends a payload, peers vote on its hash, and 2f+1 votes make a
// certificate that everyone delivers.

module Certified {
  import opened Options
  import opened Quorum
  import opened Certificates

  // PB carries transactions, CBC the rounds of certificates of a candidate.
  datatype Payload = Txs(txs: seq<seq<int>>) | Qcs(qcs: seq<seq<QuorumCert>>)

  datatype Msg =
    | Send(initiator: int, payload: Payload, hash: Hash, sig: Sig)
    | Ack(hash: Hash, sig: Sig, voter: int)
    | Done(initiator: int, hash: Hash, sigs: map<int, Sig>)

  // A delivery: the hash and payload the peer holds, and the certificate.
  datatype Output = Output(hash: Hash, payload: Option<Payload>, sigs: map<int, Sig>)

  // txsHash, txs and sigSets of PB; qcsHash, qcs and sigSets of CBC.
  datatype Node = Node(hash: Hash, payload: Option<Payload>, sigs: map<int, Sig>, sent: set<Msg>, outs: seq<Output>)

  // The two files run the same protocol. They differ where a CBC initiator holds
  // its payload from the start and keeps it on its own SEND, and in the hash a
  // delivery carries.
  datatype Kind = PB | CBC

  datatype Cfg = Cfg(n: nat, f: nat, faulty: set<int>, from: int, kind: Kind, sha: Payload -> Hash)

  // handleNewTransaction; AssignQcsHash and the broadcast after it
  function Propose(c: Cfg, nd: Node, id: int, payload: Payload): Node {
    var h := c.sha(payload);
    nd.(hash := h, payload := if c.kind == CBC then Some(payload) else nd.payload,
        sent := nd.sent + {Send(id, payload, h, Sig(id, h))})
  }

  // handleSend, handleCBCSend; accept is the verdict of external validation,
  // which PB does not have.
  function HandleSend(c: Cfg, nd: Node, id: int, initiator: int, payload: Payload, h: Hash, sig: Sig,
                      accept: bool): Node {
    if initiator != c.from || !Verify(h, sig, initiator) || !accept then nd
    else
      var nd1 := if c.kind == CBC && id == initiator then nd else nd.(hash := h, payload := Some(payload));
      nd1.(sent := nd1.sent + {Ack(nd1.hash, Sig(id, h), id)})
  }

  function HandleAck(c: Cfg, nd: Node, id: int, h: Hash, sig: Sig, voter: int): Node {
    if h != nd.hash || voter in nd.sigs || !Verify(h, sig, voter) then nd
    else
      var sigs := nd.sigs[voter := sig];
      nd.(sigs := sigs, sent := if |sigs| == 2 * c.f + 1 then nd.sent + {Done(id, nd.hash, sigs)} else nd.sent)
  }

  function HandleDone(c: Cfg, nd: Node, initiator: int, h: Hash, sigs: map<int, Sig>): Node {
    if initiator != c.from || !AllVerify(h, sigs) then nd
    else nd.(outs := nd.outs + [Output(if c.kind == CBC then h else nd.hash, nd.payload, sigs)])
  }

  // ----- the instance across all peers, with an initiator that follows the code -----

  datatype Sys = Sys(nodes: map<int, Node>, proposal: Option<Payload>, early: set<int>)

  ghost predicate ValidCfg(c: Cfg) {
    FaultModel(c.n, c.f, c.faulty) && c.from in Correct(c)
  }

  function Correct(c: Cfg): set<int> {
    Peers(c.n) - c.faulty
  }

  function Author(m: Msg): int {
    match m
    case Send(i, _, _, _) => i
    case Ack(_, _, v) => v
    case Done(i, _, _) => i
  }

  ghost predicate Complete(c: Cfg, s: Sys) {
    forall p :: p in Correct(c) ==> p in s.nodes
  }

  // Sender fields are authentic: a faulty peer sends anything in its own name.
  ghost predicate Available(c: Cfg, s: Sys, m: Msg) {
    && Author(m) in Peers(c.n)
    && (Author(m) in c.faulty || (Author(m) in s.nodes && m in s.nodes[Author(m)].sent))
  }

  ghost predicate Init(c: Cfg, s: Sys) {
    && Complete(c, s) && s.proposal == None && s.early == {}
    && forall p :: p in Correct(c) ==> s.nodes[p] == Node(ZERO, None, map[], {}, [])
  }

  // PB proposes transactions, CBC certificates.
  predicate Fits(kind: Kind, payload: Payload) {
    kind == PB <==> payload.Txs?
  }

  datatype Step = Start(payload: Payload) | Deliver(p: int, m: Msg, accept: bool)

  // The initiator proposes once.
  ghost predicate Enabled(c: Cfg, s: Sys, step: Step)
    requires Complete(c, s)
  {
    match step
    case Start(payload) => s.proposal == None && c.from in Correct(c) && Fits(c.kind, payload)
    case Deliver(p, m, accept) => p in Correct(c) && Available(c, s, m) && (c.kind == PB ==> accept)
  }

  function Handle(c: Cfg, nd: Node, id: int, m: Msg, accept: bool): Node {
    match m
    case Send(i, t, h, sig) => HandleSend(c, nd, id, i, t, h, sig, accept)
    case Ack(h, sig, v) => HandleAck(c, nd, id, h, sig, v)
    case Done(i, h, sigs) => HandleDone(c, nd, i, h, sigs)
  }

  // early records who had a vote accepted before the proposal was made.
  ghost predicate Next(c: Cfg, s: Sys, step: Step, s': Sys) {
    && Complete(c, s) && Enabled(c, s, step)
    && s' == match step
             case Start(payload) =>
               Sys(s.nodes[c.from := Propose(c, s.nodes[c.from], c.from, payload)],
                   Some(payload), s.nodes[c.from].sigs.Keys)
             case Deliver(p, m, accept) => s.(nodes := s.nodes[p := Handle(c, s.nodes[p], p, m, accept)])
  }

  // ----- the invariant -----

  // The hash the initiator holds.
  function Target(c: Cfg, s: Sys): Hash {
    match s.proposal case None => ZERO case Some(t) => c.sha(t)
  }

  // A peer holds nothing, or exactly the proposal.
  ghost predicate Holds(c: Cfg, s: Sys, p: int, nd: Node) {
    && (nd.payload.Some? ==> nd.payload == s.proposal && nd.hash == Target(c, s))
    && (nd.payload.None? ==> nd.hash == if p == c.from then Target(c, s) else ZERO)
    && (c.kind == CBC && p == c.from ==> nd.payload == s.proposal)
  }

  // What a correct peer has sent.
  ghost predicate OwnMsg(c: Cfg, s: Sys, p: int, nd: Node, m: Msg) {
    match m
    case Send(i, t, h, sig) => i == p == c.from && s.proposal == Some(t) && h == c.sha(t) && sig == Sig(p, h)
    case Ack(h, sig, v) => v == p && s.proposal.Some? && h == Target(c, s) && sig == Sig(p, h)
      && nd.payload == s.proposal
    case Done(i, h, sigs) =>
      i == p && (p == c.from ==>
        && s.proposal.Some? && h == Target(c, s)
        && |sigs| == 2 * c.f + 1 && sigs.Keys <= nd.sigs.Keys && |nd.sigs| >= 2 * c.f + 1
        && (forall v :: v in sigs ==> sigs[v] == nd.sigs[v])
        && (s.early <= sigs.Keys))
  }

  // Votes at the initiator: a correct voter's vote was cast by it, over the
  // proposal's hash; the early ones are over the zero hash.
  ghost predicate VotesInv(c: Cfg, s: Sys, nd: Node) {
    && (forall v :: v in nd.sigs ==>
          && v in Peers(c.n)
          && (v in Correct(c) ==>
                s.proposal.Some? && v in s.nodes && Ack(Target(c, s), nd.sigs[v], v) in s.nodes[v].sent)
          && nd.sigs[v] == Sig(v, if s.proposal.None? || v in s.early then ZERO else Target(c, s)))
    && s.early <= nd.sigs.Keys
    && s.early !! Correct(c)
    && (s.proposal.None? ==> s.early == {})
  }

  // At most one DONE of the initiator.
  ghost predicate OneDone(c: Cfg, nd: Node) {
    && (forall m, m' :: m in nd.sent && m' in nd.sent && m.Done? && m'.Done? ==> m == m')
    && (forall m :: m in nd.sent && m.Done? ==> |nd.sigs| >= 2 * c.f + 1)
  }

  // A delivery carries the initiator's certificate and what the peer held.
  ghost predicate OutInv(c: Cfg, s: Sys, p: int, o: Output) {
    && c.from in s.nodes
    && AllVerify(Target(c, s), o.sigs)
    && Done(c.from, Target(c, s), o.sigs) in s.nodes[c.from].sent
    && (o.payload.Some? ==> o.payload == s.proposal)
    && o.hash == (if c.kind == CBC || p == c.from || o.payload.Some? then Target(c, s) else ZERO)
  }

  ghost predicate NodeInv(c: Cfg, s: Sys, p: int)
    requires p in s.nodes
  {
    var nd := s.nodes[p];
    && Holds(c, s, p, nd)
    && (forall m :: m in nd.sent ==> OwnMsg(c, s, p, nd, m))
    && (forall o :: o in nd.outs ==> OutInv(c, s, p, o))
  }

  ghost predicate Inv(c: Cfg, s: Sys) {
    && Complete(c, s) && c.from in s.nodes && (s.proposal.Some? ==> Fits(c.kind, s.proposal.value))
    && (forall p :: p in Correct(c) ==> NodeInv(c, s, p))
    && VotesInv(c, s, s.nodes[c.from])
    && OneDone(c, s.nodes[c.from])
  }

  lemma InitInv(c: Cfg, s: Sys)
    requires ValidCfg(c) && Init(c, s)
    ensures Inv(c, s)
  {
  }

  // ----- preservation -----

  // Votes, messages and deliveries stay; a peer that holds the proposal keeps it.
  ghost predicate NodeGrows(nd: Node, nd': Node) {
    && nd.sent <= nd'.sent
    && (nd.payload.Some? ==> nd'.payload == nd.payload && nd'.hash == nd.hash)
  }

  // A SEND that verifies at the instance is the initiator's own.
  lemma SendIsProposal(c: Cfg, s: Sys, m: Msg)
    requires ValidCfg(c) && Inv(c, s) && Available(c, s, m) && m.Send? && m.initiator == c.from
    ensures s.proposal == Some(m.payload) && m.hash == Target(c, s)
  {
    assert OwnMsg(c, s, c.from, s.nodes[c.from], m);
  }

  lemma DoneIsOwn(c: Cfg, s: Sys, m: Msg)
    requires ValidCfg(c) && Inv(c, s) && Available(c, s, m) && m.Done? && m.initiator == c.from
    ensures m in s.nodes[c.from].sent && m.hash == Target(c, s)
  {
    assert OwnMsg(c, s, c.from, s.nodes[c.from], m);
  }

  // What a delivery does to the acting node.
  lemma DeliverHolds(c: Cfg, s: Sys, p: int, m: Msg, accept: bool)
    requires ValidCfg(c) && Inv(c, s) && p in Correct(c) && Available(c, s, m)
    ensures var nd' := Handle(c, s.nodes[p], p, m, accept);
      Holds(c, s, p, nd') && NodeGrows(s.nodes[p], nd')
  {
    assert NodeInv(c, s, p);
    if m.Send? && m.initiator == c.from {
      SendIsProposal(c, s, m);
    }
  }

  lemma StartInv(c: Cfg, s: Sys, payload: Payload, s': Sys)
    requires ValidCfg(c) && Inv(c, s) && Next(c, s, Start(payload), s')
    ensures Inv(c, s')
  {
    hide OneDone, VotesInv;
    forall p | p in Correct(c) ensures NodeInv(c, s', p) {
      assert NodeInv(c, s, p);
      assert NodeInv(c, s, c.from);
    }
    StartVotes(c, s, payload, s');
  }

  lemma StartVotes(c: Cfg, s: Sys, payload: Payload, s': Sys)
    requires ValidCfg(c) && Inv(c, s) && Next(c, s, Start(payload), s')
    ensures c.from in s'.nodes && VotesInv(c, s', s'.nodes[c.from]) && OneDone(c, s'.nodes[c.from])
  {
    hide OutInv, OwnMsg;
  }

  // A message sent earlier stays justified while votes and payload are kept.
  lemma OldMsg(c: Cfg, s: Sys, s': Sys, p: int, nd: Node, nd': Node, x: Msg)
    requires OwnMsg(c, s, p, nd, x) && s'.proposal == s.proposal && s'.early == s.early
    requires NodeGrows(nd, nd') && SigsGrow(nd, nd')
    ensures OwnMsg(c, s', p, nd', x)
  {
    if x.Done? {
      KeysCount(nd.sigs, nd'.sigs);
    }
  }

  ghost predicate SigsGrow(nd: Node, nd': Node) {
    nd.sigs.Keys <= nd'.sigs.Keys && forall v :: v in nd.sigs ==> nd'.sigs[v] == nd.sigs[v]
  }

  lemma DeliverSent(c: Cfg, s: Sys, p: int, m: Msg, accept: bool, s': Sys)
    requires ValidCfg(c) && Inv(c, s) && Next(c, s, Deliver(p, m, accept), s')
    ensures p in s'.nodes && forall x :: x in s'.nodes[p].sent ==> OwnMsg(c, s', p, s'.nodes[p], x)
  {
    hide OutInv, OwnMsg, VotesInv;
    assert NodeInv(c, s, p);
    var nd, nd' := s.nodes[p], s'.nodes[p];
    DeliverHolds(c, s, p, m, accept);
    assert SigsGrow(nd, nd');
    forall x | x in nd'.sent ensures OwnMsg(c, s', p, nd', x) {
      if x in nd.sent {
        OldMsg(c, s, s', p, nd, nd', x);
      } else {
        NewMsg(c, s, p, m, accept, s', x);
      }
    }
  }

  // The one message a delivery may add.
  lemma NewMsg(c: Cfg, s: Sys, p: int, m: Msg, accept: bool, s': Sys, x: Msg)
    requires ValidCfg(c) && Inv(c, s) && Next(c, s, Deliver(p, m, accept), s')
    requires p in s.nodes && p in s'.nodes && x in s'.nodes[p].sent && x !in s.nodes[p].sent
    ensures OwnMsg(c, s', p, s'.nodes[p], x)
  {
    hide OutInv, OneDone;
    assert NodeInv(c, s, p);
    if m.Send? {
      SendIsProposal(c, s, m);
    } else if p == c.from {
      NewDone(c, s, m);
    }
  }

  lemma KeysCount(a: map<int, Sig>, b: map<int, Sig>)
    requires a.Keys <= b.Keys
    ensures |a| <= |b|
  {
    SubsetCount(a.Keys, b.Keys);
    assert |a| == |a.Keys| && |b| == |b.Keys|;
  }

  // 2f+1 accepted votes include a correct voter's, so the proposal was made.
  lemma NewDone(c: Cfg, s: Sys, m: Msg)
    requires ValidCfg(c) && Inv(c, s) && Available(c, s, m) && m.Ack?
    requires var nd := s.nodes[c.from];
      m.hash == nd.hash && m.voter !in nd.sigs && Verify(m.hash, m.sig, m.voter)
        && |nd.sigs[m.voter := m.sig]| == 2 * c.f + 1
    ensures s.proposal.Some? && s.nodes[c.from].hash == Target(c, s)
  {
    hide OutInv;
    var nd := s.nodes[c.from];
    assert NodeInv(c, s, c.from);
    var voters := nd.sigs[m.voter := m.sig].Keys;
    assert |voters| == |nd.sigs[m.voter := m.sig]|;
    var v := SomeCorrect(c.n, c.f, c.faulty, voters);
    if v == m.voter {
      assert NodeInv(c, s, v);
      assert OwnMsg(c, s, v, s.nodes[v], m);
    }
  }

  lemma DeliverOuts(c: Cfg, s: Sys, p: int, m: Msg, accept: bool, s': Sys, q: int)
    requires ValidCfg(c) && Inv(c, s) && Next(c, s, Deliver(p, m, accept), s') && q in Correct(c)
    ensures q in s'.nodes && forall o :: o in s'.nodes[q].outs ==> OutInv(c, s', q, o)
  {
    hide OwnMsg;
    assert NodeInv(c, s, q);
    var nd, nd' := s.nodes[q], s'.nodes[q];
    assert s.nodes[c.from].sent <= s'.nodes[c.from].sent;
    forall o | o in nd'.outs ensures OutInv(c, s', q, o) {
      if o in nd.outs {
        assert OutInv(c, s, q, o);
      } else {
        DoneIsOwn(c, s, m);
      }
    }
  }

  // A vote accepted by the initiator is over the hash it holds.
  lemma NewVote(c: Cfg, s: Sys, m: Msg)
    requires ValidCfg(c) && Inv(c, s) && Available(c, s, m) && m.Ack? && m.hash == s.nodes[c.from].hash
    ensures m.voter in Correct(c) ==> s.proposal.Some? && m.voter in s.nodes && m in s.nodes[m.voter].sent
    ensures m.hash == Target(c, s)
  {
    hide OutInv;
    assert NodeInv(c, s, c.from);
    if m.voter in Correct(c) {
      assert NodeInv(c, s, m.voter);
      assert OwnMsg(c, s, m.voter, s.nodes[m.voter], m);
    }
  }

  // What has been sent stays sent.
  ghost predicate SentGrows(s: Sys, s': Sys) {
    && s'.proposal == s.proposal && s'.early == s.early
    && forall q :: q in s.nodes ==> q in s'.nodes && s.nodes[q].sent <= s'.nodes[q].sent
  }

  lemma VotesStay(c: Cfg, s: Sys, s': Sys, nd: Node)
    requires VotesInv(c, s, nd) && SentGrows(s, s')
    ensures VotesInv(c, s', nd)
  {
  }

  lemma AddVote(c: Cfg, s: Sys, nd: Node, nd': Node, h: Hash, v: int)
    requires VotesInv(c, s, nd) && v in Peers(c.n) && v !in nd.sigs && nd'.sigs == nd.sigs[v := Sig(v, h)]
    requires h == Target(c, s)
    requires v in Correct(c) ==> s.proposal.Some? && v in s.nodes && Ack(h, Sig(v, h), v) in s.nodes[v].sent
    ensures VotesInv(c, s, nd')
  {
  }

  lemma DeliverVotes(c: Cfg, s: Sys, p: int, m: Msg, accept: bool, s': Sys)
    requires ValidCfg(c) && Inv(c, s) && Next(c, s, Deliver(p, m, accept), s')
    ensures c.from in s'.nodes && VotesInv(c, s', s'.nodes[c.from])
  {
    hide OutInv, OwnMsg, NodeInv, OneDone, VotesInv;
    var nd, nd' := s.nodes[c.from], s'.nodes[c.from];
    if m.Ack? && m.hash == nd.hash {
      NewVote(c, s, m);
    }
    if nd'.sigs != nd.sigs {
      AddVote(c, s, nd, nd', m.hash, m.voter);
    } else {
      SameVotes(c, s, nd, nd');
    }
    VotesStay(c, s, s', nd');
  }

  lemma SameVotes(c: Cfg, s: Sys, nd: Node, nd': Node)
    requires VotesInv(c, s, nd) && nd'.sigs == nd.sigs
    ensures VotesInv(c, s, nd')
  {
  }

  lemma DeliverOneDone(c: Cfg, s: Sys, p: int, m: Msg, accept: bool, s': Sys)
    requires ValidCfg(c) && Inv(c, s) && Next(c, s, Deliver(p, m, accept), s')
    ensures c.from in s'.nodes && OneDone(c, s'.nodes[c.from])
  {
    hide OutInv, OwnMsg;
    var nd, nd' := s.nodes[c.from], s'.nodes[c.from];
    if nd'.sigs != nd.sigs {
      KeysCount(nd.sigs, nd'.sigs);
      assert |nd'.sigs| == |nd.sigs| + 1;
    }
  }

  lemma NextInv(c: Cfg, s: Sys, step: Step, s': Sys)
    requires ValidCfg(c) && Inv(c, s) && Next(c, s, step, s')
    ensures Inv(c, s')
  {
    match step
    case Start(payload) => StartInv(c, s, payload, s');
    case Deliver(p, m, accept) =>
      DeliverVotes(c, s, p, m, accept, s');
      DeliverOneDone(c, s, p, m, accept, s');
      forall q | q in Correct(c) ensures NodeInv(c, s', q) {
        assert NodeInv(c, s, q);
        DeliverOuts(c, s, p, m, accept, s', q);
        if q == p {
          DeliverHolds(c, s, p, m, accept);
          DeliverSent(c, s, p, m, accept, s');
        } else {
          OtherSent(c, s, s', q);
        }
      }
  }

  lemma OtherSent(c: Cfg, s: Sys, s': Sys, q: int)
    requires q in s.nodes && q in s'.nodes && NodeInv(c, s, q) && s'.nodes[q] == s.nodes[q]
    requires s'.proposal == s.proposal && s'.early == s.early
    ensures Holds(c, s', q, s'.nodes[q])
    ensures forall m :: m in s'.nodes[q].sent ==> OwnMsg(c, s', q, s'.nodes[q], m)
  {
  }

  ghost predicate Steps(c: Cfg, s: Sys, s': Sys) {
    exists step :: Next(c, s, step, s')
  }

  ghost predicate IsRun(c: Cfg, run: seq<Sys>) {
    && run != []
    && Init(c, run[0])
    && forall i :: 0 < i < |run| ==> Steps(c, run[i - 1], run[i])
  }

  lemma {:induction false} RunInv(c: Cfg, run: seq<Sys>, i: nat)
    requires ValidCfg(c) && IsRun(c, run) && i < |run|
    ensures Inv(c, run[i])
  {
    hide Inv, Init, Next, ValidCfg;
    if i == 0 {
      InitInv(c, run[0]);
    } else {
      assert Steps(c, run[i - 1], run[i]);
      RunInv(c, run, i - 1);
      var step :| Next(c, run[i - 1], step, run[i]);
      NextInv(c, run[i - 1], step, run[i]);
    }
  }

  // ----- what a certificate means -----

  // A correct initiator broadcasts at most one DONE.
  lemma DoneOnce(c: Cfg, s: Sys, m: Msg, m': Msg)
    requires ValidCfg(c) && Inv(c, s)
    requires m in s.nodes[c.from].sent && m' in s.nodes[c.from].sent && m.Done? && m'.Done?
    ensures m == m'
  {
    assert NodeInv(c, s, c.from);
  }

  // Its certificate has exactly 2f+1 voters, over the one hash it proposed; all of
  // them verify exactly when no vote was accepted before the proposal was made.
  lemma CertificateValidIff(c: Cfg, s: Sys, m: Msg)
    requires ValidCfg(c) && Inv(c, s) && m in s.nodes[c.from].sent && m.Done?
    ensures s.proposal.Some? && m.hash == c.sha(s.proposal.value)
    ensures |m.sigs| == 2 * c.f + 1
    ensures m.hash != ZERO ==> (AllVerify(m.hash, m.sigs) <==> s.early == {})
  {
    hide OutInv;
    assert NodeInv(c, s, c.from);
    assert OwnMsg(c, s, c.from, s.nodes[c.from], m);
    if m.hash != ZERO && s.early != {} {
      var v :| v in s.early;
      assert m.sigs[v] == Sig(v, ZERO);
    }
  }

  // At least f+1 of its voters are correct peers that hold exactly the proposal.
  lemma CertificateAvailability(c: Cfg, s: Sys, m: Msg)
    requires ValidCfg(c) && Inv(c, s) && m in s.nodes[c.from].sent && m.Done?
    ensures |m.sigs.Keys * Correct(c)| >= c.f + 1
    ensures forall v :: v in m.sigs.Keys * Correct(c) ==>
      v in s.nodes && s.nodes[v].payload.Some? && s.nodes[v].payload == s.proposal && s.nodes[v].hash == m.hash
  {
    hide OutInv;
    var nd := s.nodes[c.from];
    assert NodeInv(c, s, c.from);
    assert OwnMsg(c, s, c.from, nd, m);
    var voters := m.sigs.Keys;
    assert |voters| == 2 * c.f + 1;
    CorrectAmong(c.n, c.f, c.faulty, voters);
    assert voters * Correct(c) == voters - c.faulty;
    forall v | v in voters * Correct(c)
      ensures v in s.nodes && s.nodes[v].payload == s.proposal && s.nodes[v].hash == m.hash
    {
      assert NodeInv(c, s, v);
      assert OwnMsg(c, s, v, s.nodes[v], Ack(Target(c, s), nd.sigs[v], v));
    }
  }

  // A peer that holds a payload never loses or changes it.
  lemma HoldersKeep(c: Cfg, s: Sys, s': Sys, p: int)
    requires ValidCfg(c) && Inv(c, s) && Steps(c, s, s') && p in Correct(c)
    ensures p in s.nodes && p in s'.nodes && NodeGrows(s.nodes[p], s'.nodes[p])
  {
    hide OutInv, OwnMsg;
    var step :| Next(c, s, step, s');
    assert NodeInv(c, s, p);
    match step
    case Start(payload) =>
    case Deliver(q, m, accept) => DeliverHolds(c, s, q, m, accept);
  }

  lemma {:induction false} HoldersKeepEver(c: Cfg, run: seq<Sys>, i: nat, j: nat, p: int)
    requires ValidCfg(c) && IsRun(c, run) && i < j < |run| && p in Correct(c)
    ensures p in run[i].nodes && p in run[j].nodes && NodeGrows(run[i].nodes[p], run[j].nodes[p])
    decreases j
  {
    hide Inv, Init, ValidCfg, Steps;
    assert Steps(c, run[j - 1], run[j]);
    RunInv(c, run, j - 1);
    HoldersKeep(c, run[j - 1], run[j], p);
    if i < j - 1 {
      HoldersKeepEver(c, run, i, j - 1, p);
    }
  }

  // All correct peers that deliver with the payload in hand deliver the same: the
  // same hash, certificate and payload.
  lemma IdenticalDelivery(c: Cfg, s: Sys, p: int, o: Output, q: int, o': Output)
    requires ValidCfg(c) && Inv(c, s) && p in Correct(c) && q in Correct(c)
    requires o in s.nodes[p].outs && o' in s.nodes[q].outs
    requires o.payload.Some? && o'.payload.Some?
    ensures o == o'
  {
    hide OwnMsg;
    assert NodeInv(c, s, p) && NodeInv(c, s, q);
    assert OutInv(c, s, p, o) && OutInv(c, s, q, o');
    DoneOnce(c, s, Done(c.from, Target(c, s), o.sigs), Done(c.from, Target(c, s), o'.sigs));
  }

  // In PB, a delivery carries the hash that was proposed exactly when the peer had
  // handled the SEND before the DONE, or is the initiator itself.
  lemma DeliveredHashIff(c: Cfg, s: Sys, p: int, o: Output)
    requires ValidCfg(c) && Inv(c, s) && p in Correct(c) && o in s.nodes[p].outs
    requires c.kind == PB && Target(c, s) != ZERO
    ensures s.proposal.Some? && AllVerify(c.sha(s.proposal.value), o.sigs) && |o.sigs| == 2 * c.f + 1
    ensures o.hash == c.sha(s.proposal.value) <==> o.payload == s.proposal || p == c.from
  {
    assert NodeInv(c, s, p);
    assert OutInv(c, s, p, o);
    assert NodeInv(c, s, c.from);
    assert OwnMsg(c, s, c.from, s.nodes[c.from], Done(c.from, Target(c, s), o.sigs));
  }

  // Nothing is delivered when a vote was accepted before the proposal was made.
  lemma EarlyVoteBlocks(c: Cfg, s: Sys, p: int)
    requires ValidCfg(c) && Inv(c, s) && p in Correct(c)
    requires s.early != {} && Target(c, s) != ZERO
    ensures s.nodes[p].outs == []
  {
    if s.nodes[p].outs != [] {
      var o := s.nodes[p].outs[0];
      assert NodeInv(c, s, p);
      assert o in s.nodes[p].outs && OutInv(c, s, p, o);
      CertificateValidIff(c, s, Done(c.from, Target(c, s), o.sigs));
    }
  }
}
