// What proposal a decision output carries.

module Proposals {
  import opened Options
  import opened Quorum
  import opened EpochNode
  import opened Certificates
  import opened EpochSystem
  import opened EpochInv
  import opened EpochSteps
  import opened EpochLaws
  import C = Certified
  import R = CertifiedRuns

  // The signature was made in this instance of the broadcast by peer v.
  ghost predicate Made(sys: C.Sys, v: int, sig: Sig) {
    v in sys.nodes && exists m :: m in sys.nodes[v].sent && ((m.Send? && m.sig == sig) || (m.Ack? && m.sig == sig))
  }

  // Correct peers' signatures in the proof are theirs, made in the instance.
  ghost predicate Unforged(c: C.Cfg, sys: C.Sys, proof: map<int, Sig>) {
    proof.Keys <= Peers(c.n) && forall v :: v in proof && v in C.Correct(c) ==> Made(sys, v, proof[v])
  }

  // Candidate d.producer follows the code in this CBC instance of the epoch.
  ghost predicate InstanceOf(c: Cfg, cbc: C.Cfg, producer: int) {
    && cbc.kind == C.CBC && cbc.from == producer
    && cbc.n == c.n && cbc.f == c.f && cbc.faulty == c.faulty && C.ValidCfg(cbc)
    && forall q :: cbc.sha(C.Qcs(q)) == c.sha(q)
  }

  // A valid decision whose proof has a correct voter carries its producer's hash.
  lemma CorrectVoterBacks(c: Cfg, d: Decision, cbc: C.Cfg, sys: C.Sys, v: int)
    requires InstanceOf(c, cbc, d.producer) && C.Inv(cbc, sys)
    requires Validated(c.sha, d) && Unforged(cbc, sys, d.body.proof) && v in d.body.proof && v in C.Correct(cbc)
    ensures sys.proposal.Some? && c.sha(d.body.qcs) == C.Target(cbc, sys)
  {
    hide C.Inv, C.ValidCfg;
    MadeOver(cbc, sys, v, d.body.proof[v]);
  }

  // Decisions for the producer, of sender x, with voters vs, that can be output
  // when x's comes as the 2f+1st.
  ghost predicate Possible(c: Cfg, r: Record, cbc: C.Cfg, sys: C.Sys, x: int, vs: set<int>, d: Decision) {
    && d.producer == cbc.from && d.sender == x && d.body.proof.Keys == vs
    && Unforged(cbc, sys, d.body.proof) && Emits(HandleDecision(r, d), c.f, c.sha, d)
  }

  // validate does not look at how many voters a proof has. Every output with voters
  // vs carries the hash of its producer, which follows the code as a candidate,
  // exactly when vs includes a correct peer; else any proposal can be output.
  lemma HashForcedIff(c: Cfg, r: Record, cbc: C.Cfg, run: seq<C.Sys>, i: nat, x: int, vs: set<int>,
                      other: seq<seq<QuorumCert>>)
    requires InstanceOf(c, cbc, cbc.from) && C.IsRun(cbc, run) && i < |run| && vs <= Peers(c.n)
    requires |Deciders(r, cbc.from)| == 2 * c.f && x !in Deciders(r, cbc.from)
    requires c.sha(other) != C.Target(cbc, run[i])
    ensures (forall d :: Possible(c, r, cbc, run[i], x, vs, d) ==> c.sha(d.body.qcs) == C.Target(cbc, run[i]))
            <==> exists v :: v in vs && v in C.Correct(cbc)
  {
    hide C.Inv, C.ValidCfg, C.IsRun, C.Correct, C.Target, Validated, Made;
    InstanceRun(c, cbc, run, i);
    if v :| v in vs && v in C.Correct(cbc) {
      forall d | Possible(c, r, cbc, run[i], x, vs, d) ensures c.sha(d.body.qcs) == C.Target(cbc, run[i]) {
        CorrectVoterBacks(c, d, cbc, run[i], v);
      }
    } else {
      var d := AnyProposal(c, r, cbc, run[i], x, vs, other);
    }
  }

  lemma InstanceRun(c: Cfg, cbc: C.Cfg, run: seq<C.Sys>, i: nat)
    requires InstanceOf(c, cbc, cbc.from) && C.IsRun(cbc, run) && i < |run|
    ensures C.Inv(cbc, run[i])
  {
    hide C.ValidCfg, C.IsRun, C.Inv;
    C.RunInv(cbc, run, i);
  }

  // Faulty voters alone sign for any proposal.
  lemma AnyProposal(c: Cfg, r: Record, cbc: C.Cfg, sys: C.Sys, x: int, vs: set<int>, qcs: seq<seq<QuorumCert>>)
    returns (d: Decision)
    requires vs <= Peers(c.n) && cbc.n == c.n && forall v :: v in vs ==> v !in C.Correct(cbc)
    requires |Deciders(r, cbc.from)| == 2 * c.f && x !in Deciders(r, cbc.from)
    ensures Possible(c, r, cbc, sys, x, vs, d) && d.body.qcs == qcs
  {
    hide C.Correct;
    var proof := map v | v in vs :: Sig(v, c.sha(qcs));
    d := Decision(cbc.from, x, true, Body(proof, qcs));
    assert proof.Keys == vs;
    assert Deciders(HandleDecision(r, d), d.producer) == Deciders(r, cbc.from) + {x};
  }

  // f+1 voters include a correct one: such an output of a run of the epoch carries
  // the producer's own hash.
  lemma BackedOutput(c: Cfg, s: Sys, p: int, d: Decision, cbc: C.Cfg, run: seq<C.Sys>, i: nat)
    requires ValidCfg(c) && Inv(c, s) && p in Correct(c) && DecisionOut(d) in s.nodes[p].log
    requires InstanceOf(c, cbc, d.producer) && C.IsRun(cbc, run) && i < |run|
    requires |d.body.proof| >= c.f + 1 && Unforged(cbc, run[i], d.body.proof)
    ensures run[i].proposal.Some? && c.sha(d.body.qcs) == cbc.sha(run[i].proposal.value)
  {
    hide Inv, EpochSystem.ValidCfg, C.ValidCfg, C.IsRun, C.Inv, C.OwnMsg;
    InvBasics(c, s, p);
    InvEvents(c, s, p);
    var proof := d.body.proof;
    assert |proof.Keys| == |proof|;
    FaultModelOf(c);
    var v := SomeCorrect(c.n, c.f, c.faulty, proof.Keys);
    InstanceRun(c, cbc, run, i);
    CorrectVoterBacks(c, d, cbc, run[i], v);
  }

  lemma FaultModelOf(c: Cfg)
    requires ValidCfg(c)
    ensures FaultModel(c.n, c.f, c.faulty)
  {
  }

  // A correct peer signs nothing but the proposal's hash.
  lemma MadeOver(c: C.Cfg, sys: C.Sys, v: int, sig: Sig)
    requires C.Inv(c, sys) && v in C.Correct(c) && Made(sys, v, sig)
    ensures sys.proposal.Some? && sig == Sig(v, c.sha(sys.proposal.value))
  {
    assert C.NodeInv(c, sys, v);
    var m :| m in sys.nodes[v].sent && ((m.Send? && m.sig == sig) || (m.Ack? && m.sig == sig));
    assert C.OwnMsg(c, sys, v, sys.nodes[v], m);
  }

  // ----- decisions for a candidate that follows the code -----

  // What p holds for the candidate came from its CBC instance, after the SEND: the
  // proof of a delivery, and the proposal p holds there.
  ghost predicate FromInstance(cbc: C.Cfg, sys: C.Sys, p: int, body: Body) {
    && p in C.Correct(cbc) && p in sys.nodes && sys.nodes[p].payload == Some(C.Qcs(body.qcs))
    && exists o :: o in sys.nodes[p].outs && o.sigs == body.proof
  }

  // So it is wherever a correct peer holds candidate x.
  ghost predicate AllFromInstance(c: Cfg, run: seq<Sys>, cbc: C.Cfg, cbcRun: seq<C.Sys>, x: int) {
    forall t: nat, p ::
      t < |run| && p in Correct(c) && p in run[t].nodes && x in run[t].nodes[p].epoch.cbcOuts ==>
        HeldFrom(cbc, cbcRun, p, run[t].nodes[p].epoch.cbcOuts[x])
  }

  ghost predicate HeldFrom(cbc: C.Cfg, cbcRun: seq<C.Sys>, p: int, body: Body) {
    exists l: nat :: l < |cbcRun| && FromInstance(cbc, cbcRun[l], p, body)
  }

  // A body from the instance is the candidate's proposal with its certificate.
  lemma InstanceBody(cbc: C.Cfg, cbcRun: seq<C.Sys>, l: nat, p: int, body: Body)
    requires C.ValidCfg(cbc) && C.IsRun(cbc, cbcRun) && l < |cbcRun| && FromInstance(cbc, cbcRun[l], p, body)
    ensures cbcRun[l].proposal == Some(C.Qcs(body.qcs)) && |body.proof| == 2 * cbc.f + 1
    ensures AllVerify(cbc.sha(C.Qcs(body.qcs)), body.proof) && cbc.from in cbcRun[l].nodes
    ensures C.Done(cbc.from, cbc.sha(C.Qcs(body.qcs)), body.proof) in cbcRun[l].nodes[cbc.from].sent
  {
    hide C.ValidCfg, C.IsRun, C.Inv;
    C.RunInv(cbc, cbcRun, l);
    BodyNow(cbc, cbcRun[l], p, body);
  }

  lemma BodyNow(cbc: C.Cfg, sys: C.Sys, p: int, body: Body)
    requires C.ValidCfg(cbc) && C.Inv(cbc, sys) && FromInstance(cbc, sys, p, body)
    ensures sys.proposal == Some(C.Qcs(body.qcs)) && |body.proof| == 2 * cbc.f + 1
    ensures AllVerify(cbc.sha(C.Qcs(body.qcs)), body.proof) && cbc.from in sys.nodes
    ensures C.Done(cbc.from, cbc.sha(C.Qcs(body.qcs)), body.proof) in sys.nodes[cbc.from].sent
  {
    hide C.OwnMsg, C.VotesInv;
    assert C.NodeInv(cbc, sys, p);
    var o :| o in sys.nodes[p].outs && o.sigs == body.proof;
    assert C.OutInv(cbc, sys, p, o);
    C.CertificateValidIff(cbc, sys, C.Done(cbc.from, C.Target(cbc, sys), o.sigs));
  }

  // The decision a correct peer broadcasts for a candidate that follows the code is
  // valid: 2f+1 signatures over the hash of its proposal, which is the candidate's.
  lemma DecisionCarries(c: Cfg, run: seq<Sys>, i: nat, p: int, d: Decision, cbc: C.Cfg, cbcRun: seq<C.Sys>)
    returns (l: nat)
    requires ValidCfg(c) && IsRun(c, run) && i < |run| && p in Correct(c) && p in run[i].nodes
    requires d in run[i].nodes[p].epoch.decisions && d != UNDELIVERED
    requires InstanceOf(c, cbc, d.producer) && C.IsRun(cbc, cbcRun) && AllFromInstance(c, run, cbc, cbcRun, d.producer)
    ensures l < |cbcRun| && FromInstance(cbc, cbcRun[l], p, d.body)
    ensures Validated(c.sha, d) && |d.body.proof| == 2 * c.f + 1 && cbcRun[l].proposal == Some(C.Qcs(d.body.qcs))
  {
    hide EpochSystem.ValidCfg, IsRun, C.ValidCfg, C.IsRun, FromInstance, Current;
    var t := DecisionHeld(c, run, i, p, d);
    assert HeldFrom(cbc, cbcRun, p, d.body) by { AtPoint(c, run, t, p, d.producer, cbc, cbcRun); }
    l :| l < |cbcRun| && FromInstance(cbc, cbcRun[l], p, d.body);
    InstanceBody(cbc, cbcRun, l, p, d.body);
  }

  lemma AtPoint(c: Cfg, run: seq<Sys>, t: nat, p: int, x: int, cbc: C.Cfg, cbcRun: seq<C.Sys>)
    requires AllFromInstance(c, run, cbc, cbcRun, x) && t < |run| && p in Correct(c) && p in run[t].nodes
    requires x in run[t].nodes[p].epoch.cbcOuts
    ensures HeldFrom(cbc, cbcRun, p, run[t].nodes[p].epoch.cbcOuts[x])
  {
    hide HeldFrom, Correct;
  }

  // Any two correct peers' decisions for it carry the same proposal and certificate.
  lemma DecisionsEqual(c: Cfg, run: seq<Sys>, i: nat, p: int, d: Decision, k: nat, q: int, e: Decision, cbc: C.Cfg,
                       cbcRun: seq<C.Sys>)
    requires ValidCfg(c) && IsRun(c, run) && i < |run| && p in Correct(c) && p in run[i].nodes
    requires k < |run| && q in Correct(c) && q in run[k].nodes && d.producer == e.producer
    requires d in run[i].nodes[p].epoch.decisions && e in run[k].nodes[q].epoch.decisions
    requires d != UNDELIVERED && e != UNDELIVERED
    requires InstanceOf(c, cbc, d.producer) && C.IsRun(cbc, cbcRun) && AllFromInstance(c, run, cbc, cbcRun, d.producer)
    ensures d.body == e.body
  {
    hide EpochSystem.ValidCfg, IsRun, C.ValidCfg, C.IsRun, C.Inv, FromInstance, AllFromInstance;
    var l := DecisionCarries(c, run, i, p, d, cbc, cbcRun);
    var m := DecisionCarries(c, run, k, q, e, cbc, cbcRun);
    InstanceBody(cbc, cbcRun, l, p, d.body);
    InstanceBody(cbc, cbcRun, m, q, e.body);
    var x, y := C.Done(cbc.from, cbc.sha(C.Qcs(d.body.qcs)), d.body.proof),
                C.Done(cbc.from, cbc.sha(C.Qcs(e.body.qcs)), e.body.proof);
    if l <= m {
      R.OneDoneEver(cbc, cbcRun, l, x, m, y);
      R.RunKeeps(cbc, cbcRun, l, m, cbc.from);
    } else {
      R.OneDoneEver(cbc, cbcRun, m, y, l, x);
      R.RunKeeps(cbc, cbcRun, m, l, cbc.from);
    }
  }
}
