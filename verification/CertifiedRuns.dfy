// What a certificate means between any two points of a run of a broadcast whose
// initiator follows the code.

module CertifiedRuns {
  import opened Certificates
  import opened Certified

  // What a peer has sent and delivered stays.
  lemma NodeKeeps(c: Cfg, nd: Node, id: int, m: Msg, accept: bool)
    ensures nd.sent <= Handle(c, nd, id, m, accept).sent && nd.outs <= Handle(c, nd, id, m, accept).outs
  {
  }

  lemma StepKeeps(c: Cfg, s: Sys, s': Sys, p: int)
    requires Steps(c, s, s') && p in s.nodes
    ensures p in s'.nodes && s.nodes[p].sent <= s'.nodes[p].sent && s.nodes[p].outs <= s'.nodes[p].outs
    ensures s.proposal.Some? ==> s'.proposal == s.proposal && s'.early == s.early
  {
    var step :| Next(c, s, step, s');
    if step.Deliver? && step.p == p {
      NodeKeeps(c, s.nodes[p], p, step.m, step.accept);
    }
  }

  lemma {:induction false} RunKeeps(c: Cfg, run: seq<Sys>, i: nat, j: nat, p: int)
    requires IsRun(c, run) && i <= j < |run| && p in run[i].nodes
    ensures p in run[j].nodes && run[i].nodes[p].sent <= run[j].nodes[p].sent
            && run[i].nodes[p].outs <= run[j].nodes[p].outs
    ensures run[i].proposal.Some? ==> run[j].proposal == run[i].proposal && run[j].early == run[i].early
    decreases j
  {
    hide Steps, Init;
    if i < j {
      assert Steps(c, run[j - 1], run[j]);
      RunKeeps(c, run, i, j - 1, p);
      StepKeeps(c, run[j - 1], run[j], p);
    }
  }

  // A correct initiator broadcasts at most one DONE, ever.
  lemma OneDoneEver(c: Cfg, run: seq<Sys>, i: nat, m: Msg, j: nat, m': Msg)
    requires ValidCfg(c) && IsRun(c, run) && i <= j < |run| && c.from in run[i].nodes && c.from in run[j].nodes
    requires m in run[i].nodes[c.from].sent && m' in run[j].nodes[c.from].sent && m.Done? && m'.Done?
    ensures m == m'
  {
    hide ValidCfg, IsRun, Inv;
    RunInv(c, run, j);
    RunKeeps(c, run, i, j, c.from);
    DoneOnce(c, run[j], m, m');
  }

  // A certificate implies availability: a DONE carries exactly 2f+1 voters over the
  // proposed hash, at least f+1 of which are correct peers that hold exactly the
  // proposal at every later point; and all signatures verify exactly when no vote
  // was accepted before the proposal was made.
  lemma CertificateEver(c: Cfg, run: seq<Sys>, i: nat, m: Msg, j: nat)
    requires ValidCfg(c) && IsRun(c, run) && i <= j < |run| && c.from in run[i].nodes
    requires m in run[i].nodes[c.from].sent && m.Done?
    ensures run[i].proposal.Some? && m.hash == c.sha(run[i].proposal.value) && |m.sigs| == 2 * c.f + 1
    ensures m.hash != ZERO ==> (AllVerify(m.hash, m.sigs) <==> run[i].early == {})
    ensures |m.sigs.Keys * Correct(c)| >= c.f + 1
    ensures forall v :: v in m.sigs.Keys * Correct(c) ==>
      v in run[j].nodes && run[j].nodes[v].payload == run[i].proposal && run[j].nodes[v].hash == m.hash
  {
    hide ValidCfg, IsRun, Inv, Correct;
    RunInv(c, run, i);
    RunInv(c, run, j);
    RunKeeps(c, run, i, j, c.from);
    CertificateValidIff(c, run[i], m);
    CertificateAvailability(c, run[j], m);
  }

  // Identical delivery: whenever two correct peers deliver with the payload in
  // hand, hash, certificate and payload are equal.
  lemma IdenticalEver(c: Cfg, run: seq<Sys>, i: nat, p: int, o: Output, j: nat, q: int, o': Output)
    requires ValidCfg(c) && IsRun(c, run) && i <= j < |run| && p in Correct(c) && q in Correct(c)
    requires p in run[i].nodes && q in run[j].nodes && o in run[i].nodes[p].outs && o' in run[j].nodes[q].outs
    requires o.payload.Some? && o'.payload.Some?
    ensures o == o'
  {
    hide ValidCfg, IsRun, Inv;
    RunInv(c, run, j);
    RunKeeps(c, run, i, j, p);
    IdenticalDelivery(c, run[j], p, o, q, o');
  }

  // A delivery rests on the proposal's certificate.
  lemma DeliveredEver(c: Cfg, run: seq<Sys>, i: nat, p: int, o: Output)
    requires ValidCfg(c) && IsRun(c, run) && i < |run| && p in Correct(c) && p in run[i].nodes
    requires o in run[i].nodes[p].outs && run[i].proposal.Some?
    requires c.kind == PB && c.sha(run[i].proposal.value) != ZERO
    ensures AllVerify(c.sha(run[i].proposal.value), o.sigs) && |o.sigs| == 2 * c.f + 1
    ensures o.hash == c.sha(run[i].proposal.value) <==> o.payload == run[i].proposal || p == c.from
  {
    hide ValidCfg, IsRun, Inv;
    RunInv(c, run, i);
    DeliveredHashIff(c, run[i], p, o);
  }

  // In PB, the delivery peer p makes on handling m carries the proposed hash exactly
  // when p holds a payload before that, or is the initiator.
  lemma DeliveryIff(c: Cfg, run: seq<Sys>, i: nat, p: int, m: Msg, accept: bool)
    requires ValidCfg(c) && IsRun(c, run) && i + 1 < |run| && Next(c, run[i], Deliver(p, m, accept), run[i + 1])
    requires p in Correct(c) && p in run[i].nodes && p in run[i + 1].nodes && c.kind == PB
    requires run[i].nodes[p].outs != run[i + 1].nodes[p].outs
    requires run[i].proposal.Some? ==> c.sha(run[i].proposal.value) != ZERO
    ensures run[i].proposal.Some? && |run[i + 1].nodes[p].outs| == |run[i].nodes[p].outs| + 1
    ensures var o := run[i + 1].nodes[p].outs[|run[i].nodes[p].outs|];
      o.hash == c.sha(run[i].proposal.value) <==> run[i].nodes[p].payload.Some? || p == c.from
  {
    hide ValidCfg, IsRun, Inv;
    RunInv(c, run, i);
    DeliveryStep(c, run[i], p, m, accept);
  }

  lemma DeliveryStep(c: Cfg, s: Sys, p: int, m: Msg, accept: bool)
    requires ValidCfg(c) && Inv(c, s) && p in Correct(c) && p in s.nodes && Available(c, s, m) && c.kind == PB
    requires s.nodes[p].outs != Handle(c, s.nodes[p], p, m, accept).outs
    requires s.proposal.Some? ==> c.sha(s.proposal.value) != ZERO
    ensures var nd := s.nodes[p];
      var outs := Handle(c, nd, p, m, accept).outs;
      && s.proposal.Some? && |outs| == |nd.outs| + 1
      && (outs[|nd.outs|].hash == c.sha(s.proposal.value) <==> nd.payload.Some? || p == c.from)
  {
    hide OutInv;
    assert NodeInv(c, s, p) && NodeInv(c, s, c.from);
    DoneIsOwn(c, s, m);
    assert OwnMsg(c, s, c.from, s.nodes[c.from], m);
  }

  // A SEND of the initiator gives the payload, for good: with SEND before DONE on
  // its link every delivery carries the proposed hash.
  lemma SendGivesPayload(c: Cfg, run: seq<Sys>, i: nat, p: int, m: Msg, j: nat)
    requires ValidCfg(c) && IsRun(c, run) && i < j < |run| && Next(c, run[i], Deliver(p, m, true), run[i + 1])
    requires p in Correct(c) && m.Send? && m.initiator == c.from
    ensures p in run[j].nodes && run[i].proposal.Some? && run[j].nodes[p].payload == run[i].proposal
  {
    hide ValidCfg, IsRun, Inv;
    RunInv(c, run, i);
    SendStep(c, run[i], p, m, run[i + 1]);
    if i + 1 < j {
      HoldersKeepEver(c, run, i + 1, j, p);
    }
  }

  lemma SendStep(c: Cfg, s: Sys, p: int, m: Msg, s': Sys)
    requires ValidCfg(c) && Inv(c, s) && Next(c, s, Deliver(p, m, true), s') && p in Correct(c)
    requires m.Send? && m.initiator == c.from
    ensures p in s'.nodes && s.proposal.Some? && s'.nodes[p].payload == s.proposal
  {
    hide OutInv;
    assert NodeInv(c, s, c.from);
    SendIsProposal(c, s, m);
    assert OwnMsg(c, s, c.from, s.nodes[c.from], m);
  }

  // Nothing is ever delivered once a vote was accepted before the proposal.
  lemma BlockedEver(c: Cfg, run: seq<Sys>, i: nat, j: nat, p: int)
    requires ValidCfg(c) && IsRun(c, run) && i <= j < |run| && p in Correct(c) && p in run[i].nodes
    requires run[i].early != {} && run[i].proposal.Some? && c.sha(run[i].proposal.value) != ZERO
    ensures p in run[j].nodes && run[j].nodes[p].outs == []
  {
    hide ValidCfg, IsRun, Inv;
    RunInv(c, run, j);
    RunKeeps(c, run, i, j, p);
    EarlyVoteBlocks(c, run[j], p);
  }
}
