// A broadcast whose initiator follows the code gets its certificate and delivers: what
// is handled is answered, between any two points of a run.

module CertifiedProgress {
  import opened Options
  import opened Quorum
  import opened Certificates
  import opened Certified
  import opened CertifiedRuns

  // The step from run[i] hands message m to peer p, with an accepting validation.
  ghost predicate Handles(c: Cfg, run: seq<Sys>, i: nat, p: int, m: Msg) {
    i + 1 < |run| && Next(c, run[i], Deliver(p, m, true), run[i + 1])
  }

  // The proposal is sent to everyone, signed.
  lemma ProposalSent(c: Cfg, run: seq<Sys>, i: nat, payload: Payload, j: nat)
    requires ValidCfg(c) && IsRun(c, run) && i < j < |run| && Next(c, run[i], Start(payload), run[i + 1])
    ensures run[j].proposal == Some(payload) && c.from in run[j].nodes
    ensures Send(c.from, payload, c.sha(payload), Sig(c.from, c.sha(payload))) in run[j].nodes[c.from].sent
  {
    hide ValidCfg, IsRun;
    RunKeeps(c, run, i + 1, j, c.from);
  }

  // A peer's vote for the proposal.
  function Vote(c: Cfg, s: Sys, p: int): Msg {
    Ack(Target(c, s), Sig(p, Target(c, s)), p)
  }

  // An accepted SEND of the initiator is acknowledged, in PB and in CBC: the vote for
  // the proposal is sent and stays sent.
  lemma SendAcked(c: Cfg, run: seq<Sys>, i: nat, p: int, m: Msg, j: nat)
    requires ValidCfg(c) && IsRun(c, run) && i < j < |run| && Handles(c, run, i, p, m)
    requires p in Correct(c) && m.Send? && m.initiator == c.from
    ensures run[j].proposal.Some? && p in run[j].nodes && Vote(c, run[j], p) in run[j].nodes[p].sent
  {
    hide ValidCfg, IsRun, Inv;
    RunInv(c, run, i);
    SendAckedNow(c, run[i], p, m, run[i + 1]);
    RunKeeps(c, run, i + 1, j, p);
  }

  lemma SendAckedNow(c: Cfg, s: Sys, p: int, m: Msg, s': Sys)
    requires ValidCfg(c) && Inv(c, s) && Next(c, s, Deliver(p, m, true), s') && p in Correct(c)
    requires m.Send? && m.initiator == c.from
    ensures s'.proposal.Some? && p in s'.nodes && Vote(c, s', p) in s'.nodes[p].sent
  {
    hide OutInv;
    assert NodeInv(c, s, p) && NodeInv(c, s, c.from);
    SendIsProposal(c, s, m);
    assert OwnMsg(c, s, c.from, s.nodes[c.from], m);
  }

  // Peer p has accepted a SEND of the initiator before run[j].
  ghost predicate Accepted(c: Cfg, run: seq<Sys>, p: int, j: int) {
    exists i: nat, m :: i < j && Handles(c, run, i, p, m) && m.Send? && m.initiator == c.from
  }

  lemma AcceptedStep(c: Cfg, run: seq<Sys>, p: int, j: nat, step: Step)
    requires j + 1 < |run| && Next(c, run[j], step, run[j + 1])
    ensures Accepted(c, run, p, j + 1) <==>
      Accepted(c, run, p, j) || exists m :: Handles(c, run, j, p, m) && m.Send? && m.initiator == c.from
  {
    hide Handles;
  }

  // A correct peer has a vote out, and holds a payload, exactly if it accepted a SEND;
  // only a candidate holds its own from the start.
  lemma {:induction false} AcceptedIff(c: Cfg, run: seq<Sys>, p: int, j: nat)
    requires ValidCfg(c) && IsRun(c, run) && p in Correct(c) && j < |run|
    ensures p in run[j].nodes
    ensures HasVoted(run[j].nodes[p]) <==> Accepted(c, run, p, j)
    ensures run[j].nodes[p].payload.Some? <==>
      Accepted(c, run, p, j) || (c.kind == CBC && p == c.from && run[j].proposal.Some?)
  {
    hide ValidCfg, Inv, Accepted, Init, Next;
    RunInv(c, run, j);
    InvNode(c, run[j], p);
    if j == 0 {
      NothingAccepted(c, run, p);
    } else {
      assert Steps(c, run[j - 1], run[j]);
      RunInv(c, run, j - 1);
      AcceptedIff(c, run, p, j - 1);
      var step :| Next(c, run[j - 1], step, run[j]);
      AcceptedStep(c, run, p, j - 1, step);
      if m :| Handles(c, run, j - 1, p, m) && m.Send? && m.initiator == c.from {
        SendAcked(c, run, j - 1, p, m, j);
        SendGivesPayload(c, run, j - 1, p, m, j);
        VotedBy(c, run[j], p);
      } else {
        NothingNew(c, run, p, j - 1, step);
      }
    }
  }

  ghost predicate HasVoted(nd: Node) {
    exists m :: m in nd.sent && m.Ack?
  }

  lemma VotedBy(c: Cfg, s: Sys, p: int)
    requires p in s.nodes && Vote(c, s, p) in s.nodes[p].sent
    ensures HasVoted(s.nodes[p])
  {
  }

  lemma InvNode(c: Cfg, s: Sys, p: int)
    requires Inv(c, s) && p in Correct(c)
    ensures p in s.nodes
  {
  }

  lemma NothingAccepted(c: Cfg, run: seq<Sys>, p: int)
    requires IsRun(c, run) && p in Correct(c)
    ensures p in run[0].nodes && !HasVoted(run[0].nodes[p]) && run[0].nodes[p].payload == None
    ensures !Accepted(c, run, p, 0) && run[0].proposal == None
  {
  }

  // A step that hands p no acceptable SEND leaves its votes and payload, unless p is a
  // candidate that starts.
  lemma NothingNew(c: Cfg, run: seq<Sys>, p: int, i: nat, step: Step)
    requires i + 1 < |run| && Next(c, run[i], step, run[i + 1]) && p in Correct(c) && p in run[i].nodes
    requires forall m :: !(Handles(c, run, i, p, m) && m.Send? && m.initiator == c.from)
    ensures p in run[i + 1].nodes && (HasVoted(run[i + 1].nodes[p]) <==> HasVoted(run[i].nodes[p]))
    ensures run[i + 1].nodes[p].payload.Some? <==>
      run[i].nodes[p].payload.Some? || (c.kind == CBC && p == c.from && step.Start?)
    ensures run[i + 1].proposal.Some? <==> run[i].proposal.Some? || step.Start?
  {
    var nd, nd' := run[i].nodes[p], run[i + 1].nodes[p];
    if step.Deliver? && step.p == p && step.m.Send? && step.m.initiator == c.from && step.accept {
      assert Handles(c, run, i, p, step.m);
    }
    assert nd'.sent == nd.sent || (exists m: Msg :: !m.Ack? && nd'.sent == nd.sent + {m});
    if m :| m in nd.sent && m.Ack? {
      assert m in nd'.sent;
    }
  }

  // A vote the initiator handles is counted, and stays.
  lemma VoteCounted(c: Cfg, s: Sys, p: int, s': Sys)
    requires ValidCfg(c) && Inv(c, s) && Next(c, s, Deliver(c.from, Vote(c, s, p), true), s') && s.proposal.Some?
    ensures c.from in s'.nodes && p in s'.nodes[c.from].sigs
  {
    hide OutInv, OwnMsg;
    assert NodeInv(c, s, c.from);
  }

  lemma {:induction false} VotesKept(c: Cfg, run: seq<Sys>, i: nat, j: nat)
    requires IsRun(c, run) && i <= j < |run| && c.from in run[i].nodes
    ensures c.from in run[j].nodes && run[i].nodes[c.from].sigs.Keys <= run[j].nodes[c.from].sigs.Keys
    decreases j
  {
    hide Init, Steps;
    if i < j {
      assert Steps(c, run[j - 1], run[j]);
      VotesKept(c, run, i, j - 1);
      VotesGrow(c, run[j - 1], run[j]);
    }
  }

  lemma VotesGrow(c: Cfg, s: Sys, s': Sys)
    requires Steps(c, s, s') && c.from in s.nodes
    ensures c.from in s'.nodes && s.nodes[c.from].sigs.Keys <= s'.nodes[c.from].sigs.Keys
  {
  }

  ghost predicate HasDone(nd: Node) {
    exists m :: m in nd.sent && m.Done?
  }

  // The initiator has sent a DONE exactly when it has 2f+1 votes.
  lemma {:induction false} DoneIff(c: Cfg, run: seq<Sys>, i: nat)
    requires ValidCfg(c) && IsRun(c, run) && i < |run|
    ensures c.from in run[i].nodes
    ensures |run[i].nodes[c.from].sigs| >= 2 * c.f + 1 <==> HasDone(run[i].nodes[c.from])
  {
    hide Init, Inv, ValidCfg, HasDone;
    RunInv(c, run, i);
    Present(c, run[i]);
    if i == 0 {
      NoDone(c, run[0]);
    } else {
      assert Steps(c, run[i - 1], run[i]);
      RunInv(c, run, i - 1);
      DoneIff(c, run, i - 1);
      DoneStep(c, run[i - 1], run[i]);
      if HasDone(run[i].nodes[c.from]) {
        DoneVotes(c, run[i]);
      }
    }
  }

  lemma Present(c: Cfg, s: Sys)
    requires Inv(c, s)
    ensures c.from in s.nodes
  {
  }

  lemma NoDone(c: Cfg, s: Sys)
    requires ValidCfg(c) && Init(c, s)
    ensures c.from in s.nodes && s.nodes[c.from].sigs == map[] && !HasDone(s.nodes[c.from])
  {
  }

  lemma DoneVotes(c: Cfg, s: Sys)
    requires Inv(c, s) && HasDone(s.nodes[c.from])
    ensures |s.nodes[c.from].sigs| >= 2 * c.f + 1
  {
  }

  lemma DoneStep(c: Cfg, s: Sys, s': Sys)
    requires Steps(c, s, s') && c.from in s.nodes
    requires |s.nodes[c.from].sigs| >= 2 * c.f + 1 ==> HasDone(s.nodes[c.from])
    ensures c.from in s'.nodes && (|s'.nodes[c.from].sigs| >= 2 * c.f + 1 ==> HasDone(s'.nodes[c.from]))
  {
    var step :| Next(c, s, step, s');
    var nd, nd' := s.nodes[c.from], s'.nodes[c.from];
    assert nd.sent <= nd'.sent;
    if |nd.sigs| >= 2 * c.f + 1 {
      var m :| m in nd.sent && m.Done?;
      assert m in nd'.sent;
    } else if |nd'.sigs| >= 2 * c.f + 1 {
      assert |nd'.sigs| == 2 * c.f + 1;
      assert Done(c.from, nd.hash, nd'.sigs) in nd'.sent;
    }
  }

  // Progress: where the initiator has handled the votes of all correct peers, its DONE
  // is sent, with 2f+1 votes over the proposed hash.
  lemma CertificateComes(c: Cfg, run: seq<Sys>, j: nat) returns (m: Msg)
    requires ValidCfg(c) && IsRun(c, run) && j < |run| && run[j].proposal.Some?
    requires forall p :: p in Correct(c) ==> exists i: nat :: i < j && Handles(c, run, i, c.from, Vote(c, run[j], p))
    ensures c.from in run[j].nodes && m in run[j].nodes[c.from].sent && m.Done? && m.initiator == c.from
    ensures m.hash == c.sha(run[j].proposal.value) && |m.sigs| == 2 * c.f + 1
  {
    hide ValidCfg, IsRun, Inv, Correct, Handles, HasDone;
    RunInv(c, run, j);
    Present(c, run[j]);
    forall p | p in Correct(c) ensures p in run[j].nodes[c.from].sigs {
      var i: nat :| i < j && Handles(c, run, i, c.from, Vote(c, run[j], p));
      HandledVote(c, run, i, p, j);
    }
    var sigs := run[j].nodes[c.from].sigs;
    SubsetCount(Correct(c), sigs.Keys);
    assert |sigs| == |sigs.Keys|;
    EnoughCorrect(c);
    DoneIff(c, run, j);
    m := TheDone(c, run[j]);
    CertificateValidIff(c, run[j], m);
  }

  lemma TheDone(c: Cfg, s: Sys) returns (m: Msg)
    requires ValidCfg(c) && Inv(c, s) && HasDone(s.nodes[c.from])
    ensures m in s.nodes[c.from].sent && m.Done? && m.initiator == c.from
  {
    m :| m in s.nodes[c.from].sent && m.Done?;
    assert NodeInv(c, s, c.from);
    assert OwnMsg(c, s, c.from, s.nodes[c.from], m);
  }

  lemma EnoughCorrect(c: Cfg)
    requires ValidCfg(c)
    ensures |Correct(c)| >= 2 * c.f + 1
  {
    CorrectAmong(c.n, c.f, c.faulty, Peers(c.n));
  }

  // A correct peer's vote for the proposal was sent after the proposal was made.
  lemma HandledVote(c: Cfg, run: seq<Sys>, i: nat, p: int, j: nat)
    requires ValidCfg(c) && IsRun(c, run) && i < j < |run| && p in Correct(c) && run[j].proposal.Some?
    requires Handles(c, run, i, c.from, Vote(c, run[j], p))
    ensures c.from in run[j].nodes && p in run[j].nodes[c.from].sigs
  {
    hide ValidCfg, IsRun, Inv, Correct;
    RunInv(c, run, i);
    VoteMade(c, run[i], p, Vote(c, run[j], p));
    RunKeeps(c, run, i, j, p);
    assert Vote(c, run[j], p) == Vote(c, run[i], p);
    VoteCounted(c, run[i], p, run[i + 1]);
    VotesKept(c, run, i + 1, j);
  }

  lemma VoteMade(c: Cfg, s: Sys, p: int, m: Msg)
    requires ValidCfg(c) && Inv(c, s) && Available(c, s, m) && m.Ack? && m.voter == p && p in Correct(c)
    ensures s.proposal.Some? && p in s.nodes
  {
    assert NodeInv(c, s, p);
    assert OwnMsg(c, s, p, s.nodes[p], m);
  }

  // Each correct peer that handles the DONE delivers, unless a vote was accepted
  // before the proposal was made: the certificate, with the proposal and its hash if
  // it holds it.
  lemma DoneDelivers(c: Cfg, run: seq<Sys>, i: nat, p: int, m: Msg)
    requires ValidCfg(c) && IsRun(c, run) && Handles(c, run, i, p, m) && p in Correct(c)
    requires m.Done? && m.initiator == c.from
    ensures p in run[i].nodes && p in run[i + 1].nodes && run[i].proposal.Some?
    ensures m.hash != ZERO && run[i].early != {} ==> run[i + 1].nodes[p].outs == run[i].nodes[p].outs
    ensures run[i].early == {} ==>
      exists o :: run[i + 1].nodes[p].outs == run[i].nodes[p].outs + [o] && o.sigs == m.sigs && |o.sigs| == 2 * c.f + 1
        && (run[i].nodes[p].payload.Some? ==> o.payload == run[i].proposal && o.hash == c.sha(run[i].proposal.value))
        && (c.kind == CBC ==> o.hash == c.sha(run[i].proposal.value))
  {
    hide ValidCfg, IsRun, Inv;
    RunInv(c, run, i);
    DoneDeliversNow(c, run[i], p, m, run[i + 1]);
  }

  lemma DoneDeliversNow(c: Cfg, s: Sys, p: int, m: Msg, s': Sys)
    requires ValidCfg(c) && Inv(c, s) && Next(c, s, Deliver(p, m, true), s') && p in Correct(c)
    requires m.Done? && m.initiator == c.from
    ensures p in s.nodes && p in s'.nodes && s.proposal.Some?
    ensures m.hash != ZERO && s.early != {} ==> s'.nodes[p].outs == s.nodes[p].outs
    ensures s.early == {} ==>
      exists o :: s'.nodes[p].outs == s.nodes[p].outs + [o] && o.sigs == m.sigs && |o.sigs| == 2 * c.f + 1
        && (s.nodes[p].payload.Some? ==> o.payload == s.proposal && o.hash == c.sha(s.proposal.value))
        && (c.kind == CBC ==> o.hash == c.sha(s.proposal.value))
  {
    hide OutInv;
    assert NodeInv(c, s, p) && NodeInv(c, s, c.from);
    DoneIsOwn(c, s, m);
    CertificateValidIff(c, s, m);
    if s.early == {} {
      DoneVerifies(c, s, m);
      var nd := s.nodes[p];
      var o := Output(if c.kind == CBC then m.hash else nd.hash, nd.payload, m.sigs);
      assert s'.nodes[p].outs == nd.outs + [o];
    }
  }

  lemma DoneVerifies(c: Cfg, s: Sys, m: Msg)
    requires ValidCfg(c) && Inv(c, s) && m in s.nodes[c.from].sent && m.Done? && s.early == {}
    ensures AllVerify(m.hash, m.sigs)
  {
    hide OutInv;
    assert NodeInv(c, s, c.from);
    assert OwnMsg(c, s, c.from, s.nodes[c.from], m);
  }

  // All together: a correct peer that accepted the SEND and then handles the DONE
  // delivers the proposal under its certificate.
  lemma AllDeliver(c: Cfg, run: seq<Sys>, a: nat, send: Msg, i: nat, done: Msg, p: int, j: nat)
    requires ValidCfg(c) && IsRun(c, run) && a < i < j < |run| && p in Correct(c) && run[i].early == {}
    requires Handles(c, run, a, p, send) && send.Send? && send.initiator == c.from
    requires Handles(c, run, i, p, done) && done.Done? && done.initiator == c.from
    ensures run[i].proposal.Some? && p in run[j].nodes
    ensures Output(c.sha(run[i].proposal.value), run[i].proposal, done.sigs) in run[j].nodes[p].outs
  {
    hide ValidCfg, IsRun, Inv, Correct;
    SendGivesPayload(c, run, a, p, send, i);
    DoneDelivers(c, run, i, p, done);
    RunKeeps(c, run, a, i, p);
    var outs, outs' := run[i].nodes[p].outs, run[i + 1].nodes[p].outs;
    assert outs'[|outs|] in outs';
    RunKeeps(c, run, i + 1, j, p);
  }

  // ----- initiators that do not follow the code -----

  // A receiver votes for every SEND it accepts, and holds the last: an initiator that
  // sends two payloads gets its vote for both.
  lemma TwoVotes(c: Cfg, nd: Node, id: int, t1: Payload, h1: Hash, t2: Payload, h2: Hash)
    requires c.kind == PB || id != c.from
    ensures var nd1 := Handle(c, nd, id, Send(c.from, t1, h1, Sig(c.from, h1)), true);
      var nd2 := Handle(c, nd1, id, Send(c.from, t2, h2, Sig(c.from, h2)), true);
      && nd2.sent == nd.sent + {Ack(h1, Sig(id, h1), id), Ack(h2, Sig(id, h2), id)}
      && nd2.payload == Some(t2) && nd2.hash == h2
  {
  }

  // A DONE is delivered exactly when it is the initiator's and each of its signatures
  // is its voter's own, however few they are.
  lemma AnySizeDelivers(c: Cfg, nd: Node, id: int, x: int, h: Hash, sigs: map<int, Sig>)
    ensures var outs := Handle(c, nd, id, Done(x, h, sigs), true).outs;
      if x == c.from && forall v :: v in sigs ==> sigs[v] == Sig(v, h)
      then outs == nd.outs + [Output(if c.kind == CBC then h else nd.hash, nd.payload, sigs)]
      else outs == nd.outs
    ensures x == c.from && sigs == map[] ==> |Handle(c, nd, id, Done(x, h, sigs), true).outs| == |nd.outs| + 1
  {
  }
}
