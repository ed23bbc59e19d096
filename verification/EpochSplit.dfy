// Why one committed producer needs lottery outputs in order, or a producer other
// than 0: a run with n = 4, f = 1 and peer 3 faulty, all coin shares in order, in
// which peer 0 outputs decisions for producers 1 and 0. Lottery 0 elects producer 0,
// which peers 0 and 1 reject, lottery 1 elects producer 1, which they accept; peer
// 2 handles lottery 1's output before lottery 0's and so names producer 0. With a
// faulty decision and an undelivered one, producer 0 has 2f+1 deciders too. The
// faulty decision for producer 1 is output with a proposal that nobody delivered.

module EpochSplit {
  import opened Options
  import opened Quorum
  import opened EpochNode
  import opened Certificates
  import opened EpochSystem
  import opened EpochRuns
  import opened EpochScenes
  import N = AbaNode
  import A = AbaSystem
  import W = AbaScenes

  // ----- the setting -----

  // One round with the certificates of peers 0, 1 and 2, as a path over the
  // threshold has it.
  const PATH: seq<seq<QuorumCert>> := [[Cert(0), Cert(1), Cert(2)]]

  function Cert(i: int): QuorumCert {
    QuorumCert(0, i, 5, map[0 := Sig(0, 5), 1 := Sig(1, 5), 2 := Sig(2, 5)])
  }

  const SETTING := Cfg(4, 1, {3}, (j: int) => ((r: int) => if j == 1 then 1 else 0),
                       (j: int) => if j == 1 then 1 else 0,
                       (q: seq<seq<QuorumCert>>) => if q == PATH then 7 else 8)

  // What a candidate that follows the code delivers: its path, with 2f+1 votes.
  const BODY := Body(map[0 := Sig(0, 7), 1 := Sig(1, 7), 2 := Sig(2, 7)], PATH)

  const WAITING: A.Sys := map[0 := N.FRESH, 1 := N.FRESH, 2 := N.FRESH]

  lemma SettingCorrect()
    ensures ValidCfg(SETTING) && EpochSystem.Correct(SETTING) == {0, 1, 2}
  {
    W.SmallCorrect(Instance(SETTING, 0));
    assert A.Correct(Instance(SETTING, 0)) == EpochSystem.Correct(SETTING);
  }

  lemma SettingIs()
    ensures Small(SETTING) && SETTING.n == 4 && (forall p :: p in {0, 1, 2} ==> W.Follows(4, p))
    ensures SETTING.lot(0) % 4 == 0 && SETTING.lot(1) % 4 == 1
    ensures SETTING.coin(0)(0) % 2 == 0 && SETTING.coin(1)(0) % 2 == 1
  {
  }

  // ----- the epochs of the peers on the way -----

  const LOTTERIES: set<int> := {0, 1}

  // With peers 1, 2 and 3 delivered: the share for lottery 0 is out.
  const READY := Epoch(map[1 := BODY, 2 := BODY, 3 := BODY], 0, 0, {0}, {})

  const REJECTED := READY.(lotteryTimes := 1, shares := {0, 1})

  const ELECTED := REJECTED.(currProducer := 1)

  // Peer 2, with candidates 0 and 1, handles lottery 1 before lottery 0.
  const LATE := Epoch(map[0 := BODY, 1 := BODY], 0, 0, {}, {})

  const LATE_ONE := LATE.(currProducer := 1)

  function Naming(p: int): Decision {
    Decision(1, p, true, BODY)
  }

  lemma Delivered()
    ensures HandleCbcOut(HandleCbcOut(HandleCbcOut(START, 1, 1, BODY), 1, 2, BODY), 1, 3, BODY) == READY
    ensures HandleCbcOut(HandleCbcOut(START, 1, 0, BODY), 1, 1, BODY) == LATE
  {
    var m1, m2, l1, l2 := map[1 := BODY], map[1 := BODY, 2 := BODY], map[0 := BODY], LATE.cbcOuts;
    assert m1.Keys == {1} && m2.Keys == {1, 2} && READY.cbcOuts.Keys == {1, 2, 3};
    assert |m1| == |m1.Keys| && |m2| == |m2.Keys| && |READY.cbcOuts| == |READY.cbcOuts.Keys|;
    assert l1.Keys == {0} && l2.Keys == {0, 1} && |l1| == |l1.Keys| && |l2| == |l2.Keys|;
    assert HandleCbcOut(START, 1, 1, BODY) == Epoch(m1, 0, 0, {}, {});
    assert HandleCbcOut(Epoch(m1, 0, 0, {}, {}), 1, 2, BODY) == Epoch(m2, 0, 0, {}, {});
    assert HandleCbcOut(START, 1, 0, BODY) == Epoch(l1, 0, 0, {}, {});
  }

  lemma Early(p: int)
    ensures READY.(currProducer := 0) == READY && AbaInput(READY, 0) == 0 && 0 in READY.shares
    ensures HandleAbaOut(READY, p, 0) == REJECTED && AbaInput(REJECTED, 1) == 1 && 1 in REJECTED.shares
    ensures REJECTED.(currProducer := 1) == ELECTED && 0 in ELECTED.shares && 1 in ELECTED.shares
    ensures HandleAbaOut(ELECTED, p, 1) == ELECTED.(decisions := {Naming(p)})
    ensures ELECTED.cbcOuts == READY.cbcOuts
  {
  }

  lemma Later()
    ensures AbaInput(LATE, 1) == 1 && LATE.(currProducer := 1) == LATE_ONE
    ensures AbaInput(LATE_ONE, 0) == 1 && LATE_ONE.(currProducer := 0) == LATE
    ensures HandleAbaOut(LATE, 2, 1) == LATE.(decisions := {OTHER})
  {
  }

  // ----- the run -----

  lemma Started() returns (s: Sys)
    ensures Arises(SETTING, s) && s.abas == [WAITING, WAITING, WAITING, WAITING] && s.nodes.Keys == {0, 1, 2}
    ensures forall p :: p in {0, 1, 2} ==> Has(s.nodes[p], START, LOTTERIES)
  {
    hide N.FRESH, Arises;
    s := Sys(map[0 := IDLE, 1 := IDLE, 2 := IDLE], [WAITING, WAITING, WAITING, WAITING]);
    StartArises(SETTING, s);
  }

  ghost predicate Hold(s: Sys, x: Epoch, y: Epoch, z: Epoch, todo: set<int>, late: set<int>) {
    && s.nodes.Keys == {0, 1, 2} && |s.abas| == 4
    && Has(s.nodes[0], x, todo) && Has(s.nodes[1], y, todo) && Has(s.nodes[2], z, late) && s.nodes[0].epoch == x
  }

  lemma Prepared() returns (s: Sys)
    ensures Arises(SETTING, s) && Hold(s, READY, READY, LATE, LOTTERIES, LOTTERIES)
    ensures s.abas == [WAITING, WAITING, WAITING, WAITING]
  {
    hide Arises, HandleCbcOut, Has;
    Delivered();
    s := Started();
    s := Candidates(s, 0);
    s := Candidates(s, 1);
    s := Delivers(SETTING, s, 2, 0, BODY, START, LOTTERIES);
    s := Delivers(SETTING, s, 2, 1, BODY, HandleCbcOut(START, 1, 0, BODY), LOTTERIES);
  }

  // Candidates 1, 2 and 3 are delivered at p.
  lemma Candidates(s: Sys, p: int) returns (s': Sys)
    requires Arises(SETTING, s) && p in {0, 1} && p in s.nodes && Has(s.nodes[p], START, LOTTERIES)
    ensures Arises(SETTING, s') && p in s'.nodes && s' == Sys(s.nodes[p := s'.nodes[p]], s.abas)
    ensures Has(s'.nodes[p], READY, LOTTERIES) && s'.nodes[p].epoch == READY
  {
    hide Arises, HandleCbcOut, Has;
    Delivered();
    var e1 := HandleCbcOut(START, 1, 1, BODY);
    s' := Delivers(SETTING, s, p, 1, BODY, START, LOTTERIES);
    s' := Delivers(SETTING, s', p, 2, BODY, e1, LOTTERIES);
    s' := Delivers(SETTING, s', p, 3, BODY, HandleCbcOut(e1, 1, 2, BODY), LOTTERIES);
  }

  // Instance 0 rejects producer 0 at peers 0 and 1.
  lemma Rejection(s: Sys) returns (s': Sys)
    requires Arises(SETTING, s) && Hold(s, READY, READY, LATE, LOTTERIES, LOTTERIES)
    requires s.abas == [WAITING, WAITING, WAITING, WAITING]
    ensures Arises(SETTING, s') && Hold(s', REJECTED, REJECTED, LATE, {1}, LOTTERIES)
    ensures s'.abas == [s'.abas[0], WAITING, WAITING, WAITING] && 2 in s'.abas[0] && s'.abas[0][2] == N.FRESH
  {
    hide Arises, Has, Given, AboutTo, READY, REJECTED, N.FRESH, W.Group, AbaInput, HandleAbaOut,
      SETTING, Small, W.Follows, START;
    SettingIs();
    Early(0);
    Early(1);
    assert LOTTERIES - {0} == {1};
    s' := Draws(SETTING, s, 0, 0, 0, 0, 0, READY, LOTTERIES);
    s' := Draws(SETTING, s', 1, 0, 0, 0, 0, READY, LOTTERIES);
    W.PairGroup(Instance(SETTING, 0));
    var ps := [0, 1];
    s' := Tosses(SETTING, s', 0, ps, 0);
    assert ps[0] in ps && ps[1] in ps && 2 !in ps;
    s' := Outputs(SETTING, s', 0, 0, 0, READY, {1});
    s' := Outputs(SETTING, s', 1, 0, 0, READY, {1});
  }

  // Lottery 1 elects producer 1 at peers 0 and 1.
  lemma Election(s: Sys) returns (s': Sys)
    requires Arises(SETTING, s) && Hold(s, REJECTED, REJECTED, LATE, {1}, LOTTERIES)
    requires s.abas == [s.abas[0], WAITING, WAITING, WAITING]
    ensures Arises(SETTING, s') && Hold(s', ELECTED, ELECTED, LATE, {}, LOTTERIES) && s'.abas[0] == s.abas[0]
    ensures s'.abas[1] == map[0 := Given(SETTING, 1, 0, 1), 1 := Given(SETTING, 1, 1, 1), 2 := N.FRESH]
  {
    hide Arises, Has, Given, REJECTED, ELECTED, LATE, N.FRESH, AbaInput, SETTING, Small, W.Follows, START;
    SettingIs();
    Early(0);
    assert {1} - {1} == {};
    s' := Draws(SETTING, s, 0, 1, 0, 1, 1, REJECTED, {1});
    s' := Draws(SETTING, s', 1, 1, 0, 1, 1, REJECTED, {1});
  }

  // At peer 2 it does before lottery 0 elects producer 0.
  lemma OutOfOrder(s: Sys) returns (s': Sys)
    requires Arises(SETTING, s) && Hold(s, ELECTED, ELECTED, LATE, {}, LOTTERIES)
    requires 2 in s.abas[0] && s.abas[0][2] == N.FRESH && 2 in s.abas[1] && s.abas[1][2] == N.FRESH
    ensures Arises(SETTING, s') && Hold(s', ELECTED, ELECTED, LATE, {}, {})
    ensures s'.abas[1] == s.abas[1][2 := Given(SETTING, 1, 2, 1)]
  {
    hide Arises, Has, Given, ELECTED, LATE, LATE_ONE, N.FRESH, AbaInput, SETTING, Small, W.Follows, START;
    SettingIs();
    Early(0);
    Later();
    assert LOTTERIES - {1} == {0} && {0} - {0} == {};
    s' := Draws(SETTING, s, 2, 1, 0, 1, 1, LATE, LOTTERIES);
    s' := Draws(SETTING, s', 2, 0, 0, 0, 1, LATE_ONE, {0});
  }

  lemma ThreeGroup()
    ensures W.Group(Instance(SETTING, 1), [0, 1, 2])
  {
    var ps := [0, 1, 2];
    assert (set x | x in ps) == {0, 1, 2} && |{0, 1, 2}| == 3;
    assert ps[..2] == [0, 1] && ps[..2][..1] == [0] && Distinct(ps[..2]);
  }

  // Instance 1 accepts producer 1 everywhere; peers 0 and 1 name producer 1, and
  // peer 2 names producer 0.
  lemma Acceptance(s: Sys) returns (s': Sys)
    requires Arises(SETTING, s) && Hold(s, ELECTED, ELECTED, LATE, {}, {})
    requires s.abas[1] == map[0 := Given(SETTING, 1, 0, 1), 1 := Given(SETTING, 1, 1, 1), 2 := Given(SETTING, 1, 2, 1)]
    ensures Arises(SETTING, s')
    ensures Hold(s', ELECTED.(decisions := {Naming(0)}), ELECTED.(decisions := {Naming(1)}),
                 LATE.(decisions := {OTHER}), {}, {})
  {
    hide Arises, Has, Given, AboutTo, ELECTED, LATE, W.Group, HandleAbaOut, SETTING, Small, W.Follows, START;
    SettingIs();
    Early(0);
    Early(1);
    Later();
    ThreeGroup();
    var ps := [0, 1, 2];
    s' := Tosses(SETTING, s, 1, ps, 1);
    assert ps[0] in ps && ps[1] in ps && ps[2] in ps;
    s' := Outputs(SETTING, s', 0, 1, 1, ELECTED, {});
    s' := Outputs(SETTING, s', 1, 1, 1, ELECTED, {});
    s' := Outputs(SETTING, s', 2, 1, 1, LATE, {});
  }

  // ----- the decisions at peer 0 -----

  const OTHER := Decision(0, 2, true, BODY)
  const FORGED := Decision(0, 3, true, BODY)

  // The faulty peer's decision for producer 1: an empty proposal with its own vote.
  const FAKE := Decision(1, 3, true, Body(map[3 := Sig(3, 8)], []))

  // Naming producer 1: peers 0, 1 and 3. Naming producer 0: peers 2 and 3, and the
  // undelivered decision under sender 0.
  const ONE := Keep(Keep(Keep(Blank, Naming(0)), Naming(1)), FAKE)
  const BOTH := Keep(Keep(Keep(ONE, OTHER), UNDELIVERED), FORGED)

  lemma OneDeciders()
    ensures Deciders(ONE.rest.rest, 1) == {0} && Deciders(ONE.rest, 1) == {0, 1} && Deciders(ONE, 1) == {0, 1, 3}
    ensures Deciders(ONE, 0) == {} == Deciders(Blank, 1)
    ensures Kept(ONE.rest.rest) == {Naming(0)} && Kept(ONE.rest) == {Naming(0), Naming(1)}
    ensures Naming(0) in Kept(ONE) && FAKE in Kept(ONE)
  {
    assert Deciders(ONE.rest.rest, 0) == {} && Deciders(ONE.rest, 0) == {};
  }

  lemma BothDeciders()
    ensures Deciders(BOTH.rest.rest, 1) == Deciders(BOTH.rest, 1) == {0, 1, 3}
    ensures Deciders(BOTH.rest.rest, 0) == {2} && Deciders(BOTH.rest, 0) == {2, 0} && Deciders(BOTH, 0) == {2, 0, 3}
    ensures Naming(0) in Kept(BOTH.rest.rest) && Naming(0) in Kept(BOTH.rest) && OTHER in Kept(BOTH)
  {
    hide Kept;
    OneDeciders();
    KeptGrows(ONE, OTHER);
    KeptGrows(BOTH.rest.rest, UNDELIVERED);
    KeptGrows(BOTH.rest, FORGED);
  }

  lemma AllValid()
    ensures Validated(SETTING.sha, Naming(0)) && Validated(SETTING.sha, OTHER) && Validated(SETTING.sha, FAKE)
    ensures SETTING.sha(PATH) == 7 && SETTING.sha([]) == 8 && SETTING.f == 1
  {
  }

  lemma Answers()
    ensures Answer(SETTING, Blank, Naming(0), None)
    ensures Answer(SETTING, ONE.rest.rest, Naming(1), None)
    ensures Answer(SETTING, ONE.rest, FAKE, Some(FAKE))
  {
    hide Validated;
    AllValid();
    OneDeciders();
    assert |{0}| == 1 && |{0, 1}| == 2 && |{0, 1, 3}| == 3;
  }

  lemma MoreAnswers()
    ensures Answer(SETTING, ONE, OTHER, Some(Naming(0)))
    ensures Answer(SETTING, BOTH.rest.rest, UNDELIVERED, Some(Naming(0)))
    ensures Answer(SETTING, BOTH.rest, FORGED, Some(OTHER))
  {
    hide Deciders, Kept, Validated;
    AllValid();
    OneDeciders();
    BothDeciders();
    assert |{0, 1, 3}| == 3 && |{2, 0, 3}| == 3;
  }

  // Peer 0 outputs decisions for producer 1, and then one for producer 0.
  lemma Commits(s: Sys) returns (s': Sys)
    requires Arises(SETTING, s) && 0 in s.nodes && 1 in s.nodes && 2 in s.nodes && s.nodes[0].record == Blank
    requires Naming(0) in s.nodes[0].epoch.decisions && Naming(1) in s.nodes[1].epoch.decisions
    requires OTHER in s.nodes[2].epoch.decisions
    ensures Arises(SETTING, s') && 0 in s'.nodes && s' == Sys(s.nodes[0 := s'.nodes[0]], s.abas)
    ensures s'.nodes[0].epoch == s.nodes[0].epoch && DecisionOut(FAKE) in s'.nodes[0].log
    ensures DecisionOut(Naming(0)) in s'.nodes[0].log && DecisionOut(OTHER) in s'.nodes[0].log
  {
    hide Arises, Answer, Deciders;
    OneDeciders();
    BothDeciders();
    Answers();
    MoreAnswers();
    s' := Records(SETTING, s, 0, Naming(0), None, Blank);
    assert Naming(1) in s'.nodes[1].epoch.decisions;
    s' := Records(SETTING, s', 0, Naming(1), None, ONE.rest.rest);
    s' := Records(SETTING, s', 0, FAKE, Some(FAKE), ONE.rest);
    assert OTHER in s'.nodes[2].epoch.decisions;
    s' := Records(SETTING, s', 0, OTHER, Some(Naming(0)), ONE);
    s' := Records(SETTING, s', 0, UNDELIVERED, Some(Naming(0)), BOTH.rest.rest);
    s' := Records(SETTING, s', 0, FORGED, Some(OTHER), BOTH.rest);
  }

  // The run, up to peer 0's last output.
  lemma Split() returns (s: Sys)
    ensures Arises(SETTING, s) && 0 in s.nodes && 1 in s.nodes && 2 in s.nodes
    ensures DecisionOut(FAKE) in s.nodes[0].log && DecisionOut(Naming(0)) in s.nodes[0].log
    ensures DecisionOut(OTHER) in s.nodes[0].log
    ensures s.nodes[0].epoch.cbcOuts == s.nodes[1].epoch.cbcOuts == READY.cbcOuts
    ensures s.nodes[2].epoch.cbcOuts == LATE.cbcOuts
  {
    hide Arises, Given, READY, REJECTED, ELECTED, LATE, N.FRESH;
    Early(0);
    s := Prepared();
    s := Rejection(s);
    s := Election(s);
    s := OutOfOrder(s);
    s := Acceptance(s);
    s := Commits(s);
  }

  // A correct peer has put decision outputs for two producers on its channel.
  ghost predicate TwoProducers(c: Cfg, run: seq<Sys>) {
    run != [] && exists p: int, d: Decision, e: Decision ::
      && p in Correct(c) && p in run[|run| - 1].nodes && d.producer != e.producer
      && DecisionOut(d) in run[|run| - 1].nodes[p].log && DecisionOut(e) in run[|run| - 1].nodes[p].log
  }

  // With lottery outputs out of order and producer 0 elected, decisions for two
  // producers are output, at n = 3f+1 and with every coin share in order.
  lemma OutOfOrderOutputsTwo()
    ensures exists c: Cfg, run: seq<Sys> ::
      ValidCfg(c) && c.n == 3 * c.f + 1 && IsOrdered(c, run) && TwoProducers(c, run)
  {
    hide IsOrdered, EpochSystem.Correct, Arises;
    SettingCorrect();
    var s := Split();
    var run := ArisesRun(SETTING, s);
    assert TwoProducers(SETTING, run);
  }

  // A correct peer p has put a decision output on its channel whose proof has 1 to
  // f voters, and whose proposal no correct peer has delivered from any candidate.
  ghost predicate ProposalOfNobody(c: Cfg, run: seq<Sys>, p: int, d: Decision) {
    && run != [] && p in Correct(c)
    && var s := run[|run| - 1];
       && p in s.nodes && DecisionOut(d) in s.nodes[p].log && 1 <= |d.body.proof| <= c.f
       && d.producer in s.nodes[p].epoch.cbcOuts
       && c.sha(s.nodes[p].epoch.cbcOuts[d.producer].qcs) != c.sha(d.body.qcs)
       && forall q, x :: q in Correct(c) && q in s.nodes && x in s.nodes[q].epoch.cbcOuts ==>
            s.nodes[q].epoch.cbcOuts[x].qcs != d.body.qcs
  }

  // validate does not look at how many voters a proof has: the faulty peer's vote
  // alone lets its own proposal out.
  lemma FaultyProposalOutput()
    ensures exists c: Cfg, run: seq<Sys>, p: int, d: Decision ::
      ValidCfg(c) && IsOrdered(c, run) && ProposalOfNobody(c, run, p, d)
  {
    hide IsOrdered, EpochSystem.Correct, Arises;
    SettingCorrect();
    var s := Split();
    var run := ArisesRun(SETTING, s);
    NobodysProposal(run);
  }

  lemma NobodysProposal(run: seq<Sys>)
    requires run != [] && EpochSystem.Correct(SETTING) == {0, 1, 2}
    requires var s := run[|run| - 1];
      && 0 in s.nodes && 1 in s.nodes && 2 in s.nodes && DecisionOut(FAKE) in s.nodes[0].log
      && s.nodes[0].epoch.cbcOuts == s.nodes[1].epoch.cbcOuts == READY.cbcOuts
      && s.nodes[2].epoch.cbcOuts == LATE.cbcOuts
    ensures ProposalOfNobody(SETTING, run, 0, FAKE)
  {
    hide EpochSystem.Correct, SETTING;
    AllValid();
    var m := FAKE.body.proof;
    assert m.Keys == {3} && |m| == |m.Keys|;
  }
}
