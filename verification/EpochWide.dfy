// Why the quorum argument needs n + |faulty| <= 4f+1: a run with n = 5, f = 1 and
// peer 3 faulty, all coin shares in order, in which peer 0 outputs decisions for
// producers 2 and 1, neither of them 0. Lotteries 0 and 1 elect producer 1, whose
// proposal comes late, and lottery 2 elects producer 2, which is accepted. Peer 2
// handles lottery 1's output last, peer 4 lottery 0's, so both name producer 1; peers
// 0 and 1 name producer 2, and the faulty peer names both.

module EpochWide {
  import opened Options
  import opened Quorum
  import opened EpochNode
  import opened Certificates
  import opened EpochSystem
  import opened EpochRuns
  import opened EpochScenes
  import N = AbaNode
  import A = AbaSystem
  import W = AbaScenes

  // ----- the setting -----

  // One round with n-f certificates.
  const PATH: seq<seq<QuorumCert>> := [[Cert(0), Cert(1), Cert(2), Cert(4)]]

  function Cert(i: int): QuorumCert {
    QuorumCert(0, i, 5, map[0 := Sig(0, 5), 1 := Sig(1, 5), 2 := Sig(2, 5)])
  }

  const SETTING := Cfg(5, 1, {3}, (j: int) => ((r: int) => if j == 2 then 1 else 0),
                       (j: int) => if j == 2 then 2 else 1,
                       (q: seq<seq<QuorumCert>>) => if q == PATH then 7 else 8)

  const BODY := Body(map[0 := Sig(0, 7), 1 := Sig(1, 7), 2 := Sig(2, 7)], PATH)

  const WAITING: A.Sys := map[0 := N.FRESH, 1 := N.FRESH, 2 := N.FRESH, 4 := N.FRESH]

  const ALL_WAITING := [WAITING, WAITING, WAITING, WAITING, WAITING]

  const LOTTERIES: set<int> := {0, 1, 2}

  lemma SettingIs()
    ensures Small(SETTING) && SETTING.n == 5 && (forall p :: p in {0, 1, 2, 4} ==> W.Follows(5, p))
    ensures SETTING.lot(0) % 5 == 1 && SETTING.lot(1) % 5 == 1 && SETTING.lot(2) % 5 == 2
    ensures SETTING.coin(0)(0) % 2 == 0 && SETTING.coin(1)(0) % 2 == 0 && SETTING.coin(2)(0) % 2 == 1
  {
  }

  // ----- the epochs of the peers on the way -----

  // Peer 0, with candidates 2, 3 and 4: at the start, and after lotteries 0, 1 and 2.
  const LEAD := Epoch(map[2 := BODY, 3 := BODY, 4 := BODY], 0, 0, {0}, {})
  const LEAD_ZERO := LEAD.(currProducer := 1, lotteryTimes := 1, shares := {0, 1})
  const LEAD_ONE := LEAD.(currProducer := 1, lotteryTimes := 2, shares := {0, 1, 2})
  const LEAD_TWO := LEAD_ONE.(currProducer := 2)

  // The others, with candidate 2, and peers 2 and 4 later with candidate 1.
  const HOLD := Epoch(map[2 := BODY], 0, 0, {}, {})
  const HOLD_ONE := HOLD.(currProducer := 1)
  const HOLD_TWO := HOLD.(currProducer := 2)
  const CATCH_ONE := HOLD_ONE.(cbcOuts := map[2 := BODY, 1 := BODY])
  const CATCH_TWO := CATCH_ONE.(currProducer := 2)

  function Naming(producer: int, p: int): Decision {
    Decision(producer, p, true, BODY)
  }

  lemma Delivered()
    ensures HandleCbcOut(START, 1, 2, BODY) == HOLD
    ensures HandleCbcOut(HandleCbcOut(HOLD, 1, 3, BODY), 1, 4, BODY) == LEAD
    ensures HandleCbcOut(HOLD_ONE, 1, 1, BODY) == CATCH_ONE
  {
    var m1, m2, m3, m4 := HOLD.cbcOuts, map[2 := BODY, 3 := BODY], LEAD.cbcOuts, CATCH_ONE.cbcOuts;
    assert m1.Keys == {2} && m2.Keys == {2, 3} && m3.Keys == {2, 3, 4} && m4.Keys == {2, 1};
    assert |m1| == |m1.Keys| && |m2| == |m2.Keys| && |m3| == |m3.Keys| && |m4| == |m4.Keys|;
    assert HandleCbcOut(HOLD, 1, 3, BODY) == Epoch(m2, 0, 0, {}, {});
  }

  lemma Leader()
    ensures AbaInput(LEAD, 1) == 0 && 0 in LEAD.shares
    ensures HandleAbaOut(LEAD.(currProducer := 1), 0, 0) == LEAD_ZERO
    ensures AbaInput(LEAD_ZERO, 1) == 0 && 1 in LEAD_ZERO.shares
    ensures HandleAbaOut(LEAD_ZERO.(currProducer := 1), 0, 0) == LEAD_ONE
    ensures AbaInput(LEAD_ONE, 2) == 1 && 2 in LEAD_ONE.shares && LEAD_ONE.(currProducer := 2) == LEAD_TWO
    ensures 0 in LEAD_TWO.shares && 1 in LEAD_TWO.shares && 2 in LEAD_TWO.shares
    ensures Naming(2, 0) in HandleAbaOut(LEAD_TWO, 0, 1).decisions
  {
    var e := LEAD.(currProducer := 1);
    assert HandleAbaOut(e, 0, 0).shares == {0} + {1} == {0, 1};
    assert HandleAbaOut(LEAD_ZERO, 0, 0).shares == {0, 1} + {2} == {0, 1, 2};
  }

  lemma Others(p: int)
    ensures AbaInput(HOLD, 1) == AbaInput(HOLD_ONE, 1) == 0 && AbaInput(HOLD_ONE, 2) == 1
    ensures HOLD.(currProducer := 1) == HOLD_ONE == HOLD_ONE.(currProducer := 1)
    ensures HOLD_ONE.(currProducer := 2) == HOLD_TWO && Naming(2, p) in HandleAbaOut(HOLD_TWO, p, 1).decisions
    ensures AbaInput(CATCH_ONE, 2) == AbaInput(CATCH_TWO, 1) == 1
    ensures CATCH_ONE.(currProducer := 2) == CATCH_TWO && CATCH_TWO.(currProducer := 1) == CATCH_ONE
    ensures Naming(1, p) in HandleAbaOut(CATCH_ONE, p, 1).decisions
  {
  }

  // ----- the run -----

  ghost predicate Shape(s: Sys) {
    0 in s.nodes && 1 in s.nodes && 2 in s.nodes && 4 in s.nodes && |s.abas| == 5
  }

  // Peer 0 leads and peer 1 holds candidate 2.
  ghost predicate Pair(s: Sys, x: Epoch, y: Epoch, todo: set<int>) {
    Shape(s) && Has(s.nodes[0], x, todo) && s.nodes[0].epoch == x && Has(s.nodes[1], y, todo)
  }

  lemma Started() returns (s: Sys)
    ensures Arises(SETTING, s) && Shape(s) && s.abas == ALL_WAITING
    ensures forall p :: p in {0, 1, 2, 4} ==> Has(s.nodes[p], START, LOTTERIES)
  {
    hide N.FRESH, Arises;
    s := Sys(map[0 := IDLE, 1 := IDLE, 2 := IDLE, 4 := IDLE], ALL_WAITING);
    StartArises(SETTING, s);
  }

  lemma Prepared() returns (s: Sys)
    ensures Arises(SETTING, s) && Pair(s, LEAD, HOLD, LOTTERIES) && s.abas == ALL_WAITING
    ensures Has(s.nodes[2], HOLD, LOTTERIES) && Has(s.nodes[4], HOLD, LOTTERIES)
  {
    hide Arises, HandleCbcOut, Has, SETTING, Small, W.Follows, START, HOLD, LEAD, N.FRESH, ALL_WAITING;
    SettingIs();
    Delivered();
    s := Started();
    s := Delivers(SETTING, s, 0, 2, BODY, START, LOTTERIES);
    s := Delivers(SETTING, s, 0, 3, BODY, HOLD, LOTTERIES);
    s := Delivers(SETTING, s, 0, 4, BODY, HandleCbcOut(HOLD, 1, 3, BODY), LOTTERIES);
    s := Delivers(SETTING, s, 1, 2, BODY, START, LOTTERIES);
    s := Delivers(SETTING, s, 2, 2, BODY, START, LOTTERIES);
    s := Delivers(SETTING, s, 4, 2, BODY, START, LOTTERIES);
  }

  lemma Groups()
    ensures forall j :: W.Group(Instance(SETTING, j), [0, 1, 2]) && W.Group(Instance(SETTING, j), [0, 1, 4])
    ensures forall j :: W.Group(Instance(SETTING, j), [0, 1, 2, 4])
  {
    var ps, qs, all := [0, 1, 2], [0, 1, 4], [0, 1, 2, 4];
    assert (set x | x in ps) == {0, 1, 2} && |{0, 1, 2}| == 3;
    assert (set x | x in qs) == {0, 1, 4} && |{0, 1, 4}| == 3;
    assert (set x | x in all) == {0, 1, 2, 4} && |{0, 1, 2, 4}| == 4;
    assert ps[..2] == qs[..2] == [0, 1] && [0, 1][..1] == [0] && all[..3] == ps;
    assert Distinct([0, 1]) && Distinct(ps) && Distinct(qs) && Distinct(all);
  }

  // Peers 0, 1 and p have given 0 to instance j, and peer q nothing yet.
  ghost predicate Doubted(t: A.Sys, j: int, p: int, q: int) {
    && 0 in t && 1 in t && p in t && t[0] == Given(SETTING, j, 0, 0) && t[1] == Given(SETTING, j, 1, 0)
    && t[p] == Given(SETTING, j, p, 0) && q in t && t[q] == N.FRESH
  }

  // Lottery j = 0 or 1 elects producer 1 at peers 0, 1 and p.
  lemma Rejectable(s: Sys, j: int, p: int, q: int, x: Epoch, y: Epoch, todo: set<int>) returns (s': Sys)
    requires Arises(SETTING, s) && j in {0, 1} && ((p == 2 && q == 4) || (p == 4 && q == 2)) && j in todo
    requires Pair(s, x, y, todo) && Has(s.nodes[p], HOLD, LOTTERIES) && s.abas[j] == WAITING
    requires AbaInput(x, 1) == AbaInput(y, 1) == 0 && j in x.shares
    ensures Arises(SETTING, s') && Pair(s', x.(currProducer := 1), y.(currProducer := 1), todo - {j})
    ensures s'.nodes[q] == s.nodes[q]
    ensures Has(s'.nodes[p], HOLD_ONE, LOTTERIES - {j}) && s'.abas == s.abas[j := s'.abas[j]]
    ensures Doubted(s'.abas[j], j, p, q)
  {
    hide Arises, Has, SETTING, Small, W.Follows, Given, AbaInput, HandleAbaOut, Naming, BODY, N.FRESH, HOLD, HOLD_ONE;
    SettingIs();
    Others(p);
    s' := Draws(SETTING, s, 0, j, 0, 1, 0, x, todo);
    s' := Draws(SETTING, s', 1, j, 0, 1, 0, y, todo);
    s' := Draws(SETTING, s', p, j, 0, 1, 0, HOLD, LOTTERIES);
  }

  // Instance j rejects it, and peer 0 handles that.
  lemma Rejection(s: Sys, j: int, p: int, q: int, x: Epoch, y: Epoch, todo: set<int>) returns (s': Sys)
    requires Arises(SETTING, s) && j in {0, 1} && ((p == 2 && q == 4) || (p == 4 && q == 2)) && Pair(s, x, y, todo)
    requires Doubted(s.abas[j], j, p, q)
    ensures Arises(SETTING, s') && Pair(s', HandleAbaOut(x, 0, 0), y, todo)
    ensures s' == Sys(s.nodes[0 := s'.nodes[0]], s.abas[j := s'.abas[j]])
    ensures q in s'.abas[j] && s'.abas[j][q] == N.FRESH
  {
    hide Arises, Has, SETTING, Small, W.Follows, Given, AboutTo, W.Group, HandleAbaOut, N.FRESH;
    SettingIs();
    Groups();
    var ps := [0, 1, p];
    s' := Tosses(SETTING, s, j, ps, 0);
    assert ps[0] in ps && q !in ps;
    s' := Outputs(SETTING, s', 0, j, 0, x, todo);
  }

  // Peer p delivers candidate 1.
  lemma Catches(s: Sys, p: int, todo: set<int>) returns (s': Sys)
    requires Arises(SETTING, s) && p in {2, 4} && p in s.nodes && Has(s.nodes[p], HOLD_ONE, todo)
    ensures Arises(SETTING, s') && p in s'.nodes && s' == Sys(s.nodes[p := s'.nodes[p]], s.abas)
    ensures Has(s'.nodes[p], CATCH_ONE, todo)
  {
    hide Arises, HandleCbcOut, Has, SETTING, Small, W.Follows, HOLD_ONE, CATCH_ONE;
    SettingIs();
    Delivered();
    s' := Delivers(SETTING, s, p, 1, BODY, HOLD_ONE, todo);
  }

  // Lottery 2 elects producer 2 at peers 0 and 1.
  lemma Election(s: Sys) returns (s': Sys)
    requires Arises(SETTING, s) && Pair(s, LEAD_ONE, HOLD_ONE, {2}) && s.abas[2] == WAITING
    ensures Arises(SETTING, s') && Pair(s', LEAD_TWO, HOLD_TWO, {})
    ensures s'.nodes[2] == s.nodes[2] && s'.nodes[4] == s.nodes[4]
    ensures s'.abas == s.abas[2 := WAITING[0 := Given(SETTING, 2, 0, 1)][1 := Given(SETTING, 2, 1, 1)]]
  {
    hide Arises, Has, SETTING, Small, W.Follows, Given, AbaInput, HandleAbaOut, Naming, BODY, N.FRESH,
      LEAD_ONE, LEAD_TWO, HOLD_ONE, HOLD_TWO;
    SettingIs();
    Leader();
    Others(1);
    assert {2} - {2} == {};
    s' := Draws(SETTING, s, 0, 2, 0, 2, 1, LEAD_ONE, {2});
    s' := Draws(SETTING, s', 1, 2, 0, 2, 1, HOLD_ONE, {2});
  }

  // At peer p, with one of the earlier lotteries still to do, it does too; that one
  // elects producer 1 after it.
  lemma OutOfOrder(s: Sys, p: int, j: int) returns (s': Sys)
    requires Arises(SETTING, s) && p in {2, 4} && j in {0, 1} && Pair(s, LEAD_TWO, HOLD_TWO, {})
    requires Has(s.nodes[p], CATCH_ONE, {j, 2})
    requires p in s.abas[2] && s.abas[2][p] == N.FRESH && p in s.abas[j] && s.abas[j][p] == N.FRESH
    ensures Arises(SETTING, s') && Pair(s', LEAD_TWO, HOLD_TWO, {}) && Has(s'.nodes[p], CATCH_ONE, {})
    ensures s'.nodes == s.nodes[p := s'.nodes[p]]
    ensures s'.abas == s.abas[2 := s.abas[2][p := Given(SETTING, 2, p, 1)]][j := s'.abas[j]]
    ensures s'.abas[j] == s.abas[j][p := Given(SETTING, j, p, 1)]
  {
    hide Arises, Has, SETTING, Small, W.Follows, Given, AbaInput, HandleAbaOut, Naming, BODY, N.FRESH,
      LEAD_TWO, HOLD_TWO, CATCH_ONE, CATCH_TWO;
    SettingIs();
    Leader();
    Others(p);
    assert {j, 2} - {2} == {j} && {j} - {j} == {};
    s' := Draws(SETTING, s, p, 2, 0, 2, 1, CATCH_ONE, {j, 2});
    s' := Draws(SETTING, s', p, j, 0, 1, 1, CATCH_TWO, {j});
  }

  // Instance 2 accepts producer 2 everywhere; peers 0 and 1 name it, and peers 2 and 4
  // name producer 1.
  lemma Acceptance(s: Sys) returns (s': Sys)
    requires Arises(SETTING, s) && Pair(s, LEAD_TWO, HOLD_TWO, {})
    requires Has(s.nodes[2], CATCH_ONE, {}) && Has(s.nodes[4], CATCH_ONE, {})
    requires forall p :: p in {0, 1, 2, 4} ==> p in s.abas[2] && s.abas[2][p] == Given(SETTING, 2, p, 1)
    ensures Arises(SETTING, s') && Shape(s') && s'.nodes[0].record == Blank
    ensures Naming(2, 0) in s'.nodes[0].epoch.decisions && Naming(2, 1) in s'.nodes[1].epoch.decisions
    ensures Naming(1, 2) in s'.nodes[2].epoch.decisions && Naming(1, 4) in s'.nodes[4].epoch.decisions
  {
    hide Arises, Has, SETTING, Small, W.Follows, Given, AboutTo, W.Group, HandleAbaOut, LEAD_TWO, HOLD_TWO, CATCH_ONE,
      Naming;
    SettingIs();
    Leader();
    Others(1);
    Others(2);
    Others(4);
    Groups();
    var ps := [0, 1, 2, 4];
    s' := Tosses(SETTING, s, 2, ps, 1);
    assert ps[0] in ps && ps[1] in ps && ps[2] in ps && ps[3] in ps;
    s' := Outputs(SETTING, s', 0, 2, 1, LEAD_TWO, {});
    HasBlank(s'.nodes[0], s'.nodes[0].epoch, {});
    s' := Outputs(SETTING, s', 1, 2, 1, HOLD_TWO, {});
    s' := Outputs(SETTING, s', 2, 2, 1, CATCH_ONE, {});
    s' := Outputs(SETTING, s', 4, 2, 1, CATCH_ONE, {});
  }

  lemma HasBlank(nd: Node, e: Epoch, todo: set<int>)
    requires Has(nd, e, todo)
    ensures nd.record == Blank
  {
  }

  // ----- the decisions at peer 0 -----

  const TWO := Keep(Keep(Keep(Blank, Naming(2, 0)), Naming(2, 1)), Naming(2, 3))
  const BOTH := Keep(Keep(Keep(TWO, Naming(1, 2)), Naming(1, 4)), Naming(1, 3))

  lemma TwoDeciders()
    ensures Deciders(Blank, 2) == {} && Deciders(TWO.rest.rest, 2) == {0} && Deciders(TWO.rest, 2) == {0, 1}
    ensures Deciders(TWO, 2) == {0, 1, 3} && Deciders(TWO, 1) == {}
    ensures Kept(TWO.rest.rest) == {Naming(2, 0)} && Kept(TWO.rest) == {Naming(2, 0), Naming(2, 1)}
    ensures Naming(2, 0) in Kept(TWO)
  {
    assert Deciders(TWO.rest.rest, 1) == {} && Deciders(TWO.rest, 1) == {};
  }

  lemma BothDeciders()
    ensures Deciders(BOTH.rest.rest, 2) == Deciders(BOTH.rest, 2) == {0, 1, 3}
    ensures Deciders(BOTH.rest.rest, 1) == {2} && Deciders(BOTH.rest, 1) == {2, 4} && Deciders(BOTH, 1) == {2, 4, 3}
    ensures Naming(2, 0) in Kept(BOTH.rest.rest) && Naming(2, 0) in Kept(BOTH.rest) && Naming(1, 2) in Kept(BOTH)
  {
    hide Kept;
    TwoDeciders();
    KeptGrows(TWO, Naming(1, 2));
    KeptGrows(BOTH.rest.rest, Naming(1, 4));
    KeptGrows(BOTH.rest, Naming(1, 3));
  }

  lemma AllValid()
    ensures Validated(SETTING.sha, Naming(2, 0)) && Validated(SETTING.sha, Naming(1, 2)) && SETTING.f == 1
  {
  }

  lemma Answers()
    ensures Answer(SETTING, Blank, Naming(2, 0), None) && Answer(SETTING, TWO.rest.rest, Naming(2, 1), None)
    ensures Answer(SETTING, TWO.rest, Naming(2, 3), Some(Naming(2, 0)))
  {
    hide Validated;
    AllValid();
    TwoDeciders();
    assert |{0}| == 1 && |{0, 1}| == 2 && |{0, 1, 3}| == 3;
  }

  lemma MoreAnswers()
    ensures Answer(SETTING, TWO, Naming(1, 2), Some(Naming(2, 0)))
    ensures Answer(SETTING, BOTH.rest.rest, Naming(1, 4), Some(Naming(2, 0)))
    ensures Answer(SETTING, BOTH.rest, Naming(1, 3), Some(Naming(1, 2)))
  {
    hide Deciders, Kept, Validated;
    AllValid();
    TwoDeciders();
    BothDeciders();
    assert |{0, 1, 3}| == 3 && |{2, 4, 3}| == 3;
  }

  lemma Commits(s: Sys) returns (s': Sys)
    requires Arises(SETTING, s) && Shape(s) && s.nodes[0].record == Blank
    requires Naming(2, 0) in s.nodes[0].epoch.decisions && Naming(2, 1) in s.nodes[1].epoch.decisions
    requires Naming(1, 2) in s.nodes[2].epoch.decisions && Naming(1, 4) in s.nodes[4].epoch.decisions
    ensures Arises(SETTING, s') && 0 in s'.nodes
    ensures DecisionOut(Naming(2, 0)) in s'.nodes[0].log && DecisionOut(Naming(1, 2)) in s'.nodes[0].log
  {
    hide Arises, Answer, Deciders, SETTING, Small, W.Follows, Kept;
    SettingIs();
    TwoDeciders();
    BothDeciders();
    Answers();
    MoreAnswers();
    s' := Records(SETTING, s, 0, Naming(2, 0), None, Blank);
    assert Naming(2, 1) in s'.nodes[1].epoch.decisions;
    s' := Records(SETTING, s', 0, Naming(2, 1), None, TWO.rest.rest);
    s' := Records(SETTING, s', 0, Naming(2, 3), Some(Naming(2, 0)), TWO.rest);
    assert Naming(1, 2) in s'.nodes[2].epoch.decisions;
    s' := Records(SETTING, s', 0, Naming(1, 2), Some(Naming(2, 0)), TWO);
    assert Naming(1, 4) in s'.nodes[4].epoch.decisions;
    s' := Records(SETTING, s', 0, Naming(1, 4), Some(Naming(2, 0)), BOTH.rest.rest);
    s' := Records(SETTING, s', 0, Naming(1, 3), Some(Naming(1, 2)), BOTH.rest);
  }

  // The run, up to peer 0's last output.
  lemma Wide() returns (s: Sys)
    ensures Arises(SETTING, s) && 0 in s.nodes
    ensures DecisionOut(Naming(2, 0)) in s.nodes[0].log && DecisionOut(Naming(1, 2)) in s.nodes[0].log
  {
    hide Arises, Has, Given, SETTING, LEAD, LEAD_ZERO, LEAD_ONE, LEAD_TWO, HOLD, HOLD_ONE, HOLD_TWO, CATCH_ONE,
      CATCH_TWO, HandleAbaOut, AbaInput, N.FRESH;
    Leader();
    Others(1);
    assert LOTTERIES - {0} == {1, 2} && LOTTERIES - {1} == {0, 2} && {1, 2} - {1} == {2};
    s := Prepared();
    s := Rejectable(s, 0, 2, 4, LEAD, HOLD, LOTTERIES);
    s := Rejection(s, 0, 2, 4, LEAD.(currProducer := 1), HOLD_ONE, {1, 2});
    s := Rejectable(s, 1, 4, 2, LEAD_ZERO, HOLD_ONE, {1, 2});
    s := Rejection(s, 1, 4, 2, LEAD_ZERO.(currProducer := 1), HOLD_ONE, {2});
    s := Catches(s, 2, {1, 2});
    s := Catches(s, 4, {0, 2});
    s := Election(s);
    s := OutOfOrder(s, 2, 1);
    s := OutOfOrder(s, 4, 0);
    s := Acceptance(s);
    s := Commits(s);
  }

  // A correct peer has put decision outputs for two producers other than 0 on its
  // channel.
  ghost predicate TwoOthers(c: Cfg, run: seq<Sys>) {
    run != [] && exists p: int, d: Decision, e: Decision ::
      && p in Correct(c) && p in run[|run| - 1].nodes && d.producer != 0 && e.producer != 0 && d.producer != e.producer
      && DecisionOut(d) in run[|run| - 1].nodes[p].log && DecisionOut(e) in run[|run| - 1].nodes[p].log
  }

  lemma FiveCorrect()
    ensures ValidCfg(SETTING) && 0 in EpochSystem.Correct(SETTING) && SETTING.f == 1 && |SETTING.faulty| == 1
  {
    SmallCorrect(SETTING);
    assert W.Follows(5, 0);
  }

  // With n + |faulty| = 4f+2, decisions for two producers other than 0 are output.
  lemma WideOutputsTwo()
    ensures exists c: Cfg, run: seq<Sys> ::
      ValidCfg(c) && c.n + |c.faulty| == 4 * c.f + 2 && IsOrdered(c, run) && TwoOthers(c, run)
  {
    hide IsOrdered, EpochSystem.Correct, Arises, W.Follows, SETTING, ValidCfg;
    SettingIs();
    FiveCorrect();
    var s := Wide();
    var run := ArisesRun(SETTING, s);
    assert TwoOthers(SETTING, run);
  }
}
