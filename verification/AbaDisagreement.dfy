// Why agreement needs the assumption on coin shares: one faulty peer that skips a
// round of shares makes two correct peers output different values, although the
// shares of all correct peers come in order.

module AbaDisagreement {
  import opened Options
  import opened AbaNode
  import opened AbaSystem
  import opened AbaRuns
  import opened AbaScenes
  import C = CoinQueue

  // The state is reached by a run in which the shares of `who` come in order.
  ghost predicate Arises(c: Cfg, s: Sys, who: set<int>) {
    exists run :: IsOrdered(c, run, who) && run[|run| - 1] == s
  }

  lemma ArisesStep(c: Cfg, s: Sys, step: Step, s': Sys, who: set<int>)
    requires Arises(c, s, who) && Next(c, s, step, s') && Ordered(c, s, step, who)
    ensures Arises(c, s', who)
  {
    hide Next, Ordered, Init;
    var run :| IsOrdered(c, run, who) && run[|run| - 1] == s;
    var longer := run + [s'];
    forall i | 0 < i < |longer| ensures StepsOrdered(c, longer[i - 1], longer[i], who) {
      if i < |run| {
        assert StepsOrdered(c, run[i - 1], run[i], who);
      }
    }
    assert IsOrdered(c, longer, who);
  }

  lemma {:induction false} ArisesPath(c: Cfg, run: seq<Sys>, i: nat, who: set<int>)
    requires Path(c, run, who) && i < |run| && Arises(c, run[0], who)
    ensures Arises(c, run[i], who)
  {
    hide Next, Ordered, Arises;
    if i > 0 {
      ArisesPath(c, run, i - 1, who);
      assert Hop(c, run[i - 1], run[i], who);
      var step :| Next(c, run[i - 1], step, run[i]) && Ordered(c, run[i - 1], step, who);
      ArisesStep(c, run[i - 1], step, run[i], who);
    }
  }

  lemma ArisesReach(c: Cfg, s: Sys, s': Sys, who: set<int>)
    requires Arises(c, s, who) && Reach(c, s, s', who)
    ensures Arises(c, s', who)
  {
    hide Arises, Hop;
    var run :| Path(c, run, who) && run[0] == s && run[|run| - 1] == s';
    ArisesPath(c, run, |run| - 1, who);
  }

  // ----- the setting -----

  // The coin is 0 in all rounds but round 1.
  const SETTING := Cfg(4, 1, {3}, (r: int) => if r == 1 then 1 else 0)

  const CORRECT: set<int> := {0, 1, 2}

  function Given(p: int, v: int): Node {
    Input(FRESH, PeerOf(SETTING, p), v)
  }

  const START: Sys := map[0 := FRESH, 1 := FRESH, 2 := FRESH]

  // Inputs 0, 1, 1.
  const INPUTS: Sys := map[0 := Given(0, 0), 1 := Given(1, 1), 2 := Given(2, 1)]

  lemma GiveInput(s: Sys, p: int, v: int)
    requires Arises(SETTING, s, CORRECT) && Present(4, s) && p in CORRECT && s[p] == FRESH && v in {0, 1}
    ensures Arises(SETTING, s[p := Given(p, v)], CORRECT)
  {
    hide Arises, Correct, Complete;
    Steady(SETTING, s, p);
    ArisesStep(SETTING, s, Give(p, v), s[p := Given(p, v)], CORRECT);
  }

  lemma InputsArise()
    ensures Arises(SETTING, INPUTS, CORRECT)
  {
    hide Arises, Given, SETTING;
    StartArises();
    StartParts();
    GiveInput(START, 0, 0);
    GiveInput(START[0 := Given(0, 0)], 1, 1);
    GiveInput(START[0 := Given(0, 0)][1 := Given(1, 1)], 2, 1);
    assert START[0 := Given(0, 0)][1 := Given(1, 1)][2 := Given(2, 1)] == INPUTS;
  }

  lemma StartParts()
    ensures Present(4, START) && START[0] == START[1] == START[2] == FRESH
  {
  }

  lemma StartArises()
    ensures Arises(SETTING, START, CORRECT)
  {
    hide Init;
    StartInit(SETTING, START);
    assert IsOrdered(SETTING, [START], CORRECT);
  }

  lemma GivenReady(p: int, v: int)
    ensures var nd := Given(p, v);
      && At(nd, 0, WaitBinary) && Quiet(nd, 0) && nd.sent == {Est(0, p, v)}
      && nd.hist.outs == [] && nd.decided == None && nd.coin == C.EMPTY
  {
  }

  // ----- round 0 -----

  // 0 becomes binary, then 1: both are, and AUX 1 is sent.
  function EstBoth(nd: Node, me: Peer, a: int, b: int, a': int, b': int): Node {
    EstThree(EstThree(nd, me, 0, 0, a, b), me, 0, 1, a', b')
  }

  lemma EstBothMidway(nd: Node, me: Peer, a: int, b: int, a': int, b': int)
    requires me.f == 1 && a != b && a != me.id && b != me.id && a' != b' && a' != me.id && b' != me.id
    requires At(nd, 0, WaitBinary) && Quiet(nd, 0)
    ensures var nd0 := EstThree(nd, me, 0, 0, a, b);
      var nd1 := EstBoth(nd, me, a, b, a', b');
      var nd' := Wake(nd1, me);
      && Est(0, me.id, 0) in EstTwo(nd, me, 0, 0, a, b).sent && Est(0, me.id, 1) in EstTwo(nd0, me, 0, 1, a', b').sent
      && nd.sent <= nd0.sent && Est(0, me.id, 0) in nd'.sent
      && nd1.hist == nd.hist && nd'.hist.outs == nd.hist.outs && Values(nd'.board.binValues, 0) == [0, 1]
      && Midway(nd', 0, 1, WaitAux) && Keeps(nd, nd') && Aux(0, me.id, 1) in nd'.sent
  {
    hide Senders, EstThree, EstTwo, C.SharesOf;
    assert Untouched(nd, 0, 0) && Untouched(nd, 0, 1);
    EstVotes(nd, me, 0, 0, a, b);
    var nd0 := EstThree(nd, me, 0, 0, a, b);
    QuietLater(nd, nd0, 0, 0);
    EstVotes(nd0, me, 0, 1, a', b');
    var nd' := Wake(EstBoth(nd, me, a, b, a', b'), me);
    forall r', v' | r' >= 1 ensures Untouched(nd', r', v') {
      assert Untouched(nd0, r', v');
    }
  }

  lemma EstBothPhase(s0: Sys, s: Sys, p: int, a: int, b: int, a': int, b': int) returns (nd': Node)
    requires Present(4, s) && p in CORRECT && Reach(SETTING, s0, s, CORRECT)
    requires Available(SETTING, s, Est(0, a, 0)) && Available(SETTING, s, Est(0, b, 0)) && a != b && a != p && b != p
    requires Available(SETTING, s, Est(0, a', 1)) && Available(SETTING, s, Est(0, b', 1))
    requires a' != b' && a' != p && b' != p && At(s[p], 0, WaitBinary) && Quiet(s[p], 0)
    ensures Reach(SETTING, s0, s[p := nd'], CORRECT)
    ensures Midway(nd', 0, 1, WaitAux) && Keeps(s[p], nd') && Values(nd'.board.binValues, 0) == [0, 1]
    ensures Aux(0, p, 1) in nd'.sent && Est(0, p, 0) in nd'.sent
  {
    hide Reach, HandleEst, Wake, Available, Midway, Keeps, Quiet;
    var c, me := SETTING, PeerOf(SETTING, p);
    EstBothMidway(s[p], me, a, b, a', b');
    var nd0 := EstThree(s[p], me, 0, 0, a, b);
    HandlesThree(c, s0, s, p, Est(0, a, 0), Est(0, b, 0), Est(0, p, 0), CORRECT);
    StillAvailable(c, s, p, nd0, Est(0, a', 1));
    StillAvailable(c, s, p, nd0, Est(0, b', 1));
    HandlesThree(c, s0, s[p := nd0], p, Est(0, a', 1), Est(0, b', 1), Est(0, p, 1), CORRECT);
    assert s[p := nd0][p := EstBoth(s[p], me, a, b, a', b')] == s[p := EstBoth(s[p], me, a, b, a', b')];
    ThenWakes(c, s0, s, p, EstBoth(s[p], me, a, b, a', b'), CORRECT);
    nd' := Wake(EstBoth(s[p], me, a, b, a', b'), me);
  }

  // CONF 1 from peers 0 and 1 and CONF Both from the faulty peer: the value is Both.
  function ConfMixed(nd: Node): Node {
    HandleConf(HandleConf(HandleConf(nd, 0, 0, 1), 0, 1, 1), 0, 3, BOTH)
  }

  lemma ConfMixedMidway(nd: Node, me: Peer)
    requires me.n == 4 && me.f == 1 && Midway(nd, 0, 1, WaitConf) && Values(nd.board.binValues, 0) == [0, 1]
    ensures var nd1 := ConfMixed(nd);
      var nd' := Wake(nd1, me);
      && nd1.hist == nd.hist && nd'.hist.outs == nd.hist.outs && nd'.values == BOTH && At(nd', 0, WaitCoin)
      && Quiet(nd', 1) && C.SharesOf(nd'.coin, 0) == {} && Keeps(nd, nd') && Coin(0, me.id, me.hash(0)) in nd'.sent
  {
    hide Values, Wake, C.SharesOf;
    MixedChoice(nd);
    var nd1 := ConfMixed(nd);
    var nd' := Wake(nd1, me);
    assert nd' == ConfThreshold(nd1, me) by { ConfWake(nd1, me); }
    forall r', v' | r' >= 1 ensures Untouched(nd', r', v') {
      assert Untouched(nd, r', v');
    }
  }

  lemma ConfWake(nd: Node, me: Peer)
    requires nd.phase == WaitConf
    ensures Wake(nd, me) == ConfThreshold(nd, me)
  {
  }

  lemma MixedChoice(nd: Node)
    requires forall w :: Senders(nd.board.confValues, 0, w) == {}
    requires Values(nd.board.binValues, 0) == [0, 1]
    ensures var nd1 := ConfMixed(nd);
      && nd1 == nd.(board := nd1.board) && nd1.board == nd.board.(confValues := nd1.board.confValues)
      && ConfChoice(nd1.board, 0, 3) == Some(BOTH)
      && forall r', v' :: r' != 0 ==> Senders(nd1.board.confValues, r', v') == Senders(nd.board.confValues, r', v')
  {
    hide Values;
    var t0 := nd.board.confValues;
    var t1 := Cast(t0, 0, 1, 0);
    var t2 := Cast(t1, 0, 1, 1);
    var t3 := Cast(t2, 0, BOTH, 3);
    assert Senders(t0, 0, 1) == {} && Senders(t0, 0, BOTH) == {} && Senders(t0, 0, 0) == {};
    assert Senders(t1, 0, 1) == {0} && Senders(t1, 0, BOTH) == {} && Senders(t1, 0, 0) == {};
    assert Senders(t2, 0, 1) == {0, 1} && Senders(t2, 0, BOTH) == {} && Senders(t2, 0, 0) == {};
    assert Senders(t3, 0, 1) == {0, 1} && Senders(t3, 0, BOTH) == {3} && Senders(t3, 0, 0) == {};
    assert ConfMixed(nd).board.confValues == t3;
    var vs := [BOTH, 0, 1];
    assert vs[..2] == [BOTH, 0] && vs[..2][..1] == [BOTH] && vs[..2][..1][..0] == [];
    assert CountOver(t3, 0, vs[..2][..1]) == 1;
    assert CountOver(t3, 0, vs[..2]) == CountOver(t3, 0, vs[..2][..1]) + |Senders(t3, 0, 0)|;
    assert CountOver(t3, 0, vs) == CountOver(t3, 0, vs[..2]) + |Senders(t3, 0, 1)|;
    forall r', v' | r' != 0 ensures Senders(t3, r', v') == Senders(t0, r', v') {
      assert Senders(t1, r', v') == Senders(t0, r', v') && Senders(t2, r', v') == Senders(t0, r', v');
    }
  }

  lemma ConfMixedPhase(s0: Sys, s: Sys, p: int) returns (nd': Node)
    requires Present(4, s) && p in CORRECT && Reach(SETTING, s0, s, CORRECT)
    requires Available(SETTING, s, Conf(0, 0, 1)) && Available(SETTING, s, Conf(0, 1, 1))
    requires Midway(s[p], 0, 1, WaitConf) && Values(s[p].board.binValues, 0) == [0, 1]
    ensures Reach(SETTING, s0, s[p := nd'], CORRECT)
    ensures nd'.values == BOTH && At(nd', 0, WaitCoin) && Quiet(nd', 1) && C.SharesOf(nd'.coin, 0) == {}
    ensures Keeps(s[p], nd') && Coin(0, p, SETTING.hash(0)) in nd'.sent
  {
    hide Reach, HandleConf, Wake, Available, Midway, Keeps, Quiet;
    var c, me := SETTING, PeerOf(SETTING, p);
    ConfMixedMidway(s[p], me);
    FaultyAvailable(c, s, Conf(0, 3, BOTH));
    HandlesThree(c, s0, s, p, Conf(0, 0, 1), Conf(0, 1, 1), Conf(0, 3, BOTH), CORRECT);
    ThenWakes(c, s0, s, p, ConfMixed(s[p]), CORRECT);
    nd' := Wake(ConfMixed(s[p]), me);
  }

  function All(x: Node, y: Node, z: Node): Sys {
    map[0 := x, 1 := y, 2 := z]
  }

  lemma AllParts(x: Node, y: Node, z: Node)
    ensures var s := All(x, y, z); Present(4, s) && s[0] == x && s[1] == y && s[2] == z
    ensures forall n :: All(x, y, z)[0 := n] == All(n, y, z)
    ensures forall n :: All(x, y, z)[1 := n] == All(x, n, z)
    ensures forall n :: All(x, y, z)[2 := n] == All(x, y, n)
    ensures forall n, n' :: Two(All(x, y, z), n, n') == All(n, n', z)
  {
  }

  lemma AllQuorate()
    ensures Quorate(4, 1, [0, 1, 2])
  {
    assert (set x | x in [0, 1, 2]) == CORRECT;
  }

  lemma AllAvailable(x: Node, y: Node, z: Node, m: Msg)
    requires (m.sender == 0 && m in x.sent) || (m.sender == 1 && m in y.sent) || (m.sender == 2 && m in z.sent)
             || m.sender == 3
    ensures Available(SETTING, All(x, y, z), m)
  {
  }

  // EST and AUX of round 0: peers 0 and 1 have two binary values, peer 2 has one,
  // and all send AUX 1.
  lemma RoundZeroEst() returns (x: Node, y: Node, z: Node)
    ensures Reach(SETTING, INPUTS, All(x, y, z), CORRECT)
    ensures Midway(x, 0, 1, WaitAux) && Keeps(Given(0, 0), x) && Values(x.board.binValues, 0) == [0, 1]
    ensures Midway(y, 0, 1, WaitAux) && Keeps(Given(1, 1), y) && Values(y.board.binValues, 0) == [0, 1]
    ensures Midway(z, 0, 1, WaitAux) && Keeps(Given(2, 1), z)
    ensures Aux(0, 0, 1) in x.sent && Aux(0, 1, 1) in y.sent && Aux(0, 2, 1) in z.sent
  {
    hide Reach, Given, All, Available, Midway, Quiet, Senders;
    var c, g0, g1, g2 := SETTING, Given(0, 0), Given(1, 1), Given(2, 1);
    GivenReady(0, 0);
    GivenReady(1, 1);
    GivenReady(2, 1);
    InputsAll();
    ReachSelf(c, INPUTS, CORRECT);
    AllParts(g0, g1, g2);
    AllAvailable(g0, g1, g2, Est(0, 0, 0));
    AllAvailable(g0, g1, g2, Est(0, 3, 0));
    AllAvailable(g0, g1, g2, Est(0, 2, 1));
    AllAvailable(g0, g1, g2, Est(0, 3, 1));
    y := EstBothPhase(INPUTS, INPUTS, 1, 0, 3, 2, 3);
    AllParts(g0, y, g2);
    AllAvailable(g0, y, g2, Est(0, 1, 0));
    AllAvailable(g0, y, g2, Est(0, 3, 0));
    AllAvailable(g0, y, g2, Est(0, 1, 1));
    AllAvailable(g0, y, g2, Est(0, 3, 1));
    x := EstBothPhase(INPUTS, All(g0, y, g2), 0, 1, 3, 1, 3);
    AllParts(x, y, g2);
    AllAvailable(x, y, g2, Est(0, 1, 1));
    AllAvailable(x, y, g2, Est(0, 3, 1));
    z := EstPhase(c, INPUTS, All(x, y, g2), 2, 0, 1, 1, 3, CORRECT);
  }

  lemma InputsAll()
    ensures INPUTS == All(Given(0, 0), Given(1, 1), Given(2, 1))
  {
  }

  lemma RoundZeroAux(x: Node, y: Node, z: Node) returns (x': Node, y': Node, z': Node)
    requires Reach(SETTING, INPUTS, All(x, y, z), CORRECT)
    requires Midway(x, 0, 1, WaitAux) && Midway(y, 0, 1, WaitAux) && Midway(z, 0, 1, WaitAux)
    requires Aux(0, 0, 1) in x.sent && Aux(0, 1, 1) in y.sent && Aux(0, 2, 1) in z.sent
    ensures Reach(SETTING, INPUTS, All(x', y', z'), CORRECT)
    ensures Midway(x', 0, 1, WaitConf) && Keeps(x, x') && x'.board.binValues == x.board.binValues
    ensures Midway(y', 0, 1, WaitConf) && Keeps(y, y') && y'.board.binValues == y.board.binValues
    ensures Midway(z', 0, 1, WaitConf) && Keeps(z, z')
    ensures Conf(0, 0, 1) in x'.sent && Conf(0, 1, 1) in y'.sent && Conf(0, 2, 1) in z'.sent
  {
    hide Reach, All, Available, Midway, Senders, Quorate;
    var c := SETTING;
    AllQuorate();
    AllParts(x, y, z);
    forall p | p in CORRECT ensures Available(c, All(x, y, z), Aux(0, p, 1)) { AllAvailable(x, y, z, Aux(0, p, 1)); }
    x' := AuxPhase(c, INPUTS, All(x, y, z), 0, 0, 1, [0, 1, 2], CORRECT);
    AllParts(x', y, z);
    forall p | p in CORRECT ensures Available(c, All(x', y, z), Aux(0, p, 1)) { AllAvailable(x', y, z, Aux(0, p, 1)); }
    y' := AuxPhase(c, INPUTS, All(x', y, z), 1, 0, 1, [0, 1, 2], CORRECT);
    AllParts(x', y', z);
    forall p | p in CORRECT
      ensures Available(c, All(x', y', z), Aux(0, p, 1))
    {
      AllAvailable(x', y', z, Aux(0, p, 1));
    }
    z' := AuxPhase(c, INPUTS, All(x', y', z), 2, 0, 1, [0, 1, 2], CORRECT);
  }

  // The values of round 0: Both at peers 0 and 1, and 1 at peer 2.
  lemma RoundZeroConf(x: Node, y: Node, z: Node) returns (x': Node, y': Node, z': Node)
    requires Reach(SETTING, INPUTS, All(x, y, z), CORRECT)
    requires Midway(x, 0, 1, WaitConf) && Values(x.board.binValues, 0) == [0, 1]
    requires Midway(y, 0, 1, WaitConf) && Values(y.board.binValues, 0) == [0, 1]
    requires Midway(z, 0, 1, WaitConf)
    requires Conf(0, 0, 1) in x.sent && Conf(0, 1, 1) in y.sent && Conf(0, 2, 1) in z.sent
    ensures Reach(SETTING, INPUTS, All(x', y', z'), CORRECT)
    ensures x'.values == BOTH && At(x', 0, WaitCoin) && Quiet(x', 1) && C.SharesOf(x'.coin, 0) == {} && Keeps(x, x')
    ensures y'.values == BOTH && At(y', 0, WaitCoin) && Quiet(y', 1) && C.SharesOf(y'.coin, 0) == {} && Keeps(y, y')
    ensures z'.values == 1 && Midway(z', 0, 1, WaitCoin) && Keeps(z, z')
    ensures Coin(0, 0, SETTING.hash(0)) in x'.sent && Coin(0, 1, SETTING.hash(0)) in y'.sent
  {
    hide Reach, All, Available, Midway, Quiet, Senders, Values, C.SharesOf, Quorate;
    var c := SETTING;
    AllQuorate();
    AllParts(x, y, z);
    forall p | p in CORRECT ensures Available(c, All(x, y, z), Conf(0, p, 1)) { AllAvailable(x, y, z, Conf(0, p, 1)); }
    z' := ConfPhase(c, INPUTS, All(x, y, z), 2, 0, 1, [0, 1, 2], CORRECT);
    AllParts(x, y, z');
    forall p | p in CORRECT
      ensures Available(c, All(x, y, z'), Conf(0, p, 1))
    {
      AllAvailable(x, y, z', Conf(0, p, 1));
    }
    x' := ConfMixedPhase(INPUTS, All(x, y, z'), 0);
    AllParts(x', y, z');
    forall p | p in CORRECT
      ensures Available(c, All(x', y, z'), Conf(0, p, 1))
    {
      AllAvailable(x', y, z', Conf(0, p, 1));
    }
    y' := ConfMixedPhase(INPUTS, All(x', y, z'), 1);
  }

  // ----- peer 2's coin slips -----

  // Peer 0's share of round 0, the faulty peer's of round 1, peer 0's of round 1.
  function Slipped(nd: Node, me: Peer): Node {
    HandleCoin(HandleCoin(HandleCoin(nd, me, C.Share(0, 0, me.hash(0)), true),
                          me, C.Share(1, 3, me.hash(1)), true), me, C.Share(1, 0, me.hash(1)), true)
  }

  lemma SlippedCoin(nd: Node, me: Peer)
    requires me.f == 1 && nd.coin == C.EMPTY
    ensures var nd1 := HandleCoin(nd, me, C.Share(0, 0, me.hash(0)), true);
      var nd2 := HandleCoin(nd1, me, C.Share(1, 3, me.hash(1)), true);
      C.Heard(nd1.coin, 0) == 1 && C.Heard(nd2.coin, 0) == 1
    ensures Slipped(nd, me) == nd.(coin := Slipped(nd, me).coin) && Slipped(nd, me).coin.queue == [me.hash(1) % 2]
  {
    hide C.Handle;
    var m0, m1, m2 := C.Share(0, 0, me.hash(0)), C.Share(1, 3, me.hash(1)), C.Share(1, 0, me.hash(1));
    var b1 := C.Handle(nd.coin, 1, m0, true);
    var b2 := C.Handle(b1, 1, m1, true);
    C.HandleShape(nd.coin, 1, m0);
    C.HandleShape(b1, 1, m1);
    C.HandleShape(b2, 1, m2);
    assert C.SharesOf(nd.coin, 0) == {} && C.SharesOf(b1, 1) == {} && C.SharesOf(b2, 1) == {3};
  }

  lemma SlipPhase(x: Node, y: Node, z: Node) returns (z': Node)
    requires Reach(SETTING, INPUTS, All(x, y, z), CORRECT) && z.coin == C.EMPTY
    requires Coin(0, 0, SETTING.hash(0)) in x.sent && Coin(1, 0, SETTING.hash(1)) in x.sent
    ensures Reach(SETTING, INPUTS, All(x, y, z'), CORRECT)
    ensures z' == z.(coin := z'.coin) && z'.coin.queue == [1]
  {
    hide Reach, All, Available, C.Handle, C.Heard;
    var c, me := SETTING, PeerOf(SETTING, 2);
    SlippedCoin(z, me);
    HeardStart(z);
    var z1 := HandleCoin(z, me, C.Share(0, 0, me.hash(0)), true);
    var z2 := HandleCoin(z1, me, C.Share(1, 3, me.hash(1)), true);
    z' := Slipped(z, me);
    AllParts(x, y, z);
    AllAvailable(x, y, z, Coin(0, 0, c.hash(0)));
    HandlesCoin(c, INPUTS, All(x, y, z), 2, 0, 0, CORRECT);
    AllParts(x, y, z1);
    AllAvailable(x, y, z1, Coin(1, 3, c.hash(1)));
    HandlesCoin(c, INPUTS, All(x, y, z1), 2, 1, 3, CORRECT);
    AllParts(x, y, z2);
    AllAvailable(x, y, z2, Coin(1, 0, c.hash(1)));
    HandlesCoin(c, INPUTS, All(x, y, z2), 2, 1, 0, CORRECT);
  }

  lemma HeardStart(nd: Node)
    requires nd.coin == C.EMPTY
    ensures C.Heard(nd.coin, 0) == 0 && C.Heard(nd.coin, 1) == 0
  {
  }

  // ----- the outputs -----

  // Peers 0 and 1 go through rounds 1 and 2 with 0; peer 0 has its third bit.
  lemma LaterRounds(x: Node, y: Node, z: Node) returns (x': Node, y': Node)
    requires Reach(SETTING, INPUTS, All(x, y, z), CORRECT)
    requires x.values == BOTH && At(x, 0, WaitCoin) && Quiet(x, 1) && C.SharesOf(x.coin, 0) == {}
    requires y.values == BOTH && At(y, 0, WaitCoin) && Quiet(y, 1) && C.SharesOf(y.coin, 0) == {}
    requires x.coin == C.EMPTY && y.coin == C.EMPTY
    requires Coin(0, 0, SETTING.hash(0)) in x.sent && Coin(0, 1, SETTING.hash(0)) in y.sent
    ensures Reach(SETTING, INPUTS, All(x', y', z), CORRECT)
    ensures x.sent <= x'.sent && Coin(1, 0, SETTING.hash(1)) in x'.sent
    ensures Tossed(x', 2, 0) && x'.values == 0 && x'.hist.outs == x.hist.outs && x'.decided == x.decided
  {
    hide Reach, Two, All, Available, Quiet, Midway, Tossed, C.Heard, C.SharesOf;
    var c := SETTING;
    HeardStart(x);
    HeardStart(y);
    AllParts(x, y, z);
    var x1, y1 := PairNext(c, INPUTS, All(x, y, z), x, y, 0, CORRECT);
    AllParts(x1, y1, z);
    var x2, y2 := PairRound(c, INPUTS, All(x1, y1, z), 1, 0, CORRECT);
    AllParts(x2, y2, z);
    MidwayCoin(x2, 1, 0);
    MidwayCoin(y2, 1, 0);
    var x3, y3 := PairNext(c, INPUTS, All(x2, y2, z), x2, y2, 1, CORRECT);
    AllParts(x3, y3, z);
    var x4;
    x4, y' := PairRound(c, INPUTS, All(x3, y3, z), 2, 0, CORRECT);
    AllParts(x4, y', z);
    MidwayCoin(x4, 2, 0);
    AllAvailable(x4, y', z, Coin(2, 0, c.hash(2)));
    x' := CoinPhase(c, INPUTS, All(x4, y', z), 0, 2, 0, CORRECT);
  }

  lemma MidwayCoin(nd: Node, r: int, v: int)
    requires Midway(nd, r, v, WaitCoin)
    ensures At(nd, r, WaitCoin) && Quiet(nd, r + 1) && C.SharesOf(nd.coin, r) == {}
  {
  }

  lemma WakeArises(s: Sys, p: int)
    requires Arises(SETTING, s, CORRECT) && Present(4, s) && p in CORRECT
    ensures Arises(SETTING, s[p := Wake(s[p], PeerOf(SETTING, p))], CORRECT)
  {
    hide Arises, Wake, Correct, Complete;
    Steady(SETTING, s, p);
    ArisesStep(SETTING, s, WakeUp(p), s[p := Wake(s[p], PeerOf(SETTING, p))], CORRECT);
  }

  lemma SlippedOutputs(nd: Node, me: Peer)
    requires nd.phase == WaitCoin && nd.values == 1 && nd.coin.queue == [1] && nd.decided.None? && nd.hist.outs == []
    ensures Wake(nd, me).hist.outs == [1]
  {
  }

  // Two correct peers have output different values.
  ghost predicate Disagreement(c: Cfg, run: seq<Sys>) {
    run != [] && exists p, q ::
      && p in Correct(c) && q in Correct(c) && p in run[|run| - 1] && q in run[|run| - 1]
      && run[|run| - 1][p].hist.outs == [0] && run[|run| - 1][q].hist.outs == [1]
  }

  // With n = 4, f = 1 and peer 3 faulty: a run in which every correct peer's coin
  // shares come in order, yet correct peers 0 and 2 output 0 and 1.
  lemma FaultySharesBreakAgreement()
    ensures exists c, run :: ValidCfg(c) && IsOrdered(c, run, Correct(c)) && Disagreement(c, run)
  {
    hide Reach, Given, All, Arises, Wake, Midway, Quiet, Tossed, C.SharesOf, C.Heard, IsOrdered;
    GivenReady(0, 0);
    GivenReady(1, 1);
    GivenReady(2, 1);
    var x0, y0, z0 := RoundZeroEst();
    var x1, y1, z1 := RoundZeroAux(x0, y0, z0);
    var x2, y2, z2 := RoundZeroConf(x1, y1, z1);
    var x3, y3 := LaterRounds(x2, y2, z2);
    var z3 := SlipPhase(x3, y3, z2);
    MidwayCoin(z2, 0, 1);
    InputsArise();
    ArisesReach(SETTING, INPUTS, All(x3, y3, z3), CORRECT);
    AllParts(x3, y3, z3);
    var x4, z4 := Wake(x3, PeerOf(SETTING, 0)), Wake(z3, PeerOf(SETTING, 2));
    Outputs(x3, PeerOf(SETTING, 0), 2, 0);
    SlippedOutputs(z3, PeerOf(SETTING, 2));
    WakeArises(All(x3, y3, z3), 0);
    AllParts(x4, y3, z3);
    WakeArises(All(x4, y3, z3), 2);
    AllParts(x4, y3, z4);
    Conclude(All(x4, y3, z4));
  }

  lemma Conclude(s: Sys)
    requires Arises(SETTING, s, CORRECT) && Present(4, s) && s[0].hist.outs == [0] && s[2].hist.outs == [1]
    ensures exists c, run :: ValidCfg(c) && IsOrdered(c, run, Correct(c)) && Disagreement(c, run)
  {
    SmallCorrect(SETTING);
    var run: seq<Sys> :| IsOrdered(SETTING, run, CORRECT) && run[|run| - 1] == s;
    assert IsOrdered(SETTING, run, Correct(SETTING));
    assert 0 in run[|run| - 1] && 2 in run[|run| - 1];
    assert Disagreement(SETTING, run);
  }
}
