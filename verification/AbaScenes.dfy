// Building blocks for concrete runs of one agreement instance with n = 4 or 5, f = 1
// and peer 3 faulty: what a peer does with the votes of a phase, and how such
// stretches make up a run.

module AbaScenes {
  import opened Quorum
  import opened AbaNode
  import opened AbaSystem
  import C = CoinQueue

  // ----- one peer -----

  // Nothing of round r or later has reached the peer.
  ghost predicate Quiet(nd: Node, r: int) {
    && nd.coin.queue == []
    && forall r', v :: r' >= r ==> Untouched(nd, r', v)
  }

  ghost predicate Untouched(nd: Node, r: int, v: int) {
    && Senders(nd.board.estValues, r, v) == {} && Senders(nd.board.auxValues, r, v) == {}
    && Senders(nd.board.confValues, r, v) == {} && Values(nd.board.binValues, r) == []
    && C.SharesOf(nd.coin, r) == {}
  }

  predicate At(nd: Node, r: int, phase: Phase) {
    nd.round == r && nd.phase == phase
  }

  // Three senders for (r, v), nothing else new.
  ghost predicate Three(t: Tally, t': Tally, r: int, v: int, a: int, b: int, d: int) {
    && Senders(t', r, v) == {a, b, d}
    && forall r', v' :: r' != r || v' != v ==> Senders(t', r', v') == Senders(t, r', v')
  }

  function CastThree(t: Tally, r: int, v: int, a: int, b: int, d: int): Tally {
    Cast(Cast(Cast(t, r, v, a), r, v, b), r, v, d)
  }

  lemma ThreeVotes(t: Tally, r: int, v: int, a: int, b: int, d: int)
    requires Senders(t, r, v) == {} && a != b && b != d && a != d
    ensures Three(t, CastThree(t, r, v, a, b, d), r, v, a, b, d)
    ensures |Senders(Cast(t, r, v, a), r, v)| == 1 && |Senders(Cast(Cast(t, r, v, a), r, v, b), r, v)| == 2
    ensures |Senders(CastThree(t, r, v, a, b, d), r, v)| == 3
    ensures a !in Senders(t, r, v) && b !in Senders(Cast(t, r, v, a), r, v)
    ensures d !in Senders(Cast(Cast(t, r, v, a), r, v, b), r, v)
  {
    assert Senders(Cast(t, r, v, a), r, v) == {a};
    assert Senders(Cast(Cast(t, r, v, a), r, v, b), r, v) == {a, b};
    assert Senders(CastThree(t, r, v, a, b, d), r, v) == {a, b, d};
    forall r', v' | r' != r || v' != v ensures Senders(CastThree(t, r, v, a, b, d), r', v') == Senders(t, r', v') {
      assert Senders(Cast(t, r, v, a), r', v') == Senders(t, r', v');
      assert Senders(Cast(Cast(t, r, v, a), r, v, b), r', v') == Senders(t, r', v');
    }
  }

  // EST v from a and b makes the peer send its own, and with that v is binary.
  function EstTwo(nd: Node, me: Peer, r: int, v: int, a: int, b: int): Node {
    HandleEst(HandleEst(nd, me, r, a, v), me, r, b, v)
  }

  function EstThree(nd: Node, me: Peer, r: int, v: int, a: int, b: int): Node {
    HandleEst(EstTwo(nd, me, r, v, a, b), me, r, me.id, v)
  }

  lemma EstVotes(nd: Node, me: Peer, r: int, v: int, a: int, b: int)
    requires me.f == 1 && Senders(nd.board.estValues, r, v) == {} && a != b && a != me.id && b != me.id
    ensures EstTwo(nd, me, r, v, a, b).sent == nd.sent + {Est(r, me.id, v)}
    ensures var nd' := EstThree(nd, me, r, v, a, b);
      && nd' == nd.(board := nd'.board, sent := nd.sent + {Est(r, me.id, v)})
      && nd'.board == nd.board.(estValues := nd'.board.estValues, binValues := Add(nd.board.binValues, r, v))
      && Three(nd.board.estValues, nd'.board.estValues, r, v, a, b, me.id)
  {
    hide Senders, Three;
    ThreeVotes(nd.board.estValues, r, v, a, b, me.id);
  }

  // Votes for (r, v) from some voters, each counted once.
  function CastAll(t: Tally, r: int, v: int, voters: seq<int>): Tally {
    if voters == [] then t
    else
      var t1 := CastAll(t, r, v, voters[..|voters| - 1]);
      var x := voters[|voters| - 1];
      if x in Senders(t1, r, v) then t1 else Cast(t1, r, v, x)
  }

  lemma {:induction false} AllVotes(t: Tally, r: int, v: int, voters: seq<int>)
    ensures Senders(CastAll(t, r, v, voters), r, v) == Senders(t, r, v) + (set x | x in voters)
    ensures forall r', v' :: r' != r || v' != v ==>
              Senders(CastAll(t, r, v, voters), r', v') == Senders(t, r', v')
  {
    if voters != [] {
      var init, x := voters[..|voters| - 1], voters[|voters| - 1];
      AllVotes(t, r, v, init);
      assert voters == init + [x];
      assert (set y | y in voters) == (set y | y in init) + {x};
    }
  }

  function HandleAll(nd: Node, me: Peer, ms: seq<Msg>): Node {
    if ms == [] then nd else HandleMsg(HandleAll(nd, me, ms[..|ms| - 1]), me, ms[|ms| - 1], true)
  }

  function Auxs(r: int, v: int, voters: seq<int>): seq<Msg> {
    seq(|voters|, i requires 0 <= i < |voters| => Aux(r, voters[i], v))
  }

  function Confs(r: int, v: int, voters: seq<int>): seq<Msg> {
    seq(|voters|, i requires 0 <= i < |voters| => Conf(r, voters[i], v))
  }

  lemma {:induction false} AllAuxs(nd: Node, me: Peer, r: int, v: int, voters: seq<int>)
    ensures HandleAll(nd, me, Auxs(r, v, voters)) ==
      nd.(board := nd.board.(auxValues := CastAll(nd.board.auxValues, r, v, voters)))
  {
    if voters != [] {
      var init := voters[..|voters| - 1];
      AllAuxs(nd, me, r, v, init);
      assert Auxs(r, v, voters)[..|voters| - 1] == Auxs(r, v, init);
    }
  }

  lemma {:induction false} AllConfs(nd: Node, me: Peer, r: int, v: int, voters: seq<int>)
    ensures HandleAll(nd, me, Confs(r, v, voters)) ==
      nd.(board := nd.board.(confValues := CastAll(nd.board.confValues, r, v, voters)))
  {
    if voters != [] {
      var init := voters[..|voters| - 1];
      AllConfs(nd, me, r, v, init);
      assert Confs(r, v, voters)[..|voters| - 1] == Confs(r, v, init);
    }
  }

  // Enough voters for the waits of the agreement loop.
  ghost predicate Quorate(n: int, f: int, voters: seq<int>) {
    |(set x | x in voters)| >= n - f > 0
  }

  // AUX v from a quorum makes the peer send CONF v.
  lemma AuxVotes(nd: Node, me: Peer, v: int, voters: seq<int>)
    requires Quorate(me.n, me.f, voters) && nd.phase == WaitAux && v in {0, 1}
    requires Senders(nd.board.auxValues, nd.round, 0) == {} == Senders(nd.board.auxValues, nd.round, 1)
    requires v in Values(nd.board.binValues, nd.round)
    ensures var nd1 := HandleAll(nd, me, Auxs(nd.round, v, voters));
      var nd' := Wake(nd1, me);
      && nd1.hist.outs == nd.hist.outs && nd1.sent == nd.sent
      && nd' == nd.(phase := WaitConf, board := nd'.board, hist := nd'.hist,
                    sent := nd.sent + {Conf(nd.round, me.id, v)})
      && nd'.board == nd.board.(auxValues := CastAll(nd.board.auxValues, nd.round, v, voters))
      && nd'.hist.outs == nd.hist.outs
  {
    hide Senders, CastAll;
    AllVotes(nd.board.auxValues, nd.round, v, voters);
    AllAuxs(nd, me, nd.round, v, voters);
    assert {} + (set x | x in voters) == (set x | x in voters);
  }

  // CONF v from a quorum makes the value v.
  lemma ConfVotes(nd: Node, me: Peer, v: int, voters: seq<int>)
    requires Quorate(me.n, me.f, voters) && nd.phase == WaitConf && v in {0, 1}
    requires Senders(nd.board.confValues, nd.round, 0) == {} == Senders(nd.board.confValues, nd.round, 1)
    requires v in Values(nd.board.binValues, nd.round)
    ensures var nd1 := HandleAll(nd, me, Confs(nd.round, v, voters));
      var nd' := Wake(nd1, me);
      && nd1.hist.outs == nd.hist.outs && nd1.sent == nd.sent
      && nd' == nd.(phase := WaitCoin, values := v, board := nd'.board, hist := nd'.hist,
                    sent := nd.sent + {Coin(nd.round, me.id, me.hash(nd.round))})
      && nd'.board == nd.board.(confValues := CastAll(nd.board.confValues, nd.round, v, voters))
      && nd'.hist.outs == nd.hist.outs
  {
    hide Senders, CastAll;
    AllVotes(nd.board.confValues, nd.round, v, voters);
    AllConfs(nd, me, nd.round, v, voters);
    assert {} + (set x | x in voters) == (set x | x in voters);
  }

  // A round's coin from peers x and y.
  function CoinTwo(nd: Node, me: Peer, r: int, x: int, y: int): Node {
    HandleCoin(HandleCoin(nd, me, C.Share(r, x, me.hash(r)), true), me, C.Share(r, y, me.hash(r)), true)
  }

  lemma CoinShares(nd: Node, me: Peer, r: int, x: int, y: int)
    requires me.f == 1 && x != y && C.SharesOf(nd.coin, r) == {}
    ensures var nd' := CoinTwo(nd, me, r, x, y);
      && nd' == nd.(coin := nd'.coin)
      && nd'.coin.queue == nd.coin.queue + [me.hash(r) % 2]
      && (forall r' :: r' != r ==> C.SharesOf(nd'.coin, r') == C.SharesOf(nd.coin, r'))
      && C.Heard(nd'.coin, x) == (if C.Heard(nd.coin, x) == r then r + 1 else C.Heard(nd.coin, x))
  {
    hide C.Handle;
    var b1 := HandleCoin(nd, me, C.Share(r, x, me.hash(r)), true).coin;
    C.HandleShape(nd.coin, me.f, C.Share(r, x, me.hash(r)));
    C.HandleShape(b1, me.f, C.Share(r, y, me.hash(r)));
    assert C.SharesOf(b1, r) == {x};
  }

  // ----- stretches of runs -----

  // A step that neither gives an input nor makes an output.
  ghost predicate Hop(c: Cfg, s: Sys, s': Sys, who: set<int>) {
    exists step :: Next(c, s, step, s') && Ordered(c, s, step, who) && !step.Give?
                   && After(c, s[step.p], step).hist.outs == s[step.p].hist.outs
  }

  lemma HopStep(c: Cfg, s: Sys, s': Sys, who: set<int>) returns (step: Step)
    requires Hop(c, s, s', who)
    ensures Enabled(c, s, step) && Ordered(c, s, step, who) && !step.Give? && step.p in s
    ensures s' == s[step.p := After(c, s[step.p], step)]
    ensures After(c, s[step.p], step).hist.outs == s[step.p].hist.outs
  {
    step :| Next(c, s, step, s') && Ordered(c, s, step, who) && !step.Give?
            && After(c, s[step.p], step).hist.outs == s[step.p].hist.outs;
  }

  ghost predicate Path(c: Cfg, run: seq<Sys>, who: set<int>) {
    run != [] && forall i :: 0 < i < |run| ==> Hop(c, run[i - 1], run[i], who)
  }

  ghost predicate Reach(c: Cfg, s: Sys, s': Sys, who: set<int>) {
    exists run :: Path(c, run, who) && run[0] == s && run[|run| - 1] == s'
  }

  lemma ReachSelf(c: Cfg, s: Sys, who: set<int>)
    ensures Reach(c, s, s, who)
  {
    assert Path(c, [s], who);
  }

  lemma ReachHop(c: Cfg, s: Sys, s': Sys, s'': Sys, who: set<int>)
    requires Reach(c, s, s', who) && Hop(c, s', s'', who)
    ensures Reach(c, s, s'', who)
  {
    hide Hop;
    var run :| Path(c, run, who) && run[0] == s && run[|run| - 1] == s';
    var longer := run + [s''];
    forall i | 0 < i < |longer| ensures Hop(c, longer[i - 1], longer[i], who) {
      if i < |run| {
        assert Hop(c, run[i - 1], run[i], who);
      }
    }
    assert Path(c, longer, who);
  }

  // n = 4 or 5, f = 1, peer 3 faulty.
  predicate Small(c: Cfg) {
    (c.n == 4 || c.n == 5) && c.f == 1 && c.faulty == {3}
  }

  // The correct peers.
  predicate Follows(n: int, p: int) {
    p == 0 || p == 1 || p == 2 || (n == 5 && p == 4)
  }

  predicate Present(n: int, s: Sys) {
    0 in s && 1 in s && 2 in s && (n == 5 ==> 4 in s)
  }

  lemma SmallCorrect(c: Cfg)
    requires Small(c)
    ensures ValidCfg(c) && (forall p :: p in Correct(c) <==> Follows(c.n, p))
    ensures c.n == 4 ==> Correct(c) == {0, 1, 2}
  {
    assert c.n == 4 ==> forall x :: x in Peers(4) - {3} <==> x in {0, 1, 2};
  }

  lemma Steady(c: Cfg, s: Sys, p: int)
    requires Small(c) && Present(c.n, s) && Follows(c.n, p)
    ensures Complete(c, s) && p in Correct(c) && p in s
  {
    hide Correct;
    SmallCorrect(c);
  }

  lemma StartInit(c: Cfg, s: Sys)
    requires Small(c) && Present(c.n, s) && forall p :: p in s ==> s[p] == FRESH
    ensures Init(c, s) && Complete(c, s)
  {
    hide Correct, Small, FRESH;
    SmallCorrect(c);
    forall p | p in Correct(c) ensures p in s && s[p] == FRESH {
      assert Follows(c.n, p);
    }
  }

  // Peer p handles one message other than a coin share, or is woken up.
  lemma Handles(c: Cfg, s0: Sys, s: Sys, p: int, m: Msg, who: set<int>)
    requires Small(c) && Present(c.n, s) && Follows(c.n, p) && Reach(c, s0, s, who) && Available(c, s, m) && !m.Coin?
    ensures Reach(c, s0, s[p := HandleMsg(s[p], PeerOf(c, p), m, true)], who)
  {
    hide Reach, Available, Complete, Correct, Small, Present;
    Steady(c, s, p);
    var s' := s[p := HandleMsg(s[p], PeerOf(c, p), m, true)];
    assert Next(c, s, Deliver(p, m, true), s') && Ordered(c, s, Deliver(p, m, true), who);
    ReachHop(c, s0, s, s', who);
  }

  lemma WakesUp(c: Cfg, s0: Sys, s: Sys, p: int, who: set<int>)
    requires Small(c) && Present(c.n, s) && Follows(c.n, p) && Reach(c, s0, s, who)
    requires Wake(s[p], PeerOf(c, p)).hist.outs == s[p].hist.outs
    ensures Reach(c, s0, s[p := Wake(s[p], PeerOf(c, p))], who)
  {
    hide Reach, Wake, Complete, Correct, Small, Present;
    Steady(c, s, p);
    var s' := s[p := Wake(s[p], PeerOf(c, p))];
    assert Next(c, s, WakeUp(p), s') && Ordered(c, s, WakeUp(p), who);
    ReachHop(c, s0, s, s', who);
  }

  lemma HandlesCoin(c: Cfg, s0: Sys, s: Sys, p: int, r: int, x: int, who: set<int>)
    requires Small(c) && Present(c.n, s) && Follows(c.n, p) && Reach(c, s0, s, who)
    requires Available(c, s, Coin(r, x, c.hash(r))) && (x in who ==> 0 <= r <= C.Heard(s[p].coin, x))
    ensures Reach(c, s0, s[p := HandleCoin(s[p], PeerOf(c, p), C.Share(r, x, c.hash(r)), true)], who)
  {
    hide Reach, Available, C.Handle, Complete, Correct, Small, Present;
    Steady(c, s, p);
    var step := Deliver(p, Coin(r, x, c.hash(r)), true);
    var s' := s[p := HandleCoin(s[p], PeerOf(c, p), C.Share(r, x, c.hash(r)), true)];
    forall m | Accepts(step, m) ensures m == C.Share(r, x, c.hash(r)) {}
    assert Next(c, s, step, s') && Ordered(c, s, step, who);
    ReachHop(c, s0, s, s', who);
  }

  // ----- phases of a round at one peer -----

  // In round r with binary value v, waiting in `phase`; later rounds untouched.
  ghost predicate Midway(nd: Node, r: int, v: int, phase: Phase) {
    && At(nd, r, phase) && v in Values(nd.board.binValues, r)
    && Quiet(nd, r + 1) && C.SharesOf(nd.coin, r) == {}
    && (phase == WaitAux ==> forall w :: Senders(nd.board.auxValues, r, w) == {})
    && (phase != WaitCoin ==> forall w :: Senders(nd.board.confValues, r, w) == {})
  }

  ghost predicate Keeps(nd: Node, nd': Node) {
    nd.sent <= nd'.sent && nd'.hist.outs == nd.hist.outs && nd'.decided == nd.decided && nd'.coin == nd.coin
  }

  lemma SentStays(nd: Node, me: Peer, m: Msg)
    ensures nd.sent <= HandleMsg(nd, me, m, true).sent && HandleMsg(nd, me, m, true).hist == nd.hist
  {
  }

  lemma StillAvailable(c: Cfg, s: Sys, p: int, nd: Node, m: Msg)
    requires Available(c, s, m) && p in s && s[p].sent <= nd.sent
    ensures Available(c, s[p := nd], m)
  {
  }

  // Peer p handles three votes; the last may be one it has just sent itself.
  lemma HandlesThree(c: Cfg, s0: Sys, s: Sys, p: int, m1: Msg, m2: Msg, m3: Msg, who: set<int>)
    requires Small(c) && Present(c.n, s) && Follows(c.n, p) && Reach(c, s0, s, who)
    requires !m1.Coin? && !m2.Coin? && !m3.Coin? && Available(c, s, m1) && Available(c, s, m2)
    requires var me := PeerOf(c, p);
      Available(c, s, m3) || (m3.sender == p && m3 in HandleMsg(HandleMsg(s[p], me, m1, true), me, m2, true).sent)
    ensures var me := PeerOf(c, p);
      Reach(c, s0, s[p := HandleMsg(HandleMsg(HandleMsg(s[p], me, m1, true), me, m2, true), me, m3, true)], who)
  {
    hide Reach, HandleMsg, Available;
    var me := PeerOf(c, p);
    var nd1 := HandleMsg(s[p], me, m1, true);
    var nd2 := HandleMsg(nd1, me, m2, true);
    var nd3 := HandleMsg(nd2, me, m3, true);
    SentStays(s[p], me, m1);
    SentStays(nd1, me, m2);
    Handles(c, s0, s, p, m1, who);
    StillAvailable(c, s, p, nd1, m2);
    Handles(c, s0, s[p := nd1], p, m2, who);
    assert s[p := nd1][p := nd2] == s[p := nd2];
    if Available(c, s, m3) {
      StillAvailable(c, s, p, nd2, m3);
    } else {
      OwnAvailable(c, s[p := nd2], p, m3);
    }
    Handles(c, s0, s[p := nd2], p, m3, who);
    assert s[p := nd2][p := nd3] == s[p := nd3];
  }

  lemma OwnAvailable(c: Cfg, s: Sys, p: int, m: Msg)
    requires Small(c) && Follows(c.n, p) && p in s && m.sender == p && m in s[p].sent
    ensures Available(c, s, m)
  {
  }

  // Peer p handles some messages that are there for it.
  lemma {:induction false} HandlesAll(c: Cfg, s0: Sys, s: Sys, p: int, ms: seq<Msg>, who: set<int>)
    requires Small(c) && Present(c.n, s) && Follows(c.n, p) && Reach(c, s0, s, who)
    requires forall m :: m in ms ==> !m.Coin? && Available(c, s, m)
    ensures Reach(c, s0, s[p := HandleAll(s[p], PeerOf(c, p), ms)], who)
    ensures s[p].sent <= HandleAll(s[p], PeerOf(c, p), ms).sent
  {
    hide Reach, HandleMsg, Available;
    var me := PeerOf(c, p);
    if ms == [] {
      assert s[p := s[p]] == s;
    } else {
      var init, m := ms[..|ms| - 1], ms[|ms| - 1];
      HandlesAll(c, s0, s, p, init, who);
      var nd := HandleAll(s[p], me, init);
      SentStays(nd, me, m);
      StillAvailable(c, s, p, nd, m);
      Handles(c, s0, s[p := nd], p, m, who);
      assert s[p := nd][p := HandleMsg(nd, me, m, true)] == s[p := HandleMsg(nd, me, m, true)];
    }
  }

  lemma ThenWakes(c: Cfg, s0: Sys, s: Sys, p: int, nd: Node, who: set<int>)
    requires Small(c) && Present(c.n, s) && Follows(c.n, p) && Reach(c, s0, s[p := nd], who)
    requires Wake(nd, PeerOf(c, p)).hist.outs == nd.hist.outs
    ensures Reach(c, s0, s[p := Wake(nd, PeerOf(c, p))], who)
  {
    hide Reach, Wake;
    WakesUp(c, s0, s[p := nd], p, who);
    assert s[p := nd][p := Wake(nd, PeerOf(c, p))] == s[p := Wake(nd, PeerOf(c, p))];
  }

  // EST v from a, b and itself in an untouched round: AUX v is sent.
  lemma EstMidway(nd: Node, me: Peer, r: int, v: int, a: int, b: int)
    requires me.f == 1 && a != b && a != me.id && b != me.id && At(nd, r, WaitBinary) && Quiet(nd, r)
    ensures var nd1 := EstThree(nd, me, r, v, a, b);
      var nd' := Wake(nd1, me);
      && nd1.hist == nd.hist && nd'.hist.outs == nd.hist.outs && Est(r, me.id, v) in EstTwo(nd, me, r, v, a, b).sent
      && Midway(nd', r, v, WaitAux) && Keeps(nd, nd') && Aux(r, me.id, v) in nd'.sent
  {
    hide Senders, EstThree, EstTwo;
    assert Untouched(nd, r, v);
    EstVotes(nd, me, r, v, a, b);
    QuietLater(nd, Wake(EstThree(nd, me, r, v, a, b), me), r, v);
  }

  lemma QuietLater(nd: Node, nd': Node, r: int, v: int)
    requires Quiet(nd, r) && nd'.coin == nd.coin
    requires nd'.board == nd.board.(estValues := nd'.board.estValues, binValues := Add(nd.board.binValues, r, v))
    requires forall r', v' :: r' != r ==> Senders(nd'.board.estValues, r', v') == Senders(nd.board.estValues, r', v')
    ensures Quiet(nd', r + 1) && C.SharesOf(nd'.coin, r) == {}
    ensures forall w :: Senders(nd'.board.auxValues, r, w) == {} && Senders(nd'.board.confValues, r, w) == {}
  {
    assert Untouched(nd, r, 0);
    forall w ensures Senders(nd'.board.auxValues, r, w) == {} && Senders(nd'.board.confValues, r, w) == {} {
      assert Untouched(nd, r, w);
    }
    forall r', v' | r' >= r + 1 ensures Untouched(nd', r', v') {
      assert Untouched(nd, r', v');
    }
  }

  lemma EstPhase(c: Cfg, s0: Sys, s: Sys, p: int, r: int, v: int, a: int, b: int, who: set<int>) returns (nd': Node)
    requires Small(c) && Present(c.n, s) && Follows(c.n, p) && Reach(c, s0, s, who)
    requires Available(c, s, Est(r, a, v)) && Available(c, s, Est(r, b, v)) && a != b && a != p && b != p
    requires At(s[p], r, WaitBinary) && Quiet(s[p], r)
    ensures Reach(c, s0, s[p := nd'], who)
    ensures Midway(nd', r, v, WaitAux) && Keeps(s[p], nd') && Aux(r, p, v) in nd'.sent
  {
    hide Reach, HandleEst, Wake, Available, Midway, Keeps, Quiet;
    var me := PeerOf(c, p);
    EstMidway(s[p], me, r, v, a, b);
    HandlesThree(c, s0, s, p, Est(r, a, v), Est(r, b, v), Est(r, p, v), who);
    ThenWakes(c, s0, s, p, EstThree(s[p], me, r, v, a, b), who);
    nd' := Wake(EstThree(s[p], me, r, v, a, b), me);
  }

  lemma CoversLater(nd: Node, nd': Node, r: int, v: int, voters: seq<int>)
    requires Quiet(nd, r + 1) && nd'.coin == nd.coin && nd'.board.estValues == nd.board.estValues
    requires nd'.board.binValues == nd.board.binValues
    requires nd'.board.auxValues in {nd.board.auxValues, CastAll(nd.board.auxValues, r, v, voters)}
    requires nd'.board.confValues in {nd.board.confValues, CastAll(nd.board.confValues, r, v, voters)}
    ensures Quiet(nd', r + 1)
  {
    hide Senders, Values, C.SharesOf, CastAll;
    AllVotes(nd.board.auxValues, r, v, voters);
    AllVotes(nd.board.confValues, r, v, voters);
    forall r', v' | r' >= r + 1 ensures Untouched(nd', r', v') {
      assert Untouched(nd, r', v');
    }
  }

  // AUX v from a quorum.
  lemma AuxMidway(nd: Node, me: Peer, r: int, v: int, voters: seq<int>)
    requires Quorate(me.n, me.f, voters) && v in {0, 1} && Midway(nd, r, v, WaitAux)
    ensures var nd1 := HandleAll(nd, me, Auxs(r, v, voters));
      var nd' := Wake(nd1, me);
      && nd1.hist == nd.hist && nd'.hist.outs == nd.hist.outs && nd'.board.binValues == nd.board.binValues
      && Midway(nd', r, v, WaitConf) && Keeps(nd, nd') && Conf(r, me.id, v) in nd'.sent
  {
    hide Senders, Wake, Values, C.SharesOf, Quiet, CastAll, HandleAll, Auxs, Quorate;
    AuxVotes(nd, me, v, voters);
    AllAuxs(nd, me, r, v, voters);
    CoversLater(nd, Wake(HandleAll(nd, me, Auxs(r, v, voters)), me), r, v, voters);
  }

  lemma AuxPhase(c: Cfg, s0: Sys, s: Sys, p: int, r: int, v: int, voters: seq<int>, who: set<int>)
    returns (nd': Node)
    requires Small(c) && Present(c.n, s) && Follows(c.n, p) && Reach(c, s0, s, who)
    requires (forall x :: x in voters ==> Available(c, s, Aux(r, x, v))) && Quorate(c.n, c.f, voters)
    requires Midway(s[p], r, v, WaitAux) && v in {0, 1}
    ensures Reach(c, s0, s[p := nd'], who) && nd'.board.binValues == s[p].board.binValues
    ensures Midway(nd', r, v, WaitConf) && Keeps(s[p], nd') && Conf(r, p, v) in nd'.sent
  {
    hide Reach, HandleAll, Wake, Available, Midway, Keeps, Quorate;
    var me := PeerOf(c, p);
    AuxMidway(s[p], me, r, v, voters);
    HandlesAll(c, s0, s, p, Auxs(r, v, voters), who);
    ThenWakes(c, s0, s, p, HandleAll(s[p], me, Auxs(r, v, voters)), who);
    nd' := Wake(HandleAll(s[p], me, Auxs(r, v, voters)), me);
  }

  // CONF v from a quorum.
  lemma ConfMidway(nd: Node, me: Peer, r: int, v: int, voters: seq<int>)
    requires Quorate(me.n, me.f, voters) && v in {0, 1} && Midway(nd, r, v, WaitConf)
    ensures var nd1 := HandleAll(nd, me, Confs(r, v, voters));
      var nd' := Wake(nd1, me);
      && nd1.hist == nd.hist && nd'.hist.outs == nd.hist.outs && nd'.values == v
      && Midway(nd', r, v, WaitCoin) && Keeps(nd, nd') && Coin(r, me.id, me.hash(r)) in nd'.sent
  {
    hide Senders, Wake, Values, C.SharesOf, Quiet, CastAll, HandleAll, Confs, Quorate;
    ConfVotes(nd, me, v, voters);
    AllConfs(nd, me, r, v, voters);
    CoversLater(nd, Wake(HandleAll(nd, me, Confs(r, v, voters)), me), r, v, voters);
  }

  lemma ConfPhase(c: Cfg, s0: Sys, s: Sys, p: int, r: int, v: int, voters: seq<int>, who: set<int>)
    returns (nd': Node)
    requires Small(c) && Present(c.n, s) && Follows(c.n, p) && Reach(c, s0, s, who)
    requires (forall x :: x in voters ==> Available(c, s, Conf(r, x, v))) && Quorate(c.n, c.f, voters)
    requires Midway(s[p], r, v, WaitConf) && v in {0, 1}
    ensures Reach(c, s0, s[p := nd'], who)
    ensures Midway(nd', r, v, WaitCoin) && nd'.values == v
    ensures Keeps(s[p], nd') && Coin(r, p, c.hash(r)) in nd'.sent
  {
    hide Reach, HandleAll, Wake, Available, Midway, Keeps, Quorate;
    var me := PeerOf(c, p);
    ConfMidway(s[p], me, r, v, voters);
    HandlesAll(c, s0, s, p, Confs(r, v, voters), who);
    ThenWakes(c, s0, s, p, HandleAll(s[p], me, Confs(r, v, voters)), who);
    nd' := Wake(HandleAll(s[p], me, Confs(r, v, voters)), me);
  }

  // ----- the coin of a round -----

  // Round r's coin is on the channel.
  ghost predicate Tossed(nd: Node, r: int, bit: int) {
    && At(nd, r, WaitCoin) && nd.coin.queue == [bit]
    && forall r', v :: r' > r ==> Untouched(nd, r', v)
  }

  lemma CoinTossed(nd: Node, me: Peer, r: int, x: int, y: int)
    requires me.f == 1 && x != y && At(nd, r, WaitCoin) && Quiet(nd, r + 1) && C.SharesOf(nd.coin, r) == {}
    ensures var nd' := CoinTwo(nd, me, r, x, y);
      && nd' == nd.(coin := nd'.coin) && Tossed(nd', r, me.hash(r) % 2)
      && C.Heard(nd'.coin, x) == (if C.Heard(nd.coin, x) == r then r + 1 else C.Heard(nd.coin, x))
  {
    hide Senders, Values, C.SharesOf, CoinTwo;
    CoinShares(nd, me, r, x, y);
    var nd' := CoinTwo(nd, me, r, x, y);
    forall r', v | r' > r ensures Untouched(nd', r', v) {
      assert Untouched(nd, r', v);
    }
  }

  // Round r's shares of x and of faulty peer 3 reach p.
  lemma CoinPhase(c: Cfg, s0: Sys, s: Sys, p: int, r: int, x: int, who: set<int>) returns (nd': Node)
    requires Small(c) && Present(c.n, s) && Follows(c.n, p) && Reach(c, s0, s, who) && r >= 0
    requires Available(c, s, Coin(r, x, c.hash(r))) && x != 3 && C.Heard(s[p].coin, x) >= r
    requires 3 in who ==> C.Heard(s[p].coin, 3) >= r
    requires At(s[p], r, WaitCoin) && Quiet(s[p], r + 1) && C.SharesOf(s[p].coin, r) == {}
    ensures Reach(c, s0, s[p := nd'], who)
    ensures nd' == s[p].(coin := nd'.coin) && Tossed(nd', r, c.hash(r) % 2)
    ensures C.Heard(nd'.coin, x) == if C.Heard(s[p].coin, x) == r then r + 1 else C.Heard(s[p].coin, x)
  {
    hide Reach, C.Handle, Tossed, Quiet, Available;
    var me := PeerOf(c, p);
    CoinTossed(s[p], me, r, x, 3);
    var nd1 := HandleCoin(s[p], me, C.Share(r, x, c.hash(r)), true);
    HandlesCoin(c, s0, s, p, r, x, who);
    HeardOther(s[p], me, C.Share(r, x, c.hash(r)), 3);
    FaultyAvailable(c, s[p := nd1], Coin(r, 3, c.hash(r)));
    HandlesCoin(c, s0, s[p := nd1], p, r, 3, who);
    nd' := CoinTwo(s[p], me, r, x, 3);
    assert s[p := nd1][p := nd'] == s[p := nd'];
  }

  lemma HeardOther(nd: Node, me: Peer, m: C.Share, y: int)
    requires m.sender != y
    ensures C.Heard(HandleCoin(nd, me, m, true).coin, y) == C.Heard(nd.coin, y)
  {
    hide C.Handle;
    C.HandleShape(nd.coin, me.f, m);
  }

  lemma FaultyAvailable(c: Cfg, s: Sys, m: Msg)
    requires Small(c) && m.sender == 3
    ensures Available(c, s, m)
  {
  }

  // Undecided, with another bit than the value: the next round starts.
  lemma NextRound(nd: Node, me: Peer, r: int, bit: int)
    requires Tossed(nd, r, bit) && nd.values != bit
    ensures var nd' := Wake(nd, me);
      && At(nd', r + 1, WaitBinary) && Quiet(nd', r + 1) && nd'.hist.outs == nd.hist.outs && nd'.decided == nd.decided
      && nd'.sent == nd.sent + {Est(r + 1, me.id, if nd.values == BOTH then bit else nd.values)}
      && (forall x :: C.Heard(nd'.coin, x) == C.Heard(nd.coin, x))
  {
    hide Senders, Values;
    var nd' := Wake(nd, me);
    forall r', v | r' >= r + 1 ensures Untouched(nd', r', v) {
      assert Untouched(nd, r', v);
    }
  }

  // Undecided, with the bit equal to the value: it is output.
  lemma Outputs(nd: Node, me: Peer, r: int, bit: int)
    requires Tossed(nd, r, bit) && nd.values == bit && bit != BOTH && nd.decided.None?
    ensures Wake(nd, me).hist.outs == nd.hist.outs + [bit] && nd.sent <= Wake(nd, me).sent
  {
  }

  // ----- a round of a group of peers with the faulty peer -----

  // What a peer says before it waits in a phase of round r.
  function Said(c: Cfg, phase: Phase, r: int, p: int, v: int): Msg {
    match phase
    case WaitBinary => Est(r, p, v)
    case WaitAux => Aux(r, p, v)
    case WaitConf => Conf(r, p, v)
    case _ => Coin(r, p, c.hash(r))
  }

  function Following(phase: Phase): Phase {
    match phase
    case WaitBinary => WaitAux
    case WaitAux => WaitConf
    case _ => WaitCoin
  }

  ghost predicate Ready(c: Cfg, nd: Node, p: int, r: int, v: int, phase: Phase) {
    && Said(c, phase, r, p, v) in nd.sent
    && (if phase == WaitBinary then At(nd, r, phase) && Quiet(nd, r) else Midway(nd, r, v, phase))
    && (phase == WaitCoin ==> nd.values == v)
  }

  // Correct peers that make a quorum with the faulty peer.
  ghost predicate Group(c: Cfg, ps: seq<int>) {
    && (forall p :: p in ps ==> Follows(c.n, p))
    && |(set x | x in ps)| >= c.n - 2
    && Distinct(ps)
  }

  lemma GroupQuorate(c: Cfg, ps: seq<int>)
    requires Small(c) && Group(c, ps)
    ensures Quorate(c.n, c.f, ps + [3])
  {
    assert (set x | x in ps + [3]) == (set x | x in ps) + {3};
  }

  // One peer of the group goes through a phase.
  lemma Advance(c: Cfg, s0: Sys, s: Sys, ps: seq<int>, p: int, r: int, v: int, phase: Phase, who: set<int>)
    returns (nd': Node)
    requires Small(c) && Present(c.n, s) && Reach(c, s0, s, who) && v in {0, 1} && Group(c, ps) && p in ps
    requires phase in {WaitBinary, WaitAux, WaitConf} && Ready(c, s[p], p, r, v, phase)
    requires forall x :: x in ps ==> Available(c, s, Said(c, phase, r, x, v))
    ensures Reach(c, s0, s[p := nd'], who) && Ready(c, nd', p, r, v, Following(phase)) && Keeps(s[p], nd')
  {
    hide Reach, Available, Midway, Quiet, Keeps, Quorate, Distinct;
    forall m: Msg | m.sender == 3 ensures Available(c, s, m) { FaultyAvailable(c, s, m); }
    GroupQuorate(c, ps);
    match phase
    case WaitBinary =>
      var a := Another(c, ps, p);
      nd' := EstPhase(c, s0, s, p, r, v, a, 3, who);
    case WaitAux => nd' := AuxPhase(c, s0, s, p, r, v, ps + [3], who);
    case _ => nd' := ConfPhase(c, s0, s, p, r, v, ps + [3], who);
  }

  lemma Another(c: Cfg, ps: seq<int>, p: int) returns (a: int)
    requires Small(c) && Group(c, ps)
    ensures a in ps && a != p
  {
    var rest := (set x | x in ps) - {p};
    if rest == {} {
      SubsetCount((set x | x in ps), {p});
    }
    SomeElement(rest);
    a :| a in rest;
  }

  // The first i peers of the group go through a phase, one after the other.
  lemma {:induction false} GroupPhase(c: Cfg, s0: Sys, s: Sys, ps: seq<int>, i: nat, r: int, v: int, phase: Phase,
                                      who: set<int>) returns (s': Sys)
    requires Small(c) && Present(c.n, s) && Reach(c, s0, s, who) && v in {0, 1} && Group(c, ps) && i <= |ps|
    requires phase in {WaitBinary, WaitAux, WaitConf}
    requires forall p :: p in ps ==> p in s && Ready(c, s[p], p, r, v, phase)
    ensures Reach(c, s0, s', who) && s'.Keys == s.Keys
    ensures forall x :: x in s && x !in ps[..i] ==> s'[x] == s[x]
    ensures forall x :: x in ps[..i] ==> x in s && Ready(c, s'[x], x, r, v, Following(phase)) && Keeps(s[x], s'[x])
  {
    hide Reach, Ready, Group;
    if i == 0 {
      s' := s;
    } else {
      var t := GroupPhase(c, s0, s, ps, i - 1, r, v, phase, who);
      var p := ps[i - 1];
      assert ps[..i] == ps[..i - 1] + [p];
      OnceInGroup(c, ps, i - 1);
      forall x | x in ps ensures Available(c, t, Said(c, phase, r, x, v)) {
        GroupSaid(c, s, t, ps, x, r, v, phase);
      }
      var nd := Advance(c, s0, t, ps, p, r, v, phase, who);
      s' := t[p := nd];
    }
  }

  lemma OnceInGroup(c: Cfg, ps: seq<int>, i: nat)
    requires Group(c, ps) && i < |ps|
    ensures ps[i] !in ps[..i]
  {
    hide Distinct;
    forall j | 0 <= j < i ensures ps[j] != ps[i] {
      DistinctEntries(ps, j, i);
    }
  }

  lemma GroupSaid(c: Cfg, s: Sys, t: Sys, ps: seq<int>, x: int, r: int, v: int, phase: Phase)
    requires Small(c) && Group(c, ps) && x in ps && x in s && x in t && Ready(c, s[x], x, r, v, phase)
    requires t[x] == s[x] || Keeps(s[x], t[x])
    ensures Available(c, t, Said(c, phase, r, x, v))
  {
    hide Midway, Quiet;
  }

  // The group enters round r with v and ends it with value v, up to the coin.
  lemma GroupRound(c: Cfg, s0: Sys, s: Sys, ps: seq<int>, r: int, v: int, who: set<int>) returns (s': Sys)
    requires Small(c) && Present(c.n, s) && Reach(c, s0, s, who) && v in {0, 1} && Group(c, ps)
    requires forall p :: p in ps ==> p in s && Ready(c, s[p], p, r, v, WaitBinary)
    ensures Reach(c, s0, s', who) && s'.Keys == s.Keys
    ensures forall x :: x in s && x !in ps ==> s'[x] == s[x]
    ensures forall x :: x in ps ==> Ready(c, s'[x], x, r, v, WaitCoin) && Keeps(s[x], s'[x])
    ensures forall x :: x in ps ==> Aux(r, x, v) in s'[x].sent && Conf(r, x, v) in s'[x].sent
  {
    hide Reach, Group, Quiet, Midway;
    assert ps[..|ps|] == ps;
    var s1 := GroupPhase(c, s0, s, ps, |ps|, r, v, WaitBinary, who);
    var s2 := GroupPhase(c, s0, s1, ps, |ps|, r, v, WaitAux, who);
    s' := GroupPhase(c, s0, s2, ps, |ps|, r, v, WaitConf, who);
  }

  // ----- a round of peers 0 and 1 with the faulty peer -----

  function Two(s: Sys, x: Node, y: Node): Sys {
    s[0 := x][1 := y]
  }

  lemma TwoUpdate(s: Sys, x: Node, y: Node, x': Node, y': Node)
    ensures Two(s, x, y)[0 := x'] == Two(s, x', y) && Two(s, x, y)[1 := y'] == Two(s, x, y')
    ensures 0 in s && 1 in s ==> Two(s, s[0], s[1]) == s
  {
  }

  lemma TwoAvailable(c: Cfg, s: Sys, x: Node, y: Node, m: Msg)
    requires Small(c) && Present(c.n, s)
    requires (m.sender == 0 && m in x.sent) || (m.sender == 1 && m in y.sent) || m.sender == 3
             || (m.sender == 2 && m in s[2].sent)
    ensures Present(c.n, Two(s, x, y)) && Available(c, Two(s, x, y), m)
  {
  }

  lemma TwoParts(s: Sys, x: Node, y: Node)
    ensures var t := Two(s, x, y); 0 in t && 1 in t && t[0] == x && t[1] == y && (2 in s ==> 2 in t && t[2] == s[2])
  {
  }

  lemma PairGroup(c: Cfg)
    requires Small(c) && c.n == 4
    ensures Group(c, [0, 1])
  {
    var ps := [0, 1];
    assert (set x | x in ps) == {0, 1} && |{0, 1}| == 2;
    assert ps[..1] == [0];
  }

  // Peers 0 and 1 enter round r with v and end it with value v, up to the coin.
  lemma PairRound(c: Cfg, s0: Sys, s: Sys, r: int, v: int, who: set<int>) returns (x: Node, y: Node)
    requires Small(c) && c.n == 4 && Present(c.n, s) && Reach(c, s0, s, who) && v in {0, 1}
    requires At(s[0], r, WaitBinary) && Quiet(s[0], r) && Est(r, 0, v) in s[0].sent
    requires At(s[1], r, WaitBinary) && Quiet(s[1], r) && Est(r, 1, v) in s[1].sent
    ensures Reach(c, s0, Two(s, x, y), who)
    ensures Midway(x, r, v, WaitCoin) && Keeps(s[0], x) && x.values == v && Coin(r, 0, c.hash(r)) in x.sent
    ensures Aux(r, 0, v) in x.sent && Conf(r, 0, v) in x.sent
    ensures Midway(y, r, v, WaitCoin) && Keeps(s[1], y) && y.values == v && Coin(r, 1, c.hash(r)) in y.sent
    ensures Aux(r, 1, v) in y.sent && Conf(r, 1, v) in y.sent
  {
    hide Reach, Midway, Quiet, Keeps;
    var ps := [0, 1];
    PairGroup(c);
    assert Ready(c, s[0], 0, r, v, WaitBinary) && Ready(c, s[1], 1, r, v, WaitBinary);
    var s' := GroupRound(c, s0, s, ps, r, v, who);
    x, y := s'[0], s'[1];
    assert ps[0] in ps && ps[1] in ps;
    forall k | k in s ensures s'[k] == Two(s, x, y)[k] {
      assert k in ps <==> k == 0 || k == 1;
    }
    assert s'.Keys == Two(s, x, y).Keys;
    assert s' == Two(s, x, y);
  }

  // Both take the round's coin, which is not their value, and go on.
  lemma PairNext(c: Cfg, s0: Sys, s: Sys, x: Node, y: Node, r: int, who: set<int>) returns (x': Node, y': Node)
    requires Small(c) && Present(c.n, s) && Reach(c, s0, Two(s, x, y), who) && r >= 0 && 3 !in who
    requires At(x, r, WaitCoin) && Quiet(x, r + 1) && C.SharesOf(x.coin, r) == {}
    requires At(y, r, WaitCoin) && Quiet(y, r + 1) && C.SharesOf(y.coin, r) == {}
    requires C.Heard(x.coin, 0) == r && C.Heard(y.coin, 1) == r
    requires Coin(r, 0, c.hash(r)) in x.sent && Coin(r, 1, c.hash(r)) in y.sent
    requires x.values != c.hash(r) % 2 && y.values != c.hash(r) % 2
    ensures Reach(c, s0, Two(s, x', y'), who)
    ensures At(x', r + 1, WaitBinary) && Quiet(x', r + 1) && x'.hist.outs == x.hist.outs && x'.decided == x.decided
    ensures x'.sent == x.sent + {Est(r + 1, 0, NextEst(x.values, c.hash(r) % 2))} && C.Heard(x'.coin, 0) == r + 1
    ensures At(y', r + 1, WaitBinary) && Quiet(y', r + 1) && y'.hist.outs == y.hist.outs && y'.decided == y.decided
    ensures y'.sent == y.sent + {Est(r + 1, 1, NextEst(y.values, c.hash(r) % 2))} && C.Heard(y'.coin, 1) == r + 1
  {
    hide Reach, Two, Available, Quiet, Tossed, Wake, C.Heard;
    TwoParts(s, x, y);
    TwoAvailable(c, s, x, y, Coin(r, 0, c.hash(r)));
    var x1 := CoinPhase(c, s0, Two(s, x, y), 0, r, 0, who);
    NextRound(x1, PeerOf(c, 0), r, c.hash(r) % 2);
    ThenWakes(c, s0, Two(s, x, y), 0, x1, who);
    x' := Wake(x1, PeerOf(c, 0));
    TwoUpdate(s, x, y, x', y);
    TwoParts(s, x', y);
    TwoAvailable(c, s, x', y, Coin(r, 1, c.hash(r)));
    var y1 := CoinPhase(c, s0, Two(s, x', y), 1, r, 1, who);
    NextRound(y1, PeerOf(c, 1), r, c.hash(r) % 2);
    ThenWakes(c, s0, Two(s, x', y), 1, y1, who);
    y' := Wake(y1, PeerOf(c, 1));
    TwoUpdate(s, x', y, x', y');
  }
}
