// Building blocks for concrete runs of an epoch with n = 4 or 5, f = 1 and peer 3
// faulty: what a peer with no event waiting does, one event at a time.

module EpochScenes {
  import opened Options
  import opened Quorum
  import opened EpochNode
  import opened EpochSystem
  import opened EpochRuns
  import I = EpochInv
  import N = AbaNode
  import A = AbaSystem
  import W = AbaScenes
  import C = CoinQueue

  predicate Small(c: Cfg) {
    (c.n == 4 || c.n == 5) && c.f == 1 && c.faulty == {3}
  }

  // The state is reached by a run with all coin shares in order.
  ghost predicate Arises(c: Cfg, s: Sys) {
    exists run :: IsOrdered(c, run) && run[|run| - 1] == s
  }

  lemma ArisesStep(c: Cfg, s: Sys, step: Step, s': Sys)
    requires Arises(c, s) && Next(c, s, step, s') && OrderedStep(c, s, step)
    ensures Arises(c, s')
  {
    hide Next, OrderedStep, Init;
    var run :| IsOrdered(c, run) && run[|run| - 1] == s;
    var longer := run + [s'];
    forall i | 0 < i < |longer| ensures StepsOrdered(c, longer[i - 1], longer[i]) {
      if i < |run| {
        assert StepsOrdered(c, run[i - 1], run[i]);
      }
    }
    assert IsOrdered(c, longer);
  }

  lemma ArisesRun(c: Cfg, s: Sys) returns (run: seq<Sys>)
    requires Arises(c, s)
    ensures IsOrdered(c, run) && run != [] && run[|run| - 1] == s
  {
    hide Init, StepsOrdered;
    run :| IsOrdered(c, run) && run[|run| - 1] == s;
  }

  lemma SmallCorrect(c: Cfg)
    requires Small(c)
    ensures ValidCfg(c) && (forall p :: p in Correct(c) <==> W.Follows(c.n, p))
  {
    assert A.Correct(Instance(c, 0)) == Correct(c);
    W.SmallCorrect(Instance(c, 0));
  }

  lemma ArisesComplete(c: Cfg, s: Sys)
    requires Small(c) && Arises(c, s)
    ensures Complete(c, s) && |s.abas| == c.n
    ensures forall p :: W.Follows(c.n, p) ==> p in s.nodes && p in Correct(c)
    ensures forall j :: 0 <= j < c.n ==> W.Present(c.n, s.abas[j])
  {
    hide Next, OrderedStep, A.Complete, Correct, Small;
    SmallCorrect(c);
    var run :| IsOrdered(c, run) && run[|run| - 1] == s;
    if |run| > 1 {
      assert StepsOrdered(c, run[|run| - 2], run[|run| - 1]);
      var step :| Next(c, run[|run| - 2], step, s);
      I.StepComplete(c, run[|run| - 2], step, s);
    }
    forall j | 0 <= j < c.n ensures W.Present(c.n, s.abas[j]) {
      InstancePresent(c, s, j);
    }
  }

  lemma InstancePresent(c: Cfg, s: Sys, j: int)
    requires Small(c) && 0 <= j < |s.abas| && A.Complete(Instance(c, j), s.abas[j])
    ensures W.Present(c.n, s.abas[j])
  {
    hide A.Correct;
    W.SmallCorrect(Instance(c, j));
  }

  // A peer in a state that arises.
  lemma Member(c: Cfg, s: Sys, p: int)
    requires Small(c) && Arises(c, s) && W.Follows(c.n, p)
    ensures Complete(c, s) && c.f == 1 && c.n > 0 && |s.abas| == c.n && p in Correct(c) && p in s.nodes
    ensures forall j :: 0 <= j < c.n ==> p in s.abas[j]
  {
    hide Arises, Complete, Correct;
    ArisesComplete(c, s);
    forall j | 0 <= j < c.n ensures p in s.abas[j] {
      assert W.Present(c.n, s.abas[j]);
    }
  }

  // ----- instances -----

  function SetAba(s: Sys, j: int, t: A.Sys): Sys
    requires 0 <= j < |s.abas|
  {
    s.(abas := s.abas[j := t])
  }

  // A step of an instance that makes no output leaves the peers' nodes as they are.
  lemma QuietStep(c: Cfg, u: Sys, j: int, st: A.Step)
    requires Complete(c, u) && 0 <= j < c.n && !st.Give? && A.Enabled(Instance(c, j), u.abas[j], st)
    requires A.After(Instance(c, j), u.abas[j][st.p], st).hist.outs == u.abas[j][st.p].hist.outs
    ensures Next(c, u, InAba(j, st), SetAba(u, j, u.abas[j][st.p := A.After(Instance(c, j), u.abas[j][st.p], st)]))
  {
    hide A.Complete, A.After, A.Enabled;
    StepPeer(c, u, j, st);
    var step, nd := InAba(j, st), u.nodes[st.p];
    assert NodeAfter(c, u, step) == nd;
    assert u.nodes[st.p := nd] == u.nodes;
  }

  lemma StepPeer(c: Cfg, u: Sys, j: int, st: A.Step)
    requires Complete(c, u) && 0 <= j < c.n && A.Enabled(Instance(c, j), u.abas[j], st)
    ensures st.p in Correct(c) && st.p in u.nodes && st.p in u.abas[j]
  {
  }

  lemma HopArises(c: Cfg, s: Sys, j: int, t: A.Sys, t': A.Sys)
    requires Small(c) && 0 <= j < c.n && |s.abas| == c.n && Arises(c, SetAba(s, j, t))
    requires W.Hop(Instance(c, j), t, t', Peers(c.n))
    ensures Arises(c, SetAba(s, j, t'))
  {
    hide Arises, A.Ordered, A.Enabled, A.After, Next, Complete, W.Hop;
    var u := SetAba(s, j, t);
    ArisesComplete(c, u);
    var ic := Instance(c, j);
    var st := W.HopStep(ic, t, t', Peers(c.n));
    QuietStep(c, u, j, st);
    assert SetAba(u, j, t') == SetAba(s, j, t');
    ArisesStep(c, u, InAba(j, st), SetAba(s, j, t'));
  }

  lemma {:induction false} PathArises(c: Cfg, s: Sys, j: int, run: seq<A.Sys>, i: nat)
    requires Small(c) && 0 <= j < c.n && |s.abas| == c.n && W.Path(Instance(c, j), run, Peers(c.n)) && i < |run|
    requires Arises(c, SetAba(s, j, run[0]))
    ensures Arises(c, SetAba(s, j, run[i]))
  {
    hide Arises, W.Hop;
    if i > 0 {
      PathArises(c, s, j, run, i - 1);
      assert W.Hop(Instance(c, j), run[i - 1], run[i], Peers(c.n));
      HopArises(c, s, j, run[i - 1], run[i]);
    }
  }

  // A stretch of an instance's run that makes no output is one of the epoch's.
  lemma ReachArises(c: Cfg, s: Sys, j: int, t: A.Sys)
    requires Small(c) && 0 <= j < c.n && |s.abas| == c.n && Arises(c, s)
    requires W.Reach(Instance(c, j), s.abas[j], t, Peers(c.n))
    ensures Arises(c, SetAba(s, j, t))
  {
    hide Arises, W.Hop;
    var run :| W.Path(Instance(c, j), run, Peers(c.n)) && run[0] == s.abas[j] && run[|run| - 1] == t;
    assert SetAba(s, j, run[0]) == s;
    PathArises(c, s, j, run, |run| - 1);
  }

  // ----- events at one peer -----

  predicate Idle(nd: Node) {
    nd.next == |nd.log|
  }

  function Put(s: Sys, p: int, nd: Node): Sys {
    s.(nodes := s.nodes[p := nd])
  }

  // The node after an event is put on its channel and handled.
  function On(nd: Node, p: int, ev: Event): Node {
    nd.(log := nd.log + [ev], next := |nd.log| + 1, epoch := HandleEvent(nd.epoch, 1, p, ev))
  }

  lemma HandlesNext(c: Cfg, s: Sys, p: int, nd: Node, ev: Event)
    requires Small(c) && W.Follows(c.n, p) && p in s.nodes && Idle(nd) && s.nodes[p] == Emit(nd, ev) && Arises(c, s)
    requires !ev.LotteryOut?
    ensures Arises(c, Put(s, p, On(nd, p, ev)))
  {
    hide Arises, HandleEvent, Complete, Correct, Small, W.Follows;
    Member(c, s, p);
    var s' := Put(s, p, On(nd, p, ev));
    assert s.nodes[p].log[s.nodes[p].next] == ev;
    assert Next(c, s, Handle(p), s');
    ArisesStep(c, s, Handle(p), s');
  }

  // A step that carries no coin share is in order.
  lemma CarriesNoShare(c: Cfg, s: Sys, step: Step)
    requires !step.InAba? || (0 <= step.j < |s.abas| && !step.step.Deliver?)
    ensures OrderedStep(c, s, step)
  {
  }

  lemma CandidateStep(c: Cfg, s: Sys, p: int, candidate: int, body: Body)
    requires Small(c) && Complete(c, s) && p in Correct(c) && p in s.nodes
    ensures Next(c, s, Cbc(p, candidate, body), Put(s, p, Emit(s.nodes[p], CbcOut(candidate, body))))
  {
  }

  lemma Candidate(c: Cfg, s: Sys, p: int, candidate: int, body: Body)
    requires Small(c) && W.Follows(c.n, p) && Arises(c, s) && p in s.nodes && Idle(s.nodes[p])
    ensures Arises(c, Put(s, p, On(s.nodes[p], p, CbcOut(candidate, body))))
  {
    hide Arises, HandleEvent, Next, Complete, Correct, W.Follows, OrderedStep;
    Member(c, s, p);
    CarriesNoShare(c, s, Cbc(p, candidate, body));
    var nd, ev := s.nodes[p], CbcOut(candidate, body);
    var s1 := Put(s, p, Emit(nd, ev));
    CandidateStep(c, s, p, candidate, body);
    ArisesStep(c, s, Cbc(p, candidate, body), s1);
    HandlesNext(c, s1, p, nd, ev);
    assert Put(s1, p, On(nd, p, ev)) == Put(s, p, On(nd, p, ev));
  }

  // Peer p's binary agreement j outputs v, and p handles that.
  lemma Output(c: Cfg, s: Sys, p: int, j: int, v: int, after: N.Node)
    requires Small(c) && W.Follows(c.n, p) && 0 <= j < c.n && Arises(c, s) && p in s.nodes && Idle(s.nodes[p])
    requires |s.abas| == c.n && p in s.abas[j] && s.abas[j][p].hist.outs == []
    requires after == N.Wake(s.abas[j][p], A.PeerOf(Instance(c, j), p)) && after.hist.outs == [v]
    ensures Arises(c, Put(SetAba(s, j, s.abas[j][p := after]), p, On(s.nodes[p], p, AbaOut(v, j))))
  {
    hide Arises, Next, Complete, On, Emit, N.Wake, Correct, W.Follows, OrderedStep;
    Member(c, s, p);
    CarriesNoShare(c, s, InAba(j, A.WakeUp(p)));
    var nd, ev, step := s.nodes[p], AbaOut(v, j), InAba(j, A.WakeUp(p));
    OutputStep(c, s, p, j, v, after);
    var s1 := Put(SetAba(s, j, s.abas[j][p := after]), p, Emit(nd, ev));
    ArisesStep(c, s, step, s1);
    HandlesNext(c, s1, p, nd, ev);
    assert Put(s1, p, On(nd, p, ev)) == Put(SetAba(s, j, s.abas[j][p := after]), p, On(nd, p, ev));
  }

  lemma OutputStep(c: Cfg, s: Sys, p: int, j: int, v: int, after: N.Node)
    requires p in Correct(c) && 0 <= j < c.n && Complete(c, s) && p in s.nodes && |s.abas| == c.n
    requires p in s.abas[j] && s.abas[j][p].hist.outs == []
    requires after == N.Wake(s.abas[j][p], A.PeerOf(Instance(c, j), p)) && after.hist.outs == [v]
    ensures Next(c, s, InAba(j, A.WakeUp(p)),
                 Put(SetAba(s, j, s.abas[j][p := after]), p, Emit(s.nodes[p], AbaOut(v, j))))
  {
    hide N.Wake, Complete;
    assert A.Enabled(Instance(c, j), s.abas[j], A.WakeUp(p));
    assert NodeAfter(c, s, InAba(j, A.WakeUp(p))) == Emit(s.nodes[p], AbaOut(v, j));
  }

  function Shared(nd: Node, j: int, x: int): Node {
    nd.(lotteries := Got(Got(nd.lotteries, j, x), j, 3))
  }

  lemma TwoShares(c: Cfg, nd: Node, j: int, x: int, out: int)
    requires Small(c) && ShareSenders(nd.lotteries, j) == {} && x != 3 && out == c.lot(j) % c.n
    ensures var nd1 := nd.(lotteries := Got(nd.lotteries, j, x));
      && TakeShare(c, nd, j, x, c.lot(j), true) == nd1
      && TakeShare(c, nd1, j, 3, c.lot(j), true) == Emit(Shared(nd, j, x), LotteryOut(j, out))
  {
    assert ShareSenders(Got(nd.lotteries, j, x), j) == {x};
    assert |{x} + {3}| == 2;
  }

  lemma ShareTaken(c: Cfg, s: Sys, p: int, j: int, x: int)
    requires Small(c) && W.Follows(c.n, p) && 0 <= j < c.n && Arises(c, s) && p in s.nodes
    requires x == 3 || (W.Follows(c.n, x) && x in s.nodes && j in s.nodes[x].epoch.shares)
    ensures Arises(c, Put(s, p, TakeShare(c, s.nodes[p], j, x, c.lot(j), true)))
  {
    hide Arises, TakeShare, Complete, Correct, Peers, Small, W.Follows;
    Member(c, s, p);
    SharePeer(c, x);
    var step, s' := Share(p, j, x, c.lot(j), true), Put(s, p, TakeShare(c, s.nodes[p], j, x, c.lot(j), true));
    assert Next(c, s, step, s');
    ArisesStep(c, s, step, s');
  }

  lemma SharePeer(c: Cfg, x: int)
    requires Small(c) && (x == 3 || W.Follows(c.n, x))
    ensures x in Peers(c.n) && (x == 3 ==> x !in Correct(c))
  {
  }

  // Lottery j fires at p on the shares of x and of the faulty peer, and elects out; p
  // gives its instance the input.
  lemma Elects(c: Cfg, s: Sys, p: int, j: int, x: int, out: int)
    requires Small(c) && W.Follows(c.n, p) && 0 <= j < c.n && W.Follows(c.n, x) && Arises(c, s)
    requires out == c.lot(j) % c.n
    requires p in s.nodes && Idle(s.nodes[p]) && ShareSenders(s.nodes[p].lotteries, j) == {}
    requires x in s.nodes && j in s.nodes[x].epoch.shares
    requires |s.abas| == c.n && p in s.abas[j] && s.abas[j][p].phase == N.WaitInput
    ensures var nd := s.nodes[p];
      var given := N.Input(s.abas[j][p], A.PeerOf(Instance(c, j), p), AbaInput(nd.epoch, out));
      Arises(c, Put(SetAba(s, j, s.abas[j][p := given]), p, On(Shared(nd, j, x), p, LotteryOut(j, out))))
  {
    hide Arises, HandleEvent, TakeShare, N.Input, On, Emit, Shared, AbaInput;
    var nd := s.nodes[p];
    TwoShares(c, nd, j, x, out);
    ShareTaken(c, s, p, j, x);
    var nd1 := nd.(lotteries := Got(nd.lotteries, j, x));
    ShareTaken(c, Put(s, p, nd1), p, j, 3);
    SharedSame(nd, j, x);
    var nd2 := Emit(Shared(nd, j, x), LotteryOut(j, out));
    PutTwice(s, p, nd1, nd2);
    ElectionHandled(c, Put(s, p, nd2), p, j, Shared(nd, j, x), out);
    var given := N.Input(s.abas[j][p], A.PeerOf(Instance(c, j), p), AbaInput(nd.epoch, out));
    var last := On(Shared(nd, j, x), p, LotteryOut(j, out));
    assert Put(SetAba(Put(s, p, nd2), j, s.abas[j][p := given]), p, last)
        == Put(SetAba(s, j, s.abas[j][p := given]), p, last);
  }

  lemma SharedSame(nd: Node, j: int, x: int)
    ensures Shared(nd, j, x).epoch == nd.epoch && (Idle(nd) ==> Idle(Shared(nd, j, x)))
  {
  }

  lemma ElectionHandled(c: Cfg, s: Sys, p: int, j: int, nd: Node, out: int)
    requires Small(c) && W.Follows(c.n, p) && 0 <= j < c.n && Arises(c, s) && p in s.nodes && Idle(nd)
    requires s.nodes[p] == Emit(nd, LotteryOut(j, out))
    requires |s.abas| == c.n && p in s.abas[j] && s.abas[j][p].phase == N.WaitInput
    ensures var given := N.Input(s.abas[j][p], A.PeerOf(Instance(c, j), p), AbaInput(nd.epoch, out));
      Arises(c, Put(SetAba(s, j, s.abas[j][p := given]), p, On(nd, p, LotteryOut(j, out))))
  {
    hide Arises, Next, Complete, Correct, On, SetAba, N.Input, W.Follows;
    Member(c, s, p);
    ElectionStep(c, s, p, j, nd, out);
    var given := N.Input(s.abas[j][p], A.PeerOf(Instance(c, j), p), AbaInput(nd.epoch, out));
    ArisesStep(c, s, Handle(p), Put(SetAba(s, j, s.abas[j][p := given]), p, On(nd, p, LotteryOut(j, out))));
  }

  lemma ElectionStep(c: Cfg, s: Sys, p: int, j: int, nd: Node, out: int)
    requires c.f == 1 && p in Correct(c) && 0 <= j < c.n && Complete(c, s) && p in s.nodes && Idle(nd)
    requires s.nodes[p] == Emit(nd, LotteryOut(j, out))
    requires |s.abas| == c.n && p in s.abas[j] && s.abas[j][p].phase == N.WaitInput
    ensures var given := N.Input(s.abas[j][p], A.PeerOf(Instance(c, j), p), AbaInput(nd.epoch, out));
      Next(c, s, Handle(p), Put(SetAba(s, j, s.abas[j][p := given]), p, On(nd, p, LotteryOut(j, out))))
  {
    hide HandleEvent, N.Input, Complete, Correct;
    assert s.nodes[p].log[s.nodes[p].next] == LotteryOut(j, out);
    assert Enabled(c, s, Handle(p));
  }

  lemma Decides(c: Cfg, s: Sys, p: int, d: Decision, out: Option<Decision>)
    requires Small(c) && W.Follows(c.n, p) && Arises(c, s) && p in s.nodes
    requires d == UNDELIVERED || d.sender == 3
             || (exists q :: W.Follows(c.n, q) && q in s.nodes && d in s.nodes[q].epoch.decisions)
    requires Answer(c, s.nodes[p].record, d, out)
    ensures Arises(c, Put(s, p, TakeDecision(s.nodes[p], d, out)))
  {
    hide Arises, Answer, Complete;
    Member(c, s, p);
    SmallCorrect(c);
    var s' := Put(s, p, TakeDecision(s.nodes[p], d, out));
    assert Next(c, s, Decide(p, d, out), s');
    ArisesStep(c, s, Decide(p, d, out), s');
  }

  // ----- from the start -----

  const IDLE := Node(START, NoShares, Blank, [], 0)

  lemma StartArises(c: Cfg, s: Sys)
    requires Small(c) && |s.abas| == c.n
    requires forall p :: W.Follows(c.n, p) ==> p in s.nodes && s.nodes[p] == IDLE
    requires forall j :: 0 <= j < c.n ==> W.Present(c.n, s.abas[j])
    requires forall j, p :: 0 <= j < c.n && p in s.abas[j] ==> s.abas[j][p] == N.FRESH
    ensures Arises(c, s)
  {
    hide A.Init, A.Complete, Correct, Small, N.FRESH;
    SmallCorrect(c);
    forall j | 0 <= j < c.n ensures A.Init(Instance(c, j), s.abas[j]) && A.Complete(Instance(c, j), s.abas[j]) {
      InstanceInit(c, s, j);
    }
    assert IsOrdered(c, [s]);
  }

  lemma InstanceInit(c: Cfg, s: Sys, j: int)
    requires Small(c) && 0 <= j < |s.abas| && W.Present(c.n, s.abas[j])
    requires forall p :: p in s.abas[j] ==> s.abas[j][p] == N.FRESH
    ensures A.Init(Instance(c, j), s.abas[j]) && A.Complete(Instance(c, j), s.abas[j])
  {
    hide A.Init, A.Complete, N.FRESH;
    W.StartInit(Instance(c, j), s.abas[j]);
  }

  lemma PutTwice(s: Sys, p: int, nd: Node, nd': Node)
    ensures Put(Put(s, p, nd), p, nd') == Put(s, p, nd') && p in Put(s, p, nd).nodes && Put(s, p, nd).nodes[p] == nd
  {
  }

  // ----- an instance with a single value -----

  function Given(c: Cfg, j: int, p: int, v: int): N.Node {
    N.Input(N.FRESH, A.PeerOf(Instance(c, j), p), v)
  }

  lemma GivenReady(c: Cfg, j: int, p: int, v: int)
    ensures var nd := Given(c, j, p, v);
      && W.At(nd, 0, N.WaitBinary) && W.Quiet(nd, 0) && nd.sent == {N.Est(0, p, v)}
      && nd.hist.outs == [] && nd.decided == None && nd.coin == C.EMPTY
      && W.Ready(Instance(c, j), nd, p, 0, v, N.WaitBinary)
  {
  }

  // Ready to output v.
  ghost predicate AboutTo(nd: N.Node, v: int) {
    W.Tossed(nd, 0, v) && nd.values == v && nd.hist.outs == [] && nd.decided == None
  }

  lemma MidwayCoin(nd: N.Node, v: int)
    requires W.Midway(nd, 0, v, N.WaitCoin)
    ensures W.At(nd, 0, N.WaitCoin) && W.Quiet(nd, 1) && C.SharesOf(nd.coin, 0) == {}
  {
  }

  lemma HeardNothing(nd: N.Node)
    requires nd.coin == C.EMPTY
    ensures forall x :: C.Heard(nd.coin, x) == 0
  {
  }

  // At the end of round 0 with value v, up to the coin.
  ghost predicate Ended(c: Cfg, j: int, nd: N.Node, p: int, v: int) {
    && W.Ready(Instance(c, j), nd, p, 0, v, N.WaitCoin)
    && nd.coin == C.EMPTY && nd.hist.outs == [] && nd.decided == None
  }

  // v is the coin of instance j: it is about to be output once the peer's own share
  // and the faulty peer's are there.
  lemma Toss(c: Cfg, j: int, t: A.Sys, u: A.Sys, p: int, v: int) returns (nd: N.Node)
    requires Small(c) && W.Present(c.n, u) && W.Follows(c.n, p) && v in {0, 1} && c.coin(j)(0) % 2 == v
    requires W.Reach(Instance(c, j), t, u, Peers(c.n)) && p in u && Ended(c, j, u[p], p, v)
    ensures W.Reach(Instance(c, j), t, u[p := nd], Peers(c.n)) && AboutTo(nd, v)
  {
    hide W.Reach, W.Quiet, W.Tossed, W.Midway, C.Heard, C.SharesOf;
    var ic := Instance(c, j);
    MidwayCoin(u[p], v);
    HeardNothing(u[p]);
    W.OwnAvailable(ic, u, p, N.Coin(0, p, ic.hash(0)));
    nd := W.CoinPhase(ic, t, u, p, 0, p, Peers(c.n));
  }

  // The peers of a group, all with input v in instance j, come to output it.
  lemma GroupToss(c: Cfg, j: int, t: A.Sys, ps: seq<int>, v: int) returns (u: A.Sys)
    requires Small(c) && W.Present(c.n, t) && W.Group(Instance(c, j), ps) && v in {0, 1} && c.coin(j)(0) % 2 == v
    requires forall p :: p in ps ==> p in t && t[p] == Given(c, j, p, v)
    ensures W.Reach(Instance(c, j), t, u, Peers(c.n)) && u.Keys == t.Keys
    ensures forall x :: x in t && x !in ps ==> u[x] == t[x]
    ensures forall p :: p in ps ==> AboutTo(u[p], v)
  {
    hide W.Reach, W.Ready, Given, AboutTo;
    var ic := Instance(c, j);
    W.ReachSelf(ic, t, Peers(c.n));
    forall p | p in ps ensures W.Ready(ic, t[p], p, 0, v, N.WaitBinary) {
      GivenReady(c, j, p, v);
    }
    var u1 := W.GroupRound(ic, t, t, ps, 0, v, Peers(c.n));
    forall p | p in ps ensures Ended(c, j, u1[p], p, v) {
      GroupEnds(c, j, t[p], u1[p], p, v);
    }
    u := EachToss(c, j, t, u1, ps, |ps|, v);
    assert ps[..|ps|] == ps;
  }

  lemma GroupEnds(c: Cfg, j: int, nd: N.Node, nd': N.Node, p: int, v: int)
    requires nd == Given(c, j, p, v) && W.Keeps(nd, nd')
    requires W.Ready(Instance(c, j), nd', p, 0, v, N.WaitCoin)
    ensures Ended(c, j, nd', p, v)
  {
    hide W.Midway, W.Quiet;
    GivenReady(c, j, p, v);
  }

  lemma {:induction false} EachToss(c: Cfg, j: int, t: A.Sys, u: A.Sys, ps: seq<int>, i: nat, v: int)
    returns (w: A.Sys)
    requires Small(c) && W.Present(c.n, u) && W.Group(Instance(c, j), ps) && i <= |ps| && v in {0, 1}
    requires c.coin(j)(0) % 2 == v && W.Reach(Instance(c, j), t, u, Peers(c.n))
    requires forall p :: p in ps ==> p in u && Ended(c, j, u[p], p, v)
    ensures W.Reach(Instance(c, j), t, w, Peers(c.n)) && w.Keys == u.Keys
    ensures forall x :: x in u && x !in ps[..i] ==> w[x] == u[x]
    ensures forall p :: p in ps[..i] ==> AboutTo(w[p], v)
  {
    hide W.Reach, AboutTo, W.Ready, W.Group, Ended, Small, Peers;
    if i == 0 {
      w := u;
    } else {
      var w1 := EachToss(c, j, t, u, ps, i - 1, v);
      var p := ps[i - 1];
      assert ps[..i] == ps[..i - 1] + [p];
      W.OnceInGroup(Instance(c, j), ps, i - 1);
      GroupFollows(c, j, ps, p);
      assert w1[p] == u[p];
      var nd := Toss(c, j, t, w1, p, v);
      w := w1[p := nd];
    }
  }

  lemma GroupFollows(c: Cfg, j: int, ps: seq<int>, p: int)
    requires W.Group(Instance(c, j), ps) && p in ps
    ensures W.Follows(c.n, p)
  {
  }

  // ----- the acts a run is made of -----

  // An idle node that has recorded no decision, nor shares of the lotteries to do.
  ghost predicate Has(nd: Node, e: Epoch, todo: set<int>) {
    Idle(nd) && nd.epoch == e && nd.record == Blank && forall j :: j in todo ==> ShareSenders(nd.lotteries, j) == {}
  }

  lemma OnHas(nd: Node, p: int, ev: Event, e: Epoch, todo: set<int>)
    requires Has(nd, e, todo)
    ensures Has(On(nd, p, ev), HandleEvent(e, 1, p, ev), todo)
  {
  }

  // Candidate's proposal is delivered at p.
  lemma Delivers(c: Cfg, s: Sys, p: int, candidate: int, body: Body, e: Epoch, todo: set<int>) returns (s': Sys)
    requires Small(c) && Arises(c, s) && W.Follows(c.n, p) && p in s.nodes && Has(s.nodes[p], e, todo)
    ensures Arises(c, s') && p in s'.nodes && s' == Sys(s.nodes[p := s'.nodes[p]], s.abas)
    ensures Has(s'.nodes[p], HandleCbcOut(e, 1, candidate, body), todo)
    ensures s'.nodes[p].epoch == HandleCbcOut(e, 1, candidate, body)
  {
    hide Arises, Small, W.Follows, On, HandleCbcOut;
    OnHas(s.nodes[p], p, CbcOut(candidate, body), e, todo);
    Candidate(c, s, p, candidate, body);
    s' := Put(s, p, On(s.nodes[p], p, CbcOut(candidate, body)));
  }

  // Lottery j fires at p on the shares of x and peer 3, and elects out; p gives v to
  // instance j.
  lemma Draws(c: Cfg, s: Sys, p: int, j: int, x: int, out: int, v: int, e: Epoch, todo: set<int>) returns (s': Sys)
    requires Small(c) && Arises(c, s) && W.Follows(c.n, p) && 0 <= j < c.n && W.Follows(c.n, x)
    requires out == c.lot(j) % c.n && v == AbaInput(e, out)
    requires p in s.nodes && Has(s.nodes[p], e, todo) && j in todo && x in s.nodes && j in s.nodes[x].epoch.shares
    requires |s.abas| == c.n && p in s.abas[j] && s.abas[j][p] == N.FRESH
    ensures Arises(c, s') && p in s'.nodes
    ensures s' == Sys(s.nodes[p := s'.nodes[p]], s.abas[j := s.abas[j][p := Given(c, j, p, v)]])
    ensures Has(s'.nodes[p], e.(currProducer := out), todo - {j}) && s'.nodes[p].epoch == e.(currProducer := out)
  {
    hide Arises, On, N.Input, Small, W.Follows, Shared, AbaInput;
    var nd := s.nodes[p];
    DrawnHas(nd, j, x, e, todo);
    OnHas(Shared(nd, j, x), p, LotteryOut(j, out), e, todo - {j});
    Elects(c, s, p, j, x, out);
    s' := Put(SetAba(s, j, s.abas[j][p := Given(c, j, p, v)]), p, On(Shared(nd, j, x), p, LotteryOut(j, out)));
  }

  lemma DrawnHas(nd: Node, j: int, x: int, e: Epoch, todo: set<int>)
    requires Has(nd, e, todo)
    ensures Has(Shared(nd, j, x), e, todo - {j})
  {
    forall i | i in todo - {j} ensures ShareSenders(Shared(nd, j, x).lotteries, i) == {} {
      assert ShareSenders(Got(nd.lotteries, j, x), i) == {};
    }
  }

  // The peers of a group, all with input v in instance j, come to output it.
  lemma Tosses(c: Cfg, s: Sys, j: int, ps: seq<int>, v: int) returns (s': Sys)
    requires Small(c) && Arises(c, s) && 0 <= j < c.n && |s.abas| == c.n && W.Group(Instance(c, j), ps)
    requires v in {0, 1} && c.coin(j)(0) % 2 == v
    requires forall p :: p in ps ==> p in s.abas[j] && s.abas[j][p] == Given(c, j, p, v)
    ensures Arises(c, s') && |s'.abas| == c.n && s' == Sys(s.nodes, s.abas[j := s'.abas[j]])
    ensures s'.abas[j].Keys == s.abas[j].Keys
    ensures forall x :: x in s.abas[j] && x !in ps ==> s'.abas[j][x] == s.abas[j][x]
    ensures forall p :: p in ps ==> AboutTo(s'.abas[j][p], v)
  {
    hide Arises, Small, W.Reach, W.Group, Given, AboutTo, Complete, W.Present;
    ArisesComplete(c, s);
    var u := GroupToss(c, j, s.abas[j], ps, v);
    ReachArises(c, s, j, u);
    s' := SetAba(s, j, u);
  }

  // Peer p, about to output v in instance j, does and handles the event.
  lemma Outputs(c: Cfg, s: Sys, p: int, j: int, v: int, e: Epoch, todo: set<int>) returns (s': Sys)
    requires Small(c) && Arises(c, s) && W.Follows(c.n, p) && 0 <= j < c.n && p in s.nodes && Has(s.nodes[p], e, todo)
    requires v in {0, 1} && |s.abas| == c.n && p in s.abas[j] && AboutTo(s.abas[j][p], v)
    ensures Arises(c, s') && p in s'.nodes && |s'.abas| == c.n && p in s'.abas[j]
    ensures s' == Sys(s.nodes[p := s'.nodes[p]], s.abas[j := s.abas[j][p := s'.abas[j][p]]])
    ensures Has(s'.nodes[p], HandleAbaOut(e, p, v), todo) && s'.nodes[p].epoch == HandleAbaOut(e, p, v)
  {
    hide Arises, On, N.Wake, W.Tossed, Small, W.Follows, HandleAbaOut;
    var after := N.Wake(s.abas[j][p], A.PeerOf(Instance(c, j), p));
    W.Outputs(s.abas[j][p], A.PeerOf(Instance(c, j), p), 0, v);
    OnHas(s.nodes[p], p, AbaOut(v, j), e, todo);
    Output(c, s, p, j, v, after);
    s' := Put(SetAba(s, j, s.abas[j][p := after]), p, On(s.nodes[p], p, AbaOut(v, j)));
  }

  // Peer p records decision d.
  lemma Records(c: Cfg, s: Sys, p: int, d: Decision, out: Option<Decision>, r: Record) returns (s': Sys)
    requires Small(c) && Arises(c, s) && W.Follows(c.n, p) && p in s.nodes && s.nodes[p].record == r
    requires d.sender !in Deciders(r, d.producer) && Answer(c, r, d, out)
    requires d == UNDELIVERED || d.sender == 3
             || (exists q :: W.Follows(c.n, q) && q in s.nodes && d in s.nodes[q].epoch.decisions)
    ensures Arises(c, s') && p in s'.nodes && s' == Sys(s.nodes[p := s'.nodes[p]], s.abas)
    ensures s'.nodes[p].record == Keep(r, d) && s'.nodes[p].epoch == s.nodes[p].epoch
    ensures s.nodes[p].log <= s'.nodes[p].log && (out.Some? ==> DecisionOut(out.value) in s'.nodes[p].log)
  {
    hide Arises, Answer, Small, W.Follows;
    Decides(c, s, p, d, out);
    s' := Put(s, p, TakeDecision(s.nodes[p], d, out));
  }

  lemma KeptGrows(r: Record, d: Decision)
    ensures Kept(r) <= Kept(Keep(r, d)) && d in Kept(Keep(r, d))
  {
  }
}
