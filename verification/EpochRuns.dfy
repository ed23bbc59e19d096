// The epoch's decisions over whole runs: what holds between any two points.

module EpochRuns {
  import opened Quorum
  import opened EpochNode
  import opened EpochSystem
  import opened EpochInv
  import opened EpochSteps
  import opened EpochTheorems
  import N = AbaNode
  import A = AbaSystem
  import T = AbaTheorems

  // ----- runs and their coins -----

  ghost predicate PacedStep(c: Cfg, s: Sys, step: Step) {
    step.InAba? ==> 0 <= step.j < |s.abas| && A.Paced(Instance(c, step.j), s.abas[step.j], step.step)
  }

  ghost predicate OrderedStep(c: Cfg, s: Sys, step: Step) {
    step.InAba? ==> 0 <= step.j < |s.abas| && A.Ordered(Instance(c, step.j), s.abas[step.j], step.step, Peers(c.n))
  }

  ghost predicate StepsPaced(c: Cfg, s: Sys, s': Sys) {
    exists step :: Next(c, s, step, s') && PacedStep(c, s, step)
  }

  ghost predicate StepsOrdered(c: Cfg, s: Sys, s': Sys) {
    exists step :: Next(c, s, step, s') && OrderedStep(c, s, step)
  }

  // In no agreement instance a coin share completes a round ahead of a lower one or
  // with another bit.
  ghost predicate IsPaced(c: Cfg, run: seq<Sys>) {
    && run != []
    && Init(c, run[0])
    && forall i :: 0 < i < |run| ==> StepsPaced(c, run[i - 1], run[i])
  }

  // In every instance each sender's coin shares come in round order, none skipped,
  // over their round's hash.
  ghost predicate IsOrdered(c: Cfg, run: seq<Sys>) {
    && run != []
    && Init(c, run[0])
    && forall i :: 0 < i < |run| ==> StepsOrdered(c, run[i - 1], run[i])
  }

  ghost predicate AllInStep(c: Cfg, s: Sys) {
    |s.abas| == c.n && forall j :: 0 <= j < c.n ==> A.InStep(Instance(c, j), s.abas[j])
  }

  ghost predicate AllInOrder(c: Cfg, s: Sys) {
    |s.abas| == c.n && forall j :: 0 <= j < c.n ==> A.InOrder(Instance(c, j), s.abas[j])
  }

  // The step an epoch step takes in instance j, if any; an input carries no share.
  lemma InstanceStep(c: Cfg, s: Sys, step: Step, s': Sys, j: int) returns (st: A.Step)
    requires Next(c, s, step, s') && 0 <= j < c.n
    ensures |s.abas| == |s'.abas| == c.n
    ensures s'.abas[j] == s.abas[j] || A.Next(Instance(c, j), s.abas[j], st, s'.abas[j])
    ensures if step.InAba? && step.j == j then st == step.step && A.Next(Instance(c, j), s.abas[j], st, s'.abas[j])
            else st.Give?
  {
    st := A.Give(0, 0);
    if step.InAba? && step.j == j {
      st := step.step;
    } else if step.Handle? {
      var nd := s.nodes[step.p];
      var ev := nd.log[nd.next];
      if ev.LotteryOut? && ev.times == j {
        st := Input(c, nd, step.p, ev);
      }
    }
  }

  lemma InstanceInStep(c: Cfg, s: Sys, step: Step, s': Sys, j: int)
    requires Next(c, s, step, s') && PacedStep(c, s, step) && 0 <= j < c.n && AllInStep(c, s)
    ensures |s'.abas| == c.n && A.InStep(Instance(c, j), s'.abas[j])
  {
    hide Next, A.InStep, A.Next;
    var st := InstanceStep(c, s, step, s', j);
    if s'.abas[j] != s.abas[j] {
      A.PacedKeeps(Instance(c, j), s.abas[j], st, s'.abas[j]);
    }
  }

  lemma InstanceInOrder(c: Cfg, s: Sys, step: Step, s': Sys, j: int)
    requires Next(c, s, step, s') && OrderedStep(c, s, step) && 0 <= j < c.n && AllInOrder(c, s)
    ensures |s'.abas| == c.n && A.InOrder(Instance(c, j), s'.abas[j])
    ensures step.InAba? && step.j == j ==> PacedStep(c, s, step)
  {
    hide Next, A.InOrder, A.Next;
    var st := InstanceStep(c, s, step, s', j);
    if s'.abas[j] != s.abas[j] || (step.InAba? && step.j == j) {
      A.OrderedKeeps(Instance(c, j), s.abas[j], st, s'.abas[j]);
    }
  }

  lemma InitInStep(c: Cfg, s: Sys)
    requires Init(c, s)
    ensures AllInStep(c, s) && AllInOrder(c, s)
  {
    hide A.Init, A.InStep, A.InOrder;
    forall j | 0 <= j < c.n ensures A.InStep(Instance(c, j), s.abas[j]) && A.InOrder(Instance(c, j), s.abas[j]) {
      A.InitInStep(Instance(c, j), s.abas[j]);
    }
  }

  lemma {:induction false} PacedInStep(c: Cfg, run: seq<Sys>, i: nat)
    requires IsPaced(c, run) && i < |run|
    ensures IsRun(c, run) && AllInStep(c, run[i]) && CommonCoins(c, run[i])
  {
    hide Init, Next, PacedStep, A.InStep, A.CommonCoin;
    forall k | 0 < k < |run| ensures Steps(c, run[k - 1], run[k]) {
      assert StepsPaced(c, run[k - 1], run[k]);
    }
    if i == 0 {
      InitInStep(c, run[0]);
    } else {
      PacedInStep(c, run, i - 1);
      assert StepsPaced(c, run[i - 1], run[i]);
      var step :| Next(c, run[i - 1], step, run[i]) && PacedStep(c, run[i - 1], step);
      forall j | 0 <= j < c.n ensures |run[i].abas| == c.n && A.InStep(Instance(c, j), run[i].abas[j]) {
        InstanceInStep(c, run[i - 1], step, run[i], j);
      }
      var any := InstanceCount(c, run[i - 1], step, run[i]);
    }
    forall j | 0 <= j < c.n ensures A.CommonCoin(Instance(c, j), run[i].abas[j]) {
      A.InStepCommon(Instance(c, j), run[i].abas[j]);
    }
  }

  lemma InstanceCount(c: Cfg, s: Sys, step: Step, s': Sys) returns (n: nat)
    requires Next(c, s, step, s')
    ensures n == c.n > 0 && |s'.abas| == n
  {
    n := c.n;
  }

  lemma {:induction false} OrderedInOrder(c: Cfg, run: seq<Sys>, i: nat)
    requires IsOrdered(c, run) && i < |run|
    ensures AllInOrder(c, run[i])
    ensures i > 0 ==> StepsPaced(c, run[i - 1], run[i])
  {
    hide Init, Next, PacedStep, OrderedStep, A.InOrder;
    if i == 0 {
      InitInStep(c, run[0]);
    } else {
      OrderedInOrder(c, run, i - 1);
      assert StepsOrdered(c, run[i - 1], run[i]);
      var step :| Next(c, run[i - 1], step, run[i]) && OrderedStep(c, run[i - 1], step);
      forall j | 0 <= j < c.n ensures |run[i].abas| == c.n && A.InOrder(Instance(c, j), run[i].abas[j]) {
        InstanceInOrder(c, run[i - 1], step, run[i], j);
      }
      var any := InstanceCount(c, run[i - 1], step, run[i]);
      OrderedPacedStep(c, run[i - 1], step, run[i]);
    }
  }

  lemma OrderedPacedStep(c: Cfg, s: Sys, step: Step, s': Sys)
    requires Next(c, s, step, s') && OrderedStep(c, s, step) && AllInOrder(c, s)
    ensures PacedStep(c, s, step)
  {
    hide A.InOrder, A.Paced, A.Ordered;
    if step.InAba? {
      InstanceInOrder(c, s, step, s', step.j);
    }
  }

  lemma OrderedIsPaced(c: Cfg, run: seq<Sys>)
    requires IsOrdered(c, run)
    ensures IsPaced(c, run)
  {
    hide StepsPaced, Init;
    forall i | 0 < i < |run| ensures StepsPaced(c, run[i - 1], run[i]) {
      OrderedInOrder(c, run, i);
    }
  }

  // ----- what grows -----

  // What correct peer q has, and what its agreement instances have, only grows.
  ghost predicate PeerGrows(c: Cfg, s: Sys, s': Sys, q: int) {
    && q in s.nodes && q in s'.nodes && NodeGrows(s.nodes[q], s'.nodes[q])
    && |s.abas| == |s'.abas| == c.n
    && forall j {:trigger s.abas[j]} {:trigger s'.abas[j]} :: 0 <= j < c.n ==>
         q in s.abas[j] && q in s'.abas[j] && A.NodeGrows(s.abas[j][q], s'.abas[j][q])
  }

  lemma StepsGrow(c: Cfg, s: Sys, s': Sys, q: int)
    requires Steps(c, s, s') && q in Correct(c)
    ensures PeerGrows(c, s, s', q)
  {
    hide A.NodeGrows, NodeGrows, A.Complete;
    var step :| Next(c, s, step, s');
    StepGrows(c, s, step);
    StepComplete(c, s, step, s');
    Reflexive(s.nodes[q]);
    forall j | 0 <= j < c.n ensures q in s.abas[j] && q in s'.abas[j] && A.NodeGrows(s.abas[j][q], s'.abas[j][q]) {
      AbaGrows(c, s, step, s', j, q);
    }
  }

  lemma Reflexive(nd: Node)
    ensures NodeGrows(nd, nd)
  {
  }

  lemma GrowsTrans(c: Cfg, s: Sys, s': Sys, s'': Sys, q: int)
    requires PeerGrows(c, s, s', q) && PeerGrows(c, s', s'', q)
    ensures PeerGrows(c, s, s'', q)
  {
    hide A.NodeGrows;
    forall j | 0 <= j < c.n ensures q in s.abas[j] && q in s''.abas[j] && A.NodeGrows(s.abas[j][q], s''.abas[j][q]) {
      assert q in s'.abas[j];
      A.GrowsTrans(s.abas[j][q], s'.abas[j][q], s''.abas[j][q]);
    }
  }

  lemma {:induction false} RunGrows(c: Cfg, run: seq<Sys>, i: nat, k: nat, q: int)
    requires ValidCfg(c) && IsRun(c, run) && i < k < |run| && q in Correct(c)
    ensures PeerGrows(c, run[i], run[k], q)
    decreases k
  {
    hide ValidCfg, Init, Steps, PeerGrows;
    assert Steps(c, run[k - 1], run[k]);
    StepsGrow(c, run[k - 1], run[k], q);
    if i < k - 1 {
      RunGrows(c, run, i, k - 1, q);
      GrowsTrans(c, run[i], run[k - 1], run[k], q);
    }
  }

  // A winning output stays.
  lemma WonStays(c: Cfg, run: seq<Sys>, i: nat, k: nat, m: int, p: int)
    requires ValidCfg(c) && IsRun(c, run) && i <= k < |run| && p in Correct(c) && Won(c, run[i], m, p)
    ensures Won(c, run[k], m, p)
  {
    hide ValidCfg, IsRun;
    if i < k {
      RunGrows(c, run, i, k, p);
      assert A.NodeGrows(run[i].abas[m][p], run[k].abas[m][p]);
    }
  }

  // At most one lottery index has agreement output 1 at any correct peers, at any
  // points of a run.
  lemma OneWinnerEver(c: Cfg, run: seq<Sys>, i: nat, m: int, p: int, k: nat, j: int, q: int)
    requires ValidCfg(c) && IsPaced(c, run) && i < |run| && k < |run| && p in Correct(c) && q in Correct(c)
    requires Won(c, run[i], m, p) && Won(c, run[k], j, q)
    ensures m == j
  {
    hide ValidCfg, IsRun, IsPaced, CommonCoins, Won, Inv;
    var l := if i < k then k else i;
    PacedInStep(c, run, l);
    WonStays(c, run, i, l, m, p);
    WonStays(c, run, k, l, j, q);
    RunInv(c, run, l);
    OneWinner(c, run[l], m, p, j, q);
  }

  lemma OneWinnerOrdered(c: Cfg, run: seq<Sys>, i: nat, m: int, p: int, k: nat, j: int, q: int)
    requires ValidCfg(c) && IsOrdered(c, run) && i < |run| && k < |run| && p in Correct(c) && q in Correct(c)
    requires Won(c, run[i], m, p) && Won(c, run[k], j, q)
    ensures m == j
  {
    hide ValidCfg, IsOrdered, IsPaced, Won;
    OrderedIsPaced(c, run);
    OneWinnerEver(c, run, i, m, p, k, j, q);
  }

  // A decision output stays on its channel.
  lemma OutputStays(c: Cfg, run: seq<Sys>, i: nat, k: nat, p: int, d: Decision)
    requires ValidCfg(c) && IsRun(c, run) && i <= k < |run| && p in Correct(c)
    requires p in run[i].nodes && DecisionOut(d) in run[i].nodes[p].log
    ensures p in run[k].nodes && DecisionOut(d) in run[k].nodes[p].log
  {
    hide ValidCfg, IsRun;
    if i < k {
      RunGrows(c, run, i, k, p);
    }
  }

  // All decision outputs of a run name one producer, if at every correct peer the
  // last lottery output before an accepting agreement output names the accepted
  // producer.
  lemma OneCommittedProducerEver(c: Cfg, run: seq<Sys>, i: nat, p: int, d: Decision, k: nat, q: int, e: Decision)
    requires ValidCfg(c) && IsPaced(c, run) && i <= k < |run| && p in Correct(c) && q in Correct(c)
    requires p in run[i].nodes && q in run[k].nodes
    requires DecisionOut(d) in run[i].nodes[p].log && DecisionOut(e) in run[k].nodes[q].log
    requires c.n > 0 && forall x :: x in Correct(c) && x in run[k].nodes ==> Undisturbed(c, run[k].nodes[x])
    ensures d.producer == e.producer
  {
    hide ValidCfg, IsRun, IsPaced, CommonCoins, Inv, Undisturbed;
    PacedInStep(c, run, k);
    RunInv(c, run, k);
    OutputStays(c, run, i, k, p, d);
    forall x | x in Correct(c) ensures x in run[k].nodes && Undisturbed(c, run[k].nodes[x]) {
      InvBasics(c, run[k], x);
    }
    OneCommittedProducer(c, run[k], p, d, q, e);
  }

  // In particular if lottery outputs come in index order.
  lemma OneCommittedProducerInOrder(c: Cfg, run: seq<Sys>, i: nat, p: int, d: Decision, k: nat, q: int, e: Decision)
    requires ValidCfg(c) && IsPaced(c, run) && i <= k < |run| && p in Correct(c) && q in Correct(c)
    requires p in run[i].nodes && q in run[k].nodes
    requires DecisionOut(d) in run[i].nodes[p].log && DecisionOut(e) in run[k].nodes[q].log
    requires forall x :: x in Correct(c) && x in run[k].nodes ==> InOrder(run[k].nodes[x])
    ensures d.producer == e.producer
  {
    hide ValidCfg, IsRun, IsPaced, CommonCoins, Inv, Undisturbed, InOrder;
    PacedInStep(c, run, k);
    RunInv(c, run, k);
    InvBasics(c, run[k], p);
    forall x | x in Correct(c) && x in run[k].nodes ensures Undisturbed(c, run[k].nodes[x]) {
      InOrderUndisturbed(c, run[k], x);
    }
    OneCommittedProducerEver(c, run, i, p, d, k, q, e);
  }

  // With n + |faulty| <= 4f+1, as for n = 3f+1, in any order: all decision outputs
  // of a run that do not name producer 0 name one producer.
  lemma OneProducerByQuorumEver(c: Cfg, run: seq<Sys>, i: nat, p: int, d: Decision, k: nat, q: int, e: Decision)
    requires ValidCfg(c) && IsPaced(c, run) && i <= k < |run| && p in Correct(c) && q in Correct(c)
    requires c.n + |c.faulty| <= 4 * c.f + 1
    requires p in run[i].nodes && q in run[k].nodes && d.producer != 0 && e.producer != 0
    requires DecisionOut(d) in run[i].nodes[p].log && DecisionOut(e) in run[k].nodes[q].log
    ensures d.producer == e.producer
  {
    hide ValidCfg, IsRun, IsPaced, CommonCoins, Inv;
    PacedInStep(c, run, k);
    RunInv(c, run, k);
    OutputStays(c, run, i, k, p, d);
    OneProducerByQuorum(c, run[k], p, d, q, e);
  }

  // If lottery m fires at a correct peer, every earlier instance has by then
  // output 0 at some correct peer.
  lemma FiringRejects(c: Cfg, run: seq<Sys>, i: nat, p: int, m: int, j: int) returns (q: int)
    requires ValidCfg(c) && IsRun(c, run) && i < |run| && p in Correct(c) && Fired(run[i], p, m) && 0 <= j < m
    ensures q in Correct(c) && j < |run[i].abas| && q in run[i].abas[j] && run[i].abas[j][q].hist.outs == [0]
  {
    hide ValidCfg, IsRun, Inv, Fired;
    RunInv(c, run, i);
    InvBasics(c, run[i], p);
    FiredRejectsEarlier(c, run[i], p, m, j);
    q :| q in Correct(c) && run[i].abas[j][q].hist.outs == [0];
  }

  // No lottery fires before some correct peer has delivered 2f+1 candidates.
  lemma FiringBacked(c: Cfg, run: seq<Sys>, i: nat, p: int, m: int) returns (x: int)
    requires ValidCfg(c) && IsRun(c, run) && i < |run| && p in Correct(c) && Fired(run[i], p, m)
    ensures x in Correct(c) && x in run[i].nodes && |run[i].nodes[x].epoch.cbcOuts.Keys| >= 2 * c.f + 1
  {
    hide ValidCfg, IsRun, Inv, Fired;
    RunInv(c, run, i);
    x := FiredNeedsProposals(c, run[i], p, m);
  }

  // The step from run[t] gives instance m its input v at peer q.
  predicate Gives(c: Cfg, run: seq<Sys>, t: int, m: int, q: int, v: int) {
    && 0 <= t < |run| - 1 && 0 <= m < |run[t].abas| && m < |run[t + 1].abas|
    && q in run[t].abas[m] && q in run[t + 1].abas[m] && q in run[t].nodes
    && run[t].abas[m][q].phase == N.WaitInput && run[t + 1].abas[m][q].phase != N.WaitInput
    && A.EnteredWith(run[t + 1].abas[m][q], 0, v)
  }

  // The point at which a peer's input was given.
  lemma {:induction false} InputPoint(c: Cfg, run: seq<Sys>, i: nat, m: int, q: int, v: int) returns (t: nat)
    requires ValidCfg(c) && IsRun(c, run) && i < |run| && q in Correct(c)
    requires Complete(c, run[i]) && 0 <= m < c.n && A.EnteredWith(run[i].abas[m][q], 0, v)
    ensures t < i && Gives(c, run, t, m, q, v)
    decreases i
  {
    hide ValidCfg, IsRun, Inv, A.Inv, Steps, Complete;
    RunInv(c, run, i);
    InvAbas(c, run[i], m);
    T.EnteredStarted(Instance(c, m), run[i].abas[m], q);
    if i == 0 {
      Unstarted(c, run, m, q);
    }
    RunInv(c, run, i - 1);
    InvAbas(c, run[i - 1], m);
    RunGrows(c, run, i - 1, i, q);
    var before := run[i - 1].abas[m][q];
    if before.phase == N.WaitInput {
      t := i - 1;
    } else {
      T.HasInput(Instance(c, m), run[i - 1].abas[m], q);
      assert A.NodeGrows(before, run[i].abas[m][q]);
      t := InputPoint(c, run, i - 1, m, q, v);
    }
  }

  lemma Unstarted(c: Cfg, run: seq<Sys>, m: int, q: int)
    requires IsRun(c, run) && 0 <= m < c.n && q in Correct(c)
    ensures Complete(c, run[0]) && run[0].abas[m][q].hist.ests == []
  {
    assert A.Init(Instance(c, m), run[0].abas[m]);
  }

  lemma InvAbas(c: Cfg, s: Sys, m: int)
    requires Inv(c, s) && 0 <= m < c.n
    ensures Complete(c, s) && A.Inv(Instance(c, m), s.abas[m])
  {
  }

  // A peer's input is 1 exactly if it holds the elected producer's proposal then, and
  // 0 otherwise.
  lemma InputIff(c: Cfg, run: seq<Sys>, t: nat, m: int, q: int, v: int)
    requires ValidCfg(c) && IsRun(c, run) && q in Correct(c) && 0 <= m < c.n && c.n > 0 && Gives(c, run, t, m, q, v)
    ensures v == if Producer(c, m) in run[t].nodes[q].epoch.cbcOuts then 1 else 0
  {
    hide ValidCfg, Inv, A.Inv, Producer;
    assert Steps(c, run[t], run[t + 1]);
    var step :| Next(c, run[t], step, run[t + 1]);
    RunInv(c, run, t);
    StepComplete(c, run[t], step, run[t + 1]);
    AbaGrows(c, run[t], step, run[t + 1], m, q);
    GivenInput(c, run[t], step, run[t + 1], m);
  }

  // If an instance outputs 1 at a correct peer, some correct peer held that
  // lottery's producer when it gave its input, and at every later point.
  lemma WinnerBackedEver(c: Cfg, run: seq<Sys>, i: nat, m: int, p: int) returns (q: int, t: nat)
    requires ValidCfg(c) && IsRun(c, run) && i < |run| && p in Correct(c) && Won(c, run[i], m, p)
    ensures q in Correct(c) && t < i && c.n > 0 && Gives(c, run, t, m, q, 1)
    ensures forall k :: t <= k < |run| ==> q in run[k].nodes && Producer(c, m) in run[k].nodes[q].epoch.cbcOuts
  {
    hide ValidCfg, IsRun, Inv, Won, Producer, Gives, A.EnteredWith;
    RunInv(c, run, i);
    InvBasics(c, run[i], p);
    q := WinnerBacked(c, run[i], m, p);
    WonIndex(c, run[i], m, p);
    t := InputPoint(c, run, i, m, q, 1);
    InputIff(c, run, t, m, q, 1);
    forall k | t <= k < |run| ensures q in run[k].nodes && Producer(c, m) in run[k].nodes[q].epoch.cbcOuts {
      if t < k {
        RunGrows(c, run, t, k, q);
      } else {
        InvNode(c, run, t, q);
      }
    }
  }

  // If every correct peer holds the lottery's producer when it gives its input, the
  // instance outputs 0 at no correct peer.
  lemma HeldNotRejected(c: Cfg, run: seq<Sys>, m: int, i: nat, p: int)
    requires ValidCfg(c) && IsRun(c, run) && i < |run| && p in Correct(c) && 0 <= m < c.n && c.n > 0
    requires forall q, t, v :: q in Correct(c) && Gives(c, run, t, m, q, v) ==>
               Producer(c, m) in run[t].nodes[q].epoch.cbcOuts
    ensures m < |run[i].abas| && p in run[i].abas[m] && 0 !in run[i].abas[m][p].hist.outs
  {
    hide ValidCfg, IsRun, Inv, Producer, Gives, A.EnteredWith, A.Inv, T.Uniform;
    RunInv(c, run, i);
    InvAbas(c, run[i], m);
    var ic, s := Instance(c, m), run[i].abas[m];
    forall q | q in A.Correct(ic) && q in s && |s[q].hist.ests| > 0 ensures s[q].hist.ests[0] == 1 {
      var v := s[q].hist.ests[0];
      FirstEstimate(s[q]);
      var t := InputPoint(c, run, i, m, q, v);
      InputIff(c, run, t, m, q, v);
    }
    AllOne(ic, s);
    SameModel(c, m);
    if 0 in s[p].hist.outs {
      T.Validity(ic, s, 1, p, 0);
    }
  }

  lemma FirstEstimate(nd: N.Node)
    requires |nd.hist.ests| > 0
    ensures A.EnteredWith(nd, 0, nd.hist.ests[0])
  {
  }

  lemma AllOne(ic: A.Cfg, s: A.Sys)
    requires forall q :: q in A.Correct(ic) && q in s && |s[q].hist.ests| > 0 ==> s[q].hist.ests[0] == 1
    ensures T.Uniform(ic, s, 0, 1)
  {
  }

  lemma SameModel(c: Cfg, m: int)
    requires ValidCfg(c)
    ensures A.ValidCfg(Instance(c, m)) && A.Correct(Instance(c, m)) == Correct(c)
  {
  }

  lemma WonIndex(c: Cfg, s: Sys, m: int, p: int)
    requires Inv(c, s) && Won(c, s, m, p)
    ensures 0 <= m < c.n
  {
  }

  lemma InvNode(c: Cfg, run: seq<Sys>, t: nat, q: int)
    requires ValidCfg(c) && IsRun(c, run) && t < |run| && q in Correct(c)
    ensures q in run[t].nodes
  {
    RunInv(c, run, t);
  }
}
