// The invariant of a whole epoch, kept by every step.

module EpochInv {
  import opened Quorum
  import opened EpochNode
  import opened EpochSystem
  import N = AbaNode
  import A = AbaSystem
  import T = AbaTheorems

  // ----- what a node has handled -----

  function Done(nd: Node): seq<Event>
    requires 0 <= nd.next <= |nd.log|
  {
    nd.log[..nd.next]
  }

  // Instances whose rejection is among the events.
  function Zeros(s: seq<Event>): set<int> {
    if s == [] then {}
    else
      var ev := s[|s| - 1];
      if ev.AbaOut? && ev.decide != 1 then Zeros(s[..|s| - 1]) + {ev.instance} else Zeros(s[..|s| - 1])
  }

  // The producer of the last lottery among the events, 0 if there is none.
  function Current(s: seq<Event>): int {
    if s == [] then 0
    else if s[|s| - 1].LotteryOut? then s[|s| - 1].producer
    else Current(s[..|s| - 1])
  }

  lemma Snoc(s: seq<Event>, ev: Event)
    ensures Zeros(s + [ev]) == if ev.AbaOut? && ev.decide != 1 then Zeros(s) + {ev.instance} else Zeros(s)
    ensures Current(s + [ev]) == if ev.LotteryOut? then ev.producer else Current(s)
  {
    assert (s + [ev])[..|s|] == s;
  }

  lemma {:induction false} ZerosAmong(s: seq<Event>, j: int)
    requires j in Zeros(s)
    ensures exists i :: 0 <= i < |s| && s[i].AbaOut? && s[i].decide != 1 && s[i].instance == j
  {
    var init := s[..|s| - 1];
    if j in Zeros(init) {
      ZerosAmong(init, j);
      var i :| 0 <= i < |init| && init[i].AbaOut? && init[i].decide != 1 && init[i].instance == j;
      assert s[i] == init[i];
    } else {
      assert s[|s| - 1].instance == j;
    }
  }

  // ----- the invariant of one node -----

  predicate Elected(c: Cfg, log: seq<Event>, k: int, j: int)
    requires c.n > 0
  {
    0 <= k < |log| && log[k] == LotteryOut(j, Producer(c, j))
  }

  // Lottery j's output is among the first `next` events.
  ghost predicate ElectedBefore(c: Cfg, log: seq<Event>, next: int, j: int)
    requires c.n > 0
  {
    exists k :: k < next && Elected(c, log, k, j)
  }

  // Every lottery output comes from f+1 accepted shares and names the elected producer.
  ghost predicate LotteryEvents(c: Cfg, nd: Node)
    requires c.n > 0
  {
    forall i :: 0 <= i < |nd.log| && nd.log[i].LotteryOut? ==>
      var j := nd.log[i].times;
      0 <= j < c.n && nd.log[i].producer == Producer(c, j) && |ShareSenders(nd.lotteries, j)| >= c.f + 1
  }

  // Every agreement output is its instance's only one, and that instance had its
  // input from an earlier lottery output.
  ghost predicate AbaEvents(c: Cfg, s: Sys, p: int, log: seq<Event>)
    requires c.n > 0 && Complete(c, s) && p in Correct(c)
  {
    && (forall i :: 0 <= i < |log| && log[i].AbaOut? ==>
          var j := log[i].instance;
          && 0 <= j < c.n && s.abas[j][p].hist.outs == [log[i].decide]
          && ElectedBefore(c, log, i, j))
    && (forall i, k :: 0 <= i < k < |log| && log[i].AbaOut? && log[k].AbaOut? ==> log[i].instance != log[k].instance)
  }

  ghost predicate Counters(nd: Node)
    requires 0 <= nd.next <= |nd.log|
  {
    && nd.epoch.lotteryTimes == |Zeros(Done(nd))|
    && nd.epoch.currProducer == Current(Done(nd))
    && (forall t :: t in nd.epoch.shares ==> 0 <= t <= nd.epoch.lotteryTimes)
  }

  // The share for the first lottery goes out only with 2f+1 proposals delivered.
  ghost predicate FirstShare(c: Cfg, nd: Node) {
    0 in nd.epoch.shares ==> |nd.epoch.cbcOuts.Keys| >= 2 * c.f + 1
  }

  // An instance has its input only from a handled lottery output, and input 1
  // only if the node holds the producer's proposal.
  ghost predicate Inputs(c: Cfg, s: Sys, p: int, nd: Node)
    requires c.n > 0 && Complete(c, s) && p in Correct(c)
  {
    forall j :: 0 <= j < c.n && s.abas[j][p].phase != N.WaitInput ==>
      && ElectedBefore(c, nd.log, nd.next, j)
      && (A.EnteredWith(s.abas[j][p], 0, 1) ==> Producer(c, j) in nd.epoch.cbcOuts)
  }

  // A broadcast decision names the last handled lottery's producer when an
  // agreement output 1 was handled.
  ghost predicate DecidedAt(log: seq<Event>, next: int, producer: int, k: int) {
    0 <= k < next <= |log| && log[k].AbaOut? && log[k].decide == 1 && producer == Current(log[..k])
  }

  ghost predicate OwnDecisions(p: int, nd: Node) {
    forall d :: d in nd.epoch.decisions ==>
      d == UNDELIVERED || (d.delivered && d.sender == p && exists k :: DecidedAt(nd.log, nd.next, d.producer, k))
  }

  // A decision output rests on 2f+1 recorded decisions for its producer.
  ghost predicate DecisionEvents(c: Cfg, nd: Node) {
    forall i :: 0 <= i < |nd.log| && nd.log[i].DecisionOut? ==>
      var d := nd.log[i].decided;
      d in Kept(nd.record) && Validated(c.sha, d) && |Deciders(nd.record, d.producer)| >= 2 * c.f + 1
  }

  // Recorded shares and decisions were sent.
  ghost predicate SharesSent(c: Cfg, s: Sys, l: Shares)
    requires Complete(c, s)
  {
    forall j, x {:trigger x in ShareSenders(l, j)} :: x in ShareSenders(l, j) ==>
      x in Peers(c.n) && (x in Correct(c) ==> j in s.nodes[x].epoch.shares)
  }

  ghost predicate DecisionsSent(c: Cfg, s: Sys, r: Record) {
    forall d :: d in Kept(r) ==> DecisionSent(c, s, d)
  }

  ghost predicate Received(c: Cfg, s: Sys, nd: Node)
    requires Complete(c, s)
  {
    SharesSent(c, s, nd.lotteries) && DecisionsSent(c, s, nd.record)
  }

  // Instance i rejected its producer at some correct peer.
  ghost predicate Rejected(c: Cfg, s: Sys, i: int)
    requires Complete(c, s)
  {
    0 <= i < c.n && exists q :: q in Correct(c) && s.abas[i][q].hist.outs == [0]
  }

  // A lottery that fired was preceded by the rejection of all earlier producers.
  ghost predicate FiredAfterRejections(c: Cfg, s: Sys, nd: Node)
    requires Complete(c, s)
  {
    forall j, i :: |ShareSenders(nd.lotteries, j)| >= c.f + 1 && 0 <= i < j ==> Rejected(c, s, i)
  }

  ghost predicate NodeInv(c: Cfg, s: Sys, p: int)
    requires c.n > 0 && Complete(c, s) && p in Correct(c)
  {
    var nd := s.nodes[p];
    && LotteryEvents(c, nd)
    && AbaEvents(c, s, p, nd.log)
    && Counters(nd)
    && FirstShare(c, nd)
    && Inputs(c, s, p, nd)
    && OwnDecisions(p, nd)
    && DecisionEvents(c, nd)
    && Received(c, s, nd)
    && FiredAfterRejections(c, s, nd)
  }

  ghost predicate Inv(c: Cfg, s: Sys) {
    && c.n > 0
    && Complete(c, s)
    && (forall j :: 0 <= j < c.n ==> A.Inv(Instance(c, j), s.abas[j]))
    && (forall p :: p in Correct(c) ==> NodeInv(c, s, p))
  }

  lemma InitInv(c: Cfg, s: Sys)
    requires ValidCfg(c) && Init(c, s)
    ensures Inv(c, s)
  {
    forall j | 0 <= j < c.n ensures A.Inv(Instance(c, j), s.abas[j]) {
      A.InitInv(Instance(c, j), s.abas[j]);
    }
    forall p | p in Correct(c) ensures NodeInv(c, s, p) {
      forall j | 0 <= j < c.n ensures s.abas[j][p].phase == N.WaitInput {
        assert A.Init(Instance(c, j), s.abas[j]);
      }
    }
  }

  // ----- what grows -----

  ghost predicate NodeGrows(nd: Node, nd': Node) {
    && nd.log <= nd'.log
    && nd.next <= nd'.next
    && nd.epoch.cbcOuts.Keys <= nd'.epoch.cbcOuts.Keys
    && nd.epoch.shares <= nd'.epoch.shares
    && nd.epoch.decisions <= nd'.epoch.decisions
  }

  lemma HandleGrows(c: Cfg, nd: Node, p: int)
    requires 0 <= nd.next < |nd.log|
    ensures NodeGrows(nd, HandleNext(c, nd, p))
  {
  }

  lemma StepGrows(c: Cfg, s: Sys, step: Step)
    requires c.n > 0 && Complete(c, s) && Enabled(c, s, step)
    ensures NodeGrows(s.nodes[Actor(step)], NodeAfter(c, s, step))
  {
    if step.Handle? {
      HandleGrows(c, s.nodes[step.p], step.p);
    }
  }

  // An instance changes at the acting peer only, and there by one step of its own.
  ghost predicate AbaMoves(c: Cfg, s: Sys, s': Sys, j: int, p: int) {
    && 0 <= j < |s.abas| && j < |s'.abas|
    && (s'.abas[j] == s.abas[j] || exists st: A.Step :: st.p == p && A.Next(Instance(c, j), s.abas[j], st, s'.abas[j]))
  }

  lemma AbasMove(c: Cfg, s: Sys, step: Step, s': Sys, j: int)
    requires Next(c, s, step, s') && 0 <= j < c.n
    ensures AbaMoves(c, s, s', j, Actor(step))
  {
    var p := Actor(step);
    match step
    case InAba(i, st) =>
      if i == j { assert A.Next(Instance(c, j), s.abas[j], st, s'.abas[j]); }
    case Handle(_) =>
      var nd := s.nodes[p];
      var ev := nd.log[nd.next];
      if ev.LotteryOut? && ev.times == j {
        assert A.Next(Instance(c, j), s.abas[j], Input(c, nd, p, ev), s'.abas[j]);
      }
    case Cbc(_, _, _) =>
    case Resend(_, _, _) =>
    case Share(_, _, _, _, _) =>
    case Decide(_, _, _) =>
  }

  lemma StepComplete(c: Cfg, s: Sys, step: Step, s': Sys)
    requires Next(c, s, step, s')
    ensures Complete(c, s')
  {
    forall j | 0 <= j < c.n ensures A.Complete(Instance(c, j), s'.abas[j]) {
      AbasMove(c, s, step, s', j);
    }
  }

  lemma StepAbas(c: Cfg, s: Sys, step: Step, s': Sys, j: int)
    requires ValidCfg(c) && Inv(c, s) && Next(c, s, step, s') && 0 <= j < c.n
    ensures j < |s'.abas| && A.Inv(Instance(c, j), s'.abas[j])
  {
    AbasMove(c, s, step, s', j);
    if s'.abas[j] != s.abas[j] {
      var st :| A.Next(Instance(c, j), s.abas[j], st, s'.abas[j]);
      A.NextInv(Instance(c, j), s.abas[j], st, s'.abas[j]);
    }
  }

  // Outputs and estimates of every instance at every correct peer only grow.
  lemma AbaGrows(c: Cfg, s: Sys, step: Step, s': Sys, j: int, q: int)
    requires Next(c, s, step, s') && 0 <= j < c.n && q in Correct(c)
    ensures j < |s'.abas| && q in s.abas[j] && q in s'.abas[j]
    ensures A.NodeGrows(s.abas[j][q], s'.abas[j][q])
    ensures q != Actor(step) ==> s'.abas[j][q] == s.abas[j][q]
  {
    AbasMove(c, s, step, s', j);
    if s'.abas[j] != s.abas[j] {
      var st: A.Step :| st.p == Actor(step) && A.Next(Instance(c, j), s.abas[j], st, s'.abas[j]);
      A.StepGrows(Instance(c, j), s.abas[j][st.p], st);
    }
  }

  // No instance outputs twice, so a rejection stays.
  lemma RejectedStays(c: Cfg, s: Sys, step: Step, s': Sys, i: int)
    requires ValidCfg(c) && Inv(c, s) && Next(c, s, step, s') && Complete(c, s') && Rejected(c, s, i)
    ensures Rejected(c, s', i)
  {
    hide A.Inv, NodeInv, Next;
    var q :| q in Correct(c) && s.abas[i][q].hist.outs == [0];
    AbaGrows(c, s, step, s', i, q);
    StepAbas(c, s, step, s', i);
    T.OutputOnce(Instance(c, i), s'.abas[i], q);
    assert s'.abas[i][q].hist.outs == [0];
  }

  lemma DecisionStays(c: Cfg, s: Sys, step: Step, s': Sys, d: Decision)
    requires Next(c, s, step, s') && DecisionSent(c, s, d)
    ensures DecisionSent(c, s', d)
  {
    StepGrows(c, s, step);
  }
}
