// What a peer's events do to its epoch, exactly: candidates held, shares and decisions
// broadcast, events put on the channel. All of it holds along every run.

module EpochLaws {
  import opened Options
  import opened EpochNode
  import opened Certificates
  import opened EpochSystem
  import opened EpochInv
  import opened EpochSteps
  import A = AbaSystem
  import T = AbaTheorems

  // ----- candidates -----

  // Event k is the first delivery of candidate x among the handled ones.
  ghost predicate FirstDelivery(nd: Node, k: int, x: int) {
    && 0 <= k < nd.next <= |nd.log| && nd.log[k].CbcOut? && nd.log[k].candidate == x
    && forall j :: 0 <= j < k && nd.log[j].CbcOut? ==> nd.log[j].candidate != x
  }

  // A candidate is held exactly from its first handled delivery on, with that
  // delivery's proof.
  ghost predicate Candidates(nd: Node) {
    && 0 <= nd.next <= |nd.log|
    && (forall x :: x in nd.epoch.cbcOuts ==>
          exists k :: FirstDelivery(nd, k, x) && nd.log[k].body.proof == nd.epoch.cbcOuts[x].proof)
    && (forall k :: 0 <= k < nd.next && nd.log[k].CbcOut? ==> nd.log[k].candidate in nd.epoch.cbcOuts)
  }

  lemma CandidatesStay(nd: Node, nd': Node)
    requires Candidates(nd) && nd.log <= nd'.log && nd'.next == nd.next
    requires nd'.epoch.cbcOuts.Keys == nd.epoch.cbcOuts.Keys
    requires forall x :: x in nd.epoch.cbcOuts ==> nd'.epoch.cbcOuts[x].proof == nd.epoch.cbcOuts[x].proof
    ensures Candidates(nd')
  {
    forall x | x in nd'.epoch.cbcOuts
      ensures exists k :: FirstDelivery(nd', k, x) && nd'.log[k].body.proof == nd'.epoch.cbcOuts[x].proof
    {
      var k :| FirstDelivery(nd, k, x) && nd.log[k].body.proof == nd.epoch.cbcOuts[x].proof;
      assert FirstDelivery(nd', k, x);
    }
  }

  lemma EventCandidates(e: Epoch, f: nat, id: int, ev: Event)
    ensures HandleEvent(e, f, id, ev).cbcOuts ==
      if ev.CbcOut? && ev.candidate !in e.cbcOuts then e.cbcOuts[ev.candidate := ev.body] else e.cbcOuts
  {
  }

  lemma HandleCandidates(c: Cfg, nd: Node, p: int)
    requires Candidates(nd) && nd.next < |nd.log|
    ensures Candidates(HandleNext(c, nd, p))
  {
    hide HandleEvent;
    EventCandidates(nd.epoch, c.f, p, nd.log[nd.next]);
    var nd', ev := HandleNext(c, nd, p), nd.log[nd.next];
    forall x | x in nd'.epoch.cbcOuts
      ensures exists k :: FirstDelivery(nd', k, x) && nd'.log[k].body.proof == nd'.epoch.cbcOuts[x].proof
    {
      if x in nd.epoch.cbcOuts {
        var k :| FirstDelivery(nd, k, x) && nd.log[k].body.proof == nd.epoch.cbcOuts[x].proof;
        assert FirstDelivery(nd', k, x);
      } else {
        assert FirstDelivery(nd', nd.next, x);
      }
    }
  }

  // ----- lottery shares -----

  // The share for lottery t is out for each t up to the number of rejections handled;
  // the current one exactly if there was a rejection or 2f+1 candidates are held.
  ghost predicate SharesOut(f: nat, e: Epoch) {
    && (forall t :: 1 <= t <= e.lotteryTimes ==> t in e.shares)
    && (e.lotteryTimes in e.shares <==> e.lotteryTimes > 0 || |e.cbcOuts.Keys| >= 2 * f + 1)
  }

  lemma CbcShares(f: nat, e: Epoch, candidate: int, body: Body)
    requires SharesOut(f, e)
    ensures SharesOut(f, HandleCbcOut(e, f, candidate, body))
  {
    var e1 := e.(cbcOuts := e.cbcOuts[candidate := body]);
    assert |e1.cbcOuts| == |e1.cbcOuts.Keys|;
    if candidate !in e.cbcOuts {
      assert e1.cbcOuts.Keys == e.cbcOuts.Keys + {candidate};
    }
  }

  lemma RejectionShares(f: nat, e: Epoch, id: int, decide: int)
    requires SharesOut(f, e) && e.lotteryTimes >= 0
    ensures SharesOut(f, HandleAbaOut(e, id, decide))
  {
  }

  lemma HandleShares(c: Cfg, nd: Node, p: int)
    requires 0 <= nd.next < |nd.log| && SharesOut(c.f, nd.epoch) && nd.epoch.lotteryTimes >= 0
    ensures SharesOut(c.f, HandleNext(c, nd, p).epoch)
  {
    hide SharesOut, HandleCbcOut, HandleAbaOut;
    match nd.log[nd.next]
    case CbcOut(candidate, body) => CbcShares(c.f, nd.epoch, candidate, body);
    case AbaOut(decide, _) => RejectionShares(c.f, nd.epoch, p, decide);
    case LotteryOut(_, producer) => SharesSame(c.f, nd.epoch, HandleLotteryOut(nd.epoch, producer));
    case DecisionOut(_) =>
  }

  lemma SharesSame(f: nat, e: Epoch, e': Epoch)
    requires SharesOut(f, e) && e'.shares == e.shares && e'.lotteryTimes == e.lotteryTimes
    requires e'.cbcOuts.Keys == e.cbcOuts.Keys
    ensures SharesOut(f, e')
  {
  }

  // ----- decisions recorded and output -----

  // Each sender counts once for a producer, with its first decision.
  ghost predicate OneEach(r: Record) {
    forall d, e | d in Kept(r) && e in Kept(r) && d.producer == e.producer && d.sender == e.sender :: d == e
  }

  // Decision e is recorded, delivered and signed for by its voters.
  ghost predicate Sound(c: Cfg, r: Record, e: Decision) {
    && e in Kept(r) && e.delivered
    && forall v :: v in e.body.proof ==> e.body.proof[v] == Sig(v, c.sha(e.body.qcs))
  }

  // Some producer has exactly 2f+1 recorded decisions, one of them sound.
  ghost predicate Ripe(c: Cfg, r: Record) {
    exists e :: Sound(c, r, e) && |Deciders(r, e.producer)| == 2 * c.f + 1
  }

  // How often recording a decision made the record ripe.
  ghost function RipeTimes(c: Cfg, r: Record): nat {
    match r
    case Blank => 0
    case Keep(rest, _) => RipeTimes(c, rest) + if Ripe(c, r) then 1 else 0
  }

  function DecisionOuts(log: seq<Event>): nat {
    if log == [] then 0 else DecisionOuts(log[..|log| - 1]) + if log[|log| - 1].DecisionOut? then 1 else 0
  }

  ghost predicate Decided(c: Cfg, nd: Node) {
    OneEach(nd.record) && DecisionOuts(nd.log) == RipeTimes(c, nd.record)
  }

  lemma OutsSnoc(log: seq<Event>, ev: Event)
    ensures DecisionOuts(log + [ev]) == DecisionOuts(log) + if ev.DecisionOut? then 1 else 0
  {
    assert (log + [ev])[..|log|] == log;
  }

  lemma {:induction false} KeptDeciders(r: Record, d: Decision)
    requires d in Kept(r)
    ensures d.sender in Deciders(r, d.producer)
  {
    if d != r.d {
      KeptDeciders(r.rest, d);
    }
  }

  lemma EmitsSound(c: Cfg, r: Record, e: Decision)
    ensures Emits(r, c.f, c.sha, e) <==> Sound(c, r, e) && |Deciders(r, e.producer)| == 2 * c.f + 1
  {
  }

  lemma RipeIff(c: Cfg, r: Record)
    ensures Ripe(c, r) <==> exists e :: Emits(r, c.f, c.sha, e)
  {
    hide Kept, Deciders, Emits, Sound;
    forall e { EmitsSound(c, r, e); }
  }

  lemma TakeDecided(c: Cfg, nd: Node, d: Decision, out: Option<Decision>)
    requires Decided(c, nd) && Answer(c, nd.record, d, out)
    ensures Decided(c, TakeDecision(nd, d, out))
  {
    hide Kept, Deciders, Emits, Ripe, OneEach, DecisionOuts;
    var r := nd.record;
    RipeIff(c, HandleDecision(r, d));
    if d.sender !in Deciders(r, d.producer) {
      KeepOne(r, d);
    }
    if out.Some? {
      OutsSnoc(nd.log, DecisionOut(out.value));
    }
  }

  lemma KeepOne(r: Record, d: Decision)
    requires OneEach(r) && d.sender !in Deciders(r, d.producer)
    ensures OneEach(Keep(r, d))
  {
    forall e | e in Kept(r) ensures e.sender in Deciders(r, e.producer) {
      KeptDeciders(r, e);
    }
  }

  // ----- lottery and agreement outputs -----

  // A lottery with f+1 shares has put exactly one output on the channel.
  ghost predicate Lotteries(c: Cfg, nd: Node) {
    && (forall j :: |ShareSenders(nd.lotteries, j)| >= c.f + 1 ==>
          exists i :: 0 <= i < |nd.log| && nd.log[i].LotteryOut? && nd.log[i].times == j)
    && (forall i, k :: 0 <= i < k < |nd.log| && nd.log[i].LotteryOut? && nd.log[k].LotteryOut? ==>
          nd.log[i].times != nd.log[k].times)
  }

  lemma ShareLotteries(c: Cfg, nd: Node, j: int, x: int, head: nat, ok: bool)
    requires c.n > 0 && Lotteries(c, nd)
    requires forall i :: 0 <= i < |nd.log| && nd.log[i].LotteryOut? ==>
               |ShareSenders(nd.lotteries, nd.log[i].times)| >= c.f + 1
    ensures Lotteries(c, TakeShare(c, nd, j, x, head, ok))
  {
    var nd' := TakeShare(c, nd, j, x, head, ok);
    var seen := ShareSenders(nd.lotteries, j);
    if x !in seen && ok {
      assert |seen + {x}| == |seen| + 1;
    }
    forall m | |ShareSenders(nd'.lotteries, m)| >= c.f + 1
      ensures exists i :: 0 <= i < |nd'.log| && nd'.log[i].LotteryOut? && nd'.log[i].times == m
    {
      if |ShareSenders(nd.lotteries, m)| >= c.f + 1 {
        var i :| 0 <= i < |nd.log| && nd.log[i].LotteryOut? && nd.log[i].times == m;
        assert nd'.log[i] == nd.log[i];
      } else {
        assert nd'.log[|nd.log|].LotteryOut? && nd'.log[|nd.log|].times == m;
      }
    }
  }

  lemma LotteriesStay(c: Cfg, nd: Node, nd': Node)
    requires Lotteries(c, nd) && nd'.lotteries == nd.lotteries && nd.log <= nd'.log && |nd'.log| <= |nd.log| + 1
    requires |nd'.log| > |nd.log| ==> !nd'.log[|nd.log|].LotteryOut?
    ensures Lotteries(c, nd')
  {
    forall m | |ShareSenders(nd'.lotteries, m)| >= c.f + 1
      ensures exists i :: 0 <= i < |nd'.log| && nd'.log[i].LotteryOut? && nd'.log[i].times == m
    {
      var i :| 0 <= i < |nd.log| && nd.log[i].LotteryOut? && nd.log[i].times == m;
      assert nd'.log[i] == nd.log[i];
    }
  }

  // ----- over runs -----

  ghost predicate Laws(c: Cfg, nd: Node) {
    Candidates(nd) && SharesOut(c.f, nd.epoch) && Decided(c, nd) && Lotteries(c, nd)
  }

  lemma InitLaws(c: Cfg)
    ensures Laws(c, Node(START, NoShares, Blank, [], 0))
  {
    assert START.cbcOuts.Keys == {};
  }

  // Nothing but an event that is no decision or lottery output is new.
  lemma QuietLaws(c: Cfg, nd: Node, nd': Node)
    requires Laws(c, nd) && nd'.record == nd.record && nd'.lotteries == nd.lotteries && nd'.next == nd.next
    requires nd.log <= nd'.log && |nd'.log| <= |nd.log| + 1
    requires |nd'.log| > |nd.log| ==> !nd'.log[|nd.log|].LotteryOut? && !nd'.log[|nd.log|].DecisionOut?
    requires nd'.epoch == nd.epoch.(cbcOuts := nd'.epoch.cbcOuts)
    requires nd'.epoch.cbcOuts.Keys == nd.epoch.cbcOuts.Keys
    requires forall x :: x in nd.epoch.cbcOuts ==> nd'.epoch.cbcOuts[x].proof == nd.epoch.cbcOuts[x].proof
    ensures Laws(c, nd')
  {
    hide Candidates, OneEach, Lotteries, RipeTimes, SharesOut;
    CandidatesStay(nd, nd');
    SharesSame(c.f, nd.epoch, nd'.epoch);
    LotteriesStay(c, nd, nd');
    if |nd'.log| > |nd.log| {
      assert nd'.log == nd.log + [nd'.log[|nd.log|]];
      OutsSnoc(nd.log, nd'.log[|nd.log|]);
    } else {
      assert nd'.log == nd.log;
    }
  }

  lemma ActorLaws(c: Cfg, s: Sys, step: Step, s': Sys)
    requires ValidCfg(c) && Inv(c, s) && Next(c, s, step, s')
    requires Actor(step) in s.nodes && Laws(c, s.nodes[Actor(step)])
    ensures Actor(step) in s'.nodes && Laws(c, s'.nodes[Actor(step)])
  {
    hide Inv, ValidCfg, Candidates, SharesOut, Decided, Lotteries, Answer, HandleEvent, Complete, A.After;
    var p := Actor(step);
    var nd, nd' := s.nodes[p], s'.nodes[p];
    Basics(c, s, step, s');
    match step
    case Cbc(_, candidate, body) => QuietLaws(c, nd, nd');
    case Resend(_, candidate, qcs) => QuietLaws(c, nd, nd');
    case Share(_, j, x, head, ok) => ShareLaws(c, s, step, s');
    case InAba(j, st) => QuietLaws(c, nd, nd');
    case Handle(_) => HandleLaws(c, s, p);
    case Decide(_, d, out) => DecideLaws(c, nd, d, out);
  }

  lemma ShareLaws(c: Cfg, s: Sys, step: Step, s': Sys)
    requires Inv(c, s) && Next(c, s, step, s') && step.Share? && step.p in Correct(c)
    requires step.p in s.nodes && Laws(c, s.nodes[step.p])
    ensures step.p in s'.nodes && Laws(c, s'.nodes[step.p])
  {
    hide Inv, Candidates, SharesOut, OneEach, Lotteries, RipeTimes, Complete, ShareSenders;
    var p := step.p;
    var nd, nd' := s.nodes[p], s'.nodes[p];
    InvEvents(c, s, p);
    ShareLotteries(c, nd, step.j, step.sender, step.head, step.ok);
    CandidatesStay(nd, nd');
    SharesSame(c.f, nd.epoch, nd'.epoch);
    if nd'.log != nd.log {
      OutsSnoc(nd.log, nd'.log[|nd.log|]);
    }
  }

  lemma HandleLaws(c: Cfg, s: Sys, p: int)
    requires Inv(c, s) && p in Correct(c) && p in s.nodes && Laws(c, s.nodes[p])
    requires s.nodes[p].next < |s.nodes[p].log|
    ensures 0 <= s.nodes[p].next && Laws(c, HandleNext(c, s.nodes[p], p))
  {
    hide Inv, Candidates, SharesOut, Decided, Lotteries, OwnDecisions, FirstShare, HandleEvent;
    var nd := s.nodes[p];
    InvEpoch(c, s, p);
    HandleCandidates(c, nd, p);
    HandleShares(c, nd, p);
    DecidedSame(c, nd, HandleNext(c, nd, p));
    LotteriesStay(c, nd, HandleNext(c, nd, p));
  }

  lemma DecidedSame(c: Cfg, nd: Node, nd': Node)
    requires Decided(c, nd) && nd'.record == nd.record && nd'.log == nd.log
    ensures Decided(c, nd')
  {
  }

  lemma DecideLaws(c: Cfg, nd: Node, d: Decision, out: Option<Decision>)
    requires Laws(c, nd) && Answer(c, nd.record, d, out)
    ensures Laws(c, TakeDecision(nd, d, out))
  {
    hide Candidates, SharesOut, Decided, Lotteries, Answer;
    var nd' := TakeDecision(nd, d, out);
    TakeDecided(c, nd, d, out);
    CandidatesStay(nd, nd');
    SharesSame(c.f, nd.epoch, nd'.epoch);
    LotteriesStay(c, nd, nd');
  }

  // The laws hold at every correct peer in every state of every run.
  lemma {:induction false} RunLaws(c: Cfg, run: seq<Sys>, i: nat, p: int)
    requires ValidCfg(c) && IsRun(c, run) && i < |run| && p in Correct(c)
    ensures p in run[i].nodes && Laws(c, run[i].nodes[p])
  {
    hide Inv, Init, Next, ValidCfg, Laws;
    RunInv(c, run, i);
    InvBasics(c, run[i], p);
    if i == 0 {
      StartLaws(c, run[0], p);
    } else {
      assert Steps(c, run[i - 1], run[i]);
      RunInv(c, run, i - 1);
      InvBasics(c, run[i - 1], p);
      RunLaws(c, run, i - 1, p);
      var step :| Next(c, run[i - 1], step, run[i]);
      if Actor(step) == p {
        ActorLaws(c, run[i - 1], step, run[i]);
      } else {
        OthersSame(c, run[i - 1], step, run[i], p);
      }
    }
  }

  lemma StartLaws(c: Cfg, s: Sys, p: int)
    requires Init(c, s) && p in Correct(c)
    ensures p in s.nodes && Laws(c, s.nodes[p])
  {
    hide Laws;
    InitLaws(c);
  }

  lemma OthersSame(c: Cfg, s: Sys, step: Step, s': Sys, p: int)
    requires Next(c, s, step, s') && p in s.nodes && p != Actor(step)
    ensures p in s'.nodes && s'.nodes[p] == s.nodes[p]
  {
  }

  // ----- what is broadcast and relayed -----

  // The step from run[t] makes p handle an agreement output 1.
  ghost predicate HandlesOne(c: Cfg, run: seq<Sys>, t: nat, p: int) {
    && t + 1 < |run| && p in run[t].nodes && p in run[t + 1].nodes
    && var nd := run[t].nodes[p];
       && 0 <= nd.next < |nd.log| && nd.log[nd.next].AbaOut? && nd.log[nd.next].decide == 1
       && run[t + 1].nodes[p].log == nd.log && run[t + 1].nodes[p].next == nd.next + 1
  }

  // Every delivered decision of a correct peer was broadcast when it handled an
  // agreement output 1, and carries exactly what it held for the decision's producer
  // then, proof and proposal.
  lemma {:induction false} DecisionHeld(c: Cfg, run: seq<Sys>, i: nat, p: int, d: Decision) returns (t: nat)
    requires ValidCfg(c) && IsRun(c, run) && i < |run| && p in Correct(c) && p in run[i].nodes
    requires d in run[i].nodes[p].epoch.decisions && d != UNDELIVERED
    ensures t < i && HandlesOne(c, run, t, p) && d.delivered && d.sender == p
    ensures d.producer in run[t].nodes[p].epoch.cbcOuts && d.body == run[t].nodes[p].epoch.cbcOuts[d.producer]
    ensures d.producer == Current(Done(run[t].nodes[p]))
    decreases i
  {
    hide Inv, ValidCfg, Next, Init, HandlesOne, Current;
    if i == 0 {
      NoDecisions(c, run[0], p);
    }
    assert Steps(c, run[i - 1], run[i]);
    RunInv(c, run, i - 1);
    InvBasics(c, run[i - 1], p);
    var step :| Next(c, run[i - 1], step, run[i]);
    if d in run[i - 1].nodes[p].epoch.decisions {
      t := DecisionHeld(c, run, i - 1, p, d);
    } else {
      t := i - 1;
      NewDecision(c, run, t, step, p, d);
    }
  }

  lemma NoDecisions(c: Cfg, s: Sys, p: int)
    requires Init(c, s) && p in Correct(c)
    ensures p in s.nodes && s.nodes[p].epoch.decisions == {}
  {
  }

  lemma NewDecision(c: Cfg, run: seq<Sys>, t: nat, step: Step, p: int, d: Decision)
    requires t + 1 < |run| && Inv(c, run[t]) && Next(c, run[t], step, run[t + 1]) && p in Correct(c)
    requires p in run[t].nodes && p in run[t + 1].nodes
    requires d !in run[t].nodes[p].epoch.decisions && d in run[t + 1].nodes[p].epoch.decisions && d != UNDELIVERED
    ensures HandlesOne(c, run, t, p) && d.delivered && d.sender == p
    ensures d.producer in run[t].nodes[p].epoch.cbcOuts && d.body == run[t].nodes[p].epoch.cbcOuts[d.producer]
    ensures d.producer == Current(Done(run[t].nodes[p]))
  {
    hide Inv, Next, OwnDecisions, Zeros, Current, FirstShare;
    InvEpoch(c, run[t], p);
    ActorEpoch(c, run[t], step, run[t + 1]);
    if Actor(step) != p {
      OthersSame(c, run[t], step, run[t + 1], p);
    }
  }

  // What a lottery elects is a peer, and the first byte of its hash modulo n.
  lemma ElectedIsHead(c: Cfg, run: seq<Sys>, i: nat, p: int, k: nat) returns (q: nat)
    requires ValidCfg(c) && IsRun(c, run) && i < |run| && p in Correct(c) && p in run[i].nodes
    requires k < |run[i].nodes[p].log| && run[i].nodes[p].log[k].LotteryOut?
    ensures var ev := run[i].nodes[p].log[k];
      0 <= ev.times < c.n && 0 <= ev.producer < c.n && c.lot(ev.times) == c.n * q + ev.producer
  {
    hide ValidCfg, IsRun, Inv, AbaEvents, DecisionEvents, Producer;
    RunInv(c, run, i);
    InvEvents(c, run[i], p);
    InvBasics(c, run[i], p);
    q := ProducerHead(c, run[i].nodes[p].log[k].times);
  }

  lemma ProducerHead(c: Cfg, j: int) returns (q: nat)
    requires c.n > 0
    ensures 0 <= Producer(c, j) < c.n && c.lot(j) == c.n * q + Producer(c, j)
  {
    q := c.lot(j) / c.n;
  }

  // Every output of an agreement instance is on its peer's channel, marked as its own.
  lemma {:induction false} OutputRelayed(c: Cfg, run: seq<Sys>, i: nat, p: int, j: int, v: int)
    requires ValidCfg(c) && IsRun(c, run) && i < |run| && p in Correct(c) && 0 <= j < |run[i].abas|
    requires p in run[i].abas[j] && v in run[i].abas[j][p].hist.outs
    ensures p in run[i].nodes && AbaOut(v, j) in run[i].nodes[p].log
    decreases i
  {
    hide Inv, ValidCfg, Next, Init, Complete;
    RunInv(c, run, i);
    InvBasics(c, run[i], p);
    InstanceCount(c, run[i]);
    if i == 0 {
      NoOutputs(c, run[0], p, j);
    } else {
      assert Steps(c, run[i - 1], run[i]);
      RunInv(c, run, i - 1);
      InvBasics(c, run[i - 1], p);
      InstanceCount(c, run[i - 1]);
      var step :| Next(c, run[i - 1], step, run[i]);
      AbaGrows(c, run[i - 1], step, run[i], j, p);
      if v in run[i - 1].abas[j][p].hist.outs {
        OutputRelayed(c, run, i - 1, p, j, v);
        LogGrows(c, run[i - 1], step, run[i], p);
      } else {
        StepAbas(c, run[i - 1], step, run[i], j);
        T.OutputOnce(Instance(c, j), run[i].abas[j], p);
        NewRelayed(c, run[i - 1], step, run[i], p, j, v);
      }
    }
  }

  lemma InstanceCount(c: Cfg, s: Sys)
    requires Complete(c, s)
    ensures |s.abas| == c.n
  {
  }

  lemma NoOutputs(c: Cfg, s: Sys, p: int, j: int)
    requires Init(c, s) && p in Correct(c) && 0 <= j < c.n
    ensures j < |s.abas| && p in s.abas[j] && s.abas[j][p].hist.outs == []
  {
    assert A.Init(Instance(c, j), s.abas[j]);
  }

  lemma LogGrows(c: Cfg, s: Sys, step: Step, s': Sys, p: int)
    requires Next(c, s, step, s') && p in s.nodes
    ensures p in s'.nodes && s.nodes[p].log <= s'.nodes[p].log
  {
  }

  lemma NewRelayed(c: Cfg, s: Sys, step: Step, s': Sys, p: int, j: int, v: int)
    requires Next(c, s, step, s') && p in Correct(c) && p in s.nodes && p in s'.nodes
    requires 0 <= j < c.n && j < |s.abas| && j < |s'.abas| && p in s.abas[j] && p in s'.abas[j]
    requires A.NodeGrows(s.abas[j][p], s'.abas[j][p]) && |s'.abas[j][p].hist.outs| <= 1
    requires v !in s.abas[j][p].hist.outs && v in s'.abas[j][p].hist.outs
    ensures AbaOut(v, j) in s'.nodes[p].log
  {
    hide Complete, A.Enabled;
    var before, after := s.abas[j][p], s'.abas[j][p];
    assert before.hist.outs == [] && after.hist.outs == [v];
    assert step.InAba? && step.j == j && step.step.p == p;
    var log := s'.nodes[p].log;
    assert log[|log| - 1] == AbaOut(v, j);
  }

  // What a peer holds for a candidate keeps its proof; its proposal changes only when
  // a later SEND of the candidate overwrites it.
  lemma HeldStep(c: Cfg, s: Sys, step: Step, s': Sys, p: int, x: int)
    requires Next(c, s, step, s') && p in s.nodes && x in s.nodes[p].epoch.cbcOuts
    ensures p in s'.nodes && x in s'.nodes[p].epoch.cbcOuts
    ensures var b, b' := s.nodes[p].epoch.cbcOuts[x], s'.nodes[p].epoch.cbcOuts[x];
      && b'.proof == b.proof
      && b'.qcs == if step.Resend? && step.p == p && step.candidate == x then step.qcs else b.qcs
  {
    hide Complete, A.After, HandleEvent, Fires, HandleLottery;
    if step.Handle? && step.p == p {
      EventCandidates(s.nodes[p].epoch, c.f, p, s.nodes[p].log[s.nodes[p].next]);
    }
  }

  // A decision a correct peer handles counts for its producer from then on, and so does
  // a lottery share that verifies.
  lemma {:induction false} HandledRecorded(c: Cfg, run: seq<Sys>, i: nat, step: Step, j: nat)
    requires IsRun(c, run) && i < j < |run| && Next(c, run[i], step, run[i + 1])
    requires step.Decide? || (step.Share? && step.ok)
    ensures step.p in run[j].nodes
    ensures step.Decide? ==> step.d.sender in Deciders(run[j].nodes[step.p].record, step.d.producer)
    ensures step.Share? ==> step.sender in ShareSenders(run[j].nodes[step.p].lotteries, step.j)
    decreases j
  {
    hide Init, Next;
    if j == i + 1 {
      RecordedNow(c, run[i], step, run[j]);
    } else {
      HandledRecorded(c, run, i, step, j - 1);
      assert Steps(c, run[j - 1], run[j]);
      var last :| Next(c, run[j - 1], last, run[j]);
      RecordsGrow(c, run[j - 1], last, run[j], step.p);
    }
  }

  lemma RecordedNow(c: Cfg, s: Sys, step: Step, s': Sys)
    requires Next(c, s, step, s') && (step.Decide? || (step.Share? && step.ok))
    ensures step.p in s'.nodes
    ensures step.Decide? ==> step.d.sender in Deciders(s'.nodes[step.p].record, step.d.producer)
    ensures step.Share? ==> step.sender in ShareSenders(s'.nodes[step.p].lotteries, step.j)
  {
  }

  lemma RecordsGrow(c: Cfg, s: Sys, step: Step, s': Sys, p: int)
    requires Next(c, s, step, s') && p in s.nodes
    ensures p in s'.nodes
    ensures forall x :: Deciders(s.nodes[p].record, x) <= Deciders(s'.nodes[p].record, x)
    ensures forall j :: ShareSenders(s.nodes[p].lotteries, j) <= ShareSenders(s'.nodes[p].lotteries, j)
  {
    hide Complete, A.After, HandleEvent, Emits;
  }
}
