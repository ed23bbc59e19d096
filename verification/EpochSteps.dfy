// Every step of an epoch keeps the invariant.

module EpochSteps {
  import opened Quorum
  import opened EpochNode
  import opened EpochSystem
  import opened EpochInv
  import N = AbaNode
  import A = AbaSystem
  import T = AbaTheorems

  // ----- parts of the invariant -----

  lemma InvBasics(c: Cfg, s: Sys, p: int)
    requires Inv(c, s) && p in Correct(c)
    ensures c.n > 0 && Complete(c, s) && p in s.nodes
  {
  }

  lemma InvEpoch(c: Cfg, s: Sys, p: int)
    requires Inv(c, s) && p in Correct(c)
    ensures 0 <= s.nodes[p].next <= |s.nodes[p].log| && Counters(s.nodes[p]) && OwnDecisions(p, s.nodes[p])
    ensures FirstShare(c, s.nodes[p])
  {
    assert NodeInv(c, s, p);
  }

  lemma InvEvents(c: Cfg, s: Sys, p: int)
    requires Inv(c, s) && p in Correct(c)
    ensures 0 <= s.nodes[p].next <= |s.nodes[p].log|
    ensures LotteryEvents(c, s.nodes[p]) && AbaEvents(c, s, p, s.nodes[p].log) && DecisionEvents(c, s.nodes[p])
  {
    assert NodeInv(c, s, p);
  }

  lemma InvInputs(c: Cfg, s: Sys, p: int)
    requires Inv(c, s) && p in Correct(c)
    ensures Inputs(c, s, p, s.nodes[p])
  {
    assert NodeInv(c, s, p);
  }

  lemma InvReceived(c: Cfg, s: Sys, p: int)
    requires Inv(c, s) && p in Correct(c)
    ensures Received(c, s, s.nodes[p]) && FiredAfterRejections(c, s, s.nodes[p])
  {
    assert NodeInv(c, s, p);
  }

  // ----- the shape of a step at the acting peer -----

  lemma Basics(c: Cfg, s: Sys, step: Step, s': Sys)
    requires Next(c, s, step, s')
    ensures c.n > 0 && Complete(c, s)
    ensures Actor(step) in Correct(c) && Actor(step) in s.nodes && Actor(step) in s'.nodes
  {
  }

  // Handling an event changes the epoch; every other step at most adds an event
  // or replaces the content of a delivered proposal.
  lemma ActorEpoch(c: Cfg, s: Sys, step: Step, s': Sys)
    requires Next(c, s, step, s')
    ensures Actor(step) in s.nodes && Actor(step) in s'.nodes
    ensures var nd, nd' := s.nodes[Actor(step)], s'.nodes[Actor(step)];
      if step.Handle? then 0 <= nd.next < |nd.log| && nd' == HandleNext(c, nd, Actor(step))
      else nd'.epoch == nd.epoch.(cbcOuts := nd'.epoch.cbcOuts) && nd'.next == nd.next && nd.log <= nd'.log
  {
  }

  // A share is recorded only if it was sent; it puts an output on the channel
  // only as the f+1st.
  lemma ActorLotteries(c: Cfg, s: Sys, step: Step, s': Sys)
    requires Next(c, s, step, s')
    ensures Actor(step) in s.nodes && Actor(step) in s'.nodes && Complete(c, s)
    ensures var nd, nd' := s.nodes[Actor(step)], s'.nodes[Actor(step)];
      nd'.lotteries == nd.lotteries ||
      (step.Share? && nd'.lotteries == Got(nd.lotteries, step.j, step.sender) && step.sender in Peers(c.n)
       && (step.sender in Correct(c) ==> step.j in s.nodes[step.sender].epoch.shares))
    ensures var nd, nd' := s.nodes[Actor(step)], s'.nodes[Actor(step)];
      |nd'.log| > |nd.log| && nd'.log[|nd.log|].LotteryOut? ==>
        c.n > 0 && step.Share? && 0 <= step.j < c.n && nd'.log[|nd.log|] == LotteryOut(step.j, Producer(c, step.j))
        && nd'.lotteries == Got(nd.lotteries, step.j, step.sender) && |ShareSenders(nd'.lotteries, step.j)| >= c.f + 1
  {
  }

  lemma ActorRecord(c: Cfg, s: Sys, step: Step, s': Sys)
    requires Next(c, s, step, s')
    ensures Actor(step) in s.nodes && Actor(step) in s'.nodes
    ensures var nd, nd' := s.nodes[Actor(step)], s'.nodes[Actor(step)];
      nd'.record == nd.record ||
      (step.Decide? && nd'.record == Keep(nd.record, step.d) && DecisionSent(c, s, step.d))
    ensures var nd, nd' := s.nodes[Actor(step)], s'.nodes[Actor(step)];
      |nd'.log| > |nd.log| && nd'.log[|nd.log|].DecisionOut? ==>
        var d := nd'.log[|nd.log|].decided;
        d in Kept(nd'.record) && Validated(c.sha, d) && |Deciders(nd'.record, d.producer)| >= 2 * c.f + 1
  {
  }

  // At most one event is put on the channel; an agreement output is new.
  lemma ActorLog(c: Cfg, s: Sys, step: Step, s': Sys)
    requires Next(c, s, step, s')
    ensures Actor(step) in Correct(c) && Actor(step) in s.nodes && Actor(step) in s'.nodes && c.n > 0 && Complete(c, s)
    ensures var nd, nd' := s.nodes[Actor(step)], s'.nodes[Actor(step)];
      && nd.log <= nd'.log && |nd'.log| <= |nd.log| + 1
      && (|nd'.log| > |nd.log| && nd'.log[|nd.log|].AbaOut? ==>
            && step.InAba? && 0 <= step.j < c.n && nd'.log[|nd.log|].instance == step.j
            && step.step.p == Actor(step) && step.j < |s'.abas| && Actor(step) in s'.abas[step.j]
            && var before, after := s.abas[step.j][Actor(step)], s'.abas[step.j][Actor(step)];
               |after.hist.outs| > |before.hist.outs|
                 && nd'.log[|nd.log|].decide == after.hist.outs[|before.hist.outs|])
  {
    hide Producer, ElectedBefore, A.EnteredWith;
  }

  // ----- peers that do not act -----

  lemma SameOwn(c: Cfg, s: Sys, s': Sys, q: int, nd: Node)
    requires c.n > 0 && Complete(c, s) && Complete(c, s') && q in Correct(c)
    requires forall j :: 0 <= j < c.n ==> s'.abas[j][q] == s.abas[j][q]
    requires AbaEvents(c, s, q, nd.log) && Inputs(c, s, q, nd)
    ensures AbaEvents(c, s', q, nd.log) && Inputs(c, s', q, nd)
  {
  }

  lemma OtherNode(c: Cfg, s: Sys, step: Step, s': Sys, q: int)
    requires ValidCfg(c) && Inv(c, s) && Next(c, s, step, s') && Complete(c, s')
    requires q in Correct(c) && q != Actor(step)
    ensures NodeInv(c, s', q)
  {
    hide Producer, A.Inv, Received, FiredAfterRejections, AbaEvents, Inputs, Counters, FirstShare, OwnDecisions,
         DecisionEvents, LotteryEvents;
    var nd := s.nodes[q];
    assert NodeInv(c, s, q);
    assert s'.nodes[q] == nd;
    forall j | 0 <= j < c.n ensures s'.abas[j][q] == s.abas[j][q] {
      AbaGrows(c, s, step, s', j, q);
    }
    SameOwn(c, s, s', q, nd);
    OtherReceived(c, s, step, s', nd);
    OtherFired(c, s, step, s', nd);
  }

  lemma SharesStay(c: Cfg, s: Sys, step: Step, s': Sys, l: Shares)
    requires Next(c, s, step, s') && Complete(c, s') && Complete(c, s) && SharesSent(c, s, l)
    ensures SharesSent(c, s', l)
  {
    StepGrows(c, s, step);
    forall q | q in Correct(c) ensures s.nodes[q].epoch.shares <= s'.nodes[q].epoch.shares {}
  }

  lemma DecisionsSentStay(c: Cfg, s: Sys, step: Step, s': Sys, r: Record)
    requires Next(c, s, step, s') && DecisionsSent(c, s, r)
    ensures DecisionsSent(c, s', r)
  {
    hide Producer, Next, DecisionSent;
    forall d | d in Kept(r) ensures DecisionSent(c, s', d) {
      DecisionStays(c, s, step, s', d);
    }
  }

  lemma OtherReceived(c: Cfg, s: Sys, step: Step, s': Sys, nd: Node)
    requires Next(c, s, step, s') && Complete(c, s') && Complete(c, s) && Received(c, s, nd)
    ensures Received(c, s', nd)
  {
    SharesStay(c, s, step, s', nd.lotteries);
    DecisionsSentStay(c, s, step, s', nd.record);
  }

  lemma OtherFired(c: Cfg, s: Sys, step: Step, s': Sys, nd: Node)
    requires ValidCfg(c) && Inv(c, s) && Next(c, s, step, s') && Complete(c, s') && FiredAfterRejections(c, s, nd)
    ensures FiredAfterRejections(c, s', nd)
  {
    hide Producer, Inv, Next, Complete, Rejected;
    forall j, i | |ShareSenders(nd.lotteries, j)| >= c.f + 1 && 0 <= i < j ensures Rejected(c, s', i) {
      RejectedStays(c, s, step, s', i);
    }
  }

  // ----- the acting peer: shares and decisions received -----

  lemma GotSent(c: Cfg, s: Sys, l: Shares, j: int, x: int)
    requires Complete(c, s) && SharesSent(c, s, l)
    requires x in Peers(c.n) && (x in Correct(c) ==> j in s.nodes[x].epoch.shares)
    ensures SharesSent(c, s, Got(l, j, x))
  {
    var l' := Got(l, j, x);
    forall j', x' | x' in ShareSenders(l', j')
      ensures x' in Peers(c.n) && (x' in Correct(c) ==> j' in s.nodes[x'].epoch.shares)
    {
      assert x' in ShareSenders(l, j') || (j' == j && x' == x);
    }
  }

  lemma ActorReceived(c: Cfg, s: Sys, step: Step, s': Sys)
    requires Inv(c, s) && Next(c, s, step, s') && Complete(c, s')
    ensures Actor(step) in Correct(c) && Received(c, s', s'.nodes[Actor(step)])
  {
    hide Producer, Inv, Next, SharesSent, DecisionSent;
    var p := Actor(step);
    Basics(c, s, step, s');
    InvReceived(c, s, p);
    ActorLotteries(c, s, step, s');
    ActorRecord(c, s, step, s');
    var nd, nd' := s.nodes[p], s'.nodes[p];
    if nd'.lotteries != nd.lotteries {
      GotSent(c, s, nd.lotteries, step.j, step.sender);
    }
    SharesStay(c, s, step, s', nd'.lotteries);
    DecisionsSentStay(c, s, step, s', nd'.record);
  }

  // ----- the acting peer: a lottery fires only after all rejections -----

  lemma ShareCount(c: Cfg, s: Sys, x: int, j: int)
    requires Inv(c, s) && x in Correct(c) && j in s.nodes[x].epoch.shares
    ensures 0 <= j <= |Zeros(Done(s.nodes[x]))|
  {
    hide Zeros, Current, OwnDecisions;
    InvEpoch(c, s, x);
  }

  // A correct peer that sent its share for lottery j has handled j rejections.
  lemma ShareRejections(c: Cfg, s: Sys, x: int, j: int, i: int)
    requires ValidCfg(c) && Inv(c, s) && x in Correct(c)
    requires j in s.nodes[x].epoch.shares && 0 <= i < j
    ensures Rejected(c, s, i)
  {
    hide Producer, Inv, Zeros, Rejected;
    InvBasics(c, s, x);
    var nd := s.nodes[x];
    ShareCount(c, s, x, j);
    var zs := Zeros(Done(nd));
    forall z | z in zs ensures 0 <= z < c.n && s.abas[z][x].hist.outs == [0] {
      ZeroOutput(c, s, x, z);
    }
    if i in zs {
      RejectedBy(c, s, i, x);
    } else {
      var z := Pigeonhole(zs, j);
      ZeroFired(c, s, x, z);
    }
  }

  lemma RejectedBy(c: Cfg, s: Sys, i: int, x: int)
    requires Complete(c, s) && 0 <= i < c.n && x in Correct(c) && s.abas[i][x].hist.outs == [0]
    ensures Rejected(c, s, i)
  {
  }

  // A peer that handled instance z's rejection had lottery z fire.
  lemma ZeroFired(c: Cfg, s: Sys, x: int, z: int)
    requires Inv(c, s) && x in Correct(c) && z in Zeros(Done(s.nodes[x]))
    ensures |ShareSenders(s.nodes[x].lotteries, z)| >= c.f + 1
    ensures FiredAfterRejections(c, s, s.nodes[x])
  {
    hide Producer, Inv, AbaEvents, DecisionEvents, Received, FiredAfterRejections, Zeros;
    InvBasics(c, s, x);
    var nd := s.nodes[x];
    InvEvents(c, s, x);
    InvReceived(c, s, x);
    ZeroOutput(c, s, x, z);
    var k :| k < |nd.log| && Elected(c, nd.log, k, z);
    assert nd.log[k].LotteryOut?;
  }

  lemma ZeroOutput(c: Cfg, s: Sys, x: int, z: int)
    requires Inv(c, s) && x in Correct(c) && z in Zeros(Done(s.nodes[x]))
    ensures 0 <= z < c.n && s.abas[z][x].hist.outs == [0] && ElectedBefore(c, s.nodes[x].log, |s.nodes[x].log|, z)
  {
    hide Producer, Inv, LotteryEvents, DecisionEvents, Zeros;
    InvBasics(c, s, x);
    var nd := s.nodes[x];
    InvEvents(c, s, x);
    ZerosAmong(Done(nd), z);
    var i :| 0 <= i < |Done(nd)| && Done(nd)[i].AbaOut? && Done(nd)[i].decide != 1 && Done(nd)[i].instance == z;
    assert nd.log[i] == Done(nd)[i];
    OutputBit(c, s, x, z);
    assert nd.log[i].decide in s.abas[z][x].hist.outs;
    var k :| k < i && Elected(c, nd.log, k, z);
  }

  lemma OutputBit(c: Cfg, s: Sys, x: int, j: int)
    requires Inv(c, s) && x in Correct(c) && 0 <= j < c.n
    ensures forall v :: v in s.abas[j][x].hist.outs ==> v in {0, 1}
  {
    var ic := Instance(c, j);
    forall v | v in s.abas[j][x].hist.outs ensures v in {0, 1} {
      var r := T.OutputDecided(ic, s.abas[j], x, v);
      T.Bits(ic, s.abas[j], x, r);
    }
  }

  lemma FireRejections(c: Cfg, s: Sys, p: int, j: int, x: int, i: int)
    requires ValidCfg(c) && Inv(c, s) && p in Correct(c) && x in Peers(c.n)
    requires x in Correct(c) ==> j in s.nodes[x].epoch.shares
    requires |ShareSenders(s.nodes[p].lotteries, j) + {x}| >= c.f + 1 && 0 <= i < j
    ensures Rejected(c, s, i)
  {
    hide Producer, A.Inv, Rejected, FiredAfterRejections;
    assert NodeInv(c, s, p);
    var senders := ShareSenders(s.nodes[p].lotteries, j) + {x};
    var y := SomeCorrect(c.n, c.f, c.faulty, senders);
    ShareRejections(c, s, y, j, i);
  }

  lemma ActorFired(c: Cfg, s: Sys, step: Step, s': Sys)
    requires ValidCfg(c) && Inv(c, s) && Next(c, s, step, s') && Complete(c, s')
    ensures Actor(step) in Correct(c) && FiredAfterRejections(c, s', s'.nodes[Actor(step)])
  {
    hide Producer, Inv, Next, Rejected, Received;
    var p := Actor(step);
    Basics(c, s, step, s');
    InvReceived(c, s, p);
    var nd, nd' := s.nodes[p], s'.nodes[p];
    OtherFired(c, s, step, s', nd);
    ActorLotteries(c, s, step, s');
    forall j, i | |ShareSenders(nd'.lotteries, j)| >= c.f + 1 && 0 <= i < j ensures Rejected(c, s', i) {
      if nd'.lotteries != nd.lotteries && j == step.j {
        FireRejections(c, s, p, j, step.sender, i);
        RejectedStays(c, s, step, s', i);
      } else {
        assert ShareSenders(nd'.lotteries, j) == ShareSenders(nd.lotteries, j);
      }
    }
  }

  // ----- the acting peer: events -----

  lemma GotCount(l: Shares, j: int, x: int)
    ensures forall j' :: |ShareSenders(l, j')| <= |ShareSenders(Got(l, j, x), j')|
  {
    forall j' ensures |ShareSenders(l, j')| <= |ShareSenders(Got(l, j, x), j')| {
      SubsetCount(ShareSenders(l, j'), ShareSenders(Got(l, j, x), j'));
    }
  }

  lemma KeepCount(r: Record, d: Decision)
    ensures forall P :: |Deciders(r, P)| <= |Deciders(Keep(r, d), P)|
    ensures Kept(r) <= Kept(Keep(r, d))
  {
    forall P ensures |Deciders(r, P)| <= |Deciders(Keep(r, d), P)| {
      SubsetCount(Deciders(r, P), Deciders(Keep(r, d), P));
    }
  }

  lemma ActorLotteryEvents(c: Cfg, s: Sys, step: Step, s': Sys)
    requires Inv(c, s) && Next(c, s, step, s')
    ensures Actor(step) in s'.nodes && LotteryEvents(c, s'.nodes[Actor(step)])
  {
    hide Producer, Inv, Next, AbaEvents, DecisionEvents, ShareSenders;
    var p := Actor(step);
    Basics(c, s, step, s');
    InvEvents(c, s, p);
    ActorLog(c, s, step, s');
    ActorLotteries(c, s, step, s');
    var nd, nd' := s.nodes[p], s'.nodes[p];
    if nd'.lotteries != nd.lotteries {
      GotCount(nd.lotteries, step.j, step.sender);
    }
    forall i | 0 <= i < |nd'.log| && nd'.log[i].LotteryOut?
      ensures var j := nd'.log[i].times;
        0 <= j < c.n && nd'.log[i].producer == Producer(c, j) && |ShareSenders(nd'.lotteries, j)| >= c.f + 1
    {
      if i < |nd.log| {
        assert nd'.log[i] == nd.log[i];
      }
    }
  }

  lemma ActorDecisionEvents(c: Cfg, s: Sys, step: Step, s': Sys)
    requires Inv(c, s) && Next(c, s, step, s')
    ensures Actor(step) in s'.nodes && DecisionEvents(c, s'.nodes[Actor(step)])
  {
    hide Producer, Inv, Next, AbaEvents, LotteryEvents, Deciders, Kept;
    var p := Actor(step);
    Basics(c, s, step, s');
    InvEvents(c, s, p);
    ActorLog(c, s, step, s');
    ActorRecord(c, s, step, s');
    var nd, nd' := s.nodes[p], s'.nodes[p];
    if nd'.record != nd.record {
      KeepCount(nd.record, step.d);
    }
    forall i | 0 <= i < |nd'.log| && nd'.log[i].DecisionOut?
      ensures var d := nd'.log[i].decided;
        d in Kept(nd'.record) && Validated(c.sha, d) && |Deciders(nd'.record, d.producer)| >= 2 * c.f + 1
    {
      if i < |nd.log| {
        assert nd'.log[i] == nd.log[i];
      }
    }
  }

  lemma ElectedStays(c: Cfg, log: seq<Event>, log': seq<Event>, next: int, next': int, j: int)
    requires c.n > 0 && ElectedBefore(c, log, next, j) && log <= log' && next <= next'
    ensures ElectedBefore(c, log', next', j)
  {
    var k :| k < next && Elected(c, log, k, j);
    assert Elected(c, log', k, j);
  }

  // What instance j does at the acting peer p, seen from p.
  lemma ActorInstance(c: Cfg, s: Sys, step: Step, s': Sys, j: int)
    requires ValidCfg(c) && Inv(c, s) && Next(c, s, step, s') && Complete(c, s') && 0 <= j < c.n
    ensures var p := Actor(step);
      var before, after := s.abas[j][p], s'.abas[j][p];
      && A.NodeGrows(before, after)
      && |after.hist.outs| <= 1
      && (after.hist.outs != [] ==> after.phase != N.WaitInput)
      && (after != before ==>
            (step.InAba? && step.j == j && (after.phase != N.WaitInput <==> before.phase != N.WaitInput))
            || (step.Handle? && s.nodes[p].log[s.nodes[p].next].LotteryOut?
                && s.nodes[p].log[s.nodes[p].next].times == j))
  {
    var p := Actor(step);
    AbaGrows(c, s, step, s', j, p);
    StepAbas(c, s, step, s', j);
    T.OutputOnce(Instance(c, j), s'.abas[j], p);
    if step.InAba? && step.j == j {
      A.InputOnly(Instance(c, j), s.abas[j][p], step.step);
    }
  }

  lemma ActorOldOutput(c: Cfg, s: Sys, step: Step, s': Sys, j: int, v: int)
    requires ValidCfg(c) && Inv(c, s) && Next(c, s, step, s') && Complete(c, s') && 0 <= j < c.n
    requires s.abas[j][Actor(step)].hist.outs == [v]
    ensures s'.abas[j][Actor(step)].hist.outs == [v]
  {
    hide Producer, Inv, Next, Complete;
    ActorInstance(c, s, step, s', j);
  }

  lemma ActorNewOutput(c: Cfg, s: Sys, step: Step, s': Sys)
    requires ValidCfg(c) && Inv(c, s) && Next(c, s, step, s') && Complete(c, s')
    requires Actor(step) in s.nodes && Actor(step) in s'.nodes
    requires var nd, nd' := s.nodes[Actor(step)], s'.nodes[Actor(step)];
      |nd'.log| > |nd.log| && nd'.log[|nd.log|].AbaOut?
    ensures var p := Actor(step);
      var nd, nd' := s.nodes[p], s'.nodes[p];
      var ev := nd'.log[|nd.log|];
      && p in Correct(c) && c.n > 0 && Complete(c, s)
      && 0 <= ev.instance < c.n
      && s.abas[ev.instance][p].hist.outs == []
      && s'.abas[ev.instance][p].hist.outs == [ev.decide]
      && ElectedBefore(c, nd'.log, |nd.log|, ev.instance)
  {
    hide Producer, Inv, Next, AbaEvents, LotteryEvents, DecisionEvents, ElectedBefore;
    var p := Actor(step);
    ActorLog(c, s, step, s');
    InvInputs(c, s, p);
    InvEvents(c, s, p);
    ActorInstance(c, s, step, s', step.j);
    ElectedStays(c, s.nodes[p].log, s'.nodes[p].log, s.nodes[p].next, |s.nodes[p].log|, step.j);
  }

  // What an agreement event on the acting peer's channel says after the step.
  ghost predicate AbaEventOk(c: Cfg, s: Sys, p: int, log: seq<Event>, i: int)
    requires c.n > 0 && Complete(c, s) && p in Correct(c) && 0 <= i < |log| && log[i].AbaOut?
  {
    && 0 <= log[i].instance < c.n
    && s.abas[log[i].instance][p].hist.outs == [log[i].decide]
    && ElectedBefore(c, log, i, log[i].instance)
  }

  lemma ActorOldEvent(c: Cfg, s: Sys, step: Step, s': Sys, i: int)
    requires ValidCfg(c) && Inv(c, s) && Next(c, s, step, s') && Complete(c, s')
    requires Actor(step) in s.nodes && Actor(step) in s'.nodes
    requires 0 <= i < |s.nodes[Actor(step)].log| && s.nodes[Actor(step)].log[i].AbaOut?
    ensures c.n > 0 && Complete(c, s) && Actor(step) in Correct(c)
    ensures var log, log' := s.nodes[Actor(step)].log, s'.nodes[Actor(step)].log;
      log <= log' && log'[i] == log[i] && AbaEventOk(c, s, Actor(step), log, i)
        && AbaEventOk(c, s', Actor(step), log', i)
  {
    hide Producer, Inv, Next, DecisionEvents, LotteryEvents, ElectedBefore;
    var p := Actor(step);
    ActorLog(c, s, step, s');
    InvEvents(c, s, p);
    var log, log' := s.nodes[p].log, s'.nodes[p].log;
    assert log'[i] == log[i];
    ActorOldOutput(c, s, step, s', log[i].instance, log[i].decide);
    ElectedStays(c, log, log', i, i, log[i].instance);
  }

  lemma ActorDistinct(c: Cfg, s: Sys, step: Step, s': Sys, i: int, k: int)
    requires ValidCfg(c) && Inv(c, s) && Next(c, s, step, s') && Complete(c, s')
    requires Actor(step) in s.nodes && Actor(step) in s'.nodes
    requires var log' := s'.nodes[Actor(step)].log; 0 <= i < k < |log'| && log'[i].AbaOut? && log'[k].AbaOut?
    ensures var log' := s'.nodes[Actor(step)].log; log'[i].instance != log'[k].instance
  {
    hide Producer, Inv, Next, DecisionEvents, LotteryEvents, ElectedBefore;
    var p := Actor(step);
    ActorLog(c, s, step, s');
    InvEvents(c, s, p);
    var log, log' := s.nodes[p].log, s'.nodes[p].log;
    assert log'[i] == log[i];
    ActorOldEvent(c, s, step, s', i);
    if k < |log| {
      assert log'[k] == log[k];
    } else {
      ActorNewOutput(c, s, step, s');
    }
  }

  lemma ActorAbaEvents(c: Cfg, s: Sys, step: Step, s': Sys)
    requires ValidCfg(c) && Inv(c, s) && Next(c, s, step, s') && Complete(c, s')
    ensures c.n > 0 && Actor(step) in Correct(c) && Actor(step) in s'.nodes
    ensures AbaEvents(c, s', Actor(step), s'.nodes[Actor(step)].log)
  {
    hide Producer, Inv, Next, ElectedBefore;
    var p := Actor(step);
    ActorLog(c, s, step, s');
    var log, log' := s.nodes[p].log, s'.nodes[p].log;
    forall i | 0 <= i < |log'| && log'[i].AbaOut? ensures AbaEventOk(c, s', p, log', i) {
      if i < |log| {
        assert log'[i] == log[i];
        ActorOldEvent(c, s, step, s', i);
      } else {
        ActorNewOutput(c, s, step, s');
      }
    }
    forall i, k | 0 <= i < k < |log'| && log'[i].AbaOut? && log'[k].AbaOut?
      ensures log'[i].instance != log'[k].instance
    {
      ActorDistinct(c, s, step, s', i, k);
    }
  }

  // ----- the acting peer: counters, inputs and decisions -----

  // The event a Handle step consumes, if it is a rejection, is a new one.
  lemma NewZero(c: Cfg, s: Sys, p: int)
    requires Inv(c, s) && p in Correct(c) && s.nodes[p].next < |s.nodes[p].log|
    ensures var nd := s.nodes[p];
      nd.log[nd.next].AbaOut? ==> nd.log[nd.next].instance !in Zeros(Done(nd))
  {
    hide Producer, LotteryEvents, DecisionEvents, ElectedBefore, Zeros, A.Inv, NodeInv;
    var nd := s.nodes[p];
    InvEvents(c, s, p);
    var ev := nd.log[nd.next];
    if ev.AbaOut? && ev.instance in Zeros(Done(nd)) {
      ZerosAmong(Done(nd), ev.instance);
      assert false;
    }
  }

  // What an event does to the counters of the epoch.
  lemma EventCounters(e: Epoch, f: nat, id: int, ev: Event)
    ensures var e' := HandleEvent(e, f, id, ev);
      && e'.lotteryTimes == (if ev.AbaOut? && ev.decide != 1 then e.lotteryTimes + 1 else e.lotteryTimes)
      && e'.currProducer == (if ev.LotteryOut? then ev.producer else e.currProducer)
      && e'.shares <= e.shares + {e'.lotteryTimes}
  {
  }

  lemma HandleCounters(c: Cfg, nd: Node, p: int)
    requires 0 <= nd.next < |nd.log| && Counters(nd)
    requires nd.log[nd.next].AbaOut? ==> nd.log[nd.next].instance !in Zeros(Done(nd))
    ensures Counters(HandleNext(c, nd, p))
  {
    hide Producer, Zeros, Current, HandleEvent;
    var nd' := HandleNext(c, nd, p);
    var ev := nd.log[nd.next];
    EventCounters(nd.epoch, c.f, p, ev);
    assert Done(nd') == Done(nd) + [ev];
    Snoc(Done(nd), ev);
    if ev.AbaOut? && ev.decide != 1 {
      assert |Zeros(Done(nd)) + {ev.instance}| == |Zeros(Done(nd))| + 1;
    }
  }

  lemma ActorCounters(c: Cfg, s: Sys, step: Step, s': Sys)
    requires Inv(c, s) && Next(c, s, step, s') && Complete(c, s')
    ensures Actor(step) in Correct(c) && Counters(s'.nodes[Actor(step)])
  {
    hide Producer, Inv, Next, OwnDecisions, Zeros, Current;
    var p := Actor(step);
    Basics(c, s, step, s');
    ActorEpoch(c, s, step, s');
    InvEpoch(c, s, p);
    var nd, nd' := s.nodes[p], s'.nodes[p];
    if step.Handle? {
      NewZero(c, s, p);
      HandleCounters(c, nd, p);
    } else {
      assert Done(nd') == Done(nd);
    }
  }

  lemma HandleFirstShare(c: Cfg, nd: Node, p: int)
    requires 0 <= nd.next < |nd.log| && nd.epoch.lotteryTimes >= 0 && FirstShare(c, nd)
    ensures FirstShare(c, HandleNext(c, nd, p))
  {
    var nd' := HandleNext(c, nd, p);
    SubsetCount(nd.epoch.cbcOuts.Keys, nd'.epoch.cbcOuts.Keys);
    assert |nd'.epoch.cbcOuts| == |nd'.epoch.cbcOuts.Keys|;
  }

  lemma ActorFirstShare(c: Cfg, s: Sys, step: Step, s': Sys)
    requires Inv(c, s) && Next(c, s, step, s')
    ensures Actor(step) in s'.nodes && FirstShare(c, s'.nodes[Actor(step)])
  {
    hide Producer, Inv, Next, OwnDecisions, Zeros, Current;
    var p := Actor(step);
    Basics(c, s, step, s');
    ActorEpoch(c, s, step, s');
    InvEpoch(c, s, p);
    var nd, nd' := s.nodes[p], s'.nodes[p];
    if step.Handle? {
      HandleFirstShare(c, nd, p);
    } else {
      StepKeys(c, s, step, s');
      SubsetCount(nd.epoch.cbcOuts.Keys, nd'.epoch.cbcOuts.Keys);
    }
  }

  lemma StepKeys(c: Cfg, s: Sys, step: Step, s': Sys)
    requires Next(c, s, step, s')
    ensures Actor(step) in s.nodes && Actor(step) in s'.nodes
    ensures s.nodes[Actor(step)].epoch.cbcOuts.Keys <= s'.nodes[Actor(step)].epoch.cbcOuts.Keys
  {
    StepGrows(c, s, step);
  }

  lemma ActorInputs(c: Cfg, s: Sys, step: Step, s': Sys)
    requires ValidCfg(c) && Inv(c, s) && Next(c, s, step, s') && Complete(c, s')
    ensures Actor(step) in Correct(c) && Inputs(c, s', Actor(step), s'.nodes[Actor(step)])
  {
    var p := Actor(step);
    var nd, nd' := s.nodes[p], s'.nodes[p];
    assert NodeInv(c, s, p);
    StepGrows(c, s, step);
    forall j | 0 <= j < c.n && s'.abas[j][p].phase != N.WaitInput
      ensures ElectedBefore(c, nd'.log, nd'.next, j)
      ensures A.EnteredWith(s'.abas[j][p], 0, 1) ==> Producer(c, j) in nd'.epoch.cbcOuts
    {
      ActorInstance(c, s, step, s', j);
      if s.abas[j][p].phase != N.WaitInput {
        ElectedStays(c, nd.log, nd'.log, nd.next, nd'.next, j);
        EnteredBefore(c, s, s', j, p);
      } else {
        NewInput(c, s, step, s', j);
      }
    }
  }

  lemma EnteredBefore(c: Cfg, s: Sys, s': Sys, j: int, p: int)
    requires Inv(c, s) && Complete(c, s') && 0 <= j < c.n && p in Correct(c)
    requires A.NodeGrows(s.abas[j][p], s'.abas[j][p]) && s.abas[j][p].phase != N.WaitInput
    ensures A.EnteredWith(s'.abas[j][p], 0, 1) ==> A.EnteredWith(s.abas[j][p], 0, 1)
  {
    T.HasInput(Instance(c, j), s.abas[j], p);
  }

  // An instance's input says whether the elected producer's proposal is there.
  lemma GivenInput(c: Cfg, s: Sys, step: Step, s': Sys, j: int)
    requires ValidCfg(c) && Inv(c, s) && Next(c, s, step, s') && Complete(c, s') && 0 <= j < c.n
    requires s.abas[j][Actor(step)].phase == N.WaitInput && s'.abas[j][Actor(step)].phase != N.WaitInput
    ensures s'.abas[j][Actor(step)].hist.ests == [if Producer(c, j) in s.nodes[Actor(step)].epoch.cbcOuts then 1 else 0]
  {
    var p := Actor(step);
    var nd := s.nodes[p];
    ActorInstance(c, s, step, s', j);
    InvEvents(c, s, p);
    assert nd.log[nd.next] == LotteryOut(j, Producer(c, j));
    T.NoInputYet(Instance(c, j), s.abas[j], p);
    assert s'.abas[j][p] == N.Input(s.abas[j][p], A.PeerOf(Instance(c, j), p), AbaInput(nd.epoch, Producer(c, j)));
  }

  lemma NewInput(c: Cfg, s: Sys, step: Step, s': Sys, j: int)
    requires ValidCfg(c) && Inv(c, s) && Next(c, s, step, s') && Complete(c, s') && 0 <= j < c.n
    requires s.abas[j][Actor(step)].phase == N.WaitInput && s'.abas[j][Actor(step)].phase != N.WaitInput
    ensures var p := Actor(step);
      var nd' := s'.nodes[p];
      && ElectedBefore(c, nd'.log, nd'.next, j)
      && (A.EnteredWith(s'.abas[j][p], 0, 1) ==> Producer(c, j) in nd'.epoch.cbcOuts)
  {
    var p := Actor(step);
    var nd, nd' := s.nodes[p], s'.nodes[p];
    ActorInstance(c, s, step, s', j);
    assert NodeInv(c, s, p);
    var ev := nd.log[nd.next];
    assert ev == LotteryOut(j, Producer(c, j));
    assert Elected(c, nd'.log, nd.next, j);
    T.NoInputYet(Instance(c, j), s.abas[j], p);
    assert s'.abas[j][p] == N.Input(s.abas[j][p], A.PeerOf(Instance(c, j), p), AbaInput(nd.epoch, Producer(c, j)));
    assert nd'.epoch.cbcOuts == nd.epoch.cbcOuts;
  }

  lemma DecidedStays(log: seq<Event>, next: int, log': seq<Event>, next': int, producer: int, k: int)
    requires DecidedAt(log, next, producer, k) && log <= log' && next <= next' <= |log'|
    ensures DecidedAt(log', next', producer, k)
  {
    assert log'[..k] == log[..k];
  }

  lemma DecisionsStay(p: int, nd: Node, nd': Node)
    requires OwnDecisions(p, nd) && nd'.epoch.decisions == nd.epoch.decisions
    requires nd.log <= nd'.log && nd.next <= nd'.next <= |nd'.log|
    ensures OwnDecisions(p, nd')
  {
    hide Producer, DecidedAt;
    forall d | d in nd'.epoch.decisions && d != UNDELIVERED
      ensures d.delivered && d.sender == p && exists k :: DecidedAt(nd'.log, nd'.next, d.producer, k)
    {
      var k :| DecidedAt(nd.log, nd.next, d.producer, k);
      DecidedStays(nd.log, nd.next, nd'.log, nd'.next, d.producer, k);
    }
  }

  lemma HandleDecisions(c: Cfg, nd: Node, p: int)
    requires 0 <= nd.next < |nd.log| && OwnDecisions(p, nd)
    requires nd.epoch.currProducer == Current(Done(nd))
    ensures OwnDecisions(p, HandleNext(c, nd, p))
  {
    var nd' := HandleNext(c, nd, p);
    var d := DecisionOf(nd.epoch, p);
    DecisionsStay(p, nd, nd'.(epoch := nd.epoch));
    if nd'.epoch.decisions != nd.epoch.decisions {
      assert nd'.epoch.decisions == nd.epoch.decisions + {d};
      assert DecidedAt(nd'.log, nd'.next, nd.epoch.currProducer, nd.next);
    }
  }

  lemma ActorDecisions(c: Cfg, s: Sys, step: Step, s': Sys)
    requires Inv(c, s) && Next(c, s, step, s') && Complete(c, s')
    ensures OwnDecisions(Actor(step), s'.nodes[Actor(step)])
  {
    hide Producer, Inv, Next, OwnDecisions, Zeros, Current;
    var p := Actor(step);
    Basics(c, s, step, s');
    ActorEpoch(c, s, step, s');
    InvEpoch(c, s, p);
    var nd, nd' := s.nodes[p], s'.nodes[p];
    if step.Handle? {
      HandleDecisions(c, nd, p);
    } else {
      DecisionsStay(p, nd, nd');
    }
  }

  lemma NextInv(c: Cfg, s: Sys, step: Step, s': Sys)
    requires ValidCfg(c) && Inv(c, s) && Next(c, s, step, s')
    ensures Inv(c, s')
  {
    StepComplete(c, s, step, s');
    var p := Actor(step);
    ActorReceived(c, s, step, s');
    ActorFired(c, s, step, s');
    ActorLotteryEvents(c, s, step, s');
    ActorDecisionEvents(c, s, step, s');
    ActorAbaEvents(c, s, step, s');
    ActorCounters(c, s, step, s');
    ActorFirstShare(c, s, step, s');
    ActorInputs(c, s, step, s');
    ActorDecisions(c, s, step, s');
    forall j | 0 <= j < c.n ensures A.Inv(Instance(c, j), s'.abas[j]) {
      StepAbas(c, s, step, s', j);
    }
    forall q | q in Correct(c) && q != p ensures NodeInv(c, s', q) {
      OtherNode(c, s, step, s', q);
    }
  }

  // The invariant holds in every state of every run.
  lemma {:induction false} RunInv(c: Cfg, run: seq<Sys>, i: nat)
    requires ValidCfg(c) && IsRun(c, run) && i < |run|
    ensures Inv(c, run[i])
  {
    hide Producer, Inv, Init, Next, ValidCfg;
    if i == 0 {
      InitInv(c, run[0]);
    } else {
      assert Steps(c, run[i - 1], run[i]);
      RunInv(c, run, i - 1);
      var step :| Next(c, run[i - 1], step, run[i]);
      NextInv(c, run[i - 1], step, run[i]);
    }
  }
}
