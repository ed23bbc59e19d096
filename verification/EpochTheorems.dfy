// What an epoch decides: one winning lottery, a backed producer, one committed
// producer.

module EpochTheorems {
  import opened Quorum
  import opened EpochNode
  import opened EpochSystem
  import opened EpochInv
  import opened EpochSteps
  import A = AbaSystem
  import T = AbaTheorems

  // Correct peers take common coins in every instance.
  ghost predicate CommonCoins(c: Cfg, s: Sys) {
    forall j :: 0 <= j < |s.abas| ==> A.CommonCoin(Instance(c, j), s.abas[j])
  }

  // Instance m output 1 at correct peer p.
  predicate Won(c: Cfg, s: Sys, m: int, p: int) {
    0 <= m < |s.abas| && p in s.abas[m] && 1 in s.abas[m][p].hist.outs
  }

  // Lottery j fired at p: it put an output on p's channel.
  ghost predicate Fired(s: Sys, p: int, j: int) {
    && p in s.nodes
    && var log := s.nodes[p].log;
       exists i :: 0 <= i < |log| && log[i].LotteryOut? && log[i].times == j
  }

  // If lottery m fires at a correct peer, every earlier instance has output 0 at
  // some correct peer.
  lemma FiredRejectsEarlier(c: Cfg, s: Sys, p: int, m: int, j: int)
    requires ValidCfg(c) && Inv(c, s) && p in Correct(c) && Fired(s, p, m) && 0 <= j < m
    ensures Rejected(c, s, j)
  {
    hide Producer, Inv, AbaEvents, DecisionEvents, Received, Rejected;
    InvEvents(c, s, p);
    InvReceived(c, s, p);
    var i :| 0 <= i < |s.nodes[p].log| && s.nodes[p].log[i].LotteryOut? && s.nodes[p].log[i].times == m;
  }

  // An instance that output anything at q had its lottery fire at q.
  lemma OutputFired(c: Cfg, s: Sys, q: int, j: int)
    requires Inv(c, s) && q in Correct(c) && 0 <= j < c.n && s.abas[j][q].hist.outs != []
    ensures Fired(s, q, j)
  {
    hide Producer, NodeInv, A.Inv;
    T.OutputOnce(Instance(c, j), s.abas[j], q);
    InvInputs(c, s, q);
    var k :| k < s.nodes[q].next && Elected(c, s.nodes[q].log, k, j);
    assert s.nodes[q].log[k].LotteryOut?;
  }

  lemma RejectedNotWon(c: Cfg, s: Sys, m: int, p: int)
    requires ValidCfg(c) && Inv(c, s) && CommonCoins(c, s) && p in Correct(c) && Rejected(c, s, m)
    ensures !Won(c, s, m, p)
  {
    if Won(c, s, m, p) {
      var q :| q in Correct(c) && s.abas[m][q].hist.outs == [0];
      T.OutputsAgree(Instance(c, m), s.abas[m], p, 1, q, 0);
    }
  }

  // No lottery after a winning one ever fires at a correct peer.
  lemma NoneFiresAfterWinner(c: Cfg, s: Sys, m: int, p: int, q: int, j: int)
    requires ValidCfg(c) && Inv(c, s) && CommonCoins(c, s) && p in Correct(c) && q in Correct(c)
    requires Won(c, s, m, p) && Fired(s, q, j)
    ensures j <= m
  {
    if j > m {
      FiredRejectsEarlier(c, s, q, j, m);
      RejectedNotWon(c, s, m, p);
    }
  }

  // At most one lottery index has agreement output 1 at any correct peers.
  lemma OneWinner(c: Cfg, s: Sys, m: int, p: int, j: int, q: int)
    requires ValidCfg(c) && Inv(c, s) && CommonCoins(c, s) && p in Correct(c) && q in Correct(c)
    requires Won(c, s, m, p) && Won(c, s, j, q)
    ensures m == j
  {
    OutputFired(c, s, p, m);
    OutputFired(c, s, q, j);
    NoneFiresAfterWinner(c, s, m, p, q, j);
    NoneFiresAfterWinner(c, s, j, q, p, m);
  }

  // An accepted producer is backed: some correct peer held its delivered proposal
  // when it gave its input, and holds it now.
  lemma WinnerBacked(c: Cfg, s: Sys, m: int, p: int) returns (q: int)
    requires ValidCfg(c) && Inv(c, s) && p in Correct(c) && Won(c, s, m, p)
    ensures q in Correct(c) && A.EnteredWith(s.abas[m][q], 0, 1)
    ensures Producer(c, m) in s.nodes[q].epoch.cbcOuts
  {
    var ic := Instance(c, m);
    if forall x :: x in Correct(c) ==> !A.EnteredWith(s.abas[m][x], 0, 1) {
      forall x | x in A.Correct(ic) && x in s.abas[m] && 0 < |s.abas[m][x].hist.ests|
        ensures s.abas[m][x].hist.ests[0] == 0
      {
        T.Bits(ic, s.abas[m], x, 0);
      }
      T.Validity(ic, s.abas[m], 0, p, 1);
      assert false;
    }
    q :| q in Correct(c) && A.EnteredWith(s.abas[m][q], 0, 1);
    InvInputs(c, s, q);
    T.EnteredStarted(ic, s.abas[m], q);
  }

  // A lottery that fired has f+1 senders, one of which is correct.
  lemma FiredShare(c: Cfg, s: Sys, p: int, m: int) returns (x: int)
    requires ValidCfg(c) && Inv(c, s) && p in Correct(c) && Fired(s, p, m)
    ensures x in Correct(c) && x in s.nodes && m in s.nodes[x].epoch.shares
    ensures 0 <= m < c.n
  {
    hide Producer, Inv, AbaEvents, DecisionEvents, FiredAfterRejections;
    InvBasics(c, s, p);
    InvEvents(c, s, p);
    InvReceived(c, s, p);
    var l := s.nodes[p].lotteries;
    var i :| 0 <= i < |s.nodes[p].log| && s.nodes[p].log[i].LotteryOut? && s.nodes[p].log[i].times == m;
    x := SomeCorrect(c.n, c.f, c.faulty, ShareSenders(l, m));
  }

  // No lottery fires before 2f+1 candidates' proposals are delivered at some
  // correct peer.
  lemma FiredNeedsProposals(c: Cfg, s: Sys, p: int, m: int) returns (x: int)
    requires ValidCfg(c) && Inv(c, s) && p in Correct(c) && Fired(s, p, m)
    ensures x in Correct(c) && x in s.nodes && |s.nodes[x].epoch.cbcOuts.Keys| >= 2 * c.f + 1
  {
    hide Inv, Fired, FirstShare, Counters, OwnDecisions;
    x := FiredShare(c, s, p, m);
    var q := p;
    if m > 0 {
      FiredRejectsEarlier(c, s, p, m, 0);
      InvBasics(c, s, p);
      q :| q in Correct(c) && s.abas[0][q].hist.outs == [0];
      OutputFired(c, s, q, 0);
    }
    x := FiredShare(c, s, q, 0);
    FirstBacked(c, s, x);
  }

  lemma FirstBacked(c: Cfg, s: Sys, x: int)
    requires Inv(c, s) && x in Correct(c) && x in s.nodes && 0 in s.nodes[x].epoch.shares
    ensures |s.nodes[x].epoch.cbcOuts.Keys| >= 2 * c.f + 1
  {
    InvEpoch(c, s, x);
  }

  // ----- the committed producer -----

  // Where an accepting agreement output was handled, the last lottery output before
  // it names the accepted producer.
  ghost predicate Undisturbed(c: Cfg, nd: Node)
    requires c.n > 0
  {
    forall k {:trigger nd.log[k]} :: 0 <= k < nd.next <= |nd.log| && nd.log[k].AbaOut? && nd.log[k].decide == 1 ==>
      Current(nd.log[..k]) == Producer(c, nd.log[k].instance)
  }

  // The node's lottery outputs are handled in index order.
  ghost predicate InOrder(nd: Node) {
    forall i, k | 0 <= i < k < |nd.log| && nd.log[i].LotteryOut? && nd.log[k].LotteryOut?
      :: nd.log[i].times <= nd.log[k].times
  }

  // The last lottery output among the events, if any, names the current producer.
  lemma {:induction false} CurrentLast(log: seq<Event>, i: nat) returns (l: nat)
    requires i < |log| && log[i].LotteryOut?
    ensures i <= l < |log| && log[l].LotteryOut? && Current(log) == log[l].producer
    ensures forall x :: l < x < |log| ==> !log[x].LotteryOut?
  {
    var last := |log| - 1;
    if log[last].LotteryOut? {
      l := last;
    } else {
      assert log[..last][i] == log[i];
      l := CurrentLast(log[..last], i);
      assert forall x :: l < x < last ==> !log[..last][x].LotteryOut?;
    }
  }

  // An accepting agreement output at place k follows its lottery's output, at
  // place i; the last lottery output before it, at place l, is the current one.
  lemma AcceptedAt(c: Cfg, s: Sys, q: int, k: nat) returns (i: nat, l: nat)
    requires ValidCfg(c) && Inv(c, s) && q in Correct(c)
    requires k < |s.nodes[q].log| && s.nodes[q].log[k].AbaOut? && s.nodes[q].log[k].decide == 1
    ensures var log := s.nodes[q].log;
      && Won(c, s, log[k].instance, q) && i < k && Elected(c, log, i, log[k].instance)
      && i <= l < k && log[l].LotteryOut? && log[l].producer == Current(log[..k])
      && (forall x :: l < x < k ==> !log[x].LotteryOut?)
  {
    hide Producer, Inv, Counters, DecisionEvents, LotteryEvents, Current;
    InvBasics(c, s, q);
    InvEvents(c, s, q);
    var log := s.nodes[q].log;
    assert ElectedBefore(c, log, k, log[k].instance);
    i :| i < k && Elected(c, log, i, log[k].instance);
    assert log[..k][i] == log[i];
    l := CurrentLast(log[..k], i);
    assert log[..k][l] == log[l];
    forall x | l < x < k ensures !log[x].LotteryOut? {
      assert log[..k][x] == log[x];
    }
  }

  // Index order is enough for that.
  lemma InOrderUndisturbed(c: Cfg, s: Sys, q: int)
    requires ValidCfg(c) && Inv(c, s) && CommonCoins(c, s) && q in Correct(c) && InOrder(s.nodes[q])
    ensures Undisturbed(c, s.nodes[q])
  {
    hide Producer, Inv, DecisionEvents, AbaEvents, Won, CommonCoins, Current;
    InvBasics(c, s, q);
    InvEvents(c, s, q);
    var log := s.nodes[q].log;
    forall k {:trigger log[k]} | 0 <= k < s.nodes[q].next && log[k].AbaOut? && log[k].decide == 1
      ensures Current(log[..k]) == Producer(c, log[k].instance)
    {
      var i, l := AcceptedAt(c, s, q, k);
      assert Fired(s, q, log[l].times);
      NoneFiresAfterWinner(c, s, log[k].instance, q, q, log[l].times);
    }
  }

  // A correct peer's delivered decision was broadcast on some winning output, and
  // names the producer of the last lottery output handled before it.
  lemma DecisionCause(c: Cfg, s: Sys, q: int, d: Decision) returns (k: nat)
    requires ValidCfg(c) && Inv(c, s) && q in Correct(c)
    requires d in s.nodes[q].epoch.decisions && d != UNDELIVERED
    ensures d.delivered && d.sender == q && k < s.nodes[q].next <= |s.nodes[q].log|
    ensures var log := s.nodes[q].log;
      && log[k].AbaOut? && log[k].decide == 1 && Won(c, s, log[k].instance, q)
      && d.producer == Current(log[..k])
  {
    hide Producer, Inv, Counters, DecisionEvents, LotteryEvents, Current;
    InvBasics(c, s, q);
    InvEpoch(c, s, q);
    k :| DecidedAt(s.nodes[q].log, s.nodes[q].next, d.producer, k);
    var i, l := AcceptedAt(c, s, q, k);
  }

  // Undisturbed, that is the producer of the winning lottery.
  lemma DecisionNamesWinner(c: Cfg, s: Sys, q: int, d: Decision) returns (m: int)
    requires ValidCfg(c) && Inv(c, s) && q in Correct(c) && Undisturbed(c, s.nodes[q])
    requires d in s.nodes[q].epoch.decisions && d != UNDELIVERED
    ensures d.delivered && d.sender == q && Won(c, s, m, q) && d.producer == Producer(c, m)
  {
    hide Producer, Inv, Won, Current;
    InvBasics(c, s, q);
    var k := DecisionCause(c, s, q, d);
    m := s.nodes[q].log[k].instance;
  }

  // What a peer broadcasts when it handles output 1 of instance m, with l the last
  // lottery output it handled. The decision carries a proposal exactly when that
  // lottery's producer is delivered; it names the winner's producer exactly when
  // that lottery elects it too, or, if nothing is delivered, that producer is 0.
  lemma BroadcastNamesWinnerIff(c: Cfg, s: Sys, p: int) returns (d: Decision, l: nat)
    requires c.n > 0 && p in s.nodes && 0 <= s.nodes[p].next < |s.nodes[p].log|
    requires s.nodes[p].log[s.nodes[p].next].AbaOut? && s.nodes[p].log[s.nodes[p].next].decide == 1
    requires ValidCfg(c) && Inv(c, s) && p in Correct(c)
    ensures HandleNext(c, s.nodes[p], p).epoch.decisions == s.nodes[p].epoch.decisions + {d}
    ensures l < s.nodes[p].next && s.nodes[p].log[l].LotteryOut?
    ensures forall x :: l < x < s.nodes[p].next ==> !s.nodes[p].log[x].LotteryOut?
    ensures var nd := s.nodes[p];
      var m, elected := nd.log[nd.next].instance, nd.log[l].producer;
      && Won(c, s, m, p)
      && (d.delivered <==> elected in nd.epoch.cbcOuts)
      && (d == UNDELIVERED <==> elected !in nd.epoch.cbcOuts)
      && (d.producer == Producer(c, m) <==>
            if elected in nd.epoch.cbcOuts then elected == Producer(c, m) else Producer(c, m) == 0)
  {
    hide Producer, Inv, Won, Current, OwnDecisions, FirstShare, Zeros;
    InvEpoch(c, s, p);
    var i;
    i, l := AcceptedAt(c, s, p, s.nodes[p].next);
    d := DecisionOf(s.nodes[p].epoch, p);
  }

  lemma {:induction false} DeciderKept(r: Record, producer: int, x: int) returns (d: Decision)
    requires x in Deciders(r, producer)
    ensures d in Kept(r) && d.producer == producer && d.sender == x
  {
    if r.d.producer == producer && r.d.sender == x {
      d := r.d;
    } else {
      d := DeciderKept(r.rest, producer, x);
    }
  }

  // The 2f+1 recorded decisions behind a decision output include a delivered one
  // of a correct peer, although undelivered ones sit under sender 0, producer 0.
  lemma OutputHasCorrectDecision(c: Cfg, s: Sys, p: int, d: Decision) returns (q: int, e: Decision)
    requires ValidCfg(c) && Inv(c, s) && p in Correct(c) && DecisionOut(d) in s.nodes[p].log
    ensures q in Correct(c) && e in s.nodes[q].epoch.decisions && e != UNDELIVERED && e.producer == d.producer
  {
    hide Producer, NodeInv, A.Inv, LotteryEvents, AbaEvents, FiredAfterRejections;
    InvEvents(c, s, p);
    InvReceived(c, s, p);
    var r := s.nodes[p].record;
    assert DecisionSent(c, s, d);
    if d.sender !in c.faulty {
      q :| q in Correct(c) && q in s.nodes && d in s.nodes[q].epoch.decisions;
      e := d;
    } else {
      var senders := Deciders(r, d.producer);
      var x := OtherSender(c, senders, d.sender);
      e := DeciderKept(r, d.producer, x);
      assert DecisionSent(c, s, e);
      q :| q in Correct(c) && q in s.nodes && e in s.nodes[q].epoch.decisions;
    }
  }

  // 2f+1 senders, a faulty one among the peers: some sender is not faulty and not 0.
  lemma OtherSender(c: Cfg, senders: set<int>, bad: int) returns (x: int)
    requires ValidCfg(c) && |senders| >= 2 * c.f + 1 && bad in c.faulty
    ensures x in senders && x !in c.faulty && x != 0
  {
    assert c.f >= 1 by { SubsetCount({bad}, c.faulty); }
    if forall y :: y in senders ==> y in c.faulty || y == 0 {
      SubsetCount(senders, c.faulty + {0});
      assert false;
    }
    x :| x in senders && x !in c.faulty && x != 0;
  }

  // Every decision output at every correct peer names the winning lottery's producer.
  lemma CommitNamesWinner(c: Cfg, s: Sys, p: int, d: Decision) returns (m: int, q: int)
    requires ValidCfg(c) && Inv(c, s) && p in Correct(c) && DecisionOut(d) in s.nodes[p].log
    requires forall x :: x in Correct(c) ==> Undisturbed(c, s.nodes[x])
    ensures q in Correct(c) && Won(c, s, m, q) && d.producer == Producer(c, m)
  {
    hide Producer, Inv, Won, Undisturbed;
    var e: Decision;
    q, e := OutputHasCorrectDecision(c, s, p, d);
    m := DecisionNamesWinner(c, s, q, e);
  }

  // Hence all of them name one producer.
  lemma OneCommittedProducer(c: Cfg, s: Sys, p: int, d: Decision, q: int, e: Decision)
    requires ValidCfg(c) && Inv(c, s) && CommonCoins(c, s) && p in Correct(c) && q in Correct(c)
    requires DecisionOut(d) in s.nodes[p].log && DecisionOut(e) in s.nodes[q].log
    requires forall x :: x in Correct(c) ==> Undisturbed(c, s.nodes[x])
    ensures d.producer == e.producer
  {
    hide Producer, Inv, Won, Undisturbed;
    var m, x := CommitNamesWinner(c, s, p, d);
    var j, y := CommitNamesWinner(c, s, q, e);
    OneWinner(c, s, m, x, j, y);
  }

  // ----- one committed producer by quorum -----

  // In whatever order lottery outputs come, a correct peer names one producer.
  lemma OneDecision(c: Cfg, s: Sys, q: int, d: Decision, e: Decision)
    requires ValidCfg(c) && Inv(c, s) && CommonCoins(c, s) && q in Correct(c)
    requires d in s.nodes[q].epoch.decisions && e in s.nodes[q].epoch.decisions && d != UNDELIVERED && e != UNDELIVERED
    ensures d.producer == e.producer
  {
    hide Producer, Inv, Won, Current, LotteryEvents, DecisionEvents;
    InvBasics(c, s, q);
    InvEvents(c, s, q);
    var k := DecisionCause(c, s, q, d);
    var k' := DecisionCause(c, s, q, e);
    OneWinner(c, s, s.nodes[q].log[k].instance, q, s.nodes[q].log[k'].instance, q);
    assert k == k';
  }

  // The correct senders among the deciders of a producer other than 0 broadcast it.
  lemma NamersBroadcast(c: Cfg, s: Sys, p: int, producer: int, x: int) returns (e: Decision)
    requires ValidCfg(c) && Inv(c, s) && p in Correct(c) && producer != 0
    requires x in Deciders(s.nodes[p].record, producer) && x !in c.faulty
    ensures x in Correct(c) && e in s.nodes[x].epoch.decisions && e != UNDELIVERED && e.producer == producer
  {
    hide Producer, A.Inv, NodeInv, FiredAfterRejections;
    InvReceived(c, s, p);
    e := DeciderKept(s.nodes[p].record, producer, x);
    assert DecisionSent(c, s, e);
    var q :| q in Correct(c) && q in s.nodes && e in s.nodes[q].epoch.decisions;
    InvEpoch(c, s, q);
  }

  // A decision output for a producer other than 0 rests on at least 2f+1 - |faulty|
  // correct peers that broadcast it.
  lemma NamerCount(c: Cfg, s: Sys, p: int, d: Decision)
    requires ValidCfg(c) && Inv(c, s) && p in Correct(c) && DecisionOut(d) in s.nodes[p].log && d.producer != 0
    ensures var namers := Deciders(s.nodes[p].record, d.producer) - c.faulty;
      namers <= Correct(c) && |namers| >= 2 * c.f + 1 - |c.faulty|
  {
    hide Producer, Inv, LotteryEvents, AbaEvents, Deciders;
    InvBasics(c, s, p);
    InvEvents(c, s, p);
    var deciders := Deciders(s.nodes[p].record, d.producer);
    forall x | x in deciders - c.faulty ensures x in Correct(c) {
      var e := NamersBroadcast(c, s, p, d.producer, x);
    }
    assert deciders == (deciders - c.faulty) + (deciders * c.faulty);
    SubsetCount(deciders * c.faulty, c.faulty);
  }

  // With n + |faulty| <= 4f+1, as for n = 3f+1, two such sets share a peer, so all
  // decision outputs that do not name producer 0 name one producer, in whatever
  // order lottery outputs are handled.
  lemma OneProducerByQuorum(c: Cfg, s: Sys, p: int, d: Decision, q: int, e: Decision)
    requires ValidCfg(c) && Inv(c, s) && CommonCoins(c, s) && p in Correct(c) && q in Correct(c)
    requires c.n + |c.faulty| <= 4 * c.f + 1
    requires DecisionOut(d) in s.nodes[p].log && DecisionOut(e) in s.nodes[q].log
    requires d.producer != 0 && e.producer != 0
    ensures d.producer == e.producer
  {
    hide Producer, Inv, CommonCoins, Deciders;
    InvBasics(c, s, p);
    InvBasics(c, s, q);
    NamerCount(c, s, p, d);
    NamerCount(c, s, q, e);
    var a := Deciders(s.nodes[p].record, d.producer) - c.faulty;
    var b := Deciders(s.nodes[q].record, e.producer) - c.faulty;
    var x := Meet(a, b, Correct(c), c.n - |c.faulty|);
    var d' := NamersBroadcast(c, s, p, d.producer, x);
    var e' := NamersBroadcast(c, s, q, e.producer, x);
    OneDecision(c, s, x, d', e');
  }
}
