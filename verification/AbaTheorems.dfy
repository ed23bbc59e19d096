// Safety of binary agreement, in every state satisfying the system invariant
// and hence (RunInv) in every state of every run.

module AbaTheorems {
  import opened Options
  import opened Quorum
  import opened AbaNode
  import opened AbaLocal
  import opened AbaSystem

  // ----- votes of one round -----

  lemma Voters(c: Cfg, s: Sys, p: int)
    requires Inv(c, s) && p in Correct(c)
    ensures forall r, v :: Senders(s[p].board.estValues, r, v) <= Peers(c.n)
    ensures forall r, v :: Senders(s[p].board.auxValues, r, v) <= Peers(c.n)
    ensures forall r, v :: Senders(s[p].board.confValues, r, v) <= Peers(c.n)
  {
    var b := s[p].board;
    assert Received(c, s, b);
    forall r, v ensures Senders(b.estValues, r, v) <= Peers(c.n) {
      forall x | x in Senders(b.estValues, r, v) ensures x in Peers(c.n) { assert Available(c, s, Est(r, x, v)); }
    }
    forall r, v ensures Senders(b.auxValues, r, v) <= Peers(c.n) {
      forall x | x in Senders(b.auxValues, r, v) ensures x in Peers(c.n) { assert Available(c, s, Aux(r, x, v)); }
    }
    forall r, v ensures Senders(b.confValues, r, v) <= Peers(c.n) {
      forall x | x in Senders(b.confValues, r, v) ensures x in Peers(c.n) { assert Available(c, s, Conf(r, x, v)); }
    }
  }

  // A recorded vote of a correct sender is the one it sent for that round.
  lemma ConfSentOnce(c: Cfg, s: Sys, p: int, r: int, v: int, x: int)
    requires Inv(c, s) && p in Correct(c) && x in Correct(c)
    requires x in Senders(s[p].board.confValues, r, v)
    ensures 0 <= r < |s[x].hist.confs| && s[x].hist.confs[r] == v
  {
    assert Received(c, s, s[p].board);
    assert Available(c, s, Conf(r, x, v));
    assert OwnMsg(Conf(r, x, v), s[x].hist, PeerOf(c, x));
  }

  lemma AuxSentOnce(c: Cfg, s: Sys, p: int, r: int, v: int, x: int)
    requires Inv(c, s) && p in Correct(c) && x in Correct(c)
    requires x in Senders(s[p].board.auxValues, r, v)
    ensures 0 <= r < |s[x].hist.auxs| && s[x].hist.auxs[r] == v
  {
    assert Received(c, s, s[p].board);
    assert Available(c, s, Aux(r, x, v));
    assert OwnMsg(Aux(r, x, v), s[x].hist, PeerOf(c, x));
  }

  // No two correct peers send CONF 0 and CONF 1 in one round.
  lemma NoConflictingConf(c: Cfg, s: Sys, r: nat, p: int, q: int)
    requires ValidCfg(c) && Inv(c, s) && p in Correct(c) && q in Correct(c)
    requires r < |s[p].hist.confs| && s[p].hist.confs[r] != BOTH
    requires r < |s[q].hist.confs| && s[q].hist.confs[r] != BOTH
    ensures s[p].hist.confs[r] == s[q].hist.confs[r]
  {
    var v, w := s[p].hist.confs[r], s[q].hist.confs[r];
    Voters(c, s, p);
    Voters(c, s, q);
    assert LocalInv(s[p], PeerOf(c, p)) && LocalInv(s[q], PeerOf(c, q));
    var a, b := Senders(s[p].board.auxValues, r, v), Senders(s[q].board.auxValues, r, w);
    var x := CommonCorrect(c.n, c.f, c.faulty, a, b);
    AuxSentOnce(c, s, p, r, v, x);
    AuxSentOnce(c, s, q, r, w, x);
  }

  // No two correct peers get 0 and 1 from confThreshold in one round.
  lemma NoConflictingValues(c: Cfg, s: Sys, r: nat, p: int, q: int)
    requires ValidCfg(c) && Inv(c, s) && p in Correct(c) && q in Correct(c)
    requires r < |s[p].hist.vals| && s[p].hist.vals[r] != BOTH
    requires r < |s[q].hist.vals| && s[q].hist.vals[r] != BOTH
    ensures s[p].hist.vals[r] == s[q].hist.vals[r]
  {
    var v, w := s[p].hist.vals[r], s[q].hist.vals[r];
    Voters(c, s, p);
    Voters(c, s, q);
    assert LocalInv(s[p], PeerOf(c, p)) && LocalInv(s[q], PeerOf(c, q));
    var a, b := Senders(s[p].board.confValues, r, v), Senders(s[q].board.confValues, r, w);
    var x := CommonCorrect(c.n, c.f, c.faulty, a, b);
    ConfSentOnce(c, s, p, r, v, x);
    ConfSentOnce(c, s, q, r, w, x);
  }

  // ----- justification -----

  // Coins and estimates are bits.
  lemma Bits(c: Cfg, s: Sys, q: int, i: nat)
    requires Inv(c, s) && q in Correct(c)
    ensures i < |s[q].coin.taken| ==> s[q].coin.taken[i] in {0, 1}
    ensures i < |s[q].hist.vals| ==> s[q].hist.vals[i] in {0, 1, BOTH}
    ensures i < |s[q].hist.ests| ==> s[q].hist.ests[i] in {0, 1}
  {
    hide Received, EstsJustified, BinInv, Relayed;
    var nd := s[q];
    assert LocalInv(nd, PeerOf(c, q));
    if 0 < i < |nd.hist.ests| {
      assert Justified(nd.board, nd.board.confValues, i - 1, nd.hist.vals[i - 1], c.n - c.f);
      assert nd.hist.ests[i] == NextEst(nd.hist.vals[i - 1], nd.coin.taken[i - 1]);
    }
  }

  // Every binary value is a bit, listed once, and was the estimate of a correct
  // peer in that round.
  lemma BinJustified(c: Cfg, s: Sys, p: int, r: int, v: int)
    requires ValidCfg(c) && Inv(c, s) && p in Correct(c)
    requires v in Values(s[p].board.binValues, r)
    ensures v in {0, 1}
    ensures Estimated(c, s, r, v)
    ensures Distinct(Values(s[p].board.binValues, r))
  {
    assert LocalInv(s[p], PeerOf(c, p));
    assert Received(c, s, s[p].board);
    VotersEstimated(c, s, s[p].board, r, v);
    var q :| q in Correct(c) && q in s && EnteredWith(s[q], r, v);
    Bits(c, s, q, r);
  }

  // ----- the lock -----

  // Every correct peer that enters round k enters it with v.
  ghost predicate Uniform(c: Cfg, s: Sys, k: int, v: int) {
    forall q :: q in Correct(c) && q in s && 0 <= k < |s[q].hist.ests| ==> s[q].hist.ests[k] == v
  }

  lemma UniformBins(c: Cfg, s: Sys, k: nat, v: int, q: int)
    requires ValidCfg(c) && Inv(c, s) && q in Correct(c) && Uniform(c, s, k, v)
    ensures forall w :: w in Values(s[q].board.binValues, k) ==> w == v
    ensures |Values(s[q].board.binValues, k)| <= 1
  {
    var vs := Values(s[q].board.binValues, k);
    forall w | w in vs ensures w == v {
      BinJustified(c, s, q, k, w);
      var x :| x in Correct(c) && x in s && EnteredWith(s[x], k, w);
    }
    if |vs| > 1 {
      BinJustified(c, s, q, k, vs[0]);
      assert vs[0] in vs && vs[1] in vs;
      DistinctEntries(vs, 0, 1);
      assert false;
    }
  }

  lemma UniformVals(c: Cfg, s: Sys, k: nat, v: int, q: int)
    requires ValidCfg(c) && Inv(c, s) && q in Correct(c) && Uniform(c, s, k, v)
    ensures k < |s[q].hist.vals| ==> s[q].hist.vals[k] == v
  {
    UniformBins(c, s, k, v, q);
    var nd := s[q];
    assert LocalInv(nd, PeerOf(c, q));
    if k < |nd.hist.vals| {
      var w := nd.hist.vals[k];
      assert Justified(nd.board, nd.board.confValues, k, w, c.n - c.f);
      assert w == BOTH || w in Values(nd.board.binValues, k);
    }
  }

  lemma UniformNext(c: Cfg, s: Sys, k: nat, v: int)
    requires ValidCfg(c) && Inv(c, s) && Uniform(c, s, k, v) && v != BOTH
    ensures Uniform(c, s, k + 1, v)
  {
    forall q | q in Correct(c) && q in s && k + 1 < |s[q].hist.ests| ensures s[q].hist.ests[k + 1] == v {
      UniformVals(c, s, k, v, q);
      assert LocalInv(s[q], PeerOf(c, q));
      var h := s[q].hist;
      assert h.ests[k + 1] == NextEst(h.vals[k], s[q].coin.taken[k]);
    }
  }

  lemma {:induction false} UniformFrom(c: Cfg, s: Sys, k: nat, v: int, k': nat)
    requires ValidCfg(c) && Inv(c, s) && Uniform(c, s, k, v) && v != BOTH && k <= k'
    ensures Uniform(c, s, k', v)
  {
    hide Inv;
    if k < k' {
      UniformFrom(c, s, k, v, k' - 1);
      UniformNext(c, s, k' - 1, v);
    }
  }

  // Correct peer p ended round r with a single value v equal to the coin.
  predicate DecidedIn(s: Sys, p: int, r: int, v: int) {
    p in s && Hit(s[p].hist.vals, s[p].coin.taken, r, v)
  }

  // Correct peers that ended round r with Both took bit v.
  ghost predicate BothTook(c: Cfg, s: Sys, r: int, v: int) {
    forall q | q in Correct(c) && q in s && 0 <= r < |s[q].coin.taken| && r + 1 < |s[q].hist.ests|
               && r < |s[q].hist.vals| && s[q].hist.vals[r] == BOTH
      :: s[q].coin.taken[r] == v
  }

  // A decision on v in round r leaves every correct peer that goes on with
  // estimate v exactly when those that ended the round with Both took the bit the
  // decision was made on.
  lemma DecisionLocksIff(c: Cfg, s: Sys, p: int, r: nat, v: int)
    requires ValidCfg(c) && Inv(c, s) && p in Correct(c) && DecidedIn(s, p, r, v)
    ensures Uniform(c, s, r + 1, v) <==> BothTook(c, s, r, v)
  {
    hide Received, EstsJustified;
    forall q | q in Correct(c) && q in s && r + 1 < |s[q].hist.ests|
      ensures s[q].hist.ests[r + 1] == v <==> (s[q].hist.vals[r] == BOTH ==> s[q].coin.taken[r] == v)
    {
      assert LocalInv(s[q], PeerOf(c, q));
      var h, taken := s[q].hist, s[q].coin.taken;
      assert h.ests[r + 1] == NextEst(h.vals[r], taken[r]);
      if h.vals[r] != BOTH {
        NoConflictingValues(c, s, r, p, q);
      }
    }
  }

  // With a common coin it does.
  lemma DecisionLocks(c: Cfg, s: Sys, p: int, r: nat, v: int)
    requires ValidCfg(c) && Inv(c, s) && CommonCoin(c, s) && p in Correct(c) && DecidedIn(s, p, r, v)
    ensures Uniform(c, s, r + 1, v)
  {
    hide Inv;
    DecisionLocksIff(c, s, p, r, v);
  }

  // After a decision on v in round r, every correct peer in a later round k has
  // estimate v, no other binary value, and no other value from confThreshold.
  lemma LockAfterDecision(c: Cfg, s: Sys, p: int, r: nat, v: int, q: int, k: nat)
    requires ValidCfg(c) && Inv(c, s) && CommonCoin(c, s) && p in Correct(c) && q in Correct(c)
    requires DecidedIn(s, p, r, v) && k > r
    ensures k < |s[q].hist.ests| ==> s[q].hist.ests[k] == v
    ensures forall w :: w in Values(s[q].board.binValues, k) ==> w == v
    ensures k < |s[q].hist.vals| ==> s[q].hist.vals[k] == v
  {
    hide LocalInv, Received, EstsJustified;
    DecisionLocks(c, s, p, r, v);
    UniformFrom(c, s, r + 1, v, k);
    UniformBins(c, s, k, v, q);
    UniformVals(c, s, k, v, q);
  }

  // ----- agreement, stopping, validity -----

  lemma DecisionsAgree(c: Cfg, s: Sys, p: int, r: nat, v: int, q: int, k: nat, w: int)
    requires ValidCfg(c) && Inv(c, s) && CommonCoin(c, s) && p in Correct(c) && q in Correct(c)
    requires DecidedIn(s, p, r, v) && DecidedIn(s, q, k, w)
    ensures v == w
  {
    if k > r {
      LockAfterDecision(c, s, p, r, v, q, k);
    } else if r > k {
      LockAfterDecision(c, s, q, k, w, p, r);
    } else {
      Bits(c, s, p, r);
      Bits(c, s, q, r);
    }
  }

  // An output is a decision of some round, and there is at most one per peer.
  lemma OutputDecided(c: Cfg, s: Sys, p: int, v: int) returns (r: nat)
    requires Inv(c, s) && p in Correct(c) && v in s[p].hist.outs
    ensures DecidedIn(s, p, r, v)
    ensures s[p].hist.outs == [v]
  {
    assert LocalInv(s[p], PeerOf(c, p));
    assert s[p].decided == Some(v);
    r :| Hit(s[p].hist.vals, s[p].coin.taken, r, v);
  }

  // A peer emits at most one output, and only after its input.
  lemma OutputOnce(c: Cfg, s: Sys, p: int)
    requires Inv(c, s) && p in Correct(c)
    ensures |s[p].hist.outs| <= 1
    ensures s[p].hist.outs != [] ==> s[p].phase != WaitInput
  {
    assert LocalInv(s[p], PeerOf(c, p));
  }

  lemma HasInput(c: Cfg, s: Sys, p: int)
    requires Inv(c, s) && p in Correct(c) && s[p].phase != WaitInput
    ensures |s[p].hist.ests| > 0
  {
    assert LocalInv(s[p], PeerOf(c, p));
  }

  lemma EnteredStarted(c: Cfg, s: Sys, p: int)
    requires Inv(c, s) && p in Correct(c) && s[p].hist.ests != []
    ensures s[p].phase != WaitInput
  {
    assert LocalInv(s[p], PeerOf(c, p));
  }

  lemma NoInputYet(c: Cfg, s: Sys, p: int)
    requires Inv(c, s) && p in Correct(c) && s[p].phase == WaitInput
    ensures s[p].hist.ests == []
  {
    assert LocalInv(s[p], PeerOf(c, p));
  }

  // In any state any two outputs of correct peers are equal.
  lemma OutputsAgree(c: Cfg, s: Sys, p: int, v: int, q: int, w: int)
    requires ValidCfg(c) && Inv(c, s) && CommonCoin(c, s) && p in Correct(c) && q in Correct(c)
    requires v in s[p].hist.outs && w in s[q].hist.outs
    ensures v == w
  {
    var r := OutputDecided(c, s, p, v);
    var k := OutputDecided(c, s, q, w);
    DecisionsAgree(c, s, p, r, v, q, k, w);
  }

  // If all inputs of correct peers are v, no correct peer outputs anything else.
  lemma Validity(c: Cfg, s: Sys, v: int, q: int, w: int)
    requires ValidCfg(c) && Inv(c, s) && q in Correct(c) && v in {0, 1}
    requires Uniform(c, s, 0, v)
    requires w in s[q].hist.outs
    ensures w == v
  {
    var k := OutputDecided(c, s, q, w);
    UniformFrom(c, s, 0, v, k);
    UniformVals(c, s, k, v, q);
  }

  // ----- convergence -----

  // Every EST a correct peer sent for round r has been handled by every correct peer.
  ghost predicate EstsHandled(c: Cfg, s: Sys, r: int) {
    forall p, q, v :: p in Correct(c) && q in Correct(c) && p in s && q in s && Est(r, q, v) in s[q].sent
                      ==> q in Senders(s[p].board.estValues, r, v)
  }

  // A binary value anywhere is a binary value everywhere, also at peers that have
  // not had their input.
  lemma BinConverges(c: Cfg, s: Sys, r: int, p: int, q: int, v: int)
    requires ValidCfg(c) && Inv(c, s) && EstsHandled(c, s, r)
    requires p in Correct(c) && q in Correct(c)
    requires v in Values(s[p].board.binValues, r)
    ensures v in Values(s[q].board.binValues, r)
  {
    assert LocalInv(s[p], PeerOf(c, p)) && LocalInv(s[q], PeerOf(c, q));
    Voters(c, s, p);
    var voters := Senders(s[p].board.estValues, r, v);
    CorrectAmong(c.n, c.f, c.faulty, voters);
    forall x | x in Correct(c) ensures Est(r, x, v) in s[x].sent {
      forall y | y in voters - c.faulty ensures y in Senders(s[x].board.estValues, r, v) {
        assert Received(c, s, s[p].board);
        assert Available(c, s, Est(r, y, v));
      }
      SubsetCount(voters - c.faulty, Senders(s[x].board.estValues, r, v));
      assert LocalInv(s[x], PeerOf(c, x));
    }
    forall x | x in Correct(c) ensures x in Senders(s[q].board.estValues, r, v) {
      assert Est(r, x, v) in s[x].sent;
    }
    SubsetCount(Correct(c), Senders(s[q].board.estValues, r, v));
    CorrectAmong(c.n, c.f, c.faulty, Peers(c.n));
  }
}
