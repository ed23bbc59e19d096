// Safety of binary agreement between any two points of any run.

module AbaRuns {
  import opened Options
  import opened Quorum
  import opened AbaNode
  import opened AbaLocal
  import opened AbaSystem
  import opened AbaTheorems

  // ----- runs and their coins -----

  ghost predicate StepsPaced(c: Cfg, s: Sys, s': Sys) {
    exists step :: Next(c, s, step, s') && Paced(c, s, step)
  }

  // A run in which no accepted share completes a round ahead of a lower one, or
  // completes one with another bit than its own.
  ghost predicate IsPaced(c: Cfg, run: seq<Sys>) {
    && run != []
    && Init(c, run[0])
    && forall i :: 0 < i < |run| ==> StepsPaced(c, run[i - 1], run[i])
  }

  ghost predicate StepsOrdered(c: Cfg, s: Sys, s': Sys, who: set<int>) {
    exists step :: Next(c, s, step, s') && Ordered(c, s, step, who)
  }

  // A run in which accepted shares carry their round's hash, and those of the
  // senders in `who` reach every peer in round order with none skipped.
  ghost predicate IsOrdered(c: Cfg, run: seq<Sys>, who: set<int>) {
    && run != []
    && Init(c, run[0])
    && forall i :: 0 < i < |run| ==> StepsOrdered(c, run[i - 1], run[i], who)
  }

  // In a paced run the i-th bit of every correct peer is round i's coin.
  lemma {:induction false} PacedInStep(c: Cfg, run: seq<Sys>, i: nat)
    requires IsPaced(c, run) && i < |run|
    ensures IsRun(c, run) && InStep(c, run[i]) && CommonCoin(c, run[i])
  {
    hide Init, InStep, Next, CommonCoin, Paced;
    forall k | 0 < k < |run| ensures Steps(c, run[k - 1], run[k]) {
      assert StepsPaced(c, run[k - 1], run[k]);
    }
    if i == 0 {
      InitInStep(c, run[0]);
    } else {
      PacedInStep(c, run, i - 1);
      assert StepsPaced(c, run[i - 1], run[i]);
      var step :| Next(c, run[i - 1], step, run[i]) && Paced(c, run[i - 1], step);
      PacedKeeps(c, run[i - 1], step, run[i]);
    }
    InStepCommon(c, run[i]);
  }

  lemma {:induction false} OrderedInOrder(c: Cfg, run: seq<Sys>, i: nat)
    requires IsOrdered(c, run, Peers(c.n)) && i < |run|
    ensures AbaSystem.InOrder(c, run[i])
    ensures i > 0 ==> StepsPaced(c, run[i - 1], run[i])
  {
    hide Init, AbaSystem.InOrder, Next, Paced, Ordered;
    if i == 0 {
      InitInStep(c, run[0]);
    } else {
      OrderedInOrder(c, run, i - 1);
      assert StepsOrdered(c, run[i - 1], run[i], Peers(c.n));
      var step :| Next(c, run[i - 1], step, run[i]) && Ordered(c, run[i - 1], step, Peers(c.n));
      OrderedKeeps(c, run[i - 1], step, run[i]);
    }
  }

  // Links that deliver every sender's shares in round order, over the round's hash,
  // pace the coins.
  lemma OrderedIsPaced(c: Cfg, run: seq<Sys>)
    requires IsOrdered(c, run, Peers(c.n))
    ensures IsPaced(c, run)
  {
    hide StepsPaced, Init;
    forall i | 0 < i < |run| ensures StepsPaced(c, run[i - 1], run[i]) {
      OrderedInOrder(c, run, i);
    }
  }

  // In such a run the bit taken in round r is round r's coin, at every peer.
  lemma TakenIsCoin(c: Cfg, run: seq<Sys>, i: nat, p: int, r: nat)
    requires IsOrdered(c, run, Peers(c.n)) && i < |run| && p in Correct(c) && p in run[i]
    requires r < |run[i][p].coin.taken|
    ensures run[i][p].coin.taken[r] == c.hash(r) % 2
  {
    hide IsOrdered, IsPaced;
    OrderedIsPaced(c, run);
    PacedInStep(c, run, i);
  }

  // ----- agreement -----

  // Both peers' state at the later of two points, where the invariant holds.
  lemma Later(c: Cfg, run: seq<Sys>, i: nat, j: nat, p: int, q: int) returns (k: nat)
    requires ValidCfg(c) && IsRun(c, run) && i < |run| && j < |run| && p in Correct(c) && q in Correct(c)
    ensures i <= k && j <= k && k < |run| && Inv(c, run[k])
    ensures p in run[i] && q in run[j] && p in run[k] && q in run[k]
    ensures NodeGrows(run[i][p], run[k][p]) && NodeGrows(run[j][q], run[k][q])
  {
    hide ValidCfg, IsRun, Inv, NodeGrows;
    k := if i < j then j else i;
    RunInv(c, run, k);
    RunGrows(c, run, i, k, p);
    RunGrows(c, run, j, k, q);
  }

  // Agreement: any two outputs of correct peers are equal, at any points of a run
  // and from any rounds.
  lemma Agreement(c: Cfg, run: seq<Sys>, i: nat, j: nat, p: int, v: int, q: int, w: int)
    requires ValidCfg(c) && IsPaced(c, run) && i < |run| && j < |run|
    requires p in Correct(c) && q in Correct(c) && p in run[i] && q in run[j]
    requires v in run[i][p].hist.outs && w in run[j][q].hist.outs
    ensures v == w
  {
    hide ValidCfg, IsRun, IsPaced, Inv, CommonCoin, InStep;
    PacedInStep(c, run, i);
    var k := Later(c, run, i, j, p, q);
    PacedInStep(c, run, k);
    OutputsAgree(c, run[k], p, v, q, w);
  }

  lemma AgreementOrdered(c: Cfg, run: seq<Sys>, i: nat, j: nat, p: int, v: int, q: int, w: int)
    requires ValidCfg(c) && IsOrdered(c, run, Peers(c.n)) && i < |run| && j < |run|
    requires p in Correct(c) && q in Correct(c) && p in run[i] && q in run[j]
    requires v in run[i][p].hist.outs && w in run[j][q].hist.outs
    ensures v == w
  {
    hide ValidCfg, IsOrdered, IsPaced;
    OrderedIsPaced(c, run);
    Agreement(c, run, i, j, p, v, q, w);
  }

  lemma DecisionStays(s: Sys, s': Sys, p: int, r: int, v: int)
    requires DecidedIn(s, p, r, v) && p in s' && NodeGrows(s[p], s'[p])
    ensures DecidedIn(s', p, r, v)
  {
  }

  // Estimates are never revised, so what is uniform later was uniform before.
  lemma UniformBefore(c: Cfg, run: seq<Sys>, j: nat, k: nat, r: int, v: int)
    requires IsRun(c, run) && j <= k < |run| && Uniform(c, run[k], r, v)
    ensures Uniform(c, run[j], r, v)
  {
    hide IsRun;
    forall q | q in Correct(c) && q in run[j] && 0 <= r < |run[j][q].hist.ests| ensures run[j][q].hist.ests[r] == v {
      RunGrows(c, run, j, k, q);
    }
  }

  // The lock: if p decides v in round r, then in every round k after r every
  // correct peer has estimate v, no binary value but v, and no other value from
  // confThreshold, whether looked at before or after p decided.
  lemma Lock(c: Cfg, run: seq<Sys>, i: nat, p: int, r: nat, v: int, j: nat, q: int, k: nat)
    requires ValidCfg(c) && IsPaced(c, run) && i < |run| && j < |run| && p in Correct(c) && q in Correct(c)
    requires DecidedIn(run[i], p, r, v) && k > r
    ensures q in run[j] && Uniform(c, run[j], k, v)
    ensures k < |run[j][q].hist.ests| ==> run[j][q].hist.ests[k] == v
    ensures forall w :: w in Values(run[j][q].board.binValues, k) ==> w == v
    ensures k < |run[j][q].hist.vals| ==> run[j][q].hist.vals[k] == v
  {
    hide ValidCfg, IsRun, IsPaced, CommonCoin, InStep, LocalInv, Received, EstsJustified;
    PacedInStep(c, run, i);
    var l := Later(c, run, i, j, p, q);
    PacedInStep(c, run, l);
    DecisionStays(run[i], run[l], p, r, v);
    DecisionLocks(c, run[l], p, r, v);
    Bits(c, run[l], p, r);
    UniformFrom(c, run[l], r + 1, v, k);
    UniformBefore(c, run, j, l, k, v);
    RunInv(c, run, j);
    UniformBins(c, run[j], k, v, q);
    UniformVals(c, run[j], k, v, q);
  }

  lemma LockOrdered(c: Cfg, run: seq<Sys>, i: nat, p: int, r: nat, v: int, j: nat, q: int, k: nat)
    requires ValidCfg(c) && IsOrdered(c, run, Peers(c.n)) && i < |run| && j < |run| && p in Correct(c)
             && q in Correct(c)
    requires DecidedIn(run[i], p, r, v) && k > r
    ensures q in run[j]
    ensures k < |run[j][q].hist.ests| ==> run[j][q].hist.ests[k] == v
    ensures forall w :: w in Values(run[j][q].board.binValues, k) ==> w == v
    ensures k < |run[j][q].hist.vals| ==> run[j][q].hist.vals[k] == v
  {
    hide ValidCfg, IsOrdered, IsPaced;
    OrderedIsPaced(c, run);
    Lock(c, run, i, p, r, v, j, q, k);
  }

  // A hit makes a decision, of whatever round it is.
  lemma HitDecides(c: Cfg, s: Sys, q: int, k: nat, v: int) returns (w: int)
    requires Inv(c, s) && q in Correct(c) && DecidedIn(s, q, k, v)
    ensures s[q].decided == Some(w) && s[q].hist.outs == [w]
  {
    assert LocalInv(s[q], PeerOf(c, q));
    w := s[q].decided.value;
  }

  // A stopped peer hit twice on its decision, last in the round it stopped in.
  lemma StoppedHits(c: Cfg, s: Sys, p: int) returns (v: int, r: nat)
    requires Inv(c, s) && p in Correct(c) && s[p].phase == Stopped
    ensures s[p].decided == Some(v) && s[p].hist.outs == [v] && r < s[p].round
    ensures DecidedIn(s, p, r, v) && DecidedIn(s, p, s[p].round, v)
  {
    hide VotesInv, LogInv, Received, EstsJustified;
    assert LocalInv(s[p], PeerOf(c, p));
    v := s[p].decided.value;
    r :| r < s[p].round && Hit(s[p].hist.vals, s[p].coin.taken, r, v);
  }

  // A correct peer has stopped exactly when its output v was, in two rounds, its
  // value and the bit it took.
  lemma StopsIff(c: Cfg, run: seq<Sys>, i: nat, p: int)
    requires ValidCfg(c) && IsRun(c, run) && i < |run| && p in Correct(c)
    ensures p in run[i]
    ensures run[i][p].phase == Stopped <==>
      exists v, r, k :: run[i][p].hist.outs == [v] && r < k && DecidedIn(run[i], p, r, v) && DecidedIn(run[i], p, k, v)
  {
    hide ValidCfg, IsRun, VotesInv, LogInv, Received, EstsJustified;
    RunInv(c, run, i);
    assert LocalInv(run[i][p], PeerOf(c, p));
    if run[i][p].phase == Stopped {
      var v, r := StoppedHits(c, run[i], p);
      assert run[i][p].hist.outs == [v] && r < run[i][p].round;
    }
  }

  lemma TakenAfterVals(c: Cfg, s: Sys, q: int)
    requires Inv(c, s) && q in Correct(c)
    ensures |s[q].coin.taken| <= |s[q].hist.vals|
  {
    assert LocalInv(s[q], PeerOf(c, q));
  }

  // Nobody is left behind: if p ever stops in a round, every correct peer that has
  // completed that round, before or after, has decided and output p's value.
  lemma Stopping(c: Cfg, run: seq<Sys>, i: nat, p: int, j: nat, q: int)
    requires ValidCfg(c) && IsPaced(c, run) && i < |run| && j < |run| && p in Correct(c) && q in Correct(c)
    requires p in run[i] && q in run[j]
    requires run[i][p].phase == Stopped && |run[j][q].coin.taken| > run[i][p].round
    ensures run[i][p].decided.Some? && run[j][q].decided == run[i][p].decided
    ensures run[j][q].hist.outs == [run[i][p].decided.value]
  {
    hide ValidCfg, IsRun, IsPaced, Inv, Uniform, LocalInv;
    PacedInStep(c, run, i);
    PacedInStep(c, run, j);
    RunInv(c, run, i);
    RunInv(c, run, j);
    var v, r := StoppedHits(c, run[i], p);
    var k := run[i][p].round;
    Lock(c, run, i, p, r, v, j, q, k);
    TakenAfterVals(c, run[j], q);
    assert DecidedIn(run[j], q, k, v);
    var w := HitDecides(c, run[j], q, k, v);
    Agreement(c, run, i, j, p, v, q, w);
  }

  lemma StoppingOrdered(c: Cfg, run: seq<Sys>, i: nat, p: int, j: nat, q: int)
    requires ValidCfg(c) && IsOrdered(c, run, Peers(c.n)) && i < |run| && j < |run| && p in Correct(c)
             && q in Correct(c)
    requires p in run[i] && q in run[j]
    requires run[i][p].phase == Stopped && |run[j][q].coin.taken| > run[i][p].round
    ensures run[i][p].decided.Some? && run[j][q].decided == run[i][p].decided
    ensures run[j][q].hist.outs == [run[i][p].decided.value]
  {
    hide ValidCfg, IsOrdered, IsPaced;
    OrderedIsPaced(c, run);
    Stopping(c, run, i, p, j, q);
  }

  // ----- whatever the coins -----

  // In one round confThreshold never returns 0 at one correct peer and 1 at
  // another, whenever each gets there.
  lemma NoConflict(c: Cfg, run: seq<Sys>, i: nat, p: int, j: nat, q: int, r: nat)
    requires ValidCfg(c) && IsRun(c, run) && i < |run| && j < |run| && p in Correct(c) && q in Correct(c)
    requires p in run[i] && r < |run[i][p].hist.vals| && run[i][p].hist.vals[r] != BOTH
    requires q in run[j] && r < |run[j][q].hist.vals| && run[j][q].hist.vals[r] != BOTH
    ensures run[i][p].hist.vals[r] == run[j][q].hist.vals[r]
  {
    hide ValidCfg, IsRun, Inv;
    var k := Later(c, run, i, j, p, q);
    NoConflictingValues(c, run[k], r, p, q);
  }

  // Validity: if no correct peer ever has another input than v, none outputs
  // anything else.
  lemma OnlyInputs(c: Cfg, run: seq<Sys>, v: int, i: nat, q: int, w: int)
    requires ValidCfg(c) && IsRun(c, run) && i < |run| && q in Correct(c) && q in run[i] && v in {0, 1}
    requires Uniform(c, run[i], 0, v) && w in run[i][q].hist.outs
    ensures w == v
  {
    hide ValidCfg, IsRun, Inv, Uniform;
    RunInv(c, run, i);
    Validity(c, run[i], v, q, w);
  }

  // Justification: every binary value is a bit, listed once, and was the estimate
  // of a correct peer in that round.
  lemma Justification(c: Cfg, run: seq<Sys>, i: nat, p: int, r: int, v: int)
    requires ValidCfg(c) && IsRun(c, run) && i < |run| && p in Correct(c) && p in run[i]
    requires v in Values(run[i][p].board.binValues, r)
    ensures v in {0, 1} && Estimated(c, run[i], r, v) && Distinct(Values(run[i][p].board.binValues, r))
  {
    hide ValidCfg, IsRun, Inv;
    RunInv(c, run, i);
    BinJustified(c, run[i], p, r, v);
  }

  // Convergence: where every EST of round r that a correct peer sent has been
  // handled by all, all have the same binary values for r, also those still
  // without an input.
  lemma Convergence(c: Cfg, run: seq<Sys>, i: nat, r: int, p: int, q: int)
    requires ValidCfg(c) && IsRun(c, run) && i < |run| && p in Correct(c) && q in Correct(c)
    requires EstsHandled(c, run[i], r)
    ensures p in run[i] && q in run[i]
    ensures forall v :: v in Values(run[i][p].board.binValues, r) <==> v in Values(run[i][q].board.binValues, r)
  {
    hide ValidCfg, IsRun, EstsHandled, LocalInv, Received, EstsJustified;
    RunInv(c, run, i);
    forall v ensures v in Values(run[i][p].board.binValues, r) <==> v in Values(run[i][q].board.binValues, r) {
      if v in Values(run[i][p].board.binValues, r) {
        BinConverges(c, run[i], r, p, q, v);
      }
      if v in Values(run[i][q].board.binValues, r) {
        BinConverges(c, run[i], r, q, p, v);
      }
    }
  }
}
